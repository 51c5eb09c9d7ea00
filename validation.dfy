/**
 * The required-field check at the start of the submit handler of `App`:
 * every one of the six form inputs must be non-empty, and each empty one
 * gets a fixed French message under its own key.
 */
module Validation {

  /** The keys of the error object, one per form input. */
  datatype Field = State | City | Long | Lat | StartDate | EndDate

  /** The six controlled inputs: wilaya code, city name, longitude, latitude and the date range. */
  datatype Form = Form(state: string, city: string, long: string, lat: string,
                       startDate: string, endDate: string)

  const AllFields: set<Field> := {State, City, Long, Lat, StartDate, EndDate}

  function Value(form: Form, f: Field): string
  {
    match f
    case State => form.state
    case City => form.city
    case Long => form.long
    case Lat => form.lat
    case StartDate => form.startDate
    case EndDate => form.endDate
  }

  /** The message stored under each key when that input is empty. */
  function Message(f: Field): (m: string)
    ensures m != ""
  {
    match f
    case State => "Veuillez sélectionner une Wilaya."
    case City => "Veuillez sélectionner une ville."
    case Long => "La longitude est requise."
    case Lat => "La latitude est requise."
    case StartDate => "La date de début est requise."
    case EndDate => "La date de fin est requise."
  }

  /** The two tests `!x && x.length === 0` of the source: on a string both say "x is empty". */
  predicate Missing(form: Form, f: Field)
  {
    Value(form, f) == ""
  }

  /** The error object the handler builds for `form`. */
  function ErrorMap(form: Form): map<Field, string>
  {
    map f | f in AllFields && Missing(form, f) :: Message(f)
  }

  /** The part of the error object contributed by the tests of the inputs in `fs`. */
  ghost function ErrorsAmong(form: Form, fs: set<Field>): map<Field, string>
  {
    map f | f in fs && Missing(form, f) :: Message(f)
  }

  predicate Complete(form: Form)
  {
    forall f :: !Missing(form, f)
  }

  /**
   * The successive assignments of the handler: one presence test per
   * input, in source order, each adding that input's message.
   */
  method Validate(form: Form) returns (errors: map<Field, string>)
    ensures forall f :: f in errors <==> Missing(form, f)
    ensures forall f :: f in errors ==> errors[f] == Message(f)
    ensures errors == ErrorMap(form)
  {
    errors := map[];
    ghost var seen: set<Field> := {};
    AddStep(form, seen, State, errors);
    if form.state == "" {
      errors := errors[State := Message(State)];
    }
    seen := seen + {State};
    AddStep(form, seen, City, errors);
    if form.city == "" {
      errors := errors[City := Message(City)];
    }
    seen := seen + {City};
    AddStep(form, seen, Long, errors);
    if form.long == "" {
      errors := errors[Long := Message(Long)];
    }
    seen := seen + {Long};
    AddStep(form, seen, Lat, errors);
    if form.lat == "" {
      errors := errors[Lat := Message(Lat)];
    }
    seen := seen + {Lat};
    AddStep(form, seen, StartDate, errors);
    if form.startDate == "" {
      errors := errors[StartDate := Message(StartDate)];
    }
    seen := seen + {StartDate};
    AddStep(form, seen, EndDate, errors);
    if form.endDate == "" {
      errors := errors[EndDate := Message(EndDate)];
    }
    seen := seen + {EndDate};
    assert seen == AllFields;
    ErrorMapExactlyMissing(form);
  }

  /** One presence test extends the error object from the inputs `seen` to `seen + {f}`. */
  lemma AddStep(form: Form, seen: set<Field>, f: Field, errors: map<Field, string>)
    requires errors == ErrorsAmong(form, seen)
    ensures (if Missing(form, f) then errors[f := Message(f)] else errors) == ErrorsAmong(form, seen + {f})
  {
  }

  /** The error map names exactly the empty inputs, each with its fixed message. */
  lemma ErrorMapExactlyMissing(form: Form)
    ensures forall f :: f in ErrorMap(form) <==> Missing(form, f)
    ensures forall f :: f in ErrorMap(form) ==> ErrorMap(form)[f] == Message(f)
  {
  }

  /** `Object.keys(errors).length > 0` holds exactly when some input is empty. */
  lemma ErrorMapEmptyIffComplete(form: Form)
    ensures |ErrorMap(form)| == 0 <==> Complete(form)
  {
    ErrorMapExactlyMissing(form);
    if !Complete(form) {
      var f :| Missing(form, f);
      assert f in ErrorMap(form);
    }
  }

  /** Submitting the all-empty form reports all six inputs. */
  lemma AllEmptyGivesSixErrors()
    ensures |ErrorMap(Form("", "", "", "", "", ""))| == 6
  {
    var e := ErrorMap(Form("", "", "", "", "", ""));
    ErrorMapExactlyMissing(Form("", "", "", "", "", ""));
    assert e.Keys == AllFields;
    assert |AllFields| == 6;
  }
}
