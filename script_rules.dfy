/** The value rules shared by the v1, v2 and 17thFeb generator scripts, whose
    `apply_transformation` and `validate_data` are the same text in all three:
    a MAP lookup table with identity fallback, and NUMBER / TEXT checks that
    clear the module-level `validation_success` flag on a rejection. */
module ScriptRules {
  import opened Text
  import opened Json

  /** `apply_transformation(value, transformation)` for a string value. */
  function ApplyTransformation(value: string, transformation: Json): (r: Py<Json>)
    ensures !Truthy(transformation) ==> r == Ok(JStr(value))
    ensures Truthy(transformation) && !transformation.JObj? ==> r == Raise(AttributeError)
    ensures transformation.JObj? && Lookup(transformation.fields, "type") != Some(JStr("MAP"))
            ==> r == Ok(JStr(value))
  {
    if !Truthy(transformation) then Ok(JStr(value))
    else
      var kind :- DictGet(transformation, "type", JNull);
      if kind == JStr("MAP") then
        var values :- GetItem(transformation, "values");
        DictGet(values, value, JStr(value))
      else Ok(JStr(value))
  }

  /** A MAP rule: a dict whose "type" is "MAP" and whose "values" is a dict. */
  predicate IsMap(transformation: Json) {
    transformation.JObj? && Lookup(transformation.fields, "type") == Some(JStr("MAP"))
    && Lookup(transformation.fields, "values").Some?
    && Lookup(transformation.fields, "values").value.JObj?
  }

  /** The transformation changes a value only through a MAP table entry for
      exactly that value; without one the value comes back as it was. */
  lemma TransformationIsTableLookup(value: string, transformation: Json)
    requires IsMap(transformation)
    ensures var table := Lookup(transformation.fields, "values").value.fields;
            ApplyTransformation(value, transformation)
            == Ok(if HasKey(table, value) then Lookup(table, value).value else JStr(value))
  {
  }

  /** Every successful transformation is the identity or a MAP table hit. */
  lemma TransformationIdentityOrHit(value: string, transformation: Json)
    requires ApplyTransformation(value, transformation).Ok?
    ensures var r := ApplyTransformation(value, transformation).value;
            r == JStr(value)
            || (IsMap(transformation)
                && Lookup(Lookup(transformation.fields, "values").value.fields, value) == Some(r))
  {
  }

  /** The outcome of `validate_data` short of an exception: the value it
      returns (None on a rejection) and whether it cleared the flag. */
  datatype Checked = Checked(value: Json, rejected: bool)

  /** `validate_data(value, rule, name)` without its effect on the flag. */
  function Validate(value: Json, rule: Json): (r: Py<Checked>)
    ensures r.Raise? <==> rule == JStr("NUMBER") && !value.JStr?
    ensures r.Ok? && r.value.rejected ==> r.value.value == JNull
    ensures r.Ok? && !r.value.rejected ==> r.value.value == value
    ensures r.Ok? ==> (r.value.rejected <==>
              (rule == JStr("NUMBER") && !IsDigits(value.s)) || (rule == JStr("TEXT") && !value.JStr?))
  {
    if rule == JStr("NUMBER") then
      if !value.JStr? then Raise(AttributeError)
      else if IsDigits(value.s) then Ok(Checked(value, false))
      else Ok(Checked(JNull, true))
    else if rule == JStr("TEXT") then
      if value.JStr? then Ok(Checked(value, false)) else Ok(Checked(JNull, true))
    else Ok(Checked(value, false))
  }

  /** NUMBER means non-empty and all digits: no sign, no decimal point. */
  lemma NumberExamples()
    ensures Validate(JStr(""), JStr("NUMBER")) == Ok(Checked(JNull, true))
    ensures Validate(JStr("-5"), JStr("NUMBER")) == Ok(Checked(JNull, true))
    ensures Validate(JStr("1.5"), JStr("NUMBER")) == Ok(Checked(JNull, true))
    ensures Validate(JStr("042"), JStr("NUMBER")) == Ok(Checked(JStr("042"), false))
  {
    assert !IsDigit("-5"[0]);
    assert !IsDigit("1.5"[1]);
    assert IsDigits("042") by {
      assert forall i :: 0 <= i < 3 ==> IsDigit("042"[i]);
    }
  }

  /** TEXT accepts every string, the empty one included; any other rule
      passes every value through. */
  lemma TextAndOtherRules(s: string, value: Json, rule: Json)
    ensures Validate(JStr(s), JStr("TEXT")) == Ok(Checked(JStr(s), false))
    ensures rule != JStr("NUMBER") && rule != JStr("TEXT") ==> Validate(value, rule) == Ok(Checked(value, false))
  {
  }

  /** The document under construction and the `validation_success` flag,
      as the recursive descriptions of the scripts thread them along. */
  datatype State = State(doc: Json, valid: bool)

  /** A method call ended as `spec` says: the same exception, or success
      with the document and the flag `spec` gives. */
  predicate Outcome(spec: Py<State>, r: Py<()>, root: Json, valid: bool) {
    match spec
    case Raise(e) => r == Raise(e)
    case Ok(s) => r.Ok? && root == s.doc && valid == s.valid
  }

  /** The module-level state of a generator script. */
  class Globals {
    /** `validation_success`: starts true; only a rejection changes it. */
    var validationSuccess: bool

    constructor ()
      ensures validationSuccess
    {
      validationSuccess := true;
    }

    /** `validate_data`: a rejection returns None and clears the flag; the
        flag is never set back to true. */
    method ValidateData(value: Json, rule: Json) returns (r: Py<Json>)
      modifies this
      ensures Validate(value, rule).Raise? ==> r == Raise(Validate(value, rule).error)
      ensures Validate(value, rule).Ok? ==> r == Ok(Validate(value, rule).value.value)
      ensures validationSuccess == (old(validationSuccess)
                && !(Validate(value, rule).Ok? && Validate(value, rule).value.rejected))
    {
      if rule == JStr("NUMBER") {
        if !value.JStr? {
          return Raise(AttributeError);
        }
        if !IsDigits(value.s) {
          validationSuccess := false;
          return Ok(JNull);
        }
      } else if rule == JStr("TEXT") {
        if !value.JStr? {
          validationSuccess := false;
          return Ok(JNull);
        }
      }
      return Ok(value);
    }
  }
}
