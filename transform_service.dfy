/** The mapping core of the transform service (`TransformService`): every
    configured segment is extracted from the parsed source document and
    every instance is mapped field by field into one output dict, which the
    methods update in place. A field value is unwrapped from `#text`,
    defaulted when empty, transformed by a `MAP` table, validated as
    `NUMBER` or `TEXT`, and written at its dotted `target` unless
    validation rejected it. */
module TransformService {
  import opened Text
  import opened Json
  import opened XmlParser
  import opened PathV2
  import opened ServicePath

  // ---------------------------------------------------------------------
  // Transformation and validation of one value

  /** `_apply_transformation(value, transformation)`. */
  function ApplyTransformationSvc(value: Json, t: Json): (r: Py<Json>)
    ensures !Truthy(t) ==> r == Ok(value)
    ensures Truthy(t) && !t.JObj? ==> r == Raise(AttributeError)
    ensures t.JObj? && GetOrNone(t.fields, "type") != JStr("MAP") ==> r == Ok(value)
    ensures t.JObj? && GetOrNone(t.fields, "type") == JStr("MAP") ==>
              var values := DictGet(t, "values", EmptyObj).value;
              (r.Ok? <==> values.JObj?)
              && (r.Ok? ==> r.value == match Lookup(values.fields, PyStr(value)) case Some(m) => m case None => value)
  {
    if !Truthy(t) then Ok(value)
    else
      var kind :- DictGet(t, "type", JNull);
      if kind == JStr("MAP") then
        var values := DictGet(t, "values", EmptyObj).value;
        DictGet(values, PyStr(value), value)
      else Ok(value)
  }

  /** A transformation gives back the value itself or an entry of its
      `values` table. */
  lemma TransformationIdentityOrEntry(value: Json, t: Json)
    requires ApplyTransformationSvc(value, t).Ok?
    ensures var r := ApplyTransformationSvc(value, t).value;
            r == value
            || (t.JObj? && DictGet(t, "values", EmptyObj).value.JObj?
                && exists k :: Lookup(DictGet(t, "values", EmptyObj).value.fields, k) == Some(r))
  {
    var r := ApplyTransformationSvc(value, t).value;
    if r != value {
      var values := DictGet(t, "values", EmptyObj).value;
      assert Lookup(values.fields, PyStr(value)) == Some(r);
    }
  }

  /** What `value.replace('.', '', 1).isdigit()` accepts, stated on its
      own: digits with at most one decimal point and at least one digit. */
  predicate AllDigits(s: string) {
    forall k :: 0 <= k < |s| ==> IsDigit(s[k])
  }

  predicate Decimal(s: string) {
    IsDigits(s)
    || (|s| >= 2 && exists i :: 0 <= i < |s| && s[i] == '.' && AllDigits(s[..i]) && AllDigits(s[i + 1..]))
  }

  lemma NumberRuleIsDecimal(s: string)
    ensures IsDigits(RemoveFirst(s, '.')) <==> Decimal(s)
  {
    if '.' in s {
      assert !IsDigits(s) by {
        var j :| 0 <= j < |s| && s[j] == '.';
      }
      if IsDigits(RemoveFirst(s, '.')) {
        DigitsAroundPoint(s);
      }
      if Decimal(s) {
        PointBetweenDigits(s);
      }
    }
  }

  /** Removing the first point leaves digits only when the parts before and
      after it are digits. */
  lemma DigitsAroundPoint(s: string)
    requires '.' in s && IsDigits(RemoveFirst(s, '.'))
    ensures Decimal(s)
  {
    var i := FirstIndex(s, '.');
    var r := RemoveFirst(s, '.');
    var head := s[..i];
    var tail := s[i + 1..];
    assert r == head + tail;
    assert AllDigits(head) by {
      forall k | 0 <= k < |head| ensures IsDigit(head[k]) {
        assert head[k] == r[k];
      }
    }
    assert AllDigits(tail) by {
      forall k | 0 <= k < |tail| ensures IsDigit(tail[k]) {
        assert tail[k] == r[i + k];
      }
    }
  }

  /** Digits around a single point are digits once the point is removed. */
  lemma PointBetweenDigits(s: string)
    requires '.' in s && Decimal(s)
    ensures IsDigits(RemoveFirst(s, '.'))
  {
    var i := FirstIndex(s, '.');
    var r := RemoveFirst(s, '.');
    var j :| 0 <= j < |s| && s[j] == '.' && AllDigits(s[..j]) && AllDigits(s[j + 1..]);
    assert '.' !in s[..j] by {
      forall k | 0 <= k < j ensures s[..j][k] != '.' {
        assert IsDigit(s[..j][k]);
      }
    }
    FirstIndexAt(s, '.', j);
    var head := s[..i];
    var tail := s[i + 1..];
    assert r == head + tail;
    forall k | 0 <= k < |r| ensures IsDigit(r[k]) {
      if k < i {
        assert r[k] == head[k];
      } else {
        assert r[k] == tail[k - i];
      }
    }
  }

  /** `_validate_field(value, validation_rule, field_name)`; `JNull` is
      `None`, which means the value is rejected. */
  function ValidateField(value: Json, rule: Json): (r: Py<Json>)
    ensures value == JNull || value == JStr("") ==> r == Ok(JNull)
    ensures value != JNull && value != JStr("") ==> (r.Raise? <==> !rule.JStr?)
    ensures r.Raise? ==> r.error == AttributeError
    ensures r.Ok? && r.value != JNull ==> r.value == JStr(Strip(PyStr(value)))
    ensures (value != JNull && value != JStr("") && rule.JStr? && Upper(rule.s) == "NUMBER") ==>
              (r.Ok? && r.value != JNull <==> Decimal(Strip(PyStr(value))))
    ensures (value != JNull && value != JStr("") && rule.JStr? && Upper(rule.s) == "TEXT") ==>
              (r.Ok? && r.value != JNull <==> Strip(PyStr(value)) != "")
    ensures (value != JNull && value != JStr("") && rule.JStr? && Upper(rule.s) != "NUMBER" && Upper(rule.s) != "TEXT") ==>
              r == Ok(JStr(Strip(PyStr(value))))
  {
    if value == JNull || value == JStr("") then Ok(JNull)
    else
      var v := Strip(PyStr(value));
      if !rule.JStr? then Raise(AttributeError)
      else if Upper(rule.s) == "NUMBER" then
        NumberRuleIsDecimal(v);
        Ok(if IsDigits(RemoveFirst(v, '.')) then JStr(v) else JNull)
      else if Upper(rule.s) == "TEXT" then Ok(if v == "" then JNull else JStr(v))
      else Ok(JStr(v))
  }

  /** A value the validation accepted passes it again unchanged. */
  lemma ValidateIdempotent(value: Json, rule: Json)
    requires ValidateField(value, rule).Ok? && ValidateField(value, rule).value != JNull
    requires ValidateField(value, rule).value != JStr("")
    ensures ValidateField(ValidateField(value, rule).value, rule) == ValidateField(value, rule)
  {
    var v := Strip(PyStr(value));
    StripKeeps(v);
  }

  /** Decimal forms the `NUMBER` rule accepts. */
  lemma DecimalAccepted()
    ensures Decimal("12.5") && Decimal("12.") && Decimal(".5") && Decimal("007")
  {
    assert "12.5"[2] == '.' && "12.5"[..2] == "12" && "12.5"[3..] == "5";
    assert "12."[2] == '.' && "12."[..2] == "12" && "12."[3..] == "";
    assert ".5"[0] == '.' && ".5"[..0] == "" && ".5"[1..] == "5";
  }

  /** Forms the `NUMBER` rule rejects: two points, a sign, a lone point,
      nothing at all. */
  lemma DecimalRejected()
    ensures !Decimal("1.2.3")
    ensures !Decimal("-5")
    ensures !Decimal(".")
    ensures !Decimal("")
  {
    var s := "1.2.3";
    assert !IsDigit(s[1]);
    forall i | 0 <= i < |s| && s[i] == '.' ensures !(AllDigits(s[..i]) && AllDigits(s[i + 1..])) {
      if i == 1 {
        assert s[i + 1..][1] == '.';
      } else {
        assert s[..i][1] == '.';
      }
    }
    assert !IsDigit("-5"[0]);
    assert "-5"[0] != '.' && "-5"[1] != '.';
    assert !IsDigit("."[0]);
  }

  /** Rule names are matched in any case, and a blank text is rejected. */
  /** Under a number rule, in any letter case, a value without surrounding
      blanks is kept exactly when it is a decimal, and replaced by None
      otherwise. */
  lemma NumberRuleOn(s: string, rule: string)
    requires s != "" && Strip(s) == s && Upper(rule) == "NUMBER"
    ensures ValidateField(JStr(s), JStr(rule)) == Ok(if Decimal(s) then JStr(s) else JNull)
  {
    assert PyStr(JStr(s)) == s;
  }

  /** Under a text rule, in any letter case, a non-empty value of blanks only
      is replaced by None. */
  lemma TextRuleOnBlank(s: string, rule: string)
    requires s != "" && Strip(s) == "" && Upper(rule) == "TEXT"
    ensures ValidateField(JStr(s), JStr(rule)) == Ok(JNull)
  {
    assert PyStr(JStr(s)) == s;
  }

  /** The rule names of RuleExamples, upper-cased. */
  lemma ExampleRules()
    ensures Upper("number") == "NUMBER" && Upper("Number") == "NUMBER" && Upper("text") == "TEXT"
  {
    assert Upper("number") == "NUMBER";
    assert Upper("Number") == "NUMBER";
  }

  /** The values of RuleExamples, stripped. */
  lemma ExampleTexts()
    ensures Strip("12.5") == "12.5" && Strip("-5") == "-5" && Strip("   ") == ""
  {
    StripKeeps("12.5");
    StripKeeps("-5");
    StripBlank("   ");
  }

  lemma RuleExamples()
    ensures ValidateField(JStr("12.5"), JStr("number")) == Ok(JStr("12.5"))
    ensures ValidateField(JStr("-5"), JStr("Number")) == Ok(JNull)
    ensures ValidateField(JStr("   "), JStr("text")) == Ok(JNull)
  {
    ExampleRules();
    ExampleTexts();
    DecimalAccepted();
    DecimalRejected();
    NumberRuleOn("12.5", "number");
    NumberRuleOn("-5", "Number");
    TextRuleOnBlank("   ", "text");
  }

  // ---------------------------------------------------------------------
  // Mapping one segment

  /** The incoming value of a field: `#text` unwrapped, then the
      `default_value` (default "") in place of an empty one. `False` is not
      replaced, since `False != 0` is false. */
  function Incoming(raw: Json, fm: Json): (r: Json)
    requires fm.JObj?
    ensures var v := if raw.JObj? && HasKey(raw.fields, "#text") then Lookup(raw.fields, "#text").value else raw;
            (Truthy(v) || v == JBool(false) ==> r == v)
            && (!Truthy(v) && v != JBool(false) ==> r == match Lookup(fm.fields, "default_value") case Some(d) => d case None => JStr(""))
  {
    var v := if raw.JObj? && HasKey(raw.fields, "#text") then Lookup(raw.fields, "#text").value else raw;
    if !Truthy(v) && v != JBool(false) then DictGet(fm, "default_value", JStr("")).value else v
  }

  /** The write of an accepted value at a field's `target`; a target that
      is not a str has no `split`. */
  function WriteTarget(out: Json, target: Json, v: Json): (r: Py<Json>)
    ensures !target.JStr? ==> r == Raise(AttributeError)
    ensures target.JStr? ==> var keys := Split(target.s, '.'); r == WriteSvc(out, keys, keys[|keys| - 1], v)
  {
    if !target.JStr? then Raise(AttributeError)
    else
      var keys := Split(target.s, '.');
      WriteSvc(out, keys, keys[|keys| - 1], v)
  }

  /** The value a field with a `target` contributes, or `JNull` when none
      is written. */
  function LeafValue(segment: Json, name: string, fm: Json): Py<Json>
    requires fm.JObj?
  {
    var raw :- DictGet(segment, name, JStr(""));
    var fv := Incoming(raw, fm);
    var t := GetOrNone(fm.fields, "transformation");
    var transformed :- if Truthy(t) && Truthy(fv) then ApplyTransformationSvc(fv, t) else Ok(fv);
    var rule := GetOrNone(fm.fields, "validation");
    if Truthy(rule) then ValidateField(transformed, rule) else Ok(transformed)
  }

  /** One `(field_name, field_mapping)` entry with a `target`. */
  function LeafSvc(segment: Json, name: string, fm: Json, out: Json): Py<Json>
    requires fm.JObj? && HasKey(fm.fields, "target")
  {
    PutValue(LeafValue(segment, name, fm), Lookup(fm.fields, "target").value, out)
  }

  /** The value of a leaf, or the exception computing it raised, put at
      the target unless it is None. */
  function PutValue(lv: Py<Json>, target: Json, out: Json): Py<Json> {
    var v :- lv;
    if v == JNull then Ok(out) else WriteTarget(out, target, v)
  }

  /** `_process_segment(segment, segment_mapping, output_json)` as a value:
      the output after every entry, or the exception that escapes. */
  function SegmentSvc(segment: Json, sm: Json, out: Json): Py<Json>
    decreases sm, 1
  {
    if !sm.JObj? then Raise(AttributeError) else FieldsSvc(segment, sm, 0, out)
  }

  function FieldsSvc(segment: Json, sm: Json, i: nat, out: Json): Py<Json>
    requires sm.JObj? && i <= |sm.fields|
    decreases sm, 0, |sm.fields| - i
  {
    if i == |sm.fields| then Ok(out)
    else
      var out' :- FieldSvc(segment, sm.fields[i].0, sm.fields[i].1, out);
      FieldsSvc(segment, sm, i + 1, out')
  }

  /** One entry: a dict with `target` is a field; any other dict maps the
      nested segment found under the same name, when that is non-empty,
      into the same output; anything else is ignored. */
  function FieldSvc(segment: Json, name: string, fm: Json, out: Json): Py<Json>
    decreases fm, 2
  {
    if fm.JObj? && HasKey(fm.fields, "target") then LeafSvc(segment, name, fm, out)
    else if fm.JObj? then
      var nested :- DictGet(segment, name, EmptyObj);
      if Truthy(nested) then SegmentSvc(nested, fm, out) else Ok(out)
    else Ok(out)
  }

  /** What a method did, measured against the specification `spec`: on success the
      root is the specified output; on an exception only the exception is fixed. */
  predicate Done(spec: Py<Json>, r: Py<()>, root: Json) {
    match spec
    case Raise(e) => r == Raise(e)
    case Ok(t) => r == Ok(()) && root == t
  }

  /** One entry with a `target`, written into the output in place. */
  method ProcessLeaf(segment: Json, name: string, fm: Json, doc: Document) returns (r: Py<()>)
    requires fm.JObj? && HasKey(fm.fields, "target")
    modifies doc
    ensures Done(LeafSvc(segment, name, fm, old(doc.root)), r, doc.root)
  {
    var lv := LeafValue(segment, name, fm);
    r := PutLeaf(lv, Lookup(fm.fields, "target").value, doc);
  }

  /** The write at the end of a leaf entry. */
  method PutLeaf(lv: Py<Json>, target: Json, doc: Document) returns (r: Py<()>)
    modifies doc
    ensures Done(PutValue(lv, target, old(doc.root)), r, doc.root)
  {
    if lv.Raise? {
      return Raise(lv.error);
    }
    var v := lv.value;
    if v == JNull {
      return Ok(());
    }
    if !target.JStr? {
      return Raise(AttributeError);
    }
    r := SetNestedValueSvc(doc, target.s, v);
  }

  method ProcessField(segment: Json, name: string, fm: Json, doc: Document) returns (r: Py<()>)
    modifies doc
    ensures Done(FieldSvc(segment, name, fm, old(doc.root)), r, doc.root)
    decreases fm, 2
  {
    if fm.JObj? && HasKey(fm.fields, "target") {
      r := ProcessLeaf(segment, name, fm, doc);
    } else if fm.JObj? {
      var nested :- DictGet(segment, name, EmptyObj);
      if Truthy(nested) {
        r := ProcessSegment(nested, fm, doc);
      } else {
        r := Ok(());
      }
    } else {
      r := Ok(());
    }
  }

  /** `_process_segment(segment, segment_mapping, output_json)`. */
  method ProcessSegment(segment: Json, sm: Json, doc: Document) returns (r: Py<()>)
    modifies doc
    ensures Done(SegmentSvc(segment, sm, old(doc.root)), r, doc.root)
    decreases sm, 1
  {
    if !sm.JObj? {
      return Raise(AttributeError);
    }
    for i := 0 to |sm.fields|
      invariant FieldsSvc(segment, sm, 0, old(doc.root)) == FieldsSvc(segment, sm, i, doc.root)
    {
      var step := ProcessField(segment, sm.fields[i].0, sm.fields[i].1, doc);
      if step.Raise? {
        return step;
      }
    }
    r := Ok(());
  }

  // ---------------------------------------------------------------------
  // Mapping a whole document

  /** Every extracted instance of one segment, from instance `j` on. */
  function InstancesSvc(segs: seq<Json>, sm: Json, j: nat, out: Json): Py<Json>
    requires j <= |segs|
    decreases |segs| - j
  {
    if j == |segs| then Ok(out)
    else
      var out' :- SegmentSvc(segs[j], sm, out);
      InstancesSvc(segs, sm, j + 1, out')
  }

  /** The configured segments from entry `i` on, in config order. */
  function EntriesSvc(xml: Json, ms: seq<(string, Json)>, i: nat, out: Json): Py<Json>
    requires i <= |ms|
    decreases |ms| - i
  {
    if i == |ms| then Ok(out)
    else
      var out' :- InstancesSvc(ExtractSegments(xml, ms[i].0), ms[i].1, 0, out);
      EntriesSvc(xml, ms, i + 1, out')
  }

  /** `_apply_mapping(xml_dict, config, output_json)` as a value. */
  function MappingSvc(xml: Json, config: Json, out: Json): Py<Json> {
    var mappings :- DictGet(config, "mappings", EmptyObj);
    if !mappings.JObj? then Raise(AttributeError) else EntriesSvc(xml, mappings.fields, 0, out)
  }

  /** `_apply_mapping(xml_dict, config, output_json)`. */
  method ApplyMapping(xml: Json, config: Json, doc: Document) returns (r: Py<()>)
    modifies doc
    ensures Done(MappingSvc(xml, config, old(doc.root)), r, doc.root)
  {
    var mappings :- DictGet(config, "mappings", EmptyObj);
    if !mappings.JObj? {
      return Raise(AttributeError);
    }
    var ms := mappings.fields;
    for i := 0 to |ms|
      invariant EntriesSvc(xml, ms, 0, old(doc.root)) == EntriesSvc(xml, ms, i, doc.root)
    {
      var segments := ExtractSegments(xml, ms[i].0);
      if segments == [] {
        continue;
      }
      ghost var before := doc.root;
      for j := 0 to |segments|
        invariant InstancesSvc(segments, ms[i].1, 0, before) == InstancesSvc(segments, ms[i].1, j, doc.root)
      {
        var step := ProcessSegment(segments[j], ms[i].1, doc);
        if step.Raise? {
          return step;
        }
      }
    }
    r := Ok(());
  }

  // ---------------------------------------------------------------------
  // What mapping a field does

  /** A field's value wrapped as `{'#text': v, ...}` (an element with
      attributes) is written as `v`. */
  lemma TextUnwrapped(name: string, attrs: seq<(string, Json)>, s: string, fm: seq<(string, Json)>)
    requires HasKey(attrs, "#text") && Lookup(attrs, "#text") == Some(JStr(s)) && s != ""
    requires HasKey(fm, "target") && !HasKey(fm, "transformation") && !HasKey(fm, "validation")
    ensures LeafValue(JObj([(name, JObj(attrs))]), name, JObj(fm)) == Ok(JStr(s))
  {
    assert Lookup([(name, JObj(attrs))], name) == Some(JObj(attrs));
  }

  /** A missing or empty field takes the `default_value` of its rule. */
  lemma DefaultUsed(segment: seq<(string, Json)>, name: string, fm: seq<(string, Json)>, d: Json)
    requires !HasKey(segment, name) || Lookup(segment, name) == Some(JStr(""))
    requires HasKey(fm, "target") && Lookup(fm, "default_value") == Some(d)
    requires !HasKey(fm, "transformation") && !HasKey(fm, "validation")
    ensures LeafValue(JObj(segment), name, JObj(fm)) == Ok(d)
  {
  }

  /** A field holding `False` keeps it and never takes the default. */
  lemma FalseNotDefaulted(segment: seq<(string, Json)>, name: string, fm: seq<(string, Json)>)
    requires Lookup(segment, name) == Some(JBool(false))
    requires HasKey(fm, "target") && !HasKey(fm, "transformation") && !HasKey(fm, "validation")
    ensures LeafValue(JObj(segment), name, JObj(fm)) == Ok(JBool(false))
  {
  }

  /** A value the validation rejects is never written: the output is left
      as it was. */
  lemma RejectedNotWritten(segment: Json, name: string, fm: Json, out: Json)
    requires fm.JObj? && HasKey(fm.fields, "target")
    requires LeafValue(segment, name, fm) == Ok(JNull)
    ensures FieldSvc(segment, name, fm, out) == Ok(out)
  {
  }

  /** Round trip: a field written along a straight `target` path can be
      read back from the output at that path. */
  lemma LeafReadsBack(segment: Json, name: string, fm: Json, out: Json)
    requires fm.JObj? && HasKey(fm.fields, "target") && Lookup(fm.fields, "target").value.JStr?
    requires LeafValue(segment, name, fm).Ok? && LeafValue(segment, name, fm).value != JNull
    requires Straight(out, Split(Lookup(fm.fields, "target").value.s, '.'))
    ensures FieldSvc(segment, name, fm, out).Ok?
    ensures GetNestedValue(FieldSvc(segment, name, fm, out).value, Split(Lookup(fm.fields, "target").value.s, '.'))
            == LeafValue(segment, name, fm).value
  {
    var keys := Split(Lookup(fm.fields, "target").value.s, '.');
    WriteSvcThenGet(out, keys, keys[|keys| - 1], LeafValue(segment, name, fm).value);
  }

  /** A nested rule maps nothing when the segment has nothing (or only an
      empty value) under its name. */
  lemma EmptyNestedSkipped(segment: seq<(string, Json)>, name: string, fm: Json, out: Json)
    requires fm.JObj? && !HasKey(fm.fields, "target")
    requires !HasKey(segment, name) || !Truthy(Lookup(segment, name).value)
    ensures FieldSvc(JObj(segment), name, fm, out) == Ok(out)
  {
  }

  /** A non-empty nested segment is mapped by the nested rule into the same
      output. */
  lemma NestedMapped(segment: seq<(string, Json)>, name: string, fm: Json, out: Json)
    requires fm.JObj? && !HasKey(fm.fields, "target")
    requires HasKey(segment, name) && Truthy(Lookup(segment, name).value)
    ensures FieldSvc(JObj(segment), name, fm, out) == SegmentSvc(Lookup(segment, name).value, fm, out)
  {
  }

  /** A configured segment that is not in the document leaves the output
      as it was. */
  lemma {:induction false} NotFoundSkipped(xml: Json, ms: seq<(string, Json)>, i: nat, out: Json)
    requires i < |ms| && ExtractSegments(xml, ms[i].0) == []
    ensures EntriesSvc(xml, ms, i, out) == EntriesSvc(xml, ms, i + 1, out)
  {
    assert InstancesSvc([], ms[i].1, 0, out) == Ok(out);
  }

  /** A document without any configured segment maps to the output as it
      was. */
  lemma {:induction false} NothingFound(xml: Json, ms: seq<(string, Json)>, i: nat, out: Json)
    requires i <= |ms|
    requires forall k :: i <= k < |ms| ==> ExtractSegments(xml, ms[k].0) == []
    ensures EntriesSvc(xml, ms, i, out) == Ok(out)
    decreases |ms| - i
  {
    if i < |ms| {
      NotFoundSkipped(xml, ms, i, out);
      NothingFound(xml, ms, i + 1, out);
    }
  }
}
