/** The first generator script, BYDM_Generator: every configured field is
    looked up in each data segment, renamed to its `target`, transformed
    (`uppercase` or `conditional_map`) and validated (`number` or `text`).
    One record per segment; a file whose segments all map is written as
    the list of records. */
module BaseGenerator {
  import opened Text
  import opened Json
  import opened Idoc

  /** A field name and its new name and value. */
  datatype Renamed = Renamed(target: Json, value: Json)

  /** `apply_transformations(field, value, mapping_config)` for a str value.
      A str config renames, but the validation step then calls `.get` on
      that str and raises. A dict config renames to `target` (the field's
      own name by default), transforms, and validates. */
  function ApplyTransformations(field: string, value: string, mc: Json): (r: Py<Renamed>)
    ensures mc.JStr? ==> r == Raise(AttributeError)
    ensures !mc.JObj? ==> r.Raise?
    ensures r.Ok? ==> r.value.target == match Lookup(mc.fields, "target") case Some(t) => t case None => JStr(field)
    ensures r.Ok? && GetOrNone(mc.fields, "transformation") == JStr("uppercase") ==> r.value.value == JStr(Upper(value))
    ensures (r.Ok? && GetOrNone(mc.fields, "transformation") != JStr("uppercase")
             && GetOrNone(mc.fields, "transformation") != JStr("conditional_map")) ==> r.value.value == JStr(value)
    ensures r.Ok? && GetOrNone(mc.fields, "transformation") == JStr("conditional_map") ==>
              var c := DictGet(mc, "conditions", EmptyObj).value;
              c.JObj?
              && r.value.value == if HasKey(c.fields, value) then Lookup(c.fields, value).value
                                  else if HasKey(c.fields, "") then Lookup(c.fields, "").value
                                  else JStr(value)
  {
    if mc.JStr? then Raise(AttributeError)
    else
      var target :- DictGet(mc, "target", JStr(field));
      var kind := GetOrNone(mc.fields, "transformation");
      var conditions := DictGet(mc, "conditions", EmptyObj).value;
      var v :- if kind == JStr("uppercase") then Ok(JStr(Upper(value)))
               else if kind == JStr("conditional_map") then
                 var fallback :- DictGet(conditions, "", JStr(value));
                 DictGet(conditions, value, fallback)
               else Ok(JStr(value));
      var checked :- CheckType(v, mc);
      Ok(Renamed(target, checked))
  }

  /** The validation step: `mapping_config.get("validation", {}).get("type")`;
      a `number` must be a str of digits (a non-str has no `isdigit`), a
      `text` must be a str. */
  function CheckType(v: Json, mc: Json): (r: Py<Json>)
    requires mc.JObj?
    ensures r.Ok? ==> r.value == v
    ensures var vc := DictGet(mc, "validation", EmptyObj).value;
            !vc.JObj? ==> r == Raise(AttributeError)
    ensures var vc := DictGet(mc, "validation", EmptyObj).value;
            vc.JObj? && GetOrNone(vc.fields, "type") == JStr("number") ==>
              (r.Ok? <==> v.JStr? && IsDigits(v.s)) && (r == Raise(ValueError) <==> v.JStr? && !IsDigits(v.s))
    ensures var vc := DictGet(mc, "validation", EmptyObj).value;
            vc.JObj? && GetOrNone(vc.fields, "type") == JStr("text") ==> (r.Ok? <==> v.JStr?)
  {
    var vc := DictGet(mc, "validation", EmptyObj).value;
    var kind :- DictGet(vc, "type", JNull);
    if kind == JStr("number") then
      if !v.JStr? then Raise(AttributeError)
      else if !IsDigits(v.s) then Raise(ValueError)
      else Ok(v)
    else if kind == JStr("text") && !v.JStr? then Raise(ValueError)
    else Ok(v)
  }

  /** A dict config with neither `transformation` nor `validation` renames
      and keeps the value. */
  lemma PlainRename(field: string, value: string, fs: seq<(string, Json)>)
    requires !HasKey(fs, "transformation") && !HasKey(fs, "validation")
    ensures ApplyTransformations(field, value, JObj(fs))
            == Ok(Renamed(match Lookup(fs, "target") case Some(t) => t case None => JStr(field), JStr(value)))
  {
  }

  // ---------------------------------------------------------------------
  // One record per segment

  /** `segment.find(tag)`: the first child with that tag. */
  function FindChild(cs: seq<Element>, tag: string): (r: Option<Element>)
    ensures r.Some? ==> r.value.tag == tag
    ensures r.Some? ==> exists i :: 0 <= i < |cs| && cs[i] == r.value && forall j :: 0 <= j < i ==> cs[j].tag != tag
    ensures r.None? <==> forall j :: 0 <= j < |cs| ==> cs[j].tag != tag
  {
    if cs == [] then None
    else if cs[0].tag == tag then Some(cs[0])
    else
      var r := FindChild(cs[1..], tag);
      if r.Some? then
        var i :| 0 <= i < |cs[1..]| && cs[1..][i] == r.value && forall j :: 0 <= j < i ==> cs[1..][j].tag != tag;
        assert cs[i + 1] == r.value && forall j :: 0 <= j < i + 1 ==> cs[j].tag != tag;
        r
      else r
  }

  /** The stripped text of the first child with that tag; "" when there is
      none or it has no text. */
  function FieldText(seg: Element, tag: string): (r: string)
    ensures FindChild(seg.children, tag).None? ==> r == ""
    ensures FindChild(seg.children, tag).Some? ==> r == Strip(FindChild(seg.children, tag).value.text)
  {
    match FindChild(seg.children, tag)
    case None => ""
    case Some(x) => Strip(x.text)
  }

  /** The loop over the configured fields from item `i` on. */
  function RecordFrom(seg: Element, items: seq<(string, Json)>, i: nat, data: seq<(string, Json)>): Py<seq<(string, Json)>>
    requires i <= |items|
    decreases |items| - i
  {
    if i == |items| then Ok(data)
    else
      var p :- ApplyTransformations(items[i].0, FieldText(seg, items[i].0), items[i].1);
      var key :- KeyOf(p.target);
      RecordFrom(seg, items, i + 1, Put(data, key, p.value))
  }

  /** The record for one segment: `segment_data`. */
  method BuildRecord(seg: Element, items: seq<(string, Json)>) returns (r: Py<seq<(string, Json)>>)
    ensures r == RecordFrom(seg, items, 0, [])
  {
    var data: seq<(string, Json)> := [];
    for i := 0 to |items|
      invariant RecordFrom(seg, items, 0, []) == RecordFrom(seg, items, i, data)
    {
      var field := items[i].0;
      var value := FieldText(seg, field);
      var p :- ApplyTransformations(field, value, items[i].1);
      var key :- KeyOf(p.target);
      data := Put(data, key, p.value);
    }
    return Ok(data);
  }

  /** The loop over the segments from segment `i` on, `acc` holding the
      records of the earlier ones. */
  function Records(segs: seq<Element>, items: seq<(string, Json)>, i: nat, acc: seq<Json>): Py<seq<Json>>
    requires i <= |segs|
    decreases |segs| - i
  {
    if i == |segs| then Ok(acc)
    else
      var data :- RecordFrom(segs[i], items, 0, []);
      Records(segs, items, i + 1, acc + [JObj(data)])
  }

  /** The output of one file: nothing when it has no data segment or when
      any field raises (the error is caught and logged), else the list of
      records. */
  function FileOutput(segs: seq<Element>, items: seq<(string, Json)>): (r: Option<Json>)
    ensures segs == [] ==> r.None?
    ensures r.Some? ==> r.value.JArr? && |r.value.items| == |segs|
  {
    if segs == [] then None
    else
      match Records(segs, items, 0, [])
      case Ok(rs) => RecordsLength(segs, items, 0, []); Some(JArr(rs))
      case Raise(_) => None
  }

  lemma {:induction false} RecordsLength(segs: seq<Element>, items: seq<(string, Json)>, i: nat, acc: seq<Json>)
    requires i <= |segs|
    ensures Records(segs, items, i, acc).Ok? ==> |Records(segs, items, i, acc).value| == |acc| + |segs| - i
    decreases |segs| - i
  {
    if i < |segs| {
      var data := RecordFrom(segs[i], items, 0, []);
      RecordsStep(segs, items, i, acc);
      if data.Ok? {
        var acc' := acc + [JObj(data.value)];
        assert |acc'| == |acc| + 1;
        RecordsLength(segs, items, i + 1, acc');
      }
    }
  }

  /** One iteration of the segment loop. */
  lemma RecordsStep(segs: seq<Element>, items: seq<(string, Json)>, i: nat, acc: seq<Json>)
    requires i < |segs|
    ensures var data := RecordFrom(segs[i], items, 0, []);
            Records(segs, items, i, acc)
            == if data.Ok? then Records(segs, items, i + 1, acc + [JObj(data.value)]) else Raise(data.error)
  {
  }

  /** `result_data` for one file: one record per segment, in order. */
  method ProcessSegments(segs: seq<Element>, items: seq<(string, Json)>) returns (r: Py<seq<Json>>)
    ensures r == Records(segs, items, 0, [])
  {
    var out: seq<Json> := [];
    for i := 0 to |segs|
      invariant Records(segs, items, 0, []) == Records(segs, items, i, out)
    {
      var data :- BuildRecord(segs[i], items);
      out := out + [JObj(data)];
    }
    return Ok(out);
  }

  /** Every configured field's target is a key of the record, whatever
      order they were written in. */
  lemma {:induction false} RecordHasTargets(seg: Element, items: seq<(string, Json)>, i: nat, data: seq<(string, Json)>, j: nat)
    requires i <= j < |items|
    requires RecordFrom(seg, items, i, data).Ok?
    ensures var p := ApplyTransformations(items[j].0, FieldText(seg, items[j].0), items[j].1);
            p.Ok? && KeyOf(p.value.target).Ok?
            && HasKey(RecordFrom(seg, items, i, data).value, KeyOf(p.value.target).value)
    decreases |items| - i
  {
    var p := ApplyTransformations(items[i].0, FieldText(seg, items[i].0), items[i].1).value;
    var key := KeyOf(p.target).value;
    var data' := Put(data, key, p.value);
    if i == j {
      LookupPutSame(data, key, p.value);
      KeysStay(seg, items, i + 1, data', key);
    } else {
      RecordHasTargets(seg, items, i + 1, data', j);
    }
  }

  /** A key once written stays in the record. */
  lemma {:induction false} KeysStay(seg: Element, items: seq<(string, Json)>, i: nat, data: seq<(string, Json)>, k: string)
    requires i <= |items|
    requires HasKey(data, k)
    requires RecordFrom(seg, items, i, data).Ok?
    ensures HasKey(RecordFrom(seg, items, i, data).value, k)
    decreases |items| - i
  {
    if i < |items| {
      var p := ApplyTransformations(items[i].0, FieldText(seg, items[i].0), items[i].1).value;
      var key := KeyOf(p.target).value;
      if key == k {
        LookupPutSame(data, key, p.value);
      } else {
        LookupPutOther(data, key, p.value, k);
      }
      KeysStay(seg, items, i + 1, Put(data, key, p.value), k);
    }
  }

  /** The dict key configured field `j` is stored under, or the exception
      its transformation or key raises. */
  function ItemKey(seg: Element, items: seq<(string, Json)>, j: nat): Py<string>
    requires j < |items|
  {
    var p :- ApplyTransformations(items[j].0, FieldText(seg, items[j].0), items[j].1);
    KeyOf(p.target)
  }

  /** A key that no field from item `i` on is stored under keeps the entry it
      had before. */
  lemma {:induction false} UnwrittenKeyKept(seg: Element, items: seq<(string, Json)>, i: nat, data: seq<(string, Json)>, k: string)
    requires i <= |items|
    requires RecordFrom(seg, items, i, data).Ok?
    requires forall j :: i <= j < |items| ==> ItemKey(seg, items, j) != Ok(k)
    ensures Lookup(RecordFrom(seg, items, i, data).value, k) == Lookup(data, k)
    decreases |items| - i
  {
    if i < |items| {
      var p := ApplyTransformations(items[i].0, FieldText(seg, items[i].0), items[i].1).value;
      var key := KeyOf(p.target).value;
      assert ItemKey(seg, items, i) == Ok(key);
      LookupPutOther(data, key, p.value, k);
      UnwrittenKeyKept(seg, items, i + 1, Put(data, key, p.value), k);
    }
  }

  /** The record holds, under the key of field `j`, the value field `j`
      transformed to, when no later field is stored under the same key: the
      last assignment to a key wins. */
  lemma {:induction false} LastWriteStored(seg: Element, items: seq<(string, Json)>, i: nat, data: seq<(string, Json)>, j: nat)
    requires i <= j < |items|
    requires RecordFrom(seg, items, i, data).Ok?
    requires forall j' :: j < j' < |items| ==> ItemKey(seg, items, j') != ItemKey(seg, items, j)
    ensures ItemKey(seg, items, j).Ok?
    ensures var p := ApplyTransformations(items[j].0, FieldText(seg, items[j].0), items[j].1);
            p.Ok? && Lookup(RecordFrom(seg, items, i, data).value, ItemKey(seg, items, j).value) == Some(p.value.value)
    decreases |items| - i
  {
    var p := ApplyTransformations(items[i].0, FieldText(seg, items[i].0), items[i].1).value;
    var key := KeyOf(p.target).value;
    var data' := Put(data, key, p.value);
    assert RecordFrom(seg, items, i, data) == RecordFrom(seg, items, i + 1, data');
    if i == j {
      assert ItemKey(seg, items, j) == Ok(key);
      LookupPutSame(data, key, p.value);
      UnwrittenKeyKept(seg, items, i + 1, data', key);
    } else {
      LastWriteStored(seg, items, i + 1, data', j);
    }
  }

  /** A plain-str config, meant as a rename, makes every record raise, so
      a file with any segment is not written at all. */
  lemma {:induction false} RenameConfigRaises(seg: Element, items: seq<(string, Json)>, i: nat, data: seq<(string, Json)>, j: nat)
    requires i <= j < |items| && items[j].1.JStr?
    ensures RecordFrom(seg, items, i, data).Raise?
    decreases |items| - i
  {
    var p := ApplyTransformations(items[i].0, FieldText(seg, items[i].0), items[i].1);
    if i < j && p.Ok? && KeyOf(p.value.target).Ok? {
      RenameConfigRaises(seg, items, i + 1, Put(data, KeyOf(p.value.target).value, p.value.value), j);
    }
  }

  lemma RenameConfigNoOutput(segs: seq<Element>, items: seq<(string, Json)>, j: nat)
    requires segs != [] && j < |items| && items[j].1.JStr?
    ensures FileOutput(segs, items).None?
  {
    RenameConfigRaises(segs[0], items, 0, [], j);
  }
}
