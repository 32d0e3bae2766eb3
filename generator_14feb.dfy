/** The 14th_Feb generator script. Each segment is parsed into a fresh
    dict: a child with sub-elements is parsed recursively (against the
    mapping found under its own tag) and appended to a list under that tag;
    a mapped leaf is stored under its flat `target` key. `parse_idoc`
    appends each non-empty segment result to a list under the segment's
    tag. A failed validation raises `ValueError`, which ends the run
    without output. */
module Generator14Feb {
  import opened Text
  import opened Json
  import opened Idoc

  // ---------------------------------------------------------------------
  // apply_transformation and validate_data

  /** `transformation_info.get("conditions", {})`. */
  function Conditions(info: Json): Json
    requires info.JObj?
  {
    match Lookup(info.fields, "conditions")
    case Some(c) => c
    case None => EmptyObj
  }

  /** `apply_transformation(value, transformation_info)` for a str value.
      A falsy info or an unknown kind is the identity; the str
      `"UPPERCASE"` upper-cases; a dict with `CONDITIONAL` looks the value
      up in `conditions`, then `"default"`, then keeps the value; a dict
      with `MAP` looks the value up or keeps it. `conditions` must then be a
      dict. */
  function Transform14(value: string, info: Json): (r: Py<Json>)
    ensures !Truthy(info) ==> r == Ok(JStr(value))
    ensures info.JStr? ==> r == Ok(JStr(if info.s == "UPPERCASE" then Upper(value) else value))
    ensures !info.JStr? && !info.JObj? ==> r == Ok(JStr(value))
    ensures info.JObj? && Truthy(info) && GetOrNone(info.fields, "transformation") == JStr("CONDITIONAL") ==>
              var c := Conditions(info);
              (r.Ok? <==> c.JObj?)
              && (r.Ok? ==> r.value == if HasKey(c.fields, value) then Lookup(c.fields, value).value
                                       else if HasKey(c.fields, "default") then Lookup(c.fields, "default").value
                                       else JStr(value))
    ensures info.JObj? && Truthy(info) && GetOrNone(info.fields, "transformation") == JStr("MAP") ==>
              var c := Conditions(info);
              (r.Ok? <==> c.JObj?)
              && (r.Ok? ==> r.value == if HasKey(c.fields, value) then Lookup(c.fields, value).value else JStr(value))
    ensures (info.JObj? && GetOrNone(info.fields, "transformation") != JStr("CONDITIONAL")
             && GetOrNone(info.fields, "transformation") != JStr("MAP")) ==> r == Ok(JStr(value))
  {
    if !Truthy(info) then Ok(JStr(value))
    else if info.JStr? then
      if info.s == "UPPERCASE" then Ok(JStr(Upper(value))) else Ok(JStr(value))
    else if info.JObj? then
      var kind := GetOrNone(info.fields, "transformation");
      var conditions := Conditions(info);
      if kind == JStr("CONDITIONAL") then
        var fallback :- DictGet(conditions, "default", JStr(value));
        DictGet(conditions, value, fallback)
      else if kind == JStr("MAP") then DictGet(conditions, value, JStr(value))
      else Ok(JStr(value))
    else Ok(JStr(value))
  }

  /** Without a `"default"` entry, `CONDITIONAL` is the same lookup as `MAP`. */
  lemma ConditionalWithoutDefaultIsMap(value: string, fs: seq<(string, Json)>, conditions: seq<(string, Json)>)
    requires !HasKey(conditions, "default")
    requires Truthy(JObj(fs)) && Lookup(fs, "conditions") == Some(JObj(conditions))
    ensures Transform14(value, JObj(Put(fs, "transformation", JStr("CONDITIONAL"))))
            == Transform14(value, JObj(Put(fs, "transformation", JStr("MAP"))))
  {
    LookupPutSame(fs, "transformation", JStr("CONDITIONAL"));
    LookupPutSame(fs, "transformation", JStr("MAP"));
    LookupPutOther(fs, "transformation", JStr("CONDITIONAL"), "conditions");
    LookupPutOther(fs, "transformation", JStr("MAP"), "conditions");
  }

  /** `validate_data(value, rule, name)`: a NUMBER needs a str of digits (a
      non-str has no `isdigit`), a TEXT needs a str; a value that passes is
      returned unchanged. */
  function Validate14(value: Json, rule: Json): (r: Py<Json>)
    ensures r.Ok? ==> r.value == value
    ensures rule == JStr("NUMBER") ==>
              (r.Ok? <==> value.JStr? && IsDigits(value.s))
              && (r == Raise(AttributeError) <==> !value.JStr?)
    ensures rule == JStr("TEXT") ==> (r.Ok? <==> value.JStr?)
    ensures rule != JStr("NUMBER") && rule != JStr("TEXT") ==> r == Ok(value)
    ensures r.Raise? ==> r.error == ValueError || r.error == AttributeError
  {
    if rule == JStr("NUMBER") then
      if !value.JStr? then Raise(AttributeError)
      else if !IsDigits(value.s) then Raise(ValueError)
      else Ok(value)
    else if rule == JStr("TEXT") && !value.JStr? then Raise(ValueError)
    else Ok(value)
  }

  // ---------------------------------------------------------------------
  // parse_segment

  /** `parse_segment(segment, segment_name, config)`: the dict built for
      one segment. */
  function Segment14(e: Element, name: string, config: Json): Py<Json>
    decreases e, 1
  {
    var mappings :- GetItem(config, "mappings");
    var sm :- DictGet(mappings, name, EmptyObj);
    var data :- Fields14(e, sm, config, 0, []);
    Ok(JObj(data))
  }

  /** The loop over the children from child `i` on, `data` holding what the
      earlier children stored. */
  function Fields14(e: Element, sm: Json, config: Json, i: nat, data: seq<(string, Json)>): Py<seq<(string, Json)>>
    requires i <= |e.children|
    decreases e, 0, |e.children| - i
  {
    if i == |e.children| then Ok(data)
    else
      var field := e.children[i];
      if field.children != [] then
        var current := if HasKey(data, field.tag) then Lookup(data, field.tag).value else JArr([]);
        if !current.JArr? then Raise(AttributeError)
        else
          var sub :- Segment14(field, field.tag, config);
          Fields14(e, sm, config, i + 1, Put(data, field.tag, JArr(current.items + [sub])))
      else
        var data' :- Leaf14(field, sm, data);
        Fields14(e, sm, config, i + 1, data')
  }

  /** A child without sub-elements: an unmapped tag is skipped; a mapped one
      is transformed, validated and stored under the flat key `target`. */
  function Leaf14(field: Element, sm: Json, data: seq<(string, Json)>): Py<seq<(string, Json)>> {
    var mapped :- Contains(sm, field.tag);
    if !mapped then Ok(data)
    else
      var mi :- GetItem(sm, field.tag);
      var target :- GetItem(mi, "target");
      var tv :- Transform14(Strip(field.text), mi);
      var v :- Validate14(tv, GetOrNone(mi.fields, "validation_rule"));
      if v == JNull then Ok(data)
      else
        var key :- KeyOf(target);
        Ok(Put(data, key, v))
  }

  /** `parse_segment(segment, segment_name, config)`. */
  method ParseSegment14(e: Element, name: string, config: Json) returns (r: Py<Json>)
    ensures r == Segment14(e, name, config)
    decreases e, 1
  {
    var mappings :- GetItem(config, "mappings");
    var sm :- DictGet(mappings, name, EmptyObj);
    var data: seq<(string, Json)> := [];
    for i := 0 to |e.children|
      invariant Fields14(e, sm, config, 0, []) == Fields14(e, sm, config, i, data)
    {
      var field := e.children[i];
      if field.children != [] {
        var current := if HasKey(data, field.tag) then Lookup(data, field.tag).value else JArr([]);
        if !current.JArr? {
          return Raise(AttributeError);
        }
        var sub :- ParseSegment14(field, field.tag, config);
        data := Put(data, field.tag, JArr(current.items + [sub]));
      } else {
        data :- MapLeaf14(field, sm, data);
      }
    }
    return Ok(JObj(data));
  }

  /** The leaf branch of the loop in `parse_segment`. */
  method MapLeaf14(field: Element, sm: Json, data: seq<(string, Json)>) returns (r: Py<seq<(string, Json)>>)
    ensures r == Leaf14(field, sm, data)
  {
    var mapped :- Contains(sm, field.tag);
    if !mapped {
      return Ok(data);
    }
    var mi :- GetItem(sm, field.tag);
    var target :- GetItem(mi, "target");
    var tv :- Transform14(Strip(field.text), mi);
    var v :- Validate14(tv, GetOrNone(mi.fields, "validation_rule"));
    if v == JNull {
      return Ok(data);
    }
    var key :- KeyOf(target);
    return Ok(Put(data, key, v));
  }

  /** `field` is a mapped leaf whose entry names `target`, and whose text
      transforms and validates to `v`. */
  predicate Accepted14(field: Element, sm: Json, target: Json, v: Json) {
    sm.JObj? && HasKey(sm.fields, field.tag)
    && var mi := Lookup(sm.fields, field.tag).value;
       mi.JObj? && Lookup(mi.fields, "target") == Some(target)
       && Transform14(Strip(field.text), mi).Ok?
       && Validate14(Transform14(Strip(field.text), mi).value, GetOrNone(mi.fields, "validation_rule")) == Ok(v)
  }

  /** A mapped leaf with a str target stores its value under that flat key,
      where it reads back. */
  lemma Leaf14Written(field: Element, sm: Json, data: seq<(string, Json)>, key: string, v: Json)
    requires Accepted14(field, sm, JStr(key), v) && v != JNull
    ensures Leaf14(field, sm, data) == Ok(Put(data, key, v))
    ensures Lookup(Leaf14(field, sm, data).value, key) == Some(v)
  {
    LookupPutSame(data, key, v);
  }

  /** A leaf whose value validates to None stores nothing, whatever its target. */
  lemma Leaf14Rejected(field: Element, sm: Json, data: seq<(string, Json)>, target: Json)
    requires Accepted14(field, sm, target, JNull)
    ensures Leaf14(field, sm, data) == Ok(data)
  {
  }

  /** Two consecutive leaves with the same target: the later value replaces
      the earlier one in place, as if only the later leaf had been mapped. */
  lemma LaterLeafWins(e: Element, sm: Json, config: Json, i: nat, data: seq<(string, Json)>,
                      key: string, v1: Json, v2: Json)
    requires i + 1 < |e.children|
    requires e.children[i].children == [] && e.children[i + 1].children == []
    requires Accepted14(e.children[i], sm, JStr(key), v1) && v1 != JNull
    requires Accepted14(e.children[i + 1], sm, JStr(key), v2) && v2 != JNull
    ensures Fields14(e, sm, config, i, data) == Fields14(e, sm, config, i + 2, Put(data, key, v2))
  {
    var d1 := Put(data, key, v1);
    Leaf14Written(e.children[i], sm, data, key, v1);
    Leaf14Written(e.children[i + 1], sm, d1, key, v2);
    PutOverwrite(data, key, v1, v2);
    assert Fields14(e, sm, config, i, data) == Fields14(e, sm, config, i + 1, d1);
    assert Fields14(e, sm, config, i + 1, d1) == Fields14(e, sm, config, i + 2, Put(d1, key, v2));
  }

  // ---------------------------------------------------------------------
  // parse_idoc and the main step

  /** `parse_idoc(xml, config)`: the output dict. */
  function ParseIdoc14Spec(config: Json, root: Element): Py<Json> {
    var bydm :- Segments14(config, root, 0, []);
    Ok(JObj(bydm))
  }

  /** The loop over the top-level segments from segment `i` on. */
  function Segments14(config: Json, root: Element, i: nat, bydm: seq<(string, Json)>): Py<seq<(string, Json)>>
    requires i <= |root.children|
    decreases |root.children| - i
  {
    if i == |root.children| then Ok(bydm)
    else
      var seg := root.children[i];
      var parsed :- Segment14(seg, seg.tag, config);
      if Truthy(parsed) then
        var current := if HasKey(bydm, seg.tag) then Lookup(bydm, seg.tag).value else JArr([]);
        var grown :- Append(current, parsed);
        Segments14(config, root, i + 1, Put(bydm, seg.tag, grown))
      else Segments14(config, root, i + 1, bydm)
  }

  /** `parse_idoc(xml, config)`. */
  method ParseIdoc14(config: Json, root: Element) returns (r: Py<Json>)
    ensures r == ParseIdoc14Spec(config, root)
  {
    var bydm: seq<(string, Json)> := [];
    for i := 0 to |root.children|
      invariant Segments14(config, root, 0, []) == Segments14(config, root, i, bydm)
    {
      var seg := root.children[i];
      var parsed :- ParseSegment14(seg, seg.tag, config);
      if Truthy(parsed) {
        var current := if HasKey(bydm, seg.tag) then Lookup(bydm, seg.tag).value else JArr([]);
        var grown :- Append(current, parsed);
        bydm := Put(bydm, seg.tag, grown);
      }
    }
    return Ok(JObj(bydm));
  }

  /** The main step: a `ValueError` is caught and no file is written; any
      other exception escapes. */
  function Run14(config: Json, root: Element): (r: Py<Option<Json>>)
    ensures r == Ok(None) <==> ParseIdoc14Spec(config, root) == Raise(ValueError)
    ensures r.Ok? && r.value.Some? <==> ParseIdoc14Spec(config, root).Ok?
    ensures r.Ok? && r.value.Some? ==> r.value.value == ParseIdoc14Spec(config, root).value
  {
    match ParseIdoc14Spec(config, root)
    case Ok(d) => Ok(Some(d))
    case Raise(e) => if e == ValueError then Ok(None) else Raise(e)
  }

  // ---------------------------------------------------------------------
  // What parse_segment and parse_idoc collect

  /** `d[t]` read as None when absent: the list `xs`, or None when empty. */
  function Listed(xs: seq<Json>): Json {
    if xs == [] then JNull else JArr(xs)
  }

  /** Every value of the dict is a list. */
  predicate AllLists(fs: seq<(string, Json)>) {
    forall j :: 0 <= j < |fs| ==> fs[j].1.JArr?
  }

  lemma PutKeepsAllLists(fs: seq<(string, Json)>, k: string, xs: seq<Json>)
    requires AllLists(fs)
    ensures AllLists(Put(fs, k, JArr(xs)))
  {
  }

  /** Appending `x` to the list under `k` (created empty when absent) in a
      dict of lists: the list under `t` grows by `x` when `k` is `t`, and
      is unchanged otherwise. */
  lemma AppendUnder(fs: seq<(string, Json)>, k: string, x: Json, t: string, before: seq<Json>)
    requires AllLists(fs)
    requires GetOrNone(fs, t) == Listed(before)
    ensures var current := if HasKey(fs, k) then Lookup(fs, k).value else JArr([]);
            current.JArr?
            && AllLists(Put(fs, k, JArr(current.items + [x])))
            && GetOrNone(Put(fs, k, JArr(current.items + [x])), t)
               == Listed(if k == t then before + [x] else before)
  {
    var current := if HasKey(fs, k) then Lookup(fs, k).value else JArr([]);
    PutKeepsAllLists(fs, k, current.items + [x]);
    if k == t {
      assert current.items == before;
      LookupPutSame(fs, t, JArr(current.items + [x]));
    } else {
      LookupPutOther(fs, k, JArr(current.items + [x]), t);
    }
  }

  /** The non-empty results of the segments tagged `t` among `cs`, in
      document order. */
  function Kept(cs: seq<Element>, t: string, config: Json): seq<Json> {
    if cs == [] then []
    else
      var last := cs[|cs| - 1];
      var p := Segment14(last, last.tag, config);
      Kept(cs[..|cs| - 1], t, config) + (if last.tag == t && p.Ok? && Truthy(p.value) then [p.value] else [])
  }

  /** When every segment parses, `parse_idoc` keeps under each tag the list
      of that tag's non-empty segment results in document order, and no
      key for a tag whose results are all empty. */
  lemma IdocCollects(config: Json, root: Element, t: string)
    requires forall j :: 0 <= j < |root.children| ==> Segment14(root.children[j], root.children[j].tag, config).Ok?
    ensures ParseIdoc14Spec(config, root).Ok?
    ensures GetOrNone(ParseIdoc14Spec(config, root).value.fields, t) == Listed(Kept(root.children, t, config))
  {
    assert root.children[..0] == [];
    CollectFrom(config, root, 0, [], t);
  }

  lemma {:induction false} CollectFrom(config: Json, root: Element, i: nat, bydm: seq<(string, Json)>, t: string)
    requires i <= |root.children|
    requires forall j :: 0 <= j < |root.children| ==> Segment14(root.children[j], root.children[j].tag, config).Ok?
    requires AllLists(bydm)
    requires GetOrNone(bydm, t) == Listed(Kept(root.children[..i], t, config))
    ensures Segments14(config, root, i, bydm).Ok?
    ensures GetOrNone(Segments14(config, root, i, bydm).value, t) == Listed(Kept(root.children, t, config))
    decreases |root.children| - i
  {
    if i == |root.children| {
      assert root.children[..i] == root.children;
    } else {
      var seg := root.children[i];
      var parsed := Segment14(seg, seg.tag, config).value;
      var before := Kept(root.children[..i], t, config);
      KeptStep(root.children, i, t, config);
      IdocStep(config, root, i, bydm);
      if Truthy(parsed) {
        AppendUnder(bydm, seg.tag, parsed, t, before);
        var current := if HasKey(bydm, seg.tag) then Lookup(bydm, seg.tag).value else JArr([]);
        var grown := Put(bydm, seg.tag, JArr(current.items + [parsed]));
        assert Segments14(config, root, i, bydm) == Segments14(config, root, i + 1, grown);
        assert Kept(root.children[..i + 1], t, config) == if seg.tag == t then before + [parsed] else before;
        CollectFrom(config, root, i + 1, grown, t);
      } else {
        assert Segments14(config, root, i, bydm) == Segments14(config, root, i + 1, bydm);
        assert Kept(root.children[..i + 1], t, config) == before;
        CollectFrom(config, root, i + 1, bydm, t);
      }
    }
  }

  /** One iteration of the segment loop: a non-empty result is appended
      under its tag, an empty one is dropped. */
  lemma IdocStep(config: Json, root: Element, i: nat, bydm: seq<(string, Json)>)
    requires i < |root.children|
    requires Segment14(root.children[i], root.children[i].tag, config).Ok?
    requires HasKey(bydm, root.children[i].tag) ==> Lookup(bydm, root.children[i].tag).value.JArr?
    ensures var seg := root.children[i];
            var parsed := Segment14(seg, seg.tag, config).value;
            var current := if HasKey(bydm, seg.tag) then Lookup(bydm, seg.tag).value else JArr([]);
            Segments14(config, root, i, bydm)
            == if Truthy(parsed) then Segments14(config, root, i + 1, Put(bydm, seg.tag, JArr(current.items + [parsed])))
               else Segments14(config, root, i + 1, bydm)
  {
  }

  /** The kept results of a prefix grow by exactly the next segment's. */
  lemma KeptStep(cs: seq<Element>, i: nat, t: string, config: Json)
    requires i < |cs|
    ensures var p := Segment14(cs[i], cs[i].tag, config);
            Kept(cs[..i + 1], t, config)
            == Kept(cs[..i], t, config) + (if cs[i].tag == t && p.Ok? && Truthy(p.value) then [p.value] else [])
  {
    assert cs[..i + 1][..i] == cs[..i];
  }

  /** The results of the children tagged `t` among `cs` that have
      sub-elements, in document order. */
  function Subs(cs: seq<Element>, t: string, config: Json): seq<Json> {
    if cs == [] then []
    else
      var last := cs[|cs| - 1];
      var p := Segment14(last, last.tag, config);
      Subs(cs[..|cs| - 1], t, config) + (if last.tag == t && last.children != [] && p.Ok? then [p.value] else [])
  }

  /** A segment whose children all have sub-elements holds, under each tag,
      the list of those children's results in document order (one element
      per occurrence, none overwritten). */
  lemma NestedCollected(e: Element, name: string, config: Json, t: string)
    requires config.JObj? && HasKey(config.fields, "mappings") && Lookup(config.fields, "mappings").value.JObj?
    requires forall j :: 0 <= j < |e.children| ==>
               e.children[j].children != [] && Segment14(e.children[j], e.children[j].tag, config).Ok?
    ensures Segment14(e, name, config).Ok?
    ensures GetOrNone(Segment14(e, name, config).value.fields, t) == Listed(Subs(e.children, t, config))
  {
    var sm := DictGet(Lookup(config.fields, "mappings").value, name, EmptyObj).value;
    assert e.children[..0] == [];
    NestedFrom(e, sm, config, 0, [], t);
  }

  lemma {:induction false} NestedFrom(e: Element, sm: Json, config: Json, i: nat, data: seq<(string, Json)>, t: string)
    requires i <= |e.children|
    requires AllNested(e, config)
    requires AllLists(data)
    requires GetOrNone(data, t) == Listed(Subs(e.children[..i], t, config))
    ensures Fields14(e, sm, config, i, data).Ok?
    ensures GetOrNone(Fields14(e, sm, config, i, data).value, t) == Listed(Subs(e.children, t, config))
    decreases |e.children| - i
  {
    if i == |e.children| {
      assert e.children[..i] == e.children;
    } else {
      var field := e.children[i];
      var sub := Segment14(field, field.tag, config).value;
      var before := Subs(e.children[..i], t, config);
      AppendUnder(data, field.tag, sub, t, before);
      var current := if HasKey(data, field.tag) then Lookup(data, field.tag).value else JArr([]);
      var data' := Put(data, field.tag, JArr(current.items + [sub]));
      NestedStep(e, sm, config, i, data);
      assert Fields14(e, sm, config, i, data) == Fields14(e, sm, config, i + 1, data');
      SubsStep(e.children, i, t, config);
      assert Subs(e.children[..i + 1], t, config) == if field.tag == t then before + [sub] else before;
      NestedFrom(e, sm, config, i + 1, data', t);
    }
  }

  /** Every child has sub-elements and parses. */
  predicate AllNested(e: Element, config: Json) {
    forall j :: 0 <= j < |e.children| ==>
      e.children[j].children != [] && Segment14(e.children[j], e.children[j].tag, config).Ok?
  }

  lemma NestedStep(e: Element, sm: Json, config: Json, i: nat, data: seq<(string, Json)>)
    requires i < |e.children| && e.children[i].children != []
    requires Segment14(e.children[i], e.children[i].tag, config).Ok?
    requires HasKey(data, e.children[i].tag) ==> Lookup(data, e.children[i].tag).value.JArr?
    ensures var field := e.children[i];
            var current := if HasKey(data, field.tag) then Lookup(data, field.tag).value else JArr([]);
            var sub := Segment14(field, field.tag, config).value;
            Fields14(e, sm, config, i, data) == Fields14(e, sm, config, i + 1, Put(data, field.tag, JArr(current.items + [sub])))
  {
  }

  lemma SubsStep(cs: seq<Element>, i: nat, t: string, config: Json)
    requires i < |cs|
    ensures var p := Segment14(cs[i], cs[i].tag, config);
            Subs(cs[..i + 1], t, config)
            == Subs(cs[..i], t, config) + (if cs[i].tag == t && cs[i].children != [] && p.Ok? then [p.value] else [])
  {
    assert cs[..i + 1][..i] == cs[..i];
  }

  /** A segment whose children are all unmapped leaves parses to `{}`, and
      `parse_idoc` then leaves no trace of it. */
  lemma {:induction false} UnmappedLeavesEmpty(e: Element, sm: Json, config: Json, i: nat)
    requires sm.JObj? && i <= |e.children|
    requires forall j :: 0 <= j < |e.children| ==>
               e.children[j].children == [] && !HasKey(sm.fields, e.children[j].tag)
    ensures Fields14(e, sm, config, i, []) == Ok([])
    decreases |e.children| - i
  {
    if i < |e.children| {
      UnmappedLeavesEmpty(e, sm, config, i + 1);
    }
  }

  lemma EmptySegmentOmitted(config: Json, root: Element, i: nat, bydm: seq<(string, Json)>)
    requires i < |root.children|
    requires Segment14(root.children[i], root.children[i].tag, config) == Ok(EmptyObj)
    ensures Segments14(config, root, i, bydm) == Segments14(config, root, i + 1, bydm)
  {
  }
}
