/** The archived v2 generator script: converts an IDoc into a BYDM document
    driven by a mapping configuration, with array fan-out (`isArray`),
    nested groups, and a fallback list `unmappedSegments` that keeps every
    top-level segment without a mapping as a dict built by `xml_to_dict`. */
module GeneratorV2 {
  import opened Text
  import opened Json
  import opened Idoc
  import opened ScriptRules
  import opened PathV2

  // ---------------------------------------------------------------------
  // xml_to_dict

  /** `xml_to_dict(e)`: a one-key dict from the element's tag to its content. */
  function XmlToDict(e: Element): Json {
    JObj([(e.tag, Content(e))])
  }

  /** The value `xml_to_dict` stores under the element's tag: the stripped
      text of a bare element (None when it has no text), otherwise a dict of
      the merged children, the `@`-prefixed attributes and a non-empty
      `#text`. */
  function Content(e: Element): Json
    decreases e, 1, 0
  {
    if e.children == [] && e.attrs == [] then
      if e.text != "" then JStr(Strip(e.text)) else JNull
    else
      var withAttrs := PutAttrs(Merge(e, 0, []), e.attrs);
      var t := Strip(e.text);
      JObj(if t != "" then Put(withAttrs, "#text", JStr(t)) else withAttrs)
  }

  /** The merge loop over the children, from child `i` on, into `dd`. */
  function Merge(e: Element, i: nat, dd: seq<(string, Json)>): seq<(string, Json)>
    requires i <= |e.children|
    decreases e, 0, |e.children| - i
  {
    if i == |e.children| then dd
    else Merge(e, i + 1, AddChild(dd, e.children[i].tag, Content(e.children[i])))
  }

  /** One child merged in: a first occurrence is stored as it is; a repeated
      tag turns the stored value into a list and appends to it. */
  function AddChild(dd: seq<(string, Json)>, k: string, v: Json): seq<(string, Json)> {
    Put(dd, k, Merged(Lookup(dd, k), v))
  }

  function Merged(cur: Option<Json>, v: Json): Json {
    match cur
    case None => v
    case Some(c) => JArr((if c.JArr? then c.items else [c]) + [v])
  }

  /** `d.update(('@' + k, v) for k, v in attrs)`. */
  function PutAttrs(fs: seq<(string, Json)>, attrs: seq<(string, string)>): seq<(string, Json)>
    decreases |attrs|
  {
    if attrs == [] then fs else PutAttrs(Put(fs, "@" + attrs[0].0, JStr(attrs[0].1)), attrs[1..])
  }

  /** The contents of the children with tag `k`, in document order. */
  function Occurrences(cs: seq<Element>, k: string): seq<Json>
    decreases |cs|
  {
    if cs == [] then []
    else Occurrences(cs[..|cs| - 1], k) + if cs[|cs| - 1].tag == k then [Content(cs[|cs| - 1])] else []
  }

  /** What the merged dict holds for a tag seen `|vs|` times. */
  function Collapsed(vs: seq<Json>): Option<Json> {
    if vs == [] then None else if |vs| == 1 then Some(vs[0]) else Some(JArr(vs))
  }

  lemma ContentNotList(e: Element)
    ensures !Content(e).JArr?
  {
  }

  lemma {:induction false} OccurrencesNotLists(cs: seq<Element>, k: string)
    ensures forall j :: 0 <= j < |Occurrences(cs, k)| ==> !Occurrences(cs, k)[j].JArr?
    decreases |cs|
  {
    if cs != [] {
      OccurrencesNotLists(cs[..|cs| - 1], k);
    }
  }

  /** One more occurrence appended to what the merged dict held. */
  lemma CollapsedAppend(vs: seq<Json>, v: Json)
    requires forall j :: 0 <= j < |vs| ==> !vs[j].JArr?
    ensures Some(Merged(Collapsed(vs), v)) == Collapsed(vs + [v])
  {
    if |vs| == 1 {
      assert [vs[0]] == vs;
    }
  }

  /** The occurrences among one more child. */
  lemma OccurrencesStep(cs: seq<Element>, i: nat, k: string)
    requires i < |cs|
    ensures Occurrences(cs[..i + 1], k)
            == Occurrences(cs[..i], k) + if cs[i].tag == k then [Content(cs[i])] else []
  {
    assert cs[..i + 1][..i] == cs[..i];
  }

  lemma {:induction false} MergeFrom(e: Element, i: nat, dd: seq<(string, Json)>, k: string)
    requires i <= |e.children|
    requires Lookup(dd, k) == Collapsed(Occurrences(e.children[..i], k))
    ensures Lookup(Merge(e, i, dd), k) == Collapsed(Occurrences(e.children, k))
    decreases |e.children| - i
  {
    if i == |e.children| {
      assert e.children[..i] == e.children;
    } else {
      var c := e.children[i];
      var dd' := AddChild(dd, c.tag, Content(c));
      OccurrencesStep(e.children, i, k);
      if c.tag == k {
        OccurrencesNotLists(e.children[..i], k);
        LookupPutSame(dd, k, Merged(Lookup(dd, k), Content(c)));
        CollapsedAppend(Occurrences(e.children[..i], k), Content(c));
        assert Occurrences(e.children[..i + 1], k) == Occurrences(e.children[..i], k) + [Content(c)];
        assert Lookup(dd', k) == Some(Merged(Lookup(dd, k), Content(c)));
        assert Lookup(dd', k) == Collapsed(Occurrences(e.children[..i + 1], k));
      } else {
        LookupPutOther(dd, c.tag, Merged(Lookup(dd, c.tag), Content(c)), k);
        assert Occurrences(e.children[..i + 1], k) == Occurrences(e.children[..i], k);
        assert Lookup(dd', k) == Lookup(dd, k);
      }
      MergeFrom(e, i + 1, dd', k);
    }
  }

  /** Repeated child tags collapse into one list in document order: a tag
      seen once holds that child's content, a tag seen several times holds
      the list of their contents. */
  lemma RepeatedTagsCollapse(e: Element, k: string)
    requires e.children != []
    requires k != "#text" && (k == "" || k[0] != '@')
    ensures Content(e).JObj?
    ensures Lookup(Content(e).fields, k) == Collapsed(Occurrences(e.children, k))
  {
    assert e.children[..0] == [];
    MergeFrom(e, 0, [], k);
    PutAttrsOther(Merge(e, 0, []), e.attrs, k);
    var t := Strip(e.text);
    if t != "" {
      LookupPutOther(PutAttrs(Merge(e, 0, []), e.attrs), "#text", JStr(t), k);
    }
  }

  lemma {:induction false} PutAttrsOther(fs: seq<(string, Json)>, attrs: seq<(string, string)>, k: string)
    requires k == "" || k[0] != '@'
    ensures Lookup(PutAttrs(fs, attrs), k) == Lookup(fs, k)
    decreases |attrs|
  {
    if attrs != [] {
      var key := "@" + attrs[0].0;
      assert key[0] == '@';
      LookupPutOther(fs, key, JStr(attrs[0].1), k);
      PutAttrsOther(Put(fs, key, JStr(attrs[0].1)), attrs[1..], k);
    }
  }

  lemma {:induction false} PutAttrsLast(fs: seq<(string, Json)>, attrs: seq<(string, string)>, j: nat)
    requires j < |attrs|
    requires forall j' :: j < j' < |attrs| ==> attrs[j'].0 != attrs[j].0
    ensures Lookup(PutAttrs(fs, attrs), "@" + attrs[j].0) == Some(JStr(attrs[j].1))
    decreases |attrs|
  {
    var fs' := Put(fs, "@" + attrs[0].0, JStr(attrs[0].1));
    if j == 0 {
      LookupPutSame(fs, "@" + attrs[0].0, JStr(attrs[0].1));
      forall j' | 0 <= j' < |attrs[1..]| ensures "@" + attrs[1..][j'].0 != "@" + attrs[0].0 {
        assert ("@" + attrs[1..][j'].0)[1..] == attrs[j' + 1].0;
      }
      PutAttrsKeep(fs', attrs[1..], "@" + attrs[0].0);
    } else {
      PutAttrsLast(fs', attrs[1..], j - 1);
    }
  }

  lemma {:induction false} PutAttrsKeep(fs: seq<(string, Json)>, attrs: seq<(string, string)>, k: string)
    requires forall j :: 0 <= j < |attrs| ==> "@" + attrs[j].0 != k
    ensures Lookup(PutAttrs(fs, attrs), k) == Lookup(fs, k)
    decreases |attrs|
  {
    if attrs != [] {
      LookupPutOther(fs, "@" + attrs[0].0, JStr(attrs[0].1), k);
      PutAttrsKeep(Put(fs, "@" + attrs[0].0, JStr(attrs[0].1)), attrs[1..], k);
    }
  }

  /** Every attribute `n="v"` is stored as `"@n": "v"` (the last one wins
      for a repeated name, which XML does not allow anyway). */
  lemma AttributesPrefixed(e: Element, j: nat)
    requires j < |e.attrs|
    requires forall j' :: j < j' < |e.attrs| ==> e.attrs[j'].0 != e.attrs[j].0
    ensures Content(e).JObj?
    ensures Lookup(Content(e).fields, "@" + e.attrs[j].0) == Some(JStr(e.attrs[j].1))
  {
    PutAttrsLast(Merge(e, 0, []), e.attrs, j);
    var t := Strip(e.text);
    if t != "" {
      var key := "@" + e.attrs[j].0;
      assert key[0] != "#text"[0];
      LookupPutOther(PutAttrs(Merge(e, 0, []), e.attrs), "#text", JStr(t), key);
    }
  }

  /** Text is stored stripped: as the whole value of a bare element (None
      when there is no text, "" when it is only whitespace), and under
      `#text` only when non-empty otherwise. */
  lemma TextStripped(e: Element)
    ensures e.children == [] && e.attrs == [] ==>
              Content(e) == if e.text == "" then JNull else JStr(Strip(e.text))
    ensures (e.children != [] || e.attrs != []) && Strip(e.text) != "" ==>
              Lookup(Content(e).fields, "#text") == Some(JStr(Strip(e.text)))
  {
    if e.children != [] || e.attrs != [] {
      LookupPutSame(PutAttrs(Merge(e, 0, []), e.attrs), "#text", JStr(Strip(e.text)));
    }
  }

  // ---------------------------------------------------------------------
  // parse_segment

  /** `parse_segment(seg, mapping, parent_json)` from child `i` on. */
  function Segment(st: State, seg: Element, mapping: Json, i: nat): Py<State>
    requires i <= |seg.children|
    decreases seg, 0, |seg.children| - i
  {
    if i == |seg.children| then Ok(st)
    else
      var st' :- Field(st, seg.children[i], mapping);
      Segment(st', seg, mapping, i + 1)
  }

  /** One child: unmapped or invalid entries are skipped, a `target` with a
      truthy `isArray` fans out, a `target` alone is a leaf, and any other
      dict is a nested group mapped into the same document. */
  function Field(st: State, field: Element, mapping: Json): Py<State>
    decreases field, 1, 0
  {
    var mapped :- Contains(mapping, field.tag);
    if !mapped then Ok(st)
    else
      var fm :- GetItem(mapping, field.tag);
      if fm.JObj? && HasKey(fm.fields, "target") && Truthy(GetOrNone(fm.fields, "isArray")) then
        ArrayField(st, field, fm)
      else if fm.JObj? && HasKey(fm.fields, "target") then LeafField(st, field, fm)
      else if fm.JObj? then Segment(st, field, fm, 0)
      else Ok(st)
  }

  /** A leaf: transform, validate, and write the value unless validation
      returned None. */
  function LeafField(st: State, field: Element, fm: Json): Py<State>
    requires fm.JObj? && HasKey(fm.fields, "target")
  {
    var tv :- ApplyTransformation(Strip(field.text), GetOrNone(fm.fields, "transformation"));
    var c :- Validate(tv, GetOrNone(fm.fields, "validation"));
    var valid := st.valid && !c.rejected;
    if c.value == JNull then Ok(State(st.doc, valid))
    else
      var target := Lookup(fm.fields, "target").value;
      if !target.JStr? then Raise(AttributeError)
      else Ok(State(WriteV2(st.doc, Split(target.s, '.'), c.value).tree, valid))
  }

  /** The object one occurrence of an array field builds, and the flag. */
  datatype Built = Built(obj: seq<(string, Json)>, valid: bool)

  /** The loop over the sub-fields of one array occurrence, from sub-field
      `i` on. */
  function BuildObj(field: Element, nested: Json, i: nat, obj: seq<(string, Json)>, valid: bool): Py<Built>
    requires i <= |field.children|
    decreases |field.children| - i
  {
    if i == |field.children| then Ok(Built(obj, valid))
    else
      var b :- SubField(field.children[i], nested, obj, valid);
      BuildObj(field, nested, i + 1, b.obj, b.valid)
  }

  /** One sub-field of an array occurrence: each accepted value goes under
      its rule's `target`, used as a flat key. */
  function SubField(sub: Element, nested: Json, obj: seq<(string, Json)>, valid: bool): Py<Built> {
    var mapped :- Contains(nested, sub.tag);
    if !mapped then Ok(Built(obj, valid))
    else
      var sm :- GetItem(nested, sub.tag);
      var transformation :- DictGet(sm, "transformation", JNull);
      var rule := GetOrNone(sm.fields, "validation");
      var tv :- ApplyTransformation(Strip(sub.text), transformation);
      var c :- Validate(tv, rule);
      var valid' := valid && !c.rejected;
      if c.value != JNull then
        var target :- GetItem(sm, "target");
        var key :- KeyOf(target);
        Ok(Built(Put(obj, key, c.value), valid'))
      else Ok(Built(obj, valid'))
  }

  /** Append `x` to the list at `keys`, first writing `[]` there when
      nothing is found; a non-list found there receives nothing. */
  function AppendToTarget(doc: Json, keys: seq<string>, x: Json): Json
    requires |keys| >= 1
  {
    var doc1 := if GetNestedValue(doc, keys) == JNull then WriteV2(doc, keys, JArr([])).tree else doc;
    if GetNestedValue(doc1, keys).JArr? then AppendAt(doc1, keys, x) else doc1
  }

  /** An `isArray` field: one new object per occurrence, appended. */
  function ArrayField(st: State, field: Element, fm: Json): Py<State>
    requires fm.JObj? && HasKey(fm.fields, "target")
  {
    var built :- BuildObj(field, GetOrNone(fm.fields, "mapping"), 0, [], st.valid);
    var target := Lookup(fm.fields, "target").value;
    if !target.JStr? then Raise(AttributeError)
    else Ok(State(AppendToTarget(st.doc, Split(target.s, '.'), JObj(built.obj)), built.valid))
  }

  /** `parse_segment(segment, mapping_info, parent_json)`. */
  method ParseSegment(g: Globals, doc: Document, seg: Element, mapping: Json) returns (r: Py<()>)
    modifies g, doc
    ensures Outcome(Segment(State(old(doc.root), old(g.validationSuccess)), seg, mapping, 0), r, doc.root, g.validationSuccess)
    decreases seg, 0
  {
    ghost var spec := Segment(State(doc.root, g.validationSuccess), seg, mapping, 0);
    for i := 0 to |seg.children|
      invariant spec == Segment(State(doc.root, g.validationSuccess), seg, mapping, i)
    {
      var step := ParseField(g, doc, seg.children[i], mapping);
      if step.Raise? {
        return Raise(step.error);
      }
    }
    return Ok(());
  }

  /** The body of the loop in `parse_segment` for one child. */
  method ParseField(g: Globals, doc: Document, field: Element, mapping: Json) returns (r: Py<()>)
    modifies g, doc
    ensures Outcome(Field(State(old(doc.root), old(g.validationSuccess)), field, mapping), r, doc.root, g.validationSuccess)
    decreases field, 1
  {
    var mapped :- Contains(mapping, field.tag);
    if !mapped {
      return Ok(());
    }
    var fm :- GetItem(mapping, field.tag);
    if fm.JObj? && HasKey(fm.fields, "target") && Truthy(GetOrNone(fm.fields, "isArray")) {
      r := ParseArrayField(g, doc, field, fm);
    } else if fm.JObj? && HasKey(fm.fields, "target") {
      r := ParseLeaf(g, doc, field, fm);
    } else if fm.JObj? {
      r := ParseSegment(g, doc, field, fm);
    } else {
      r := Ok(());
    }
  }

  /** The leaf branch of `parse_segment`. */
  method ParseLeaf(g: Globals, doc: Document, field: Element, fm: Json) returns (r: Py<()>)
    requires fm.JObj? && HasKey(fm.fields, "target")
    modifies g, doc
    ensures Outcome(LeafField(State(old(doc.root), old(g.validationSuccess)), field, fm), r, doc.root, g.validationSuccess)
  {
    var tv :- ApplyTransformation(Strip(field.text), GetOrNone(fm.fields, "transformation"));
    var value :- g.ValidateData(tv, GetOrNone(fm.fields, "validation"));
    if value != JNull {
      var target := Lookup(fm.fields, "target").value;
      if !target.JStr? {
        return Raise(AttributeError);
      }
      var mismatch := SetNestedValue(doc, target.s, value);
    }
    return Ok(());
  }

  /** The `isArray` branch of `parse_segment`. */
  method ParseArrayField(g: Globals, doc: Document, field: Element, fm: Json) returns (r: Py<()>)
    requires fm.JObj? && HasKey(fm.fields, "target")
    modifies g, doc
    ensures Outcome(ArrayField(State(old(doc.root), old(g.validationSuccess)), field, fm), r, doc.root, g.validationSuccess)
  {
    var obj :- BuildObject(g, field, GetOrNone(fm.fields, "mapping"));
    var target := Lookup(fm.fields, "target").value;
    if !target.JStr? {
      return Raise(AttributeError);
    }
    var found := WalkNestedValue(doc.root, target.s);
    if found == JNull {
      var mismatch := SetNestedValue(doc, target.s, JArr([]));
      found := WalkNestedValue(doc.root, target.s);
    }
    if found.JArr? {
      doc.root := AppendAt(doc.root, Split(target.s, '.'), JObj(obj));
    }
    return Ok(());
  }

  /** The loop of the `isArray` branch that builds one occurrence's object. */
  method BuildObject(g: Globals, field: Element, nested: Json) returns (r: Py<seq<(string, Json)>>)
    modifies g
    ensures match BuildObj(field, nested, 0, [], old(g.validationSuccess))
            case Raise(e) => r == Raise(e)
            case Ok(b) => r == Ok(b.obj) && g.validationSuccess == b.valid
  {
    ghost var spec := BuildObj(field, nested, 0, [], g.validationSuccess);
    var obj: seq<(string, Json)> := [];
    for i := 0 to |field.children|
      invariant spec == BuildObj(field, nested, i, obj, g.validationSuccess)
    {
      obj :- BuildSubField(g, field.children[i], nested, obj);
    }
    return Ok(obj);
  }

  /** The body of that loop for one sub-field. */
  method BuildSubField(g: Globals, sub: Element, nested: Json, obj: seq<(string, Json)>) returns (r: Py<seq<(string, Json)>>)
    modifies g
    ensures match SubField(sub, nested, obj, old(g.validationSuccess))
            case Raise(e) => r == Raise(e)
            case Ok(b) => r == Ok(b.obj) && g.validationSuccess == b.valid
  {
    var mapped :- Contains(nested, sub.tag);
    if !mapped {
      return Ok(obj);
    }
    var sm :- GetItem(nested, sub.tag);
    var transformation :- DictGet(sm, "transformation", JNull);
    var rule := GetOrNone(sm.fields, "validation");
    var tv :- ApplyTransformation(Strip(sub.text), transformation);
    var value :- g.ValidateData(tv, rule);
    if value != JNull {
      var target :- GetItem(sm, "target");
      var key :- KeyOf(target);
      return Ok(Put(obj, key, value));
    }
    return Ok(obj);
  }

  // ---------------------------------------------------------------------
  // What parse_segment does

  /** `validation_success` only ever goes from true to false. */
  lemma {:induction false} SegmentFlagOnlyFalls(st: State, seg: Element, mapping: Json, i: nat)
    requires i <= |seg.children|
    requires Segment(st, seg, mapping, i).Ok?
    ensures Segment(st, seg, mapping, i).value.valid ==> st.valid
    decreases seg, 0, |seg.children| - i
  {
    if i < |seg.children| {
      var st' := Field(st, seg.children[i], mapping).value;
      FieldFlagOnlyFalls(st, seg.children[i], mapping);
      SegmentFlagOnlyFalls(st', seg, mapping, i + 1);
    }
  }

  lemma {:induction false} FieldFlagOnlyFalls(st: State, field: Element, mapping: Json)
    requires Field(st, field, mapping).Ok?
    ensures Field(st, field, mapping).value.valid ==> st.valid
    decreases field, 1, 0
  {
    if Contains(mapping, field.tag).value {
      var fm := GetItem(mapping, field.tag).value;
      if fm.JObj? && HasKey(fm.fields, "target") && Truthy(GetOrNone(fm.fields, "isArray")) {
        BuildObjFlag(field, GetOrNone(fm.fields, "mapping"), 0, [], st.valid);
      } else if fm.JObj? && !HasKey(fm.fields, "target") {
        SegmentFlagOnlyFalls(st, field, fm, 0);
      }
    }
  }

  /** The object an array occurrence builds does not depend on the flag, and
      the flag afterwards is the flag before and-ed with "no sub-field of
      this occurrence was rejected". */
  lemma {:induction false} BuildObjFlag(field: Element, nested: Json, i: nat, obj: seq<(string, Json)>, valid: bool)
    requires i <= |field.children|
    ensures var a := BuildObj(field, nested, i, obj, valid);
            var b := BuildObj(field, nested, i, obj, true);
            a.Raise? == b.Raise?
            && (a.Raise? ==> a.error == b.error)
            && (a.Ok? ==> a.value.obj == b.value.obj && a.value.valid == (valid && b.value.valid))
    decreases |field.children| - i
  {
    if i < |field.children| {
      var sub := field.children[i];
      SubFieldFlag(sub, nested, obj, valid);
      var a := SubField(sub, nested, obj, valid);
      if a.Ok? {
        var b := SubField(sub, nested, obj, true);
        BuildObjFlag(field, nested, i + 1, a.value.obj, a.value.valid);
        BuildObjFlag(field, nested, i + 1, a.value.obj, b.value.valid);
      }
    }
  }

  /** The same holds for one sub-field. */
  lemma SubFieldFlag(sub: Element, nested: Json, obj: seq<(string, Json)>, valid: bool)
    ensures var a := SubField(sub, nested, obj, valid);
            var b := SubField(sub, nested, obj, true);
            a.Raise? == b.Raise?
            && (a.Raise? ==> a.error == b.error)
            && (a.Ok? ==> a.value.obj == b.value.obj && a.value.valid == (valid && b.value.valid))
  {
    var mapped := Contains(nested, sub.tag);
    if mapped.Ok? && mapped.value {
      var sm := GetItem(nested, sub.tag);
      if sm.Ok? && sm.value.JObj? {
        var tv := ApplyTransformation(Strip(sub.text), GetOrNone(sm.value.fields, "transformation"));
        if tv.Ok? {
          var c := Validate(tv.value, GetOrNone(sm.value.fields, "validation"));
          if c.Ok? && c.value.value != JNull {
            var target := GetItem(sm.value, "target");
            if target.Ok? && KeyOf(target.value).Ok? {
              var obj' := Put(obj, KeyOf(target.value).value, c.value.value);
              assert SubField(sub, nested, obj, valid) == Ok(Built(obj', valid && !c.value.rejected));
              assert SubField(sub, nested, obj, true) == Ok(Built(obj', !c.value.rejected));
            }
          }
        }
      }
    }
  }

  /** A leaf whose value validation rejects is not written, and the flag
      is cleared. */
  lemma LeafRejected(st: State, field: Element, fm: Json)
    requires fm.JObj? && HasKey(fm.fields, "target")
    requires var tv := ApplyTransformation(Strip(field.text), GetOrNone(fm.fields, "transformation"));
             tv.Ok? && Validate(tv.value, GetOrNone(fm.fields, "validation")) == Ok(Checked(JNull, true))
    ensures LeafField(st, field, fm) == Ok(State(st.doc, false))
  {
  }

  /** A leaf that validation accepts can be read back at its target, unless
      the target path meets a container of the wrong kind. */
  lemma LeafWritten(st: State, field: Element, fm: Json)
    requires fm.JObj? && HasKey(fm.fields, "target") && Lookup(fm.fields, "target").value.JStr?
    requires var tv := ApplyTransformation(Strip(field.text), GetOrNone(fm.fields, "transformation"));
             tv.Ok? && Validate(tv.value, GetOrNone(fm.fields, "validation")).Ok?
             && Validate(tv.value, GetOrNone(fm.fields, "validation")).value.value != JNull
    requires var keys := Split(Lookup(fm.fields, "target").value.s, '.');
             var tv := ApplyTransformation(Strip(field.text), GetOrNone(fm.fields, "transformation"));
             !WriteV2(st.doc, keys, tv.value).mismatch
    ensures var tv := ApplyTransformation(Strip(field.text), GetOrNone(fm.fields, "transformation"));
            var keys := Split(Lookup(fm.fields, "target").value.s, '.');
            LeafField(st, field, fm).Ok?
            && GetNestedValue(LeafField(st, field, fm).value.doc, keys) == tv.value
  {
    var tv := ApplyTransformation(Strip(field.text), GetOrNone(fm.fields, "transformation"));
    var keys := Split(Lookup(fm.fields, "target").value.s, '.');
    WriteThenGet(st.doc, keys, tv.value);
  }

  /** A child whose tag is not in the (dict) mapping, or that is mapped to
      something other than a dict, changes nothing; its siblings are still
      processed. */
  lemma {:induction false} SkippedChildren(st: State, seg: Element, mapping: Json, i: nat)
    requires mapping.JObj? && i <= |seg.children|
    requires forall j :: i <= j < |seg.children| ==>
               !HasKey(mapping.fields, seg.children[j].tag)
               || !Lookup(mapping.fields, seg.children[j].tag).value.JObj?
    ensures Segment(st, seg, mapping, i) == Ok(st)
    decreases |seg.children| - i
  {
    if i < |seg.children| {
      SkippedChildren(st, seg, mapping, i + 1);
    }
  }

  /** The object one occurrence of an array field contributes. */
  function NewObject(field: Element, nested: Json): Json {
    match BuildObj(field, nested, 0, [], true)
    case Ok(b) => JObj(b.obj)
    case Raise(_) => JNull
  }

  /** The objects a run of occurrences contributes, in document order. */
  function NewObjects(cs: seq<Element>, nested: Json): seq<Json>
    decreases |cs|
  {
    if cs == [] then [] else [NewObject(cs[0], nested)] + NewObjects(cs[1..], nested)
  }

  /** One child of the segment loop, then the rest. */
  lemma SegmentStep(st: State, seg: Element, mapping: Json, i: nat)
    requires i < |seg.children| && Segment(st, seg, mapping, i).Ok?
    ensures Field(st, seg.children[i], mapping).Ok?
    ensures Segment(st, seg, mapping, i) == Segment(Field(st, seg.children[i], mapping).value, seg, mapping, i + 1)
  {
  }

  /** One occurrence of an array field whose target already holds a list
      appends that occurrence's object to it. */
  lemma ArrayOccurrence(st: State, c: Element, mapping: Json)
    requires mapping.JObj? && HasKey(mapping.fields, c.tag)
    requires var fm := Lookup(mapping.fields, c.tag).value;
             fm.JObj? && HasKey(fm.fields, "target") && Lookup(fm.fields, "target").value.JStr?
             && Truthy(GetOrNone(fm.fields, "isArray"))
    requires var fm := Lookup(mapping.fields, c.tag).value;
             GetNestedValue(st.doc, Split(Lookup(fm.fields, "target").value.s, '.')).JArr?
    requires Field(st, c, mapping).Ok?
    ensures var fm := Lookup(mapping.fields, c.tag).value;
            var keys := Split(Lookup(fm.fields, "target").value.s, '.');
            Field(st, c, mapping).value.doc == AppendAt(st.doc, keys, NewObject(c, GetOrNone(fm.fields, "mapping")))
  {
    var fm := Lookup(mapping.fields, c.tag).value;
    var keys := Split(Lookup(fm.fields, "target").value.s, '.');
    var nested := GetOrNone(fm.fields, "mapping");
    assert Field(st, c, mapping) == ArrayField(st, c, fm);
    BuildObjFlag(c, nested, 0, [], st.valid);
  }

  /** A run of occurrences of one array field appends their objects, one
      after the other, to the list at the target. */
  lemma {:induction false} FanOutDoc(st: State, seg: Element, mapping: Json, i: nat, tag: string)
    requires i <= |seg.children|
    requires mapping.JObj? && HasKey(mapping.fields, tag)
    requires var fm := Lookup(mapping.fields, tag).value;
             fm.JObj? && HasKey(fm.fields, "target") && Lookup(fm.fields, "target").value.JStr?
             && Truthy(GetOrNone(fm.fields, "isArray"))
    requires forall j :: i <= j < |seg.children| ==> seg.children[j].tag == tag
    requires var fm := Lookup(mapping.fields, tag).value;
             GetNestedValue(st.doc, Split(Lookup(fm.fields, "target").value.s, '.')).JArr?
    requires Segment(st, seg, mapping, i).Ok?
    ensures var fm := Lookup(mapping.fields, tag).value;
            var keys := Split(Lookup(fm.fields, "target").value.s, '.');
            Segment(st, seg, mapping, i).value.doc
            == AppendAll(st.doc, keys, NewObjects(seg.children[i..], GetOrNone(fm.fields, "mapping")))
    decreases |seg.children| - i
  {
    var fm := Lookup(mapping.fields, tag).value;
    var keys := Split(Lookup(fm.fields, "target").value.s, '.');
    var nested := GetOrNone(fm.fields, "mapping");
    if i == |seg.children| {
      assert seg.children[i..] == [];
    } else {
      var c := seg.children[i];
      SegmentStep(st, seg, mapping, i);
      ArrayOccurrence(st, c, mapping);
      var st' := Field(st, c, mapping).value;
      AppendThenGet(st.doc, keys, NewObject(c, nested));
      FanOutDoc(st', seg, mapping, i + 1, tag);
      assert seg.children[i..][1..] == seg.children[i + 1..];
    }
  }

  /** Array fan-out: N occurrences of an `isArray` field append N objects to
      the list at the target, in document order, keeping what was there. */
  lemma FanOutAppends(st: State, seg: Element, mapping: Json, i: nat, tag: string)
    requires i <= |seg.children|
    requires mapping.JObj? && HasKey(mapping.fields, tag)
    requires var fm := Lookup(mapping.fields, tag).value;
             fm.JObj? && HasKey(fm.fields, "target") && Lookup(fm.fields, "target").value.JStr?
             && Truthy(GetOrNone(fm.fields, "isArray"))
    requires forall j :: i <= j < |seg.children| ==> seg.children[j].tag == tag
    requires var fm := Lookup(mapping.fields, tag).value;
             GetNestedValue(st.doc, Split(Lookup(fm.fields, "target").value.s, '.')).JArr?
    requires Segment(st, seg, mapping, i).Ok?
    ensures var fm := Lookup(mapping.fields, tag).value;
            var keys := Split(Lookup(fm.fields, "target").value.s, '.');
            GetNestedValue(Segment(st, seg, mapping, i).value.doc, keys)
            == JArr(GetNestedValue(st.doc, keys).items
                    + NewObjects(seg.children[i..], GetOrNone(fm.fields, "mapping")))
  {
    var fm := Lookup(mapping.fields, tag).value;
    var keys := Split(Lookup(fm.fields, "target").value.s, '.');
    FanOutDoc(st, seg, mapping, i, tag);
    AppendAllThenGet(st.doc, keys, NewObjects(seg.children[i..], GetOrNone(fm.fields, "mapping")));
  }

  /** When nothing is found at an array target, a list is created there
      and receives the occurrence's object. */
  lemma ArrayCreatesList(st: State, field: Element, fm: Json)
    requires fm.JObj? && HasKey(fm.fields, "target") && Lookup(fm.fields, "target").value.JStr?
    requires var keys := Split(Lookup(fm.fields, "target").value.s, '.');
             GetNestedValue(st.doc, keys) == JNull && !WriteV2(st.doc, keys, JArr([])).mismatch
    requires ArrayField(st, field, fm).Ok?
    ensures var keys := Split(Lookup(fm.fields, "target").value.s, '.');
            var b := BuildObj(field, GetOrNone(fm.fields, "mapping"), 0, [], st.valid).value;
            GetNestedValue(ArrayField(st, field, fm).value.doc, keys) == JArr([JObj(b.obj)])
  {
    var keys := Split(Lookup(fm.fields, "target").value.s, '.');
    var b := BuildObj(field, GetOrNone(fm.fields, "mapping"), 0, [], st.valid).value;
    var doc1 := WriteV2(st.doc, keys, JArr([])).tree;
    WriteThenGet(st.doc, keys, JArr([]));
    AppendThenGet(doc1, keys, JObj(b.obj));
  }

  /** A target holding something other than a list (or None) receives
      nothing: the document is unchanged. */
  lemma ArrayNonListUnchanged(st: State, field: Element, fm: Json)
    requires fm.JObj? && HasKey(fm.fields, "target") && Lookup(fm.fields, "target").value.JStr?
    requires var found := GetNestedValue(st.doc, Split(Lookup(fm.fields, "target").value.s, '.'));
             found != JNull && !found.JArr?
    requires ArrayField(st, field, fm).Ok?
    ensures ArrayField(st, field, fm).value.doc == st.doc
  {
  }

  // ---------------------------------------------------------------------
  // parse_idoc

  /** `parse_idoc(xml, config, template)`: copy the template, reset
      `unmappedSegments` to `[]`, then dispatch the top-level segments. */
  function ParseIdocSpec(config: Json, template: Json, root: Element, valid: bool): Py<State> {
    if !template.JObj? then Raise(if template.JArr? then TypeError else AttributeError)
    else
      TopLevel(State(JObj(Put(template.fields, "unmappedSegments", JArr([]))), valid), config, root, 0)
  }

  /** The loop over the top-level segments from segment `i` on. */
  function TopLevel(st: State, config: Json, root: Element, i: nat): Py<State>
    requires i <= |root.children|
    decreases |root.children| - i
  {
    if i == |root.children| then Ok(st)
    else
      var seg := root.children[i];
      var mappings :- GetItem(config, "mappings");
      var mapped :- Contains(mappings, seg.tag);
      if mapped then
        var m :- GetItem(mappings, seg.tag);
        var st' :- Segment(st, seg, m, 0);
        TopLevel(st', config, root, i + 1)
      else
        var u :- GetItem(st.doc, "unmappedSegments");
        var u' :- Append(u, JObj([(seg.tag, XmlToDict(seg))]));
        TopLevel(State(JObj(Put(st.doc.fields, "unmappedSegments", u')), st.valid), config, root, i + 1)
  }

  /** `parse_idoc`: returns the output document. */
  method ParseIdoc(g: Globals, config: Json, template: Json, root: Element) returns (r: Py<Json>)
    modifies g
    ensures match ParseIdocSpec(config, template, root, old(g.validationSuccess))
            case Raise(e) => r == Raise(e)
            case Ok(s) => r == Ok(s.doc) && g.validationSuccess == s.valid
  {
    if !template.JObj? {
      return Raise(if template.JArr? then TypeError else AttributeError);
    }
    var doc := new Document(JObj(Put(template.fields, "unmappedSegments", JArr([]))));
    ghost var spec := TopLevel(State(doc.root, g.validationSuccess), config, root, 0);
    for i := 0 to |root.children|
      invariant spec == TopLevel(State(doc.root, g.validationSuccess), config, root, i)
    {
      var seg := root.children[i];
      var mappings :- GetItem(config, "mappings");
      var mapped :- Contains(mappings, seg.tag);
      if mapped {
        var m :- GetItem(mappings, seg.tag);
        var step := ParseSegment(g, doc, seg, m);
        if step.Raise? {
          return Raise(step.error);
        }
      } else {
        var u :- GetItem(doc.root, "unmappedSegments");
        var u' :- Append(u, JObj([(seg.tag, XmlToDict(seg))]));
        doc.root := JObj(Put(doc.root.fields, "unmappedSegments", u'));
      }
    }
    return Ok(doc.root);
  }

  /** The entry kept for each unmapped top-level segment, in order. */
  function UnmappedEntries(cs: seq<Element>): seq<Json> {
    seq(|cs|, j requires 0 <= j < |cs| => JObj([(cs[j].tag, XmlToDict(cs[j]))]))
  }

  /** The template with `unmappedSegments` holding the entries for `cs`. */
  function WithUnmapped(template: Json, cs: seq<Element>): Json
    requires template.JObj?
  {
    JObj(Put(template.fields, "unmappedSegments", JArr(UnmappedEntries(cs))))
  }

  /** With no top-level segment mapped, the output is the template with
      `unmappedSegments` replaced by one `{tag: xml_to_dict(seg)}` entry per
      segment, in document order; whatever the template held there is gone. */
  lemma UnmappedCollected(config: Json, template: Json, root: Element, valid: bool)
    requires template.JObj? && config.JObj? && HasKey(config.fields, "mappings")
    requires var m := Lookup(config.fields, "mappings").value;
             m.JObj? && forall j :: 0 <= j < |root.children| ==> !HasKey(m.fields, root.children[j].tag)
    ensures ParseIdocSpec(config, template, root, valid)
            == Ok(State(WithUnmapped(template, root.children), valid))
  {
    assert root.children[..0] == [];
    assert UnmappedEntries(root.children[..0]) == [];
    UnmappedFrom(config, template, root, valid, 0);
    assert root.children[..|root.children|] == root.children;
  }

  lemma {:induction false} UnmappedFrom(config: Json, template: Json, root: Element, valid: bool, i: nat)
    requires template.JObj? && config.JObj? && HasKey(config.fields, "mappings")
    requires var m := Lookup(config.fields, "mappings").value;
             m.JObj? && forall j :: 0 <= j < |root.children| ==> !HasKey(m.fields, root.children[j].tag)
    requires i <= |root.children|
    ensures TopLevel(State(WithUnmapped(template, root.children[..i]), valid), config, root, i)
            == Ok(State(WithUnmapped(template, root.children), valid))
    decreases |root.children| - i
  {
    var fs := template.fields;
    if i == |root.children| {
      assert root.children[..i] == root.children;
    } else {
      var seg := root.children[i];
      var entries := UnmappedEntries(root.children[..i]);
      var entry := JObj([(seg.tag, XmlToDict(seg))]);
      var doc := WithUnmapped(template, root.children[..i]);
      LookupPutSame(fs, "unmappedSegments", JArr(entries));
      UnmappedStep(State(doc, valid), config, root, i, entries);
      PutOverwrite(fs, "unmappedSegments", JArr(entries), JArr(entries + [entry]));
      UnmappedEntriesStep(root.children, i);
      assert Put(doc.fields, "unmappedSegments", JArr(entries + [entry]))
             == Put(fs, "unmappedSegments", JArr(UnmappedEntries(root.children[..i + 1])));
      UnmappedFrom(config, template, root, valid, i + 1);
    }
  }

  lemma UnmappedEntriesStep(cs: seq<Element>, i: nat)
    requires i < |cs|
    ensures UnmappedEntries(cs[..i + 1]) == UnmappedEntries(cs[..i]) + [JObj([(cs[i].tag, XmlToDict(cs[i]))])]
  {
  }

  /** An unmapped top-level segment appends its entry to `unmappedSegments`
      and nothing else happens to the document. */
  lemma UnmappedStep(st: State, config: Json, root: Element, i: nat, entries: seq<Json>)
    requires i < |root.children| && config.JObj? && HasKey(config.fields, "mappings")
    requires var m := Lookup(config.fields, "mappings").value;
             m.JObj? && !HasKey(m.fields, root.children[i].tag)
    requires st.doc.JObj? && Lookup(st.doc.fields, "unmappedSegments") == Some(JArr(entries))
    ensures var seg := root.children[i];
            TopLevel(st, config, root, i)
            == TopLevel(State(JObj(Put(st.doc.fields, "unmappedSegments",
                                       JArr(entries + [JObj([(seg.tag, XmlToDict(seg))])]))), st.valid),
                        config, root, i + 1)
  {
  }

  // ---------------------------------------------------------------------
  // The script's main steps around parse_idoc

  /** The template is given a `location` of `[{}]` when it has none or an
      empty one, before parsing. */
  function SeedTemplate(template: Json): (r: Py<Json>)
    ensures r.Ok? <==> template.JObj?
    ensures r.Ok? ==> r.value.JObj? && Truthy(GetOrNone(r.value.fields, "location"))
    ensures r.Ok? && Truthy(GetOrNone(template.fields, "location")) ==> r.value == template
    ensures r.Ok? && !Truthy(GetOrNone(template.fields, "location"))
            ==> r.value == JObj(Put(template.fields, "location", JArr([EmptyObj])))
  {
    var present :- Contains(template, "location");
    if !present then
      SeedLocation(template)
    else
      var loc :- GetItem(template, "location");
      if !Truthy(loc) then SeedLocation(template) else Ok(template)
  }

  function SeedLocation(template: Json): (r: Py<Json>)
    ensures r.Ok? <==> template.JObj?
    ensures r.Ok? ==> r.value.JObj? && GetOrNone(r.value.fields, "location") == JArr([EmptyObj])
  {
    if template.JObj? then LookupPutSame(template.fields, "location", JArr([EmptyObj])); SetItem(template, "location", JArr([EmptyObj]))
    else SetItem(template, "location", JArr([EmptyObj]))
  }

  /** The whole run: seed the template, parse with a fresh flag, and emit the
      document only when `validation_success` is still true. */
  function Run(config: Json, template: Json, root: Element): (r: Py<Option<Json>>)
    ensures r.Ok? && r.value.Some? ==>
              SeedTemplate(template).Ok? && ParseIdocSpec(config, SeedTemplate(template).value, root, true).Ok?
              && ParseIdocSpec(config, SeedTemplate(template).value, root, true).value == State(r.value.value, true)
    ensures r.Ok? && r.value.None? ==>
              SeedTemplate(template).Ok? && ParseIdocSpec(config, SeedTemplate(template).value, root, true).Ok?
              && !ParseIdocSpec(config, SeedTemplate(template).value, root, true).value.valid
    ensures r.Raise? <==>
              SeedTemplate(template).Raise? || ParseIdocSpec(config, SeedTemplate(template).value, root, true).Raise?
  {
    var seeded :- SeedTemplate(template);
    var s :- ParseIdocSpec(config, seeded, root, true);
    Ok(if s.valid then Some(s.doc) else None)
  }
}
