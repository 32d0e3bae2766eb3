/** The v1 generator script: the recursive `parse_segment` without array
    fan-out, writing through the v1 path writer; `parse_idoc`, which returns
    a one-element list holding a copy of the template; and the gate that
    emits the result only while `validation_success` holds. */
module GeneratorV1 {
  import opened Text
  import opened Json
  import opened Idoc
  import opened ScriptRules
  import opened PathV2
  import opened PathV1

  // ---------------------------------------------------------------------
  // parse_segment

  /** `parse_segment(seg, mapping_info, parent_json)` from child `i` on. */
  function SegmentV1(st: State, seg: Element, mapping: Json, i: nat): Py<State>
    requires i <= |seg.children|
    decreases seg, 0, |seg.children| - i
  {
    if i == |seg.children| then Ok(st)
    else
      var st' :- FieldV1(st, seg.children[i], mapping);
      SegmentV1(st', seg, mapping, i + 1)
  }

  /** One child: an unmapped tag is skipped, a dict with `target` is a
      leaf, another dict is a nested group mapped into the same document,
      and anything else is skipped. */
  function FieldV1(st: State, field: Element, mapping: Json): Py<State>
    decreases field, 1, 0
  {
    var mapped :- Contains(mapping, field.tag);
    if !mapped then Ok(st)
    else
      var fm :- GetItem(mapping, field.tag);
      if fm.JObj? && HasKey(fm.fields, "target") then LeafV1(st, field, fm)
      else if fm.JObj? then SegmentV1(st, field, fm, 0)
      else Ok(st)
  }

  /** A leaf: transform, validate, and write the value through the v1
      writer unless validation returned None. */
  function LeafV1(st: State, field: Element, fm: Json): Py<State>
    requires fm.JObj? && HasKey(fm.fields, "target")
  {
    var tv :- ApplyTransformation(Strip(field.text), GetOrNone(fm.fields, "transformation"));
    var c :- Validate(tv, GetOrNone(fm.fields, "validation"));
    var valid := st.valid && !c.rejected;
    if c.value == JNull then Ok(State(st.doc, valid))
    else
      var target := Lookup(fm.fields, "target").value;
      if !target.JStr? then Raise(AttributeError)
      else
        var w :- SetV1(st.doc, Split(target.s, '.'), c.value);
        Ok(State(w.tree, valid))
  }

  /** `parse_segment(segment, mapping_info, parent_json)`. */
  method ParseSegmentV1(g: Globals, doc: Document, seg: Element, mapping: Json) returns (r: Py<()>)
    modifies g, doc
    ensures Outcome(SegmentV1(State(old(doc.root), old(g.validationSuccess)), seg, mapping, 0), r, doc.root, g.validationSuccess)
    decreases seg, 0
  {
    ghost var spec := SegmentV1(State(doc.root, g.validationSuccess), seg, mapping, 0);
    for i := 0 to |seg.children|
      invariant spec == SegmentV1(State(doc.root, g.validationSuccess), seg, mapping, i)
    {
      var step := ParseFieldV1(g, doc, seg.children[i], mapping);
      if step.Raise? {
        return Raise(step.error);
      }
    }
    return Ok(());
  }

  /** The body of the loop in `parse_segment` for one child. */
  method ParseFieldV1(g: Globals, doc: Document, field: Element, mapping: Json) returns (r: Py<()>)
    modifies g, doc
    ensures Outcome(FieldV1(State(old(doc.root), old(g.validationSuccess)), field, mapping), r, doc.root, g.validationSuccess)
    decreases field, 1
  {
    var mapped :- Contains(mapping, field.tag);
    if !mapped {
      return Ok(());
    }
    var fm :- GetItem(mapping, field.tag);
    if fm.JObj? && HasKey(fm.fields, "target") {
      r := ParseLeafV1(g, doc, field, fm);
    } else if fm.JObj? {
      r := ParseSegmentV1(g, doc, field, fm);
    } else {
      r := Ok(());
    }
  }

  /** The leaf branch of `parse_segment`. */
  method ParseLeafV1(g: Globals, doc: Document, field: Element, fm: Json) returns (r: Py<()>)
    requires fm.JObj? && HasKey(fm.fields, "target")
    modifies g, doc
    ensures Outcome(LeafV1(State(old(doc.root), old(g.validationSuccess)), field, fm), r, doc.root, g.validationSuccess)
  {
    var tv :- ApplyTransformation(Strip(field.text), GetOrNone(fm.fields, "transformation"));
    var value :- g.ValidateData(tv, GetOrNone(fm.fields, "validation"));
    if value != JNull {
      var target := Lookup(fm.fields, "target").value;
      if !target.JStr? {
        return Raise(AttributeError);
      }
      var logged :- SetNestedValueV1(doc, target.s, value);
    }
    return Ok(());
  }

  // ---------------------------------------------------------------------
  // What parse_segment does

  /** `validation_success` only ever goes from true to false. */
  lemma {:induction false} SegmentV1FlagOnlyFalls(st: State, seg: Element, mapping: Json, i: nat)
    requires i <= |seg.children|
    requires SegmentV1(st, seg, mapping, i).Ok?
    ensures SegmentV1(st, seg, mapping, i).value.valid ==> st.valid
    decreases seg, 0, |seg.children| - i
  {
    if i < |seg.children| {
      var st' := FieldV1(st, seg.children[i], mapping).value;
      FieldV1FlagOnlyFalls(st, seg.children[i], mapping);
      SegmentV1FlagOnlyFalls(st', seg, mapping, i + 1);
    }
  }

  lemma {:induction false} FieldV1FlagOnlyFalls(st: State, field: Element, mapping: Json)
    requires FieldV1(st, field, mapping).Ok?
    ensures FieldV1(st, field, mapping).value.valid ==> st.valid
    decreases field, 1, 0
  {
    if Contains(mapping, field.tag).value {
      var fm := GetItem(mapping, field.tag).value;
      if fm.JObj? && !HasKey(fm.fields, "target") {
        SegmentV1FlagOnlyFalls(st, field, fm, 0);
      }
    }
  }

  /** A leaf whose value validation rejects is not written, and the flag
      is cleared. */
  lemma LeafV1Rejected(st: State, field: Element, fm: Json)
    requires fm.JObj? && HasKey(fm.fields, "target")
    requires var tv := ApplyTransformation(Strip(field.text), GetOrNone(fm.fields, "transformation"));
             tv.Ok? && Validate(tv.value, GetOrNone(fm.fields, "validation")) == Ok(Checked(JNull, true))
    ensures LeafV1(st, field, fm) == Ok(State(st.doc, false))
  {
  }

  /** A leaf that validation accepts can be read back at its target when
      the v1 writer runs to the end of the path: its last step a key with
      nothing logged, or an index into a list. */
  lemma LeafV1Written(st: State, field: Element, fm: Json)
    requires fm.JObj? && HasKey(fm.fields, "target") && Lookup(fm.fields, "target").value.JStr?
    requires var tv := ApplyTransformation(Strip(field.text), GetOrNone(fm.fields, "transformation"));
             tv.Ok? && Validate(tv.value, GetOrNone(fm.fields, "validation")).Ok?
             && Validate(tv.value, GetOrNone(fm.fields, "validation")).value.value != JNull
    requires var keys := Split(Lookup(fm.fields, "target").value.s, '.');
             var tv := ApplyTransformation(Strip(field.text), GetOrNone(fm.fields, "transformation"));
             var w := SetV1(st.doc, keys, tv.value);
             w.Ok? && !w.value.stopped && (IsDigits(keys[|keys| - 1]) <==> w.value.logged)
    ensures var tv := ApplyTransformation(Strip(field.text), GetOrNone(fm.fields, "transformation"));
            var keys := Split(Lookup(fm.fields, "target").value.s, '.');
            LeafV1(st, field, fm).Ok?
            && GetNestedValue(LeafV1(st, field, fm).value.doc, keys) == tv.value
  {
    var tv := ApplyTransformation(Strip(field.text), GetOrNone(fm.fields, "transformation"));
    var keys := Split(Lookup(fm.fields, "target").value.s, '.');
    WriteV1ThenGet(st.doc, keys, tv.value);
  }

  /** A child whose tag is not in the (dict) mapping, or that is mapped to
      something other than a dict, changes nothing; its siblings are still
      processed. */
  lemma {:induction false} SkippedChildrenV1(st: State, seg: Element, mapping: Json, i: nat)
    requires mapping.JObj? && i <= |seg.children|
    requires forall j :: i <= j < |seg.children| ==>
               !HasKey(mapping.fields, seg.children[j].tag)
               || !Lookup(mapping.fields, seg.children[j].tag).value.JObj?
    ensures SegmentV1(st, seg, mapping, i) == Ok(st)
    decreases |seg.children| - i
  {
    if i < |seg.children| {
      SkippedChildrenV1(st, seg, mapping, i + 1);
    }
  }

  // ---------------------------------------------------------------------
  // parse_idoc and the gate

  /** `parse_idoc(xml, config, template)`: `[template.copy()]`, then each
      mapped top-level segment written into the copy. */
  function ParseIdocV1Spec(config: Json, template: Json, root: Element, valid: bool): (r: Py<State>)
    ensures r.Ok? ==> r.value.doc.JArr? && |r.value.doc.items| == 1
  {
    if !(template.JObj? || template.JArr?) then Raise(AttributeError)
    else
      var s :- TopLevelV1(State(template, valid), config, root, 0);
      Ok(State(JArr([s.doc]), s.valid))
  }

  /** The loop over the top-level segments from segment `i` on; a segment
      without a mapping is only logged. */
  function TopLevelV1(st: State, config: Json, root: Element, i: nat): Py<State>
    requires i <= |root.children|
    decreases |root.children| - i
  {
    if i == |root.children| then Ok(st)
    else
      var seg := root.children[i];
      var mappings :- GetItem(config, "mappings");
      var mapped :- Contains(mappings, seg.tag);
      if mapped then
        var m :- GetItem(mappings, seg.tag);
        var st' :- SegmentV1(st, seg, m, 0);
        TopLevelV1(st', config, root, i + 1)
      else TopLevelV1(st, config, root, i + 1)
  }

  /** `parse_idoc`: returns the one-element list. */
  method ParseIdocV1(g: Globals, config: Json, template: Json, root: Element) returns (r: Py<Json>)
    modifies g
    ensures match ParseIdocV1Spec(config, template, root, old(g.validationSuccess))
            case Raise(e) => r == Raise(e)
            case Ok(s) => r == Ok(s.doc) && g.validationSuccess == s.valid
  {
    if !(template.JObj? || template.JArr?) {
      return Raise(AttributeError);
    }
    var doc := new Document(template);
    ghost var spec := TopLevelV1(State(doc.root, g.validationSuccess), config, root, 0);
    for i := 0 to |root.children|
      invariant spec == TopLevelV1(State(doc.root, g.validationSuccess), config, root, i)
    {
      var seg := root.children[i];
      var mappings :- GetItem(config, "mappings");
      var mapped :- Contains(mappings, seg.tag);
      if mapped {
        var m :- GetItem(mappings, seg.tag);
        var step := ParseSegmentV1(g, doc, seg, m);
        if step.Raise? {
          return Raise(step.error);
        }
      }
    }
    return Ok(JArr([doc.root]));
  }

  /** Top-level segments without a mapping leave the template copy as it
      was. */
  lemma UnmappedSegmentsIgnored(config: Json, template: Json, root: Element, valid: bool)
    requires template.JObj? || template.JArr?
    requires config.JObj? && HasKey(config.fields, "mappings")
    requires var m := Lookup(config.fields, "mappings").value;
             m.JObj? && forall j :: 0 <= j < |root.children| ==> !HasKey(m.fields, root.children[j].tag)
    ensures ParseIdocV1Spec(config, template, root, valid) == Ok(State(JArr([template]), valid))
  {
    UnmappedFromV1(config, State(template, valid), root, 0);
  }

  lemma {:induction false} UnmappedFromV1(config: Json, st: State, root: Element, i: nat)
    requires config.JObj? && HasKey(config.fields, "mappings")
    requires var m := Lookup(config.fields, "mappings").value;
             m.JObj? && forall j :: 0 <= j < |root.children| ==> !HasKey(m.fields, root.children[j].tag)
    requires i <= |root.children|
    ensures TopLevelV1(st, config, root, i) == Ok(st)
    decreases |root.children| - i
  {
    if i < |root.children| {
      UnmappedFromV1(config, st, root, i + 1);
    }
  }

  /** The whole run: parse with a fresh flag, and emit the list only when
      `validation_success` is still true. */
  function RunV1(config: Json, template: Json, root: Element): (r: Py<Option<Json>>)
    ensures r.Ok? && r.value.Some? ==>
              ParseIdocV1Spec(config, template, root, true) == Ok(State(r.value.value, true))
    ensures r.Ok? && r.value.None? ==>
              ParseIdocV1Spec(config, template, root, true).Ok?
              && !ParseIdocV1Spec(config, template, root, true).value.valid
    ensures r.Raise? <==> ParseIdocV1Spec(config, template, root, true).Raise?
  {
    var s :- ParseIdocV1Spec(config, template, root, true);
    Ok(if s.valid then Some(s.doc) else None)
  }
}
