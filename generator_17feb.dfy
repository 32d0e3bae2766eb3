/** The 17thFeb generator script: a flat `parse_segment` that looks the
    segment's mapping up by name and maps only entries carrying `target`,
    writing through the v1 path writer (the script's copy is the same
    code); `parse_idoc`, which dispatches only the segments named in
    `config["mappings"]`. */
module Generator17Feb {
  import opened Text
  import opened Json
  import opened Idoc
  import opened ScriptRules
  import opened PathV2
  import opened PathV1

  /** `config["mappings"].get(segment_name, {})`. */
  function SegmentMapping(config: Json, name: string): (r: Py<Json>)
    ensures r.Ok? <==> config.JObj? && HasKey(config.fields, "mappings")
                       && Lookup(config.fields, "mappings").value.JObj?
    ensures r.Ok? ==>
              var m := Lookup(config.fields, "mappings").value;
              (HasKey(m.fields, name) ==> Lookup(m.fields, name) == Some(r.value))
              && (!HasKey(m.fields, name) ==> r.value == EmptyObj)
  {
    var m :- GetItem(config, "mappings");
    DictGet(m, name, EmptyObj)
  }

  /** `parse_segment(segment, segment_name, config, parent_json)`. */
  function Segment17(st: State, seg: Element, name: string, config: Json): Py<State> {
    var sm :- SegmentMapping(config, name);
    Fields17(st, seg, sm, 0)
  }

  /** The loop over the segment's children from child `i` on. */
  function Fields17(st: State, seg: Element, sm: Json, i: nat): Py<State>
    requires i <= |seg.children|
    decreases |seg.children| - i
  {
    if i == |seg.children| then Ok(st)
    else
      var st' :- Entry17(st, seg.children[i], sm);
      Fields17(st', seg, sm, i + 1)
  }

  /** One child: an unmapped tag is skipped; an entry with `target` is
      transformed, validated and written unless validation returned None;
      any other entry is only printed through `.items()`, which a non-dict
      lacks. */
  function Entry17(st: State, field: Element, sm: Json): Py<State> {
    var mapped :- Contains(sm, field.tag);
    if !mapped then Ok(st)
    else
      var mi :- GetItem(sm, field.tag);
      var hasTarget :- Contains(mi, "target");
      if !hasTarget then
        if mi.JObj? then Ok(st) else Raise(AttributeError)
      else
        var target :- GetItem(mi, "target");
        var tv :- ApplyTransformation(Strip(field.text), GetOrNone(mi.fields, "transformation"));
        var c :- Validate(tv, GetOrNone(mi.fields, "validation"));
        var valid := st.valid && !c.rejected;
        if c.value == JNull then Ok(State(st.doc, valid))
        else if !target.JStr? then Raise(AttributeError)
        else
          var w :- SetV1(st.doc, Split(target.s, '.'), c.value);
          Ok(State(w.tree, valid))
  }

  /** `parse_segment(segment, segment_name, config, parent_json)`. */
  method ParseSegment17(g: Globals, doc: Document, seg: Element, name: string, config: Json) returns (r: Py<()>)
    modifies g, doc
    ensures Outcome(Segment17(State(old(doc.root), old(g.validationSuccess)), seg, name, config), r, doc.root, g.validationSuccess)
  {
    var mappings :- GetItem(config, "mappings");
    var sm :- DictGet(mappings, name, EmptyObj);
    ghost var spec := Fields17(State(doc.root, g.validationSuccess), seg, sm, 0);
    for i := 0 to |seg.children|
      invariant spec == Fields17(State(doc.root, g.validationSuccess), seg, sm, i)
    {
      var step := MapField17(g, doc, seg.children[i], sm);
      if step.Raise? {
        return Raise(step.error);
      }
    }
    return Ok(());
  }

  /** The body of the loop in `parse_segment` for one child. */
  method MapField17(g: Globals, doc: Document, field: Element, sm: Json) returns (r: Py<()>)
    modifies g, doc
    ensures Outcome(Entry17(State(old(doc.root), old(g.validationSuccess)), field, sm), r, doc.root, g.validationSuccess)
  {
    var srcValue := Strip(field.text);
    var mapped :- Contains(sm, field.tag);
    if !mapped {
      return Ok(());
    }
    var mi :- GetItem(sm, field.tag);
    var hasTarget :- Contains(mi, "target");
    if !hasTarget {
      return if mi.JObj? then Ok(()) else Raise(AttributeError);
    }
    var target :- GetItem(mi, "target");
    var tv :- ApplyTransformation(srcValue, GetOrNone(mi.fields, "transformation"));
    var value :- g.ValidateData(tv, GetOrNone(mi.fields, "validation"));
    if value != JNull {
      if !target.JStr? {
        return Raise(AttributeError);
      }
      var logged :- SetNestedValueV1(doc, target.s, value);
    }
    return Ok(());
  }

  // ---------------------------------------------------------------------
  // What parse_segment does

  /** `validation_success` only ever goes from true to false. */
  lemma {:induction false} Fields17FlagOnlyFalls(st: State, seg: Element, sm: Json, i: nat)
    requires i <= |seg.children|
    requires Fields17(st, seg, sm, i).Ok?
    ensures Fields17(st, seg, sm, i).value.valid ==> st.valid
    decreases |seg.children| - i
  {
    if i < |seg.children| {
      Fields17FlagOnlyFalls(Entry17(st, seg.children[i], sm).value, seg, sm, i + 1);
    }
  }

  /** Nesting is not supported: children that are unmapped, or whose entry
      is a dict without `target`, change nothing and do not stop the loop. */
  lemma {:induction false} NoTargetNotMapped(st: State, seg: Element, sm: Json, i: nat)
    requires sm.JObj? && i <= |seg.children|
    requires forall j :: i <= j < |seg.children| ==>
               !HasKey(sm.fields, seg.children[j].tag)
               || (Lookup(sm.fields, seg.children[j].tag).value.JObj?
                   && !HasKey(Lookup(sm.fields, seg.children[j].tag).value.fields, "target"))
    ensures Fields17(st, seg, sm, i) == Ok(st)
    decreases |seg.children| - i
  {
    if i < |seg.children| {
      NoTargetNotMapped(st, seg, sm, i + 1);
    }
  }

  /** A segment whose name has no mapping is read against `{}`, so nothing
      in it is mapped. */
  lemma UnknownSegmentMapsNothing(st: State, seg: Element, name: string, config: Json)
    requires config.JObj? && HasKey(config.fields, "mappings")
    requires var m := Lookup(config.fields, "mappings").value;
             m.JObj? && !HasKey(m.fields, name)
    ensures Segment17(st, seg, name, config) == Ok(st)
  {
    NoTargetNotMapped(st, seg, EmptyObj, 0);
  }

  /** A field with `target` whose value validation rejects is not written,
      and the flag is cleared. */
  lemma Entry17Rejected(st: State, field: Element, sm: Json)
    requires sm.JObj? && HasKey(sm.fields, field.tag)
    requires var mi := Lookup(sm.fields, field.tag).value;
             mi.JObj? && HasKey(mi.fields, "target")
    requires var mi := Lookup(sm.fields, field.tag).value;
             var tv := ApplyTransformation(Strip(field.text), GetOrNone(mi.fields, "transformation"));
             tv.Ok? && Validate(tv.value, GetOrNone(mi.fields, "validation")) == Ok(Checked(JNull, true))
    ensures Entry17(st, field, sm) == Ok(State(st.doc, false))
  {
  }

  /** A field with a str `target` whose value validation accepts can be
      read back at the target when the writer runs to the end of the path. */
  lemma Entry17Written(st: State, field: Element, sm: Json)
    requires sm.JObj? && HasKey(sm.fields, field.tag)
    requires var mi := Lookup(sm.fields, field.tag).value;
             mi.JObj? && HasKey(mi.fields, "target") && Lookup(mi.fields, "target").value.JStr?
    requires var mi := Lookup(sm.fields, field.tag).value;
             var tv := ApplyTransformation(Strip(field.text), GetOrNone(mi.fields, "transformation"));
             tv.Ok? && Validate(tv.value, GetOrNone(mi.fields, "validation")).Ok?
             && Validate(tv.value, GetOrNone(mi.fields, "validation")).value.value != JNull
    requires var mi := Lookup(sm.fields, field.tag).value;
             var keys := Split(Lookup(mi.fields, "target").value.s, '.');
             var tv := ApplyTransformation(Strip(field.text), GetOrNone(mi.fields, "transformation"));
             var w := SetV1(st.doc, keys, tv.value);
             w.Ok? && !w.value.stopped && (IsDigits(keys[|keys| - 1]) <==> w.value.logged)
    ensures var mi := Lookup(sm.fields, field.tag).value;
            var tv := ApplyTransformation(Strip(field.text), GetOrNone(mi.fields, "transformation"));
            var keys := Split(Lookup(mi.fields, "target").value.s, '.');
            Entry17(st, field, sm).Ok?
            && GetNestedValue(Entry17(st, field, sm).value.doc, keys) == tv.value
  {
    var mi := Lookup(sm.fields, field.tag).value;
    var tv := ApplyTransformation(Strip(field.text), GetOrNone(mi.fields, "transformation"));
    var keys := Split(Lookup(mi.fields, "target").value.s, '.');
    WriteV1ThenGet(st.doc, keys, tv.value);
  }

  // ---------------------------------------------------------------------
  // parse_idoc and the gate

  /** `parse_idoc(xml, config, template)`: `[template.copy()]`, then each
      top-level segment named in `config["mappings"]` written into the copy. */
  function ParseIdoc17Spec(config: Json, template: Json, root: Element, valid: bool): (r: Py<State>)
    ensures r.Ok? ==> r.value.doc.JArr? && |r.value.doc.items| == 1
  {
    if !(template.JObj? || template.JArr?) then Raise(AttributeError)
    else
      var s :- TopLevel17(State(template, valid), config, root, 0);
      Ok(State(JArr([s.doc]), s.valid))
  }

  /** The loop over the top-level segments from segment `i` on; a segment
      not named in the mappings is skipped without a word. */
  function TopLevel17(st: State, config: Json, root: Element, i: nat): Py<State>
    requires i <= |root.children|
    decreases |root.children| - i
  {
    if i == |root.children| then Ok(st)
    else
      var seg := root.children[i];
      var mappings :- GetItem(config, "mappings");
      var mapped :- Contains(mappings, seg.tag);
      if mapped then
        var st' :- Segment17(st, seg, seg.tag, config);
        TopLevel17(st', config, root, i + 1)
      else TopLevel17(st, config, root, i + 1)
  }

  /** `parse_idoc`: returns the one-element list. */
  method ParseIdoc17(g: Globals, config: Json, template: Json, root: Element) returns (r: Py<Json>)
    modifies g
    ensures match ParseIdoc17Spec(config, template, root, old(g.validationSuccess))
            case Raise(e) => r == Raise(e)
            case Ok(s) => r == Ok(s.doc) && g.validationSuccess == s.valid
  {
    if !(template.JObj? || template.JArr?) {
      return Raise(AttributeError);
    }
    var doc := new Document(template);
    ghost var spec := TopLevel17(State(doc.root, g.validationSuccess), config, root, 0);
    for i := 0 to |root.children|
      invariant spec == TopLevel17(State(doc.root, g.validationSuccess), config, root, i)
    {
      var seg := root.children[i];
      var mappings :- GetItem(config, "mappings");
      var mapped :- Contains(mappings, seg.tag);
      if mapped {
        var step := ParseSegment17(g, doc, seg, seg.tag, config);
        if step.Raise? {
          return Raise(step.error);
        }
      }
    }
    return Ok(JArr([doc.root]));
  }

  /** Only the segments named in the mappings are processed: when none is,
      the result is the template copy alone. */
  lemma OnlyMappedSegments(config: Json, template: Json, root: Element, valid: bool)
    requires template.JObj? || template.JArr?
    requires config.JObj? && HasKey(config.fields, "mappings")
    requires var m := Lookup(config.fields, "mappings").value;
             m.JObj? && forall j :: 0 <= j < |root.children| ==> !HasKey(m.fields, root.children[j].tag)
    ensures ParseIdoc17Spec(config, template, root, valid) == Ok(State(JArr([template]), valid))
  {
    SkippedFrom17(config, State(template, valid), root, 0);
  }

  lemma {:induction false} SkippedFrom17(config: Json, st: State, root: Element, i: nat)
    requires config.JObj? && HasKey(config.fields, "mappings")
    requires var m := Lookup(config.fields, "mappings").value;
             m.JObj? && forall j :: 0 <= j < |root.children| ==> !HasKey(m.fields, root.children[j].tag)
    requires i <= |root.children|
    ensures TopLevel17(st, config, root, i) == Ok(st)
    decreases |root.children| - i
  {
    if i < |root.children| {
      SkippedFrom17(config, st, root, i + 1);
    }
  }

  /** The whole run: parse with a fresh flag, and emit the list only when
      `validation_success` is still true. */
  function Run17(config: Json, template: Json, root: Element): (r: Py<Option<Json>>)
    ensures r.Ok? && r.value.Some? ==>
              ParseIdoc17Spec(config, template, root, true) == Ok(State(r.value.value, true))
    ensures r.Ok? && r.value.None? ==>
              ParseIdoc17Spec(config, template, root, true).Ok?
              && !ParseIdoc17Spec(config, template, root, true).value.valid
    ensures r.Raise? <==> ParseIdoc17Spec(config, template, root, true).Raise?
  {
    var s :- ParseIdoc17Spec(config, template, root, true);
    Ok(if s.valid then Some(s.doc) else None)
  }
}
