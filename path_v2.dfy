/** The dotted-path reader and writer of the archived v2 generator
    (`get_nested_value`, `set_nested_value`). A step made only of digits is a
    list index, any other step is a dict key. The writer creates missing
    containers, choosing a list or a dict by looking at the next step, pads
    lists, and on a container-kind mismatch logs and stops without raising,
    keeping whatever it already created. */
module PathV2 {
  import opened Text
  import opened Json

  /** `get_nested_value(t, ".".join(keys))`. `JNull` is Python's None, which
      also stands for "absent": a missing key, an index past the end, or a
      step that meets the wrong kind of container. */
  function GetNestedValue(t: Json, keys: seq<string>): Json
    decreases |keys|
  {
    if keys == [] then t
    else
      var k := keys[0];
      if IsDigits(k) then
        if t.JArr? && DigitsValue(k) < |t.items| then GetNestedValue(t.items[DigitsValue(k)], keys[1..])
        else JNull
      else if t.JObj? && HasKey(t.fields, k) then GetNestedValue(Lookup(t.fields, k).value, keys[1..])
      else JNull
  }

  /** `get_nested_value(json_obj, nested_key)`: the walk over the steps. */
  method WalkNestedValue(t: Json, nestedKey: string) returns (r: Json)
    ensures r == GetNestedValue(t, Split(nestedKey, '.'))
  {
    var keys := Split(nestedKey, '.');
    var temp := t;
    for i := 0 to |keys|
      invariant GetNestedValue(t, keys) == GetNestedValue(temp, keys[i..])
    {
      var key := keys[i];
      assert keys[i..][0] == key && keys[i..][1..] == keys[i + 1..];
      if IsDigits(key) {
        var idx := DigitsValue(key);
        if temp.JArr? && idx < |temp.items| {
          temp := temp.items[idx];
        } else {
          return JNull;
        }
      } else {
        if temp.JObj? && HasKey(temp.fields, key) {
          temp := Lookup(temp.fields, key).value;
        } else {
          return JNull;
        }
      }
    }
    assert keys[|keys|..] == [];
    return temp;
  }

  /** Reading along `p + q` is reading along `p`, then along `q` from there. */
  lemma {:induction false} GetNestedConcat(t: Json, p: seq<string>, q: seq<string>)
    ensures GetNestedValue(t, p + q) == GetNestedValue(GetNestedValue(t, p), q)
    decreases |p|
  {
    if p == [] {
      assert p + q == q;
    } else {
      assert (p + q)[0] == p[0] && (p + q)[1..] == p[1..] + q;
      var k := p[0];
      if IsDigits(k) {
        if t.JArr? && DigitsValue(k) < |t.items| {
          GetNestedConcat(t.items[DigitsValue(k)], p[1..], q);
        } else {
          NullHasNothing(q);
        }
      } else if t.JObj? && HasKey(t.fields, k) {
        GetNestedConcat(Lookup(t.fields, k).value, p[1..], q);
      } else {
        NullHasNothing(q);
      }
    }
  }

  /** Nothing can be read below None. */
  lemma NullHasNothing(q: seq<string>)
    ensures GetNestedValue(JNull, q) == JNull
  {
  }

  /** The document after a write, and whether a kind mismatch was logged. */
  datatype Written = Written(tree: Json, mismatch: bool)

  /** The container `set_nested_value` creates for a missing key, chosen by
      the step that follows it. */
  function FreshFor(next: string): (c: Json)
    ensures IsDigits(next) ==> c == JArr([])
    ensures !IsDigits(next) ==> c == EmptyObj
  {
    if IsDigits(next) then JArr([]) else EmptyObj
  }

  /** `set_nested_value(t, ".".join(keys), v)` as a function of the document
      before the call. */
  function WriteV2(t: Json, keys: seq<string>, v: Json): Written
    requires |keys| >= 1
    decreases |keys|
  {
    var k := keys[0];
    if |keys| == 1 then
      if IsDigits(k) then
        if !t.JArr? then Written(t, true)
        else
          var a := Pad(t.items, DigitsValue(k) + 1, JNull);
          Written(JArr(a[DigitsValue(k) := v]), false)
      else if !t.JObj? then Written(t, true)
      else Written(JObj(Put(t.fields, k, v)), false)
    else if IsDigits(k) then
      if !t.JArr? then Written(t, true)
      else
        var n := DigitsValue(k);
        var a := Pad(t.items, n + 1, EmptyObj);
        var sub := WriteV2(a[n], keys[1..], v);
        Written(JArr(a[n := sub.tree]), sub.mismatch)
    else if !t.JObj? then Written(t, true)
    else
      var child := if HasKey(t.fields, k) then Lookup(t.fields, k).value else FreshFor(keys[1]);
      var sub := WriteV2(child, keys[1..], v);
      Written(JObj(Put(t.fields, k, sub.tree)), sub.mismatch)
  }

  /** The write as the loop leaves it: the frames of the descent so far wrap
      whatever the rest of the path does below `temp`. */
  function Plugged(frames: seq<Frame>, w: Written): Written {
    Written(Plug(frames, w.tree), w.mismatch)
  }

  /** Going one step down: the frame just left is pushed onto the descent. */
  lemma Descend(frames: seq<Frame>, f: Frame, w: Written, sub: Written)
    requires w == Written(Fill(f, sub.tree), sub.mismatch)
    ensures Plugged(frames, w) == Plugged(frames + [f], sub)
  {
    PlugPush(frames, f, sub.tree);
  }

  /** An index step in the middle of the path, seen as a frame. */
  lemma IndexStep(t: Json, keys: seq<string>, v: Json, items: seq<Json>)
    requires |keys| >= 2 && IsDigits(keys[0]) && t.JArr?
    requires items == Pad(t.items, DigitsValue(keys[0]) + 1, EmptyObj)
    ensures var n := DigitsValue(keys[0]);
            WriteV2(t, keys, v) == Written(Fill(InArr(items, n), WriteV2(items[n], keys[1..], v).tree),
                                           WriteV2(items[n], keys[1..], v).mismatch)
  {
  }

  /** A key step in the middle of the path, seen as a frame. */
  lemma KeyStep(t: Json, keys: seq<string>, v: Json, child: Json)
    requires |keys| >= 2 && !IsDigits(keys[0]) && t.JObj?
    requires child == if HasKey(t.fields, keys[0]) then Lookup(t.fields, keys[0]).value else FreshFor(keys[1])
    ensures WriteV2(t, keys, v) == Written(Fill(InObj(t.fields, keys[0]), WriteV2(child, keys[1..], v).tree),
                                           WriteV2(child, keys[1..], v).mismatch)
  {
  }

  /** One step of the descent loop: `None` when the step meets the wrong
      kind of container (the write stops there), otherwise the frame pushed
      and the value descended into. */
  method StepV2(frames: seq<Frame>, temp: Json, keys: seq<string>, value: Json) returns (r: Option<(seq<Frame>, Json)>)
    requires |keys| >= 2
    ensures r.None? ==> WriteV2(temp, keys, value) == Written(temp, true)
    ensures r.Some? ==> Plugged(frames, WriteV2(temp, keys, value))
                        == Plugged(r.value.0, WriteV2(r.value.1, keys[1..], value))
  {
    var key := keys[0];
    if IsDigits(key) {
      if !temp.JArr? {
        return None;
      }
      var idx := DigitsValue(key);
      var items := PadList(temp.items, idx + 1, EmptyObj);
      IndexStep(temp, keys, value, items);
      Descend(frames, InArr(items, idx), WriteV2(temp, keys, value), WriteV2(items[idx], keys[1..], value));
      return Some((frames + [InArr(items, idx)], items[idx]));
    } else {
      if !temp.JObj? {
        return None;
      }
      var child := if HasKey(temp.fields, key) then Lookup(temp.fields, key).value else FreshFor(keys[1]);
      KeyStep(temp, keys, value, child);
      Descend(frames, InObj(temp.fields, key), WriteV2(temp, keys, value), WriteV2(child, keys[1..], value));
      return Some((frames + [InObj(temp.fields, key)], child));
    }
  }

  /** The assignment after the loop. */
  method FinalV2(temp: Json, lastKey: string, value: Json) returns (w: Written)
    ensures w == WriteV2(temp, [lastKey], value)
  {
    if IsDigits(lastKey) {
      if !temp.JArr? {
        return Written(temp, true);
      }
      var idx := DigitsValue(lastKey);
      var items := PadList(temp.items, idx + 1, JNull);
      return Written(JArr(items[idx := value]), false);
    } else {
      if !temp.JObj? {
        return Written(temp, true);
      }
      return Written(JObj(Put(temp.fields, lastKey, value)), false);
    }
  }

  /** `set_nested_value(json_obj, nested_key, value)`: walks the steps but the
      last, then writes; returns true when a mismatch was logged. */
  method SetNestedValue(doc: Document, nestedKey: string, value: Json) returns (mismatch: bool)
    modifies doc
    ensures Written(doc.root, mismatch) == WriteV2(old(doc.root), Split(nestedKey, '.'), value)
  {
    var keys := Split(nestedKey, '.');
    ghost var goal := WriteV2(doc.root, keys, value);
    var frames: seq<Frame> := [];
    var temp := doc.root;
    for i := 0 to |keys| - 1
      invariant goal == Plugged(frames, WriteV2(temp, keys[i..], value))
    {
      assert keys[i..][1..] == keys[i + 1..];
      var step := StepV2(frames, temp, keys[i..], value);
      if step.None? {
        doc.root := Plug(frames, temp);
        return true;
      }
      frames, temp := step.value.0, step.value.1;
    }
    assert keys[|keys| - 1..] == [keys[|keys| - 1]];
    var w := FinalV2(temp, keys[|keys| - 1], value);
    doc.root := Plug(frames, w.tree);
    mismatch := w.mismatch;
  }

  // ---------------------------------------------------------------------
  // What a write does

  /** Round trip: after a write that logged no mismatch, reading the same
      path gives the value written. */
  lemma {:induction false} WriteThenGet(t: Json, keys: seq<string>, v: Json)
    requires |keys| >= 1
    requires !WriteV2(t, keys, v).mismatch
    ensures GetNestedValue(WriteV2(t, keys, v).tree, keys) == v
    decreases |keys|
  {
    var k := keys[0];
    if |keys| == 1 {
      if !IsDigits(k) {
        LookupPutSame(t.fields, k, v);
      }
    } else if IsDigits(k) {
      var n := DigitsValue(k);
      var a := Pad(t.items, n + 1, EmptyObj);
      WriteThenGet(a[n], keys[1..], v);
    } else {
      var child := if HasKey(t.fields, k) then Lookup(t.fields, k).value else FreshFor(keys[1]);
      WriteThenGet(child, keys[1..], v);
      LookupPutSame(t.fields, k, WriteV2(child, keys[1..], v).tree);
    }
  }

  /** Two steps address the same place: the same index, or the same key. */
  predicate SameStep(a: string, b: string) {
    if IsDigits(a) then IsDigits(b) && DigitsValue(a) == DigitsValue(b)
    else !IsDigits(b) && a == b
  }

  /** Path `q` leaves path `p` somewhere: neither is a prefix of the other. */
  predicate Diverges(p: seq<string>, q: seq<string>)
    decreases |p|
  {
    |p| > 0 && |q| > 0 && (!SameStep(p[0], q[0]) || Diverges(p[1..], q[1..]))
  }

  /** Entries off the written path are untouched: any path that leaves the
      written one and held a value before still holds the same value. */
  lemma {:induction false} WriteKeepsOffPath(t: Json, keys: seq<string>, v: Json, q: seq<string>)
    requires |keys| >= 1
    requires Diverges(keys, q)
    requires GetNestedValue(t, q) != JNull
    ensures GetNestedValue(WriteV2(t, keys, v).tree, q) == GetNestedValue(t, q)
    decreases |keys|
  {
    var k := keys[0];
    var w := WriteV2(t, keys, v);
    if w.tree == t {
    } else if IsDigits(k) {
      var n := DigitsValue(k);
      var m := DigitsValue(q[0]);
      var fill := if |keys| == 1 then JNull else EmptyObj;
      var a := Pad(t.items, n + 1, fill);
      if !SameStep(k, q[0]) {
        assert m < |t.items| && m != n;
        assert w.tree.items[m] == t.items[m];
      } else {
        assert a == t.items;
        WriteKeepsOffPath(a[n], keys[1..], v, q[1..]);
      }
    } else {
      if !SameStep(k, q[0]) {
        if |keys| == 1 {
          LookupPutOther(t.fields, k, v, q[0]);
        } else {
          var child := if HasKey(t.fields, k) then Lookup(t.fields, k).value else FreshFor(keys[1]);
          LookupPutOther(t.fields, k, WriteV2(child, keys[1..], v).tree, q[0]);
        }
      } else {
        var child := Lookup(t.fields, k).value;
        WriteKeepsOffPath(child, keys[1..], v, q[1..]);
        LookupPutSame(t.fields, k, WriteV2(child, keys[1..], v).tree);
      }
    }
  }

  /** A list or dict with no scalar anywhere inside: what `{}` padding and
      lookahead containers build when no value reaches them. */
  predicate Hollow(a: Json)
    decreases a
  {
    match a
    case JArr(xs) => forall i :: 0 <= i < |xs| ==> Hollow(xs[i])
    case JObj(fs) => forall i :: 0 <= i < |fs| ==> Hollow(fs[i].1)
    case _ => false
  }

  /** `b` is `a` with only containers added: lists may be longer, dicts may
      have more keys at the end, every item or entry added is hollow, and
      every value already present has itself only grown; no scalar changed. */
  predicate Grows(a: Json, b: Json)
    decreases a
  {
    match a
    case JArr(xs) =>
      b.JArr? && |xs| <= |b.items| && (forall i :: 0 <= i < |xs| ==> Grows(xs[i], b.items[i]))
      && forall i :: |xs| <= i < |b.items| ==> Hollow(b.items[i])
    case JObj(fs) =>
      b.JObj? && |fs| <= |b.fields|
      && (forall i :: 0 <= i < |fs| ==> b.fields[i].0 == fs[i].0 && Grows(fs[i].1, b.fields[i].1))
      && forall i :: |fs| <= i < |b.fields| ==> Hollow(b.fields[i].1)
    case _ => a == b
  }

  /** What grows from a hollow container is hollow. */
  lemma {:induction false} GrowsHollow(a: Json, b: Json)
    requires Hollow(a) && Grows(a, b)
    ensures Hollow(b)
    decreases a
  {
    match a
    case JArr(xs) =>
      forall i | 0 <= i < |b.items| ensures Hollow(b.items[i]) {
        if i < |xs| { GrowsHollow(xs[i], b.items[i]); }
      }
    case JObj(fs) =>
      forall i | 0 <= i < |b.fields| ensures Hollow(b.fields[i].1) {
        if i < |fs| { GrowsHollow(fs[i].1, b.fields[i].1); }
      }
  }

  lemma {:induction false} GrowsRefl(a: Json)
    ensures Grows(a, a)
    decreases a
  {
    match a
    case JArr(xs) =>
      forall i | 0 <= i < |xs| ensures Grows(xs[i], xs[i]) { GrowsRefl(xs[i]); }
    case JObj(fs) =>
      forall i | 0 <= i < |fs| ensures Grows(fs[i].1, fs[i].1) { GrowsRefl(fs[i].1); }
    case _ =>
  }

  /** A write that meets a kind mismatch overwrites nothing: the containers it
      created or padded before the mismatch stay, everything that was there
      before is still there, and all it added holds no value. */
  lemma {:induction false} MismatchOnlyGrows(t: Json, keys: seq<string>, v: Json)
    requires |keys| >= 1
    requires WriteV2(t, keys, v).mismatch
    ensures Grows(t, WriteV2(t, keys, v).tree)
    decreases |keys|, 1
  {
    if WriteV2(t, keys, v).tree == t {
      GrowsRefl(t);
    } else if IsDigits(keys[0]) {
      IndexMismatchGrows(t, keys, v);
    } else {
      KeyMismatchGrows(t, keys, v);
    }
  }

  lemma {:induction false} IndexMismatchGrows(t: Json, keys: seq<string>, v: Json)
    requires |keys| >= 2 && IsDigits(keys[0]) && t.JArr?
    requires WriteV2(t, keys, v).mismatch
    ensures Grows(t, WriteV2(t, keys, v).tree)
    decreases |keys|, 0
  {
    var n := DigitsValue(keys[0]);
    var a := Pad(t.items, n + 1, EmptyObj);
    var sub := WriteV2(a[n], keys[1..], v);
    var tree := JArr(a[n := sub.tree]);
    assert WriteV2(t, keys, v).tree == tree;
    MismatchOnlyGrows(a[n], keys[1..], v);
    forall i | 0 <= i < |t.items| ensures Grows(t.items[i], tree.items[i]) {
      if i != n { GrowsRefl(t.items[i]); }
    }
    forall i | |t.items| <= i < |tree.items| ensures Hollow(tree.items[i]) {
      if i == n { GrowsHollow(a[n], sub.tree); }
    }
  }

  lemma {:induction false} KeyMismatchGrows(t: Json, keys: seq<string>, v: Json)
    requires |keys| >= 2 && !IsDigits(keys[0]) && t.JObj?
    requires WriteV2(t, keys, v).mismatch
    ensures Grows(t, WriteV2(t, keys, v).tree)
    decreases |keys|, 0
  {
    var k := keys[0];
    var child := if HasKey(t.fields, k) then Lookup(t.fields, k).value else FreshFor(keys[1]);
    var sub := WriteV2(child, keys[1..], v);
    var tree := JObj(Put(t.fields, k, sub.tree));
    assert WriteV2(t, keys, v).tree == tree;
    MismatchOnlyGrows(child, keys[1..], v);
    var j := IndexOf(t.fields, k);
    forall i | 0 <= i < |t.fields|
      ensures tree.fields[i].0 == t.fields[i].0 && Grows(t.fields[i].1, tree.fields[i].1)
    {
      if i != j { GrowsRefl(t.fields[i].1); }
    }
    if !HasKey(t.fields, k) {
      GrowsHollow(child, sub.tree);
    }
  }

  /** A write never changes what kind of container the document root is. */
  lemma WriteKeepsKind(t: Json, keys: seq<string>, v: Json)
    requires |keys| >= 1
    ensures WriteV2(t, keys, v).tree.JArr? == t.JArr?
    ensures WriteV2(t, keys, v).tree.JObj? == t.JObj?
  {
  }

  /** Lookahead: a missing key followed by an index step is created as a list,
      followed by a key step as a dict, and that container is kept whatever
      happens further down. */
  lemma LookaheadCreates(t: Json, keys: seq<string>, v: Json)
    requires |keys| >= 2 && !IsDigits(keys[0])
    requires t.JObj? && !HasKey(t.fields, keys[0])
    ensures var c := GetNestedValue(WriteV2(t, keys, v).tree, [keys[0]]);
            (c.JArr? <==> IsDigits(keys[1])) && (c.JObj? <==> !IsDigits(keys[1]))
  {
    var child := FreshFor(keys[1]);
    WriteKeepsKind(child, keys[1..], v);
    LookupPutSame(t.fields, keys[0], WriteV2(child, keys[1..], v).tree);
  }

  /** Two index steps in a row somewhere on the path. */
  predicate AdjacentIndices(keys: seq<string>) {
    exists i :: 0 <= i < |keys| - 1 && IsDigits(keys[i]) && IsDigits(keys[i + 1])
  }

  /** Writing below a freshly created container fails exactly when two index
      steps follow each other: the lookahead makes a list for an index, but a
      padded list holds dicts, and a dict cannot take the next index. */
  lemma {:induction false} FreshWrite(keys: seq<string>, v: Json)
    requires |keys| >= 1
    ensures WriteV2(FreshFor(keys[0]), keys, v).mismatch <==> AdjacentIndices(keys)
    decreases |keys|
  {
    if |keys| > 1 {
      var rest := keys[1..];
      assert AdjacentIndices(keys) <==> (IsDigits(keys[0]) && IsDigits(keys[1])) || AdjacentIndices(rest) by {
        if AdjacentIndices(keys) && !(IsDigits(keys[0]) && IsDigits(keys[1])) {
          var i :| 0 <= i < |keys| - 1 && IsDigits(keys[i]) && IsDigits(keys[i + 1]);
          assert rest[i - 1] == keys[i];
        }
        if AdjacentIndices(rest) {
          var i :| 0 <= i < |rest| - 1 && IsDigits(rest[i]) && IsDigits(rest[i + 1]);
          assert keys[i + 1] == rest[i];
        }
      }
      if IsDigits(keys[0]) {
        var n := DigitsValue(keys[0]);
        var a := Pad([], n + 1, EmptyObj);
        assert a[n] == EmptyObj;
        if !IsDigits(keys[1]) {
          FreshWrite(rest, v);
        }
      } else {
        FreshWrite(rest, v);
      }
    }
  }

  /** Writing into an empty dict logs a mismatch exactly when the path starts
      with an index or has two index steps in a row. */
  lemma EmptyDictWrite(keys: seq<string>, v: Json)
    requires |keys| >= 1
    ensures WriteV2(EmptyObj, keys, v).mismatch <==> IsDigits(keys[0]) || AdjacentIndices(keys)
  {
    if !IsDigits(keys[0]) {
      FreshWrite(keys, v);
    }
  }

  /** An index step pads the list it meets: with `{}` in the middle of the
      path and with None at its end, up to the index, keeping what was there. */
  lemma WritePads(t: Json, keys: seq<string>, v: Json)
    requires |keys| >= 1 && IsDigits(keys[0]) && t.JArr?
    requires DigitsValue(keys[0]) >= |t.items|
    ensures var r := WriteV2(t, keys, v).tree;
            r.JArr? && |r.items| == DigitsValue(keys[0]) + 1
            && r.items[..|t.items|] == t.items
            && forall i :: |t.items| <= i < DigitsValue(keys[0]) ==>
                 r.items[i] == if |keys| == 1 then JNull else EmptyObj
  {
  }

  // ---------------------------------------------------------------------
  // Appending through a reference returned by `get_nested_value`

  /** `get_nested_value(t, path).append(x)` when the value found is a list:
      the list inside the document grows by `x`; otherwise nothing changes. */
  function AppendAt(t: Json, keys: seq<string>, x: Json): Json
    decreases |keys|
  {
    if keys == [] then
      if t.JArr? then JArr(t.items + [x]) else t
    else
      var k := keys[0];
      if IsDigits(k) then
        if t.JArr? && DigitsValue(k) < |t.items| then
          JArr(t.items[DigitsValue(k) := AppendAt(t.items[DigitsValue(k)], keys[1..], x)])
        else t
      else if t.JObj? && HasKey(t.fields, k) then
        JObj(Put(t.fields, k, AppendAt(Lookup(t.fields, k).value, keys[1..], x)))
      else t
  }

  /** The list found at the path has `x` at its end afterwards. */
  lemma {:induction false} AppendThenGet(t: Json, keys: seq<string>, x: Json)
    requires GetNestedValue(t, keys).JArr?
    ensures GetNestedValue(AppendAt(t, keys, x), keys) == JArr(GetNestedValue(t, keys).items + [x])
    decreases |keys|
  {
    if keys != [] {
      var k := keys[0];
      if IsDigits(k) {
        AppendThenGet(t.items[DigitsValue(k)], keys[1..], x);
      } else {
        var child := Lookup(t.fields, k).value;
        AppendThenGet(child, keys[1..], x);
        LookupPutSame(t.fields, k, AppendAt(child, keys[1..], x));
      }
    }
  }

  /** Several appends to the list at the same path, in order. */
  function AppendAll(t: Json, keys: seq<string>, xs: seq<Json>): Json
    decreases |xs|
  {
    if xs == [] then t else AppendAll(AppendAt(t, keys, xs[0]), keys, xs[1..])
  }

  /** The list found at the path ends with everything appended, in order. */
  lemma {:induction false} AppendAllThenGet(t: Json, keys: seq<string>, xs: seq<Json>)
    requires GetNestedValue(t, keys).JArr?
    ensures GetNestedValue(AppendAll(t, keys, xs), keys) == JArr(GetNestedValue(t, keys).items + xs)
    decreases |xs|
  {
    if xs != [] {
      var before := GetNestedValue(t, keys).items;
      AppendThenGet(t, keys, xs[0]);
      AppendAllThenGet(AppendAt(t, keys, xs[0]), keys, xs[1..]);
      assert (before + [xs[0]]) + xs[1..] == before + xs;
    } else {
      assert GetNestedValue(t, keys).items + xs == GetNestedValue(t, keys).items;
    }
  }

  /** Appending leaves every path that leaves the list's path as it was. */
  lemma {:induction false} AppendKeepsOffPath(t: Json, keys: seq<string>, x: Json, q: seq<string>)
    requires Diverges(keys, q)
    ensures GetNestedValue(AppendAt(t, keys, x), q) == GetNestedValue(t, q)
    decreases |keys|
  {
    var k := keys[0];
    if IsDigits(k) {
      if t.JArr? && DigitsValue(k) < |t.items| && SameStep(k, q[0]) {
        AppendKeepsOffPath(t.items[DigitsValue(k)], keys[1..], x, q[1..]);
      }
    } else if t.JObj? && HasKey(t.fields, k) {
      var child := Lookup(t.fields, k).value;
      if SameStep(k, q[0]) {
        AppendKeepsOffPath(child, keys[1..], x, q[1..]);
        LookupPutSame(t.fields, k, AppendAt(child, keys[1..], x));
      } else {
        LookupPutOther(t.fields, k, AppendAt(child, keys[1..], x), q[0]);
      }
    }
  }

  /** When no list is found at the path, appending changes nothing. */
  lemma {:induction false} AppendMissesNonList(t: Json, keys: seq<string>, x: Json)
    requires !GetNestedValue(t, keys).JArr?
    ensures AppendAt(t, keys, x) == t
    decreases |keys|
  {
    if keys != [] {
      var k := keys[0];
      if IsDigits(k) {
        if t.JArr? && DigitsValue(k) < |t.items| {
          AppendMissesNonList(t.items[DigitsValue(k)], keys[1..], x);
        }
      } else if t.JObj? && HasKey(t.fields, k) {
        AppendMissesNonList(Lookup(t.fields, k).value, keys[1..], x);
        assert t.fields[IndexOf(t.fields, k)] == (k, Lookup(t.fields, k).value);
      }
    }
  }
}
