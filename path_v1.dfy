/** The dotted-path writer of the v1 generator script, copied unchanged into
    the 17thFeb script. It has no lookahead: a missing key is always created
    as `{}`. It does not check what an index step meets, so a dict or a
    scalar there raises. Its last step runs twice: a first assignment to
    `keys[-1]`, then a second pass that pads and assigns for an index, or
    assigns the key again. */
module PathV1 {
  import opened Text
  import opened Json
  import opened PathV2

  /** The document after a write: `stopped` when a key step met a list in the
      middle of the path and the function returned early; `logged` when an
      error line was logged, whether or not it stopped. */
  datatype Written1 = Written1(tree: Json, stopped: bool, logged: bool)

  /** `set_nested_value(t, ".".join(keys), v)` of the v1 script. With a
      one-part path the loop does nothing, and on a list the error line's
      `keys[-2]` is out of range and raises before anything is logged or
      written; every other write is WriteV1. */
  function SetV1(t: Json, keys: seq<string>, v: Json): (r: Py<Written1>)
    requires |keys| >= 1
    ensures r.Raise? && r.error == IndexError ==> |keys| == 1 && t.JArr?
  {
    if |keys| == 1 && t.JArr? then Raise(IndexError) else WriteV1(t, keys, v)
  }

  /** The write of the parts `keys` into `t`, which is either the root with
      a path of at least two parts or a dict, or a container reached after
      at least one step, where `keys[-2]` exists. */
  function WriteV1(t: Json, keys: seq<string>, v: Json): (r: Py<Written1>)
    requires |keys| >= 1
    ensures t.JStr? ==> r.Raise?
    ensures r.Raise? ==> r.error != IndexError
    decreases |keys|, 1
  {
    if |keys| == 1 then FinalV1(t, keys[0], v)
    else if IsDigits(keys[0]) then IndexV1(t, keys, v)
    else KeyV1(t, keys, v)
  }

  /** An index step in the middle of the path: pads a list with `{}`; a
      dict or a scalar has no `append` or no `len` and raises, and a string
      is indexed to one character, below which every write raises. */
  function IndexV1(t: Json, keys: seq<string>, v: Json): (r: Py<Written1>)
    requires |keys| >= 2 && IsDigits(keys[0])
    ensures t.JStr? ==> r.Raise?
    ensures r.Raise? ==> r.error != IndexError
    decreases |keys|, 0
  {
    var n := DigitsValue(keys[0]);
    match t
    case JArr(items) =>
      var a := Pad(items, n + 1, EmptyObj);
      var sub :- WriteV1(a[n], keys[1..], v);
      Ok(Written1(JArr(a[n := sub.tree]), sub.stopped, sub.logged))
    case JObj(fs) => if |fs| <= n then Raise(AttributeError) else Raise(KeyError)
    case JStr(s) =>
      if |s| <= n then Raise(AttributeError)
      else
        (match WriteV1(JStr([s[n]]), keys[1..], v)
         case Raise(e) => Raise(e)
         case Ok(w) => Ok(Written1(t, w.stopped, w.logged)))
    case _ => Raise(TypeError)
  }

  /** A key step in the middle of the path: a list stops the write; a
      missing key is created as `{}`, whatever step follows. */
  function KeyV1(t: Json, keys: seq<string>, v: Json): (r: Py<Written1>)
    requires |keys| >= 2 && !IsDigits(keys[0])
    ensures t.JStr? ==> r.Raise?
    ensures r.Raise? ==> r.error != IndexError
    decreases |keys|, 0
  {
    var k := keys[0];
    if t.JArr? then Ok(Written1(t, true, true))
    else
      var present :- Contains(t, k);
      var t1 :- if present then Ok(t) else SetItem(t, k, EmptyObj);
      var child :- GetItem(t1, k);
      var sub :- WriteV1(child, keys[1..], v);
      Ok(Written1(JObj(Put(t1.fields, k, sub.tree)), sub.stopped, sub.logged))
  }

  /** The two passes over the last step. A list logs in the first pass, and
      the second pass still pads and assigns an index. A dict takes the key in
      the first pass. In the second pass a dict takes a key again; for an index
      it must have more entries than the index, or its missing `append` raises. */
  function FinalV1(t: Json, k: string, v: Json): Py<Written1> {
    if t.JArr? then
      if IsDigits(k) then Ok(Written1(JArr(Pad(t.items, DigitsValue(k) + 1, JNull)[DigitsValue(k) := v]), false, true))
      else Ok(Written1(t, false, true))
    else
      var a :- SetItem(t, k, v);
      if IsDigits(k) then
        if |a.fields| <= DigitsValue(k) then Raise(AttributeError) else Ok(Written1(a, false, false))
      else Ok(Written1(JObj(Put(a.fields, k, v)), false, false))
  }

  /** The write as the loop leaves it. */
  function Plugged1(frames: seq<Frame>, p: Py<Written1>): Py<Written1> {
    match p
    case Raise(e) => Raise(e)
    case Ok(w) => Ok(Written1(Plug(frames, w.tree), w.stopped, w.logged))
  }

  /** `p` is the write seen from one step up: what `sub` does below the
      frame `f`, put back into it. */
  predicate StepsTo(p: Py<Written1>, f: Frame, sub: Py<Written1>) {
    (sub.Raise? ==> p == sub)
    && (sub.Ok? ==> p == Ok(Written1(Fill(f, sub.value.tree), sub.value.stopped, sub.value.logged)))
  }

  lemma Descend1(frames: seq<Frame>, f: Frame, p: Py<Written1>, sub: Py<Written1>)
    requires StepsTo(p, f, sub)
    ensures Plugged1(frames, p) == Plugged1(frames + [f], sub)
  {
    if sub.Ok? {
      PlugPush(frames, f, sub.value.tree);
    }
  }

  lemma IndexStepV1(t: Json, keys: seq<string>, v: Json, items: seq<Json>)
    requires |keys| >= 2 && IsDigits(keys[0]) && t.JArr?
    requires items == Pad(t.items, DigitsValue(keys[0]) + 1, EmptyObj)
    ensures StepsTo(WriteV1(t, keys, v), InArr(items, DigitsValue(keys[0])), WriteV1(items[DigitsValue(keys[0])], keys[1..], v))
  {
    var n := DigitsValue(keys[0]);
    var sub := WriteV1(items[n], keys[1..], v);
    assert WriteV1(t, keys, v) == IndexV1(t, keys, v);
    if sub.Ok? {
      assert IndexV1(t, keys, v) == Ok(Written1(JArr(items[n := sub.value.tree]), sub.value.stopped, sub.value.logged));
    }
  }

  lemma StrStepV1(t: Json, keys: seq<string>, v: Json)
    requires |keys| >= 2 && IsDigits(keys[0]) && t.JStr? && DigitsValue(keys[0]) < |t.s|
    ensures StepsTo(WriteV1(t, keys, v), InStr(t.s), WriteV1(JStr([t.s[DigitsValue(keys[0])]]), keys[1..], v))
  {
    assert WriteV1(t, keys, v) == IndexV1(t, keys, v);
  }

  lemma KeyStepV1(t: Json, keys: seq<string>, v: Json, t1: Json)
    requires |keys| >= 2 && !IsDigits(keys[0]) && !t.JArr?
    requires Contains(t, keys[0]).Ok?
    requires (if Contains(t, keys[0]).value then Ok(t) else SetItem(t, keys[0], EmptyObj)) == Ok(t1)
    requires t1.JObj? && HasKey(t1.fields, keys[0])
    ensures StepsTo(WriteV1(t, keys, v), InObj(t1.fields, keys[0]), WriteV1(Lookup(t1.fields, keys[0]).value, keys[1..], v))
  {
    var sub := WriteV1(Lookup(t1.fields, keys[0]).value, keys[1..], v);
    assert WriteV1(t, keys, v) == KeyV1(t, keys, v);
    if sub.Ok? {
      assert KeyV1(t, keys, v) == Ok(Written1(JObj(Put(t1.fields, keys[0], sub.value.tree)), sub.value.stopped, sub.value.logged));
    }
  }

  /** The two passes over the last step; returns the container afterwards
      and whether an error was logged. */
  method FinalStepV1(temp: Json, lastKey: string, value: Json) returns (r: Py<(Json, bool)>)
    ensures match FinalV1(temp, lastKey, value)
            case Raise(e) => r == Raise(e)
            case Ok(w) => r == Ok((w.tree, w.logged))
  {
    var t := temp;
    var logged := false;
    if t.JArr? {
      logged := true;
    } else {
      t :- SetItem(t, lastKey, value);
    }
    if IsDigits(lastKey) {
      var index := DigitsValue(lastKey);
      if t.JArr? {
        var items := PadList(t.items, index + 1, JNull);
        t := JArr(items[index := value]);
      } else if |t.fields| <= index {
        return Raise(AttributeError);
      }
    } else if t.JArr? {
      logged := true;
    } else {
      t := JObj(Put(t.fields, lastKey, value));
    }
    return Ok((t, logged));
  }

  /** One step of the descent loop of the v1 writer: an exception, `None`
      when a key step meets a list and the write stops there, or the frame
      pushed and the value descended into. */
  method StepV1(frames: seq<Frame>, temp: Json, keys: seq<string>, value: Json)
    returns (r: Py<Option<(seq<Frame>, Json)>>)
    requires |keys| >= 2
    ensures r.Raise? ==> WriteV1(temp, keys, value) == Raise(r.error)
    ensures r == Ok(None) ==> WriteV1(temp, keys, value) == Ok(Written1(temp, true, true))
    ensures r.Ok? && r.value.Some? ==>
              Plugged1(frames, WriteV1(temp, keys, value))
              == Plugged1(r.value.value.0, WriteV1(r.value.value.1, keys[1..], value))
  {
    var key := keys[0];
    if IsDigits(key) {
      var n := DigitsValue(key);
      if temp.JArr? {
        var items := PadList(temp.items, n + 1, EmptyObj);
        IndexStepV1(temp, keys, value, items);
        Descend1(frames, InArr(items, n), WriteV1(temp, keys, value), WriteV1(items[n], keys[1..], value));
        return Ok(Some((frames + [InArr(items, n)], items[n])));
      } else if temp.JObj? {
        return if |temp.fields| <= n then Raise(AttributeError) else Raise(KeyError);
      } else if temp.JStr? {
        if |temp.s| <= n {
          return Raise(AttributeError);
        }
        StrStepV1(temp, keys, value);
        Descend1(frames, InStr(temp.s), WriteV1(temp, keys, value), WriteV1(JStr([temp.s[n]]), keys[1..], value));
        return Ok(Some((frames + [InStr(temp.s)], JStr([temp.s[n]]))));
      } else {
        return Raise(TypeError);
      }
    }
    if temp.JArr? {
      return Ok(None);
    }
    var t1 := temp;
    var present :- Contains(t1, key);
    if !present {
      t1 :- SetItem(t1, key, EmptyObj);
    }
    var child :- GetItem(t1, key);
    KeyStepV1(temp, keys, value, t1);
    Descend1(frames, InObj(t1.fields, key), WriteV1(temp, keys, value), WriteV1(child, keys[1..], value));
    return Ok(Some((frames + [InObj(t1.fields, key)], child)));
  }

  /** `set_nested_value(json_obj, nested_key, value)` of the v1 script;
      returns whether an error was logged. */
  method SetNestedValueV1(doc: Document, nestedKey: string, value: Json) returns (r: Py<bool>)
    modifies doc
    ensures match SetV1(old(doc.root), Split(nestedKey, '.'), value)
            case Raise(e) => r == Raise(e)
            case Ok(w) => r == Ok(w.logged) && doc.root == w.tree
  {
    var keys := Split(nestedKey, '.');
    if |keys| == 1 && doc.root.JArr? {
      // The error line names `keys[-2]`, which a one-part path lacks.
      return Raise(IndexError);
    }
    ghost var goal := WriteV1(doc.root, keys, value);
    var frames: seq<Frame> := [];
    var temp := doc.root;
    for i := 0 to |keys| - 1
      invariant goal == Plugged1(frames, WriteV1(temp, keys[i..], value))
    {
      assert keys[i..][1..] == keys[i + 1..];
      var step := StepV1(frames, temp, keys[i..], value);
      match step
      case Raise(e) =>
        return Raise(e);
      case Ok(None) =>
        doc.root := Plug(frames, temp);
        return Ok(true);
      case Ok(Some(next)) =>
        frames, temp := next.0, next.1;
    }
    var lastKey := keys[|keys| - 1];
    assert keys[|keys| - 1..] == [lastKey];
    var fin :- FinalStepV1(temp, lastKey, value);
    doc.root := Plug(frames, fin.0);
    return Ok(fin.1);
  }

  // ---------------------------------------------------------------------
  // What a v1 write does

  /** Round trip: the value can be read back when the write ran to the end
      and either the last step was a key and nothing was logged, or the last
      step was an index into a list, which is written even though the first
      pass logged an error. */
  lemma {:induction false} WriteV1ThenGet(t: Json, keys: seq<string>, v: Json)
    requires |keys| >= 1
    requires WriteV1(t, keys, v).Ok? && !WriteV1(t, keys, v).value.stopped
    requires IsDigits(keys[|keys| - 1]) <==> WriteV1(t, keys, v).value.logged
    ensures GetNestedValue(WriteV1(t, keys, v).value.tree, keys) == v
    decreases |keys|, 1
  {
    if |keys| == 1 {
      FinalV1ThenGet(t, keys[0], v);
      assert keys == [keys[0]];
    } else {
      assert keys[1..][|keys[1..]| - 1] == keys[|keys| - 1];
      if IsDigits(keys[0]) {
        IndexV1ThenGet(t, keys, v);
      } else {
        KeyV1ThenGet(t, keys, v);
      }
    }
  }

  lemma FinalV1ThenGet(t: Json, k: string, v: Json)
    requires FinalV1(t, k, v).Ok? && (IsDigits(k) <==> FinalV1(t, k, v).value.logged)
    ensures GetNestedValue(FinalV1(t, k, v).value.tree, [k]) == v
  {
    if t.JObj? {
      LookupPutSame(Put(t.fields, k, v), k, v);
    }
  }

  lemma {:induction false} IndexV1ThenGet(t: Json, keys: seq<string>, v: Json)
    requires |keys| >= 2 && IsDigits(keys[0])
    requires WriteV1(t, keys, v).Ok? && !WriteV1(t, keys, v).value.stopped
    requires IsDigits(keys[|keys| - 1]) <==> WriteV1(t, keys, v).value.logged
    ensures GetNestedValue(WriteV1(t, keys, v).value.tree, keys) == v
    decreases |keys|, 0
  {
    if t.JArr? {
      var n := DigitsValue(keys[0]);
      var a := Pad(t.items, n + 1, EmptyObj);
      var sub := WriteV1(a[n], keys[1..], v).value;
      assert WriteV1(t, keys, v).value == Written1(JArr(a[n := sub.tree]), sub.stopped, sub.logged);
      WriteV1ThenGet(a[n], keys[1..], v);
    }
  }

  lemma {:induction false} KeyV1ThenGet(t: Json, keys: seq<string>, v: Json)
    requires |keys| >= 2 && !IsDigits(keys[0])
    requires WriteV1(t, keys, v).Ok? && !WriteV1(t, keys, v).value.stopped
    requires IsDigits(keys[|keys| - 1]) <==> WriteV1(t, keys, v).value.logged
    ensures GetNestedValue(WriteV1(t, keys, v).value.tree, keys) == v
    decreases |keys|, 0
  {
    var k := keys[0];
    var t1 := if Contains(t, k).value then t else SetItem(t, k, EmptyObj).value;
    var child := GetItem(t1, k).value;
    var sub := WriteV1(child, keys[1..], v).value;
    assert WriteV1(t, keys, v).value == Written1(JObj(Put(t1.fields, k, sub.tree)), sub.stopped, sub.logged);
    WriteV1ThenGet(child, keys[1..], v);
    LookupPutSame(t1.fields, k, sub.tree);
  }

  /** A final key step on a dict assigns twice, which is one assignment. */
  lemma FinalKeyAssignedOnce(fs: seq<(string, Json)>, k: string, v: Json)
    requires !IsDigits(k)
    ensures WriteV1(JObj(fs), [k], v) == Ok(Written1(JObj(Put(fs, k, v)), false, false))
  {
    PutTwice(fs, k, v);
  }

  /** A final index step on a list reached through a key pads the list
      with None and assigns, and the first pass has logged an error all the
      same. */
  lemma FinalIndexOnList(fs: seq<(string, Json)>, key: string, items: seq<Json>, k: string, v: Json)
    requires !IsDigits(key) && IsDigits(k)
    requires Lookup(fs, key) == Some(JArr(items))
    ensures SetV1(JObj(fs), [key, k], v)
            == Ok(Written1(JObj(Put(fs, key, JArr(Pad(items, DigitsValue(k) + 1, JNull)[DigitsValue(k) := v]))), false, true))
  {
    var padded := JArr(Pad(items, DigitsValue(k) + 1, JNull)[DigitsValue(k) := v]);
    assert [key, k][1..] == [k];
    assert HasKey(fs, key);
    assert GetItem(JObj(fs), key) == Ok(JArr(items));
    assert WriteV1(JArr(items), [k], v) == Ok(Written1(padded, false, true));
    assert KeyV1(JObj(fs), [key, k], v) == Ok(Written1(JObj(Put(fs, key, padded)), false, true));
  }

  /** A one-part path on a list root raises IndexError, whatever the part:
      nothing is padded, assigned or logged. */
  lemma OnePartOnListRaises(items: seq<Json>, k: string, v: Json)
    ensures SetV1(JArr(items), [k], v) == Raise(IndexError)
    ensures WriteV1(JArr(items), [k], v).Ok?
  {
  }

  /** No lookahead: a missing key followed by an index step in the middle of
      the path is created as `{}`, and the index step then calls `append` on
      that dict and raises. */
  lemma MissingKeyThenIndexRaises(fs: seq<(string, Json)>, keys: seq<string>, v: Json)
    requires |keys| >= 3 && !IsDigits(keys[0]) && IsDigits(keys[1])
    requires !HasKey(fs, keys[0])
    ensures WriteV1(JObj(fs), keys, v) == Raise(AttributeError)
  {
    var t1 := JObj(Put(fs, keys[0], EmptyObj));
    LookupPutSame(fs, keys[0], EmptyObj);
    assert GetItem(t1, keys[0]) == Ok(EmptyObj);
    assert WriteV1(EmptyObj, keys[1..], v) == Raise(AttributeError);
  }

  /** With the index as the last step, the fresh `{}` first takes the index
      text as a key; the second pass then raises unless the index is 0. */
  lemma MissingKeyThenLastIndex(fs: seq<(string, Json)>, k: string, d: string, v: Json)
    requires !IsDigits(k) && IsDigits(d) && !HasKey(fs, k)
    ensures DigitsValue(d) >= 1 ==> WriteV1(JObj(fs), [k, d], v) == Raise(AttributeError)
    ensures DigitsValue(d) == 0 ==>
              WriteV1(JObj(fs), [k, d], v) == Ok(Written1(JObj(Put(fs, k, JObj([(d, v)]))), false, false))
  {
    var t1 := JObj(Put(fs, k, EmptyObj));
    LookupPutSame(fs, k, EmptyObj);
    assert GetItem(t1, k) == Ok(EmptyObj);
    var w := WriteV1(EmptyObj, [d], v);
    assert [k, d][1..] == [d];
    if DigitsValue(d) == 0 {
      assert Put([], d, v) == [(d, v)];
      assert Put([(d, v)], d, v) == [(d, v)];
      assert w == Ok(Written1(JObj([(d, v)]), false, false));
      PutOverwrite(fs, k, EmptyObj, JObj([(d, v)]));
    } else {
      assert w == Raise(AttributeError);
    }
  }

  /** A write that stopped at a list in the middle of the path overwrote
      nothing: the containers created before stay, everything else is as it
      was. */
  lemma {:induction false} StoppedOnlyGrows(t: Json, keys: seq<string>, v: Json)
    requires |keys| >= 1
    requires WriteV1(t, keys, v).Ok? && WriteV1(t, keys, v).value.stopped
    ensures Grows(t, WriteV1(t, keys, v).value.tree)
    decreases |keys|, 1
  {
    if WriteV1(t, keys, v).value.tree == t {
      GrowsRefl(t);
    } else if IsDigits(keys[0]) {
      IndexStoppedGrows(t, keys, v);
    } else {
      KeyStoppedGrows(t, keys, v);
    }
  }

  lemma {:induction false} IndexStoppedGrows(t: Json, keys: seq<string>, v: Json)
    requires |keys| >= 2 && IsDigits(keys[0]) && t.JArr?
    requires WriteV1(t, keys, v).Ok? && WriteV1(t, keys, v).value.stopped
    ensures Grows(t, WriteV1(t, keys, v).value.tree)
    decreases |keys|, 0
  {
    var n := DigitsValue(keys[0]);
    var a := Pad(t.items, n + 1, EmptyObj);
    var sub := WriteV1(a[n], keys[1..], v).value;
    var tree := JArr(a[n := sub.tree]);
    assert WriteV1(t, keys, v).value == Written1(tree, sub.stopped, sub.logged);
    StoppedOnlyGrows(a[n], keys[1..], v);
    forall i | 0 <= i < |t.items| ensures Grows(t.items[i], tree.items[i]) {
      if i != n { GrowsRefl(t.items[i]); }
    }
  }

  lemma {:induction false} KeyStoppedGrows(t: Json, keys: seq<string>, v: Json)
    requires |keys| >= 2 && !IsDigits(keys[0]) && !t.JArr?
    requires WriteV1(t, keys, v).Ok? && WriteV1(t, keys, v).value.stopped
    ensures Grows(t, WriteV1(t, keys, v).value.tree)
    decreases |keys|, 0
  {
    var k := keys[0];
    var t1 := if Contains(t, k).value then t else SetItem(t, k, EmptyObj).value;
    var child := GetItem(t1, k).value;
    var sub := WriteV1(child, keys[1..], v).value;
    var tree := JObj(Put(t1.fields, k, sub.tree));
    assert WriteV1(t, keys, v).value == Written1(tree, sub.stopped, sub.logged);
    StoppedOnlyGrows(child, keys[1..], v);
    var j := IndexOf(t1.fields, k);
    assert t1.fields[..|t.fields|] == t.fields;
    if j >= |t.fields| {
      GrowsHollow(child, sub.tree);
    }
    SlotGrows(t, t1.fields, j, k, sub.tree);
  }

  /** A dict whose entries are kept in order, with more after them, and
      whose slot `j` only grew, has grown. */
  lemma SlotGrows(t: Json, fs: seq<(string, Json)>, j: int, k: string, x: Json)
    requires t.JObj? && |t.fields| <= |fs| && fs[..|t.fields|] == t.fields
    requires 0 <= j < |fs| && fs[j].0 == k
    requires j < |t.fields| ==> Grows(t.fields[j].1, x)
    requires j >= |t.fields| ==> Hollow(x)
    requires forall i :: |t.fields| <= i < |fs| && i != j ==> Hollow(fs[i].1)
    ensures Grows(t, JObj(fs[j := (k, x)]))
  {
    var tree := JObj(fs[j := (k, x)]);
    forall i | 0 <= i < |t.fields|
      ensures tree.fields[i].0 == t.fields[i].0 && Grows(t.fields[i].1, tree.fields[i].1)
    {
      assert fs[i] == t.fields[..|t.fields|][i];
      if i != j {
        GrowsRefl(t.fields[i].1);
      }
    }
  }

  /** Entries off the written path are untouched by a write that returns. */
  lemma {:induction false} WriteV1KeepsOffPath(t: Json, keys: seq<string>, v: Json, q: seq<string>)
    requires |keys| >= 1
    requires WriteV1(t, keys, v).Ok?
    requires Diverges(keys, q)
    requires GetNestedValue(t, q) != JNull
    ensures GetNestedValue(WriteV1(t, keys, v).value.tree, q) == GetNestedValue(t, q)
    decreases |keys|, 1
  {
    if |keys| == 1 {
      FinalV1KeepsOffPath(t, keys[0], v, q);
    } else if IsDigits(keys[0]) {
      IndexV1KeepsOffPath(t, keys, v, q);
    } else {
      KeyV1KeepsOffPath(t, keys, v, q);
    }
  }

  lemma FinalV1KeepsOffPath(t: Json, k: string, v: Json, q: seq<string>)
    requires FinalV1(t, k, v).Ok?
    requires |q| > 0 && !SameStep(k, q[0])
    requires GetNestedValue(t, q) != JNull
    ensures GetNestedValue(FinalV1(t, k, v).value.tree, q) == GetNestedValue(t, q)
  {
    var w := FinalV1(t, k, v).value;
    if w.tree != t {
      if t.JObj? {
        LookupPutOther(t.fields, k, v, q[0]);
        LookupPutOther(Put(t.fields, k, v), k, v, q[0]);
      } else {
        assert w.tree.items[DigitsValue(q[0])] == t.items[DigitsValue(q[0])];
      }
    }
  }

  lemma {:induction false} IndexV1KeepsOffPath(t: Json, keys: seq<string>, v: Json, q: seq<string>)
    requires |keys| >= 2 && IsDigits(keys[0])
    requires WriteV1(t, keys, v).Ok?
    requires Diverges(keys, q)
    requires GetNestedValue(t, q) != JNull
    ensures GetNestedValue(WriteV1(t, keys, v).value.tree, q) == GetNestedValue(t, q)
    decreases |keys|, 0
  {
    if t.JArr? {
      var k := keys[0];
      var n := DigitsValue(k);
      var a := Pad(t.items, n + 1, EmptyObj);
      var sub := WriteV1(a[n], keys[1..], v).value;
      var tree := JArr(a[n := sub.tree]);
      assert WriteV1(t, keys, v).value.tree == tree;
      if SameStep(k, q[0]) {
        assert a == t.items;
        WriteV1KeepsOffPath(a[n], keys[1..], v, q[1..]);
      } else {
        assert tree.items[DigitsValue(q[0])] == t.items[DigitsValue(q[0])];
      }
    }
  }

  lemma {:induction false} KeyV1KeepsOffPath(t: Json, keys: seq<string>, v: Json, q: seq<string>)
    requires |keys| >= 2 && !IsDigits(keys[0])
    requires WriteV1(t, keys, v).Ok?
    requires Diverges(keys, q)
    requires GetNestedValue(t, q) != JNull
    ensures GetNestedValue(WriteV1(t, keys, v).value.tree, q) == GetNestedValue(t, q)
    decreases |keys|, 0
  {
    if !t.JArr? {
      var k := keys[0];
      var t1 := if Contains(t, k).value then t else SetItem(t, k, EmptyObj).value;
      var child := GetItem(t1, k).value;
      var sub := WriteV1(child, keys[1..], v).value;
      assert WriteV1(t, keys, v).value.tree == JObj(Put(t1.fields, k, sub.tree));
      if SameStep(k, q[0]) {
        WriteV1KeepsOffPath(child, keys[1..], v, q[1..]);
        LookupPutSame(t1.fields, k, sub.tree);
      } else {
        LookupPutOther(t.fields, k, EmptyObj, q[0]);
        LookupPutOther(t1.fields, k, sub.tree, q[0]);
      }
    }
  }
}
