/** The dotted-path writer of the transform service
    (`TransformService._set_nested_value`). Unlike the generator scripts'
    writers it never reports a mismatch: a missing or non-container key is
    replaced using a lookahead, an index step on a non-list stores a made
    list under the previous step's key (the path's last key on the first
    step) of the current dict, and a final index on a non-list loses the
    value. */
module ServicePath {
  import opened Text
  import opened Json
  import opened PathV2

  predicate IsContainer(j: Json) {
    j.JObj? || j.JArr?
  }

  /** What a key step on a dict descends into: the container found there,
      or a made one chosen by the next step. */
  function SvcChild(fs: seq<(string, Json)>, k: string, next: string): (c: Json)
    ensures IsContainer(c)
    ensures HasKey(fs, k) && IsContainer(Lookup(fs, k).value) ==> c == Lookup(fs, k).value
    ensures !(HasKey(fs, k) && IsContainer(Lookup(fs, k).value)) ==> c == FreshFor(next)
  {
    if HasKey(fs, k) && IsContainer(Lookup(fs, k).value) then Lookup(fs, k).value else FreshFor(next)
  }

  /** `_set_nested_value(t, ".".join(keys), v)` from the current step on;
      `prev` is `keys[i-1]` of the whole path, which on the first step is
      its last key. A key step on anything but a dict raises `TypeError`
      (`in` or item assignment on a list, a str or None), as does an index
      step on something that is neither a list nor a dict. */
  function WriteSvc(t: Json, keys: seq<string>, prev: string, v: Json): Py<Json>
    requires |keys| >= 1
    decreases |keys|
  {
    var k := keys[0];
    if |keys| == 1 then
      if IsDigits(k) then
        Ok(if t.JArr? then JArr(Pad(t.items, DigitsValue(k) + 1, JNull)[DigitsValue(k) := v]) else t)
      else if t.JObj? then Ok(JObj(Put(t.fields, k, v)))
      else Raise(TypeError)
    else if IsDigits(k) then
      var n := DigitsValue(k);
      if t.JArr? then
        var a := Pad(t.items, n + 1, EmptyObj);
        var sub :- WriteSvc(a[n], keys[1..], k, v);
        Ok(JArr(a[n := sub]))
      else if t.JObj? then
        var made := Pad([], n + 1, EmptyObj);
        var sub :- WriteSvc(made[n], keys[1..], k, v);
        Ok(JObj(Put(t.fields, prev, JArr(made[n := sub]))))
      else Raise(TypeError)
    else if t.JObj? then
      var sub :- WriteSvc(SvcChild(t.fields, k, keys[1]), keys[1..], k, v);
      Ok(JObj(Put(t.fields, k, sub)))
    else Raise(TypeError)
  }

  /** The write as the loop leaves it. */
  function PluggedSvc(frames: seq<Frame>, p: Py<Json>): Py<Json> {
    match p
    case Raise(e) => Raise(e)
    case Ok(t) => Ok(Plug(frames, t))
  }

  /** `p` is what `sub` does below the frame `f`, put back into it. */
  function Lift(f: Frame, sub: Py<Json>): Py<Json> {
    match sub
    case Raise(e) => Raise(e)
    case Ok(t) => Ok(Fill(f, t))
  }

  lemma DescendSvc(frames: seq<Frame>, f: Frame, sub: Py<Json>)
    ensures PluggedSvc(frames, Lift(f, sub)) == PluggedSvc(frames + [f], sub)
  {
    if sub.Ok? {
      PlugPush(frames, f, sub.value);
    }
  }

  lemma IndexStepSvc(t: Json, keys: seq<string>, prev: string, v: Json, items: seq<Json>)
    requires |keys| >= 2 && IsDigits(keys[0]) && t.JArr?
    requires items == Pad(t.items, DigitsValue(keys[0]) + 1, EmptyObj)
    ensures WriteSvc(t, keys, prev, v)
            == Lift(InArr(items, DigitsValue(keys[0])), WriteSvc(items[DigitsValue(keys[0])], keys[1..], keys[0], v))
  {
    var n := DigitsValue(keys[0]);
    var sub := WriteSvc(items[n], keys[1..], keys[0], v);
    if sub.Ok? {
      assert WriteSvc(t, keys, prev, v) == Ok(JArr(items[n := sub.value]));
    } else {
      assert WriteSvc(t, keys, prev, v) == Raise(sub.error);
    }
  }

  lemma CoerceStepSvc(t: Json, keys: seq<string>, prev: string, v: Json, made: seq<Json>)
    requires |keys| >= 2 && IsDigits(keys[0]) && t.JObj?
    requires made == Pad([], DigitsValue(keys[0]) + 1, EmptyObj)
    ensures WriteSvc(t, keys, prev, v)
            == Lift(InObj(t.fields, prev), Lift(InArr(made, DigitsValue(keys[0])), WriteSvc(made[DigitsValue(keys[0])], keys[1..], keys[0], v)))
  {
    var n := DigitsValue(keys[0]);
    var sub := WriteSvc(made[n], keys[1..], keys[0], v);
    if sub.Ok? {
      assert WriteSvc(t, keys, prev, v) == Ok(JObj(Put(t.fields, prev, JArr(made[n := sub.value]))));
    }
  }

  lemma KeyStepSvc(t: Json, keys: seq<string>, prev: string, v: Json)
    requires |keys| >= 2 && !IsDigits(keys[0]) && t.JObj?
    ensures WriteSvc(t, keys, prev, v)
            == Lift(InObj(t.fields, keys[0]), WriteSvc(SvcChild(t.fields, keys[0], keys[1]), keys[1..], keys[0], v))
  {
  }

  /** One step of the descent loop: the frame (two, for a list made under
      the previous key) pushed and the value descended into. */
  method StepSvc(frames: seq<Frame>, temp: Json, keys: seq<string>, prev: string, value: Json)
    returns (r: Py<(seq<Frame>, Json)>)
    requires |keys| >= 2
    ensures r.Raise? ==> WriteSvc(temp, keys, prev, value) == Raise(r.error)
    ensures r.Ok? ==> PluggedSvc(frames, WriteSvc(temp, keys, prev, value))
                      == PluggedSvc(r.value.0, WriteSvc(r.value.1, keys[1..], keys[0], value))
  {
    var key := keys[0];
    if IsDigits(key) {
      var idx := DigitsValue(key);
      if temp.JArr? {
        var items := PadList(temp.items, idx + 1, EmptyObj);
        IndexStepSvc(temp, keys, prev, value, items);
        DescendSvc(frames, InArr(items, idx), WriteSvc(items[idx], keys[1..], key, value));
        return Ok((frames + [InArr(items, idx)], items[idx]));
      } else if temp.JObj? {
        var made := PadList([], idx + 1, EmptyObj);
        var inner := WriteSvc(made[idx], keys[1..], key, value);
        CoerceStepSvc(temp, keys, prev, value, made);
        DescendSvc(frames, InObj(temp.fields, prev), Lift(InArr(made, idx), inner));
        DescendSvc(frames + [InObj(temp.fields, prev)], InArr(made, idx), inner);
        return Ok((frames + [InObj(temp.fields, prev)] + [InArr(made, idx)], made[idx]));
      } else {
        return Raise(TypeError);
      }
    } else if temp.JObj? {
      var child := SvcChild(temp.fields, key, keys[1]);
      KeyStepSvc(temp, keys, prev, value);
      DescendSvc(frames, InObj(temp.fields, key), WriteSvc(child, keys[1..], key, value));
      return Ok((frames + [InObj(temp.fields, key)], child));
    } else {
      return Raise(TypeError);
    }
  }

  /** The assignment after the loop. */
  method FinalSvc(temp: Json, lastKey: string, prev: string, value: Json) returns (r: Py<Json>)
    ensures r == WriteSvc(temp, [lastKey], prev, value)
  {
    if IsDigits(lastKey) {
      if temp.JArr? {
        var idx := DigitsValue(lastKey);
        var items := PadList(temp.items, idx + 1, JNull);
        return Ok(JArr(items[idx := value]));
      }
      return Ok(temp);
    } else if temp.JObj? {
      return Ok(JObj(Put(temp.fields, lastKey, value)));
    }
    return Raise(TypeError);
  }

  /** `_set_nested_value(json_obj, nested_key, value)`. */
  method SetNestedValueSvc(doc: Document, nestedKey: string, value: Json) returns (r: Py<()>)
    modifies doc
    ensures var keys := Split(nestedKey, '.');
            match WriteSvc(old(doc.root), keys, keys[|keys| - 1], value)
            case Raise(e) => r == Raise(e) && doc.root == old(doc.root)
            case Ok(t) => r == Ok(()) && doc.root == t
  {
    var keys := Split(nestedKey, '.');
    ghost var goal := WriteSvc(doc.root, keys, keys[|keys| - 1], value);
    var frames: seq<Frame> := [];
    var temp := doc.root;
    var prev := keys[|keys| - 1];
    for i := 0 to |keys| - 1
      invariant doc.root == old(doc.root)
      invariant prev == if i == 0 then keys[|keys| - 1] else keys[i - 1]
      invariant goal == PluggedSvc(frames, WriteSvc(temp, keys[i..], prev, value))
    {
      assert keys[i..][0] == keys[i] && keys[i..][1..] == keys[i + 1..];
      var step := StepSvc(frames, temp, keys[i..], prev, value);
      if step.Raise? {
        assert goal == Raise(step.error);
        return Raise(step.error);
      }
      frames, temp := step.value.0, step.value.1;
      prev := keys[i];
    }
    assert keys[|keys| - 1..] == [keys[|keys| - 1]];
    var last := FinalSvc(temp, keys[|keys| - 1], prev, value);
    if last.Raise? {
      return Raise(last.error);
    }
    doc.root := Plug(frames, last.value);
    return Ok(());
  }

  // ---------------------------------------------------------------------
  // What a service write does

  /** Every index step of the path meets a list and every key step a dict,
      counting the containers the write itself creates. */
  predicate Straight(t: Json, keys: seq<string>)
    requires |keys| >= 1
    decreases |keys|
  {
    var k := keys[0];
    if |keys| == 1 then (if IsDigits(k) then t.JArr? else t.JObj?)
    else if IsDigits(k) then
      t.JArr? && Straight(Pad(t.items, DigitsValue(k) + 1, EmptyObj)[DigitsValue(k)], keys[1..])
    else t.JObj? && Straight(SvcChild(t.fields, k, keys[1]), keys[1..])
  }

  /** Round trip: along a straight path the write succeeds and the value
      can be read back. */
  lemma {:induction false} WriteSvcThenGet(t: Json, keys: seq<string>, prev: string, v: Json)
    requires |keys| >= 1 && Straight(t, keys)
    ensures WriteSvc(t, keys, prev, v).Ok?
    ensures GetNestedValue(WriteSvc(t, keys, prev, v).value, keys) == v
    decreases |keys|
  {
    var k := keys[0];
    if |keys| == 1 {
      if !IsDigits(k) {
        LookupPutSame(t.fields, k, v);
      }
    } else if IsDigits(k) {
      var n := DigitsValue(k);
      WriteSvcThenGet(Pad(t.items, n + 1, EmptyObj)[n], keys[1..], k, v);
    } else {
      var child := SvcChild(t.fields, k, keys[1]);
      WriteSvcThenGet(child, keys[1..], k, v);
      LookupPutSame(t.fields, k, WriteSvc(child, keys[1..], k, v).value);
    }
  }

  /** Below a container the write creates, the path is straight exactly
      when no two index steps follow each other: padding fills a list with
      dicts, and a dict cannot take the next index. */
  lemma {:induction false} FreshStraight(keys: seq<string>)
    requires |keys| >= 1
    ensures Straight(FreshFor(keys[0]), keys) <==> !AdjacentIndices(keys)
    decreases |keys|
  {
    if |keys| > 1 {
      var rest := keys[1..];
      assert AdjacentIndices(keys) <==> (IsDigits(keys[0]) && IsDigits(keys[1])) || AdjacentIndices(rest) by {
        if AdjacentIndices(keys) && !(IsDigits(keys[0]) && IsDigits(keys[1])) {
          var i :| 0 <= i < |keys| - 1 && IsDigits(keys[i]) && IsDigits(keys[i + 1]);
          assert rest[i - 1] == keys[i];
        }
        if AdjacentIndices(rest) {
          var i :| 0 <= i < |rest| - 1 && IsDigits(rest[i]) && IsDigits(rest[i + 1]);
          assert keys[i + 1] == rest[i];
        }
      }
      if IsDigits(keys[0]) {
        var n := DigitsValue(keys[0]);
        assert Pad([], n + 1, EmptyObj)[n] == EmptyObj;
        if !IsDigits(keys[1]) {
          FreshStraight(rest);
        }
      } else {
        FreshStraight(rest);
      }
    }
  }

  /** Into an empty dict, a path that starts with a key and has no two
      adjacent index steps is written so that it reads back. */
  lemma EmptyDictReadsBack(keys: seq<string>, prev: string, v: Json)
    requires |keys| >= 1 && !IsDigits(keys[0]) && !AdjacentIndices(keys)
    ensures WriteSvc(EmptyObj, keys, prev, v).Ok?
    ensures GetNestedValue(WriteSvc(EmptyObj, keys, prev, v).value, keys) == v
  {
    FreshStraight(keys);
    WriteSvcThenGet(EmptyObj, keys, prev, v);
  }

  /** A final index on something other than a list builds a detached list:
      nothing changes and the value is lost. */
  lemma FinalIndexLost(t: Json, d: string, prev: string, v: Json)
    requires IsDigits(d) && !t.JArr?
    ensures WriteSvc(t, [d], prev, v) == Ok(t)
  {
  }

  /** So an index into an existing dict at the end of the path changes
      nothing at all. */
  lemma IndexIntoDictLost(fs: seq<(string, Json)>, k: string, d: string, v: Json)
    requires !IsDigits(k) && IsDigits(d)
    requires HasKey(fs, k) && Lookup(fs, k).value.JObj?
    ensures WriteSvc(JObj(fs), [k, d], d, v) == Ok(JObj(fs))
  {
    assert [k, d][1..] == [d];
    var i := IndexOf(fs, k);
    assert fs[i := (k, fs[i].1)] == fs;
  }

  /** A scalar where a container is needed is replaced, by a list when the
      next step is an index and by a dict otherwise. */
  lemma ScalarReplaced(fs: seq<(string, Json)>, k: string, next: string, prev: string, v: Json)
    requires !IsDigits(k) && HasKey(fs, k) && !IsContainer(Lookup(fs, k).value)
    ensures !IsDigits(next) ==> WriteSvc(JObj(fs), [k, next], prev, v) == Ok(JObj(Put(fs, k, JObj([(next, v)]))))
    ensures IsDigits(next) ==>
              WriteSvc(JObj(fs), [k, next], prev, v)
              == Ok(JObj(Put(fs, k, JArr(Pad([], DigitsValue(next) + 1, JNull)[DigitsValue(next) := v]))))
  {
    assert [k, next][1..] == [next];
    assert Put([], next, v) == [(next, v)];
  }

  /** An index step on a dict stores the made list under the previous
      step's key of that same dict: `{"a": {"a": "5"}}` written at `a.0.b`
      loses the inner `"5"`. */
  lemma PreviousKeyOverwritten(v: Json)
    ensures WriteSvc(JObj([("a", JObj([("a", JStr("5"))]))]), ["a", "0", "b"], "b", v)
            == Ok(JObj([("a", JObj([("a", JArr([JObj([("b", v)])]))]))]))
  {
    var keys := ["a", "0", "b"];
    var inner := [("a", JStr("5"))];
    assert !IsDigits("a") by { assert !IsDigit("a"[0]); }
    assert !IsDigits("b") by { assert !IsDigit("b"[0]); }
    assert IsDigits("0") && DigitsValue("0") == 0;
    assert keys[1..] == ["0", "b"] && ["0", "b"][1..] == ["b"];
    assert Pad([], 1, EmptyObj) == [EmptyObj];
    assert Put([], "b", v) == [("b", v)];
    assert WriteSvc(EmptyObj, ["b"], "0", v) == Ok(JObj([("b", v)]));
    assert [EmptyObj][0 := JObj([("b", v)])] == [JObj([("b", v)])];
    var list := JArr([JObj([("b", v)])]);
    assert Put(inner, "a", list) == [("a", list)];
    assert WriteSvc(JObj(inner), ["0", "b"], "a", v) == Ok(JObj([("a", list)]));
    assert HasKey([("a", JObj(inner))], "a") && Lookup([("a", JObj(inner))], "a") == Some(JObj(inner));
    assert Put([("a", JObj(inner))], "a", JObj([("a", list)])) == [("a", JObj([("a", list)]))];
  }

  /** On the first step the previous key is the path's last key: an index
      first into a dict stores the list under that last key. */
  lemma FirstIndexUsesLastKey(v: Json)
    ensures WriteSvc(EmptyObj, ["0", "x"], "x", v) == Ok(JObj([("x", JArr([JObj([("x", v)])]))]))
  {
    assert !IsDigits("x") by { assert !IsDigit("x"[0]); }
    assert IsDigits("0") && DigitsValue("0") == 0;
    assert ["0", "x"][1..] == ["x"];
    assert Pad([], 1, EmptyObj) == [EmptyObj];
    assert Put([], "x", v) == [("x", v)];
    assert WriteSvc(EmptyObj, ["x"], "0", v) == Ok(JObj([("x", v)]));
    assert [EmptyObj][0 := JObj([("x", v)])] == [JObj([("x", v)])];
    assert Put([], "x", JArr([JObj([("x", v)])])) == [("x", JArr([JObj([("x", v)])]))];
  }
}
