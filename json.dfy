/** JSON-like values as the Python scripts hold them in memory (the result of
    `json.load`, the output document under construction, `xmltodict` output),
    together with the Python operations the scripts apply to them: `in`,
    `[]`, `.get`, `[] =`, `.append`, truthiness and `str()`. A Python
    exception that escapes is a `Raise`. */
module Json {
  import opened Text

  /** A dict keeps its keys in insertion order, as Python's does. */
  datatype Json =
    | JNull
    | JBool(b: bool)
    | JStr(s: string)
    | JArr(items: seq<Json>)
    | JObj(fields: seq<(string, Json)>)

  const EmptyObj: Json := JObj([])

  datatype Option<+T> = None | Some(value: T)

  /** The Python exceptions the scripts can raise. */
  datatype Exc = ValueError | TypeError | AttributeError | KeyError | IndexError

  /** The outcome of a Python call: a value, or an exception that escapes. */
  datatype Py<+T> = Ok(value: T) | Raise(error: Exc) {
    predicate IsFailure() {
      Raise?
    }

    function PropagateFailure<U>(): Py<U>
      requires Raise?
    {
      Raise(error)
    }

    function Extract(): T
      requires Ok?
    {
      value
    }
  }

  // ---------------------------------------------------------------------
  // Dicts as insertion-ordered association lists

  /** The position of key `k` in `fs`, or -1. */
  function IndexOf(fs: seq<(string, Json)>, k: string): (i: int)
    ensures -1 <= i < |fs|
    ensures 0 <= i ==> fs[i].0 == k
    ensures forall j :: 0 <= j < |fs| && (i < 0 || j < i) ==> fs[j].0 != k
  {
    if fs == [] then -1
    else if fs[0].0 == k then 0
    else
      var i := IndexOf(fs[1..], k);
      if i < 0 then -1 else i + 1
  }

  predicate HasKey(fs: seq<(string, Json)>, k: string) {
    IndexOf(fs, k) >= 0
  }

  /** `d[k]` for a key that may be absent. */
  function Lookup(fs: seq<(string, Json)>, k: string): Option<Json> {
    var i := IndexOf(fs, k);
    if i >= 0 then Some(fs[i].1) else None
  }

  /** `d[k] = v`: an existing key keeps its position, a new one goes last. */
  function Put(fs: seq<(string, Json)>, k: string, v: Json): (r: seq<(string, Json)>)
    ensures HasKey(fs, k) ==> |r| == |fs| && r == fs[IndexOf(fs, k) := (k, v)]
    ensures !HasKey(fs, k) ==> r == fs + [(k, v)]
  {
    var i := IndexOf(fs, k);
    if i >= 0 then fs[i := (k, v)] else fs + [(k, v)]
  }

  /** After `d[k] = v`, `d[k]` is `v`. */
  lemma LookupPutSame(fs: seq<(string, Json)>, k: string, v: Json)
    ensures Lookup(Put(fs, k, v), k) == Some(v)
  {
    var r := Put(fs, k, v);
    var i := IndexOf(fs, k);
    if i >= 0 {
      assert forall j :: 0 <= j < i ==> r[j].0 != k;
      assert IndexOf(r, k) == i by { IndexOfFirst(r, k, i); }
    } else {
      assert IndexOf(r, k) == |fs| by { IndexOfFirst(r, k, |fs|); }
    }
  }

  /** After `d[k] = v`, every other key maps to what it mapped to before. */
  lemma LookupPutOther(fs: seq<(string, Json)>, k: string, v: Json, k': string)
    requires k' != k
    ensures Lookup(Put(fs, k, v), k') == Lookup(fs, k')
  {
    var r := Put(fs, k, v);
    var i := IndexOf(fs, k');
    if i >= 0 {
      IndexOfFirst(r, k', i);
    } else {
      assert forall j :: 0 <= j < |r| ==> r[j].0 != k';
    }
  }

  /** `d.get(k)` on a dict: None when the key is absent. */
  function GetOrNone(fs: seq<(string, Json)>, k: string): (r: Json)
    ensures HasKey(fs, k) ==> Lookup(fs, k) == Some(r)
    ensures !HasKey(fs, k) ==> r == JNull
  {
    match Lookup(fs, k)
    case Some(v) => v
    case None => JNull
  }

  /** A second assignment to a key replaces the first one in place. */
  lemma PutOverwrite(fs: seq<(string, Json)>, k: string, a: Json, b: Json)
    ensures Put(Put(fs, k, a), k, b) == Put(fs, k, b)
  {
    var r := Put(fs, k, a);
    LookupPutSame(fs, k, a);
    var i := IndexOf(r, k);
    assert i == if HasKey(fs, k) then IndexOf(fs, k) else |fs| by {
      IndexOfFirst(r, k, if HasKey(fs, k) then IndexOf(fs, k) else |fs|);
    }
  }

  /** Assigning the same value twice has the effect of assigning it once. */
  lemma PutTwice(fs: seq<(string, Json)>, k: string, v: Json)
    ensures Put(Put(fs, k, v), k, v) == Put(fs, k, v)
  {
    var r := Put(fs, k, v);
    LookupPutSame(fs, k, v);
    var i := IndexOf(r, k);
    assert r[i] == (k, v);
  }

  /** `IndexOf` finds the first position holding the key. */
  lemma IndexOfFirst(fs: seq<(string, Json)>, k: string, i: int)
    requires 0 <= i < |fs| && fs[i].0 == k
    requires forall j :: 0 <= j < i ==> fs[j].0 != k
    ensures IndexOf(fs, k) == i
  {
  }

  // ---------------------------------------------------------------------
  // Python operators on values of any kind

  /** `bool(j)`: None, False, "", [] and {} are false. */
  predicate Truthy(j: Json) {
    match j
    case JNull => false
    case JBool(b) => b
    case JStr(s) => s != ""
    case JArr(a) => a != []
    case JObj(f) => f != []
  }

  /** `k in c` for a string `k`: a key test on a dict, an element test on a
      list, a substring test on a str; anything else raises TypeError. */
  function Contains(c: Json, k: string): (r: Py<bool>)
    ensures c.JObj? ==> r == Ok(HasKey(c.fields, k))
    ensures (c.JNull? || c.JBool?) <==> r.Raise?
  {
    match c
    case JObj(fs) => Ok(HasKey(fs, k))
    case JArr(a) => Ok(JStr(k) in a)
    case JStr(s) => Ok(IsSubstring(k, s))
    case _ => Raise(TypeError)
  }

  /** `c[k]` for a string `k`: only a dict holding `k` answers. */
  function GetItem(c: Json, k: string): (r: Py<Json>)
    ensures r.Ok? <==> c.JObj? && HasKey(c.fields, k)
    ensures r.Ok? ==> Some(r.value) == Lookup(c.fields, k)
  {
    match c
    case JObj(fs) => if HasKey(fs, k) then Ok(Lookup(fs, k).value) else Raise(KeyError)
    case _ => Raise(TypeError)
  }

  /** `c.get(k, d)`: only a dict has `.get`. */
  function DictGet(c: Json, k: string, d: Json): (r: Py<Json>)
    ensures r.Ok? <==> c.JObj?
    ensures c.JObj? ==> r.value == match Lookup(c.fields, k) case Some(v) => v case None => d
  {
    match c
    case JObj(fs) => Ok(match Lookup(fs, k) case Some(v) => v case None => d)
    case _ => Raise(AttributeError)
  }

  /** `c[k] = v` for a string `k`: only a dict accepts it. */
  function SetItem(c: Json, k: string, v: Json): (r: Py<Json>)
    ensures r.Ok? <==> c.JObj?
    ensures r.Ok? ==> r.value == JObj(Put(c.fields, k, v))
  {
    match c
    case JObj(fs) => Ok(JObj(Put(fs, k, v)))
    case _ => Raise(TypeError)
  }

  /** `c.append(v)`: only a list has `.append`. */
  function Append(c: Json, v: Json): (r: Py<Json>)
    ensures r.Ok? <==> c.JArr?
    ensures r.Ok? ==> r.value == JArr(c.items + [v])
  {
    match c
    case JArr(a) => Ok(JArr(a + [v]))
    case _ => Raise(AttributeError)
  }

  /** The text of a value used as a dict key: a str is itself; None, True and
      False become the key text `json.dump` writes for them; a list or dict is
      unhashable and raises TypeError. */
  function KeyOf(j: Json): (r: Py<string>)
    ensures j.JStr? ==> r == Ok(j.s)
    ensures r.Raise? <==> j.JArr? || j.JObj?
  {
    match j
    case JStr(s) => Ok(s)
    case JNull => Ok("null")
    case JBool(b) => Ok(if b then "true" else "false")
    case _ => Raise(TypeError)
  }

  // ---------------------------------------------------------------------
  // `str()` of a value

  /** `repr()` of a value, with strings in single quotes. */
  function Repr(j: Json): string
    decreases j, 1
  {
    match j
    case JNull => "None"
    case JBool(b) => if b then "True" else "False"
    case JStr(s) => "'" + s + "'"
    case JArr(a) => "[" + ReprItems(j, 0) + "]"
    case JObj(fs) => "{" + ReprFields(j, 0) + "}"
  }

  function ReprItems(j: Json, i: nat): string
    requires j.JArr? && i <= |j.items|
    decreases j, 0, |j.items| - i
  {
    if i == |j.items| then ""
    else (if i > 0 then ", " else "") + Repr(j.items[i]) + ReprItems(j, i + 1)
  }

  function ReprFields(j: Json, i: nat): string
    requires j.JObj? && i <= |j.fields|
    decreases j, 0, |j.fields| - i
  {
    if i == |j.fields| then ""
    else (if i > 0 then ", " else "") + "'" + j.fields[i].0 + "': " + Repr(j.fields[i].1)
         + ReprFields(j, i + 1)
  }

  /** `str(j)`: a str is itself, anything else is its `repr()`. */
  function PyStr(j: Json): (r: string)
    ensures j.JStr? ==> r == j.s
    ensures j.JNull? ==> r == "None"
  {
    if j.JStr? then j.s else Repr(j)
  }

  // ---------------------------------------------------------------------
  // Growing lists, and the output document

  /** A list after `while len(a) < n: a.append(fill)`. */
  function Pad(a: seq<Json>, n: nat, fill: Json): (r: seq<Json>)
    ensures |r| == if |a| >= n then |a| else n
    ensures r[..|a|] == a
    ensures forall i :: |a| <= i < |r| ==> r[i] == fill
  {
    if |a| >= n then a else a + seq(n - |a|, _ => fill)
  }

  /** The padding loop the writers run before indexing a list. */
  method PadList(a: seq<Json>, n: nat, fill: Json) returns (r: seq<Json>)
    ensures r == Pad(a, n, fill)
  {
    r := a;
    while |r| < n
      invariant |a| <= |r|
      invariant |r| <= n || r == a
      invariant r[..|a|] == a
      invariant forall i :: |a| <= i < |r| ==> r[i] == fill
    {
      r := r + [fill];
    }
  }

  /** A mutable JSON document: the dict the scripts pass around and change in place. */
  class Document {
    var root: Json

    constructor (root: Json)
      ensures this.root == root
    {
      this.root := root;
    }
  }

  // ---------------------------------------------------------------------
  // Walking into a value and writing back: the path the writers descend

  /** One step of a descent: the container left behind and where the walk went. */
  datatype Frame =
    | InArr(items: seq<Json>, idx: nat)
    | InObj(fields: seq<(string, Json)>, key: string)
    | InStr(s: string)

  /** Put `hole` back into the container a frame remembers; a string is
      immutable and stays as it was. */
  function Fill(f: Frame, hole: Json): Json {
    match f
    case InArr(items, idx) => JArr(if idx < |items| then items[idx := hole] else items)
    case InObj(fields, key) => JObj(Put(fields, key, hole))
    case InStr(s) => JStr(s)
  }

  /** Rebuild the whole document from the frames of a descent (outermost
      first) and the value now at the bottom of it. */
  function Plug(frames: seq<Frame>, hole: Json): Json
    decreases |frames|
  {
    if frames == [] then hole
    else Plug(frames[..|frames| - 1], Fill(frames[|frames| - 1], hole))
  }

  lemma PlugPush(frames: seq<Frame>, f: Frame, hole: Json)
    ensures Plug(frames + [f], hole) == Plug(frames, Fill(f, hole))
  {
    assert (frames + [f])[..|frames|] == frames;
  }
}
