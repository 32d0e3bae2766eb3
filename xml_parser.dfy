/** The read-only lookups of the transform service over the
    `xmltodict`-shaped source document: dotted paths through nested dicts.
    Both lookups catch every exception, so a path that meets anything but a
    dict holding the next part yields nothing. */
module XmlParser {
  import opened Text
  import opened Json

  /** The cursor loop over `path_parts`: `None` as soon as a part is not in
      the current value, or the current value cannot be indexed by a str
      (the `TypeError` is caught). */
  function Walk(current: Json, parts: seq<string>): Option<Json>
    decreases |parts|
  {
    if parts == [] then Some(current)
    else
      match Contains(current, parts[0])
      case Raise(_) => None
      case Ok(found) =>
        if !found then None
        else
          match GetItem(current, parts[0])
          case Raise(_) => None
          case Ok(next) => Walk(next, parts[1..])
  }

  /** The document made of one dict per part, nesting `x` at the bottom. */
  function Nest(parts: seq<string>, x: Json): Json
    decreases |parts|
  {
    if parts == [] then x else JObj([(parts[0], Nest(parts[1..], x))])
  }

  /** A walk steps only through dicts that hold the next part. */
  lemma WalkThroughDicts(current: Json, parts: seq<string>)
    requires parts != []
    ensures Walk(current, parts).Some? ==> current.JObj? && HasKey(current.fields, parts[0])
    ensures current.JObj? && HasKey(current.fields, parts[0]) ==>
              Walk(current, parts) == Walk(Lookup(current.fields, parts[0]).value, parts[1..])
  {
  }

  /** Walking a path finds what was nested along that path. */
  lemma {:induction false} WalkNest(parts: seq<string>, x: Json)
    ensures Walk(Nest(parts, x), parts) == Some(x)
    decreases |parts|
  {
    if parts != [] {
      var t := Nest(parts, x);
      assert t.fields == [(parts[0], Nest(parts[1..], x))];
      assert HasKey(t.fields, parts[0]) && Lookup(t.fields, parts[0]) == Some(Nest(parts[1..], x));
      WalkNest(parts[1..], x);
    }
  }

  /** A walk along `p + q` is a walk along `p` followed by one along `q`. */
  lemma {:induction false} WalkConcat(current: Json, p: seq<string>, q: seq<string>)
    ensures Walk(current, p + q) == match Walk(current, p) case None => None case Some(c) => Walk(c, q)
    decreases |p|
  {
    if p != [] {
      assert (p + q)[0] == p[0] && (p + q)[1..] == p[1..] + q;
      if current.JObj? && HasKey(current.fields, p[0]) {
        WalkConcat(Lookup(current.fields, p[0]).value, p[1..], q);
      }
    } else {
      assert p + q == q;
    }
  }

  /** `extract_segments(xml_dict, segment_path)`. */
  function ExtractSegments(xml: Json, segmentPath: string): (r: seq<Json>)
    ensures Walk(xml, Split(segmentPath, '.')).None? ==> r == []
    ensures r != [] ==> Walk(xml, Split(segmentPath, '.')).Some?
    ensures r != [] ==> Walk(xml, Split(segmentPath, '.')).value == JArr(r) || [Walk(xml, Split(segmentPath, '.')).value] == r
  {
    match Walk(xml, Split(segmentPath, '.'))
    case None => []
    case Some(found) =>
      match found
      case JArr(items) => items
      case JObj(_) => [found]
      case _ => []
  }

  /** What `extract_segments` makes of the value found at the path: a list
      as it is, a dict as a one-element list, anything else as nothing. */
  lemma ExtractFound(xml: Json, segmentPath: string)
    requires Walk(xml, Split(segmentPath, '.')).Some?
    ensures var found := Walk(xml, Split(segmentPath, '.')).value;
            ExtractSegments(xml, segmentPath)
            == if found.JArr? then found.items else if found.JObj? then [found] else []
  {
  }

  /** A segment dict nested along the path is extracted alone; a list of
      segments nested there is extracted whole. */
  lemma ExtractNested(segmentPath: string, x: Json)
    ensures x.JObj? ==> ExtractSegments(Nest(Split(segmentPath, '.'), x), segmentPath) == [x]
    ensures x.JArr? ==> ExtractSegments(Nest(Split(segmentPath, '.'), x), segmentPath) == x.items
    ensures !x.JObj? && !x.JArr? ==> ExtractSegments(Nest(Split(segmentPath, '.'), x), segmentPath) == []
  {
    WalkNest(Split(segmentPath, '.'), x);
  }

  /** A document that is not a dict holds no segment at all. */
  lemma ExtractFromNonDict(xml: Json, segmentPath: string)
    requires !xml.JObj?
    ensures ExtractSegments(xml, segmentPath) == []
  {
  }

  /** `get_field_value(segment, field_path)`; `JNull` is `None`. */
  function GetFieldValue(segment: Json, fieldPath: string): (r: Json)
    ensures Walk(segment, Split(fieldPath, '.')).None? ==> r == JNull
    ensures Walk(segment, Split(fieldPath, '.')) == Some(JNull) ==> r == JNull
    ensures (match Walk(segment, Split(fieldPath, '.'))
             case None => false
             case Some(c) => !(c.JObj? && HasKey(c.fields, "#text")) && c != JNull) ==>
              r == JStr(PyStr(Walk(segment, Split(fieldPath, '.')).value))
    ensures (match Walk(segment, Split(fieldPath, '.'))
             case None => false
             case Some(c) => c.JObj? && HasKey(c.fields, "#text")) ==>
              Some(r) == Lookup(Walk(segment, Split(fieldPath, '.')).value.fields, "#text")
  {
    match Walk(segment, Split(fieldPath, '.'))
    case None => JNull
    case Some(c) =>
      if c.JObj? && HasKey(c.fields, "#text") then Lookup(c.fields, "#text").value
      else if c == JNull then JNull
      else JStr(PyStr(c))
  }

  /** A str nested along the path, bare or as the `#text` of an element
      with attributes, is read back as that str. */
  lemma FieldNested(fieldPath: string, s: string, attrs: seq<(string, Json)>)
    ensures GetFieldValue(Nest(Split(fieldPath, '.'), JStr(s)), fieldPath) == JStr(s)
    ensures !HasKey(attrs, "#text") ==>
              GetFieldValue(Nest(Split(fieldPath, '.'), JObj(attrs + [("#text", JStr(s))])), fieldPath) == JStr(s)
  {
    var parts := Split(fieldPath, '.');
    WalkNest(parts, JStr(s));
    var fs := attrs + [("#text", JStr(s))];
    WalkNest(parts, JObj(fs));
    if !HasKey(attrs, "#text") {
      LookupPutSame(attrs, "#text", JStr(s));
    }
  }
}
