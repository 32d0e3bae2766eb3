/** The conversion of spreadsheet mapping rules into the transform
    service's mapping configuration: a rule's source path `SEGMENT.FIELD`
    (or `SEGMENT.A.B.FIELD`) places a field rule under
    `{"mappings": {SEGMENT: {...}}}`, and its transformation text
    (`from: to` lines) becomes a `MAP` table. */
module MappingParser {
  import opened Text
  import opened Json
  import opened XmlParser
  import opened ServicePath

  // ---------------------------------------------------------------------
  // Transformation text

  /** The key of a `key: value` line: the stripped text before the first
      colon. */
  function LineKey(line: string): string
    requires ':' in line
  {
    Strip(SplitFirst(line, ':').0)
  }

  /** The value of a `key: value` line: the stripped text after the first
      colon, which may itself hold colons. */
  function LineValue(line: string): string
    requires ':' in line
  {
    Strip(SplitFirst(line, ':').1)
  }

  /** The lines of a rule text, after stripping it. */
  function RuleLines(ruleText: string): (lines: seq<string>)
    ensures |lines| >= 1
  {
    Split(Strip(ruleText), '\n')
  }

  /** The loop over the lines from line `i` on, `acc` holding the table so
      far. */
  function TableFrom(lines: seq<string>, i: nat, acc: seq<(string, Json)>): seq<(string, Json)>
    requires i <= |lines|
    decreases |lines| - i
  {
    if i == |lines| then acc
    else TableFrom(lines, i + 1, if ':' in lines[i] then Put(acc, LineKey(lines[i]), JStr(LineValue(lines[i]))) else acc)
  }

  /** The table `parse_transformation_rule(rule_text)` returns. */
  function ParsedRule(ruleText: string): (r: seq<(string, Json)>)
    ensures ruleText == "" ==> r == []
  {
    if ruleText == "" then [] else TableFrom(RuleLines(ruleText), 0, [])
  }

  /** `parse_transformation_rule(rule_text)`. */
  method ParseTransformationRule(ruleText: string) returns (result: seq<(string, Json)>)
    ensures result == ParsedRule(ruleText)
  {
    if ruleText == "" {
      return [];
    }
    var lines := Split(Strip(ruleText), '\n');
    result := [];
    for i := 0 to |lines|
      invariant TableFrom(lines, 0, []) == TableFrom(lines, i, result)
    {
      var line := lines[i];
      if ':' in line {
        var parts := SplitFirst(line, ':');
        result := Put(result, Strip(parts.0), JStr(Strip(parts.1)));
      }
    }
  }

  /** Every value of the table is a str. */
  lemma {:induction false} TableValuesAreStrings(lines: seq<string>, i: nat, acc: seq<(string, Json)>, k: string)
    requires i <= |lines|
    requires forall j :: 0 <= j < |acc| ==> acc[j].1.JStr?
    ensures HasKey(TableFrom(lines, i, acc), k) ==> Lookup(TableFrom(lines, i, acc), k).value.JStr?
    decreases |lines| - i
  {
    if i < |lines| {
      var acc' := if ':' in lines[i] then Put(acc, LineKey(lines[i]), JStr(LineValue(lines[i]))) else acc;
      forall j | 0 <= j < |acc'| ensures acc'[j].1.JStr? {
        if ':' in lines[i] && !HasKey(acc, LineKey(lines[i])) && j == |acc| {
        } else if ':' in lines[i] && HasKey(acc, LineKey(lines[i])) && j == IndexOf(acc, LineKey(lines[i])) {
        }
      }
      TableValuesAreStrings(lines, i + 1, acc', k);
    }
  }

  /** The last line that names a key gives its value. */
  lemma {:induction false} LastLineWins(lines: seq<string>, i: nat, acc: seq<(string, Json)>, j: nat)
    requires i <= j < |lines| && ':' in lines[j]
    requires forall m :: j < m < |lines| && ':' in lines[m] ==> LineKey(lines[m]) != LineKey(lines[j])
    ensures Lookup(TableFrom(lines, i, acc), LineKey(lines[j])) == Some(JStr(LineValue(lines[j])))
    decreases |lines| - i
  {
    var acc' := if ':' in lines[i] then Put(acc, LineKey(lines[i]), JStr(LineValue(lines[i]))) else acc;
    assert TableFrom(lines, i, acc) == TableFrom(lines, i + 1, acc');
    if i == j {
      var k := LineKey(lines[j]);
      assert acc' == Put(acc, k, JStr(LineValue(lines[j])));
      LookupPutSame(acc, k, JStr(LineValue(lines[j])));
      KeyKept(lines, i + 1, acc', k);
    } else {
      LastLineWins(lines, i + 1, acc', j);
    }
  }

  /** A key no later line names keeps its value to the end. */
  lemma {:induction false} KeyKept(lines: seq<string>, i: nat, acc: seq<(string, Json)>, k: string)
    requires i <= |lines|
    requires forall m :: i <= m < |lines| && ':' in lines[m] ==> LineKey(lines[m]) != k
    ensures Lookup(TableFrom(lines, i, acc), k) == Lookup(acc, k)
    decreases |lines| - i
  {
    if i < |lines| {
      if ':' in lines[i] {
        LookupPutOther(acc, LineKey(lines[i]), JStr(LineValue(lines[i])), k);
      }
      KeyKept(lines, i + 1, if ':' in lines[i] then Put(acc, LineKey(lines[i]), JStr(LineValue(lines[i]))) else acc, k);
    }
  }

  /** Every key of the table is named by some line with a colon; lines
      without one add nothing. */
  lemma {:induction false} KeysFromLines(lines: seq<string>, i: nat, acc: seq<(string, Json)>, k: string)
    requires i <= |lines|
    requires HasKey(TableFrom(lines, i, acc), k)
    ensures HasKey(acc, k) || exists m :: i <= m < |lines| && ':' in lines[m] && LineKey(lines[m]) == k
    decreases |lines| - i
  {
    if i < |lines| {
      var acc' := if ':' in lines[i] then Put(acc, LineKey(lines[i]), JStr(LineValue(lines[i]))) else acc;
      KeysFromLines(lines, i + 1, acc', k);
      if HasKey(acc', k) && !HasKey(acc, k) {
        if !(':' in lines[i] && LineKey(lines[i]) == k) {
          if ':' in lines[i] {
            LookupPutOther(acc, LineKey(lines[i]), JStr(LineValue(lines[i])), k);
          }
          assert false;
        }
      }
    }
  }

  /** The table of a whole rule text, both ways: each key is the key of a
      line with a colon, and the last such line gives its value. */
  lemma ParsedRuleLines(ruleText: string, k: string)
    requires ruleText != ""
    ensures HasKey(ParsedRule(ruleText), k) ==>
              exists m :: 0 <= m < |RuleLines(ruleText)| && ':' in RuleLines(ruleText)[m] && LineKey(RuleLines(ruleText)[m]) == k
  {
    if HasKey(ParsedRule(ruleText), k) {
      KeysFromLines(RuleLines(ruleText), 0, [], k);
    }
  }

  /** The last line of a rule text that names a key gives that key's
      value. */
  lemma ParsedRuleLastWins(ruleText: string, m: nat)
    requires ruleText != "" && m < |RuleLines(ruleText)| && ':' in RuleLines(ruleText)[m]
    requires forall n :: m < n < |RuleLines(ruleText)| && ':' in RuleLines(ruleText)[n] ==>
                         LineKey(RuleLines(ruleText)[n]) != LineKey(RuleLines(ruleText)[m])
    ensures Lookup(ParsedRule(ruleText), LineKey(RuleLines(ruleText)[m])) == Some(JStr(LineValue(RuleLines(ruleText)[m])))
  {
    LastLineWins(RuleLines(ruleText), 0, [], m);
  }

  // ---------------------------------------------------------------------
  // Rules into a mapping configuration

  /** One row of the mapping sheet, as `load_mapping_from_excel` leaves it. */
  datatype MappingRule = MappingRule(target: string, source: string, transformation: string,
                                     defaultValue: Json, validation: Json)

  /** The field rule emitted for a row: `target` and `validation`, then
      `default_value` and a `MAP` transformation when present. */
  function RuleEntry(rule: MappingRule): Json {
    var base := [("target", JStr(rule.target)), ("validation", rule.validation)];
    var withDefault := if Truthy(rule.defaultValue) then Put(base, "default_value", rule.defaultValue) else base;
    var values := ParsedRule(rule.transformation);
    JObj(if rule.transformation != "" && values != [] then
           Put(withDefault, "transformation", JObj([("type", JStr("MAP")), ("values", JObj(values))]))
         else withDefault)
  }

  /** Which keys the emitted field rule has, and what they hold. */
  lemma RuleEntryKeys(rule: MappingRule)
    ensures RuleEntry(rule).JObj?
    ensures Lookup(RuleEntry(rule).fields, "target") == Some(JStr(rule.target))
    ensures Lookup(RuleEntry(rule).fields, "validation") == Some(rule.validation)
    ensures HasKey(RuleEntry(rule).fields, "default_value") <==> Truthy(rule.defaultValue)
    ensures Truthy(rule.defaultValue) ==> Lookup(RuleEntry(rule).fields, "default_value") == Some(rule.defaultValue)
    ensures HasKey(RuleEntry(rule).fields, "transformation") <==> ParsedRule(rule.transformation) != []
    ensures ParsedRule(rule.transformation) != [] ==>
              Lookup(RuleEntry(rule).fields, "transformation")
              == Some(JObj([("type", JStr("MAP")), ("values", JObj(ParsedRule(rule.transformation)))]))
  {
    var base := [("target", JStr(rule.target)), ("validation", rule.validation)];
    var withDefault := if Truthy(rule.defaultValue) then Put(base, "default_value", rule.defaultValue) else base;
    var values := ParsedRule(rule.transformation);
    assert "target" != "validation" by { assert |"target"| != |"validation"|; }
    assert IndexOf(base, "target") == 0;
    assert IndexOf(base, "validation") == 1 by {
      assert base[1..] == [("validation", rule.validation)];
    }
    assert !HasKey(base, "default_value") && !HasKey(base, "transformation");
    if Truthy(rule.defaultValue) {
      LookupPutOther(base, "default_value", rule.defaultValue, "target");
      LookupPutOther(base, "default_value", rule.defaultValue, "validation");
      LookupPutSame(base, "default_value", rule.defaultValue);
      LookupPutOther(base, "default_value", rule.defaultValue, "transformation");
    }
    if values != [] {
      var t := JObj([("type", JStr("MAP")), ("values", JObj(values))]);
      LookupPutOther(withDefault, "transformation", t, "target");
      LookupPutOther(withDefault, "transformation", t, "validation");
      LookupPutOther(withDefault, "transformation", t, "default_value");
      LookupPutSame(withDefault, "transformation", t);
    }
  }

  /** What the cursor loop does below a segment entry: walk the middle
      parts, creating `{}` for a missing one, and assign the field rule at
      the end. A part that meets anything but a dict raises `TypeError`. */
  function InsertAt(cur: Json, path: seq<string>, field: string, entry: Json): Py<Json>
    decreases |path|
  {
    if path == [] then SetItem(cur, field, entry)
    else if !cur.JObj? then Raise(TypeError)
    else
      var sub :- InsertAt(InsertChild(cur.fields, path[0]), path[1..], field, entry);
      Ok(JObj(Put(cur.fields, path[0], sub)))
  }

  /** The value the cursor moves to: the one present, or a fresh `{}`. */
  function InsertChild(fs: seq<(string, Json)>, part: string): Json {
    if HasKey(fs, part) then Lookup(fs, part).value else EmptyObj
  }

  lemma InsertStep(cur: Json, path: seq<string>, field: string, entry: Json)
    requires |path| >= 1 && cur.JObj?
    ensures InsertAt(cur, path, field, entry)
            == Lift(InObj(cur.fields, path[0]), InsertAt(InsertChild(cur.fields, path[0]), path[1..], field, entry))
  {
  }

  /** The cursor loop of `convert_mapping_to_json` and the assignment
      after it. */
  method InsertRule(segment: Json, path: seq<string>, field: string, entry: Json) returns (r: Py<Json>)
    ensures r == InsertAt(segment, path, field, entry)
  {
    var frames: seq<Frame> := [];
    var current := segment;
    for k := 0 to |path|
      invariant InsertAt(segment, path, field, entry) == PluggedSvc(frames, InsertAt(current, path[k..], field, entry))
    {
      if !current.JObj? {
        return Raise(TypeError);
      }
      assert path[k..][0] == path[k] && path[k..][1..] == path[k + 1..];
      var child := InsertChild(current.fields, path[k]);
      InsertStep(current, path[k..], field, entry);
      DescendSvc(frames, InObj(current.fields, path[k]), InsertAt(child, path[k + 1..], field, entry));
      frames := frames + [InObj(current.fields, path[k])];
      current := child;
    }
    assert path[|path|..] == [];
    if !current.JObj? {
      return Raise(TypeError);
    }
    return Ok(Plug(frames, JObj(Put(current.fields, field, entry))));
  }

  /** One iteration of the loop over the rules. A source whose first part
      is empty is skipped; a new segment gets an empty entry even when the
      rule then adds no field (a single-part source, or one ending in a
      dot). */
  function RuleStep(ms: seq<(string, Json)>, rule: MappingRule): Py<seq<(string, Json)>> {
    var parts := Split(rule.source, '.');
    var segment := parts[0];
    if segment == "" then Ok(ms)
    else if |parts| == 1 || parts[|parts| - 1] == "" then Ok(Registered(ms, segment))
    else AddField(ms, segment, parts[1..|parts| - 1], parts[|parts| - 1], RuleEntry(rule))
  }

  /** The segments with `segment` given an empty entry if it had none. */
  function Registered(ms: seq<(string, Json)>, segment: string): seq<(string, Json)> {
    if HasKey(ms, segment) then ms else Put(ms, segment, EmptyObj)
  }

  /** The field rule `entry` inserted at `path` + `field` inside the
      segment's dict. */
  function AddField(ms: seq<(string, Json)>, segment: string, path: seq<string>, field: string, entry: Json): Py<seq<(string, Json)>> {
    var updated :- InsertAt(RuleSegment(ms, segment), path, field, entry);
    Ok(Put(Registered(ms, segment), segment, updated))
  }

  /** One iteration of the loop over the rules. */
  method AddRule(ms: seq<(string, Json)>, rule: MappingRule) returns (r: Py<seq<(string, Json)>>)
    ensures r == RuleStep(ms, rule)
  {
    var parts := Split(rule.source, '.');
    var segment := parts[0];
    if segment == "" {
      return Ok(ms);
    }
    var ms1 := ms;
    if !HasKey(ms1, segment) {
      ms1 := Put(ms1, segment, EmptyObj);
    }
    if |parts| == 1 || parts[|parts| - 1] == "" {
      return Ok(ms1);
    }
    var field := parts[|parts| - 1];
    var entry := [("target", JStr(rule.target)), ("validation", rule.validation)];
    if Truthy(rule.defaultValue) {
      entry := Put(entry, "default_value", rule.defaultValue);
    }
    if rule.transformation != "" {
      var values := ParseTransformationRule(rule.transformation);
      if values != [] {
        entry := Put(entry, "transformation", JObj([("type", JStr("MAP")), ("values", JObj(values))]));
      }
    }
    assert JObj(entry) == RuleEntry(rule);
    LookupPutSame(ms, segment, EmptyObj);
    assert Lookup(ms1, segment).value == RuleSegment(ms, segment);
    var updated :- InsertRule(Lookup(ms1, segment).value, parts[1..|parts| - 1], field, JObj(entry));
    return Ok(Put(ms1, segment, updated));
  }

  /** The loop over the rules from rule `i` on. */
  function ConvertFrom(rules: seq<MappingRule>, i: nat, ms: seq<(string, Json)>): Py<seq<(string, Json)>>
    requires i <= |rules|
    decreases |rules| - i
  {
    if i == |rules| then Ok(ms)
    else
      var ms' :- RuleStep(ms, rules[i]);
      ConvertFrom(rules, i + 1, ms')
  }

  /** `convert_mapping_to_json(mapping_rules)` as a value. */
  function Converted(rules: seq<MappingRule>): Py<Json> {
    var ms :- ConvertFrom(rules, 0, []);
    Ok(JObj([("mappings", JObj(ms))]))
  }

  /** `convert_mapping_to_json(mapping_rules)`. */
  method ConvertMappingToJson(rules: seq<MappingRule>) returns (r: Py<Json>)
    ensures r == Converted(rules)
  {
    var ms: seq<(string, Json)> := [];
    for i := 0 to |rules|
      invariant ConvertFrom(rules, 0, []) == ConvertFrom(rules, i, ms)
    {
      var step := AddRule(ms, rules[i]);
      if step.Raise? {
        return Raise(step.error);
      }
      ms := step.value;
    }
    return Ok(JObj([("mappings", JObj(ms))]));
  }

  // ---------------------------------------------------------------------
  // What the conversion builds

  /** Every segment entry is a dict. */
  predicate AllDicts(ms: seq<(string, Json)>) {
    forall j :: 0 <= j < |ms| ==> ms[j].1.JObj?
  }

  lemma InsertKeepsDict(cur: Json, path: seq<string>, field: string, entry: Json)
    requires InsertAt(cur, path, field, entry).Ok?
    ensures InsertAt(cur, path, field, entry).value.JObj?
  {
  }

  lemma PutKeepsAllDicts(ms: seq<(string, Json)>, k: string, v: Json)
    requires AllDicts(ms) && v.JObj?
    ensures AllDicts(Put(ms, k, v))
  {
  }

  /** The configuration is `{"mappings": {...}}` with a dict for every
      segment. */
  lemma {:induction false} ConvertedShape(rules: seq<MappingRule>, i: nat, ms: seq<(string, Json)>)
    requires i <= |rules| && AllDicts(ms)
    ensures ConvertFrom(rules, i, ms).Ok? ==> AllDicts(ConvertFrom(rules, i, ms).value)
    decreases |rules| - i
  {
    if i < |rules| && RuleStep(ms, rules[i]).Ok? {
      RuleStepKeepsDicts(ms, rules[i]);
      ConvertedShape(rules, i + 1, RuleStep(ms, rules[i]).value);
    }
  }

  /** One rule keeps every segment a dict. */
  lemma RuleStepKeepsDicts(ms: seq<(string, Json)>, rule: MappingRule)
    requires AllDicts(ms) && RuleStep(ms, rule).Ok?
    ensures AllDicts(RuleStep(ms, rule).value)
  {
    var parts := Split(rule.source, '.');
    var segment := parts[0];
    if segment != "" {
      if !HasKey(ms, segment) {
        PutKeepsAllDicts(ms, segment, EmptyObj);
      }
      if !(|parts| == 1 || parts[|parts| - 1] == "") {
        var path := parts[1..|parts| - 1];
        var field := parts[|parts| - 1];
        var ins := InsertAt(RuleSegment(ms, segment), path, field, RuleEntry(rule));
        assert RuleStep(ms, rule) == AddField(ms, segment, path, field, RuleEntry(rule));
        InsertKeepsDict(RuleSegment(ms, segment), path, field, RuleEntry(rule));
        PutKeepsAllDicts(Registered(ms, segment), segment, ins.value);
      }
    }
  }

  /** Round trip: the field rule inserted at a path is found by walking
      that path, whatever was there before. */
  lemma {:induction false} InsertThenWalk(cur: Json, path: seq<string>, field: string, entry: Json)
    requires InsertAt(cur, path, field, entry).Ok?
    ensures Walk(InsertAt(cur, path, field, entry).value, path + [field]) == Some(entry)
    decreases |path|
  {
    var t := InsertAt(cur, path, field, entry).value;
    var p := path + [field];
    if path == [] {
      assert t == JObj(Put(cur.fields, field, entry));
      LookupPutSame(cur.fields, field, entry);
      assert p == [field];
      WalkThroughDicts(t, p);
      assert p[1..] == [];
    } else {
      var child := InsertChild(cur.fields, path[0]);
      var sub := InsertAt(child, path[1..], field, entry).value;
      assert t == JObj(Put(cur.fields, path[0], sub));
      InsertThenWalk(child, path[1..], field, entry);
      LookupPutSame(cur.fields, path[0], sub);
      assert p[0] == path[0] && p[1..] == path[1..] + [field];
      WalkThroughDicts(t, p);
    }
  }

  /** A rule with a source of at least two parts, none of them empty at the
      ends, is found in the configuration at its source path, its first part
      naming the segment. */
  lemma RuleFoundAtSource(ms: seq<(string, Json)>, rule: MappingRule)
    requires var parts := Split(rule.source, '.'); parts[0] != "" && |parts| >= 2 && parts[|parts| - 1] != ""
    requires RuleStep(ms, rule).Ok?
    ensures Walk(JObj(RuleStep(ms, rule).value), Split(rule.source, '.')) == Some(RuleEntry(rule))
  {
    var parts := Split(rule.source, '.');
    RuleStepUnfold(ms, rule);
    FoundAlongParts(RuleStep(ms, rule).value, parts, RuleSegment(ms, parts[0]), RuleEntry(rule));
  }

  /** A segment holding an inserted entry is walked through to that entry. */
  lemma FoundAlongParts(t: seq<(string, Json)>, parts: seq<string>, seg: Json, entry: Json)
    requires |parts| >= 2
    requires var ins := InsertAt(seg, parts[1..|parts| - 1], parts[|parts| - 1], entry);
             ins.Ok? && Lookup(t, parts[0]) == Some(ins.value)
    ensures Walk(JObj(t), parts) == Some(entry)
  {
    var path := parts[1..|parts| - 1];
    var field := parts[|parts| - 1];
    WalkThroughDicts(JObj(t), parts);
    assert parts[1..] == path + [field];
    InsertThenWalk(seg, path, field, entry);
  }

  /** The segment dict a rule's fields go into. */
  function RuleSegment(ms: seq<(string, Json)>, segment: string): Json {
    if HasKey(ms, segment) then Lookup(ms, segment).value else EmptyObj
  }

  /** A rule with a field stores the updated segment under the segment name. */
  lemma RuleStepUnfold(ms: seq<(string, Json)>, rule: MappingRule)
    requires var parts := Split(rule.source, '.'); parts[0] != "" && |parts| >= 2 && parts[|parts| - 1] != ""
    requires RuleStep(ms, rule).Ok?
    ensures var parts := Split(rule.source, '.');
            var seg := RuleSegment(ms, parts[0]);
            var ins := InsertAt(seg, parts[1..|parts| - 1], parts[|parts| - 1], RuleEntry(rule));
            ins.Ok? && Lookup(RuleStep(ms, rule).value, parts[0]) == Some(ins.value)
  {
    var parts := Split(rule.source, '.');
    var segment := parts[0];
    var path := parts[1..|parts| - 1];
    var field := parts[|parts| - 1];
    var ins := InsertAt(RuleSegment(ms, segment), path, field, RuleEntry(rule));
    assert RuleStep(ms, rule) == AddField(ms, segment, path, field, RuleEntry(rule));
    LookupPutSame(Registered(ms, segment), segment, ins.value);
  }

  /** A single-part source only registers its segment. */
  lemma SinglePartRegistersSegment(ms: seq<(string, Json)>, rule: MappingRule)
    requires Split(rule.source, '.') == [rule.source] && rule.source != ""
    ensures RuleStep(ms, rule) == Ok(if HasKey(ms, rule.source) then ms else ms + [(rule.source, EmptyObj)])
  {
  }

  /** A path through a value that is not a dict, such as the `target` of a
      field rule placed there earlier, raises. */
  lemma InsertThroughScalarRaises(fs: seq<(string, Json)>, part: string, rest: seq<string>, field: string, entry: Json)
    requires HasKey(fs, part) && !Lookup(fs, part).value.JObj?
    ensures InsertAt(JObj(fs), [part] + rest, field, entry) == Raise(TypeError)
  {
    assert ([part] + rest)[0] == part && ([part] + rest)[1..] == rest;
  }
}
