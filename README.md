# IDoc to BYDM mapping, modelled in Dafny

The system turns SAP IDoc documents (XML segments such as `E1KNA1M`) into
BYDM JSON documents. A declarative mapping configuration drives the
conversion. For each source field it gives a dotted target path (`location.0.customerId`),
an optional transformation and an optional validation rule. The repository
holds several revisions of the same mapper, and each is modelled as written:

- **BYDM_Generator_v2** (archived). Walks the XML tree. Writes into a copy of a template
  through `set_nested_value`, which looks one step ahead to decide list or
  dict. Fans out `isArray` fields into lists of objects. Collects unmapped
  segments as dicts (`xml_to_dict`). Emits the document only when a global
  `validation_success` flag is still set.
- **BYDM_Generator_v1** (archived) and **Bydm_json_generator_17thFeb**. These share an earlier
  `set_nested_value`, which stops on a type clash and handles a final list
  index separately. The v1 parser recurses into nested segments. The 17thFeb parser
  maps only the segments the configuration names.
- **BYDM_Generator_14th_Feb**. Builds a fresh dict per segment, collects nested
  segments into lists and raises `ValueError` on a failed validation.
- **BYDM_Generator**. One flat record per segment, with `uppercase` and
  `conditional_map` transformations and `number`/`text` validation.
- **sap-bydm-transformer**. The service version:
  - `TransformService` applies a mapping to an `xmltodict`-shaped document (`_apply_mapping`,
    `_process_segment`, `_apply_transformation`, `_validate_field`,
    `_set_nested_value`);
  - `xml_parser` reads segments and fields along dotted paths;
  - `mapping_parser` turns spreadsheet rules into the mapping configuration.

## Modules

- `Text`: Python string operations: `isdigit`, `strip`, `upper`, `split`, `replace(.., 1)`.
- `Json`: the JSON-like values of the scripts, and Python's operators on them.
  Dicts are insertion-ordered association lists. `Py<T>` carries either a
  value or the exception Python would raise. `Document` is the mutable output
  dict.
- `Idoc`: an XML element (tag, attributes, text, children).
- `PathV2`, `PathV1`, `ServicePath`: the three `set_nested_value`s, plus `get_nested_value`.
  Each one has:
  - a recursive specification function;
  - an imperative method, proved equal to that function;
  - lemmas: the round trip through `get_nested_value`, what stays untouched off the path, and what happens on a type clash.
- `ScriptRules`: the `apply_transformation`/`validate_data` pair shared by v1, v2 and
  17thFeb, and the `Globals` object holding `validation_success`.
- `GeneratorV2`, `GeneratorV1`, `Generator17Feb`, `Generator14Feb`, `BaseGenerator`: the
  mapping engines. Each parse is a specification function over a `State`
  (document, flag) or a value. The imperative parsers are proved against it.
- `XmlParser`, `TransformService`, `MappingParser`: the service.

## Model

| member | source | states |
|---|---|---|
| Text.NatToString | Idoc_Simulator/Archives/scripts/BYDM_Generator_v2.py:72-73 | the decimal form of an index is all digits, reads back as that index, and has no leading zero |
| Text.Strip | Idoc_Simulator/Archives/scripts/BYDM_Generator_v2.py:165 | `str.strip()`: the result is the slice between the leading and trailing whitespace, and starts and ends with a non-space |
| Text.StripKeeps | Idoc_Simulator/Archives/scripts/BYDM_Generator_v2.py:165 | a string with no surrounding whitespace is stripped to itself |
| Text.StripBlank | sap-bydm-transformer/app/services/transform_service.py:180 | a string of whitespace strips to the empty string |
| Text.Upper | Idoc_Simulator/scripts/BYDM_Generator.py:35 | `str.upper()` keeps the length and maps exactly the lower-case letters to upper case |
| Text.FirstIndex | sap-bydm-transformer/app/services/transform_service.py:184 | the first occurrence of a character, or the length when it is absent |
| Text.RemoveFirst | sap-bydm-transformer/app/services/transform_service.py:184 | `replace('.', '', 1)` removes exactly the first occurrence and nothing else |
| Text.Split | Idoc_Simulator/Archives/scripts/BYDM_Generator_v2.py:69 | `split('.')` yields at least one part and no part holds the separator |
| Text.JoinSplit | Idoc_Simulator/Archives/scripts/BYDM_Generator_v2.py:69 | joining the parts of a split gives the original string back |
| Text.SplitJoin | Idoc_Simulator/Archives/scripts/BYDM_Generator_v2.py:69 | splitting a join of separator-free parts gives those parts back |
| Text.SplitFirst | sap-bydm-transformer/app/utils/mapping_parser.py:97 | `split(':', 1)`: the head holds no separator and head, separator and tail rebuild the string |
| Json.IndexOf | Idoc_Simulator/Archives/scripts/BYDM_Generator_v2.py:85 | the position of the first entry with the key, or -1 exactly when no entry has it |
| Json.Put | Idoc_Simulator/Archives/scripts/BYDM_Generator_v2.py:104 | dict assignment replaces the existing entry in place or appends a new one at the end |
| Json.LookupPutSame | Idoc_Simulator/Archives/scripts/BYDM_Generator_v2.py:104 | after `d[k] = v`, `d[k]` is `v` |
| Json.LookupPutOther | Idoc_Simulator/Archives/scripts/BYDM_Generator_v2.py:104 | `d[k] = v` leaves every other key's entry unchanged |
| Json.PutOverwrite | Idoc_Simulator/Archives/scripts/BYDM_Generator_v2.py:104 | a second assignment to a key supersedes the first |
| Json.PutTwice | Idoc_Simulator/Archives/scripts/BYDM_Generator_v2.py:104 | assigning the same value twice is the same as once |
| Json.IndexOfFirst | Idoc_Simulator/Archives/scripts/BYDM_Generator_v2.py:85 | the lookup finds the first entry carrying the key |
| Json.GetOrNone | Idoc_Simulator/Archives/scripts/BYDM_Generator_v2.py:167 | `d.get(k)` is the entry for `k`, or `None` when there is none |
| Json.Contains | Idoc_Simulator/Archives/scripts/BYDM_Generator_v2.py:85 | `k in c` is key membership on a dict and raises exactly on `None` and booleans |
| Json.GetItem | sap-bydm-transformer/app/utils/xml_parser.py:41-44 | `c[k]` succeeds exactly on a dict holding `k` and returns its entry |
| Json.DictGet | sap-bydm-transformer/app/services/transform_service.py:115 | `c.get(k, d)` succeeds exactly on a dict and returns the entry or the default |
| Json.SetItem | Idoc_Simulator/Archives/scripts/BYDM_Generator_v1.py:40-41 | `c[k] = v` succeeds exactly on a dict and then holds `v` under `k` |
| Json.Append | Idoc_Simulator/Archives/scripts/BYDM_Generator_v2.py:161 | `c.append(v)` succeeds exactly on a list and adds `v` at its end |
| Json.KeyOf | Idoc_Simulator/scripts/BYDM_Generator.py:69 | a str key is itself; a list or dict is unhashable and raises |
| Json.PyStr | sap-bydm-transformer/app/services/transform_service.py:180 | `str()` of a str is the str itself and of `None` is `"None"` |
| Json.Pad | Idoc_Simulator/Archives/scripts/BYDM_Generator_v2.py:77-78 | extending a list with a filler up to a length keeps its prefix and fills only the new tail |
| Json.PadList | Idoc_Simulator/Archives/scripts/BYDM_Generator_v2.py:77-78 | the `while len(lst) <= i: lst.append(x)` loop computes that padding |
| Json.PlugPush | Idoc_Simulator/Archives/scripts/BYDM_Generator_v2.py:70-90 | plugging a value through one more descent step equals filling that step first |
| PathV2.GetNestedValue | Idoc_Simulator/Archives/scripts/BYDM_Generator_v2.py:51-66 | specification of `get_nested_value`: descends by dict key or list index and gives None for a missing key, an index past the end or a wrong container; WalkNestedValue, GetNestedConcat and NullHasNothing state its behaviour |
| PathV2.WalkNestedValue | Idoc_Simulator/Archives/scripts/BYDM_Generator_v2.py:51-66 | the lookup loop of `get_nested_value` returns the value its recursive definition gives |
| PathV2.GetNestedConcat | Idoc_Simulator/Archives/scripts/BYDM_Generator_v2.py:51-66 | a lookup along `p + q` is a lookup along `q` in what `p` finds |
| PathV2.NullHasNothing | Idoc_Simulator/Archives/scripts/BYDM_Generator_v2.py:62-66 | once a lookup meets `None`, every longer path finds `None` |
| PathV2.FreshFor | Idoc_Simulator/Archives/scripts/BYDM_Generator_v2.py:85-89 | a missing key gets a new list when the next key is numeric, else a new dict |
| PathV2.WriteV2 | Idoc_Simulator/Archives/scripts/BYDM_Generator_v2.py:68-104 | specification of the v2 `set_nested_value` with its lookahead: the document after the write and whether a type clash abandoned it; WriteThenGet, WriteKeepsOffPath, MismatchOnlyGrows, LookaheadCreates and WritePads state its behaviour |
| PathV2.SetNestedValue | Idoc_Simulator/Archives/scripts/BYDM_Generator_v2.py:68-104 | the imperative writer leaves exactly the document, and reports exactly the type clash, that its recursive specification gives |
| PathV2.StepV2 | Idoc_Simulator/Archives/scripts/BYDM_Generator_v2.py:71-90 | one pass of the descent loop: either stops with the document unchanged and the write reported done, or moves one step down with the rest of the write still to do on the same path |
| PathV2.FinalV2 | Idoc_Simulator/Archives/scripts/BYDM_Generator_v2.py:91-104 | the last key's assignment or list write is exactly the one-key case of the recursive write |
| PathV2.WriteThenGet | Idoc_Simulator/Archives/scripts/BYDM_Generator_v2.py:68-104 | a write that meets no type clash is read back by `get_nested_value` on the same path |
| PathV2.WriteKeepsOffPath | Idoc_Simulator/Archives/scripts/BYDM_Generator_v2.py:68-104 | a write leaves every present value on a diverging path unchanged |
| PathV2.GrowsRefl | Idoc_Simulator/Archives/scripts/BYDM_Generator_v2.py:68-104 | every document grows into itself |
| PathV2.MismatchOnlyGrows | Idoc_Simulator/Archives/scripts/BYDM_Generator_v2.py:71-90 | a write abandoned on a type clash never replaces or loses a value, keeps every old key in its position, and adds only hollow containers (lists and dicts with no value anywhere inside): the `{}` padding and the lookahead containers |
| PathV2.WriteKeepsKind | Idoc_Simulator/Archives/scripts/BYDM_Generator_v2.py:68-104 | a write never turns the root list into a dict or the root dict into a list |
| PathV2.LookaheadCreates | Idoc_Simulator/Archives/scripts/BYDM_Generator_v2.py:84-89 | a missing key becomes a list exactly when the next path part is numeric and a dict exactly when it is not |
| PathV2.FreshWrite | Idoc_Simulator/Archives/scripts/BYDM_Generator_v2.py:68-104 | writing into a fresh container clashes exactly when the path holds two adjacent indices |
| PathV2.EmptyDictWrite | Idoc_Simulator/Archives/scripts/BYDM_Generator_v2.py:68-104 | writing into `{}` clashes exactly when the path starts with an index or holds two adjacent indices |
| PathV2.WritePads | Idoc_Simulator/Archives/scripts/BYDM_Generator_v2.py:71-99 | an index past the end pads the list with `{}` in the middle of a path and with `None` at its end, keeping the old items |
| PathV2.AppendThenGet | Idoc_Simulator/Archives/scripts/BYDM_Generator_v2.py:157-163 | appending to a list found at a path puts the item at its end |
| PathV2.AppendAllThenGet | Idoc_Simulator/Archives/scripts/BYDM_Generator_v2.py:157-163 | appending several objects in turn to the list at a path leaves that list as the old items followed by the new ones, in order |
| PathV2.AppendKeepsOffPath | Idoc_Simulator/Archives/scripts/BYDM_Generator_v2.py:157-163 | appending at a path leaves every diverging path unchanged |
| PathV2.AppendMissesNonList | Idoc_Simulator/Archives/scripts/BYDM_Generator_v2.py:157-163 | appending where no list is found changes nothing |
| PathV1.SetV1 | Idoc_Simulator/Archives/scripts/BYDM_Generator_v1.py:25-57 | `set_nested_value` of the v1 and 17thFeb scripts: IndexError arises only from a one-part path on a list, whose error line reads the missing `keys[-2]`; every other path is the recursive write |
| PathV1.WriteV1 | Idoc_Simulator/Archives/scripts/BYDM_Generator_v1.py:28-57 | specification of the v1 write below the top-level check: never raises IndexError, and raises on a str; WriteV1ThenGet, StoppedOnlyGrows and WriteV1KeepsOffPath state its behaviour |
| PathV1.IndexV1 | Idoc_Simulator/Archives/scripts/BYDM_Generator_v1.py:29-33 | an index step on a str raises |
| PathV1.KeyV1 | Idoc_Simulator/Archives/scripts/BYDM_Generator_v1.py:34-41 | a key step on a str raises |
| PathV1.FinalV1 | Idoc_Simulator/Archives/scripts/BYDM_Generator_v1.py:42-57 | specification of the two passes over the last step, reached with `keys[-2]` in range: a list logs and still takes an index, a dict takes a key twice, and a digit key on a short dict raises; FinalKeyAssignedOnce, FinalIndexOnList and MissingKeyThenLastIndex state its behaviour |
| PathV1.FinalStepV1 | Idoc_Simulator/Archives/scripts/BYDM_Generator_v1.py:42-57 | the imperative final step raises, assigns and logs exactly as its specification says |
| PathV1.SetNestedValueV1 | Idoc_Simulator/Archives/scripts/BYDM_Generator_v1.py:25-57 | the imperative writer raises exactly when its specification does, and otherwise leaves exactly the document it gives |
| PathV1.StepV1 | Idoc_Simulator/Archives/scripts/BYDM_Generator_v1.py:26-41 | one pass of the descent loop: an exception raised is the one the recursive write raises, a stop leaves the document as it was, and a step down leaves the rest of the write on the same path |
| PathV1.WriteV1ThenGet | Idoc_Simulator/Archives/scripts/BYDM_Generator_v1.py:25-57 | a write that neither raises nor stops, and whose log step matches a final index, is read back on the same path |
| PathV1.FinalKeyAssignedOnce | Idoc_Simulator/Archives/scripts/BYDM_Generator_v1.py:42-45 | a one-key path on a dict assigns that key once, without a log |
| PathV1.FinalIndexOnList | Idoc_Simulator/Archives/scripts/BYDM_Generator_v1.py:42-53 | a final index on a list reached through a key pads the list with `None` and stores the value at that index, and the first pass has logged an error |
| PathV1.OnePartOnListRaises | Idoc_Simulator/Archives/scripts/BYDM_Generator_v1.py:42-43 | a one-part path on a list root raises IndexError, while the write below the top would have succeeded |
| PathV1.MissingKeyThenIndexRaises | Idoc_Simulator/Archives/scripts/BYDM_Generator_v1.py:29-41 | a missing key followed by an inner index raises, because the new dict is indexed as a list |
| PathV1.MissingKeyThenLastIndex | Idoc_Simulator/Archives/scripts/BYDM_Generator_v1.py:39-57 | a missing key followed by a final index 0 writes a dict keyed by `"0"`, and any other index raises |
| PathV1.StoppedOnlyGrows | Idoc_Simulator/Archives/scripts/BYDM_Generator_v1.py:35-38 | a write stopped on a list never replaces or loses a value, keeps every old key in its position, and adds only hollow containers (the `{}` padding and the `{}` created for missing keys) |
| PathV1.WriteV1KeepsOffPath | Idoc_Simulator/Archives/scripts/BYDM_Generator_v1.py:25-57 | a successful write leaves every present value on a diverging path unchanged |
| ScriptRules.ApplyTransformation | Idoc_Simulator/Archives/scripts/BYDM_Generator_v2.py:106-111 | no transformation keeps the value, a non-dict one raises, and only a `MAP` type changes the value |
| ScriptRules.TransformationIsTableLookup | Idoc_Simulator/Archives/scripts/BYDM_Generator_v2.py:106-111 | a `MAP` replaces a value found in its table and keeps any other |
| ScriptRules.TransformationIdentityOrHit | Idoc_Simulator/Archives/scripts/BYDM_Generator_v2.py:106-111 | every result is the value itself or an entry of the `MAP` table for that value |
| ScriptRules.Validate | Idoc_Simulator/Archives/scripts/BYDM_Generator_v2.py:116-128 | raises exactly on `NUMBER` over a non-str, rejects exactly non-digit `NUMBER`s and non-str `TEXT`s as `None`, and otherwise passes the value |
| ScriptRules.NumberExamples | Idoc_Simulator/Archives/scripts/BYDM_Generator_v2.py:118-121 | `""`, `"-5"` and `"1.5"` are rejected as `NUMBER` and `"042"` passes |
| ScriptRules.TextAndOtherRules | Idoc_Simulator/Archives/scripts/BYDM_Generator_v2.py:122-128 | any str passes `TEXT`, and any other rule passes every value |
| ScriptRules.Globals.constructor | Idoc_Simulator/Archives/scripts/BYDM_Generator_v2.py:114 | the flag starts true |
| ScriptRules.Globals.ValidateData | Idoc_Simulator/Archives/scripts/BYDM_Generator_v2.py:116-128 | returns the validated value and clears the flag exactly on a rejection |
| GeneratorV2.XmlToDict | Idoc_Simulator/Archives/scripts/BYDM_Generator_v2.py:25-49 | specification of `xml_to_dict`: a one-key dict from the tag to the merged children, `@` attributes and stripped text; ContentNotList, RepeatedTagsCollapse, AttributesPrefixed and TextStripped state its behaviour |
| GeneratorV2.ContentNotList | Idoc_Simulator/Archives/scripts/BYDM_Generator_v2.py:25-49 | `xml_to_dict` never yields a list at the top |
| GeneratorV2.OccurrencesNotLists | Idoc_Simulator/Archives/scripts/BYDM_Generator_v2.py:25-49 | no converted child is itself a list |
| GeneratorV2.MergeFrom | Idoc_Simulator/Archives/scripts/BYDM_Generator_v2.py:29-39 | the child loop leaves, under each tag, the collapsed list of that tag's conversions |
| GeneratorV2.RepeatedTagsCollapse | Idoc_Simulator/Archives/scripts/BYDM_Generator_v2.py:29-39 | a tag seen once gives its conversion and a repeated tag gives the list of all of them, in order |
| GeneratorV2.PutAttrsOther | Idoc_Simulator/Archives/scripts/BYDM_Generator_v2.py:40-41 | attributes never touch a key without the `@` prefix |
| GeneratorV2.PutAttrsLast | Idoc_Simulator/Archives/scripts/BYDM_Generator_v2.py:40-41 | each attribute is stored under `@` plus its name, the last duplicate winning |
| GeneratorV2.PutAttrsKeep | Idoc_Simulator/Archives/scripts/BYDM_Generator_v2.py:40-41 | keys no attribute names keep their entries |
| GeneratorV2.AttributesPrefixed | Idoc_Simulator/Archives/scripts/BYDM_Generator_v2.py:40-41 | an element's attribute reads back under `@name` in its conversion |
| GeneratorV2.TextStripped | Idoc_Simulator/Archives/scripts/BYDM_Generator_v2.py:42-48 | a bare element converts to its stripped text (or `None`), and an element with structure keeps the stripped text under `#text` |
| GeneratorV2.Segment | Idoc_Simulator/Archives/scripts/BYDM_Generator_v2.py:130-176 | specification of the v2 `parse_segment` loop over the children; SegmentFlagOnlyFalls and SkippedChildren state its behaviour |
| GeneratorV2.Field | Idoc_Simulator/Archives/scripts/BYDM_Generator_v2.py:132-176 | specification of one child of the v2 parser: skipped, fanned out as an array, written as a leaf, or mapped as a nested group; FieldFlagOnlyFalls, LeafWritten, LeafRejected and FanOutAppends state its behaviour |
| GeneratorV2.BuildObj | Idoc_Simulator/Archives/scripts/BYDM_Generator_v2.py:139-154 | specification of the loop that builds one array element from its sub-fields; BuildObjFlag states its behaviour |
| GeneratorV2.ParseSegment | Idoc_Simulator/Archives/scripts/BYDM_Generator_v2.py:130-176 | the imperative segment parser leaves exactly the document, flag and exception of its specification |
| GeneratorV2.ParseField | Idoc_Simulator/Archives/scripts/BYDM_Generator_v2.py:132-176 | one field's step matches its specification |
| GeneratorV2.ParseLeaf | Idoc_Simulator/Archives/scripts/BYDM_Generator_v2.py:164-172 | a leaf field's step matches its specification |
| GeneratorV2.ParseArrayField | Idoc_Simulator/Archives/scripts/BYDM_Generator_v2.py:138-163 | an `isArray` field's step matches its specification |
| GeneratorV2.BuildObject | Idoc_Simulator/Archives/scripts/BYDM_Generator_v2.py:139-154 | building one array element raises exactly when the recursive definition raises; otherwise it returns its object and leaves the global flag as the definition says |
| GeneratorV2.BuildSubField | Idoc_Simulator/Archives/scripts/BYDM_Generator_v2.py:140-154 | one sub-field of an array element, matching the recursive definition: skipped if the nested mapping does not name it, otherwise transformed and validated; a rejection clears the flag, and a value that is not None goes under the last key of its target |
| GeneratorV2.SegmentFlagOnlyFalls | Idoc_Simulator/Archives/scripts/BYDM_Generator_v2.py:130-176 | parsing a segment never sets `validation_success` back to true |
| GeneratorV2.FieldFlagOnlyFalls | Idoc_Simulator/Archives/scripts/BYDM_Generator_v2.py:132-176 | parsing a field never sets the flag back to true |
| GeneratorV2.BuildObjFlag | Idoc_Simulator/Archives/scripts/BYDM_Generator_v2.py:139-154 | the object built from an array element does not depend on the flag, and the flag only falls |
| GeneratorV2.LeafRejected | Idoc_Simulator/Archives/scripts/BYDM_Generator_v2.py:164-172 | a rejected value is not written and clears the flag |
| GeneratorV2.LeafWritten | Idoc_Simulator/Archives/scripts/BYDM_Generator_v2.py:164-172 | an accepted, transformed value is read back at its target path |
| GeneratorV2.SkippedChildren | Idoc_Simulator/Archives/scripts/BYDM_Generator_v2.py:131-176 | children without a dict mapping leave document and flag unchanged |
| GeneratorV2.FanOutAppends | Idoc_Simulator/Archives/scripts/BYDM_Generator_v2.py:138-163 | repeated `isArray` elements append one object each, in document order, to the list at the target |
| GeneratorV2.FanOutDoc | Idoc_Simulator/Archives/scripts/BYDM_Generator_v2.py:138-163 | fanning out the remaining same-tag children appends one new object per child, in order, to the list at the target path |
| GeneratorV2.ArrayCreatesList | Idoc_Simulator/Archives/scripts/BYDM_Generator_v2.py:155-161 | the first array element creates the list holding its object |
| GeneratorV2.ArrayNonListUnchanged | Idoc_Simulator/Archives/scripts/BYDM_Generator_v2.py:157-163 | an array target holding a non-list leaves the document unchanged |
| GeneratorV2.ParseIdocSpec | Idoc_Simulator/Archives/scripts/BYDM_Generator_v2.py:178-198 | specification of the v2 `parse_idoc`: the template copy with `unmappedSegments` reset, mapped segments parsed into it and unmapped ones collected; UnmappedCollected states its behaviour |
| GeneratorV2.ParseIdoc | Idoc_Simulator/Archives/scripts/BYDM_Generator_v2.py:178-198 | the imperative `parse_idoc` returns exactly the document and flag of its specification, or its exception |
| GeneratorV2.UnmappedCollected | Idoc_Simulator/Archives/scripts/BYDM_Generator_v2.py:184-193 | with no segment mapped, the output is the template plus every segment under `unmappedSegments`, in order |
| GeneratorV2.UnmappedFrom | Idoc_Simulator/Archives/scripts/BYDM_Generator_v2.py:185-193 | the loop from any point on completes that collection |
| GeneratorV2.SeedTemplate | Idoc_Simulator/Archives/scripts/BYDM_Generator_v2.py:210-211 | a template gets a `location` of `[{}]` exactly when it lacks a truthy one, and is otherwise unchanged |
| GeneratorV2.SeedLocation | Idoc_Simulator/Archives/scripts/BYDM_Generator_v2.py:211 | the seeded template holds `[{}]` under `location` |
| GeneratorV2.Run | Idoc_Simulator/Archives/scripts/BYDM_Generator_v2.py:200-222 | a document is emitted exactly when the parse of the seeded template succeeds with the flag still true, and it is that parse's document; a cleared flag emits nothing; the run raises exactly when seeding or parsing raises |
| GeneratorV1.SegmentV1 | Idoc_Simulator/Archives/scripts/BYDM_Generator_v1.py:83-115 | specification of the v1 `parse_segment` loop, recursing into nested mappings; SegmentV1FlagOnlyFalls and SkippedChildrenV1 state its behaviour |
| GeneratorV1.LeafV1 | Idoc_Simulator/Archives/scripts/BYDM_Generator_v1.py:101-109 | specification of a v1 leaf: transform, validate, clear the flag on rejection, and write through the v1 writer unless None; LeafV1Written and LeafV1Rejected state its behaviour |
| GeneratorV1.ParseSegmentV1 | Idoc_Simulator/Archives/scripts/BYDM_Generator_v1.py:83-115 | the imperative segment parser matches its specification |
| GeneratorV1.ParseFieldV1 | Idoc_Simulator/Archives/scripts/BYDM_Generator_v1.py:85-115 | one field's step matches its specification |
| GeneratorV1.ParseLeafV1 | Idoc_Simulator/Archives/scripts/BYDM_Generator_v1.py:101-109 | a leaf field's step matches its specification |
| GeneratorV1.SegmentV1FlagOnlyFalls | Idoc_Simulator/Archives/scripts/BYDM_Generator_v1.py:83-115 | parsing a segment never sets the flag back to true |
| GeneratorV1.FieldV1FlagOnlyFalls | Idoc_Simulator/Archives/scripts/BYDM_Generator_v1.py:85-115 | parsing a field never sets the flag back to true |
| GeneratorV1.LeafV1Rejected | Idoc_Simulator/Archives/scripts/BYDM_Generator_v1.py:101-109 | a rejected value is not written and clears the flag |
| GeneratorV1.LeafV1Written | Idoc_Simulator/Archives/scripts/BYDM_Generator_v1.py:101-109 | an accepted value is read back at its target when the v1 writer completes |
| GeneratorV1.SkippedChildrenV1 | Idoc_Simulator/Archives/scripts/BYDM_Generator_v1.py:85-115 | children without a dict mapping change nothing |
| GeneratorV1.ParseIdocV1Spec | Idoc_Simulator/Archives/scripts/BYDM_Generator_v1.py:118-136 | the output is always a one-element list around the template |
| GeneratorV1.TopLevelV1 | Idoc_Simulator/Archives/scripts/BYDM_Generator_v1.py:125-130 | specification of the v1 loop over top-level segments: mapped ones parsed into the copy, others only logged; UnmappedFromV1 states its behaviour |
| GeneratorV1.ParseIdocV1 | Idoc_Simulator/Archives/scripts/BYDM_Generator_v1.py:118-136 | the imperative `parse_idoc` matches its specification |
| GeneratorV1.UnmappedSegmentsIgnored | Idoc_Simulator/Archives/scripts/BYDM_Generator_v1.py:127-130 | with no segment mapped, the output is the template alone and the flag is unchanged |
| GeneratorV1.UnmappedFromV1 | Idoc_Simulator/Archives/scripts/BYDM_Generator_v1.py:126-130 | unmapped segments from any point on change nothing |
| GeneratorV1.RunV1 | Idoc_Simulator/Archives/scripts/BYDM_Generator_v1.py:139-168 | a document is emitted exactly when the parse succeeds with the flag true, and nothing is emitted exactly when it succeeds with the flag false |
| Generator17Feb.SegmentMapping | Idoc_Simulator/scripts/Bydm_json_generator_17thFeb.py:82 | the segment's mapping is its configuration entry, or `{}` when there is none |
| Generator17Feb.Segment17 | Idoc_Simulator/scripts/Bydm_json_generator_17thFeb.py:81-102 | specification of the 17thFeb `parse_segment` over the children with the segment's own mapping; Fields17FlagOnlyFalls, NoTargetNotMapped and UnknownSegmentMapsNothing state its behaviour |
| Generator17Feb.Entry17 | Idoc_Simulator/scripts/Bydm_json_generator_17thFeb.py:84-102 | specification of one 17thFeb child: skipped without a mapping or target, otherwise transformed, validated and written unless None; Entry17Written and Entry17Rejected state its behaviour |
| Generator17Feb.ParseSegment17 | Idoc_Simulator/scripts/Bydm_json_generator_17thFeb.py:81-102 | the imperative segment parser matches its specification |
| Generator17Feb.MapField17 | Idoc_Simulator/scripts/Bydm_json_generator_17thFeb.py:84-102 | one child's step matches its specification |
| Generator17Feb.Fields17FlagOnlyFalls | Idoc_Simulator/scripts/Bydm_json_generator_17thFeb.py:81-102 | parsing a segment never sets the flag back to true |
| Generator17Feb.NoTargetNotMapped | Idoc_Simulator/scripts/Bydm_json_generator_17thFeb.py:97-102 | children that are unmapped or lack a `target` change nothing |
| Generator17Feb.UnknownSegmentMapsNothing | Idoc_Simulator/scripts/Bydm_json_generator_17thFeb.py:82 | a segment missing from the configuration changes nothing |
| Generator17Feb.Entry17Rejected | Idoc_Simulator/scripts/Bydm_json_generator_17thFeb.py:88-96 | a rejected value is not written and clears the flag |
| Generator17Feb.Entry17Written | Idoc_Simulator/scripts/Bydm_json_generator_17thFeb.py:88-96 | an accepted value is read back at its target when the writer completes |
| Generator17Feb.ParseIdoc17Spec | Idoc_Simulator/scripts/Bydm_json_generator_17thFeb.py:104-117 | the output is always a one-element list around the template |
| Generator17Feb.TopLevel17 | Idoc_Simulator/scripts/Bydm_json_generator_17thFeb.py:109-112 | specification of the 17thFeb loop over top-level segments, skipping unconfigured ones; SkippedFrom17 and OnlyMappedSegments state its behaviour |
| Generator17Feb.ParseIdoc17 | Idoc_Simulator/scripts/Bydm_json_generator_17thFeb.py:104-117 | the imperative `parse_idoc` matches its specification |
| Generator17Feb.OnlyMappedSegments | Idoc_Simulator/scripts/Bydm_json_generator_17thFeb.py:111-112 | with no segment mapped, the output is the template alone |
| Generator17Feb.SkippedFrom17 | Idoc_Simulator/scripts/Bydm_json_generator_17thFeb.py:110-112 | unmapped segments from any point on change nothing |
| Generator17Feb.Run17 | Idoc_Simulator/scripts/Bydm_json_generator_17thFeb.py:140-148 | output is written exactly when the parse succeeds with the flag true |
| Generator14Feb.Conditions | Idoc_Simulator/scripts/BYDM_Generator_14th_Feb.py:34 | `transformation_info.get("conditions", {})`: the conditions table, or `{}` when absent |
| Generator14Feb.Transform14 | Idoc_Simulator/scripts/BYDM_Generator_14th_Feb.py:24-42 | `UPPERCASE` upper-cases; `CONDITIONAL` looks the value up with a `default` fallback; `MAP` looks it up without one; anything else keeps the value |
| Generator14Feb.ConditionalWithoutDefaultIsMap | Idoc_Simulator/scripts/BYDM_Generator_14th_Feb.py:36-39 | without a `default` entry, `CONDITIONAL` and `MAP` agree |
| Generator14Feb.Validate14 | Idoc_Simulator/scripts/BYDM_Generator_14th_Feb.py:46-52 | passes the value unchanged or raises: `NUMBER` needs digits, `TEXT` needs a str, other rules pass everything |
| Generator14Feb.Segment14 | Idoc_Simulator/scripts/BYDM_Generator_14th_Feb.py:56-79 | specification of the 14th_Feb `parse_segment`: a fresh dict with nested segments collected into lists and mapped leaves under flat targets; NestedCollected and UnmappedLeavesEmpty state its behaviour |
| Generator14Feb.ParseSegment14 | Idoc_Simulator/scripts/BYDM_Generator_14th_Feb.py:56-79 | the imperative segment parser returns exactly its specification's dict or exception |
| Generator14Feb.Leaf14 | Idoc_Simulator/scripts/BYDM_Generator_14th_Feb.py:65-78 | specification of one leaf of the 14th_Feb parser; Leaf14Written, Leaf14Rejected and LaterLeafWins state its behaviour |
| Generator14Feb.MapLeaf14 | Idoc_Simulator/scripts/BYDM_Generator_14th_Feb.py:65-78 | the leaf step of the loop does what its specification does, exceptions included; Leaf14Written, Leaf14Rejected and LaterLeafWins state what that is |
| Generator14Feb.Leaf14Written | Idoc_Simulator/scripts/BYDM_Generator_14th_Feb.py:66-75 | a mapped leaf whose value survives transformation and validation is stored under its flat `target` key and reads back there |
| Generator14Feb.Leaf14Rejected | Idoc_Simulator/scripts/BYDM_Generator_14th_Feb.py:73-74 | a leaf whose value validates to None leaves the segment data unchanged |
| Generator14Feb.LaterLeafWins | Idoc_Simulator/scripts/BYDM_Generator_14th_Feb.py:59-75 | of two consecutive leaves with the same target, the later value replaces the earlier one in its place |
| Generator14Feb.ParseIdoc14Spec | Idoc_Simulator/scripts/BYDM_Generator_14th_Feb.py:82-98 | specification of the 14th_Feb `parse_idoc`: the output dict of per-tag lists; IdocCollects states its behaviour |
| Generator14Feb.Segments14 | Idoc_Simulator/scripts/BYDM_Generator_14th_Feb.py:87-93 | specification of the loop over top-level segments, dropping empty parses; CollectFrom and EmptySegmentOmitted state its behaviour |
| Generator14Feb.ParseIdoc14 | Idoc_Simulator/scripts/BYDM_Generator_14th_Feb.py:82-98 | the imperative `parse_idoc` matches its specification |
| Generator14Feb.Run14 | Idoc_Simulator/scripts/BYDM_Generator_14th_Feb.py:112-122 | output is written exactly when the parse succeeds, and nothing is written exactly on a `ValueError` |
| Generator14Feb.PutKeepsAllLists | Idoc_Simulator/scripts/BYDM_Generator_14th_Feb.py:89-93 | storing a list keeps every entry a list |
| Generator14Feb.AppendUnder | Idoc_Simulator/scripts/BYDM_Generator_14th_Feb.py:89-93 | appending under one tag extends that tag's list and leaves the others |
| Generator14Feb.IdocCollects | Idoc_Simulator/scripts/BYDM_Generator_14th_Feb.py:82-98 | each tag holds the list of its segments' non-empty parses, in document order |
| Generator14Feb.CollectFrom | Idoc_Simulator/scripts/BYDM_Generator_14th_Feb.py:87-93 | the segment loop from any point on completes those lists |
| Generator14Feb.NestedCollected | Idoc_Simulator/scripts/BYDM_Generator_14th_Feb.py:60-64 | each nested tag holds the list of its sub-segments' parses, in order |
| Generator14Feb.NestedFrom | Idoc_Simulator/scripts/BYDM_Generator_14th_Feb.py:59-64 | the field loop from any point on completes those lists |
| Generator14Feb.NestedStep | Idoc_Simulator/scripts/BYDM_Generator_14th_Feb.py:60-64 | one nested child appends its parse under its tag |
| Generator14Feb.SubsStep | Idoc_Simulator/scripts/BYDM_Generator_14th_Feb.py:60-64 | the nested parses of a prefix grow by exactly the next child's |
| Generator14Feb.UnmappedLeavesEmpty | Idoc_Simulator/scripts/BYDM_Generator_14th_Feb.py:77-79 | a segment of unmapped leaves parses to `{}` |
| Generator14Feb.EmptySegmentOmitted | Idoc_Simulator/scripts/BYDM_Generator_14th_Feb.py:90 | a segment that parses to `{}` is not added to the output |
| BaseGenerator.ApplyTransformations | Idoc_Simulator/scripts/BYDM_Generator.py:24-47 | a str config raises; a dict config renames to `target` (the field itself by default) and applies `uppercase` or `conditional_map` with its `""` fallback |
| BaseGenerator.CheckType | Idoc_Simulator/scripts/BYDM_Generator.py:41-46 | the value passes unchanged; a `number` needs digits and a `text` needs a str |
| BaseGenerator.PlainRename | Idoc_Simulator/scripts/BYDM_Generator.py:30-47 | a config with neither transformation nor validation only renames |
| BaseGenerator.FindChild | Idoc_Simulator/scripts/BYDM_Generator.py:65 | `segment.find(tag)` returns the first child with that tag (every earlier child has another tag), and none exactly when no child has it |
| BaseGenerator.FieldText | Idoc_Simulator/scripts/BYDM_Generator.py:65-66 | a field's value is the stripped text of its first element, or `""` |
| BaseGenerator.FileOutput | Idoc_Simulator/scripts/BYDM_Generator.py:57-79 | a file without data segments writes nothing, and a written file holds one record per segment |
| BaseGenerator.RecordsLength | Idoc_Simulator/scripts/BYDM_Generator.py:61-71 | the segment loop adds exactly one record per segment |
| BaseGenerator.RecordFrom | Idoc_Simulator/scripts/BYDM_Generator.py:64-69 | specification of the loop that builds one record from the configured fields; RecordHasTargets, KeysStay, LastWriteStored and RenameConfigRaises state its behaviour |
| BaseGenerator.BuildRecord | Idoc_Simulator/scripts/BYDM_Generator.py:63-69 | the imperative record loop matches its specification |
| BaseGenerator.Records | Idoc_Simulator/scripts/BYDM_Generator.py:62-71 | specification of the loop over the data segments, one record each; RecordsLength and FileOutput state its behaviour |
| BaseGenerator.ProcessSegments | Idoc_Simulator/scripts/BYDM_Generator.py:61-71 | the imperative segment loop matches its specification |
| BaseGenerator.RecordHasTargets | Idoc_Simulator/scripts/BYDM_Generator.py:63-69 | every configured field's target is a key of its segment's record |
| BaseGenerator.KeysStay | Idoc_Simulator/scripts/BYDM_Generator.py:69 | a key once written stays in the record |
| BaseGenerator.UnwrittenKeyKept | Idoc_Simulator/scripts/BYDM_Generator.py:64-69 | a key that no remaining field is stored under keeps the entry it already had in the record |
| BaseGenerator.LastWriteStored | Idoc_Simulator/scripts/BYDM_Generator.py:64-69 | under the key of each configured field the record holds that field's transformed value, when no later field uses the same key: the last assignment wins |
| BaseGenerator.RenameConfigRaises | Idoc_Simulator/scripts/BYDM_Generator.py:26-41 | a plain-str config makes the record raise |
| BaseGenerator.RenameConfigNoOutput | Idoc_Simulator/scripts/BYDM_Generator.py:26-79 | so a file with any segment and a str config is not written |
| ServicePath.WriteSvc | sap-bydm-transformer/app/services/transform_service.py:194-251 | specification of the service `_set_nested_value`, with `keys[i-1]` passed along: the written document or the exception; WriteSvcThenGet, FreshStraight, FinalIndexLost, IndexIntoDictLost, ScalarReplaced and PreviousKeyOverwritten state its behaviour |
| ServicePath.SvcChild | sap-bydm-transformer/app/services/transform_service.py:224-233 | a key's existing list or dict is kept, and anything else is replaced by the container the next part calls for |
| ServicePath.StepSvc | sap-bydm-transformer/app/services/transform_service.py:206-233 | one imperative descent step keeps the overall result that the specification gives, or raises its exception |
| ServicePath.FinalSvc | sap-bydm-transformer/app/services/transform_service.py:235-251 | the imperative final step matches its specification |
| ServicePath.SetNestedValueSvc | sap-bydm-transformer/app/services/transform_service.py:194-251 | the imperative writer leaves exactly the document its specification gives, or raises its exception |
| ServicePath.WriteSvcThenGet | sap-bydm-transformer/app/services/transform_service.py:194-251 | a write along a path that meets no lost index is read back on that path |
| ServicePath.FreshStraight | sap-bydm-transformer/app/services/transform_service.py:224-233 | a path through fresh containers reads back exactly when it holds no two adjacent indices |
| ServicePath.EmptyDictReadsBack | sap-bydm-transformer/app/services/transform_service.py:194-251 | a key-first path without adjacent indices written into `{}` reads back |
| ServicePath.FinalIndexLost | sap-bydm-transformer/app/services/transform_service.py:244-249 | a final index on a non-list drops the value and leaves the document unchanged |
| ServicePath.IndexIntoDictLost | sap-bydm-transformer/app/services/transform_service.py:224-249 | `key.0` onto an existing dict drops the value |
| ServicePath.ScalarReplaced | sap-bydm-transformer/app/services/transform_service.py:228-233 | a scalar on the path is replaced by a new container holding the value |
| ServicePath.PreviousKeyOverwritten | sap-bydm-transformer/app/services/transform_service.py:209-222 | an index on a dict makes a list under the previous key of that dict, overwriting what was there |
| ServicePath.FirstIndexUsesLastKey | sap-bydm-transformer/app/services/transform_service.py:203-222 | a leading index on a dict files the list under the path's last key |
| XmlParser.Walk | sap-bydm-transformer/app/utils/xml_parser.py:37-44 | specification of the cursor loop shared by both readers: None once a part is missing or the value cannot be indexed by a str; WalkThroughDicts, WalkNest and WalkConcat state its behaviour |
| XmlParser.WalkThroughDicts | sap-bydm-transformer/app/utils/xml_parser.py:37-44 | a walk only passes through dicts holding the next part |
| XmlParser.WalkNest | sap-bydm-transformer/app/utils/xml_parser.py:37-44 | a walk finds what was nested along its path |
| XmlParser.WalkConcat | sap-bydm-transformer/app/utils/xml_parser.py:37-44 | a walk along `p + q` is a walk along `p` then one along `q` |
| XmlParser.ExtractSegments | sap-bydm-transformer/app/utils/xml_parser.py:24-56 | nothing when the path is missing; otherwise the list found, or the dict found as a one-element list |
| XmlParser.ExtractFound | sap-bydm-transformer/app/utils/xml_parser.py:47-53 | a list is returned as is, a dict alone, and anything else as nothing |
| XmlParser.ExtractNested | sap-bydm-transformer/app/utils/xml_parser.py:24-56 | a dict or list nested at the path is extracted whole, and a scalar gives nothing |
| XmlParser.ExtractFromNonDict | sap-bydm-transformer/app/utils/xml_parser.py:54-56 | a document that is not a dict holds no segment |
| XmlParser.GetFieldValue | sap-bydm-transformer/app/utils/xml_parser.py:58-86 | `None` when missing or `None`, the `#text` of an element with attributes, else `str()` of the value |
| XmlParser.FieldNested | sap-bydm-transformer/app/utils/xml_parser.py:74-83 | a str nested at the path reads back, bare or as `#text` |
| TransformService.ApplyTransformationSvc | sap-bydm-transformer/app/services/transform_service.py:144-162 | a falsy rule keeps the value, a non-dict one raises, and `MAP` looks `str(value)` up in `values` |
| TransformService.TransformationIdentityOrEntry | sap-bydm-transformer/app/services/transform_service.py:155-162 | every result is the value or an entry of `values` |
| TransformService.NumberRuleIsDecimal | sap-bydm-transformer/app/services/transform_service.py:184 | the `replace('.', '', 1).isdigit()` test accepts exactly digit strings with at most one dot |
| TransformService.ValidateField | sap-bydm-transformer/app/services/transform_service.py:164-192 | `None`/`""` give `None`; a non-str rule raises; `NUMBER` keeps exactly decimals and `TEXT` exactly non-blank values, stripped; other rules strip |
| TransformService.ValidateIdempotent | sap-bydm-transformer/app/services/transform_service.py:164-192 | validating an accepted non-empty value again gives it back |
| TransformService.DecimalAccepted | sap-bydm-transformer/app/services/transform_service.py:184 | `12.5`, `12.`, `.5` and `007` pass the number rule: digits with at most one decimal point |
| TransformService.DecimalRejected | sap-bydm-transformer/app/services/transform_service.py:184 | `1.2.3`, `-5`, `.` and the empty string fail the number rule: a second point, a sign, or no digit at all |
| TransformService.RuleExamples | sap-bydm-transformer/app/services/transform_service.py:176-192 | rules match case-insensitively; `-5` fails `NUMBER` and blank fails `TEXT` |
| TransformService.Incoming | sap-bydm-transformer/app/services/transform_service.py:115-123 | `#text` is unwrapped, and a falsy value other than `False` is replaced by `default_value` (or `""`) |
| TransformService.WriteTarget | sap-bydm-transformer/app/services/transform_service.py:137 | a non-str target raises, and a str one writes along its dotted path |
| TransformService.LeafValue | sap-bydm-transformer/app/services/transform_service.py:113-134 | specification of the value a field with `target` contributes: `#text` unwrapped, default taken, transformed and validated, or the exception; TextUnwrapped, DefaultUsed and FalseNotDefaulted state its behaviour |
| TransformService.ProcessLeaf | sap-bydm-transformer/app/services/transform_service.py:113-137 | the imperative leaf step matches its specification |
| TransformService.PutLeaf | sap-bydm-transformer/app/services/transform_service.py:136-137 | a leaf value that is not None is written at its target in place; None leaves the output untouched; an exception raised while computing the value escapes with the document unchanged |
| TransformService.FieldSvc | sap-bydm-transformer/app/services/transform_service.py:112-142 | specification of one mapping entry: a field with `target`, a nested mapping applied to the non-empty segment of the same name, or nothing; EmptyNestedSkipped, NestedMapped and RejectedNotWritten state its behaviour |
| TransformService.ProcessField | sap-bydm-transformer/app/services/transform_service.py:112-142 | the imperative field step matches its specification |
| TransformService.SegmentSvc | sap-bydm-transformer/app/services/transform_service.py:101-142 | specification of `_process_segment`: the output after every entry, or the exception that escapes |
| TransformService.ProcessSegment | sap-bydm-transformer/app/services/transform_service.py:101-142 | the imperative `_process_segment` matches its specification |
| TransformService.MappingSvc | sap-bydm-transformer/app/services/transform_service.py:76-99 | specification of `_apply_mapping`: every configured segment found in the XML processed in order; NothingFound and NotFoundSkipped state the behaviour of its loop over the segments |
| TransformService.ApplyMapping | sap-bydm-transformer/app/services/transform_service.py:86-99 | the imperative `_apply_mapping` matches its specification |
| TransformService.TextUnwrapped | sap-bydm-transformer/app/services/transform_service.py:118-119 | an element with attributes contributes its `#text` |
| TransformService.DefaultUsed | sap-bydm-transformer/app/services/transform_service.py:121-123 | a missing or empty field takes `default_value` |
| TransformService.FalseNotDefaulted | sap-bydm-transformer/app/services/transform_service.py:121 | `False` is kept, because `False != 0` is false |
| TransformService.RejectedNotWritten | sap-bydm-transformer/app/services/transform_service.py:136-137 | a value validated to `None` leaves the output unchanged |
| TransformService.LeafReadsBack | sap-bydm-transformer/app/services/transform_service.py:113-137 | an accepted value reads back at its target on a clean path |
| TransformService.EmptyNestedSkipped | sap-bydm-transformer/app/services/transform_service.py:138-142 | a missing or empty nested segment changes nothing |
| TransformService.NestedMapped | sap-bydm-transformer/app/services/transform_service.py:138-142 | a present nested segment is processed with its own mapping |
| TransformService.NotFoundSkipped | sap-bydm-transformer/app/services/transform_service.py:91-95 | a configured segment missing from the XML is skipped |
| TransformService.NothingFound | sap-bydm-transformer/app/services/transform_service.py:86-99 | when no configured segment is found, the output is unchanged |
| MappingParser.RuleLines | sap-bydm-transformer/app/utils/mapping_parser.py:95 | the stripped rule text splits into at least one line |
| MappingParser.ParsedRule | sap-bydm-transformer/app/utils/mapping_parser.py:79-102 | an empty rule parses to an empty table |
| MappingParser.ParseTransformationRule | sap-bydm-transformer/app/utils/mapping_parser.py:79-102 | the imperative line loop matches its specification |
| MappingParser.TableValuesAreStrings | sap-bydm-transformer/app/utils/mapping_parser.py:95-98 | every table value is a str |
| MappingParser.TableFrom | sap-bydm-transformer/app/utils/mapping_parser.py:95-98 | specification of the line loop of `parse_transformation_rule`; LastLineWins, KeyKept, KeysFromLines and TableValuesAreStrings state its behaviour |
| MappingParser.LastLineWins | sap-bydm-transformer/app/utils/mapping_parser.py:95-98 | a key maps to the value of its last line |
| MappingParser.KeyKept | sap-bydm-transformer/app/utils/mapping_parser.py:95-98 | a key no later line names keeps its entry |
| MappingParser.KeysFromLines | sap-bydm-transformer/app/utils/mapping_parser.py:95-98 | every key comes from a line holding `:` |
| MappingParser.ParsedRuleLines | sap-bydm-transformer/app/utils/mapping_parser.py:89-98 | every key of a parsed rule comes from one of its lines |
| MappingParser.ParsedRuleLastWins | sap-bydm-transformer/app/utils/mapping_parser.py:89-98 | each key of a parsed rule holds its last line's stripped value |
| MappingParser.RuleEntryKeys | sap-bydm-transformer/app/utils/mapping_parser.py:136-151 | the entry holds target and validation, holds `default_value` exactly when it is truthy, and holds a `MAP` exactly when the rule parses to a non-empty table |
| MappingParser.InsertStep | sap-bydm-transformer/app/utils/mapping_parser.py:154-161 | one descent step of the nested insertion |
| MappingParser.InsertAt | sap-bydm-transformer/app/utils/mapping_parser.py:154-164 | specification of the cursor loop that places a field rule under its nested path; InsertThenWalk, InsertKeepsDict and InsertThroughScalarRaises state its behaviour |
| MappingParser.InsertRule | sap-bydm-transformer/app/utils/mapping_parser.py:154-164 | the imperative insertion matches its specification |
| MappingParser.RuleStep | sap-bydm-transformer/app/utils/mapping_parser.py:116-164 | specification of one rule of `convert_mapping_to_json`; RuleFoundAtSource, RuleStepKeepsDicts and SinglePartRegistersSegment state its behaviour |
| MappingParser.AddRule | sap-bydm-transformer/app/utils/mapping_parser.py:116-164 | the imperative per-rule step matches its specification |
| MappingParser.Converted | sap-bydm-transformer/app/utils/mapping_parser.py:104-166 | specification of `convert_mapping_to_json`: the mapping configuration or the exception; ConvertedShape states its behaviour |
| MappingParser.ConvertMappingToJson | sap-bydm-transformer/app/utils/mapping_parser.py:104-166 | the imperative conversion matches its specification |
| MappingParser.InsertKeepsDict | sap-bydm-transformer/app/utils/mapping_parser.py:154-164 | insertion keeps a segment a dict |
| MappingParser.PutKeepsAllDicts | sap-bydm-transformer/app/utils/mapping_parser.py:118-127 | registering a dict keeps every segment a dict |
| MappingParser.ConvertedShape | sap-bydm-transformer/app/utils/mapping_parser.py:104-166 | every segment of the converted mapping is a dict |
| MappingParser.RuleStepKeepsDicts | sap-bydm-transformer/app/utils/mapping_parser.py:116-164 | adding one rule keeps every segment entry of the configuration a dict |
| MappingParser.InsertThenWalk | sap-bydm-transformer/app/utils/mapping_parser.py:154-164 | an inserted entry is found by walking its path and field |
| MappingParser.RuleFoundAtSource | sap-bydm-transformer/app/utils/mapping_parser.py:116-164 | a rule's entry is found by the xml-parser walk along its source path |
| MappingParser.SinglePartRegistersSegment | sap-bydm-transformer/app/utils/mapping_parser.py:118-127 | a one-part source only registers its segment |
| MappingParser.InsertThroughScalarRaises | sap-bydm-transformer/app/utils/mapping_parser.py:154-161 | inserting through an existing rule entry's scalar raises |

## Left out

- File, YAML and Excel loading, `json.dump`, logging and `print` are left out. The XML element tree is a parameter (`Idoc.Element`), and the `xmltodict` document is a `Json` value.
- `ET.parse` and `findall` are left out. The base generator's `.//E1KNA1M[@SEGMENT='1']` filter is taken as already applied: the data segments are a parameter.
- The storage service, `process_file`, `batch_process` and the HTTP endpoints are left out. They do I/O and run documents concurrently.
- `load_mapping_from_excel` is left out. It reads a spreadsheet through pandas. `MappingParser.MappingRule` therefore omits `is_mandatory`, which no mapping step reads, and `pd.isna` on a rule text.
- JSON numbers and floats are not represented, so numeric configuration values cannot be expressed. These include a value of a `MAP` table, of a 14th_Feb `conditions` table or of a base `conditional_map`, and the service's `default_value`. The model therefore does not capture what the code does with such a number:
  - the scripts' `NUMBER` rule raises AttributeError when it calls `.isdigit()` on a numeric result, and their `TEXT` rule rejects a number (Idoc_Simulator/scripts/BYDM_Generator_14th_Feb.py:47, Idoc_Simulator/scripts/BYDM_Generator.py:43, and `validate_data` in the v1, v2 and 17thFeb scripts);
  - the service skips the transformation when `default_value` is 0, because it tests truthiness (sap-bydm-transformer/app/services/transform_service.py:127);
  - the service converts a number with `str()` for the `MAP` lookup and for validation (transform_service.py:160 and 180).
- `isdigit` and `upper` are modelled on ASCII digits and letters. `strip` uses Python's full whitespace set. `str()` is exact only for str and `None`.
- `template.copy()` is shallow in Python, so the caller's template shares its nested containers. The model works on values, so this aliasing is not captured.
- PathV1.WriteV1: a final digit key on a dict is first stored as a str key. The second pass then raises AttributeError exactly where Python's missing `append` on a dict would, when the dict has at most that many entries. Otherwise Python also stores the value under the int key; the model has only str keys and drops that second write.
- Json.KeyOf: `None` and boolean targets become the keys `json.dump` would print (`null`, `true`, `false`). Python keeps them apart from the str keys `"null"`, `"true"` and `"false"`; the model merges each pair into one key.
- After an exception the scripts re-raise or discard the partial document, so the specification functions say nothing about it.
- TransformService.ValidateIdempotent: excludes a value that validates to `""`. Under a custom rule a blank value validates to `""`, and `""` then validates to `None`.
- A path type clash is not always a skipped write: v2 keeps the containers it made, v1 stops, and the service drops the value or coerces the container.
- The scripts' `TEXT` rule accepts an empty str.
- The service keeps no document-level validation flag.
