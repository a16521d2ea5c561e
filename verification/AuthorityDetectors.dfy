/**
 The two authority detectors over JSON documents: forbidden vocabulary (scripts/authority_leak_rules.py)
 and authority shapes (scripts/authority_shape_detector.py).
 */
module AuthorityDetectors {
  import opened Text
  import opened Json

  // --------------------------------------------------------------------------- scope

  /** The parts of the authority registry both detectors read; an absent or malformed section is empty. */
  datatype Registry = Registry(
    scoped: bool,                                  // forbidden_contexts is an object
    scopePrefixes: seq<string>,
    excludedPrefixes: seq<string>,
    ownerPrefixes: set<string>,
    allowedFields: seq<(string, set<string>)>,     // vocabulary_overrides: path prefix, tokens
    allowedValues: seq<(string, set<string>)>)

  function Slashed(path: string): string { Replace(path, '\\', '/') }

  /** `_normalize`: forward slashes, and relative to the repository root. */
  function NormalizePath(root: string, path: string): string {
    var raw, prefix := Slashed(path), Slashed(root) + "/";
    if StartsWith(raw, prefix) then raw[|prefix|..] else raw
  }

  /** `_matches_scope_entry` */
  predicate MatchesEntry(root: string, path: string, entry: string) {
    var e := Strip(NormalizePath(root, entry));
    e != "" &&
    if EndsWith(e, "/") then StartsWith(path, StripChar(e, '/') + "/") else path == StripChar(e, '/')
  }

  predicate Declared(entry: string) { Strip(entry) != "" }

  predicate WithinScope(root: string, path: string, r: Registry) {
    var inScope := exists e :: e in r.scopePrefixes && Declared(e) && MatchesEntry(root, path, e);
    var excluded := exists e :: e in r.excludedPrefixes && Declared(e) && MatchesEntry(root, path, e);
    !r.scoped || (((forall e :: e in r.scopePrefixes ==> !Declared(e)) || inScope) && !excluded)
  }

  /** `_in_forbidden_context_scope`, as each detector has it. */
  predicate LeakInScope(root: string, rel: string, r: Registry) {
    WithinScope(root, LeakPath(root, rel), r)
  }

  predicate ShapeInScope(root: string, rel: string, r: Registry) {
    WithinScope(root, ShapePath(rel), r)
  }

  predicate IsOwner(root: string, rel: string, r: Registry) {
    exists p :: p in r.ownerPrefixes && MatchesEntry(root, StripChar(NormalizePath(root, rel), '/'), p)
  }

  lemma SlashedTwice(path: string)
    ensures Slashed(Slashed(path)) == Slashed(path)
  {
  }

  lemma SlashedTail(path: string, n: nat)
    requires n <= |path|
    ensures Slashed(path[n..]) == Slashed(path)[n..]
  {
  }

  /** Both detectors scan the same files, except a path that still starts with the root once made relative to it. */
  lemma SameScope(root: string, path: string, r: Registry)
    requires var rel := NormalizePath(root, path); !StartsWith(rel, Slashed(root) + "/")
    ensures var rel := NormalizePath(root, path); LeakInScope(root, rel, r) == ShapeInScope(root, rel, r)
  {
    RelativeIsSlashed(root, path);
  }

  /** The path each detector looks up in the scope lists. */
  function LeakPath(root: string, rel: string): string { StripChar(NormalizePath(root, rel), '/') }

  function ShapePath(rel: string): string { StripChar(Slashed(rel), '/') }

  /** The characters of a text other than c. */
  function Others(s: string, c: char): nat {
    if s == [] then 0 else (if s[0] == c then 0 else 1) + Others(s[1..], c)
  }

  lemma {:induction false} OthersAppend(a: string, b: string, c: char)
    ensures Others(a + b, c) == Others(a, c) + Others(b, c)
  {
    if a == [] { assert a + b == b; } else {
      assert (a + b)[1..] == a[1..] + b;
      OthersAppend(a[1..], b, c);
    }
  }

  lemma {:induction false} DropsKeepOthers(s: string, c: char, drop: char -> bool)
    requires forall x :: drop(x) <==> x == c
    ensures Others(DropLeft(s, drop), c) == Others(s, c) == Others(DropRight(s, drop), c)
    decreases |s|
  {
    if s != [] {
      DropsKeepOthers(s[1..], c, drop);
      DropsKeepOthers(s[..|s| - 1], c, drop);
      OthersAppend(s[..|s| - 1], [s[|s| - 1]], c);
      assert s == s[..|s| - 1] + [s[|s| - 1]] && [s[|s| - 1]][1..] == [];
    }
  }

  lemma StripKeepsOthers(s: string, c: char)
    ensures Others(StripChar(s, c), c) == Others(s, c)
  {
    var drop := (x: char) => x == c;
    DropsKeepOthers(s, c, drop);
    DropsKeepOthers(DropLeft(s, drop), c, drop);
    assert StripChar(s, c) == DropRight(DropLeft(s, drop), drop);
  }

  lemma {:induction false} HasOther(s: string, c: char, x: char)
    requires x in s && x != c
    ensures Others(s, c) > 0
  {
    if s[0] != x { HasOther(s[1..], c, x); }
  }

  /** For a root that is not made of slashes only, the detectors look up the same path exactly when the path, once made
      relative to the root, does not start with it again. */
  lemma SamePathIff(root: string, path: string, x: char)
    requires x in Slashed(root) && x != '/'
    ensures var rel := NormalizePath(root, path);
            LeakPath(root, rel) == ShapePath(rel) <==> !StartsWith(rel, Slashed(root) + "/")
  {
    var prefix, rel := Slashed(root) + "/", NormalizePath(root, path);
    RelativeIsSlashed(root, path);
    if StartsWith(rel, prefix) {
      var rest := rel[|prefix|..];
      assert rel == prefix + rest;
      OthersAppend(prefix, rest, '/');
      HasOther(prefix, '/', x);
      StripKeepsOthers(rel, '/');
      StripKeepsOthers(rest, '/');
    }
  }

  lemma RelativeIsSlashed(root: string, path: string)
    ensures Slashed(NormalizePath(root, path)) == NormalizePath(root, path)
  {
    var raw, prefix := Slashed(path), Slashed(root) + "/";
    SlashedTwice(path);
    if StartsWith(raw, prefix) { SlashedTail(raw, |prefix|); }
  }

  lemma RelativePath(root: string, rest: string)
    requires Slashed(root) == root && Slashed(rest) == rest
    ensures NormalizePath(root, root + "/" + rest) == rest
  {
    var prefix, path := root + "/", root + "/" + rest;
    assert Slashed(path) == path && path[..|prefix|] == prefix && path[|prefix|..] == rest;
  }

  lemma StripNothing(s: string, drop: char -> bool)
    requires s != [] && !drop(s[0]) && !drop(s[|s| - 1])
    ensures DropRight(DropLeft(s, drop), drop) == s
  {
  }

  lemma StripOneSlash(s: string)
    requires s != [] && s[0] != '/' && s[|s| - 1] != '/'
    ensures StripChar("/" + s, '/') == s == StripChar(s, '/')
  {
    var drop := (x: char) => x == '/';
    assert ("/" + s)[1..] == s;
    assert DropLeft("/" + s, drop) == DropLeft(s, drop);
    StripNothing(s, drop);
    assert StripChar("/" + s, '/') == DropRight(DropLeft("/" + s, drop), drop);
    assert StripChar(s, '/') == DropRight(DropLeft(s, drop), drop);
  }

  lemma OneCharEntry(root: string, path: string, c: char)
    requires c != '/' && c != '\\' && !IsSpace(c) && root != ""
    ensures MatchesEntry(root, path, [c]) <==> path == [c]
    ensures Declared([c])
  {
    assert Slashed([c]) == [c] && NormalizePath(root, [c]) == [c];
    assert Strip([c]) == [c] && StripChar([c], '/') == [c] && !EndsWith([c], "/");
  }

  /** A file `x` in a directory under the root whose name is a backslash and the root's own name again. */
  function TwicePrefixed(r: char, x: char): string { ['/', r, '/', '\\', r, '/', x] }

  /** Whatever the one-letter names, the scopes differ on such a file: with `x` in scope the vocabulary scanner looks at
      it and the shape detector does not. */
  lemma ScopesDiffer(r: char, x: char)
    requires r != '/' && r != '\\' && x != '/' && x != '\\' && !IsSpace(x)
    ensures var registry := Registry(true, [[x]], [], {}, [], []);
            var rel := NormalizePath(['/', r], TwicePrefixed(r, x));
            LeakInScope(['/', r], rel, registry) && !ShapeInScope(['/', r], rel, registry)
  {
    var root, registry := ['/', r], Registry(true, [[x]], [], {}, [], []);
    TwiceRelative(r, x);
    OneCharEntry(root, [x], x);
    OneCharEntry(root, [r, '/', x], x);
    assert [x] in registry.scopePrefixes;
  }

  lemma TwiceRelative(r: char, x: char)
    requires r != '/' && r != '\\' && x != '/' && x != '\\'
    ensures var rel := NormalizePath(['/', r], TwicePrefixed(r, x));
            LeakPath(['/', r], rel) == [x] && ShapePath(rel) == [r, '/', x]
  {
    var root, again := ['/', r], ['/', r, '/', x];
    assert Slashed(TwicePrefixed(r, x)) == root + "/" + again;
    assert Slashed(root) == root && Slashed(again) == again && Slashed([x]) == [x];
    RelativePath(root, again);
    RelativeOfSlashed(root, TwicePrefixed(r, x));
    assert again == root + "/" + [x];
    RelativePath(root, [x]);
    assert again == "/" + [r, '/', x];
    StripOneSlash([r, '/', x]);
    StripOneSlash([x]);
  }

  lemma RelativeOfSlashed(root: string, path: string)
    ensures NormalizePath(root, path) == NormalizePath(root, Slashed(path))
  {
    SlashedTwice(path);
  }

  // ---------------------------------------------------------------------- vocabulary

  const FORBIDDEN_FIELDS: set<string> :=
    {"decision", "enforcement_action", "certification_status", "certified", "promoted", "promotion_ready"}

  const FORBIDDEN_VALUES: set<string> := {"allow", "block", "freeze", "promote"}

  function Token(lower: string -> string, text: string): string { lower(Strip(text)) }

  /** `_extract_json_keys_and_values`; every line number is 1. */
  function Keys(lower: string -> string, j: Json): seq<string> {
    match j
    case Obj(fields) => FieldKeys(lower, fields)
    case Arr(items) => ItemKeys(lower, items)
    case _ => []
  }

  function FieldKeys(lower: string -> string, fields: seq<Field>): seq<string> {
    if fields == [] then []
    else [Token(lower, fields[0].key)] + Keys(lower, fields[0].value) + FieldKeys(lower, fields[1..])
  }

  function ItemKeys(lower: string -> string, items: seq<Json>): seq<string> {
    if items == [] then [] else Keys(lower, items[0]) + ItemKeys(lower, items[1..])
  }

  function Values(lower: string -> string, j: Json): seq<string> {
    match j
    case Obj(fields) => FieldValues(lower, fields)
    case Arr(items) => ItemValues(lower, items)
    case Str(s) => [Token(lower, s)]
    case _ => []
  }

  function FieldValues(lower: string -> string, fields: seq<Field>): seq<string> {
    if fields == [] then [] else Values(lower, fields[0].value) + FieldValues(lower, fields[1..])
  }

  function ItemValues(lower: string -> string, items: seq<Json>): seq<string> {
    if items == [] then [] else Values(lower, items[0]) + ItemValues(lower, items[1..])
  }

  /** `_get_override_set` for tokens already stripped and lowered; it normalises the path once more. */
  function Overrides(table: seq<(string, set<string>)>, root: string, rel: string): set<string> {
    set k, t | 0 <= k < |table| && StartsWith(NormalizePath(root, rel), table[k].0) && t in table[k].1 :: t
  }

  datatype Violation = ForbiddenField(token: string) | ForbiddenValue(token: string)

  function Tokens(texts: seq<string>, forbidden: set<string>, allowed: set<string>): seq<string> {
    if texts == [] then []
    else
      var last := texts[|texts| - 1];
      Tokens(texts[..|texts| - 1], forbidden, allowed) + (if last in forbidden && last !in allowed then [last] else [])
  }

  function Scanned(root: string, path: string, r: Registry): bool {
    LeakInScope(root, NormalizePath(root, path), r) && !IsOwner(root, NormalizePath(root, path), r)
  }

  /** `find_forbidden_vocabulary` on a JSON document: the fields, then the values, in document order. */
  method FindForbiddenVocabulary(lower: string -> string, root: string, path: string, r: Registry, doc: Json)
    returns (violations: seq<Violation>)
    ensures violations == VocabularyOf(lower, root, path, r, doc)
  {
    var rel := NormalizePath(root, path);
    if !LeakInScope(root, rel, r) || IsOwner(root, rel, r) { return []; }
    var fields := FlagFields(Keys(lower, doc), FORBIDDEN_FIELDS, Overrides(r.allowedFields, root, rel));
    var values := FlagValues(Values(lower, doc), FORBIDDEN_VALUES, Overrides(r.allowedValues, root, rel));
    violations := fields + values;
  }

  method FlagFields(keys: seq<string>, forbidden: set<string>, overrides: set<string>)
    returns (violations: seq<Violation>)
    ensures violations == FieldViolations(Tokens(keys, forbidden, overrides))
  {
    violations := [];
    for i := 0 to |keys|
      invariant violations == FieldViolations(Tokens(keys[..i], forbidden, overrides))
    {
      assert keys[..i + 1][..i] == keys[..i];
      if keys[i] in forbidden && keys[i] !in overrides { violations := violations + [ForbiddenField(keys[i])]; }
    }
    assert keys[..|keys|] == keys;
  }

  method FlagValues(values: seq<string>, forbidden: set<string>, overrides: set<string>)
    returns (violations: seq<Violation>)
    ensures violations == ValueViolations(Tokens(values, forbidden, overrides))
  {
    violations := [];
    for i := 0 to |values|
      invariant violations == ValueViolations(Tokens(values[..i], forbidden, overrides))
    {
      assert values[..i + 1][..i] == values[..i];
      if values[i] in forbidden && values[i] !in overrides { violations := violations + [ForbiddenValue(values[i])]; }
    }
    assert values[..|values|] == values;
  }

  function FieldViolations(tokens: seq<string>): seq<Violation> {
    seq(|tokens|, i requires 0 <= i < |tokens| => ForbiddenField(tokens[i]))
  }

  function ValueViolations(tokens: seq<string>): seq<Violation> {
    seq(|tokens|, i requires 0 <= i < |tokens| => ForbiddenValue(tokens[i]))
  }

  function VocabularyOf(lower: string -> string, root: string, path: string, r: Registry, doc: Json): seq<Violation> {
    if !Scanned(root, path, r) then []
    else
      var rel := NormalizePath(root, path);
      FieldViolations(Tokens(Keys(lower, doc), FORBIDDEN_FIELDS, Overrides(r.allowedFields, root, rel)))
      + ValueViolations(Tokens(Values(lower, doc), FORBIDDEN_VALUES, Overrides(r.allowedValues, root, rel)))
  }

  /** The occurrences, at any depth, of keys whose token is counted. */
  function KeyOccurrences(lower: string -> string, counted: set<string>, j: Json): nat {
    match j
    case Obj(fields) => FieldOccurrences(lower, counted, fields)
    case Arr(items) => ItemOccurrences(lower, counted, items)
    case _ => 0
  }

  function FieldOccurrences(lower: string -> string, counted: set<string>, fields: seq<Field>): nat {
    if fields == [] then 0
    else (if Token(lower, fields[0].key) in counted then 1 else 0) + KeyOccurrences(lower, counted, fields[0].value)
         + FieldOccurrences(lower, counted, fields[1..])
  }

  function ItemOccurrences(lower: string -> string, counted: set<string>, items: seq<Json>): nat {
    if items == [] then 0 else KeyOccurrences(lower, counted, items[0]) + ItemOccurrences(lower, counted, items[1..])
  }

  lemma {:induction false} TokensAppend(a: seq<string>, b: seq<string>, forbidden: set<string>, allowed: set<string>)
    ensures Tokens(a + b, forbidden, allowed) == Tokens(a, forbidden, allowed) + Tokens(b, forbidden, allowed)
  {
    if b == [] {
      assert a + b == a;
    } else {
      TokensAppend(a, b[..|b| - 1], forbidden, allowed);
      assert (a + b)[..|a + b| - 1] == a + b[..|b| - 1];
    }
  }

  /** The forbidden-field reports number exactly the occurrences of forbidden, not overridden keys in the tree. */
  lemma {:induction false} FieldReportsCountKeys(lower: string -> string, j: Json, allowed: set<string>)
    ensures |Tokens(Keys(lower, j), FORBIDDEN_FIELDS, allowed)| == KeyOccurrences(lower, FORBIDDEN_FIELDS - allowed, j)
    decreases j
  {
    match j
    case Obj(fields) => FieldsReportCount(lower, fields, allowed);
    case Arr(items) => ItemsReportCount(lower, items, allowed);
    case _ =>
  }

  lemma {:induction false} FieldsReportCount(lower: string -> string, fields: seq<Field>, allowed: set<string>)
    ensures |Tokens(FieldKeys(lower, fields), FORBIDDEN_FIELDS, allowed)|
        == FieldOccurrences(lower, FORBIDDEN_FIELDS - allowed, fields)
    decreases fields
  {
    if fields != [] {
      var key := Token(lower, fields[0].key);
      FieldReportsCountKeys(lower, fields[0].value, allowed);
      FieldsReportCount(lower, fields[1..], allowed);
      TokensAppend([key] + Keys(lower, fields[0].value), FieldKeys(lower, fields[1..]), FORBIDDEN_FIELDS, allowed);
      TokensAppend([key], Keys(lower, fields[0].value), FORBIDDEN_FIELDS, allowed);
      assert [key][..0] == [];
    }
  }

  lemma {:induction false} ItemsReportCount(lower: string -> string, items: seq<Json>, allowed: set<string>)
    ensures |Tokens(ItemKeys(lower, items), FORBIDDEN_FIELDS, allowed)|
        == ItemOccurrences(lower, FORBIDDEN_FIELDS - allowed, items)
    decreases items
  {
    if items != [] {
      FieldReportsCountKeys(lower, items[0], allowed);
      ItemsReportCount(lower, items[1..], allowed);
      TokensAppend(Keys(lower, items[0]), ItemKeys(lower, items[1..]), FORBIDDEN_FIELDS, allowed);
    }
  }

  lemma {:induction false} TokensEmptyIff(texts: seq<string>, forbidden: set<string>, allowed: set<string>)
    ensures Tokens(texts, forbidden, allowed) == [] <==> forall t :: t in texts ==> t !in forbidden || t in allowed
  {
    if texts != [] {
      TokensEmptyIff(texts[..|texts| - 1], forbidden, allowed);
      assert texts == texts[..|texts| - 1] + [texts[|texts| - 1]];
    }
  }

  // --------------------------------------------------------------------------- shapes

  const DECISION_FIELDS: set<string> := {"decision", "certification_status", "certified", "promoted", "promotion_ready"}
  const ACTION_FIELDS: set<string> := {"enforcement_action", "action", "next_action", "control_action"}
  const CERTIFICATION: set<string> := {"certification_status", "certified"}
  const PROMOTION: set<string> := {"promoted", "promotion_ready"}

  /** `_collect_json_objects`: every object of the document, parents before children. */
  function Objects(j: Json): seq<seq<Field>> {
    match j
    case Obj(fields) => [fields] + FieldObjects(fields)
    case Arr(items) => ItemObjects(items)
    case _ => []
  }

  function FieldObjects(fields: seq<Field>): seq<seq<Field>> {
    if fields == [] then [] else Objects(fields[0].value) + FieldObjects(fields[1..])
  }

  function ItemObjects(items: seq<Json>): seq<seq<Field>> {
    if items == [] then [] else Objects(items[0]) + ItemObjects(items[1..])
  }

  /** `_normalize_keys` */
  function NormalizedKeys(lower: string -> string, fields: seq<Field>): set<string> {
    set f | f in fields :: Token(lower, f.key)
  }

  predicate OutcomeAction(keys: set<string>) { keys * DECISION_FIELDS != {} && keys * ACTION_FIELDS != {} }

  predicate CertificationPromotion(keys: set<string>) { CERTIFICATION * keys != {} && PROMOTION * keys != {} }

  datatype ShapeViolation = OutcomeActionAt(index: nat) | CertificationPromotionAt(index: nat)

  /** The two key-combination rules. */
  datatype Rules = Rules(outcome: set<string> -> bool, certification: set<string> -> bool)

  function KeyRules(): Rules { Rules(OutcomeAction, CertificationPromotion) }

  function ObjectShapes(rules: Rules, index: nat, keys: set<string>): seq<ShapeViolation> {
    (if rules.outcome(keys) then [OutcomeActionAt(index)] else [])
    + (if rules.certification(keys) then [CertificationPromotionAt(index)] else [])
  }

  function ShapesOf(rules: Rules, lower: string -> string, objects: seq<seq<Field>>): seq<ShapeViolation> {
    if objects == [] then []
    else
      ShapesOf(rules, lower, objects[..|objects| - 1])
      + ObjectShapes(rules, |objects|, NormalizedKeys(lower, objects[|objects| - 1]))
  }

  function Shapes(lower: string -> string, root: string, path: string, r: Registry, doc: Json): seq<ShapeViolation> {
    var rel := NormalizePath(root, path);
    if !ShapeInScope(root, rel, r) || IsOwner(root, rel, r) then [] else ShapesOf(KeyRules(), lower, Objects(doc))
  }

  method CheckObjects(
      rules: Rules, lower: string -> string, objects: seq<seq<Field>>) returns (violations: seq<ShapeViolation>)
    ensures violations == ShapesOf(rules, lower, objects)
  {
    violations := [];
    for i := 0 to |objects|
      invariant violations == ShapesOf(rules, lower, objects[..i])
    {
      assert objects[..i + 1][..i] == objects[..i];
      var keys := NormalizedKeys(lower, objects[i]);
      ghost var before := violations;
      if rules.outcome(keys) { violations := violations + [OutcomeActionAt(i + 1)]; }
      if rules.certification(keys) { violations := violations + [CertificationPromotionAt(i + 1)]; }
      assert violations == before + ObjectShapes(rules, i + 1, keys);
    }
    assert objects[..|objects|] == objects;
  }

  /** The two key-combination rules of `detect_authority_shapes` on a JSON document. */
  method DetectShapes(
      lower: string -> string, root: string, path: string, r: Registry, doc: Json)
      returns (violations: seq<ShapeViolation>)
    ensures violations == Shapes(lower, root, path, r, doc)
  {
    var rel := NormalizePath(root, path);
    if !ShapeInScope(root, rel, r) || IsOwner(root, rel, r) { return []; }
    violations := CheckObjects(KeyRules(), lower, Objects(doc));
  }

  lemma {:induction false} ShapesEmptyIff(rules: Rules, lower: string -> string, objects: seq<seq<Field>>)
    ensures ShapesOf(rules, lower, objects) == [] <==>
            forall i :: 0 <= i < |objects| ==>
              !rules.outcome(NormalizedKeys(lower, objects[i]))
                && !rules.certification(NormalizedKeys(lower, objects[i]))
  {
    if objects != [] { ShapesEmptyIff(rules, lower, objects[..|objects| - 1]); }
  }

  // --------------------------------------------------------- one detector bounds the other

  lemma {:induction false} OwnKeysExtracted(lower: string -> string, fields: seq<Field>)
    ensures forall t :: t in NormalizedKeys(lower, fields) ==> t in FieldKeys(lower, fields)
  {
    if fields != [] {
      OwnKeysExtracted(lower, fields[1..]);
      assert fields == [fields[0]] + fields[1..];
    }
  }

  /** The scanner extracts every key of every object the shape detector looks at. */
  lemma {:induction false} ObjectKeysExtracted(lower: string -> string, j: Json, o: seq<Field>, t: string)
    requires o in Objects(j) && t in NormalizedKeys(lower, o)
    ensures t in Keys(lower, j)
    decreases j
  {
    match j
    case Obj(fields) =>
      if o == fields { OwnKeysExtracted(lower, fields); } else { FieldObjectKeysExtracted(lower, fields, o, t); }
    case Arr(items) => ItemObjectKeysExtracted(lower, items, o, t);
  }

  lemma {:induction false} FieldObjectKeysExtracted(
      lower: string -> string, fields: seq<Field>, o: seq<Field>, t: string)
    requires o in FieldObjects(fields) && t in NormalizedKeys(lower, o)
    ensures t in FieldKeys(lower, fields)
    decreases fields
  {
    if o in Objects(fields[0].value) {
      ObjectKeysExtracted(lower, fields[0].value, o, t);
    } else {
      FieldObjectKeysExtracted(lower, fields[1..], o, t);
    }
  }

  lemma {:induction false} ItemObjectKeysExtracted(lower: string -> string, items: seq<Json>, o: seq<Field>, t: string)
    requires o in ItemObjects(items) && t in NormalizedKeys(lower, o)
    ensures t in ItemKeys(lower, items)
    decreases items
  {
    if o in Objects(items[0]) {
      ObjectKeysExtracted(lower, items[0], o, t);
    } else {
      ItemObjectKeysExtracted(lower, items[1..], o, t);
    }
  }

  /** No key of the document is reported as forbidden, given the overridden tokens. */
  ghost predicate FieldsSilent(lower: string -> string, j: Json, allowed: set<string>) {
    Tokens(Keys(lower, j), FORBIDDEN_FIELDS, allowed) == []
  }

  lemma DecisionFieldsAreForbidden()
    ensures DECISION_FIELDS <= FORBIDDEN_FIELDS
    ensures CERTIFICATION <= DECISION_FIELDS && PROMOTION <= DECISION_FIELDS
  {
  }

  lemma SilentObject(lower: string -> string, j: Json, allowed: set<string>, o: seq<Field>)
    requires FieldsSilent(lower, j, allowed) && o in Objects(j)
    ensures NormalizedKeys(lower, o) * FORBIDDEN_FIELDS <= allowed
  {
    TokensEmptyIff(Keys(lower, j), FORBIDDEN_FIELDS, allowed);
    forall t | t in NormalizedKeys(lower, o) && t in FORBIDDEN_FIELDS ensures t in allowed {
      ObjectKeysExtracted(lower, j, o, t);
    }
  }

  /** A document the vocabulary scanner reports nothing about has no outcome/action object when no decision field is
      overridden, and no certification/promotion object when not both kinds are overridden. */
  lemma SilentMeansNoShape(lower: string -> string, j: Json, allowed: set<string>, i: nat)
    requires FieldsSilent(lower, j, allowed) && i < |Objects(j)|
    ensures allowed !! DECISION_FIELDS ==> !OutcomeAction(NormalizedKeys(lower, Objects(j)[i]))
    ensures allowed !! CERTIFICATION || allowed !! PROMOTION ==>
        !CertificationPromotion(NormalizedKeys(lower, Objects(j)[i]))
  {
    DecisionFieldsAreForbidden();
    SilentObject(lower, j, allowed, Objects(j)[i]);
    var keys := NormalizedKeys(lower, Objects(j)[i]);
    assert forall t :: t in keys * DECISION_FIELDS ==> t in keys * FORBIDDEN_FIELDS && t in allowed;
  }

  /** Between the detectors as run: a JSON file without a vocabulary report, and without field overrides for its path,
      has no outcome/action and no certification/promotion report either. */
  lemma CrossDetector(lower: string -> string, root: string, path: string, r: Registry, doc: Json)
    requires var rel := NormalizePath(root, path);
             && !StartsWith(rel, Slashed(root) + "/")
             && Overrides(r.allowedFields, root, rel) == {}
    requires VocabularyOf(lower, root, path, r, doc) == []
    ensures Shapes(lower, root, path, r, doc) == []
  {
    SameScope(root, path, r);
    if Scanned(root, path, r) {
      assert FieldsSilent(lower, doc, {}) by {
        assert |VocabularyOf(lower, root, path, r, doc)| >= |Tokens(Keys(lower, doc), FORBIDDEN_FIELDS, {})|;
      }
      forall i | 0 <= i < |Objects(doc)|
        ensures !OutcomeAction(NormalizedKeys(lower, Objects(doc)[i]))
            && !CertificationPromotion(NormalizedKeys(lower, Objects(doc)[i]))
      {
        SilentMeansNoShape(lower, doc, {}, i);
      }
      ShapesEmptyIff(KeyRules(), lower, Objects(doc));
    }
  }

  // ------------------------------------------------------- how far overrides may go

  /** What Python's strip and lower leave unchanged: the tokens of the two rule sets. */
  ghost predicate Plain(lower: string -> string) {
    forall t :: t in FORBIDDEN_FIELDS || t in ACTION_FIELDS ==> Token(lower, t) == t
  }

  function OneObject(a: string, b: string): Json {
    Obj([Field(a, Null), Field(b, Null)])
  }

  lemma NullFieldFacts(lower: string -> string, f: Field, rest: seq<Field>)
    requires f.value == Null
    ensures FieldKeys(lower, [f] + rest) == [Token(lower, f.key)] + FieldKeys(lower, rest)
    ensures FieldObjects([f] + rest) == FieldObjects(rest)
  {
    assert ([f] + rest)[0] == f && ([f] + rest)[1..] == rest;
    assert Keys(lower, f.value) == [] && Objects(f.value) == [];
  }

  lemma TwoNullFields(lower: string -> string, f: Field, g: Field)
    requires f.value == Null && g.value == Null
    ensures FieldKeys(lower, [f, g]) == [Token(lower, f.key), Token(lower, g.key)]
    ensures FieldObjects([f, g]) == []
  {
    assert [f, g] == [f] + [g] && [g] == [g] + [];
    NullFieldFacts(lower, f, [g]);
    NullFieldFacts(lower, g, []);
    assert FieldKeys(lower, []) == [] && FieldObjects([]) == [];
  }

  lemma TwoTokens(lower: string -> string, f: Field, g: Field)
    ensures NormalizedKeys(lower, [f, g]) == {Token(lower, f.key), Token(lower, g.key)}
  {
    assert f in [f, g] && g in [f, g];
  }

  lemma OneObjectFacts(lower: string -> string, a: string, b: string)
    requires Token(lower, a) == a && Token(lower, b) == b
    ensures Keys(lower, OneObject(a, b)) == [a, b]
    ensures Objects(OneObject(a, b)) == [[Field(a, Null), Field(b, Null)]]
    ensures NormalizedKeys(lower, Objects(OneObject(a, b))[0]) == {a, b}
  {
    TwoNullFields(lower, Field(a, Null), Field(b, Null));
    TwoTokens(lower, Field(a, Null), Field(b, Null));
    assert Objects(OneObject(a, b)) == [[Field(a, Null), Field(b, Null)]]
        + FieldObjects([Field(a, Null), Field(b, Null)]);
  }

  lemma ActionIsNotForbidden()
    ensures "action" in ACTION_FIELDS && "action" !in FORBIDDEN_FIELDS
  {
    assert |"action"| == 6 && |"decision"| == 8 && |"enforcement_action"| == 18 && |"certification_status"| == 20;
    assert |"certified"| == 9 && |"promoted"| == 8 && |"promotion_ready"| == 15;
  }

  lemma OverriddenDecisionIsSilent(lower: string -> string, allowed: set<string>, d: string)
    requires Plain(lower) && d in allowed && d in DECISION_FIELDS
    ensures FieldsSilent(lower, OneObject(d, "action"), allowed) && |Objects(OneObject(d, "action"))| == 1
    ensures OutcomeAction(NormalizedKeys(lower, Objects(OneObject(d, "action"))[0]))
  {
    DecisionFieldsAreForbidden();
    ActionIsNotForbidden();
    OneObjectFacts(lower, d, "action");
    TokensEmptyIff(Keys(lower, OneObject(d, "action")), FORBIDDEN_FIELDS, allowed);
    assert d in {d, "action"} * DECISION_FIELDS && "action" in {d, "action"} * ACTION_FIELDS;
  }

  /** Overriding fields keeps the scanner's silence meaningful for outcome/action objects exactly when no decision field
      is overridden. */
  lemma OutcomeCoveredIff(lower: string -> string, allowed: set<string>)
    requires Plain(lower)
    ensures allowed !! DECISION_FIELDS <==>
            forall j, i :: FieldsSilent(lower, j, allowed) && 0 <= i < |Objects(j)| ==>
              !OutcomeAction(NormalizedKeys(lower, Objects(j)[i]))
  {
    if allowed !! DECISION_FIELDS {
      forall j, i | FieldsSilent(lower, j, allowed) && 0 <= i < |Objects(j)|
        ensures !OutcomeAction(NormalizedKeys(lower, Objects(j)[i])) {
        SilentMeansNoShape(lower, j, allowed, i);
      }
    } else {
      var d :| d in allowed && d in DECISION_FIELDS;
      OverriddenDecisionIsSilent(lower, allowed, d);
    }
  }

  lemma OverriddenPairIsSilent(lower: string -> string, allowed: set<string>, c: string, p: string)
    requires Plain(lower) && c in allowed && c in CERTIFICATION && p in allowed && p in PROMOTION
    ensures FieldsSilent(lower, OneObject(c, p), allowed) && |Objects(OneObject(c, p))| == 1
    ensures CertificationPromotion(NormalizedKeys(lower, Objects(OneObject(c, p))[0]))
  {
    DecisionFieldsAreForbidden();
    OneObjectFacts(lower, c, p);
    TokensEmptyIff(Keys(lower, OneObject(c, p)), FORBIDDEN_FIELDS, allowed);
    assert c in CERTIFICATION * {c, p} && p in PROMOTION * {c, p};
  }

  /** The same for certification/promotion objects: exactly when a certification and a promotion field are not both
      overridden. */
  lemma CertificationCoveredIff(lower: string -> string, allowed: set<string>)
    requires Plain(lower)
    ensures allowed !! CERTIFICATION || allowed !! PROMOTION <==>
            forall j, i :: FieldsSilent(lower, j, allowed) && 0 <= i < |Objects(j)| ==>
              !CertificationPromotion(NormalizedKeys(lower, Objects(j)[i]))
  {
    if allowed !! CERTIFICATION || allowed !! PROMOTION {
      forall j, i | FieldsSilent(lower, j, allowed) && 0 <= i < |Objects(j)|
        ensures !CertificationPromotion(NormalizedKeys(lower, Objects(j)[i])) {
        SilentMeansNoShape(lower, j, allowed, i);
      }
    } else {
      var c :| c in allowed && c in CERTIFICATION;
      var p :| p in allowed && p in PROMOTION;
      OverriddenPairIsSilent(lower, allowed, c, p);
    }
  }
}
