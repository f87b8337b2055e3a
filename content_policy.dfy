/** The policy half of the content script (extension/content.js): the rule
    map in force, the BLOCK > WARN > ALLOW decision, type labels and
    placeholders, the classification of extension-context errors, the chip
    summary of the modal, and the configuration merge of `loadConfig`. The
    preset catalogue and the data-type table live in files that are not part
    of this model and are parameters here. */
module ContentPolicy {
  import opened Wrappers
  import opened Text
  import opened Logic

  /** The policy map of a preset or of the user: data-type id to the action
      string stored for it (normally "WARN" or "BLOCK", but any value may be
      stored). */
  type RuleMap = map<string, string>

  /** The stored configuration. A `preset` of "" stands for an absent or empty
      preset id, a `rules` of `None` for absent rules. `enableWarn` and
      `enableBlock` are false exactly when the stored value is the boolean
      `false`; `debugMode` is true exactly when it is the boolean `true`. */
  datatype LocalConfig = LocalConfig(preset: string, rules: Option<RuleMap>,
                                     enableWarn: bool, enableBlock: bool, debugMode: bool)

  /** The preset catalogue: the personal preset's rules, which always exist,
      and the rules of every preset that has a rule map. */
  datatype Catalogue = Catalogue(personalRules: RuleMap, presetRules: map<string, RuleMap>)

  /** An entry of the data-type table; "" stands for an absent or empty
      label or placeholder. */
  datatype TypeInfo = TypeInfo(labelText: string, placeholder: string)

  type DataTypes = map<string, TypeInfo>

  datatype Action = Allow | Warn | Block

  datatype Decision = Decision(action: Action, types: seq<string>)

  /** `getRules`: the stored rules, or the personal preset's when there is no
      configuration or it has no rules. */
  function GetRules(config: Option<LocalConfig>, cat: Catalogue): (rules: RuleMap)
    ensures config.Some? && config.value.rules.Some? ==> rules == config.value.rules.value
    ensures config.None? || config.value.rules.None? ==> rules == cat.personalRules
  {
    if config.Some? && config.value.rules.Some? then config.value.rules.value else cat.personalRules
  }

  /** The rules in force do not depend on the preset named in the
      configuration: stored rules win, and a configuration without rules
      falls back to the personal preset's whatever preset it names. */
  lemma GetRulesIgnoresPreset(c: LocalConfig, preset: string, cat: Catalogue)
    ensures GetRules(Some(c.(preset := preset)), cat) == GetRules(Some(c), cat)
    ensures c.rules.None? ==> GetRules(Some(c), cat) == cat.personalRules
  {
  }

  /** The rule map maps `t` to `action`. */
  predicate MapsTo(rules: RuleMap, t: string, action: string) {
    t in rules && rules[t] == action
  }

  /** The types, in input order and with repetitions, that `rules` maps to
      `action`. */
  function TypesMappedTo(types: seq<string>, rules: RuleMap, action: string): seq<string> {
    if types == [] then []
    else TypesMappedTo(types[..|types| - 1], rules, action)
         + (if MapsTo(rules, types[|types| - 1], action) then [types[|types| - 1]] else [])
  }

  /** `localConfig?.enableBlock !== false`: a missing configuration enables. */
  predicate BlockEnabled(config: Option<LocalConfig>) {
    config.None? || config.value.enableBlock
  }

  predicate WarnEnabled(config: Option<LocalConfig>) {
    config.None? || config.value.enableWarn
  }

  /** The decision `determineAction` computes. */
  function Decide(types: seq<string>, config: Option<LocalConfig>, cat: Catalogue): Decision {
    var rules := GetRules(config, cat);
    var blockTypes := TypesMappedTo(types, rules, "BLOCK");
    var warnTypes := TypesMappedTo(types, rules, "WARN");
    if |blockTypes| > 0 && BlockEnabled(config) then Decision(Block, blockTypes)
    else if |warnTypes| > 0 && WarnEnabled(config) then Decision(Warn, warnTypes)
    else Decision(Allow, [])
  }

  /** `determineAction`: one pass over the detected types sorts them into the
      BLOCK and WARN lists, then the enabled flags choose. */
  method DetermineAction(types: seq<string>, config: Option<LocalConfig>, cat: Catalogue) returns (d: Decision)
    ensures d == Decide(types, config, cat)
  {
    var rules := GetRules(config, cat);
    var blockTypes: seq<string> := [];
    var warnTypes: seq<string> := [];
    var i := 0;
    while i < |types|
      invariant 0 <= i <= |types|
      invariant blockTypes == TypesMappedTo(types[..i], rules, "BLOCK")
      invariant warnTypes == TypesMappedTo(types[..i], rules, "WARN")
    {
      assert types[..i + 1][..i] == types[..i];
      var t := types[i];
      if t in rules && rules[t] == "BLOCK" {
        blockTypes := blockTypes + [t];
      } else if t in rules && rules[t] == "WARN" {
        warnTypes := warnTypes + [t];
      }
      i := i + 1;
    }
    assert types[..i] == types;
    var enableBlock := BlockEnabled(config);
    var enableWarn := WarnEnabled(config);
    if |blockTypes| > 0 && enableBlock {
      return Decision(Block, blockTypes);
    }
    if |warnTypes| > 0 && enableWarn {
      return Decision(Warn, warnTypes);
    }
    return Decision(Allow, []);
  }

  /** A type is listed under `action` exactly when it is detected and mapped to
      `action`, and the list keeps the detection order: it is a subsequence of
      the detected types. */
  lemma {:induction false} TypesMappedToMembers(types: seq<string>, rules: RuleMap, action: string)
    ensures forall t :: t in TypesMappedTo(types, rules, action) <==> t in types && MapsTo(rules, t, action)
    ensures |TypesMappedTo(types, rules, action)| <= |types|
    ensures TypesMappedTo(types, rules, action) == [] <==> forall t :: t in types ==> !MapsTo(rules, t, action)
  {
    if types != [] {
      var init := types[..|types| - 1];
      TypesMappedToMembers(init, rules, action);
      assert types == init + [types[|types| - 1]];
    }
  }

  /** The order-preserving part: the listed types are the detected ones with
      the others removed, so concatenating the detected types before and
      after any cut splits the list the same way. */
  lemma {:induction false} TypesMappedToAppend(a: seq<string>, b: seq<string>, rules: RuleMap, action: string)
    ensures TypesMappedTo(a + b, rules, action) == TypesMappedTo(a, rules, action) + TypesMappedTo(b, rules, action)
  {
    if b == [] {
      assert a + b == a;
    } else {
      var init := b[..|b| - 1];
      assert (a + b)[..|a + b| - 1] == a + init;
      TypesMappedToAppend(a, init, rules, action);
    }
  }

  /** BLOCK is chosen exactly when some detected type is mapped to BLOCK and
      blocking is enabled, and then the types are exactly the BLOCK-mapped
      ones in input order. */
  lemma DecideBlock(types: seq<string>, config: Option<LocalConfig>, cat: Catalogue)
    ensures var rules := GetRules(config, cat);
            Decide(types, config, cat).action == Block <==>
              (BlockEnabled(config) && exists t :: t in types && MapsTo(rules, t, "BLOCK"))
    ensures Decide(types, config, cat).action == Block ==>
              Decide(types, config, cat).types == TypesMappedTo(types, GetRules(config, cat), "BLOCK")
  {
    TypesMappedToMembers(types, GetRules(config, cat), "BLOCK");
  }

  /** Otherwise WARN is chosen exactly when some detected type is mapped to
      WARN and warning is enabled; what remains is ALLOW with no types. */
  lemma DecideWarnOrAllow(types: seq<string>, config: Option<LocalConfig>, cat: Catalogue)
    ensures var rules := GetRules(config, cat);
            var d := Decide(types, config, cat);
            d.action != Block ==>
              ((d.action == Warn <==> WarnEnabled(config) && exists t :: t in types && MapsTo(rules, t, "WARN"))
               && (d.action == Warn ==> d.types == TypesMappedTo(types, rules, "WARN"))
               && (d.action == Allow ==> d.types == []))
  {
    TypesMappedToMembers(types, GetRules(config, cat), "BLOCK");
    TypesMappedToMembers(types, GetRules(config, cat), "WARN");
  }

  /** With blocking disabled, BLOCK-mapped types are dropped, not downgraded:
      they appear in no decision. */
  lemma DisabledBlockDrops(types: seq<string>, config: Option<LocalConfig>, cat: Catalogue)
    requires !BlockEnabled(config)
    ensures var d := Decide(types, config, cat);
            d.action != Block && forall t :: t in d.types ==> !MapsTo(GetRules(config, cat), t, "BLOCK")
  {
    TypesMappedToMembers(types, GetRules(config, cat), "WARN");
  }

  /** Every type in a decision is detected and mapped to exactly the chosen
      action; types without a rule, or with a rule other than WARN or BLOCK,
      never appear. */
  lemma DecisionTypesMapped(types: seq<string>, config: Option<LocalConfig>, cat: Catalogue)
    ensures var d := Decide(types, config, cat);
            var rules := GetRules(config, cat);
            forall t :: t in d.types ==>
              t in types && t in rules
              && rules[t] == (if d.action == Block then "BLOCK" else "WARN")
  {
    TypesMappedToMembers(types, GetRules(config, cat), "BLOCK");
    TypesMappedToMembers(types, GetRules(config, cat), "WARN");
  }

  /** Without a stored configuration both flags count as enabled and the
      personal preset's rules apply. */
  lemma MissingConfigEnables(types: seq<string>, cat: Catalogue)
    ensures Decide(types, None, cat).action == Block <==>
              exists t :: t in types && MapsTo(cat.personalRules, t, "BLOCK")
  {
    TypesMappedToMembers(types, cat.personalRules, "BLOCK");
  }

  /** `getTypeLabel`: the table's label, or the type id itself. */
  function TypeLabel(dataTypes: DataTypes, typeId: string): (text: string)
    ensures typeId in dataTypes && dataTypes[typeId].labelText != "" ==> text == dataTypes[typeId].labelText
    ensures !(typeId in dataTypes && dataTypes[typeId].labelText != "") ==> text == typeId
  {
    if typeId in dataTypes && dataTypes[typeId].labelText != "" then dataTypes[typeId].labelText else typeId
  }

  /** `getPlaceholder`: the table's placeholder, or "[REDACTED]"; never
      empty. */
  function Placeholder(dataTypes: DataTypes, typeId: string): (p: string)
    ensures p != ""
    ensures typeId in dataTypes && dataTypes[typeId].placeholder != "" ==> p == dataTypes[typeId].placeholder
    ensures !(typeId in dataTypes && dataTypes[typeId].placeholder != "") ==> p == "[REDACTED]"
  {
    if typeId in dataTypes && dataTypes[typeId].placeholder != "" then dataTypes[typeId].placeholder else "[REDACTED]"
  }

  // ---------------------------------------------------------------------------
  // isExtensionContextError
  // ---------------------------------------------------------------------------

  const ContextErrorPatterns: seq<string> := [
    "Extension context invalidated",
    "Cannot read properties of undefined",
    "Cannot read property",
    "sendMessage",
    "The message port closed before a response was received",
    "chrome.runtime"
  ]

  /** Some pattern, lower-cased, occurs in `lower`. */
  function AnyPatternIn(lower: string, patterns: seq<string>): (found: bool)
    ensures found <==> exists k :: 0 <= k < |patterns| && Contains(lower, ToLower(patterns[k]))
  {
    if patterns == [] then false
    else Contains(lower, ToLower(patterns[0])) || AnyPatternIn(lower, patterns[1..])
  }

  /** `isExtensionContextError`: `None` stands for a value that is not a
      string. */
  function IsExtensionContextError(message: Option<string>): (r: bool)
    ensures message.None? || message.value == "" ==> !r
    ensures message.Some? && message.value != "" ==>
              (r <==> exists k :: 0 <= k < |ContextErrorPatterns|
                                   && Contains(ToLower(message.value), ToLower(ContextErrorPatterns[k])))
  {
    message.Some? && message.value != "" && AnyPatternIn(ToLower(message.value), ContextErrorPatterns)
  }

  lemma {:induction false} LowerCharLower(c: char)
    ensures ToLower(LowerChar(c)) == LowerChar(c)
  {
    var l := LowerChar(c);
    ToLowerOfLower(l);
  }

  /** Lower-casing twice is lower-casing once. */
  lemma {:induction false} ToLowerIdempotent(s: string)
    ensures ToLower(ToLower(s)) == ToLower(s)
  {
    if s != [] {
      ToLowerIdempotent(s[1..]);
      LowerCharLower(s[0]);
      ToLowerAppend(LowerChar(s[0]), ToLower(s[1..]));
    }
  }

  /** The classification ignores letter case. */
  lemma ContextErrorCaseInsensitive(message: string)
    ensures IsExtensionContextError(Some(message)) == IsExtensionContextError(Some(ToLower(message)))
  {
    AnyPatternInCaseInsensitive(message, ContextErrorPatterns);
  }

  /** The pattern test, for any list of patterns, ignores letter case. */
  lemma AnyPatternInCaseInsensitive(message: string, patterns: seq<string>)
    ensures (message != "" && AnyPatternIn(ToLower(message), patterns))
            == (ToLower(message) != "" && AnyPatternIn(ToLower(ToLower(message)), patterns))
  {
    ToLowerIdempotent(message);
    if message != "" {
      assert ToLower(message) == LowerChar(message[0]) + ToLower(message[1..]);
    }
  }

  /** A message that starts with a pattern is an extension-context error. */
  lemma PatternPrefixIsContextError(k: nat, rest: string)
    requires k < |ContextErrorPatterns|
    ensures IsExtensionContextError(Some(ContextErrorPatterns[k] + rest))
  {
    var p := ContextErrorPatterns[k];
    ToLowerAppend(p, rest);
    var lower := ToLower(p + rest);
    assert lower[..|ToLower(p)|] == ToLower(p);
    assert StartsWith(lower, ToLower(p));
    assert p != "";
  }

  // ---------------------------------------------------------------------------
  // Modal chip summary
  // ---------------------------------------------------------------------------

  /** `[...new Set(types)]`: the distinct types in order of first
      occurrence. */
  function Distinct(types: seq<string>): seq<string> {
    if types == [] then []
    else
      var init := Distinct(types[..|types| - 1]);
      var last := types[|types| - 1];
      if last in init then init else init + [last]
  }

  lemma {:induction false} DistinctProperties(types: seq<string>)
    ensures NoDuplicates(Distinct(types))
    ensures forall t :: t in Distinct(types) <==> t in types
    ensures |Distinct(types)| <= |types|
  {
    if types != [] {
      var init := types[..|types| - 1];
      DistinctProperties(init);
      assert types == init + [types[|types| - 1]];
    }
  }

  /** The chips of the modal: the labels of the first four distinct types, and
      the number of further types shown as a "+n more" chip (none when not
      positive). */
  datatype ChipSummary = ChipSummary(labels: seq<string>, moreCount: int)

  function Chips(types: seq<string>, dataTypes: DataTypes): ChipSummary {
    var unique := Distinct(types);
    var shown := if |unique| <= 4 then unique else unique[..4];
    ChipSummary(seq(|shown|, k requires 0 <= k < |shown| => TypeLabel(dataTypes, shown[k])), |unique| - 4)
  }

  /** At most four chips, each the label of a distinct detected type, shown in
      first-occurrence order; a "more" chip exactly when there are more than
      four distinct types, counting the ones not shown. */
  lemma ChipsSummary(types: seq<string>, dataTypes: DataTypes)
    ensures var c := Chips(types, dataTypes);
            var unique := Distinct(types);
            && |c.labels| == (if |unique| < 4 then |unique| else 4)
            && (forall k :: 0 <= k < |c.labels| ==> c.labels[k] == TypeLabel(dataTypes, unique[k]))
            && (c.moreCount > 0 <==> |unique| > 4)
            && (c.moreCount > 0 ==> |c.labels| + c.moreCount == |unique|)
    ensures forall t :: t in Distinct(types) <==> t in types
  {
    DistinctProperties(types);
  }
  /** No chip is blank: each chip shows the table's label of its type when
      the table has a non-empty one and otherwise the type id, which the
      detector never leaves empty. */
  lemma ChipLabelsNonEmpty(types: seq<string>, dataTypes: DataTypes)
    requires forall i :: 0 <= i < |types| ==> types[i] != ""
    ensures var c := Chips(types, dataTypes);
            var unique := Distinct(types);
            forall k :: 0 <= k < |c.labels| ==>
              && c.labels[k] != ""
              && (c.labels[k] == unique[k] || (unique[k] in dataTypes && c.labels[k] == dataTypes[unique[k]].labelText))
  {
    var unique := Distinct(types);
    DistinctProperties(types);
    ChipsSummary(types, dataTypes);
    forall k | 0 <= k < |Chips(types, dataTypes).labels|
      ensures unique[k] != ""
    {
      assert unique[k] in types;
    }
  }

  // ---------------------------------------------------------------------------
  // loadConfig
  // ---------------------------------------------------------------------------

  /** What the sync-storage read returns. `preset` is "" when absent or empty,
      `rules` is `None` when absent; the three flags are `None` when absent. */
  datatype SyncSettings = SyncSettings(preset: string, rules: Option<RuleMap>,
                                       enableWarn: Option<bool>, enableBlock: Option<bool>,
                                       debugMode: Option<bool>, hasSeenOnboarding: Option<bool>)

  /** The rules of preset `id`, or the personal preset's when it has none. */
  function PresetRules(cat: Catalogue, id: string): RuleMap {
    if id in cat.presetRules then cat.presetRules[id] else cat.personalRules
  }

  /** The configuration the sync-storage callback of `loadConfig` builds. */
  function MergeSync(sync: SyncSettings, cat: Catalogue): LocalConfig {
    if sync.preset != "" || sync.rules.Some? then
      var preset := if sync.preset != "" then sync.preset else "personal";
      LocalConfig(preset, Some(if sync.rules.Some? then sync.rules.value else PresetRules(cat, preset)),
                  sync.enableWarn != Some(false), sync.enableBlock != Some(false),
                  sync.debugMode == Some(true))
    else
      LocalConfig("personal", Some(cat.personalRules), true, true, false)
  }

  /** The merged configuration always names a preset and carries rules: the
      stored rules when there are any, otherwise the stored preset's, falling
      back to the personal preset's. A flag is off only when stored as
      `false`, debugging is on only when stored as `true`, and all three are
      read only when a preset or rules are stored. */
  lemma MergeSyncDefaults(sync: SyncSettings, cat: Catalogue)
    ensures var c := MergeSync(sync, cat);
            && c.preset != "" && c.rules.Some?
            && (sync.rules.Some? ==> c.rules.value == sync.rules.value)
            && (sync.rules.None? && sync.preset != "" && sync.preset in cat.presetRules ==>
                  c.rules.value == cat.presetRules[sync.preset])
            && (sync.rules.None? && !(sync.preset != "" && sync.preset in cat.presetRules) ==>
                  c.rules.value == cat.personalRules)
            && (!c.enableWarn ==> sync.enableWarn == Some(false))
            && (!c.enableBlock ==> sync.enableBlock == Some(false))
            && (c.debugMode ==> sync.debugMode == Some(true))
            && (sync.preset == "" && sync.rules.None? ==> c.enableWarn && c.enableBlock && !c.debugMode)
  {
  }

  /** With the merged configuration in force the rules map never falls back
      to the catalogue in `getRules`. */
  lemma MergedRulesInForce(sync: SyncSettings, cat: Catalogue)
    ensures GetRules(Some(MergeSync(sync, cat)), cat) == MergeSync(sync, cat).rules.value
  {
  }
}
