/** Strategy presets: named bundles of rule templates.  Building a preset
    tags each of its rule names with the preset's id; the registry lists the
    seven presets in a fixed order and is searched case-insensitively.  The
    description texts of the presets and their templates are not
    reproduced. */
module Presets {
  import opened Common
  import opened Evaluators

  /** The cooldown a template gets when none is given: one day. */
  const DefaultCooldownMinutes: nat := 1440

  /** `RuleTemplate`: a rule to create; no symbol means every holding. */
  datatype RuleTemplate = RuleTemplate(
    name: string,
    ruleType: RuleType,
    threshold: real,
    symbol: Option<string> := None,
    cooldownMinutes: nat := DefaultCooldownMinutes,
    description: string := "")

  /** `StrategyPreset` after construction. */
  datatype StrategyPreset = StrategyPreset(
    id: string,
    name: string,
    description: string,
    category: string,
    rules: seq<RuleTemplate> := [],
    riskLevel: string := "medium")

  /** The tag a preset puts in front of its rule names. */
  function IdTag(id: string): string {
    "[" + id + "]"
  }

  /** A rule name with the preset's tag: unchanged when it already starts
      with the tag, otherwise the tag, a space and the name. */
  function TaggedName(id: string, name: string): (r: string)
    ensures StartsWith(r, IdTag(id))
    ensures StartsWith(name, IdTag(id)) ==> r == name
    ensures !StartsWith(name, IdTag(id)) ==> r[|IdTag(id)|..] == " " + name
  {
    if StartsWith(name, IdTag(id)) then name
    else
      var r := IdTag(id) + " " + name;
      assert r[..|IdTag(id)|] == IdTag(id);
      assert r[|IdTag(id)|..] == " " + name;
      r
  }

  /** Tagging twice is tagging once. */
  lemma TaggedNameIdempotent(id: string, name: string)
    ensures TaggedName(id, TaggedName(id, name)) == TaggedName(id, name)
  {
  }

  /** The templates with their names tagged, everything else untouched. */
  function TaggedRules(id: string, rules: seq<RuleTemplate>): (r: seq<RuleTemplate>)
    ensures |r| == |rules|
    ensures forall i :: 0 <= i < |r| ==>
              r[i] == rules[i].(name := TaggedName(id, rules[i].name)) && StartsWith(r[i].name, IdTag(id))
  {
    seq(|rules|, i requires 0 <= i < |rules| => rules[i].(name := TaggedName(id, rules[i].name)))
  }

  /** `StrategyPreset.__post_init__`: renames each template in turn. */
  method PostInit(id: string, rules: seq<RuleTemplate>) returns (named: seq<RuleTemplate>)
    ensures named == TaggedRules(id, rules)
  {
    named := rules;
    for i := 0 to |rules|
      invariant |named| == |rules|
      invariant forall j :: 0 <= j < i ==> named[j] == rules[j].(name := TaggedName(id, rules[j].name))
      invariant forall j :: i <= j < |rules| ==> named[j] == rules[j]
    {
      var rule := named[i];
      if !StartsWith(rule.name, IdTag(id)) {
        named := named[i := rule.(name := IdTag(id) + " " + rule.name)];
      }
    }
  }

  /** Building a preset from templates that are already tagged changes
      nothing. */
  lemma TaggedRulesIdempotent(id: string, rules: seq<RuleTemplate>)
    ensures TaggedRules(id, TaggedRules(id, rules)) == TaggedRules(id, rules)
  {
    var once := TaggedRules(id, rules);
    forall i | 0 <= i < |rules| ensures TaggedRules(id, once)[i] == once[i] {
      TaggedNameIdempotent(id, rules[i].name);
    }
  }

  /** A constructed preset; the description is not reproduced. */
  function Preset(id: string, name: string, category: string, riskLevel: string,
                  rules: seq<RuleTemplate>): StrategyPreset {
    StrategyPreset(id, name, "", category, TaggedRules(id, rules), riskLevel)
  }

  const CapitalPreservation := Preset("capital-preservation", "Capital Preservation", "protection", "conservative", [
    RuleTemplate("Early Warning (-15%)", PriceBelowCostPct, 15.0, cooldownMinutes := 1440),
    RuleTemplate("Stop Loss Warning (-25%)", PriceBelowCostPct, 25.0, cooldownMinutes := 720),
    RuleTemplate("Critical Loss (-40%)", PriceBelowCostPct, 40.0, cooldownMinutes := 240)])

  const SwingTrader := Preset("swing-trader", "Swing Trader", "profit", "medium", [
    RuleTemplate("Take Profit (+25%)", PriceAboveCostPct, 25.0, cooldownMinutes := 1440),
    RuleTemplate("Strong Profit (+50%)", PriceAboveCostPct, 50.0, cooldownMinutes := 1440),
    RuleTemplate("RSI Overbought", RsiAboveValue, 70.0, cooldownMinutes := 1440),
    RuleTemplate("RSI Oversold Entry", RsiBelowValue, 30.0, cooldownMinutes := 1440)])

  const DipHunter := Preset("dip-hunter", "Dip Hunter", "opportunity", "aggressive", [
    RuleTemplate("Minor Dip (-10%)", PriceBelowCostPct, 10.0, cooldownMinutes := 2880),
    RuleTemplate("Significant Dip (-20%)", PriceBelowCostPct, 20.0, cooldownMinutes := 1440),
    RuleTemplate("Deep Oversold (RSI < 25)", RsiBelowValue, 25.0, cooldownMinutes := 720)])

  const MomentumRider := Preset("momentum-rider", "Momentum Rider", "profit", "aggressive", [
    RuleTemplate("Momentum Start (+15%)", PriceAboveCostPct, 15.0, cooldownMinutes := 1440),
    RuleTemplate("Momentum Strong (+35%)", PriceAboveCostPct, 35.0, cooldownMinutes := 1440),
    RuleTemplate("Moonshot (+100%)", PriceAboveCostPct, 100.0, cooldownMinutes := 720),
    RuleTemplate("Overbought Warning", RsiAboveValue, 75.0, cooldownMinutes := 720)])

  const RecoveryTracker := Preset("recovery-tracker", "Recovery Tracker", "balanced", "conservative", [
    RuleTemplate("Recovery Started", PriceAboveCostPct, -10.0, cooldownMinutes := 2880),
    RuleTemplate("Near Breakeven", PriceAboveCostPct, -2.0, cooldownMinutes := 1440),
    RuleTemplate("Breakeven Reached", PriceAboveCostPct, 0.0, cooldownMinutes := 1440)])

  const LongTermHolder := Preset("long-term-holder", "Long Term Holder", "balanced", "conservative", [
    RuleTemplate("Major Drawdown (-30%)", PriceBelowCostPct, 30.0, cooldownMinutes := 10080),
    RuleTemplate("Crash Alert (-50%)", PriceBelowCostPct, 50.0, cooldownMinutes := 4320),
    RuleTemplate("Big Winner (+100%)", PriceAboveCostPct, 100.0, cooldownMinutes := 10080)])

  const ActiveTrader := Preset("active-trader", "Active Trader", "balanced", "medium", [
    RuleTemplate("Small Loss (-10%)", PriceBelowCostPct, 10.0, cooldownMinutes := 1440),
    RuleTemplate("Medium Loss (-20%)", PriceBelowCostPct, 20.0, cooldownMinutes := 720),
    RuleTemplate("Large Loss (-35%)", PriceBelowCostPct, 35.0, cooldownMinutes := 240),
    RuleTemplate("Small Gain (+15%)", PriceAboveCostPct, 15.0, cooldownMinutes := 1440),
    RuleTemplate("Good Gain (+30%)", PriceAboveCostPct, 30.0, cooldownMinutes := 1440),
    RuleTemplate("Great Gain (+50%)", PriceAboveCostPct, 50.0, cooldownMinutes := 1440),
    RuleTemplate("RSI Oversold", RsiBelowValue, 30.0, cooldownMinutes := 1440),
    RuleTemplate("RSI Overbought", RsiAboveValue, 70.0, cooldownMinutes := 1440)])

  /** The keys of `PRESETS`, in its insertion order. */
  const RegistryKeys: seq<string> := [
    "capital-preservation", "swing-trader", "dip-hunter", "momentum-rider",
    "recovery-tracker", "long-term-holder", "active-trader"]

  /** The values of `PRESETS`, in the same order. */
  const RegistryPresets: seq<StrategyPreset> := [
    CapitalPreservation, SwingTrader, DipHunter, MomentumRider,
    RecoveryTracker, LongTermHolder, ActiveTrader]

  /** Pairs each key with the preset at the same place. */
  function Entries(keys: seq<string>, presets: seq<StrategyPreset>): (r: seq<(string, StrategyPreset)>)
    requires |keys| == |presets|
    ensures |r| == |keys| && forall i :: 0 <= i < |r| ==> r[i] == (keys[i], presets[i])
  {
    seq(|keys|, i requires 0 <= i < |keys| => (keys[i], presets[i]))
  }

  /** `PRESETS` */
  const Registry: seq<(string, StrategyPreset)> := Entries(RegistryKeys, RegistryPresets)

  /** The position of the first entry under `key`. */
  function KeyIndex(registry: seq<(string, StrategyPreset)>, key: string): (r: Option<nat>)
    ensures r.Some? ==> r.value < |registry| && registry[r.value].0 == key
    ensures r.Some? ==> forall j :: 0 <= j < r.value ==> registry[j].0 != key
    ensures r.None? <==> forall i :: 0 <= i < |registry| ==> registry[i].0 != key
  {
    FirstIndex((e: (string, StrategyPreset)) => e.0 == key, registry)
  }

  /** `dict.get(key)` on an ordered table. */
  function Lookup(registry: seq<(string, StrategyPreset)>, key: string): (r: Option<StrategyPreset>)
    ensures r.None? <==> forall i :: 0 <= i < |registry| ==> registry[i].0 != key
    ensures r.Some? ==> exists i :: 0 <= i < |registry| && registry[i].0 == key && registry[i].1 == r.value
  {
    match KeyIndex(registry, key)
    case Some(i) => Some(registry[i].1)
    case None => None
  }

  /** `get_preset(preset_id)`: the preset under the lower-cased id, None
      when there is none. */
  function GetPreset(presetId: string): Option<StrategyPreset> {
    Lookup(Registry, Lower(presetId))
  }

  /** `list_presets()`: the registry's presets, in order. */
  function ListPresets(): (r: seq<StrategyPreset>)
    ensures |r| == |Registry| && forall i :: 0 <= i < |r| ==> r[i] == Registry[i].1
  {
    seq(|Registry|, i requires 0 <= i < |Registry| => Registry[i].1)
  }

  /** A string with no upper-case ASCII letter. */
  predicate NoUpper(s: string) {
    forall i :: 0 <= i < |s| ==> !('A' <= s[i] <= 'Z')
  }

  /** Lower-casing leaves a string without capitals alone. */
  lemma LowerNoUpper(s: string)
    requires NoUpper(s)
    ensures Lower(s) == s
  {
    assert forall i :: 0 <= i < |s| ==> Lower(s)[i] == s[i];
  }

  /** Lower-casing twice is lower-casing once. */
  lemma LowerIdempotent(s: string)
    ensures Lower(Lower(s)) == Lower(s)
  {
    assert forall i :: 0 <= i < |s| ==> Lower(Lower(s))[i] == Lower(s)[i];
  }

  /** The lookup ignores case, and finds nothing exactly when no key is
      the lower-cased id. */
  lemma GetPresetIgnoresCase(presetId: string)
    ensures GetPreset(presetId) == GetPreset(Lower(presetId))
    ensures GetPreset(presetId).None? <==> forall i :: 0 <= i < |Registry| ==> Registry[i].0 != Lower(presetId)
  {
    LowerIdempotent(presetId);
  }

  /** Each registry key is its preset's id. */
  lemma RegistryKeysAreIds()
    ensures |Registry| == 7
    ensures forall i :: 0 <= i < |Registry| ==> Registry[i].0 == Registry[i].1.id
  {
  }

  /** A lookup under a key without capitals, of which no earlier entry is
      the key, finds that entry. */
  lemma LookupFindsKey(registry: seq<(string, StrategyPreset)>, i: nat)
    requires i < |registry|
    requires NoUpper(registry[i].0)
    requires forall j :: 0 <= j < i ==> registry[j].0 != registry[i].0
    ensures Lookup(registry, Lower(registry[i].0)) == Some(registry[i].1)
  {
    LowerNoUpper(registry[i].0);
    var k := KeyIndex(registry, registry[i].0);
    assert k.Some?;
  }

  /** No registry key has a capital letter or comes twice. */
  lemma RegistryKeysPlain()
    ensures forall i :: 0 <= i < |RegistryKeys| ==> NoUpper(RegistryKeys[i])
    ensures forall i, j :: 0 <= j < i < |RegistryKeys| ==> RegistryKeys[j] != RegistryKeys[i]
  {
  }

  /** Every preset of the list is found under its own id. */
  lemma GetPresetFindsEveryPreset()
    ensures forall i :: 0 <= i < |Registry| ==> GetPreset(Registry[i].1.id) == Some(Registry[i].1)
  {
    RegistryKeysPlain();
    RegistryKeysAreIds();
    forall i | 0 <= i < |Registry| ensures GetPreset(Registry[i].1.id) == Some(Registry[i].1) {
      LookupFindsKey(Registry, i);
    }
  }
}
