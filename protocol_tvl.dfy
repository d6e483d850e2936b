/** The TVL figures of a protocol page: the headline total folded from
    `tvlBreakdowns` (with the history fallback), the per-chain split of
    `tvlByChain` into chain totals and toggleable extra rows, the chart
    denominations, and the treasury and token-liquidity sums. */
module ProtocolTvl {
  import opened Js

  /** The user's extra-TVL toggles (`extraTvlsEnabled`), keyed by lower-case name. */
  type Toggles = map<string, bool>

  /** One key-value pair of an object, in the order `Object.entries` lists it. */
  type Entry = (string, int)

  // ======================================================== headline total

  /** Sections the headline total ignores: chain-qualified ones and `offers`. */
  predicate SkippedSection(section: string)
  {
    '-' in section || section == "offers"
  }

  /** The extra-TVL rule: a section whose lower-cased name is a toggle key
      is admitted only when that toggle is on; every other section is. */
  predicate Admitted(section: string, toggles: Toggles)
  {
    var key := ToLowerCase(section);
    key !in toggles || toggles[key]
  }

  /** What one breakdown section adds to the headline total. */
  function SectionContribution(section: string, amount: int, toggles: Toggles): int
  {
    if SkippedSection(section) then 0
    else (if section == "doublecounted" then -amount else 0)
         + (if Admitted(section, toggles) then amount else 0)
  }

  /** The fold over `tvlBreakdowns`. */
  function BreakdownTotal(bs: seq<Entry>, toggles: Toggles): int
  {
    if bs == [] then 0
    else BreakdownTotal(bs[..|bs| - 1], toggles)
         + SectionContribution(bs[|bs| - 1].0, bs[|bs| - 1].1, toggles)
  }

  datatype Snapshot = Snapshot(date: int, totalLiquidityUSD: int)

  /** One entry of `historicalChainTvls`: a section and its daily snapshots. */
  type SectionHistory = (string, seq<Snapshot>)

  /** `tvl[tvl.length - 1]?.totalLiquidityUSD ?? 0`. */
  function LatestLiquidity(snaps: seq<Snapshot>): int
  {
    if snaps == [] then 0 else snaps[|snaps| - 1].totalLiquidityUSD
  }

  /** The `doublecounted` history is read without a guard, so it must not be empty. */
  predicate HistoryReadable(hs: seq<SectionHistory>)
  {
    forall i :: 0 <= i < |hs| && hs[i].0 == "doublecounted" ==> |hs[i].1| > 0
  }

  /** What one history section adds in the fallback; `offers` is not skipped here. */
  function HistoryContribution(section: string, snaps: seq<Snapshot>, toggles: Toggles): int
    requires section == "doublecounted" ==> |snaps| > 0
  {
    if '-' in section then 0
    else (if section == "doublecounted" then -snaps[|snaps| - 1].totalLiquidityUSD else 0)
         + (if Admitted(section, toggles) then LatestLiquidity(snaps) else 0)
  }

  /** The fallback fold over `historicalChainTvls`. */
  function HistoryTotal(hs: seq<SectionHistory>, toggles: Toggles): int
    requires HistoryReadable(hs)
  {
    if hs == [] then 0
    else HistoryTotal(hs[..|hs| - 1], toggles)
         + HistoryContribution(hs[|hs| - 1].0, hs[|hs| - 1].1, toggles)
  }

  /** The `totalVolume` memo: the breakdown fold, falling back to the history
      when it gave 0 and the breakdown has no keys. */
  function HeadlineTotal(bs: seq<Entry>, hs: seq<SectionHistory>, toggles: Toggles): int
    requires |bs| == 0 ==> HistoryReadable(hs)
  {
    var t := BreakdownTotal(bs, toggles);
    if t == 0 && |bs| == 0 then HistoryTotal(hs, toggles) else t
  }

  /** The `totalVolume` memo as the page runs it: two `forEach` walks that
      update one accumulator. */
  method TotalVolume(tvlBreakdowns: seq<Entry>, historicalChainTvls: seq<SectionHistory>,
                     extraTvlsEnabled: Toggles)
    returns (tvl: int)
    requires |tvlBreakdowns| == 0 ==> HistoryReadable(historicalChainTvls)
    ensures tvl == HeadlineTotal(tvlBreakdowns, historicalChainTvls, extraTvlsEnabled)
  {
    tvl := 0;
    var i := 0;
    while i < |tvlBreakdowns|
      invariant 0 <= i <= |tvlBreakdowns|
      invariant tvl == BreakdownTotal(tvlBreakdowns[..i], extraTvlsEnabled)
    {
      var (section, sectionTvl) := tvlBreakdowns[i];
      if !('-' in section || section == "offers") {
        if section == "doublecounted" {
          tvl := tvl - sectionTvl;
        }
        var key := ToLowerCase(section);
        if key in extraTvlsEnabled {
          if extraTvlsEnabled[key] {
            tvl := tvl + sectionTvl;
          }
        } else {
          tvl := tvl + sectionTvl;
        }
      }
      assert tvlBreakdowns[..i + 1][..i] == tvlBreakdowns[..i];
      i := i + 1;
    }
    assert tvlBreakdowns[..i] == tvlBreakdowns;

    if tvl == 0 && |tvlBreakdowns| == 0 {
      var j := 0;
      while j < |historicalChainTvls|
        invariant 0 <= j <= |historicalChainTvls|
        invariant tvl == HistoryTotal(historicalChainTvls[..j], extraTvlsEnabled)
      {
        var (section, snaps) := historicalChainTvls[j];
        if '-' !in section {
          if section == "doublecounted" {
            tvl := tvl - snaps[|snaps| - 1].totalLiquidityUSD;
          }
          var latest := if snaps == [] then 0 else snaps[|snaps| - 1].totalLiquidityUSD;
          var key := ToLowerCase(section);
          if key in extraTvlsEnabled {
            if extraTvlsEnabled[key] {
              tvl := tvl + latest;
            }
          } else {
            tvl := tvl + latest;
          }
        }
        assert historicalChainTvls[..j + 1][..j] == historicalChainTvls[..j];
        j := j + 1;
      }
      assert historicalChainTvls[..j] == historicalChainTvls;
    }
  }

  // -------------------------------------------------- reference sums

  /** The breakdown without the sections the total skips. */
  function CountedSections(bs: seq<Entry>): seq<Entry>
  {
    if bs == [] then []
    else CountedSections(bs[..|bs| - 1])
         + (if SkippedSection(bs[|bs| - 1].0) then [] else [bs[|bs| - 1]])
  }

  /** Sum of the amounts of the sections that are not skipped and are admitted. */
  function AdmittedSum(bs: seq<Entry>, toggles: Toggles): int
  {
    if bs == [] then 0
    else AdmittedSum(bs[..|bs| - 1], toggles)
         + (var (s, a) := bs[|bs| - 1];
            if !SkippedSection(s) && Admitted(s, toggles) then a else 0)
  }

  /** Sum of the amounts of the sections named exactly `doublecounted`. */
  function DoubleCountedSum(bs: seq<Entry>): int
  {
    if bs == [] then 0
    else DoubleCountedSum(bs[..|bs| - 1])
         + (if bs[|bs| - 1].0 == "doublecounted" then bs[|bs| - 1].1 else 0)
  }

  // -------------------------------------------------- properties

  /** Hyphenated sections and `offers` contribute nothing to the headline total. */
  lemma {:induction false} SkippedSectionsAddNothing(bs: seq<Entry>, toggles: Toggles)
    ensures BreakdownTotal(bs, toggles) == BreakdownTotal(CountedSections(bs), toggles)
  {
    if bs != [] {
      var init, last := bs[..|bs| - 1], bs[|bs| - 1];
      SkippedSectionsAddNothing(init, toggles);
      if SkippedSection(last.0) {
        assert CountedSections(bs) == CountedSections(init) + [];
        assert CountedSections(init) + [] == CountedSections(init);
      } else {
        assert CountedSections(bs) == CountedSections(init) + [last];
        BreakdownTotalSnoc(CountedSections(init), last, toggles);
      }
    }
  }

  lemma BreakdownTotalSnoc(bs: seq<Entry>, e: Entry, toggles: Toggles)
    ensures BreakdownTotal(bs + [e], toggles) == BreakdownTotal(bs, toggles) + SectionContribution(e.0, e.1, toggles)
  {
    assert (bs + [e])[..|bs|] == bs;
  }

  /** The sign convention: the `doublecounted` amount is always subtracted,
      and every admitted section (that one included) is added. */
  lemma {:induction false} DoubleCountedAlwaysSubtracted(bs: seq<Entry>, toggles: Toggles)
    ensures BreakdownTotal(bs, toggles) == AdmittedSum(bs, toggles) - DoubleCountedSum(bs)
  {
    if bs != [] {
      DoubleCountedAlwaysSubtracted(bs[..|bs| - 1], toggles);
    }
  }

  /** The net effect of a `doublecounted` section: −x when its toggle
      exists and is off, nothing otherwise. */
  lemma DoubleCountedNet(amount: int, toggles: Toggles)
    ensures SectionContribution("doublecounted", amount, toggles)
            == if "doublecounted" in toggles && !toggles["doublecounted"] then -amount else 0
  {
    DoubleCountedKey(toggles);
    assert SectionContribution("doublecounted", amount, toggles)
           == -amount + (if Admitted("doublecounted", toggles) then amount else 0);
  }

  /** `doublecounted` is already lower case, so it is its own toggle key. */
  lemma DoubleCountedKey(toggles: Toggles)
    ensures Admitted("doublecounted", toggles) == ("doublecounted" !in toggles || toggles["doublecounted"])
  {
    assert ToLowerCase("doublecounted") == "doublecounted";
  }

  /** Any other counted section contributes its amount unless its
      lower-cased name is a toggle key that is off. */
  lemma ToggleRule(section: string, amount: int, toggles: Toggles)
    requires !SkippedSection(section) && section != "doublecounted"
    ensures SectionContribution(section, amount, toggles)
            == if ToLowerCase(section) in toggles && !toggles[ToLowerCase(section)] then 0 else amount
  {
  }

  /** Sum of the latest liquidity of the history sections that have no
      hyphen and are admitted. */
  function HistoryAdmittedSum(hs: seq<SectionHistory>, toggles: Toggles): int
  {
    if hs == [] then 0
    else HistoryAdmittedSum(hs[..|hs| - 1], toggles)
         + (var (s, snaps) := hs[|hs| - 1];
            if '-' !in s && Admitted(s, toggles) then LatestLiquidity(snaps) else 0)
  }

  /** Sum of the latest liquidity of the history sections named exactly `doublecounted`. */
  function HistoryDoubleCountedSum(hs: seq<SectionHistory>): int
  {
    if hs == [] then 0
    else HistoryDoubleCountedSum(hs[..|hs| - 1])
         + (if hs[|hs| - 1].0 == "doublecounted" then LatestLiquidity(hs[|hs| - 1].1) else 0)
  }

  /** The sign convention of the fallback: the latest `doublecounted`
      liquidity is always subtracted, every admitted section without a
      hyphen (that one and `offers` included) is added, and hyphenated
      sections add nothing. */
  lemma {:induction false} HistoryDoubleCountedAlwaysSubtracted(hs: seq<SectionHistory>, toggles: Toggles)
    requires HistoryReadable(hs)
    ensures HistoryTotal(hs, toggles) == HistoryAdmittedSum(hs, toggles) - HistoryDoubleCountedSum(hs)
  {
    if hs != [] {
      HistoryDoubleCountedAlwaysSubtracted(hs[..|hs| - 1], toggles);
    }
  }

  /** A hyphenated history section leaves the fallback total unchanged. */
  lemma HyphenatedHistoryAddsNothing(hs: seq<SectionHistory>, section: string, snaps: seq<Snapshot>,
                                     toggles: Toggles)
    requires HistoryReadable(hs) && '-' in section
    ensures HistoryReadable(hs + [(section, snaps)])
    ensures HistoryTotal(hs + [(section, snaps)], toggles) == HistoryTotal(hs, toggles)
  {
    var t := hs + [(section, snaps)];
    assert t[..|t| - 1] == hs;
  }

  /** The history fallback runs exactly when the breakdown is empty (an
      empty breakdown always folds to 0). */
  lemma FallbackOnlyWhenEmpty(bs: seq<Entry>, hs: seq<SectionHistory>, toggles: Toggles)
    requires |bs| == 0 ==> HistoryReadable(hs)
    ensures HeadlineTotal(bs, hs, toggles)
            == if |bs| == 0 then HistoryTotal(hs, toggles) else BreakdownTotal(bs, toggles)
  {
  }

  /** In the fallback `offers` is counted like any section, and a section
      with no snapshot counts as 0. */
  lemma FallbackSectionRules(snaps: seq<Snapshot>, toggles: Toggles)
    ensures SectionContribution("offers", LatestLiquidity(snaps), toggles) == 0
    ensures HistoryContribution("offers", snaps, toggles)
            == if Admitted("offers", toggles) then LatestLiquidity(snaps) else 0
    ensures forall s :: s != "doublecounted" ==> HistoryContribution(s, [], toggles) == 0
  {
  }

  // ======================================================== per-chain split

  /** An entry of `protocolsAndChainsOptions`. */
  datatype ToggleOption = ToggleOption(key: string, name: string)

  /** The three outputs of the `tvlByChain.reduce`. */
  datatype ChainSplit = ChainSplit(tvls: seq<Entry>, extraTvls: seq<Entry>,
                                   tvlOptions: seq<Option<ToggleOption>>)

  /** `isLowerCase`: the string equals its own lower case. */
  function IsLowerCase(letter: string): (r: bool)
    ensures r <==> forall i :: 0 <= i < |letter| ==> !IsUpperAscii(letter[i])
  {
    assert forall i :: 0 <= i < |letter| ==>
      (letter[i] == ToLowerCase(letter)[i] <==> !IsUpperAscii(letter[i]));
    letter == ToLowerCase(letter)
  }

  /** Bookkeeping types the chain split drops. */
  predicate SkippedType(name: string)
  {
    name == "masterchef" || name == "offers"
  }

  /** A toggleable extra-TVL type: lower-case first letter and a settings key. */
  predicate IsExtraType(name: string, settingsKeys: seq<string>)
    requires |name| > 0
  {
    IsLowerCase([name[0]]) && name in settingsKeys
  }

  /** `protocolsAndChainsOptions.find((e) => e.key === key)`. */
  function FindOption(options: seq<ToggleOption>, key: string): (r: Option<ToggleOption>)
    ensures r.None? <==> forall i :: 0 <= i < |options| ==> options[i].key != key
    ensures r.Some? ==> exists i :: 0 <= i < |options| && options[i] == r.value && r.value.key == key
                          && forall j :: 0 <= j < i ==> options[j].key != key
  {
    if options == [] then None
    else if options[0].key == key then Some(options[0])
    else
      var r := FindOption(options[1..], key);
      if r.Some? then
        var i :| 0 <= i < |options[1..]| && options[1..][i] == r.value && r.value.key == key
                 && forall j :: 0 <= j < i ==> options[1..][j].key != key;
        assert options[i + 1] == r.value;
        r
      else r
  }

  /** `(acc.tvls[key] || 0)`. */
  function Lookup(tvls: seq<Entry>, key: string): int
  {
    if tvls == [] then 0
    else if tvls[0].0 == key then tvls[0].1
    else Lookup(tvls[1..], key)
  }

  predicate HasKey(tvls: seq<Entry>, key: string)
  {
    exists i :: 0 <= i < |tvls| && tvls[i].0 == key
  }

  predicate DistinctKeys(tvls: seq<Entry>)
  {
    forall i, j :: 0 <= i < j < |tvls| ==> tvls[i].0 != tvls[j].0
  }

  /** Sum of the values of an object. */
  function SumValues(tvls: seq<Entry>): int
  {
    if tvls == [] then 0 else tvls[0].1 + SumValues(tvls[1..])
  }

  /** `acc.tvls[key] = (acc.tvls[key] || 0) + amount`: a present key is
      updated in place, a new key goes last. */
  function AddAmount(tvls: seq<Entry>, key: string, amount: int): (r: seq<Entry>)
    ensures Lookup(r, key) == Lookup(tvls, key) + amount
    ensures forall c :: c != key ==> Lookup(r, c) == Lookup(tvls, c)
    ensures forall c :: HasKey(r, c) <==> HasKey(tvls, c) || c == key
    ensures SumValues(r) == SumValues(tvls) + amount
    ensures DistinctKeys(tvls) ==> DistinctKeys(r)
  {
    if tvls == [] then [(key, amount)]
    else
      var rest := if tvls[0].0 == key then tvls[1..] else AddAmount(tvls[1..], key, amount);
      var head := if tvls[0].0 == key then (key, tvls[0].1 + amount) else tvls[0];
      HasKeyCons(tvls[0], tvls[1..]);
      HasKeyCons(head, rest);
      DistinctKeysCons(tvls[0], tvls[1..]);
      DistinctKeysCons(head, rest);
      assert tvls == [tvls[0]] + tvls[1..];
      [head] + rest
  }

  lemma HasKeyCons(e: Entry, rest: seq<Entry>)
    ensures forall c :: HasKey([e] + rest, c) <==> e.0 == c || HasKey(rest, c)
  {
    var t := [e] + rest;
    forall c | HasKey(t, c) ensures e.0 == c || HasKey(rest, c) {
      var i :| 0 <= i < |t| && t[i].0 == c;
      if i > 0 { assert rest[i - 1].0 == c; }
    }
    forall c | HasKey(rest, c) ensures HasKey(t, c) {
      var i :| 0 <= i < |rest| && rest[i].0 == c;
      assert t[i + 1].0 == c;
    }
    assert t[0].0 == e.0;
  }

  lemma DistinctKeysCons(e: Entry, rest: seq<Entry>)
    ensures DistinctKeys([e] + rest) <==> !HasKey(rest, e.0) && DistinctKeys(rest)
  {
    var t := [e] + rest;
    if DistinctKeys(t) {
      forall i | 0 <= i < |rest| ensures rest[i].0 != e.0 {
        assert t[0].0 != t[i + 1].0;
      }
      forall i, j | 0 <= i < j < |rest| ensures rest[i].0 != rest[j].0 {
        assert t[i + 1].0 != t[j + 1].0;
      }
    }
    if !HasKey(rest, e.0) && DistinctKeys(rest) {
      forall i, j | 0 <= i < j < |t| ensures t[i].0 != t[j].0 {
        if i == 0 {
          assert t[j].0 == rest[j - 1].0;
        } else {
          assert t[i].0 == rest[i - 1].0 && t[j].0 == rest[j - 1].0;
        }
      }
    }
  }

  /** Where an entry lands in `tvls`: nowhere for bookkeeping and extra
      types; under its own name when it has no hyphen; under its chain
      (the first segment) when the toggle of its second segment is on. */
  function Route(name: string, toggles: Toggles, settingsKeys: seq<string>): Option<string>
    requires |name| > 0
  {
    if SkippedType(name) || IsExtraType(name, settingsKeys) then None
    else if '-' !in name then Some(name)
    else if Enabled(toggles, ToLowerCase(SecondSegment(name))) then Some(FirstSegment(name))
    else None
  }

  predicate NamesNonEmpty(entries: seq<Entry>)
  {
    forall i :: 0 <= i < |entries| ==> |entries[i].0| > 0
  }

  /** One step of the `tvlByChain.reduce`. */
  function ChainStep(acc: ChainSplit, name: string, amount: int, toggles: Toggles,
                     settingsKeys: seq<string>, options: seq<ToggleOption>): ChainSplit
    requires |name| > 0
  {
    if SkippedType(name) then acc
    else if IsExtraType(name, settingsKeys) then
      acc.(extraTvls := acc.extraTvls + [(name, amount)],
           tvlOptions := acc.tvlOptions + [FindOption(options, name)])
    else if '-' !in name then acc.(tvls := AddAmount(acc.tvls, name, amount))
    else if Enabled(toggles, ToLowerCase(SecondSegment(name))) then
      acc.(tvls := AddAmount(acc.tvls, FirstSegment(name), amount))
    else acc
  }

  /** The whole `tvlByChain.reduce`, from the empty accumulator. */
  function ChainFold(entries: seq<Entry>, toggles: Toggles, settingsKeys: seq<string>,
                     options: seq<ToggleOption>): ChainSplit
    requires NamesNonEmpty(entries)
  {
    if entries == [] then ChainSplit([], [], [])
    else
      var last := entries[|entries| - 1];
      ChainStep(ChainFold(entries[..|entries| - 1], toggles, settingsKeys, options),
                last.0, last.1, toggles, settingsKeys, options)
  }

  /** The `tvlByChain.reduce` as the page runs it: it updates `tvls` and
      pushes onto `extraTvls` and `tvlOptions`. */
  method SplitTvlByChain(tvlByChain: seq<Entry>, extraTvlsEnabled: Toggles,
                         settingsKeys: seq<string>, options: seq<ToggleOption>)
    returns (split: ChainSplit)
    requires NamesNonEmpty(tvlByChain)
    ensures split == ChainFold(tvlByChain, extraTvlsEnabled, settingsKeys, options)
    ensures split.extraTvls == ExtraEntries(tvlByChain, settingsKeys)
    ensures |split.tvlOptions| == |split.extraTvls|
    ensures forall i :: 0 <= i < |split.extraTvls| ==>
              split.tvlOptions[i] == FindOption(options, split.extraTvls[i].0)
    ensures DistinctKeys(split.tvls)
    ensures forall c :: HasKey(split.tvls, c) <==> RoutedKey(tvlByChain, c, extraTvlsEnabled, settingsKeys)
    ensures forall c :: Lookup(split.tvls, c) == RoutedSum(tvlByChain, c, extraTvlsEnabled, settingsKeys)
    ensures SumValues(split.tvls) == PlainSum(tvlByChain, settingsKeys)
                                     + EnabledHyphenSum(tvlByChain, extraTvlsEnabled, settingsKeys)
  {
    var tvls: seq<Entry> := [];
    var extraTvls: seq<Entry> := [];
    var tvlOptions: seq<Option<ToggleOption>> := [];
    var i := 0;
    while i < |tvlByChain|
      invariant 0 <= i <= |tvlByChain|
      invariant ChainSplit(tvls, extraTvls, tvlOptions)
                == ChainFold(tvlByChain[..i], extraTvlsEnabled, settingsKeys, options)
    {
      var (name, tvl) := tvlByChain[i];
      if name == "masterchef" || name == "offers" {
      } else if IsLowerCase([name[0]]) && name in settingsKeys {
        extraTvls := extraTvls + [(name, tvl)];
        tvlOptions := tvlOptions + [FindOption(options, name)];
      } else if '-' !in name {
        tvls := AddAmount(tvls, name, tvl);
      } else {
        var chainName := FirstSegment(name);
        var prop := SecondSegment(name);
        if Enabled(extraTvlsEnabled, ToLowerCase(prop)) {
          tvls := AddAmount(tvls, chainName, tvl);
        }
      }
      assert tvlByChain[..i + 1][..i] == tvlByChain[..i];
      i := i + 1;
    }
    assert tvlByChain[..i] == tvlByChain;
    split := ChainSplit(tvls, extraTvls, tvlOptions);
    ChainExtrasInOrder(tvlByChain, extraTvlsEnabled, settingsKeys, options);
    ChainTotalsClosedForm(tvlByChain, extraTvlsEnabled, settingsKeys, options);
    ChainKeys(tvlByChain, extraTvlsEnabled, settingsKeys, options);
    ChainConservation(tvlByChain, extraTvlsEnabled, settingsKeys, options);
  }

  // -------------------------------------------------- reference definitions

  /** The extra-type entries, in input order. */
  function ExtraEntries(entries: seq<Entry>, settingsKeys: seq<string>): seq<Entry>
    requires NamesNonEmpty(entries)
  {
    if entries == [] then []
    else
      var last := entries[|entries| - 1];
      ExtraEntries(entries[..|entries| - 1], settingsKeys)
      + (if !SkippedType(last.0) && IsExtraType(last.0, settingsKeys) then [last] else [])
  }

  /** Sum of the amounts of the entries routed to chain `c`. */
  function RoutedSum(entries: seq<Entry>, c: string, toggles: Toggles, settingsKeys: seq<string>): int
    requires NamesNonEmpty(entries)
  {
    if entries == [] then 0
    else
      var last := entries[|entries| - 1];
      RoutedSum(entries[..|entries| - 1], c, toggles, settingsKeys)
      + (if Route(last.0, toggles, settingsKeys) == Some(c) then last.1 else 0)
  }

  /** Some entry is routed to chain `c`. */
  predicate RoutedKey(entries: seq<Entry>, c: string, toggles: Toggles, settingsKeys: seq<string>)
    requires NamesNonEmpty(entries)
  {
    exists i :: 0 <= i < |entries| && Route(entries[i].0, toggles, settingsKeys) == Some(c)
  }

  /** A whole-chain entry: not bookkeeping, not an extra type, no hyphen. */
  predicate PlainEntry(name: string, settingsKeys: seq<string>)
    requires |name| > 0
  {
    !SkippedType(name) && !IsExtraType(name, settingsKeys) && '-' !in name
  }

  /** A `<chain>-<type>` entry whose type's toggle is on. */
  predicate EnabledHyphenEntry(name: string, toggles: Toggles, settingsKeys: seq<string>)
    requires |name| > 0
  {
    !SkippedType(name) && !IsExtraType(name, settingsKeys) && '-' in name
    && Enabled(toggles, ToLowerCase(SecondSegment(name)))
  }

  function PlainSum(entries: seq<Entry>, settingsKeys: seq<string>): int
    requires NamesNonEmpty(entries)
  {
    if entries == [] then 0
    else
      var last := entries[|entries| - 1];
      PlainSum(entries[..|entries| - 1], settingsKeys)
      + (if PlainEntry(last.0, settingsKeys) then last.1 else 0)
  }

  function EnabledHyphenSum(entries: seq<Entry>, toggles: Toggles, settingsKeys: seq<string>): int
    requires NamesNonEmpty(entries)
  {
    if entries == [] then 0
    else
      var last := entries[|entries| - 1];
      EnabledHyphenSum(entries[..|entries| - 1], toggles, settingsKeys)
      + (if EnabledHyphenEntry(last.0, toggles, settingsKeys) then last.1 else 0)
  }

  // -------------------------------------------------- properties

  /** `extraTvls` holds exactly the extra-type entries in input order, and
      `tvlOptions` holds the option found for each of them. */
  lemma {:induction false} ChainExtrasInOrder(entries: seq<Entry>, toggles: Toggles,
                                              settingsKeys: seq<string>, options: seq<ToggleOption>)
    requires NamesNonEmpty(entries)
    ensures ChainFold(entries, toggles, settingsKeys, options).extraTvls == ExtraEntries(entries, settingsKeys)
    ensures |ChainFold(entries, toggles, settingsKeys, options).tvlOptions|
            == |ChainFold(entries, toggles, settingsKeys, options).extraTvls|
    ensures forall i :: 0 <= i < |ChainFold(entries, toggles, settingsKeys, options).extraTvls| ==>
              ChainFold(entries, toggles, settingsKeys, options).tvlOptions[i]
              == FindOption(options, ChainFold(entries, toggles, settingsKeys, options).extraTvls[i].0)
  {
    if entries != [] {
      var init, last := entries[..|entries| - 1], entries[|entries| - 1];
      ChainExtrasInOrder(init, toggles, settingsKeys, options);
      var prev := ChainFold(init, toggles, settingsKeys, options);
      var cur := ChainFold(entries, toggles, settingsKeys, options);
      assert cur == ChainStep(prev, last.0, last.1, toggles, settingsKeys, options);
      if !SkippedType(last.0) && IsExtraType(last.0, settingsKeys) {
        assert cur.extraTvls == prev.extraTvls + [last];
        assert cur.tvlOptions == prev.tvlOptions + [FindOption(options, last.0)];
      } else {
        assert cur.extraTvls == prev.extraTvls && cur.tvlOptions == prev.tvlOptions;
      }
    }
  }

  /** Every chain total is the sum of the entries routed to it, and no key
      appears twice. */
  lemma {:induction false} ChainTotalsClosedForm(entries: seq<Entry>, toggles: Toggles,
                                                 settingsKeys: seq<string>, options: seq<ToggleOption>)
    requires NamesNonEmpty(entries)
    ensures var s := ChainFold(entries, toggles, settingsKeys, options);
            DistinctKeys(s.tvls)
            && forall c :: Lookup(s.tvls, c) == RoutedSum(entries, c, toggles, settingsKeys)
  {
    if entries != [] {
      ChainTotalsClosedForm(entries[..|entries| - 1], toggles, settingsKeys, options);
    }
  }

  /** `tvls` has a key exactly for the chains some entry is routed to:
      bookkeeping entries, extra types and hyphenated entries whose toggle
      is off create no key. */
  lemma {:induction false} ChainKeys(entries: seq<Entry>, toggles: Toggles,
                                     settingsKeys: seq<string>, options: seq<ToggleOption>)
    requires NamesNonEmpty(entries)
    ensures forall c :: HasKey(ChainFold(entries, toggles, settingsKeys, options).tvls, c)
                        <==> RoutedKey(entries, c, toggles, settingsKeys)
  {
    if entries != [] {
      ChainKeys(entries[..|entries| - 1], toggles, settingsKeys, options);
      RoutedKeySnoc(entries, toggles, settingsKeys);
    }
  }

  /** An entry list routes to `c` iff its prefix does or its last entry does. */
  lemma RoutedKeySnoc(entries: seq<Entry>, toggles: Toggles, settingsKeys: seq<string>)
    requires NamesNonEmpty(entries) && entries != []
    ensures forall c :: RoutedKey(entries, c, toggles, settingsKeys)
                        <==> RoutedKey(entries[..|entries| - 1], c, toggles, settingsKeys)
                             || Route(entries[|entries| - 1].0, toggles, settingsKeys) == Some(c)
  {
    var init := entries[..|entries| - 1];
    forall c ensures RoutedKey(entries, c, toggles, settingsKeys)
                     ==> RoutedKey(init, c, toggles, settingsKeys)
                         || Route(entries[|entries| - 1].0, toggles, settingsKeys) == Some(c)
    {
      if RoutedKey(entries, c, toggles, settingsKeys) {
        var i :| 0 <= i < |entries| && Route(entries[i].0, toggles, settingsKeys) == Some(c);
        if i < |init| { assert init[i] == entries[i]; }
      }
    }
    forall c | RoutedKey(init, c, toggles, settingsKeys) ensures RoutedKey(entries, c, toggles, settingsKeys) {
      var i :| 0 <= i < |init| && Route(init[i].0, toggles, settingsKeys) == Some(c);
      assert entries[i] == init[i];
    }
  }

  /** Conservation: the chain totals add up to the whole-chain entries plus
      the hyphenated entries whose toggle is on. */
  lemma {:induction false} ChainConservation(entries: seq<Entry>, toggles: Toggles,
                                             settingsKeys: seq<string>, options: seq<ToggleOption>)
    requires NamesNonEmpty(entries)
    ensures SumValues(ChainFold(entries, toggles, settingsKeys, options).tvls)
            == PlainSum(entries, settingsKeys) + EnabledHyphenSum(entries, toggles, settingsKeys)
  {
    if entries != [] {
      ChainConservation(entries[..|entries| - 1], toggles, settingsKeys, options);
    }
  }

  /** With every toggle off, hyphenated entries add nothing. */
  lemma {:induction false} AllTogglesOffKeepsPlainTotals(entries: seq<Entry>, toggles: Toggles,
                                                         settingsKeys: seq<string>, options: seq<ToggleOption>)
    requires NamesNonEmpty(entries)
    requires forall k :: k in toggles ==> !toggles[k]
    ensures SumValues(ChainFold(entries, toggles, settingsKeys, options).tvls) == PlainSum(entries, settingsKeys)
  {
    ChainConservation(entries, toggles, settingsKeys, options);
    NoEnabledHyphen(entries, toggles, settingsKeys);
  }

  lemma {:induction false} NoEnabledHyphen(entries: seq<Entry>, toggles: Toggles, settingsKeys: seq<string>)
    requires NamesNonEmpty(entries)
    requires forall k :: k in toggles ==> !toggles[k]
    ensures EnabledHyphenSum(entries, toggles, settingsKeys) == 0
  {
    if entries != [] {
      NoEnabledHyphen(entries[..|entries| - 1], toggles, settingsKeys);
    }
  }

  /** `masterchef` and `offers` entries change no output. */
  lemma {:induction false} BookkeepingEntriesIgnored(entries: seq<Entry>, name: string, amount: int,
                                                     toggles: Toggles, settingsKeys: seq<string>,
                                                     options: seq<ToggleOption>)
    requires NamesNonEmpty(entries) && SkippedType(name)
    ensures ChainFold(entries + [(name, amount)], toggles, settingsKeys, options)
            == ChainFold(entries, toggles, settingsKeys, options)
  {
    var e := entries + [(name, amount)];
    assert e[..|e| - 1] == entries;
  }

  // ======================================================== small helpers

  const AnnualizedNote := "This is calculated by taking data from the last 30 days and multiplying it by 12 to annualize it"

  /** A helper text as the page receives it (`string | null`, or missing). */
  datatype HelperText = Undefined | Null | Text(s: string)

  /** `explainAnnualized` as written: only `undefined` omits the helper
      text, so a template literal renders `null` as the word "null". */
  function ExplainAnnualized(text: HelperText): (r: string)
    ensures |AnnualizedNote| <= |r| && r[|r| - |AnnualizedNote|..] == AnnualizedNote
    ensures text.Undefined? <==> r == AnnualizedNote
    ensures text.Null? ==> r == "null.\n" + AnnualizedNote
    ensures text.Text? ==> |r| == |text.s| + 2 + |AnnualizedNote|
                           && r[..|text.s|] == text.s
                           && r[|text.s|..|text.s| + 2] == ".\n"
  {
    (match text
     case Undefined => ""
     case Null => "null" + ".\n"
     case Text(s) => s + ".\n") + AnnualizedNote
  }

  /** Recovers the helper text from an explanation: what precedes the full
      stop and line break in front of the note, if anything does. */
  function HelperTextOf(explanation: string): HelperText
  {
    if |explanation| < |AnnualizedNote| + 2 then Undefined
    else Text(explanation[..|explanation| - |AnnualizedNote| - 2])
  }

  /** A missing or string helper text is recovered from the explanation; a
      `null` one comes back as the string "null". */
  lemma ExplainAnnualizedRoundTrip(text: HelperText)
    ensures !text.Null? ==> HelperTextOf(ExplainAnnualized(text)) == text
    ensures text.Null? ==> HelperTextOf(ExplainAnnualized(text)) == Text("null")
  {
    var r := ExplainAnnualized(text);
    match text
    case Undefined =>
    case Null =>
      assert r[..|r| - |AnnualizedNote| - 2] == "null";
    case Text(s) =>
      assert r[..|r| - |AnnualizedNote| - 2] == r[..|s|];
  }

  /** A `null` helper text renders exactly like the string "null". */
  lemma NullRendersAsText()
    ensures ExplainAnnualized(Null) == ExplainAnnualized(Text("null"))
    ensures ExplainAnnualized(Null) != ExplainAnnualized(Undefined)
  {
    assert ExplainAnnualized(Null)[..4] == "null";
  }

  /** `explainAnnualized` as evidently intended: a `null` helper text is
      omitted like a missing one. */
  function ExplainAnnualizedIntended(text: HelperText): (r: string)
    ensures r == (if text.Text? then ExplainAnnualized(text) else AnnualizedNote)
    ensures !text.Text? <==> r == AnnualizedNote
  {
    (if text.Text? then text.s + ".\n" else "") + AnnualizedNote
  }

  /** With the intended reading every explanation gives back its helper
      text, and one without a helper text is the note alone. */
  lemma ExplainAnnualizedIntendedRoundTrip(text: HelperText)
    ensures HelperTextOf(ExplainAnnualizedIntended(text)) == if text.Text? then text else Undefined
  {
    ExplainAnnualizedRoundTrip(text);
  }

  /** An entry of `chainCoingeckoIds`, or the fixed USD entry. */
  datatype Denomination = Denomination(symbol: string, geckoId: Option<string>)

  /** `chainCoingeckoIds[chain]?.geckoId` is truthy. */
  predicate HasGeckoId(ids: map<string, Denomination>, chain: string)
  {
    chain in ids && TruthyText(ids[chain].geckoId)
  }

  /** The `chartDenominations` list, built by `push`; a missing Ethereum
      entry is pushed as `undefined`. */
  method ChartDenominations(isCEX: bool, chains: seq<string>, chainCoingeckoIds: map<string, Denomination>)
    returns (ds: seq<Option<Denomination>>)
    ensures isCEX || |chains| == 0 ==> ds == []
    ensures !isCEX && |chains| > 0 ==>
              |ds| == 2 && ds[0] == Some(Denomination("USD", None))
              && ds[1] == if HasGeckoId(chainCoingeckoIds, chains[0]) then Some(chainCoingeckoIds[chains[0]])
                          else if "Ethereum" in chainCoingeckoIds then Some(chainCoingeckoIds["Ethereum"])
                          else None
  {
    ds := [];
    if !isCEX && |chains| > 0 {
      ds := ds + [Some(Denomination("USD", None))];
      if HasGeckoId(chainCoingeckoIds, chains[0]) {
        ds := ds + [Some(chainCoingeckoIds[chains[0]])];
      } else {
        ds := ds + [if "Ethereum" in chainCoingeckoIds then Some(chainCoingeckoIds["Ethereum"]) else None];
      }
    }
  }

  /** The `ownTokens` amount of a treasury. */
  function OwnTokens(treasury: seq<Entry>): int
  {
    if treasury == [] then 0
    else OwnTokens(treasury[..|treasury| - 1])
         + (if treasury[|treasury| - 1].0 == "ownTokens" then treasury[|treasury| - 1].1 else 0)
  }

  /** The sum of every amount. */
  function FullSum(entries: seq<Entry>): int
  {
    if entries == [] then 0 else FullSum(entries[..|entries| - 1]) + entries[|entries| - 1].1
  }

  /** The treasury row: the sum of `treasury` without its `ownTokens` key. */
  function TreasuryTotal(treasury: seq<Entry>): (r: int)
    ensures r == FullSum(treasury) - OwnTokens(treasury)
  {
    if treasury == [] then 0
    else TreasuryTotal(treasury[..|treasury| - 1])
         + (if treasury[|treasury| - 1].0 == "ownTokens" then 0 else treasury[|treasury| - 1].1)
  }

  /** One row of `tokenLiquidity`: `[symbol, chain, amount]`. */
  datatype LiquidityRow = LiquidityRow(symbol: string, chain: string, amount: int)

  /** The token-liquidity row: the sum of the third components. */
  function LiquidityTotal(rows: seq<LiquidityRow>): (r: int)
    ensures (forall i :: 0 <= i < |rows| ==> rows[i].amount >= 0) ==>
              r >= 0 && forall i :: 0 <= i < |rows| ==> rows[i].amount <= r
  {
    if rows == [] then 0 else LiquidityTotal(rows[..|rows| - 1]) + rows[|rows| - 1].amount
  }

  /** The liquidity sum splits over any partition of the rows into a prefix and a suffix. */
  lemma {:induction false} LiquidityTotalAppend(a: seq<LiquidityRow>, b: seq<LiquidityRow>)
    ensures LiquidityTotal(a + b) == LiquidityTotal(a) + LiquidityTotal(b)
  {
    if b != [] {
      assert (a + b)[..|a + b| - 1] == a + b[..|b| - 1];
      LiquidityTotalAppend(a, b[..|b| - 1]);
    } else {
      assert a + b == a;
    }
  }
}
