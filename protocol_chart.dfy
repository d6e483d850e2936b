/** The configuration planner of the protocol area/bar chart: which y-axis
    groups exist and at what index, one series per stack with its type,
    axis, colour and gradient, the data points of every series, the
    hallmark markers on the first series, the y-axis list with its offsets,
    and the merge of caller chart options into the defaults. */
module ProtocolChart {
  import opened Js

  // ======================================================== axis groups

  /** The fifteen compatibility groups: stacks that share one y-axis scale. */
  datatype AxisGroup =
    | TvlGroup | TokenPriceGroup | TokenVolumeGroup | TokenLiquidityGroup | BridgeGroup
    | EarningsGroup | UnlocksGroup | UsersGroup | TransactionsGroup | GasGroup
    | ApyGroup | InflowsGroup | GovernanceGroup | VotesGroup | TreasuryGroup

  /** The order in which the planner tests the groups. */
  const GroupOrder: seq<AxisGroup> := [
    TvlGroup, TokenPriceGroup, TokenVolumeGroup, TokenLiquidityGroup, BridgeGroup,
    EarningsGroup, UnlocksGroup, UsersGroup, TransactionsGroup, GasGroup,
    ApyGroup, InflowsGroup, GovernanceGroup, VotesGroup, TreasuryGroup
  ]

  /** The stacks whose presence materialises a group. */
  function Members(g: AxisGroup): seq<string>
  {
    match g
    case TvlGroup => ["TVL", "Mcap", "FDV", "Borrowed", "Staking"]
    case TokenPriceGroup => ["Token Price"]
    case TokenVolumeGroup => ["Token Volume"]
    case TokenLiquidityGroup => ["Token Liquidity"]
    case BridgeGroup => ["Bridge Deposits", "Bridge Withdrawals"]
    case EarningsGroup => ["Volume", "Fees", "Revenue"]
    case UnlocksGroup => ["Unlocks"]
    case UsersGroup => ["Active Users", "New Users"]
    case TransactionsGroup => ["Transactions"]
    case GasGroup => ["Gas Used"]
    case ApyGroup => ["Median APY"]
    case InflowsGroup => ["USD Inflows"]
    case GovernanceGroup => ["Total Proposals", "Successful Proposals"]
    case VotesGroup => ["Max Votes"]
    case TreasuryGroup => ["Treasury"]
  }

  /** The group's key in `yAxisByIndex`: its members joined with `+`. */
  function Key(g: AxisGroup): string
  {
    match g
    case TvlGroup => "TVL+Mcap+FDV+Borrowed+Staking"
    case TokenPriceGroup => "Token Price"
    case TokenVolumeGroup => "Token Volume"
    case TokenLiquidityGroup => "Token Liquidity"
    case BridgeGroup => "Bridge Deposits+Bridge Withdrawals"
    case EarningsGroup => "Volume+Fees+Revenue"
    case UnlocksGroup => "Unlocks"
    case UsersGroup => "Active Users+New Users"
    case TransactionsGroup => "Transactions"
    case GasGroup => "Gas Used"
    case ApyGroup => "Median APY"
    case InflowsGroup => "USD Inflows"
    case GovernanceGroup => "Total Proposals+Successful Proposals"
    case VotesGroup => "Max Votes"
    case TreasuryGroup => "Treasury"
  }

  /** A group's position in the test order. */
  function Rank(g: AxisGroup): nat
  {
    match g
    case TvlGroup => 0
    case TokenPriceGroup => 1
    case TokenVolumeGroup => 2
    case TokenLiquidityGroup => 3
    case BridgeGroup => 4
    case EarningsGroup => 5
    case UnlocksGroup => 6
    case UsersGroup => 7
    case TransactionsGroup => 8
    case GasGroup => 9
    case ApyGroup => 10
    case InflowsGroup => 11
    case GovernanceGroup => 12
    case VotesGroup => 13
    case TreasuryGroup => 14
  }

  /** Every group is tested exactly once, at its rank. */
  lemma GroupOrderRanks()
    ensures |GroupOrder| == 15
    ensures forall k :: 0 <= k < |GroupOrder| ==> Rank(GroupOrder[k]) == k
    ensures forall g :: Rank(g) < |GroupOrder| && GroupOrder[Rank(g)] == g
  {
    forall k | 0 <= k < |GroupOrder| ensures Rank(GroupOrder[k]) == k {
      if k == 0 {} else if k == 1 {} else if k == 2 {} else if k == 3 {} else if k == 4 {}
      else if k == 5 {} else if k == 6 {} else if k == 7 {} else if k == 8 {} else if k == 9 {}
      else if k == 10 {} else if k == 11 {} else if k == 12 {} else if k == 13 {} else {}
    }
    forall g ensures Rank(g) < |GroupOrder| && GroupOrder[Rank(g)] == g {
      match g
      case TvlGroup => case TokenPriceGroup => case TokenVolumeGroup => case TokenLiquidityGroup =>
      case BridgeGroup => case EarningsGroup => case UnlocksGroup => case UsersGroup =>
      case TransactionsGroup => case GasGroup => case ApyGroup => case InflowsGroup =>
      case GovernanceGroup => case VotesGroup => case TreasuryGroup =>
    }
  }

  /** Different groups have different ranks. */
  lemma RankInjective()
    ensures forall g1, g2 :: Rank(g1) == Rank(g2) ==> g1 == g2
  {
  }

  /** `order` tests every group of rank below its length at that rank. */
  predicate RanksInOrder(order: seq<AxisGroup>)
  {
    (forall k :: 0 <= k < |order| ==> Rank(order[k]) == k)
    && (forall g :: Rank(g) < |order| ==> order[Rank(g)] == g)
  }

  /** A group is materialised when at least one of its members is requested. */
  predicate GroupPresent(g: AxisGroup, stacks: seq<string>)
  {
    exists i :: 0 <= i < |Members(g)| && Members(g)[i] in stacks
  }

  /** The groups among the first `n` tested in `order` that pass `present`, in test order. */
  function PresentGroupsIn(order: seq<AxisGroup>, present: AxisGroup -> bool, n: nat): seq<AxisGroup>
    requires n <= |order|
  {
    if n == 0 then []
    else PresentGroupsIn(order, present, n - 1) + (if present(order[n - 1]) then [order[n - 1]] else [])
  }

  function PresentGroups(stacks: seq<string>): seq<AxisGroup>
  {
    PresentGroupsIn(GroupOrder, g => GroupPresent(g, stacks), |GroupOrder|)
  }

  /** The present groups come in strictly increasing rank, and a group of
      rank below `n` is listed iff it is present. */
  lemma PresentGroupsFacts(order: seq<AxisGroup>, present: AxisGroup -> bool, n: nat)
    requires n <= |order| && RanksInOrder(order)
    ensures var r := PresentGroupsIn(order, present, n);
            (forall j :: 0 <= j < |r| ==> Rank(r[j]) < n && present(r[j]))
            && (forall j1, j2 :: 0 <= j1 < j2 < |r| ==> Rank(r[j1]) < Rank(r[j2]))
            && (forall g :: Rank(g) < n ==> (g in r <==> present(g)))
  {
    PresentGroupsBounded(order, present, n);
    PresentGroupsIncreasing(order, present, n);
    PresentGroupsComplete(order, present, n);
  }

  /** Every listed group passes `present` and has rank below `n`. */
  lemma {:induction false} PresentGroupsBounded(order: seq<AxisGroup>, present: AxisGroup -> bool, n: nat)
    requires n <= |order| && RanksInOrder(order)
    ensures forall j :: 0 <= j < |PresentGroupsIn(order, present, n)| ==>
              Rank(PresentGroupsIn(order, present, n)[j]) < n && present(PresentGroupsIn(order, present, n)[j])
  {
    if n > 0 {
      PresentGroupsBounded(order, present, n - 1);
      var prev := PresentGroupsIn(order, present, n - 1);
      var r := PresentGroupsIn(order, present, n);
      assert Rank(order[n - 1]) == n - 1;
      if present(order[n - 1]) {
        assert r == prev + [order[n - 1]];
      } else {
        assert r == prev;
      }
    }
  }

  lemma {:induction false} PresentGroupsIncreasing(order: seq<AxisGroup>, present: AxisGroup -> bool, n: nat)
    requires n <= |order| && RanksInOrder(order)
    ensures forall j1, j2 :: 0 <= j1 < j2 < |PresentGroupsIn(order, present, n)| ==>
              Rank(PresentGroupsIn(order, present, n)[j1]) < Rank(PresentGroupsIn(order, present, n)[j2])
  {
    if n > 0 {
      PresentGroupsIncreasing(order, present, n - 1);
      PresentGroupsBounded(order, present, n - 1);
      var prev := PresentGroupsIn(order, present, n - 1);
      var r := PresentGroupsIn(order, present, n);
      assert Rank(order[n - 1]) == n - 1;
      if present(order[n - 1]) {
        assert r == prev + [order[n - 1]];
        forall j1, j2 | 0 <= j1 < j2 < |r| ensures Rank(r[j1]) < Rank(r[j2]) {
          assert r[j1] == prev[j1];
          if j2 == |prev| {
            assert r[j2] == order[n - 1];
          } else {
            assert r[j2] == prev[j2];
          }
        }
      } else {
        assert r == prev;
      }
    }
  }

  lemma {:induction false} PresentGroupsComplete(order: seq<AxisGroup>, present: AxisGroup -> bool, n: nat)
    requires n <= |order| && RanksInOrder(order)
    ensures forall g :: Rank(g) < n ==> (g in PresentGroupsIn(order, present, n) <==> present(g))
  {
    if n > 0 {
      PresentGroupsComplete(order, present, n - 1);
      var prev := PresentGroupsIn(order, present, n - 1);
      var r := PresentGroupsIn(order, present, n);
      assert Rank(order[n - 1]) == n - 1;
      forall g | Rank(g) < n ensures g in r <==> present(g) {
        assert r == prev + (if present(order[n - 1]) then [order[n - 1]] else []);
        if Rank(g) != n - 1 {
          assert g != order[n - 1];
          assert g in r <==> g in prev;
        } else {
          assert order[Rank(g)] == g;
          PresentGroupsBounded(order, present, n - 1);
          assert forall j :: 0 <= j < |prev| ==> prev[j] != g;
        }
      }
    }
  }

  /** The value stored for the `j`-th key: `undefined` when exactly one
      stack is requested, else the key count at insertion time. */
  function IndexValue(stackCount: nat, j: nat): Option<nat>
  {
    if stackCount == 1 then None else Some(j)
  }

  /** `yAxisByIndex`, as its entries in insertion order; an entry's key is
      `Key` of its group. */
  type AxisIndex = seq<(AxisGroup, Option<nat>)>

  /** The index after the first `n` tests of `order`: a present group is
      added under the number of keys already there. */
  function AxisIndexIn(order: seq<AxisGroup>, present: AxisGroup -> bool, stackCount: nat, n: nat): AxisIndex
    requires n <= |order|
  {
    if n == 0 then []
    else
      var prev := AxisIndexIn(order, present, stackCount, n - 1);
      if present(order[n - 1]) then prev + [(order[n - 1], IndexValue(stackCount, |prev|))]
      else prev
  }

  function AxisIndexSpec(stacks: seq<string>): AxisIndex
  {
    AxisIndexIn(GroupOrder, g => GroupPresent(g, stacks), |stacks|, |GroupOrder|)
  }

  /** Entry `j` is the `j`-th present group with stored value `IndexValue(j)`. */
  lemma {:induction false} AxisIndexClosedForm(order: seq<AxisGroup>, present: AxisGroup -> bool,
                                                stackCount: nat, n: nat)
    requires n <= |order|
    ensures var e := AxisIndexIn(order, present, stackCount, n);
            var p := PresentGroupsIn(order, present, n);
            |e| == |p| && forall j :: 0 <= j < |e| ==> e[j] == (p[j], IndexValue(stackCount, j))
  {
    if n > 0 {
      AxisIndexClosedForm(order, present, stackCount, n - 1);
    }
  }

  /** The planned index lists the present groups in increasing rank, entry
      `j` storing `IndexValue(j)`, and every present group is listed. */
  lemma PlannedGroups(stacks: seq<string>)
    ensures var e := AxisIndexSpec(stacks);
            var p := PresentGroups(stacks);
            |e| == |p|
            && (forall j :: 0 <= j < |e| ==> e[j] == (p[j], IndexValue(|stacks|, j)))
            && (forall j :: 0 <= j < |p| ==> GroupPresent(p[j], stacks))
            && (forall j1, j2 :: 0 <= j1 < j2 < |p| ==> Rank(p[j1]) < Rank(p[j2]))
            && (forall g :: g in p <==> GroupPresent(g, stacks))
  {
    var present := g => GroupPresent(g, stacks);
    assert RanksInOrder(GroupOrder) by { GroupOrderRanks(); }
    PresentGroupsFacts(GroupOrder, present, |GroupOrder|);
    AxisIndexClosedForm(GroupOrder, present, |stacks|, |GroupOrder|);
    var p := PresentGroups(stacks);
    assert p == PresentGroupsIn(GroupOrder, present, |GroupOrder|);
    forall g ensures g in p <==> GroupPresent(g, stacks) {
      assert present(g) == GroupPresent(g, stacks);
      assert Rank(g) < |GroupOrder|;
    }
  }

  /** The successive `yAxisByIndex[key] = ...` assignments. */
  method BuildAxisIndex(stacks: seq<string>) returns (yAxisByIndex: AxisIndex)
    ensures yAxisByIndex == AxisIndexSpec(stacks)
  {
    yAxisByIndex := [];
    var k := 0;
    while k < |GroupOrder|
      invariant 0 <= k <= |GroupOrder|
      invariant yAxisByIndex == AxisIndexIn(GroupOrder, g => GroupPresent(g, stacks), |stacks|, k)
    {
      var group := GroupOrder[k];
      if exists i :: 0 <= i < |Members(group)| && Members(group)[i] in stacks {
        var index: Option<nat> := if |stacks| == 1 then None else Some(|yAxisByIndex|);
        yAxisByIndex := yAxisByIndex + [(group, index)];
      }
      k := k + 1;
    }
  }

  // -------------------------------------------------- keys and members

  /** The key a series looks up: the five joined groups by membership, any
      other stack by its own name. */
  function GroupKeyOf(stack: string): string
  {
    if stack in Members(TvlGroup) then Key(TvlGroup)
    else if stack in Members(BridgeGroup) then Key(BridgeGroup)
    else if stack in Members(EarningsGroup) then Key(EarningsGroup)
    else if stack in Members(UsersGroup) then Key(UsersGroup)
    else if stack in Members(GovernanceGroup) then Key(GovernanceGroup)
    else stack
  }

  /** The rank of the group a member name or a key belongs to, told apart
      by length and first and third letters; 15 for any other string. */
  function NameRank(s: string): nat
  {
    if |s| < 3 then 15
    else
      var n, a, c := |s|, s[0], s[2];
      if (n == 3 && a == 'T') || (n == 4 && a == 'M') || (n == 3 && a == 'F') || (n == 8 && a == 'B')
         || (n == 7 && a == 'S') || n == 29 then 0
      else if n == 11 && a == 'T' then 1
      else if n == 12 && a == 'T' && c == 'k' then 2
      else if n == 15 && a == 'T' && c == 'k' then 3
      else if (n == 15 && a == 'B') || n == 18 || n == 34 then 4
      else if n == 6 || (n == 4 && a == 'F') || (n == 7 && a == 'R') || n == 19 then 5
      else if n == 7 && a == 'U' then 6
      else if (n == 12 && a == 'A') || (n == 9 && a == 'N') || n == 22 then 7
      else if n == 12 && a == 'T' && c == 'a' then 8
      else if n == 8 && a == 'G' then 9
      else if n == 10 then 10
      else if n == 11 && a == 'U' then 11
      else if (n == 15 && a == 'T' && c == 't') || n == 20 || n == 36 then 12
      else if n == 9 && a == 'M' then 13
      else if n == 8 && a == 'T' then 14
      else 15
  }

  /** Keys and members name their own group. */
  lemma NameRanks(g: AxisGroup)
    ensures NameRank(Key(g)) == Rank(g)
    ensures forall i :: 0 <= i < |Members(g)| ==> NameRank(Members(g)[i]) == Rank(g)
  {
    if Rank(g) < 4 { NameRanksFirst(g); }
    else if Rank(g) < 8 { NameRanksSecond(g); }
    else if Rank(g) < 12 { NameRanksThird(g); }
    else { NameRanksFourth(g); }
  }

  lemma NameRanksFirst(g: AxisGroup)
    requires Rank(g) < 4
    ensures NameRank(Key(g)) == Rank(g)
    ensures forall i :: 0 <= i < |Members(g)| ==> NameRank(Members(g)[i]) == Rank(g)
  {
    if g == TvlGroup {} else if g == TokenPriceGroup {} else if g == TokenVolumeGroup {} else {}
  }

  lemma NameRanksSecond(g: AxisGroup)
    requires 4 <= Rank(g) < 8
    ensures NameRank(Key(g)) == Rank(g)
    ensures forall i :: 0 <= i < |Members(g)| ==> NameRank(Members(g)[i]) == Rank(g)
  {
    if g == BridgeGroup {} else if g == EarningsGroup {} else if g == UnlocksGroup {} else {}
  }

  lemma NameRanksThird(g: AxisGroup)
    requires 8 <= Rank(g) < 12
    ensures NameRank(Key(g)) == Rank(g)
    ensures forall i :: 0 <= i < |Members(g)| ==> NameRank(Members(g)[i]) == Rank(g)
  {
    if g == TransactionsGroup {} else if g == GasGroup {} else if g == ApyGroup {} else {}
  }

  lemma NameRanksFourth(g: AxisGroup)
    requires Rank(g) >= 12
    ensures NameRank(Key(g)) == Rank(g)
    ensures forall i :: 0 <= i < |Members(g)| ==> NameRank(Members(g)[i]) == Rank(g)
  {
    if g == GovernanceGroup {} else if g == VotesGroup {} else {}
  }

  /** Different groups have different keys. */
  lemma KeysDistinct()
    ensures forall g1, g2 :: Key(g1) == Key(g2) ==> g1 == g2
  {
    RankInjective();
    forall g1, g2 | Key(g1) == Key(g2) ensures g1 == g2 {
      NameRanks(g1);
      NameRanks(g2);
    }
  }

  /** A listed name belongs to the group that lists it. */
  lemma ListedNameRank(s: string, g: AxisGroup)
    requires s in Members(g)
    ensures NameRank(s) == Rank(g)
  {
    NameRanks(g);
    var i :| 0 <= i < |Members(g)| && Members(g)[i] == s;
  }

  /** The five groups with several members. */
  predicate Joined(g: AxisGroup)
  {
    g == TvlGroup || g == BridgeGroup || g == EarningsGroup || g == UsersGroup || g == GovernanceGroup
  }

  /** Every other group has its key as its only member. */
  lemma LoneGroupKey(g: AxisGroup)
    requires !Joined(g)
    ensures Members(g) == [Key(g)]
  {
    if g == TokenPriceGroup {} else if g == TokenVolumeGroup {} else if g == TokenLiquidityGroup {}
    else if g == UnlocksGroup {} else if g == TransactionsGroup {} else if g == GasGroup {}
    else if g == ApyGroup {} else if g == InflowsGroup {} else if g == VotesGroup {} else {}
  }

  /** A member of a group looks up that group's key. */
  lemma MembersLookUpTheirGroup(g: AxisGroup, i: nat)
    requires i < |Members(g)|
    ensures GroupKeyOf(Members(g)[i]) == Key(g)
  {
    if Joined(g) {
      JoinedMemberKey(g, i);
    } else {
      LoneGroupKey(g);
      LoneMemberKey(g);
    }
  }

  lemma JoinedMemberKey(g: AxisGroup, i: nat)
    requires Joined(g) && i < |Members(g)|
    ensures GroupKeyOf(Members(g)[i]) == Key(g)
  {
    var m := Members(g)[i];
    RankInjective();
    forall h | m in Members(h) ensures h == g {
      ListedNameRank(m, h);
      NameRanks(g);
    }
  }

  lemma LoneMemberKey(g: AxisGroup)
    requires !Joined(g)
    ensures GroupKeyOf(Key(g)) == Key(g)
  {
    RankInjective();
    forall h | Key(g) in Members(h) ensures h == g {
      ListedNameRank(Key(g), h);
      NameRanks(g);
    }
  }

  /** A stack belongs to at most one group. */
  lemma GroupsDisjoint(g1: AxisGroup, g2: AxisGroup, s: string)
    requires s in Members(g1) && s in Members(g2)
    ensures g1 == g2
  {
    ListedNameRank(s, g1);
    ListedNameRank(s, g2);
    RankInjective();
  }

  /** With one stack, a group is present only if that stack is a member. */
  lemma PresentWithOneStack(g: AxisGroup, stacks: seq<string>)
    requires |stacks| == 1 && GroupPresent(g, stacks)
    ensures stacks[0] in Members(g)
  {
    var i :| 0 <= i < |Members(g)| && Members(g)[i] in stacks;
    assert Members(g)[i] == stacks[0];
  }

  /** With a single stack at most one group is materialised. */
  lemma {:induction false} SingleStackSingleGroup(stacks: seq<string>)
    requires |stacks| == 1
    ensures |PresentGroups(stacks)| <= 1
  {
    var p := PresentGroups(stacks);
    PlannedGroups(stacks);
    if |p| >= 2 {
      PresentWithOneStack(p[0], stacks);
      PresentWithOneStack(p[1], stacks);
      GroupsDisjoint(p[0], p[1], stacks[0]);
      assert false;
    }
  }

  // -------------------------------------------------- properties of yAxisByIndex

  /** `yAxisByIndex[key]`, `undefined` for a missing key. */
  function AxisLookup(entries: AxisIndex, key: string): Option<nat>
  {
    if entries == [] then None
    else if Key(entries[0].0) == key then entries[0].1
    else AxisLookup(entries[1..], key)
  }

  predicate HasAxisKey(entries: AxisIndex, key: string)
  {
    exists j :: 0 <= j < |entries| && Key(entries[j].0) == key
  }

  /** A group has a key iff one of its members is requested; the stored
      indices are 0, 1, ... in insertion order (all `undefined` for a single
      stack); insertion follows the test order; a single stack yields at
      most one key. */
  lemma {:induction false} AxisIndexShape(stacks: seq<string>)
    ensures var e := AxisIndexSpec(stacks);
            (forall g :: HasAxisKey(e, Key(g)) <==> GroupPresent(g, stacks))
            && (forall j :: 0 <= j < |e| ==> e[j].1 == IndexValue(|stacks|, j))
            && (forall j1, j2 :: 0 <= j1 < j2 < |e| ==> Rank(e[j1].0) < Rank(e[j2].0))
            && (|stacks| == 1 ==> |e| <= 1)
  {
    PlannedGroups(stacks);
    forall g ensures HasAxisKey(AxisIndexSpec(stacks), Key(g)) <==> GroupPresent(g, stacks) {
      AxisIndexHasKey(stacks, g);
    }
    if |stacks| == 1 {
      SingleStackSingleGroup(stacks);
    }
  }

  /** A group's key is in the index iff the group is present. */
  lemma AxisIndexHasKey(stacks: seq<string>, g: AxisGroup)
    ensures HasAxisKey(AxisIndexSpec(stacks), Key(g)) <==> GroupPresent(g, stacks)
  {
    var e := AxisIndexSpec(stacks);
    var p := PresentGroups(stacks);
    PlannedGroups(stacks);
    if HasAxisKey(e, Key(g)) {
      var j :| 0 <= j < |e| && Key(e[j].0) == Key(g);
      KeysDistinct();
      assert p[j] == g;
    }
    if GroupPresent(g, stacks) {
      assert g in p;
      var j :| 0 <= j < |p| && p[j] == g;
      assert Key(e[j].0) == Key(g);
    }
  }

  /** The key of entry `j` of an index with distinct groups is found there. */
  lemma {:induction false} AxisLookupAt(entries: AxisIndex, j: nat)
    requires j < |entries|
    requires forall a, b :: 0 <= a < b < |entries| ==> entries[a].0 != entries[b].0
    ensures AxisLookup(entries, Key(entries[j].0)) == entries[j].1
  {
    if j > 0 {
      KeysDistinct();
      assert Key(entries[0].0) != Key(entries[j].0);
      AxisLookupAt(entries[1..], j - 1);
    }
  }

  lemma {:induction false} AxisLookupMissing(entries: AxisIndex, key: string)
    requires !HasAxisKey(entries, key)
    ensures AxisLookup(entries, key) == None
  {
    if entries != [] {
      assert Key(entries[0].0) != key;
      assert !HasAxisKey(entries[1..], key) by {
        forall j | 0 <= j < |entries[1..]| ensures Key(entries[1..][j].0) != key {
          assert entries[1..][j] == entries[j + 1];
        }
      }
      AxisLookupMissing(entries[1..], key);
    }
  }

  /** The `yAxisIndex` a series gets. */
  function AxisIndexOf(yAxisByIndex: AxisIndex, stack: string): Option<nat>
  {
    AxisLookup(yAxisByIndex, GroupKeyOf(stack))
  }

  /** A member of the `j`-th present group gets index `j` (or `undefined`
      for a single stack). */
  lemma SeriesAxisIsGroupIndex(stacks: seq<string>, j: nat, i: nat)
    requires j < |PresentGroups(stacks)|
    requires i < |Members(PresentGroups(stacks)[j])|
    ensures AxisIndexOf(AxisIndexSpec(stacks), Members(PresentGroups(stacks)[j])[i]) == IndexValue(|stacks|, j)
  {
    var e := AxisIndexSpec(stacks);
    var p := PresentGroups(stacks);
    PlannedGroups(stacks);
    MembersLookUpTheirGroup(p[j], i);
    assert forall a, b :: 0 <= a < b < |e| ==> Rank(e[a].0) < Rank(e[b].0);
    AxisLookupAt(e, j);
  }

  /** A stack outside every group, and not itself a group key, gets `undefined`. */
  lemma UngroupedStackHasNoAxis(stacks: seq<string>, stack: string)
    requires forall g :: stack !in Members(g) && stack != Key(g)
    ensures AxisIndexOf(AxisIndexSpec(stacks), stack) == None
  {
    assert stack !in Members(TvlGroup) && stack !in Members(BridgeGroup) && stack !in Members(EarningsGroup)
           && stack !in Members(UsersGroup) && stack !in Members(GovernanceGroup);
    AxisLookupMissing(AxisIndexSpec(stacks), stack);
  }

  // ======================================================== series

  datatype SeriesKind = Bar | Line

  /** The `LinearGradient` descriptor: top colour fading to a theme base. */
  datatype Gradient = Gradient(top: string, base: string)

  /** `areaStyle: { color }`, where the colour is `null` under a custom legend. */
  datatype AreaStyle = AreaStyle(color: Option<Gradient>)

  datatype Marker = StartMarker(name: string, xAxis: int) | EndMarker(xAxis: int, y: int)

  /** `markLine`: the empty object, or `{ data }` with one pair per hallmark. */
  datatype MarkLine = NoMarks | Marks(data: seq<(Marker, Marker)>)

  /** A point's value: a number or the `'-'` no-data sentinel. */
  datatype PointValue = Num(n: int) | NoData

  datatype Point = Point(date: int, value: PointValue)

  /** Everything a series carries besides its points. */
  datatype SeriesHead = SeriesHead(name: string, kind: SeriesKind, yAxisIndex: Option<nat>,
                                   color: Option<string>, areaStyle: Option<AreaStyle>, markLine: MarkLine)

  datatype Series = Series(head: SeriesHead, data: seq<Point>)

  /** `router.isReady && groupBy === 'cumulative'`. */
  function IsCumulative(isReady: bool, groupBy: Option<string>): bool
  {
    if isReady && groupBy == Some("cumulative") then true else false
  }

  /** `stackColors[stack] || null`. */
  function StackColor(stackColors: map<string, string>, stack: string): Option<string>
  {
    if stack in stackColors && stackColors[stack] != "" then Some(stackColors[stack]) else None
  }

  function GradientBase(isDark: bool): string
  {
    if isDark then "rgba(0, 0, 0, 0.2)" else "rgba(255, 255, 255, 0.2)"
  }

  /** The series the `stacks.map` callback builds for `stack` at `index`:
      named after the stack, a bar exactly for a bar chart outside the
      cumulative view, with no marks and no points yet. */
  function NewSeries(stack: string, index: nat, yAxisIndex: Option<nat>, stackColors: map<string, string>,
                     barCharts: seq<string>, isCumulative: bool, chartColor: string,
                     customLegendName: Option<string>, isDark: bool): Series
  {
    var stackColor := StackColor(stackColors, stack);
    var kind := if stack in barCharts && !isCumulative then Bar else Line;
    var top := if stackColor.Some? then stackColor.value else if index == 0 then chartColor else "transparent";
    Series(SeriesHead(stack, kind, yAxisIndex, stackColor,
                      if kind == Line then
                        Some(AreaStyle(if !TruthyText(customLegendName) then Some(Gradient(top, GradientBase(isDark)))
                                       else None))
                      else None,
                      NoMarks),
           [])
  }

  /** A new series is named after its stack, a bar exactly for a bar chart
      outside the cumulative view, on the looked-up axis, with no marks and
      no points yet. */
  lemma NewSeriesShape(stack: string, index: nat, yAxisIndex: Option<nat>, stackColors: map<string, string>,
                       barCharts: seq<string>, isCumulative: bool, chartColor: string,
                       customLegendName: Option<string>, isDark: bool)
    ensures NewSeries(stack, index, yAxisIndex, stackColors, barCharts, isCumulative,
                      chartColor, customLegendName, isDark).head.name == stack
    ensures NewSeries(stack, index, yAxisIndex, stackColors, barCharts, isCumulative,
                      chartColor, customLegendName, isDark).head.kind == Bar
            <==> stack in barCharts && !isCumulative
    ensures NewSeries(stack, index, yAxisIndex, stackColors, barCharts, isCumulative,
                      chartColor, customLegendName, isDark).head.yAxisIndex == yAxisIndex
    ensures NewSeries(stack, index, yAxisIndex, stackColors, barCharts, isCumulative,
                      chartColor, customLegendName, isDark).head.markLine == NoMarks
    ensures NewSeries(stack, index, yAxisIndex, stackColors, barCharts, isCumulative,
                      chartColor, customLegendName, isDark).data == []
  {
  }

  /** The colours of a new series: its item colour is the stack colour;
      only a line is filled, with no gradient under a custom legend name,
      else one whose top is the stack colour, the chart colour for the first
      series, or transparent. */
  lemma NewSeriesColours(stack: string, index: nat, yAxisIndex: Option<nat>, stackColors: map<string, string>,
                         barCharts: seq<string>, isCumulative: bool, chartColor: string,
                         customLegendName: Option<string>, isDark: bool)
    ensures var s := NewSeries(stack, index, yAxisIndex, stackColors, barCharts, isCumulative,
                               chartColor, customLegendName, isDark);
            s.head.color == StackColor(stackColors, stack)
            && (s.head.areaStyle.Some? <==> s.head.kind == Line)
            && (s.head.kind == Line && TruthyText(customLegendName) ==> s.head.areaStyle == Some(AreaStyle(None)))
            && (s.head.kind == Line && !TruthyText(customLegendName) ==>
                  s.head.areaStyle.value.color.Some?
                  && s.head.areaStyle.value.color.value.top
                     == (if StackColor(stackColors, stack).Some? then StackColor(stackColors, stack).value
                         else if index == 0 then chartColor else "transparent"))
  {
  }

  /** The `stacks.map` that builds one series per stack. */
  method BuildSeries(stacks: seq<string>, stackColors: map<string, string>, yAxisByIndex: AxisIndex,
                     barCharts: seq<string>, isCumulative: bool, chartColor: string,
                     customLegendName: Option<string>, isDark: bool)
    returns (series: seq<Series>)
    ensures |series| == |stacks|
    ensures forall i :: 0 <= i < |stacks| ==>
              series[i] == NewSeries(stacks[i], i, AxisIndexOf(yAxisByIndex, stacks[i]), stackColors, barCharts, isCumulative,
                                    chartColor, customLegendName, isDark)
  {
    series := [];
    var i := 0;
    while i < |stacks|
      invariant 0 <= i <= |stacks|
      invariant |series| == i
      invariant forall k :: 0 <= k < i ==>
                  series[k] == NewSeries(stacks[k], k, AxisIndexOf(yAxisByIndex, stacks[k]), stackColors, barCharts, isCumulative,
                                        chartColor, customLegendName, isDark)
    {
      series := series + [NewSeries(stacks[i], i, AxisIndexOf(yAxisByIndex, stacks[i]), stackColors, barCharts, isCumulative,
                                    chartColor, customLegendName, isDark)];
      i := i + 1;
    }
  }

  // ======================================================== data filling

  /** One record of `chartData`: its date and its other fields. */
  datatype ChartRecord = ChartRecord(date: int, values: map<string, int>)

  /** `item[stack] || (stack === 'TVL' ? 0 : '-')`: a missing or zero value
      becomes 0 for TVL and the no-data sentinel for every other stack. */
  function PointFor(record: ChartRecord, stack: string): (p: Point)
    ensures p.date == record.date
    ensures p.value == NoData <==> stack != "TVL" && (stack !in record.values || record.values[stack] == 0)
    ensures p.value.Num? ==> p.value.n == if stack in record.values then record.values[stack] else 0
  {
    Point(record.date,
          if stack in record.values && record.values[stack] != 0 then Num(record.values[stack])
          else if stack == "TVL" then Num(0)
          else NoData)
  }

  /** `series.find((t) => t.name === name)`, as a position. */
  function FindSeries(series: seq<Series>, name: string): (r: Option<nat>)
    ensures r.Some? ==> r.value < |series| && series[r.value].head.name == name
                        && forall k :: 0 <= k < r.value ==> series[k].head.name != name
    ensures r.None? ==> forall k :: 0 <= k < |series| ==> series[k].head.name != name
  {
    if series == [] then None
    else if series[0].head.name == name then Some(0)
    else match FindSeries(series[1..], name)
      case None => None
      case Some(k) => Some(k + 1)
  }

  /** Filling changes the points of a series and nothing else. */
  predicate SameHeads(a: seq<Series>, b: seq<Series>)
  {
    |a| == |b| && forall k :: 0 <= k < |a| ==> a[k].head == b[k].head
  }

  /** `?.data.push(point)` on the first series with that name. */
  function PushPoint(series: seq<Series>, name: string, p: Point): seq<Series>
  {
    match FindSeries(series, name)
    case None => series
    case Some(k) => series[k := series[k].(data := series[k].data + [p])]
  }

  /** The inner `stacks.forEach` for one record. */
  function FillRecord(series: seq<Series>, record: ChartRecord, stacks: seq<string>): seq<Series>
  {
    if stacks == [] then series
    else PushPoint(FillRecord(series, record, stacks[..|stacks| - 1]), stacks[|stacks| - 1],
                   PointFor(record, stacks[|stacks| - 1]))
  }

  /** The outer `chartData.forEach`. */
  function FillAll(series: seq<Series>, records: seq<ChartRecord>, stacks: seq<string>): seq<Series>
  {
    if records == [] then series
    else FillRecord(FillAll(series, records[..|records| - 1], stacks), records[|records| - 1], stacks)
  }

  /** One push leaves every series' name, type, axis and style alone. */
  lemma PushPointKeepsHeads(series: seq<Series>, name: string, p: Point)
    ensures SameHeads(PushPoint(series, name, p), series)
  {
  }

  lemma {:induction false} FillRecordKeepsHeads(series: seq<Series>, record: ChartRecord, stacks: seq<string>)
    ensures SameHeads(FillRecord(series, record, stacks), series)
  {
    if stacks != [] {
      var n := |stacks|;
      FillRecordKeepsHeads(series, record, stacks[..n - 1]);
      PushPointKeepsHeads(FillRecord(series, record, stacks[..n - 1]), stacks[n - 1], PointFor(record, stacks[n - 1]));
    }
  }

  /** Filling changes the points of the series and nothing else. */
  lemma {:induction false} FillAllKeepsHeads(series: seq<Series>, records: seq<ChartRecord>, stacks: seq<string>)
    ensures SameHeads(FillAll(series, records, stacks), series)
  {
    if records != [] {
      var n := |records|;
      FillAllKeepsHeads(series, records[..n - 1], stacks);
      FillRecordKeepsHeads(FillAll(series, records[..n - 1], stacks), records[n - 1], stacks);
    }
  }

  /** The nested `forEach` loops that push the points. */
  method FillData(series: seq<Series>, chartData: seq<ChartRecord>, stacks: seq<string>)
    returns (filled: seq<Series>)
    ensures filled == FillAll(series, chartData, stacks)
  {
    filled := series;
    var i := 0;
    while i < |chartData|
      invariant 0 <= i <= |chartData|
      invariant filled == FillAll(series, chartData[..i], stacks)
    {
      filled := FillRecordData(filled, chartData[i], stacks);
      assert chartData[..i + 1][..i] == chartData[..i];
      i := i + 1;
    }
    assert chartData[..i] == chartData;
  }

  /** The inner `stacks.forEach` for one record: each stack's value is
      pushed onto the first series with that name. */
  method FillRecordData(series: seq<Series>, record: ChartRecord, stacks: seq<string>)
    returns (filled: seq<Series>)
    ensures filled == FillRecord(series, record, stacks)
  {
    filled := series;
    var j := 0;
    while j < |stacks|
      invariant 0 <= j <= |stacks|
      invariant filled == FillRecord(series, record, stacks[..j])
    {
      var k := FindSeries(filled, stacks[j]);
      if k.Some? {
        var t := k.value;
        filled := filled[t := filled[t].(data := filled[t].data + [PointFor(record, stacks[j])])];
      }
      assert stacks[..j + 1][..j] == stacks[..j];
      j := j + 1;
    }
    assert stacks[..j] == stacks;
  }

  predicate Distinct(stacks: seq<string>)
  {
    forall i, j :: 0 <= i < j < |stacks| ==> stacks[i] != stacks[j]
  }

  /** Series `i` carries the name of stack `i`. */
  predicate NamedAfter(series: seq<Series>, stacks: seq<string>)
  {
    |series| == |stacks| && forall i :: 0 <= i < |stacks| ==> series[i].head.name == stacks[i]
  }

  /** The points of one stack, one per record, in record order. */
  function PointsFor(records: seq<ChartRecord>, stack: string): (r: seq<Point>)
    ensures |r| == |records|
  {
    seq(|records|, j requires 0 <= j < |records| => PointFor(records[j], stack))
  }

  /** With distinct names, the series named after stack `j` is series `j`. */
  lemma FindNamed(series: seq<Series>, stacks: seq<string>, j: nat)
    requires NamedAfter(series, stacks) && Distinct(stacks) && j < |stacks|
    ensures FindSeries(series, stacks[j]) == Some(j)
  {
    var r := FindSeries(series, stacks[j]);
    assert series[j].head.name == stacks[j];
    assert r.Some?;
    assert r.value <= j;
    assert stacks[r.value] == stacks[j];
  }

  lemma {:induction false} FillRecordPrefix(series: seq<Series>, record: ChartRecord, stacks: seq<string>, m: nat)
    requires NamedAfter(series, stacks) && Distinct(stacks) && m <= |stacks|
    ensures var r := FillRecord(series, record, stacks[..m]);
            |r| == |series|
            && forall i :: 0 <= i < |series| ==>
                 r[i].data == if i < m then series[i].data + [PointFor(record, stacks[i])] else series[i].data
  {
    if m > 0 {
      var before := FillRecord(series, record, stacks[..m - 1]);
      var point := PointFor(record, stacks[m - 1]);
      var r := FillRecord(series, record, stacks[..m]);
      assert r == PushPoint(before, stacks[m - 1], point) by {
        assert stacks[..m][..m - 1] == stacks[..m - 1];
        assert stacks[..m][m - 1] == stacks[m - 1];
      }
      assert r == before[m - 1 := before[m - 1].(data := before[m - 1].data + [point])] by {
        FillRecordKeepsHeads(series, record, stacks[..m - 1]);
        assert NamedAfter(before, stacks);
        FindNamed(before, stacks, m - 1);
      }
      FillRecordPrefix(series, record, stacks, m - 1);
      forall i | 0 <= i < |series|
        ensures r[i].data == if i < m then series[i].data + [PointFor(record, stacks[i])] else series[i].data
      {
        if i == m - 1 {
          assert r[i].data == before[i].data + [point];
        } else {
          assert r[i] == before[i];
        }
      }
    }
  }

  /** One more record adds one point per stack. */
  lemma PointsForSnoc(records: seq<ChartRecord>, stack: string)
    requires records != []
    ensures PointsFor(records, stack)
            == PointsFor(records[..|records| - 1], stack) + [PointFor(records[|records| - 1], stack)]
  {
  }

  /** After filling (stacks distinct), every series holds one point per
      record, in record order, and nothing else about it changed. */
  lemma {:induction false} FillClosedForm(series: seq<Series>, records: seq<ChartRecord>, stacks: seq<string>)
    requires NamedAfter(series, stacks) && Distinct(stacks)
    ensures SameHeads(FillAll(series, records, stacks), series)
    ensures forall i :: 0 <= i < |series| ==>
              FillAll(series, records, stacks)[i].data == series[i].data + PointsFor(records, stacks[i])
  {
    var n := |records|;
    FillAllKeepsHeads(series, records, stacks);
    if n > 0 {
      FillClosedForm(series, records[..n - 1], stacks);
      var mid := FillAll(series, records[..n - 1], stacks);
      var r := FillAll(series, records, stacks);
      assert NamedAfter(mid, stacks) by {
        assert forall i :: 0 <= i < |stacks| ==> mid[i].head == series[i].head;
      }
      FillRecordPrefix(mid, records[n - 1], stacks, |stacks|);
      assert stacks[..|stacks|] == stacks;
      assert r == FillRecord(mid, records[n - 1], stacks);
      forall i | 0 <= i < |series|
        ensures r[i].data == series[i].data + PointsFor(records, stacks[i])
      {
        PointsForSnoc(records, stacks[i]);
        assert r[i].data == mid[i].data + [PointFor(records[n - 1], stacks[i])];
      }
    } else {
      forall i | 0 <= i < |series| ensures PointsFor(records, stacks[i]) == [] {}
    }
  }

  /** The series `BuildSeries` returns are named after their stacks and hold no points yet. */
  lemma BuiltEmpty(built: seq<Series>, stacks: seq<string>, stackColors: map<string, string>,
                   yAxisByIndex: AxisIndex, barCharts: seq<string>, isCumulative: bool, chartColor: string,
                   customLegendName: Option<string>, isDark: bool)
    requires |built| == |stacks|
    requires forall i :: 0 <= i < |stacks| ==>
               built[i] == NewSeries(stacks[i], i, AxisIndexOf(yAxisByIndex, stacks[i]), stackColors, barCharts, isCumulative,
                                     chartColor, customLegendName, isDark)
    ensures NamedAfter(built, stacks)
    ensures forall i :: 0 <= i < |built| ==> built[i].data == []
  {
  }

  /** Series built empty and then filled hold exactly their stack's points. */
  lemma FilledFromEmpty(built: seq<Series>, records: seq<ChartRecord>, stacks: seq<string>,
                         filled: seq<Series>, series: seq<Series>)
    requires NamedAfter(built, stacks) && Distinct(stacks)
    requires forall i :: 0 <= i < |built| ==> built[i].data == []
    requires filled == FillAll(built, records, stacks)
    requires |series| == |filled| == |stacks|
    requires forall k :: 0 <= k < |series| ==> series[k].data == filled[k].data
    ensures forall i :: 0 <= i < |stacks| ==> series[i].data == PointsFor(records, stacks[i])
  {
    FillClosedForm(built, records, stacks);
  }

  // ======================================================== hallmarks

  datatype Hallmark = Hallmark(date: int, event: string)

  /** `hallmarks.map(...)`: one `[start, end]` marker pair per hallmark, at
      its date; the end markers sit at 40(n − i), stepping down by 40 and
      ending at 40. */
  function HallmarkMarkers(hallmarks: seq<Hallmark>): (r: seq<(Marker, Marker)>)
    ensures |r| == |hallmarks|
    ensures forall i :: 0 <= i < |hallmarks| ==>
              r[i].0 == StartMarker(hallmarks[i].event, hallmarks[i].date)
              && r[i].1 == EndMarker(hallmarks[i].date, 40 * (|hallmarks| - i))
    ensures forall i :: 0 < i < |hallmarks| ==> r[i].1.y == r[i - 1].1.y - 40
    ensures |hallmarks| > 0 ==> r[|hallmarks| - 1].1.y == 40
  {
    seq(|hallmarks|, i requires 0 <= i < |hallmarks| =>
      (StartMarker(hallmarks[i].event, hallmarks[i].date),
       EndMarker(hallmarks[i].date, Max(|hallmarks| * 40 - i * 40, 40))))
  }

  /** `series[0] = { ...series[0], markLine: { data } }` when there are
      series and `hallmarks` is set (an empty array included). */
  method InjectHallmarks(series: seq<Series>, hallmarks: Option<seq<Hallmark>>)
    returns (marked: seq<Series>)
    ensures |marked| == |series|
    ensures forall k :: 0 < k < |series| ==> marked[k] == series[k]
    ensures |series| > 0 && hallmarks.Some? ==>
              marked[0] == series[0].(head := series[0].head.(markLine := Marks(HallmarkMarkers(hallmarks.value))))
    ensures hallmarks.None? ==> marked == series
    ensures forall k :: 0 <= k < |series| ==> marked[k].data == series[k].data
  {
    marked := series;
    if |series| > 0 && hallmarks.Some? {
      var first := marked[0];
      marked := marked[0 := first.(head := first.head.(markLine := Marks(HallmarkMarkers(hallmarks.value))))];
    }
  }

  // ======================================================== the planner

  /** The `useMemo` that returns `series` and `yAxisByIndex`. */
  method PlanChart(chartData: seq<ChartRecord>, stacks: seq<string>, stackColors: map<string, string>,
                   chartColor: string, hallmarks: Option<seq<Hallmark>>, customLegendName: Option<string>,
                   isDark: bool, barCharts: seq<string>, isReady: bool, groupBy: Option<string>)
    returns (series: seq<Series>, yAxisByIndex: AxisIndex)
    ensures yAxisByIndex == AxisIndexSpec(stacks)
    ensures |series| == |stacks|
    ensures forall i :: 0 <= i < |stacks| ==>
              series[i].head.(markLine := NoMarks)
              == NewSeries(stacks[i], i, AxisIndexOf(yAxisByIndex, stacks[i]), stackColors, barCharts, IsCumulative(isReady, groupBy),
                           chartColor, customLegendName, isDark).head
    ensures forall i :: 0 <= i < |stacks| ==> series[i].head.name == stacks[i]
                                                && series[i].head.yAxisIndex == AxisIndexOf(yAxisByIndex, stacks[i])
    ensures forall i :: 0 <= i < |stacks| ==>
              (series[i].head.kind == Bar <==> stacks[i] in barCharts && !(isReady && groupBy == Some("cumulative")))
    ensures Distinct(stacks) ==> forall i :: 0 <= i < |stacks| ==> series[i].data == PointsFor(chartData, stacks[i])
    ensures forall i :: 0 < i < |stacks| ==> series[i].head.markLine == NoMarks
    ensures |stacks| > 0 ==>
              series[0].head.markLine == if hallmarks.Some? then Marks(HallmarkMarkers(hallmarks.value)) else NoMarks
  {
    var isCumulative := IsCumulative(isReady, groupBy);
    yAxisByIndex := BuildAxisIndex(stacks);
    var built := BuildSeries(stacks, stackColors, yAxisByIndex, barCharts, isCumulative,
                             chartColor, customLegendName, isDark);
    var filled := FillData(built, chartData, stacks);
    series := InjectHallmarks(filled, hallmarks);
    FillAllKeepsHeads(built, chartData, stacks);
    PlannedHeads(stacks, stackColors, yAxisByIndex, barCharts, isReady, groupBy, chartColor,
                 customLegendName, isDark, hallmarks, built, filled, series);
    if Distinct(stacks) {
      BuiltEmpty(built, stacks, stackColors, yAxisByIndex, barCharts, isCumulative,
                 chartColor, customLegendName, isDark);
      FilledFromEmpty(built, chartData, stacks, filled, series);
    }
  }

  /** The heads of the planned series, from how they were built, filled and
      marked. */
  lemma PlannedHeads(stacks: seq<string>, stackColors: map<string, string>, yAxisByIndex: AxisIndex,
                     barCharts: seq<string>, isReady: bool, groupBy: Option<string>, chartColor: string,
                     customLegendName: Option<string>, isDark: bool, hallmarks: Option<seq<Hallmark>>,
                     built: seq<Series>, filled: seq<Series>, series: seq<Series>)
    requires |built| == |stacks|
    requires forall i :: 0 <= i < |stacks| ==>
               built[i] == NewSeries(stacks[i], i, AxisIndexOf(yAxisByIndex, stacks[i]), stackColors, barCharts,
                                     IsCumulative(isReady, groupBy), chartColor, customLegendName, isDark)
    requires SameHeads(filled, built)
    requires |series| == |filled|
    requires forall k :: 0 < k < |filled| ==> series[k] == filled[k]
    requires |filled| > 0 && hallmarks.Some? ==>
               series[0] == filled[0].(head := filled[0].head.(markLine := Marks(HallmarkMarkers(hallmarks.value))))
    requires hallmarks.None? ==> series == filled
    ensures forall i :: 0 <= i < |stacks| ==>
              series[i].head.(markLine := NoMarks)
              == NewSeries(stacks[i], i, AxisIndexOf(yAxisByIndex, stacks[i]), stackColors, barCharts, IsCumulative(isReady, groupBy),
                           chartColor, customLegendName, isDark).head
    ensures forall i :: 0 <= i < |stacks| ==> series[i].head.name == stacks[i]
                                                && series[i].head.yAxisIndex == AxisIndexOf(yAxisByIndex, stacks[i])
    ensures forall i :: 0 <= i < |stacks| ==>
              (series[i].head.kind == Bar <==> stacks[i] in barCharts && !(isReady && groupBy == Some("cumulative")))
    ensures forall i :: 0 < i < |stacks| ==> series[i].head.markLine == NoMarks
    ensures |stacks| > 0 ==>
              series[0].head.markLine == if hallmarks.Some? then Marks(HallmarkMarkers(hallmarks.value)) else NoMarks
  {
    var isCumulative := IsCumulative(isReady, groupBy);
    forall i | 0 <= i < |stacks|
      ensures series[i].head.(markLine := NoMarks)
              == NewSeries(stacks[i], i, AxisIndexOf(yAxisByIndex, stacks[i]), stackColors, barCharts, isCumulative,
                           chartColor, customLegendName, isDark).head
      ensures series[i].head.name == stacks[i] && series[i].head.yAxisIndex == AxisIndexOf(yAxisByIndex, stacks[i])
      ensures series[i].head.kind == Bar <==> stacks[i] in barCharts && !(isReady && groupBy == Some("cumulative"))
      ensures 0 < i ==> series[i].head.markLine == NoMarks
    {
      var axis := AxisIndexOf(yAxisByIndex, stacks[i]);
      var planned := NewSeries(stacks[i], i, axis, stackColors, barCharts, isCumulative,
                               chartColor, customLegendName, isDark);
      NewSeriesShape(stacks[i], i, axis, stackColors, barCharts, isCumulative,
                     chartColor, customLegendName, isDark);
      assert built[i] == planned;
      assert filled[i].head == planned.head;
      assert series[i].head.(markLine := NoMarks) == filled[i].head.(markLine := NoMarks);
    }
  }

  // ======================================================== y-axes

  /** An axis-label formatter: inherited from the default axis, `toK`,
      `toK` followed by the unlock symbol, or a percentage. */
  datatype Formatter = DefaultLabels | CompactLabels | CompactLabelsWithSymbol(symbol: string) | PercentLabels

  /** `axisLine: { show: true, lineStyle: { color } }`, or none. */
  datatype AxisLine = NoAxisLine | ColouredLine(color: Option<string>)

  /** The default `yAxis` pushed unchanged, or a value axis built from it. */
  datatype YAxis = DefaultAxis | ValueAxis(offset: int, formatter: Formatter, axisLine: AxisLine)

  /** `offset`, read as 0 when absent. */
  function OffsetOf(a: YAxis): int
  {
    match a
    case DefaultAxis => 0
    case ValueAxis(o, _, _) => o
  }

  /** `noOffset || index < 2 ? 0 : (yAxiss[yAxiss.length - 1]?.offset ?? 0) + 40`;
      an `undefined` index is not below 2. */
  function NextOffset(noOffset: bool, index: Option<nat>, axes: seq<YAxis>): int
  {
    if noOffset || (index.Some? && index.value < 2) then 0
    else (if axes == [] then 0 else OffsetOf(axes[|axes| - 1])) + 40
  }

  /** The axis pushed for a group's key with the given offset: the default
      axis itself for the TVL group, a value axis for every other group. */
  function AxisFor(g: AxisGroup, offset: int, stackColors: map<string, string>, unlockTokenSymbol: string)
    : (r: YAxis)
    ensures OffsetOf(r) == if g == TvlGroup then 0 else offset
    ensures r == DefaultAxis <==> g == TvlGroup
  {
    match g
    case TvlGroup => DefaultAxis
    case TokenPriceGroup => ValueAxis(offset, DefaultLabels, ColouredLine(LookupText(stackColors, "Token Price")))
    case TokenVolumeGroup => ValueAxis(offset, DefaultLabels, ColouredLine(LookupText(stackColors, "Token Volume")))
    case TokenLiquidityGroup => ValueAxis(offset, DefaultLabels, ColouredLine(LookupText(stackColors, "Token Liquidity")))
    case BridgeGroup => ValueAxis(offset, DefaultLabels, ColouredLine(LookupText(stackColors, "Bridge Deposits")))
    case EarningsGroup => ValueAxis(offset, DefaultLabels, NoAxisLine)
    case UnlocksGroup =>
      ValueAxis(offset, CompactLabelsWithSymbol(unlockTokenSymbol), ColouredLine(LookupText(stackColors, "Unlocks")))
    case UsersGroup => ValueAxis(offset, CompactLabels, NoAxisLine)
    case TransactionsGroup => ValueAxis(offset, CompactLabels, ColouredLine(LookupText(stackColors, "Transactions")))
    case GasGroup => ValueAxis(offset, DefaultLabels, ColouredLine(LookupText(stackColors, "Gas Used")))
    case ApyGroup => ValueAxis(offset, PercentLabels, ColouredLine(LookupText(stackColors, "Median APY")))
    case InflowsGroup => ValueAxis(offset, DefaultLabels, ColouredLine(LookupText(stackColors, "USD Inflows")))
    case GovernanceGroup => ValueAxis(offset, CompactLabels, ColouredLine(LookupText(stackColors, "Total Proposals")))
    case VotesGroup => ValueAxis(offset, CompactLabels, ColouredLine(LookupText(stackColors, "Max Votes")))
    case TreasuryGroup => ValueAxis(offset, DefaultLabels, ColouredLine(LookupText(stackColors, "Treasury")))
  }

  /** The `forEach` over the first `n` entries of `yAxisByIndex`. */
  function YAxesPrefix(entries: AxisIndex, n: nat, noOffset: bool, stackColors: map<string, string>,
                       unlockTokenSymbol: string): (r: seq<YAxis>)
    requires n <= |entries|
    ensures |r| == n
  {
    if n == 0 then []
    else
      var prev := YAxesPrefix(entries, n - 1, noOffset, stackColors, unlockTokenSymbol);
      prev + [AxisFor(entries[n - 1].0, NextOffset(noOffset, entries[n - 1].1, prev), stackColors, unlockTokenSymbol)]
  }

  /** `yAxiss`: one axis per entry, or the default axis alone when there is none. */
  function YAxes(entries: AxisIndex, stackColors: map<string, string>, unlockTokenSymbol: string): seq<YAxis>
  {
    if |entries| == 0 then [DefaultAxis]
    else YAxesPrefix(entries, |entries|, |entries| < 3, stackColors, unlockTokenSymbol)
  }

  /** The `yAxiss` construction inside the effect. */
  method BuildYAxes(yAxisByIndex: AxisIndex, stackColors: map<string, string>, unlockTokenSymbol: string)
    returns (yAxiss: seq<YAxis>)
    ensures yAxiss == YAxes(yAxisByIndex, stackColors, unlockTokenSymbol)
  {
    yAxiss := [];
    var noOffset := |yAxisByIndex| < 3;
    var i := 0;
    while i < |yAxisByIndex|
      invariant 0 <= i <= |yAxisByIndex|
      invariant yAxiss == YAxesPrefix(yAxisByIndex, i, noOffset, stackColors, unlockTokenSymbol)
    {
      var group, index := yAxisByIndex[i].0, yAxisByIndex[i].1;
      var offset := if noOffset || (index.Some? && index.value < 2) then 0
                    else (if yAxiss == [] then 0 else OffsetOf(yAxiss[|yAxiss| - 1])) + 40;
      yAxiss := yAxiss + [AxisFor(group, offset, stackColors, unlockTokenSymbol)];
      i := i + 1;
    }
    if |yAxisByIndex| == 0 {
      yAxiss := yAxiss + [DefaultAxis];
    }
  }

  /** The offset of the `j`-th of `k` planned axes. */
  function PlannedOffset(k: nat, j: nat): int
  {
    if k < 3 || j < 2 then 0 else 40 * (j - 1)
  }

  /** Entry `j` of the planned index: the TVL group only in first place, and
      stored index `j` once there are three entries or more. */
  lemma PlannedEntry(stacks: seq<string>, j: nat)
    requires j < |AxisIndexSpec(stacks)|
    ensures var e := AxisIndexSpec(stacks);
            (e[j].0 == TvlGroup ==> j == 0)
            && (|e| >= 3 ==> e[j].1 == Some(j))
  {
    var p := PresentGroups(stacks);
    PlannedGroups(stacks);
    if j > 0 {
      assert Rank(p[0]) < Rank(p[j]);
    }
    if |stacks| == 1 {
      SingleStackSingleGroup(stacks);
    }
  }

  lemma {:induction false} PlannedPrefix(stacks: seq<string>, n: nat, stackColors: map<string, string>,
                                         unlockTokenSymbol: string)
    requires n <= |AxisIndexSpec(stacks)|
    ensures var e := AxisIndexSpec(stacks);
            var axes := YAxesPrefix(e, n, |e| < 3, stackColors, unlockTokenSymbol);
            forall j :: 0 <= j < n ==> axes[j] == AxisFor(e[j].0, PlannedOffset(|e|, j), stackColors, unlockTokenSymbol)
  {
    var e := AxisIndexSpec(stacks);
    if n > 0 {
      PlannedPrefix(stacks, n - 1, stackColors, unlockTokenSymbol);
      var prev := YAxesPrefix(e, n - 1, |e| < 3, stackColors, unlockTokenSymbol);
      PlannedEntry(stacks, n - 1);
      if n >= 3 {
        PlannedEntry(stacks, n - 2);
      }
      assert NextOffset(|e| < 3, e[n - 1].1, prev) == PlannedOffset(|e|, n - 1);
    }
  }

  /** The axis list derived from the planned index: one axis per group, in
      group order (the TVL group's being the default axis), or the default
      axis alone; no offsets with fewer than three groups, otherwise 0 for
      the first two and +40 for each later one. */
  lemma PlannedYAxes(stacks: seq<string>, stackColors: map<string, string>, unlockTokenSymbol: string)
    ensures var e := AxisIndexSpec(stacks);
            var axes := YAxes(e, stackColors, unlockTokenSymbol);
            var k := |e|;
            (k == 0 ==> axes == [DefaultAxis])
            && (k > 0 ==> |axes| == k)
            && (forall j :: 0 <= j < k ==>
                  axes[j] == AxisFor(e[j].0, PlannedOffset(k, j), stackColors, unlockTokenSymbol)
                  && OffsetOf(axes[j]) == PlannedOffset(k, j)
                  && (axes[j] == DefaultAxis <==> e[j].0 == TvlGroup))
            && (k < 3 ==> forall j :: 0 <= j < |axes| ==> OffsetOf(axes[j]) == 0)
            && (k >= 3 ==> forall j :: 2 <= j < k ==> OffsetOf(axes[j]) == OffsetOf(axes[j - 1]) + 40)
  {
    var e := AxisIndexSpec(stacks);
    if |e| > 0 {
      PlannedPrefix(stacks, |e|, stackColors, unlockTokenSymbol);
      forall j | 0 <= j < |e| ensures e[j].0 == TvlGroup ==> j == 0 {
        PlannedEntry(stacks, j);
      }
    }
  }

  // ======================================================== chart options

  /** The default chart settings, which the effect updates in place. */
  class ChartSettings<V> {
    var options: map<string, map<string, V>>

    constructor (defaults: map<string, map<string, V>>)
      ensures options == defaults
    {
      options := defaults;
    }

    /** The `for…in` over `chartOptions`: a present setting gets the
        option's fields spread over its own, a missing one a copy. */
    method MergeChartOptions(chartOptions: map<string, map<string, V>>)
      modifies this
      ensures options == Merged(old(options), chartOptions)
    {
      ghost var start := options;
      var settings := options;
      var pending := chartOptions.Keys;
      while pending != {}
        invariant pending <= chartOptions.Keys
        invariant settings.Keys == start.Keys + (chartOptions.Keys - pending)
        invariant forall o :: o in settings ==>
                    settings[o] == if o in pending || o !in chartOptions then start[o]
                                   else MergedEntry(start, chartOptions, o)
        decreases pending
      {
        var o :| o in pending;
        if o in settings {
          settings := settings[o := settings[o] + chartOptions[o]];
        } else {
          settings := settings[o := chartOptions[o]];
        }
        pending := pending - {o};
      }
      assert forall o :: o in settings ==> settings[o] == MergedEntry(start, chartOptions, o);
      options := settings;
    }
  }

  /** Option `o` after the merge: its fields over the default's, or a copy. */
  function MergedEntry<V>(defaults: map<string, map<string, V>>, chartOptions: map<string, map<string, V>>,
                          o: string): map<string, V>
    requires o in defaults || o in chartOptions
  {
    if o !in chartOptions then defaults[o]
    else if o in defaults then defaults[o] + chartOptions[o]
    else chartOptions[o]
  }

  /** The settings after the merge. */
  function Merged<V>(defaults: map<string, map<string, V>>, chartOptions: map<string, map<string, V>>)
    : map<string, map<string, V>>
  {
    map o | o in defaults.Keys + chartOptions.Keys :: MergedEntry(defaults, chartOptions, o)
  }

  /** After the merge every option's fields win over the defaults', and the
      defaults' other fields and other settings stay. */
  lemma MergedFields<V>(defaults: map<string, map<string, V>>, chartOptions: map<string, map<string, V>>)
    ensures var r := Merged(defaults, chartOptions);
            r.Keys == defaults.Keys + chartOptions.Keys
            && (forall o :: o in defaults && o !in chartOptions ==> r[o] == defaults[o])
            && (forall o :: o in chartOptions ==>
                  r[o].Keys == (if o in defaults then defaults[o].Keys else {}) + chartOptions[o].Keys)
            && (forall o, f :: o in chartOptions && f in chartOptions[o] ==> r[o][f] == chartOptions[o][f])
            && (forall o, f :: o in chartOptions && o in defaults && f in defaults[o] && f !in chartOptions[o] ==>
                  r[o][f] == defaults[o][f])
  {
  }

  /** Re-running the effect with the same options changes nothing more. */
  lemma MergeIdempotent<V>(defaults: map<string, map<string, V>>, chartOptions: map<string, map<string, V>>)
    ensures Merged(Merged(defaults, chartOptions), chartOptions) == Merged(defaults, chartOptions)
  {
    var once := Merged(defaults, chartOptions);
    var twice := Merged(once, chartOptions);
    forall o | o in twice ensures twice[o] == once[o] {
      if o in chartOptions {
        assert twice[o] == once[o] + chartOptions[o];
        assert once[o] + chartOptions[o] == once[o];
      }
    }
  }
}
