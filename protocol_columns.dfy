/** The protocols table: the help text the TVL cell shows when a protocol's
    TVL is struck out, and the column lists derived from the base list by
    slicing and splicing. */
module ProtocolColumns {
  import opened Js

  // ======================================================== TVL help text

  const DoubleCountMessage: string :=
    "This protocol deposits into another protocol and is subtracted from total TVL because \"Double Count\" toggle is off"
  const LiquidStakingMessage: string :=
    "This protocol is under Liquid Staking category and is subtracted from total TVL because \"Liquid Staking\" toggle is off"
  const BothTogglesMessage: string :=
    "This protocol deposits into another protocol or is under Liquid Staking category, so it is subtracted from total TVL because both \"Liquid Staking\" and \"Double Count\" toggles are off"
  const RwaMessage: string := "RWA protocols are not counted into Chain TVL"
  const SubprotocolsMessage: string := "Some subprotocols are excluded from chain tvl"

  /** The table row fields the TVL cell reads. */
  datatype RowValues = RowValues(strikeTvl: bool, category: Option<string>, isParentProtocol: bool)

  /** The `doublecounted` toggle is off. */
  predicate DoubleCountOff(toggles: map<string, bool>)
  {
    !Enabled(toggles, "doublecounted")
  }

  /** The `liquidstaking` toggle is off. */
  predicate LiquidStakingOff(toggles: map<string, bool>)
  {
    !Enabled(toggles, "liquidstaking")
  }

  predicate IsRwa(row: RowValues)
  {
    row.category == Some("RWA")
  }

  /** When help text is shown at all: a struck-out TVL that is RWA or that a
      switched-off toggle removed from the total. */
  predicate ShowsHelp(row: RowValues, toggles: map<string, bool>)
  {
    row.strikeTvl && (IsRwa(row) || DoubleCountOff(toggles) || LiquidStakingOff(toggles))
  }

  /** The `text` the TVL cell's help icon shows (`null` for none): a chain of
      `if`s in which the last assignment wins. */
  method TvlHelpText(row: RowValues, toggles: map<string, bool>) returns (text: Option<string>)
    ensures !row.strikeTvl ==> text == None
    ensures row.strikeTvl && !IsRwa(row) && !DoubleCountOff(toggles) && !LiquidStakingOff(toggles) ==> text == None
    ensures ShowsHelp(row, toggles) && row.isParentProtocol ==> text == Some(SubprotocolsMessage)
    ensures row.strikeTvl && !row.isParentProtocol && IsRwa(row) ==> text == Some(RwaMessage)
    ensures (row.strikeTvl && !row.isParentProtocol && !IsRwa(row)
             && DoubleCountOff(toggles) && LiquidStakingOff(toggles)) ==> text == Some(BothTogglesMessage)
    ensures (row.strikeTvl && !row.isParentProtocol && !IsRwa(row)
             && DoubleCountOff(toggles) && !LiquidStakingOff(toggles)) ==> text == Some(DoubleCountMessage)
    ensures (row.strikeTvl && !row.isParentProtocol && !IsRwa(row)
             && !DoubleCountOff(toggles) && LiquidStakingOff(toggles)) ==> text == Some(LiquidStakingMessage)
    ensures text.Some? <==> ShowsHelp(row, toggles)
    ensures text.Some? ==> TruthyText(text)
  {
    text := None;
    if row.strikeTvl {
      if !Enabled(toggles, "doublecounted") {
        text := Some(DoubleCountMessage);
      }
      if !Enabled(toggles, "liquidstaking") {
        text := Some(LiquidStakingMessage);
      }
      if !Enabled(toggles, "doublecounted") && !Enabled(toggles, "liquidstaking") {
        text := Some(BothTogglesMessage);
      }
      if row.category == Some("RWA") {
        text := Some(RwaMessage);
      }
      if TruthyText(text) && row.isParentProtocol {
        text := Some(SubprotocolsMessage);
      }
    }
  }

  // ======================================================== column lists

  /** A table column, identified by the row field it shows. */
  datatype Column = Column(accessorKey: string)

  /** `protocolsColumns`, by accessor key. */
  const ProtocolsColumns: seq<Column> := [
    Column("name"), Column("category"), Column("tvl"), Column("volume_7d"), Column("fees_7d"),
    Column("revenue_7d"), Column("change_1d"), Column("change_7d"), Column("change_1m"), Column("mcaptvl")
  ]

  const ListedAtColumn: Column := Column("listedAt")

  const TotalRaisedColumn: Column := Column("totalRaised")

  function Min(a: nat, b: nat): nat
  {
    if a <= b then a else b
  }

  /** `[...base.slice(0, 3), listedAtColumn, ...base.slice(3, -1)]`: the
      first three columns, "Listed At", then the rest without the last one. */
  function RecentlyListedColumns(base: seq<Column>): (r: seq<Column>)
    ensures |base| >= 4 ==> |r| == |base|
                            && r[..3] == base[..3] && r[3] == ListedAtColumn && r[4..] == base[3..|base| - 1]
    ensures |base| <= 4 ==> r == base[..Min(3, |base|)] + [ListedAtColumn]
  {
    Slice(base, 0, 3) + [ListedAtColumn] + Slice(base, 3, -1)
  }

  /** `[...base.slice(0, 3), totalRaisedColumn, listedAtColumn, ...base.slice(3, -1)]`:
      the first three columns, "Total Money Raised", "Listed At", then the
      rest without the last one. */
  function AirdropsColumns(base: seq<Column>): (r: seq<Column>)
    ensures |base| >= 4 ==> |r| == |base| + 1
                            && r[..3] == base[..3] && r[3] == TotalRaisedColumn && r[4] == ListedAtColumn
                            && r[5..] == base[3..|base| - 1]
    ensures |base| <= 4 ==> r == base[..Min(3, |base|)] + [TotalRaisedColumn, ListedAtColumn]
  {
    Slice(base, 0, 3) + [TotalRaisedColumn, ListedAtColumn] + Slice(base, 3, -1)
  }

  /** The airdrops list is the recently-listed list with "Total Money Raised"
      inserted right before "Listed At". */
  lemma AirdropsInsertTotalRaised(base: seq<Column>)
    ensures var k := Min(3, |base|);
            var recent := RecentlyListedColumns(base);
            k < |recent| && recent[k] == ListedAtColumn
            && AirdropsColumns(base) == recent[..k] + [TotalRaisedColumn] + recent[k..]
  {
    var k := Min(3, |base|);
    var head, tail := Slice(base, 0, 3), Slice(base, 3, -1);
    assert |head| == k;
    var recent := head + [ListedAtColumn] + tail;
    assert recent[..k] == head;
    assert recent[k..] == [ListedAtColumn] + tail;
  }

  /** Accessor keys of a column list. */
  function Keys(columns: seq<Column>): (r: seq<string>)
    ensures |r| == |columns|
    ensures forall i :: 0 <= i < |columns| ==> r[i] == columns[i].accessorKey
  {
    seq(|columns|, i requires 0 <= i < |columns| => columns[i].accessorKey)
  }

  /** The recently-listed table drops the Mcap/TVL column and shows
      "Listed At" fourth. */
  lemma RecentlyListedProtocolColumns()
    ensures Keys(RecentlyListedColumns(ProtocolsColumns))
            == ["name", "category", "tvl", "listedAt", "volume_7d", "fees_7d", "revenue_7d",
                "change_1d", "change_7d", "change_1m"]
  {
    var r := RecentlyListedColumns(ProtocolsColumns);
    var expected := ["name", "category", "tvl", "listedAt", "volume_7d", "fees_7d", "revenue_7d",
                     "change_1d", "change_7d", "change_1m"];
    assert r == ProtocolsColumns[..3] + [ListedAtColumn] + ProtocolsColumns[3..9];
    forall i | 0 <= i < 10 ensures r[i].accessorKey == expected[i] {
      if i < 3 { assert r[i] == ProtocolsColumns[i]; }
      else if i > 3 { assert r[i] == ProtocolsColumns[i - 1]; }
    }
  }

  /** The airdrops table shows "Total Money Raised" and "Listed At" after
      the first three columns and also drops Mcap/TVL. */
  lemma AirdropsProtocolColumns()
    ensures Keys(AirdropsColumns(ProtocolsColumns))
            == ["name", "category", "tvl", "totalRaised", "listedAt", "volume_7d", "fees_7d", "revenue_7d",
                "change_1d", "change_7d", "change_1m"]
  {
    AirdropsInsertTotalRaised(ProtocolsColumns);
    RecentlyListedProtocolColumns();
    var recent := RecentlyListedColumns(ProtocolsColumns);
    var r := AirdropsColumns(ProtocolsColumns);
    var expected := ["name", "category", "tvl", "totalRaised", "listedAt", "volume_7d", "fees_7d", "revenue_7d",
                     "change_1d", "change_7d", "change_1m"];
    assert r == recent[..3] + [TotalRaisedColumn] + recent[3..];
    forall i | 0 <= i < 11 ensures r[i].accessorKey == expected[i] {
      if i < 3 { assert r[i] == recent[i]; }
      else if i > 3 { assert r[i] == recent[i - 1]; }
    }
  }
}
