/**
 * The market-scanner view: a filter selection over the scanner rows and
 * the choice of unit when a volume is displayed.
 */
module ScannerPage {
  import opened MockData
  import Seqs

  /** The four filter buttons: 'all', 'gainers', 'losers' and 'active'. */
  datatype ScanFilter = All | Gainers | Losers | MostActive

  predicate IsGainer(s: Scanner) { s.changePercent > 0.0 }
  predicate IsLoser(s: Scanner) { s.changePercent < 0.0 }
  predicate IsMostActive(s: Scanner) { s.category == "Most Active" }

  /** The rows passing `keep`, in order, each kept as many times as it occurs. */
  function Keep(keep: Scanner -> bool, rows: seq<Scanner>): (r: seq<Scanner>)
    ensures Seqs.Subsequence(r, rows)
    ensures forall s :: s in r <==> s in rows && keep(s)
    ensures forall s :: multiset(r)[s] == if keep(s) then multiset(rows)[s] else 0
  {
    Seqs.FilterMembers(keep, rows);
    Seqs.FilterCounts(keep, rows);
    Seqs.FilterIsSubsequence(keep, rows);
    Seqs.Filter(keep, rows)
  }

  /** The rows a filter shows: all of them, or those passing the filter's test, in order. */
  function FilterRows(rows: seq<Scanner>, filter: ScanFilter): (r: seq<Scanner>)
    ensures filter == All ==> r == rows
    ensures Seqs.Subsequence(r, rows)
    ensures filter == Gainers ==> forall s :: s in r <==> s in rows && s.changePercent > 0.0
    ensures filter == Losers ==> forall s :: s in r <==> s in rows && s.changePercent < 0.0
    ensures filter == MostActive ==> forall s :: s in r <==> s in rows && s.category == "Most Active"
    ensures filter == Gainers ==>
              forall s :: multiset(r)[s] == if s.changePercent > 0.0 then multiset(rows)[s] else 0
    ensures filter == Losers ==>
              forall s :: multiset(r)[s] == if s.changePercent < 0.0 then multiset(rows)[s] else 0
    ensures filter == MostActive ==>
              forall s :: multiset(r)[s] == if s.category == "Most Active" then multiset(rows)[s] else 0
  {
    match filter
    case All =>
      Seqs.FilterKeepsAll((s: Scanner) => true, rows);
      Seqs.FilterIsSubsequence((s: Scanner) => true, rows);
      rows
    case Gainers => Keep(IsGainer, rows)
    case Losers => Keep(IsLoser, rows)
    case MostActive => Keep(IsMostActive, rows)
  }

  /** No row is both a gainer and a loser, and a row with no change is neither. */
  lemma GainersLosersDisjoint(rows: seq<Scanner>)
    ensures forall s :: s in FilterRows(rows, Gainers) ==> s !in FilterRows(rows, Losers)
    ensures forall s :: s in rows && s.changePercent == 0.0 ==>
              s !in FilterRows(rows, Gainers) && s !in FilterRows(rows, Losers)
  {
  }

  /** On the mock catalogue the gainers are MSTR, COIN, AMZN and META. */
  lemma MockGainers(rows: seq<Scanner>)
    requires rows == GetScanners()
    ensures FilterRows(rows, Gainers) == [rows[0], rows[1], rows[3], rows[4]]
  {
    assert IsGainer(rows[0]) && IsGainer(rows[1]) && !IsGainer(rows[2]);
    assert IsGainer(rows[3]) && IsGainer(rows[4]) && !IsGainer(rows[5]);
    assert Seqs.Filter(IsGainer, rows[5..]) == [];
    assert Seqs.Filter(IsGainer, rows[4..]) == [rows[4]];
    assert Seqs.Filter(IsGainer, rows[3..]) == [rows[3], rows[4]];
    assert Seqs.Filter(IsGainer, rows[2..]) == [rows[3], rows[4]];
    assert Seqs.Filter(IsGainer, rows[1..]) == [rows[1], rows[3], rows[4]];
    assert Seqs.Filter(IsGainer, rows) == [rows[0], rows[1], rows[3], rows[4]];
  }

  /** On the mock catalogue the losers are exactly CRM and NFLX. */
  lemma MockLosers(rows: seq<Scanner>)
    requires rows == GetScanners()
    ensures FilterRows(rows, Losers) == [rows[2], rows[5]]
    ensures rows[2].symbol == "CRM" && rows[5].symbol == "NFLX"
  {
    assert Seqs.Filter(IsLoser, rows[5..]) == [rows[5]];
    assert Seqs.Filter(IsLoser, rows[4..]) == [rows[5]];
    assert Seqs.Filter(IsLoser, rows[3..]) == [rows[5]];
    assert Seqs.Filter(IsLoser, rows[2..]) == [rows[2], rows[5]];
    assert Seqs.Filter(IsLoser, rows[1..]) == [rows[2], rows[5]];
  }

  /** On the mock catalogue only AMZN is most active, and it is also a gainer. */
  lemma MockMostActive(rows: seq<Scanner>)
    requires rows == GetScanners()
    ensures FilterRows(rows, MostActive) == [rows[3]]
    ensures rows[3].symbol == "AMZN" && rows[3] in FilterRows(rows, Gainers)
  {
    assert Seqs.Filter(IsMostActive, rows[5..]) == [];
    assert Seqs.Filter(IsMostActive, rows[4..]) == [];
    assert Seqs.Filter(IsMostActive, rows[3..]) == [rows[3]];
    assert Seqs.Filter(IsMostActive, rows[2..]) == [rows[3]];
    assert Seqs.Filter(IsMostActive, rows[1..]) == [rows[3]];
  }

  /** How `formatVolume` displays a volume: in millions, in thousands, or as is. */
  datatype VolumeText = Millions(scaled: real) | Thousands(scaled: real) | Units(amount: real)

  /** The unit suffix appended to the displayed digits. */
  function Suffix(t: VolumeText): string {
    match t
    case Millions(_) => "M"
    case Thousands(_) => "K"
    case Units(_) => ""
  }

  /** The unit chosen for a volume and the value shown before the suffix (decimal rounding not modelled). */
  function FormatVolume(volume: real): (t: VolumeText)
    ensures Suffix(t) == "M" <==> volume >= 1000000.0
    ensures Suffix(t) == "K" <==> 1000.0 <= volume < 1000000.0
    ensures Suffix(t) == "" <==> volume < 1000.0
    ensures t.Millions? ==> t.scaled * 1000000.0 == volume
    ensures t.Thousands? ==> t.scaled * 1000.0 == volume
    ensures t.Units? ==> t.amount == volume
  {
    if volume >= 1000000.0 then Millions(volume / 1000000.0)
    else if volume >= 1000.0 then Thousands(volume / 1000.0)
    else Units(volume)
  }

  class ScannerComponent {
    var allScanners: seq<Scanner>
    var activeFilter: ScanFilter

    constructor ()
      ensures allScanners == [] && activeFilter == All
    {
      allScanners := [];
      activeFilter := All;
    }

    /** Loads the rows from the mock catalogue. */
    method NgOnInit()
      modifies this`allScanners
      ensures allScanners == GetScanners()
    {
      allScanners := GetScanners();
    }

    /** Selects a filter; the rows are untouched. */
    method SetFilter(filter: ScanFilter)
      modifies this`activeFilter
      ensures activeFilter == filter
    {
      activeFilter := filter;
    }

    /** The rows the current filter shows. */
    function FilteredScanners(): (r: seq<Scanner>)
      reads this
      ensures Seqs.Subsequence(r, allScanners)
      ensures activeFilter == All ==> r == allScanners
    {
      FilterRows(allScanners, activeFilter)
    }
  }
}
