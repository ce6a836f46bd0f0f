/** The conductometric titration's numbers: the simulated conductance curve,
    the reading table with its duplicate guard, the NaOH schedule, and the
    two endpoints read off the discrete slope of the sorted readings. */
module Titration {
  import opened Wrappers
  import opened Series

  /** One reading: millilitres of NaOH added and the conductance (mS) shown. */
  datatype CondRow = CondRow(naoh: real, conductance: real)

  /** A reading together with its row label, which is its insertion position. */
  datatype Labelled = Labelled(rowLabel: nat, row: CondRow)

  const MaxNaoh: real := 8.0
  const NaohStep: real := 0.2

  /** Falls by 0.02 mS per 0.2 ml up to 4 ml, then rises by 0.03 mS per 0.2 ml
      from 0.6 mS: the lowest reading is 0.4 mS, at exactly 4 ml, and every
      reading past 4 ml is above 0.6 mS. */
  function Conductance(x: real): (c: real)
    ensures c >= 0.4 && (c == 0.4 <==> x == 4.0)
    ensures x > 4.0 ==> c > 0.6
  {
    if x <= 4.0 then 0.8 - 0.02 * (x / 0.2)
    else 0.6 + 0.03 * ((x - 4.0) / 0.2)
  }

  function Slope(a: CondRow, b: CondRow): real
    requires a.naoh != b.naoh
  {
    (b.conductance - a.conductance) / (b.naoh - a.naoh)
  }

  /** Between two readings on the same branch of the curve the slope is that
      branch's: -0.1 mS/ml up to 4 ml, 0.15 mS/ml beyond. */
  lemma ConductanceBranches(x: real, y: real)
    requires x < y
    ensures y <= 4.0 ==> Slope(CondRow(x, Conductance(x)), CondRow(y, Conductance(y))) == -0.1
    ensures 4.0 < x ==> Slope(CondRow(x, Conductance(x)), CondRow(y, Conductance(y))) == 0.15
  {
    if y <= 4.0 {
      assert Conductance(y) - Conductance(x) == -0.1 * (y - x);
      Cancel(-0.1, y - x);
    }
    if 4.0 < x {
      assert Conductance(y) - Conductance(x) == 0.15 * (y - x);
      Cancel(0.15, y - x);
    }
  }

  lemma Cancel(a: real, d: real)
    requires d != 0.0
    ensures a * d / d == a
  {
  }

  predicate HasNaoh(table: seq<CondRow>, x: real)
  {
    exists row :: row in table && row.naoh == x
  }

  ghost predicate NaohUnique(table: seq<CondRow>)
  {
    forall i, j :: 0 <= i < j < |table| ==> table[i].naoh != table[j].naoh
  }

  /** Records the reading at `x` ml unless that volume is already in the table. */
  function RecordReading(table: seq<CondRow>, x: real): (r: seq<CondRow>)
    ensures HasNaoh(r, x)
    ensures |table| <= |r| <= |table| + 1 && r[..|table|] == table
    ensures |r| == |table| + 1 <==> !HasNaoh(table, x)
    ensures |r| == |table| + 1 ==> r[|table|] == CondRow(x, Conductance(x))
    ensures NaohUnique(table) ==> NaohUnique(r)
  {
    if HasNaoh(table, x) then table else table + [CondRow(x, Conductance(x))]
  }

  /** The volume proposed after a recorded reading: 0.2 ml more, capped at 8 ml. */
  function NextNaoh(x: real): (r: real)
    ensures r <= MaxNaoh && r <= x + NaohStep
    ensures r == MaxNaoh || r == x + NaohStep
    ensures x < MaxNaoh ==> x < r
  {
    if x + NaohStep < MaxNaoh then x + NaohStep else MaxNaoh
  }

  function NaohOf(y: Labelled): real { y.row.naoh }

  function Indexed(rows: seq<CondRow>): seq<Labelled>
  {
    seq(|rows|, i requires 0 <= i < |rows| => Labelled(i, rows[i]))
  }

  /** The readings sorted by NaOH volume, each keeping its insertion label:
      strictly ascending in volume, a permutation of the labelled table. */
  function SortedReadings(rows: seq<CondRow>): (s: seq<Labelled>)
    requires NaohUnique(rows)
    ensures |s| == |rows|
    ensures StrictlyAscending(s, NaohOf)
    ensures forall i :: 0 <= i < |s| ==> s[i].rowLabel < |rows| && rows[s[i].rowLabel] == s[i].row
    ensures forall i :: 0 <= i < |rows| ==> Labelled(i, rows[i]) in s
  {
    var ix := Indexed(rows);
    assert forall i :: 0 <= i < |rows| ==> ix[i] == Labelled(i, rows[i]);
    var s := SortBy(ix, NaohOf);
    SortByOrders(ix, NaohOf);
    SortByMembers(ix, NaohOf);
    s
  }

  /** The slope into the reading at position `p` of the sorted table from the one before it. */
  function SlopeAt(s: seq<Labelled>, p: nat): real
    requires StrictlyAscending(s, NaohOf)
    requires 1 <= p < |s|
  {
    Slope(s[p - 1].row, s[p].row)
  }

  /** The defined part of the difference column: one slope per position 1 .. |s|-1. */
  function Slopes(s: seq<Labelled>): seq<real>
    requires StrictlyAscending(s, NaohOf)
    requires |s| >= 2
  {
    seq(|s| - 1, i requires 0 <= i < |s| - 1 => SlopeAt(s, i + 1))
  }

  /** For readings taken off the conductance curve the difference column is
      constant on each branch: every entry is -0.1 when all readings are at
      or below 4 ml, and 0.15 when all are beyond 4 ml. */
  lemma SlopesOnBranches(s: seq<Labelled>)
    requires StrictlyAscending(s, NaohOf) && |s| >= 2
    requires forall i :: 0 <= i < |s| ==> s[i].row.conductance == Conductance(s[i].row.naoh)
    ensures (forall i :: 0 <= i < |s| ==> s[i].row.naoh <= 4.0) ==>
              forall i :: 0 <= i < |s| - 1 ==> Slopes(s)[i] == -0.1
    ensures (forall i :: 0 <= i < |s| ==> 4.0 < s[i].row.naoh) ==>
              forall i :: 0 <= i < |s| - 1 ==> Slopes(s)[i] == 0.15
  {
    var d := Slopes(s);
    forall i | 0 <= i < |s| - 1
      ensures d[i] == SlopeAt(s, i + 1)
      ensures s[i + 1].row.naoh <= 4.0 ==> d[i] == -0.1
      ensures 4.0 < s[i].row.naoh ==> d[i] == 0.15
    {
      var a, b := s[i].row, s[i + 1].row;
      assert NaohOf(s[i]) < NaohOf(s[i + 1]);
      assert a == CondRow(a.naoh, Conductance(a.naoh));
      assert b == CondRow(b.naoh, Conductance(b.naoh));
      ConductanceBranches(a.naoh, b.naoh);
    }
  }

  /** `p` is the first position of the sorted table with the steepest fall. */
  ghost predicate MinSlopeAt(s: seq<Labelled>, p: nat)
    requires StrictlyAscending(s, NaohOf)
  {
    1 <= p < |s| &&
    (forall j :: 1 <= j < |s| ==> SlopeAt(s, p) <= SlopeAt(s, j)) &&
    (forall j :: 1 <= j < p ==> SlopeAt(s, p) < SlopeAt(s, j))
  }

  /** `p` is the first position of the sorted table with the steepest rise. */
  ghost predicate MaxSlopeAt(s: seq<Labelled>, p: nat)
    requires StrictlyAscending(s, NaohOf)
  {
    1 <= p < |s| &&
    (forall j :: 1 <= j < |s| ==> SlopeAt(s, j) <= SlopeAt(s, p)) &&
    (forall j :: 1 <= j < p ==> SlopeAt(s, j) < SlopeAt(s, p))
  }

  /** idxmin over the difference column, as a position of the sorted table. */
  function MinSlopePosition(s: seq<Labelled>): (p: nat)
    requires StrictlyAscending(s, NaohOf)
    requires |s| >= 2
    ensures MinSlopeAt(s, p)
  {
    var d := Slopes(s);
    var k := ArgMin(d);
    assert forall j :: 1 <= j < |s| ==> SlopeAt(s, j) == d[j - 1];
    1 + k
  }

  /** idxmax over the difference column, as a position of the sorted table. */
  function MaxSlopePosition(s: seq<Labelled>): (p: nat)
    requires StrictlyAscending(s, NaohOf)
    requires |s| >= 2
    ensures MaxSlopeAt(s, p)
  {
    var d := Slopes(s);
    var k := ArgMax(d);
    assert forall j :: 1 <= j < |s| ==> SlopeAt(s, j) == d[j - 1];
    1 + k
  }

  /** The HCl endpoint: the volume at which the sorted curve falls most
      steeply, or nothing when fewer than two readings give no slope. */
  function HclEndpoint(rows: seq<CondRow>): (r: Option<real>)
    requires NaohUnique(rows)
    ensures r.None? <==> |rows| < 2
    ensures r.Some? ==> exists p: nat :: MinSlopeAt(SortedReadings(rows), p) && r.value == SortedReadings(rows)[p].row.naoh
  {
    if |rows| < 2 then None
    else
      var s := SortedReadings(rows);
      Some(s[MinSlopePosition(s)].row.naoh)
  }

  /** The CH3COOH endpoint: the volume at which the sorted curve rises most
      steeply, or nothing when fewer than two readings give no slope. */
  function Ch3coohEndpoint(rows: seq<CondRow>): (r: Option<real>)
    requires NaohUnique(rows)
    ensures r.None? <==> |rows| < 2
    ensures r.Some? ==> exists p: nat :: MaxSlopeAt(SortedReadings(rows), p) && r.value == SortedReadings(rows)[p].row.naoh
  {
    if |rows| < 2 then None
    else
      var s := SortedReadings(rows);
      Some(s[MaxSlopePosition(s)].row.naoh)
  }

  /** The HCl endpoint as the chart code computes it: idxmin yields the row
      label of the steepest fall, and that label is then used as a position
      of the sorted table. */
  function HclEndpointAsWritten(rows: seq<CondRow>): (r: Option<real>)
    requires NaohUnique(rows)
    ensures r.None? <==> |rows| < 2
    ensures r.Some? ==> (exists p: nat :: MinSlopeAt(SortedReadings(rows), p) &&
                                 r.value == SortedReadings(rows)[SortedReadings(rows)[p].rowLabel].row.naoh)
  {
    if |rows| < 2 then None
    else
      var s := SortedReadings(rows);
      Some(s[s[MinSlopePosition(s)].rowLabel].row.naoh)
  }

  /** The CH3COOH endpoint as the chart code computes it (label used as position). */
  function Ch3coohEndpointAsWritten(rows: seq<CondRow>): (r: Option<real>)
    requires NaohUnique(rows)
    ensures r.None? <==> |rows| < 2
    ensures r.Some? ==> (exists p: nat :: MaxSlopeAt(SortedReadings(rows), p) &&
                                 r.value == SortedReadings(rows)[SortedReadings(rows)[p].rowLabel].row.naoh)
  {
    if |rows| < 2 then None
    else
      var s := SortedReadings(rows);
      Some(s[s[MaxSlopePosition(s)].rowLabel].row.naoh)
  }

  function RowNaoh(row: CondRow): real { row.naoh }

  /** Readings recorded in ascending order of volume have distinct volumes,
      and sorting them leaves every reading at the position of its label. */
  lemma AscendingKeepsLabels(rows: seq<CondRow>)
    requires StrictlyAscending(rows, RowNaoh)
    ensures NaohUnique(rows)
    ensures SortedReadings(rows) == Indexed(rows)
  {
    var ix := Indexed(rows);
    assert forall i :: 0 <= i < |rows| ==> ix[i] == Labelled(i, rows[i]);
    assert SortedBy(ix, NaohOf) by {
      forall i, j | 0 <= i < j < |ix| ensures NaohOf(ix[i]) <= NaohOf(ix[j]) {
        assert RowNaoh(rows[i]) < RowNaoh(rows[j]);
      }
    }
    SortByOfSorted(ix, NaohOf);
    assert NaohUnique(rows) by {
      forall i, j | 0 <= i < j < |rows| ensures rows[i].naoh != rows[j].naoh {
        assert RowNaoh(rows[i]) < RowNaoh(rows[j]);
      }
    }
  }

  /** When the readings were recorded in ascending order of volume, as the
      default stepping records them, row labels coincide with sorted positions
      and the chart's endpoints are the intended ones. */
  lemma AsWrittenAgreesWhenAscending(rows: seq<CondRow>)
    requires StrictlyAscending(rows, RowNaoh)
    ensures NaohUnique(rows)
    ensures HclEndpointAsWritten(rows) == HclEndpoint(rows)
    ensures Ch3coohEndpointAsWritten(rows) == Ch3coohEndpoint(rows)
  {
    HclAgreesWhenAscending(rows);
    Ch3coohAgreesWhenAscending(rows);
  }

  lemma HclAgreesWhenAscending(rows: seq<CondRow>)
    requires StrictlyAscending(rows, RowNaoh)
    ensures NaohUnique(rows) && HclEndpointAsWritten(rows) == HclEndpoint(rows)
  {
    AscendingKeepsLabels(rows);
    if |rows| >= 2 {
      var s := SortedReadings(rows);
      var p := MinSlopePosition(s);
      assert s[p] == Labelled(p, rows[p]);
      assert HclEndpointAsWritten(rows) == Some(s[s[p].rowLabel].row.naoh);
      assert HclEndpoint(rows) == Some(s[p].row.naoh);
    }
  }

  lemma Ch3coohAgreesWhenAscending(rows: seq<CondRow>)
    requires StrictlyAscending(rows, RowNaoh)
    ensures NaohUnique(rows) && Ch3coohEndpointAsWritten(rows) == Ch3coohEndpoint(rows)
  {
    AscendingKeepsLabels(rows);
    if |rows| >= 2 {
      var s := SortedReadings(rows);
      var p := MaxSlopePosition(s);
      assert s[p] == Labelled(p, rows[p]);
      assert Ch3coohEndpointAsWritten(rows) == Some(s[s[p].rowLabel].row.naoh);
      assert Ch3coohEndpoint(rows) == Some(s[p].row.naoh);
    }
  }

  /** Two readings recorded out of order, 0.2 ml first and then 0.0 ml. */
  function OutOfOrderReadings(): seq<CondRow>
  {
    [CondRow(0.2, Conductance(0.2)), CondRow(0.0, Conductance(0.0))]
  }

  /** On those readings the chart reports 0.0 ml, the start of the only slope,
      where the intended endpoint is its end, 0.2 ml. */
  lemma AsWrittenMisreadsLabels()
    ensures NaohUnique(OutOfOrderReadings())
    ensures HclEndpointAsWritten(OutOfOrderReadings()) == Some(0.0)
    ensures HclEndpoint(OutOfOrderReadings()) == Some(0.2)
    ensures Ch3coohEndpointAsWritten(OutOfOrderReadings()) == Some(0.0)
    ensures Ch3coohEndpoint(OutOfOrderReadings()) == Some(0.2)
  {
    var rows := OutOfOrderReadings();
    var l0, l1 := Labelled(0, rows[0]), Labelled(1, rows[1]);
    var ix := Indexed(rows);
    assert ix == [l0, l1];
    assert ix[1..] == [l1];
    assert SortBy([l1], NaohOf) == Insert(l1, [], NaohOf) == [l1];
    assert Insert(l0, [l1], NaohOf) == [l1] + Insert(l0, [], NaohOf) == [l1, l0];
    var s := SortedReadings(rows);
    assert s == [l1, l0];
    assert MinSlopePosition(s) == 1 && MaxSlopePosition(s) == 1;
  }

  /** The reading the default stepping records at step `i`: 0.2 i ml. */
  function GridReading(i: nat): CondRow
  {
    CondRow(NaohStep * i as real, Conductance(NaohStep * i as real))
  }

  function Grid(n: nat): seq<CondRow>
  {
    seq(n, i requires 0 <= i < n => GridReading(i))
  }

  /** The grid readings are in strictly ascending order of volume, so sorting
      them keeps every reading at the position of its label. */
  lemma GridIsSorted(n: nat)
    ensures StrictlyAscending(Grid(n), RowNaoh) && NaohUnique(Grid(n))
    ensures SortedReadings(Grid(n)) == Indexed(Grid(n))
  {
    var g := Grid(n);
    assert StrictlyAscending(g, RowNaoh) by {
      forall i, j | 0 <= i < j < n ensures RowNaoh(g[i]) < RowNaoh(g[j]) {
        assert g[i] == GridReading(i) && g[j] == GridReading(j);
      }
    }
    AscendingKeepsLabels(g);
  }

  /** The slope between grid readings `j - 1` and `j`. */
  lemma GridStep(j: nat)
    requires 1 <= j
    ensures GridReading(j - 1).naoh != GridReading(j).naoh
    ensures Slope(GridReading(j - 1), GridReading(j)) == if j <= 20 then -0.1 else if j == 21 then 1.15 else 0.15
  {
    var a, b := GridReading(j - 1), GridReading(j);
    assert b.naoh - a.naoh == 0.2;
    if j <= 20 {
      ConductanceBranches(a.naoh, b.naoh);
    } else if j == 21 {
      assert a == CondRow(4.0, 0.4);
      assert b == CondRow(4.2, 0.63);
    } else {
      ConductanceBranches(a.naoh, b.naoh);
    }
  }

  /** On the 0.2 ml grid the slope into step `j` is -0.1 up to 4 ml, 1.15
      into 4.2 ml and 0.15 after it. */
  lemma GridSlope(n: nat, j: nat)
    requires 1 <= j < n
    ensures StrictlyAscending(Indexed(Grid(n)), NaohOf)
    ensures SlopeAt(Indexed(Grid(n)), j) == if j <= 20 then -0.1 else if j == 21 then 1.15 else 0.15
  {
    GridIsSorted(n);
    var g := Grid(n);
    var s := Indexed(g);
    assert s[j - 1] == Labelled(j - 1, g[j - 1]) && s[j] == Labelled(j, g[j]);
    assert g[j - 1] == GridReading(j - 1) && g[j] == GridReading(j);
    GridStep(j);
  }

  /** On the full grid from 0 to 8 ml, in exact arithmetic, the first of the
      twenty equal steepest falls is the one into 0.2 ml. */
  lemma GridMinSlope()
    ensures NaohUnique(Grid(41))
    ensures MinSlopePosition(SortedReadings(Grid(41))) == 1
  {
    GridIsSorted(41);
    var s := Indexed(Grid(41));
    var p := MinSlopePosition(s);
    GridSlope(41, 1);
    GridSlope(41, p);
  }

  /** On the full grid from 0 to 8 ml the steepest rise is the one into 4.2 ml. */
  lemma GridMaxSlope()
    ensures NaohUnique(Grid(41))
    ensures MaxSlopePosition(SortedReadings(Grid(41))) == 21
  {
    GridIsSorted(41);
    var s := Indexed(Grid(41));
    var p := MaxSlopePosition(s);
    GridSlope(41, 21);
    GridSlope(41, p);
  }

  /** Recording the whole grid gives an HCl endpoint of 0.2 ml and a CH3COOH
      endpoint of 4.2 ml. */
  lemma GridEndpoints()
    ensures NaohUnique(Grid(41))
    ensures HclEndpoint(Grid(41)) == Some(0.2)
    ensures Ch3coohEndpoint(Grid(41)) == Some(4.2)
  {
    GridHclEndpoint();
    GridCh3coohEndpoint();
  }

  /** Sorting the grid leaves reading `k` at position `k`. */
  lemma GridSortedAt(n: nat, k: nat)
    requires k < n
    ensures NaohUnique(Grid(n)) && SortedReadings(Grid(n))[k] == Labelled(k, GridReading(k))
  {
    GridIsSorted(n);
    assert Indexed(Grid(n))[k] == Labelled(k, Grid(n)[k]);
  }

  lemma GridHclEndpoint()
    ensures NaohUnique(Grid(41)) && HclEndpoint(Grid(41)) == Some(0.2)
  {
    GridMinSlope();
    GridSortedAt(41, 1);
  }

  lemma GridCh3coohEndpoint()
    ensures NaohUnique(Grid(41)) && Ch3coohEndpoint(Grid(41)) == Some(4.2)
  {
    GridMaxSlope();
    GridSortedAt(41, 21);
  }

  /** The chart's fallback: an endpoint that cannot be computed is shown as 0. */
  function OrZero(o: Option<real>): (r: real)
    ensures o.None? ==> r == 0.0
    ensures o.Some? ==> r == o.value
  {
    match o
    case Some(v) => v
    case None => 0.0
  }

  /** With fewer than two readings there is no slope, and the chart shows both
      endpoints as 0. */
  lemma FewReadingsShowZero(rows: seq<CondRow>)
    requires |rows| < 2
    ensures NaohUnique(rows)
    ensures OrZero(HclEndpoint(rows)) == 0.0 && OrZero(Ch3coohEndpoint(rows)) == 0.0
  {
  }
}
