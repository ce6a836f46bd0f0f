/** The phenol-water experiment's numbers: the composition of a mixture, the
    simulated temperatures at which its turbidity disappears and reappears, the
    observation table with its duplicate guard, the water schedule, and the
    critical solution temperature read off the finished table. */
module PhenolWater {
  import opened Series

  /** Temperatures (degrees C) at which turbidity disappears on heating and
      reappears on cooling. */
  datatype Temps = Temps(disappear: real, reappear: real)

  /** One row of the observation table; the pair (phenol, water) is its key. */
  datatype PhenolRow = PhenolRow(phenol: real, water: real, percent: real,
                                 disappear: real, reappear: real, mean: real)
  {
    function Key(): (real, real) { (phenol, water) }
  }

  /** The composition point the chart marks as the critical solution temperature. */
  datatype CstPoint = CstPoint(temp: real, percent: real)

  const MaxWater: real := 36.0
  const WaterStep: real := 2.0
  const StartWater: real := 3.0

  /** Percentage of phenol by volume in a mixture of `phenol` ml phenol and `water` ml water. */
  function PercentPhenol(phenol: real, water: real): (p: real)
    requires phenol > 0.0 && water > 0.0
    ensures 0.0 < p < 100.0
    ensures p * (phenol + water) == 100.0 * phenol
  {
    phenol / (phenol + water) * 100.0
  }

  /** The four-segment disappearance curve and the hysteresis offset. */
  function CalculateTemps(p: real): (t: Temps)
    ensures t.disappear <= 70.0 && (t.disappear == 70.0 <==> p == 30.0)
    ensures t.disappear - t.reappear == 2.0 + 0.05 * p
    ensures 0.0 <= p ==> t.reappear <= t.disappear - 2.0
  {
    var disappear :=
      if p < 10.0 then 32.0 + p * 3.5
      else if p < 30.0 then 65.0 + (p - 10.0) * 0.25
      else if p < 70.0 then 70.0 - (p - 30.0) * 0.1
      else 66.0 - (p - 70.0) * 0.3;
    Temps(disappear, disappear - (2.0 + p * 0.05))
  }

  /** The arithmetic mean of the two observed temperatures. */
  function MeanTemp(disappear: real, reappear: real): (m: real)
    ensures m - reappear == disappear - m
    ensures reappear < disappear ==> reappear < m < disappear
  {
    (disappear + reappear) / 2.0
  }

  /** The mean temperature as a function of composition: the curve whose peak
      is the critical solution temperature, 68.25 degrees at 30 % phenol. */
  function MeanCurve(p: real): (m: real)
    ensures m <= 68.25
    ensures m == 68.25 <==> p == 30.0
  {
    var t := CalculateTemps(p);
    MeanTemp(t.disappear, t.reappear)
  }

  /** Left of 30 % the mean temperature rises on each segment (it drops at the
      10 % break); right of 30 % it falls. */
  lemma MeanCurveShape(p: real, q: real)
    requires p < q
    ensures q < 10.0 || 10.0 <= p ==> (q <= 30.0 ==> MeanCurve(p) < MeanCurve(q))
    ensures 30.0 <= p ==> MeanCurve(q) < MeanCurve(p)
  {
  }

  /** The disappearance curve is continuous at 30 % and at 70 %: moving `e`
      away from either break changes it by at most 0.3 e. */
  lemma DisappearContinuousAt30And70(e: real)
    requires 0.0 < e <= 1.0
    ensures -0.3 * e <= CalculateTemps(30.0 - e).disappear - CalculateTemps(30.0).disappear <= 0.3 * e
    ensures -0.3 * e <= CalculateTemps(30.0 + e).disappear - CalculateTemps(30.0).disappear <= 0.3 * e
    ensures -0.3 * e <= CalculateTemps(70.0 - e).disappear - CalculateTemps(70.0).disappear <= 0.3 * e
    ensures -0.3 * e <= CalculateTemps(70.0 + e).disappear - CalculateTemps(70.0).disappear <= 0.3 * e
  {
  }

  /** At 10 % the disappearance curve jumps: from 67 degrees just below it to 65 at it. */
  lemma DisappearJumpsAt10(e: real)
    requires 0.0 < e <= 0.25
    ensures CalculateTemps(10.0).disappear == 65.0
    ensures CalculateTemps(10.0 - e).disappear >= CalculateTemps(10.0).disappear + 1.0
  {
  }

  /** The row recorded for a mixture of `phenol` ml phenol and `water` ml water. */
  function MakeRow(phenol: real, water: real): (row: PhenolRow)
    requires phenol > 0.0 && water > 0.0
    ensures row.Key() == (phenol, water)
    ensures row.percent * (phenol + water) == 100.0 * phenol && 0.0 < row.percent < 100.0
    ensures row.disappear == CalculateTemps(row.percent).disappear
    ensures row.reappear == CalculateTemps(row.percent).reappear
    ensures row.mean - row.reappear == row.disappear - row.mean
    ensures row.reappear < row.mean < row.disappear
    ensures row.mean == MeanCurve(row.percent) && row.mean <= 68.25
    ensures row.disappear - row.reappear == 2.0 + 0.05 * row.percent
  {
    var p := PercentPhenol(phenol, water);
    var t := CalculateTemps(p);
    PhenolRow(phenol, water, p, t.disappear, t.reappear, MeanTemp(t.disappear, t.reappear))
  }

  /** A row as the experiment records it, for volumes the input fields admit. */
  ghost predicate IsModelRow(row: PhenolRow)
  {
    5.0 <= row.phenol <= 10.0 && 3.0 <= row.water <= MaxWater &&
    row == MakeRow(row.phenol, row.water)
  }

  predicate HasKey(table: seq<PhenolRow>, key: (real, real))
  {
    exists row :: row in table && row.Key() == key
  }

  ghost predicate KeysUnique(table: seq<PhenolRow>)
  {
    forall i, j :: 0 <= i < j < |table| ==> table[i].Key() != table[j].Key()
  }

  /** Records `row` unless a row with its key is already in the table. */
  function RecordRow(table: seq<PhenolRow>, row: PhenolRow): (r: seq<PhenolRow>)
    ensures HasKey(r, row.Key())
    ensures |table| <= |r| <= |table| + 1 && r[..|table|] == table
    ensures |r| == |table| + 1 <==> !HasKey(table, row.Key())
    ensures |r| == |table| + 1 ==> r[|table|] == row
    ensures KeysUnique(table) ==> KeysUnique(r)
  {
    if HasKey(table, row.Key()) then table else table + [row]
  }

  /** Recording the same row twice is the same as recording it once. */
  lemma RecordRowIdempotent(table: seq<PhenolRow>, row: PhenolRow)
    ensures RecordRow(RecordRow(table, row), row) == RecordRow(table, row)
  {
  }

  /** The water volume after "Add More Water": two millilitres more, capped at 36. */
  function NextWater(w: real): (r: real)
    ensures r <= MaxWater && r <= w + WaterStep
    ensures r == MaxWater || r == w + WaterStep
    ensures w < MaxWater ==> w < r
  {
    if w + WaterStep < MaxWater then w + WaterStep else MaxWater
  }

  function PercentOf(row: PhenolRow): real { row.percent }

  function MeanOf(row: PhenolRow): real { row.mean }

  /** The table as the phase diagram reads it: exact duplicates dropped, then
      sorted by percentage of phenol. */
  function DiagramFrame(table: seq<PhenolRow>): (df: seq<PhenolRow>)
    ensures SortedBy(df, PercentOf)
    ensures forall i :: 0 <= i < |df| ==> df[i] in table
    ensures forall i :: 0 <= i < |table| ==> table[i] in df
  {
    var dd := DropDuplicates(table);
    var df := SortBy(dd, PercentOf);
    SortByOrders(dd, PercentOf);
    SortByMembers(dd, PercentOf);
    df
  }

  function MeanColumn(rows: seq<PhenolRow>): seq<real>
  {
    seq(|rows|, i requires 0 <= i < |rows| => rows[i].mean)
  }

  /** The critical solution temperature: the first maximum of the mean column
      of the diagram frame. Whatever order the sort leaves rows of equal
      composition in, this is the largest mean temperature of the table
      together with the smallest percentage among the rows that reach it. */
  function Cst(table: seq<PhenolRow>): (c: CstPoint)
    requires |table| > 0
    ensures exists row :: row in table && row.mean == c.temp && row.percent == c.percent
    ensures forall row :: row in table ==> row.mean <= c.temp
    ensures forall row :: row in table && row.mean == c.temp ==> c.percent <= row.percent
  {
    var df := DiagramFrame(table);
    assert table[0] in df;
    var column := MeanColumn(df);
    assert forall j :: 0 <= j < |df| ==> column[j] == df[j].mean;
    var k := ArgMax(column);
    FirstMaxOfFrame(table, df, k);
    CstPoint(df[k].mean, df[k].percent)
  }

  /** The first row of greatest mean in a %-phenol-ordered frame holding the
      same rows as the table is a greatest-mean row of the table with the
      least percentage among those. */
  lemma FirstMaxOfFrame(table: seq<PhenolRow>, df: seq<PhenolRow>, k: nat)
    requires SortedBy(df, PercentOf)
    requires forall i :: 0 <= i < |df| ==> df[i] in table
    requires forall i :: 0 <= i < |table| ==> table[i] in df
    requires k < |df|
    requires forall j :: 0 <= j < |df| ==> df[j].mean <= df[k].mean
    requires forall j :: 0 <= j < k ==> df[j].mean < df[k].mean
    ensures df[k] in table
    ensures forall row :: row in table ==> row.mean <= df[k].mean
    ensures forall row :: row in table && row.mean == df[k].mean ==> df[k].percent <= row.percent
  {
    forall row | row in table ensures row.mean <= df[k].mean {
      var i :| 0 <= i < |table| && table[i] == row;
      assert table[i] in df;
    }
    forall row | row in table && row.mean == df[k].mean ensures df[k].percent <= row.percent {
      var i :| 0 <= i < |table| && table[i] == row;
      assert table[i] in df;
      var j :| 0 <= j < |df| && df[j] == row;
      assert k <= j;
    }
  }

  /** The average gap between the disappearance and reappearance temperatures. */
  function MeanHysteresis(table: seq<PhenolRow>): (h: real)
    requires |table| > 0
    ensures exists row :: row in table && row.disappear - row.reappear <= h
    ensures exists row :: row in table && h <= row.disappear - row.reappear
    ensures (forall row :: row in table ==> row.disappear - row.reappear >= 2.0) ==> h >= 2.0
  {
    var df := DiagramFrame(table);
    assert table[0] in df;
    var gaps := seq(|df|, i requires 0 <= i < |df| => df[i].disappear - df[i].reappear);
    GapsAtLeast(table, df, gaps);
    GapsBetween(table, df, gaps);
    Sum(gaps) / |df| as real
  }

  /** The average gap over a frame of table rows lies between the smallest and
      the largest gap of the frame. */
  lemma GapsBetween(table: seq<PhenolRow>, df: seq<PhenolRow>, gaps: seq<real>)
    requires |df| > 0 && |gaps| == |df|
    requires forall i :: 0 <= i < |df| ==> df[i] in table
    requires forall i :: 0 <= i < |df| ==> gaps[i] == df[i].disappear - df[i].reappear
    ensures exists row :: row in table && row.disappear - row.reappear <= Sum(gaps) / |df| as real
    ensures exists row :: row in table && Sum(gaps) / |df| as real <= row.disappear - row.reappear
  {
    var lo := ArgMin(gaps);
    AverageAtLeast(gaps, gaps[lo]);
    assert df[lo] in table;
    var hi := ArgMax(gaps);
    AverageAtMost(gaps, gaps[hi]);
    assert df[hi] in table;
  }

  lemma AverageAtLeast(xs: seq<real>, b: real)
    requires |xs| > 0 && forall i :: 0 <= i < |xs| ==> b <= xs[i]
    ensures b <= Sum(xs) / |xs| as real
  {
    SumAtLeast(xs, b);
    QuotientAtLeast(Sum(xs), |xs| as real, b);
  }

  lemma AverageAtMost(xs: seq<real>, b: real)
    requires |xs| > 0 && forall i :: 0 <= i < |xs| ==> xs[i] <= b
    ensures Sum(xs) / |xs| as real <= b
  {
    SumAtMost(xs, b);
    QuotientAtMost(Sum(xs), |xs| as real, b);
  }

  /** If every row of the table has a gap of at least 2 degrees, so does the
      average over a frame made of rows of the table. */
  lemma GapsAtLeast(table: seq<PhenolRow>, df: seq<PhenolRow>, gaps: seq<real>)
    requires |df| > 0 && |gaps| == |df|
    requires forall i :: 0 <= i < |df| ==> df[i] in table
    requires forall i :: 0 <= i < |df| ==> gaps[i] == df[i].disappear - df[i].reappear
    ensures (forall row :: row in table ==> row.disappear - row.reappear >= 2.0) ==> Sum(gaps) / |df| as real >= 2.0
  {
    if forall row :: row in table ==> row.disappear - row.reappear >= 2.0 {
      forall i | 0 <= i < |gaps| ensures 2.0 <= gaps[i] {
        assert df[i] in table;
      }
      AverageAtLeast(gaps, 2.0);
    }
  }

  lemma QuotientAtLeast(a: real, n: real, b: real)
    requires n > 0.0 && b * n <= a
    ensures b <= a / n
  {
    assert a / n * n == a;
  }

  lemma QuotientAtMost(a: real, n: real, b: real)
    requires n > 0.0 && a <= b * n
    ensures a / n <= b
  {
    assert a / n * n == a;
  }

  /** For a table of recorded rows the critical solution temperature is at most
      68.25 degrees, and it is exactly 68.25 at 30 % whenever a 30 % mixture was
      recorded. */
  lemma CstOfModelTable(table: seq<PhenolRow>)
    requires |table| > 0
    requires forall row :: row in table ==> IsModelRow(row)
    ensures Cst(table).temp <= 68.25
    ensures (exists row :: row in table && row.percent == 30.0) ==> Cst(table) == CstPoint(68.25, 30.0)
  {
    var c := Cst(table);
    var w :| w in table && w.mean == c.temp && w.percent == c.percent;
    assert w.mean == MeanCurve(w.percent);
    if exists row :: row in table && row.percent == 30.0 {
      var row :| row in table && row.percent == 30.0;
      assert row.mean == MeanCurve(30.0) == 68.25;
      assert c.temp == 68.25;
      assert MeanCurve(c.percent) == 68.25;
    }
  }

  /** A table of recorded rows shows a critical solution temperature of at
      most 68.25 degrees and an average hysteresis of at least 2 degrees. */
  lemma ModelTableBounds(table: seq<PhenolRow>)
    requires |table| > 0
    requires forall i :: 0 <= i < |table| ==> IsModelRow(table[i])
    ensures Cst(table).temp <= 68.25
    ensures MeanHysteresis(table) >= 2.0
  {
    forall row | row in table
      ensures IsModelRow(row) && row.disappear - row.reappear >= 2.0
    {
      var i :| 0 <= i < |table| && table[i] == row;
    }
    CstOfModelTable(table);
  }
}
