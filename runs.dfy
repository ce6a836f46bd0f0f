/** The two experiments run through the session with the proposed values: the
    user heats 5 ml of phenol with the proposed water volume, records the
    temperatures and adds more water until 36 ml is reached, and in the
    titration records the proposed NaOH volume until 8 ml. */
module Runs {
  import opened Wrappers
  import opened PhenolWater
  import opened Titration
  import opened Quantities
  import opened Lab

  /** The water volume of the `i`-th trial of the default run: 3, 5, ..., 35, then 36. */
  function GridWater(i: nat): real
  {
    if i < 17 then StartWater + WaterStep * i as real else MaxWater
  }

  lemma GridWaterSteps(i: nat, j: nat)
    requires i < j <= 17
    ensures StartWater <= GridWater(i) < GridWater(j) <= MaxWater
    ensures j == i + 1 ==> GridWater(j) == NextWater(GridWater(i))
  {
  }

  /** The table the default run records. */
  function DefaultPhenolTable(): seq<PhenolRow>
  {
    seq(18, i requires 0 <= i < 18 => MakeRow(5.0, GridWater(i)))
  }

  /** One trial of the default run: heat 5 ml of phenol with the proposed
      water, record the temperatures, and either add more water or, at 36 ml,
      plot the phase diagram. */
  method PhenolTrial(s: Session)
    requires s.Valid() && s.page == PhenolExp1
    requires |s.phenolData| <= 17 && s.waterVol == GridWater(|s.phenolData|)
    requires forall i :: 0 <= i < |s.phenolData| ==> s.phenolData[i] == MakeRow(5.0, GridWater(i))
    modifies s
    ensures s.Valid()
    ensures s.phenolData == old(s.phenolData) + [MakeRow(5.0, GridWater(old(|s.phenolData|)))]
    ensures if old(|s.phenolData|) < 17
            then s.page == PhenolExp1 && s.waterVol == GridWater(|s.phenolData|)
            else s.page == PhenolGraph
  {
    ghost var n := |s.phenolData|;
    ghost var before := s.phenolData;
    assert !HasKey(before, (5.0, GridWater(n))) by {
      forall row | row in before ensures row.Key() != (5.0, GridWater(n)) {
        var i :| 0 <= i < n && before[i] == row;
        GridWaterSteps(i, n);
      }
    }
    s.PhenolExp1Page(s.waterVol, 5.0, Clicked(HeatMixture));
    var _ := s.PhenolExp2Page(Clicked(RecordTemperatures));
    if s.waterVol < MaxWater {
      GridWaterSteps(n, n + 1);
      s.PhenolExp3Page(Clicked(AddMoreWater));
    } else {
      s.PhenolExp3Page(Clicked(PlotPhaseDiagram));
    }
  }

  /** Drives the phenol-water pages from the home page with 5 ml of phenol and
      the proposed water volume each time: eighteen trials at 3, 5, ..., 35 and
      36 ml are recorded, after which the phase diagram is shown. */
  method DefaultPhenolRun() returns (rows: seq<PhenolRow>, cst: CstPoint, hysteresis: real)
    ensures rows == DefaultPhenolTable()
    ensures cst == Cst(rows) && hysteresis == MeanHysteresis(rows)
    ensures cst == CstPoint(68.09375, 31.25) && hysteresis >= 2.0
  {
    var s := new Session();
    s.HomePage(Clicked(StartCstExperiment));
    s.PhenolIntroPage(Clicked(StartExperiment));
    while s.page == PhenolExp1
      invariant s.Valid()
      invariant s.page == PhenolExp1 || s.page == PhenolGraph
      invariant s.page == PhenolExp1 ==> |s.phenolData| <= 17 && s.waterVol == GridWater(|s.phenolData|)
      invariant s.page == PhenolGraph ==> |s.phenolData| == 18
      invariant forall i :: 0 <= i < |s.phenolData| ==> s.phenolData[i] == MakeRow(5.0, GridWater(i))
      decreases 18 - |s.phenolData|
    {
      PhenolTrial(s);
    }
    rows := s.phenolData;
    assert rows == DefaultPhenolTable();
    cst, hysteresis := ShowPhaseDiagram(s);
  }

  /** The phase diagram page on the table of the default run, left with "Return Home". */
  method ShowPhaseDiagram(s: Session) returns (cst: CstPoint, hysteresis: real)
    requires s.Valid() && s.page == PhenolGraph && s.phenolData == DefaultPhenolTable()
    modifies s
    ensures s.Valid() && s.page == Home
    ensures cst == Cst(DefaultPhenolTable()) && hysteresis == MeanHysteresis(DefaultPhenolTable())
    ensures cst == CstPoint(68.09375, 31.25) && hysteresis >= 2.0
  {
    cst, hysteresis := s.PhenolGraphPage(Clicked(ReturnHome));
    DefaultPhenolCst();
  }

  /** Larger water volumes give smaller percentages of phenol. */
  lemma PercentFallsWithWater(phenol: real, w1: real, w2: real)
    requires phenol > 0.0 && 0.0 < w1 < w2
    ensures PercentPhenol(phenol, w2) < PercentPhenol(phenol, w1)
  {
    var p1, p2 := PercentPhenol(phenol, w1), PercentPhenol(phenol, w2);
    assert p1 * (phenol + w1) == p2 * (phenol + w2);
  }

  /** In the default run, 11 ml of water (31.25 % phenol) gives the highest
      mean temperature, 68.09375 degrees; the 30 % mixture is never made. */
  lemma DefaultPhenolCst()
    ensures Cst(DefaultPhenolTable()) == CstPoint(68.09375, 31.25)
  {
    var t := DefaultPhenolTable();
    var top := t[4];
    assert GridWater(4) == 11.0;
    assert top.percent == 31.25;
    assert top.mean == 68.09375;
    assert PercentPhenol(5.0, 13.0) * 18.0 == 500.0;
    assert MeanCurve(PercentPhenol(5.0, 13.0)) == 67.75;
    assert PercentPhenol(5.0, 36.0) * 41.0 == 500.0;
    forall i | 0 <= i < 18 && i != 4
      ensures t[i].mean < top.mean
    {
      if i < 4 {
        GridWaterSteps(i, 4);
        PercentFallsWithWater(5.0, GridWater(i), 11.0);
        MeanCurveShape(31.25, t[i].percent);
      } else {
        if i > 5 {
          GridWaterSteps(5, i);
          PercentFallsWithWater(5.0, 13.0, GridWater(i));
          if i < 17 {
            GridWaterSteps(i, 17);
            PercentFallsWithWater(5.0, GridWater(i), 36.0);
          }
          MeanCurveShape(t[i].percent, PercentPhenol(5.0, 13.0));
        }
      }
    }
    var c := Cst(t);
    assert top in t;
    var row :| row in t && row.mean == c.temp && row.percent == c.percent;
    var k :| 0 <= k < 18 && t[k] == row;
    assert k == 4;
  }

  /** One reading of the default run: record the proposed volume and, once it
      is 8 ml, complete the titration. */
  method TitrationStep(s: Session)
    requires s.Valid() && s.page == CondTitration
    requires |s.condData| <= 40 && s.currentNaoh == NaohStep * |s.condData| as real
    requires forall i :: 0 <= i < |s.condData| ==> s.condData[i] == GridReading(i)
    modifies s
    ensures s.Valid() && s.naohNormality == old(s.naohNormality)
    ensures s.condData == old(s.condData) + [GridReading(old(|s.condData|))]
    ensures if old(|s.condData|) < 40
            then s.page == CondTitration && s.currentNaoh == NaohStep * |s.condData| as real
            else s.page == CondGraph
  {
    ghost var n := |s.condData|;
    ghost var before := s.condData;
    var x := s.currentNaoh;
    assert !HasNaoh(before, x) by {
      forall row | row in before ensures row.naoh != x {
        var i :| 0 <= i < n && before[i] == row;
      }
    }
    s.CondTitrationPage(x, Clicked(RecordMeasurement));
    if x >= MaxNaoh {
      s.CondTitrationPage(x, Clicked(CompleteTitration));
    }
  }

  /** Drives the titration pages from the home page: the NaOH is standardised
      with the proposed 18.5 ml, every proposed volume 0.0, 0.2, ..., 8.0 ml is
      recorded (41 readings), and the chart and results are shown. */
  method DefaultTitrationRun() returns (rows: seq<CondRow>, hcl: real, ch3cooh: real, amounts: Amounts)
    ensures rows == Grid(41)
    ensures hcl == 0.2 && ch3cooh == 4.2
    ensures amounts == AcidAmounts(NaohNormality(18.5), 0.2, 4.2)
  {
    var s := new Session();
    s.HomePage(Clicked(StartTitration));
    s.CondIntroPage(Clicked(StartExperiment));
    s.CondStandardizePage(18.5, Clicked(CalculateNaohNormality));
    s.CondStandardizePage(18.5, Clicked(ProceedToTitration));
    while s.page == CondTitration
      invariant s.Valid()
      invariant s.page == CondTitration || s.page == CondGraph
      invariant s.naohNormality == NaohNormality(18.5)
      invariant s.page == CondTitration ==> |s.condData| <= 40 && s.currentNaoh == NaohStep * |s.condData| as real
      invariant s.page == CondGraph ==> |s.condData| == 41
      invariant forall i :: 0 <= i < |s.condData| ==> s.condData[i] == GridReading(i)
      decreases 41 - |s.condData|
    {
      TitrationStep(s);
    }
    rows := s.condData;
    assert rows == Grid(41);
    hcl, ch3cooh, amounts := ShowTitrationResults(s);
  }

  /** "Show Results" on the chart of the full grid, then the results page,
      left with "Return Home". */
  method ShowTitrationResults(s: Session) returns (hcl: real, ch3cooh: real, amounts: Amounts)
    requires s.Valid() && s.page == CondGraph && s.condData == Grid(41)
    modifies s
    ensures s.Valid() && s.page == Home
    ensures hcl == 0.2 && ch3cooh == 4.2
    ensures amounts == AcidAmounts(old(s.naohNormality), 0.2, 4.2)
  {
    GridEndpoints();
    hcl, ch3cooh := s.CondGraphPage(Clicked(ShowResults));
    amounts := s.CondResultsPage(Clicked(ReturnHome));
  }
}
