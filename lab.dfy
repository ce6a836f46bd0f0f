/** The lab's page state machine: the page identifiers, the buttons and number
    fields a page offers, the session every page reads and updates, one method
    per page, and the router that runs the current page. */
module Lab {
  import opened Wrappers
  import opened PhenolWater
  import opened Titration
  import opened Quantities

  /** One identifier per entry of the router's table. */
  datatype PageId =
    | Home
    | PhenolIntro | PhenolExp1 | PhenolExp2 | PhenolExp3 | PhenolGraph
    | CondIntro | CondStandardize | CondTitration | CondGraph | CondResults

  predicate IsPhenolPage(p: PageId)
  {
    p.PhenolIntro? || p.PhenolExp1? || p.PhenolExp2? || p.PhenolExp3? || p.PhenolGraph?
  }

  predicate IsCondPage(p: PageId)
  {
    p.CondIntro? || p.CondStandardize? || p.CondTitration? || p.CondGraph? || p.CondResults?
  }

  /** The buttons the pages offer, by label. */
  datatype Button =
    | StartCstExperiment | StartTitration
    | StartExperiment | HeatMixture | RecordTemperatures | AddMoreWater | PlotPhaseDiagram
    | CalculateNaohNormality | ProceedToTitration | RecordMeasurement | CompleteTitration
    | ShowResults | ReturnHome

  /** The button whose press caused this run of the page, if any. */
  datatype Click = NoClick | Clicked(button: Button)

  /** What one run of a page receives from the user: the values in the number
      fields (each page reads its own) and the button pressed. */
  datatype Input = Input(water: real, phenol: real, naohUsed: real, naohAdded: real, click: Click)

  /** The bounds the number fields of page `p` enforce. */
  predicate InputInRange(p: PageId, input: Input)
  {
    (p == PhenolExp1 ==> 3.0 <= input.water <= MaxWater && 5.0 <= input.phenol <= 10.0) &&
    (p == CondStandardize ==> 0.1 <= input.naohUsed <= 50.0) &&
    (p == CondTitration ==> 0.0 <= input.naohAdded <= MaxNaoh)
  }

  /** The pages a run of page `p` can leave the session on (including `p`
      itself). The two experiments meet only at the home page: a page of one
      experiment leads only to pages of the same experiment or home. */
  function Successors(p: PageId): (r: set<PageId>)
    ensures p in r
    ensures forall q :: q in r ==>
              q == Home || p == Home || (IsPhenolPage(p) && IsPhenolPage(q)) || (IsCondPage(p) && IsCondPage(q))
  {
    match p
    case Home => {Home, PhenolIntro, CondIntro}
    case PhenolIntro => {PhenolIntro, PhenolExp1}
    case PhenolExp1 => {PhenolExp1, PhenolExp2}
    case PhenolExp2 => {PhenolExp2, PhenolExp3}
    case PhenolExp3 => {PhenolExp3, PhenolExp1, PhenolGraph}
    case PhenolGraph => {PhenolGraph, Home}
    case CondIntro => {CondIntro, CondStandardize}
    case CondStandardize => {CondStandardize, CondTitration}
    case CondTitration => {CondTitration, CondGraph}
    case CondGraph => {CondGraph, CondResults}
    case CondResults => {CondResults, Home}
  }

  /** A walk through the transition graph from `p` back to the home page:
      no page is a dead end. */
  function RouteHome(p: PageId): (path: seq<PageId>)
    ensures |path| > 0 && path[0] == p && path[|path| - 1] == Home
    ensures forall i :: 0 <= i < |path| - 1 ==> path[i + 1] in Successors(path[i])
  {
    match p
    case Home => [Home]
    case PhenolIntro => [PhenolIntro, PhenolExp1, PhenolExp2, PhenolExp3, PhenolGraph, Home]
    case PhenolExp1 => [PhenolExp1, PhenolExp2, PhenolExp3, PhenolGraph, Home]
    case PhenolExp2 => [PhenolExp2, PhenolExp3, PhenolGraph, Home]
    case PhenolExp3 => [PhenolExp3, PhenolGraph, Home]
    case PhenolGraph => [PhenolGraph, Home]
    case CondIntro => [CondIntro, CondStandardize, CondTitration, CondGraph, CondResults, Home]
    case CondStandardize => [CondStandardize, CondTitration, CondGraph, CondResults, Home]
    case CondTitration => [CondTitration, CondGraph, CondResults, Home]
    case CondGraph => [CondGraph, CondResults, Home]
    case CondResults => [CondResults, Home]
  }

  /** The numbers a page shows. */
  datatype View =
    | Blank
    | Observations(temps: Temps)
    | PhaseDiagram(cst: CstPoint, hysteresis: real)
    | TitrationCurve(hclEnd: real, ch3coohEnd: real)
    | Report(amounts: Amounts)

  /** The phenol-water experiment's part of the session. */
  datatype PhenolState = PhenolState(table: seq<PhenolRow>, waterVol: real, phenolVol: Option<real>,
                                     disappear: Option<real>, reappear: Option<real>, total: Option<real>)

  /** The titration's part of the session. */
  datatype CondState = CondState(table: seq<CondRow>, naohNormality: real, currentNaoh: real,
                                 hclEnd: Option<real>, ch3coohEnd: Option<real>)

  /** On the page after "Record Temperatures": the stored total and
      temperatures are those of the current mixture. */
  ghost predicate TrialRecorded(s: PhenolState)
  {
    s.phenolVol.Some? && 5.0 <= s.phenolVol.value && 3.0 <= s.waterVol &&
    var temps := CalculateTemps(PercentPhenol(s.phenolVol.value, s.waterVol));
    s.total == Some(s.phenolVol.value + s.waterVol) &&
    s.disappear == Some(temps.disappear) && s.reappear == Some(temps.reappear)
  }

  ghost predicate PhenolOk(s: PhenolState, page: PageId)
  {
    3.0 <= s.waterVol <= MaxWater &&
    (s.phenolVol.Some? ==> 5.0 <= s.phenolVol.value <= 10.0) &&
    KeysUnique(s.table) &&
    (forall i :: 0 <= i < |s.table| ==> IsModelRow(s.table[i])) &&
    (page == PhenolExp2 || page == PhenolExp3 ==> s.phenolVol.Some?) &&
    (page == PhenolExp3 ==> TrialRecorded(s)) &&
    (page == PhenolGraph ==> |s.table| > 0)
  }

  /** "Add More Water" leaves a state the mixture page can run on. */
  lemma ExpAgainKeepsOk(s: PhenolState, w: real)
    requires PhenolOk(s, PhenolExp3) && 3.0 <= w <= MaxWater
    ensures PhenolOk(s.(waterVol := w), PhenolExp1)
  {
  }

  /** "Plot Phase Diagram" leaves a state the diagram page can run on. */
  lemma PlotKeepsOk(s: PhenolState)
    requires PhenolOk(s, PhenolExp3) && |s.table| > 0
    ensures PhenolOk(s, PhenolGraph)
  {
  }

  ghost predicate IsModelReading(row: CondRow)
  {
    0.0 <= row.naoh <= MaxNaoh && row.conductance == Conductance(row.naoh)
  }

  ghost predicate CondOk(c: CondState, page: PageId)
  {
    0.0 <= c.currentNaoh <= MaxNaoh &&
    c.naohNormality > 0.0 &&
    NaohUnique(c.table) &&
    (forall i :: 0 <= i < |c.table| ==> IsModelReading(c.table[i])) &&
    (page == CondResults ==> c.hclEnd.Some? && c.ch3coohEnd.Some?)
  }

  /** The session: the current page and both experiments' data. A field the
      program has not assigned yet is None. */
  class Session {
    var page: PageId
    var phenolData: seq<PhenolRow>
    var waterVol: real
    var phenolVol: Option<real>
    var disappear: Option<real>
    var reappear: Option<real>
    var total: Option<real>
    var condData: seq<CondRow>
    var naohNormality: real
    var currentNaoh: real
    var hclEnd: Option<real>
    var ch3coohEnd: Option<real>

    ghost function Phenol(): PhenolState
      reads this
    {
      PhenolState(phenolData, waterVol, phenolVol, disappear, reappear, total)
    }

    ghost function Cond(): CondState
      reads this
    {
      CondState(condData, naohNormality, currentNaoh, hclEnd, ch3coohEnd)
    }

    /** Every page the router can be on finds the fields it reads set and consistent. */
    ghost predicate Valid()
      reads this
    {
      PhenolOk(Phenol(), page) && CondOk(Cond(), page)
    }

    /** The session as first created: the home page, empty tables, 3 ml of
        water, 0.1 N NaOH and no NaOH added. */
    constructor ()
      ensures Valid() && page == Home
      ensures Phenol() == PhenolState([], StartWater, None, None, None, None)
      ensures Cond() == CondState([], 0.1, 0.0, None, None)
    {
      page := Home;
      phenolData := [];
      waterVol := StartWater;
      phenolVol, disappear, reappear, total := None, None, None, None;
      condData := [];
      naohNormality := 0.1;
      currentNaoh := 0.0;
      hclEnd, ch3coohEnd := None, None;
    }

    /** The home page's two buttons open the two experiments. */
    twostate predicate HomeStep(click: Click)
      reads this
    {
      page == (if click == Clicked(StartCstExperiment) then PhenolIntro
               else if click == Clicked(StartTitration) then CondIntro
               else Home)
    }

    method HomePage(click: Click)
      requires Valid() && page == Home
      modifies this
      ensures Valid() && Phenol() == old(Phenol()) && Cond() == old(Cond()) && HomeStep(click)
      ensures page in Successors(old(page))
    {
      if click == Clicked(StartCstExperiment) {
        page := PhenolIntro;
      }
      if click == Clicked(StartTitration) {
        page := CondIntro;
      }
    }

    /** "Start Experiment" empties the table and puts the water back to 3 ml. */
    twostate predicate PhenolIntroStep(click: Click)
      reads this
    {
      if click == Clicked(StartExperiment)
      then Phenol() == old(Phenol()).(table := [], waterVol := StartWater) && page == PhenolExp1
      else Phenol() == old(Phenol()) && page == PhenolIntro
    }

    method PhenolIntroPage(click: Click)
      requires Valid() && page == PhenolIntro
      modifies this
      ensures Valid() && Cond() == old(Cond()) && PhenolIntroStep(click)
      ensures page in Successors(old(page))
    {
      if click == Clicked(StartExperiment) {
        phenolData := [];
        waterVol := StartWater;
        page := PhenolExp1;
      }
    }

    /** "Heat Mixture" takes the two volumes from the number fields. */
    twostate predicate PhenolExp1Step(water: real, phenol: real, click: Click)
      reads this
    {
      if click == Clicked(HeatMixture)
      then Phenol() == old(Phenol()).(phenolVol := Some(phenol), waterVol := water) && page == PhenolExp2
      else Phenol() == old(Phenol()) && page == PhenolExp1
    }

    method PhenolExp1Page(water: real, phenol: real, click: Click)
      requires Valid() && page == PhenolExp1
      requires 3.0 <= water <= MaxWater && 5.0 <= phenol <= 10.0
      modifies this
      ensures Valid() && Cond() == old(Cond()) && PhenolExp1Step(water, phenol, click)
      ensures page in Successors(old(page))
    {
      if click == Clicked(HeatMixture) {
        phenolVol := Some(phenol);
        waterVol := water;
        page := PhenolExp2;
      }
    }

    /** The page shows the simulated temperatures of the current mixture;
        "Record Temperatures" stores them with the total volume. */
    twostate predicate PhenolExp2Step(click: Click, shown: Temps)
      requires old(Valid()) && old(page) == PhenolExp2
      reads this
    {
      shown == CalculateTemps(PercentPhenol(old(phenolVol).value, old(waterVol))) &&
      if click == Clicked(RecordTemperatures)
      then Phenol() == old(Phenol()).(disappear := Some(shown.disappear), reappear := Some(shown.reappear),
                                      total := Some(old(phenolVol).value + old(waterVol)))
           && page == PhenolExp3
      else Phenol() == old(Phenol()) && page == PhenolExp2
    }

    method PhenolExp2Page(click: Click) returns (shown: Temps)
      requires Valid() && page == PhenolExp2
      modifies this
      ensures Valid() && Cond() == old(Cond()) && PhenolExp2Step(click, shown)
      ensures page in Successors(old(page))
    {
      var mixture := phenolVol.value + waterVol;
      var percent := (phenolVol.value / mixture) * 100.0;
      shown := CalculateTemps(percent);
      if click == Clicked(RecordTemperatures) {
        disappear := Some(shown.disappear);
        reappear := Some(shown.reappear);
        total := Some(mixture);
        page := PhenolExp3;
      }
    }

    /** The trial is recorded unless its (phenol, water) pair is already in
        the table; then the page offers more water while below 36 ml, the
        phase diagram once there. */
    twostate predicate PhenolExp3Step(click: Click)
      requires old(Valid()) && old(page) == PhenolExp3
      reads this
    {
      phenolData == RecordRow(old(phenolData), MakeRow(old(phenolVol).value, old(waterVol))) &&
      phenolVol == old(phenolVol) && disappear == old(disappear) &&
      reappear == old(reappear) && total == old(total) &&
      if old(waterVol) < MaxWater && click == Clicked(AddMoreWater)
      then waterVol == NextWater(old(waterVol)) && page == PhenolExp1
      else if old(waterVol) >= MaxWater && click == Clicked(PlotPhaseDiagram)
      then waterVol == old(waterVol) && page == PhenolGraph
      else waterVol == old(waterVol) && page == PhenolExp3
    }

    method PhenolExp3Page(click: Click)
      requires Valid() && page == PhenolExp3
      modifies this
      ensures Valid() && Cond() == old(Cond()) && PhenolExp3Step(click)
      ensures page in Successors(old(page))
    {
      RecordTrial();
      ghost var st := Phenol();
      if waterVol < MaxWater {
        if click == Clicked(AddMoreWater) {
          waterVol := NextWater(waterVol);
          page := PhenolExp1;
          assert Phenol() == st.(waterVol := waterVol);
          ExpAgainKeepsOk(st, waterVol);
        }
      } else {
        if click == Clicked(PlotPhaseDiagram) {
          page := PhenolGraph;
          assert Phenol() == st;
          PlotKeepsOk(st);
        }
      }
    }

    /** The duplicate-guarded append of the current trial to the table. */
    method RecordTrial()
      requires Valid() && page == PhenolExp3
      modifies this
      ensures Valid() && Cond() == old(Cond()) && page == old(page)
      ensures Phenol() == old(Phenol()).(table := RecordRow(old(phenolData), MakeRow(old(phenolVol).value, old(waterVol))))
    {
      var phenol := phenolVol.value;
      var percent := (phenol / total.value) * 100.0;
      var mean := (disappear.value + reappear.value) / 2.0;
      var row := PhenolRow(phenol, waterVol, percent, disappear.value, reappear.value, mean);
      assert row == MakeRow(phenol, waterVol);
      ghost var before := phenolData;
      if !HasKey(phenolData, (phenol, waterVol)) {
        phenolData := phenolData + [row];
      }
      assert phenolData == RecordRow(before, row);
      assert forall i :: 0 <= i < |phenolData| ==> IsModelRow(phenolData[i]) by {
        forall i | 0 <= i < |phenolData|
          ensures IsModelRow(phenolData[i])
        {
          if i < |before| {
            assert phenolData[i] == before[i];
          }
        }
      }
    }

    /** The phase diagram shows the critical solution temperature and the
        average hysteresis of the table; "Return Home" leaves it. */
    twostate predicate PhenolGraphStep(click: Click, cst: CstPoint, hysteresis: real)
      requires old(Valid()) && old(page) == PhenolGraph
      reads this
    {
      Phenol() == old(Phenol()) &&
      cst == Cst(old(phenolData)) && hysteresis == MeanHysteresis(old(phenolData)) &&
      page == if click == Clicked(ReturnHome) then Home else PhenolGraph
    }

    method PhenolGraphPage(click: Click) returns (cst: CstPoint, hysteresis: real)
      requires Valid() && page == PhenolGraph
      modifies this
      ensures Valid() && Cond() == old(Cond()) && PhenolGraphStep(click, cst, hysteresis)
      ensures page in Successors(old(page))
      ensures cst.temp <= 68.25 && hysteresis >= 2.0
    {
      cst := Cst(phenolData);
      hysteresis := MeanHysteresis(phenolData);
      ModelTableBounds(phenolData);
      if click == Clicked(ReturnHome) {
        GoHome();
      }
    }

    /** "Start Experiment" empties the reading table and puts the NaOH back to 0 ml. */
    twostate predicate CondIntroStep(click: Click)
      reads this
    {
      if click == Clicked(StartExperiment)
      then Cond() == old(Cond()).(table := [], currentNaoh := 0.0) && page == CondStandardize
      else Cond() == old(Cond()) && page == CondIntro
    }

    method CondIntroPage(click: Click)
      requires Valid() && page == CondIntro
      modifies this
      ensures Valid() && Phenol() == old(Phenol()) && CondIntroStep(click)
      ensures page in Successors(old(page))
    {
      if click == Clicked(StartExperiment) {
        condData := [];
        currentNaoh := 0.0;
        page := CondStandardize;
      }
    }

    /** "Calculate NaOH Normality" standardises against oxalic acid;
        "Proceed to Titration" moves on. */
    twostate predicate CondStandardizeStep(naohUsed: real, click: Click)
      requires naohUsed > 0.0
      reads this
    {
      Cond() == (if click == Clicked(CalculateNaohNormality)
                 then old(Cond()).(naohNormality := NaohNormality(naohUsed))
                 else old(Cond())) &&
      page == if click == Clicked(ProceedToTitration) then CondTitration else CondStandardize
    }

    method CondStandardizePage(naohUsed: real, click: Click)
      requires Valid() && page == CondStandardize
      requires 0.1 <= naohUsed <= 50.0
      modifies this
      ensures Valid() && Phenol() == old(Phenol()) && CondStandardizeStep(naohUsed, click)
      ensures page in Successors(old(page))
    {
      if click == Clicked(CalculateNaohNormality) {
        naohNormality := (OxalicVolume * OxalicNormality) / naohUsed;
      }
      if click == Clicked(ProceedToTitration) {
        page := CondTitration;
      }
    }

    /** "Record Measurement" adds the reading at `naohAdded` ml unless that
        volume is already recorded, and only then proposes 0.2 ml more;
        "Complete Titration" is offered once the field reads 8 ml. */
    twostate predicate CondTitrationStep(naohAdded: real, click: Click)
      reads this
    {
      condData == (if click == Clicked(RecordMeasurement)
                   then RecordReading(old(condData), naohAdded) else old(condData)) &&
      currentNaoh == (if click == Clicked(RecordMeasurement) && !HasNaoh(old(condData), naohAdded)
                      then NextNaoh(naohAdded) else old(currentNaoh)) &&
      naohNormality == old(naohNormality) && hclEnd == old(hclEnd) && ch3coohEnd == old(ch3coohEnd) &&
      page == if naohAdded >= MaxNaoh && click == Clicked(CompleteTitration) then CondGraph else CondTitration
    }

    method CondTitrationPage(naohAdded: real, click: Click)
      requires Valid() && page == CondTitration
      requires 0.0 <= naohAdded <= MaxNaoh
      modifies this
      ensures Valid() && Phenol() == old(Phenol()) && CondTitrationStep(naohAdded, click)
      ensures page in Successors(old(page))
    {
      var conductance := Conductance(naohAdded);
      if click == Clicked(RecordMeasurement) {
        if !HasNaoh(condData, naohAdded) {
          condData := condData + [CondRow(naohAdded, conductance)];
          currentNaoh := NextNaoh(naohAdded);
        }
      }
      if naohAdded >= MaxNaoh {
        if click == Clicked(CompleteTitration) {
          page := CondGraph;
        }
      }
    }

    /** The chart shows the two endpoints, 0 where there are too few readings;
        "Show Results" stores them. */
    twostate predicate CondGraphStep(click: Click, hcl: real, ch3cooh: real)
      requires old(Valid()) && old(page) == CondGraph
      reads this
    {
      hcl == OrZero(HclEndpoint(old(condData))) &&
      ch3cooh == OrZero(Ch3coohEndpoint(old(condData))) &&
      if click == Clicked(ShowResults)
      then Cond() == old(Cond()).(hclEnd := Some(hcl), ch3coohEnd := Some(ch3cooh)) && page == CondResults
      else Cond() == old(Cond()) && page == CondGraph
    }

    method CondGraphPage(click: Click) returns (hcl: real, ch3cooh: real)
      requires Valid() && page == CondGraph
      modifies this
      ensures Valid() && Phenol() == old(Phenol()) && CondGraphStep(click, hcl, ch3cooh)
      ensures page in Successors(old(page))
    {
      hcl := OrZero(HclEndpoint(condData));
      ch3cooh := OrZero(Ch3coohEndpoint(condData));
      if click == Clicked(ShowResults) {
        StoreEndpoints(hcl, ch3cooh);
      }
    }

    /** "Show Results": keeps the two endpoints for the results page. */
    method StoreEndpoints(hcl: real, ch3cooh: real)
      requires Valid() && page == CondGraph
      modifies this
      ensures Valid() && Phenol() == old(Phenol())
      ensures Cond() == old(Cond()).(hclEnd := Some(hcl), ch3coohEnd := Some(ch3cooh))
      ensures page == CondResults
    {
      hclEnd := Some(hcl);
      ch3coohEnd := Some(ch3cooh);
      page := CondResults;
    }

    /** The results page shows the acid strengths and amounts from the stored
        endpoints; "Return Home" leaves it. */
    twostate predicate CondResultsStep(click: Click, amounts: Amounts)
      requires old(Valid()) && old(page) == CondResults
      reads this
    {
      Cond() == old(Cond()) &&
      amounts == AcidAmounts(old(naohNormality), old(hclEnd).value, old(ch3coohEnd).value) &&
      page == if click == Clicked(ReturnHome) then Home else CondResults
    }

    method CondResultsPage(click: Click) returns (amounts: Amounts)
      requires Valid() && page == CondResults
      modifies this
      ensures Valid() && Phenol() == old(Phenol()) && CondResultsStep(click, amounts)
      ensures page in Successors(old(page))
    {
      amounts := AcidAmounts(naohNormality, hclEnd.value, ch3coohEnd.value);
      if click == Clicked(ReturnHome) {
        GoHome();
      }
    }

    /** "Return Home" from the last page of either experiment. */
    method GoHome()
      requires Valid() && (page == PhenolGraph || page == CondResults)
      modifies this
      ensures Valid() && Phenol() == old(Phenol()) && Cond() == old(Cond())
      ensures page == Home
    {
      page := Home;
    }

    /** The run of a phenol-water page: the run of that page's handler. */
    twostate predicate PhenolRun(input: Input, view: View)
      requires old(Valid()) && IsPhenolPage(old(page)) && InputInRange(old(page), input)
      reads this
    {
      (old(page) == PhenolIntro ==> view == Blank && PhenolIntroStep(input.click)) &&
      (old(page) == PhenolExp1 ==> view == Blank && PhenolExp1Step(input.water, input.phenol, input.click)) &&
      (old(page) == PhenolExp2 ==> view.Observations? && PhenolExp2Step(input.click, view.temps)) &&
      (old(page) == PhenolExp3 ==> view == Blank && PhenolExp3Step(input.click)) &&
      (old(page) == PhenolGraph ==>
        view.PhaseDiagram? && PhenolGraphStep(input.click, view.cst, view.hysteresis))
    }

    /** The run of a titration page: the run of that page's handler. */
    twostate predicate CondRun(input: Input, view: View)
      requires old(Valid()) && IsCondPage(old(page)) && InputInRange(old(page), input)
      reads this
    {
      (old(page) == CondIntro ==> view == Blank && CondIntroStep(input.click)) &&
      (old(page) == CondStandardize ==> view == Blank && CondStandardizeStep(input.naohUsed, input.click)) &&
      (old(page) == CondTitration ==> view == Blank && CondTitrationStep(input.naohAdded, input.click)) &&
      (old(page) == CondGraph ==>
        view.TitrationCurve? && CondGraphStep(input.click, view.hclEnd, view.ch3coohEnd)) &&
      (old(page) == CondResults ==> view.Report? && CondResultsStep(input.click, view.amounts))
    }

    /** Runs the page the session is on: the run is the one of that page's
        handler, so the session stays valid, moves only along the transition
        graph, and a page of one experiment leaves the other's data alone. */
    method Dispatch(input: Input) returns (view: View)
      requires Valid() && InputInRange(page, input)
      modifies this
      ensures Valid()
      ensures page in Successors(old(page))
      ensures !IsCondPage(old(page)) ==> Cond() == old(Cond())
      ensures !IsPhenolPage(old(page)) ==> Phenol() == old(Phenol())
      ensures old(page) == Home ==> view == Blank && HomeStep(input.click)
      ensures IsPhenolPage(old(page)) ==> PhenolRun(input, view)
      ensures IsCondPage(old(page)) ==> CondRun(input, view)
    {
      if page == Home {
        HomePage(input.click);
        view := Blank;
      } else if IsPhenolPage(page) {
        view := DispatchPhenol(input);
      } else {
        view := DispatchCond(input);
      }
    }

    /** The router's entries for the phenol-water pages. */
    method DispatchPhenol(input: Input) returns (view: View)
      requires Valid() && IsPhenolPage(page) && InputInRange(page, input)
      modifies this
      ensures Valid() && Cond() == old(Cond())
      ensures page in Successors(old(page))
      ensures PhenolRun(input, view)
    {
      match page
      case PhenolIntro =>
        PhenolIntroPage(input.click);
        view := Blank;
      case PhenolExp1 =>
        PhenolExp1Page(input.water, input.phenol, input.click);
        view := Blank;
      case PhenolExp2 =>
        var temps := PhenolExp2Page(input.click);
        view := Observations(temps);
      case PhenolExp3 =>
        PhenolExp3Page(input.click);
        view := Blank;
      case PhenolGraph =>
        var cst, hysteresis := PhenolGraphPage(input.click);
        view := PhaseDiagram(cst, hysteresis);
    }

    /** The router's entries for the titration pages. */
    method DispatchCond(input: Input) returns (view: View)
      requires Valid() && IsCondPage(page) && InputInRange(page, input)
      modifies this
      ensures Valid() && Phenol() == old(Phenol())
      ensures page in Successors(old(page))
      ensures CondRun(input, view)
    {
      match page
      case CondIntro =>
        CondIntroPage(input.click);
        view := Blank;
      case CondStandardize =>
        CondStandardizePage(input.naohUsed, input.click);
        view := Blank;
      case CondTitration =>
        CondTitrationPage(input.naohAdded, input.click);
        view := Blank;
      case CondGraph =>
        var hcl, ch3cooh := CondGraphPage(input.click);
        view := TitrationCurve(hcl, ch3cooh);
      case CondResults =>
        var amounts := CondResultsPage(input.click);
        view := Report(amounts);
    }
  }
}
