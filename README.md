# Chemistry virtual lab: phenol-water CST and conductometric titration

This project models `app.py`, a two-experiment chemistry lab simulator, as a
state machine over one mutable session.

- **Phenol-water experiment.** The user mixes phenol and water and reads the
  simulated temperatures at which turbidity disappears and reappears. The
  user records each trial in a table, adds 2 ml of water at a time up to
  36 ml, and then reads the critical solution temperature (CST) off the table.
- **Conductometric titration.** The user standardises NaOH against oxalic
  acid and records conductance readings as NaOH is added up to 8 ml. The
  program then locates the HCl and CH3COOH endpoints at the steepest fall and
  the steepest rise of the sorted curve, and computes the acid strengths and
  amounts.

Modules:

- `Lab` (`lab.dfy`): the page identifiers and the `Session` class.
  - The session fields are the program's session variables. A variable the
    program has not assigned yet is an `Option` field holding `None`.
  - There is one method per page handler. Each states the whole new state,
    which pages it can move to, and that the other experiment's data is
    untouched.
  - `Dispatch` is the router. `Session.Valid` is the invariant that lets
    every page read the variables it uses.
- `PhenolWater` (`phenol.dfy`): the temperature model, the observation rows,
  the duplicate-guarded record, the water schedule and the CST.
- `Titration` (`titration.dfy`): the conductance curve, the
  duplicate-guarded reading table, the NaOH schedule, and the two endpoints
  over the readings sorted by volume.
- `Quantities` (`quantities.dfy`): the NaOH normality and the acid strengths
  and masses.
- `Series` (`series.dfy`): the table operations the program takes from its
  data-frame library:
  - sorting by a column, as a stable insertion sort;
  - first-occurrence `idxmax`/`idxmin`;
  - the column sum behind a mean;
  - `drop_duplicates`.
- `Runs` (`runs.dfy`): the two experiments driven through the session's page
  methods, with the user accepting every proposed value.
- `Wrappers` (`wrappers.dfy`): `Option`.

All arithmetic is exact over `real`.

Facts about the code that the model makes precise:

- The disappearance temperature is a four-segment curve. It is continuous at
  30 % and 70 % and jumps from 67 to 65 degrees at 10 %.
- Stepping the water from 3 ml by 2 ml, capped at 36 ml, gives 18 trials
  (3, 5, ..., 35, 36 ml).
- With exact arithmetic, the steepest fall of the default titration curve is
  first reached at 0.2 ml, because every step up to 4 ml falls by the same
  amount, so `idxmin` returns that first step. The steepest rise is at 4.2 ml.
- The router has eleven pages. The simulated readings are deterministic.

## Model

| member | source | states |
|---|---|---|
| Lab.Successors | app.py:333-345 | every page may stay where it is, and a page of one experiment leads only to pages of the same experiment or home |
| Lab.RouteHome | app.py:333-345 | from every page there is a walk in the Successors graph back to the home page |
| Lab.Session.constructor | app.py:7-16 | home page, empty tables, 3 ml water, 0.1 N NaOH, 0 ml NaOH added, nothing else set; the invariant holds |
| Lab.Session.HomePage | app.py:309-330 | the two buttons open the two experiments; no data changes |
| Lab.Session.PhenolIntroPage | app.py:22-38 | "Start Experiment" empties the phenol table, resets water to 3 ml and opens the mixture page; the titration data is unchanged |
| Lab.Session.PhenolExp1Page | app.py:40-67 | "Heat Mixture" stores the two volumes from the fields and opens the observation page |
| Lab.Session.PhenolExp2Page | app.py:69-103 | the shown temperatures are the model's at the mixture's percentage; "Record Temperatures" stores them with the total volume |
| Lab.Session.PhenolExp3Page | app.py:105-139 | the table becomes RecordRow of the trial's row; below 36 ml "Add More Water" moves water to min(w+2, 36) and goes back to the mixture page; at 36 ml "Plot Phase Diagram" opens the diagram |
| Lab.Session.RecordTrial | app.py:108-129 | the appended row equals MakeRow of the stored volumes, and the append happens only if the (phenol, water) key is new |
| Lab.Session.PhenolGraphPage | app.py:141-184 | shows Cst and MeanHysteresis of the table, with CST at most 68.25 degrees and hysteresis at least 2 degrees; "Return Home" |
| Lab.Session.CondIntroPage | app.py:190-196 | "Start Experiment" empties the readings, sets the NaOH to 0 ml and opens standardisation; the phenol data is unchanged |
| Lab.Session.CondStandardizePage | app.py:198-217 | "Calculate" sets the normality to NaohNormality of the field; "Proceed" opens the titration |
| Lab.Session.CondTitrationPage | app.py:219-250 | "Record" gives RecordReading of the field's volume; only a new volume moves the proposed NaOH to min(x+0.2, 8); "Complete" works only when the field reads 8 ml |
| Lab.Session.CondGraphPage | app.py:252-282 | shows both endpoints, or 0 when they are missing; "Show Results" stores them and opens the results page |
| Lab.Session.StoreEndpoints | app.py:279-282 | stores both endpoints and opens the results page, nothing else changes |
| Lab.Session.CondResultsPage | app.py:284-303 | shows AcidAmounts of the stored normality and endpoints; "Return Home" |
| Lab.Session.GoHome | app.py:183-184 | back to the home page with both experiments' data kept |
| Lab.Session.Dispatch | app.py:333-347 | the run is exactly the current page's handler (its step predicate, with the view it shows); it keeps the invariant, lands on a page in Successors, and leaves the other experiment's data alone |
| Lab.Session.DispatchPhenol | app.py:333-347 | the router's phenol-water entries: the run of the current page's handler, with the titration data untouched |
| Lab.Session.DispatchCond | app.py:333-347 | the router's titration entries: the run of the current page's handler, with the phenol-water data untouched |
| PhenolWater.PercentPhenol | app.py:72-73 | strictly between 0 and 100, and p·(phenol+water) = 100·phenol |
| PhenolWater.CalculateTemps | app.py:76-89 | disappearance at most 70 degrees, reached exactly at 30 %; reappearance is 2+0.05P below it, so at least 2 degrees below for P ≥ 0 |
| PhenolWater.MeanTemp | app.py:109 | equidistant from both temperatures and strictly between them |
| PhenolWater.MeanCurve | app.py:76-89 | the mean temperature at most 68.25 degrees, exactly at 30 % |
| PhenolWater.MeanCurveShape | app.py:78-85 | the mean rises on each segment below 30 % and falls above 30 % |
| PhenolWater.DisappearContinuousAt30And70 | app.py:78-85 | within e of 30 % or 70 % the disappearance temperature moves by at most 0.3e |
| PhenolWater.DisappearJumpsAt10 | app.py:78-81 | 65 degrees at 10 % and at least 66 just below it |
| PhenolWater.MakeRow | app.py:108-127 | the row's key is its volumes; its percent p satisfies p·(phenol+water) = 100·phenol; its temperatures are the curve's at p; its mean is equidistant from and strictly between them, on the mean curve; its gap is 2+0.05p |
| PhenolWater.RecordRow | app.py:112-129 | the key is present afterwards; earlier rows are kept; one row is added iff the key was absent, and it is the given row; unique keys stay unique |
| PhenolWater.RecordRowIdempotent | app.py:112-129 | recording the same row twice equals recording it once |
| PhenolWater.NextWater | app.py:135 | never above 36 or w+2, equal to one of them, and strictly above w while w < 36 |
| PhenolWater.DiagramFrame | app.py:144 | sorted by percent and holding exactly the table's rows |
| PhenolWater.Cst | app.py:159-161 | a row of the table with the largest mean, and the smallest percent among the rows with that mean |
| PhenolWater.FirstMaxOfFrame | app.py:159-161 | the first maximum of the sorted frame is such a row, whatever order the sort leaves ties in |
| PhenolWater.MeanHysteresis | app.py:180 | between the smallest and the largest gap of a row of the table, so at least 2 degrees when every row's gap is |
| PhenolWater.GapsAtLeast | app.py:180 | the average gap over the frame is at least 2 degrees when every row's gap is |
| PhenolWater.GapsBetween | app.py:180 | the average gap over the frame lies between the gap of some row and the gap of some other row of the table |
| PhenolWater.CstOfModelTable | app.py:159-161 | for recorded rows the CST is at most 68.25 degrees, and exactly (68.25, 30 %) when a 30 % mixture was recorded |
| PhenolWater.ModelTableBounds | app.py:159-180 | a table of recorded rows shows a CST of at most 68.25 and a hysteresis of at least 2 degrees |
| Titration.Conductance | app.py:232-235 | at least 0.4 mS, equal to 0.4 exactly at 4 ml, above 0.6 past 4 ml |
| Titration.ConductanceBranches | app.py:232-235 | the slope is -0.1 mS/ml between readings up to 4 ml and 0.15 mS/ml between readings past 4 ml |
| Titration.RecordReading | app.py:237-243 | the volume is present afterwards; earlier rows are kept; one row is added iff the volume is new, with the curve's conductance; volumes stay unique |
| Titration.NextNaoh | app.py:244 | never above 8 or x+0.2, equal to one of them, and strictly above x while x < 8 |
| Titration.SortedReadings | app.py:255 | the readings with their row labels, strictly ascending in volume, each labelled row present once |
| Titration.SlopesOnBranches | app.py:260 | for readings in strictly ascending volume on the conductance curve, every entry of the difference column is -0.1 when all readings are at or below 4 ml, and 0.15 when all are beyond |
| Titration.MinSlopePosition | app.py:262 | the first position of the steepest fall |
| Titration.MaxSlopePosition | app.py:268 | the first position of the steepest rise |
| Titration.HclEndpoint | app.py:261-265 | none iff fewer than two readings; otherwise the volume at the first steepest fall of the sorted curve |
| Titration.Ch3coohEndpoint | app.py:267-271 | none iff fewer than two readings; otherwise the volume at the first steepest rise of the sorted curve |
| Titration.HclEndpointAsWritten | app.py:262 | the volume at the sorted position equal to the label of the steepest fall |
| Titration.Ch3coohEndpointAsWritten | app.py:268 | the volume at the sorted position equal to the label of the steepest rise |
| Titration.AscendingKeepsLabels | app.py:255 | readings recorded in ascending volume have distinct volumes and sort to their labelled table unchanged |
| Titration.AsWrittenAgreesWhenAscending | app.py:255-268 | readings recorded in ascending volume give the same endpoints by label as by position |
| Titration.HclAgreesWhenAscending | app.py:262 | the HCl half of that agreement |
| Titration.Ch3coohAgreesWhenAscending | app.py:268 | the CH3COOH half of that agreement |
| Titration.AsWrittenMisreadsLabels | app.py:262 | readings recorded at 0.2 then 0.0 ml: the code as written reports 0.0 ml for both endpoints, the intended value is 0.2 ml |
| Titration.OrZero | app.py:264-271 | the chart's fallback: a missing endpoint shows as 0, a computed one as itself |
| Titration.FewReadingsShowZero | app.py:264-271 | with fewer than two readings both endpoints are shown as 0 |
| Titration.GridIsSorted | app.py:255 | the 0.2 ml grid is strictly ascending, so sorting keeps every reading at its label |
| Titration.GridStep | app.py:232-235 | on the grid the slope is -0.1 up to 4 ml, 1.15 into 4.2 ml and 0.15 after |
| Titration.GridSlope | app.py:260 | the same slopes read off the sorted grid |
| Titration.GridSortedAt | app.py:255 | sorting the grid leaves reading k at position k |
| Titration.GridMinSlope | app.py:262 | the first steepest fall of the sorted full grid is at position 1 (0.2 ml) |
| Titration.GridMaxSlope | app.py:268 | the steepest rise of the sorted full grid is at position 21 (4.2 ml) |
| Titration.GridHclEndpoint | app.py:261-265 | the HCl endpoint of the full grid is 0.2 ml |
| Titration.GridCh3coohEndpoint | app.py:267-271 | the CH3COOH endpoint of the full grid is 4.2 ml |
| Titration.GridEndpoints | app.py:255-271 | the full grid's endpoints are 0.2 ml and 4.2 ml |
| Quantities.NaohNormality | app.py:211-213 | N·V(NaOH) = 25·0.05, so N is positive, and between 0.025 and 12.5 for volumes the field admits |
| Quantities.AcidAmounts | app.py:288-293 | the HCl normality times 10 ml is N times the HCl endpoint; both normalities together times 10 ml are N times the CH3COOH endpoint; grams are 3.65 and 6 per normal; amounts are non-negative for ordered endpoints |
| Quantities.WorkedExample | app.py:288-293 | 0.1 N with endpoints at 3 and 6 ml gives 0.1095 g HCl and 0.18 g CH3COOH |
| Series.SortBy | app.py:144 | a permutation of the input |
| Series.SortByOrders | app.py:144 | the result is in key order, strictly when the keys are distinct |
| Series.SortByMembers | app.py:255 | the sorted table holds exactly the input's rows |
| Series.SortByOfSorted | app.py:255 | a table already in key order sorts to itself |
| Series.ArgMax | app.py:159 | a position of the maximum, with every earlier entry strictly smaller |
| Series.ArgMin | app.py:262 | a position of the minimum, with every earlier entry strictly larger |
| Series.SumAtLeast | app.py:180 | a column whose entries are all at least b sums to at least b times its length |
| Series.SumAtMost | app.py:180 | a column whose entries are all at most b sums to at most b times its length |
| Series.DropDuplicates | app.py:144 | the same set of rows without repeats, unchanged when there were none |
| Runs.GridWaterSteps | app.py:133-135 | the default water volumes strictly increase from 3 to 36, each the capped step of the one before |
| Runs.PhenolTrial | app.py:40-139 | one default trial appends exactly the row for the proposed water and moves to the next volume, or to the diagram after 36 ml |
| Runs.DefaultPhenolRun | app.py:22-184 | the default run records 18 rows at 3, 5, ..., 35, 36 ml and ends on the diagram, which shows a CST of 68.09375 degrees at 31.25 % |
| Runs.ShowPhaseDiagram | app.py:141-184 | on that table the diagram shows CST (68.09375, 31.25) and a hysteresis of at least 2 degrees, and "Return Home" reaches the home page |
| Runs.PercentFallsWithWater | app.py:72-73 | more water gives a smaller percentage of phenol |
| Runs.DefaultPhenolCst | app.py:159-161 | the CST of the default table is (68.09375, 31.25), the trial with 11 ml of water |
| Runs.TitrationStep | app.py:219-250 | one default reading appends the grid reading for the proposed volume and proposes the next, or completes at 8 ml |
| Runs.DefaultTitrationRun | app.py:190-303 | the default titration records the 41 grid readings 0.0, ..., 8.0 ml; the endpoints are 0.2 and 4.2 ml; the results come from the normality at 18.5 ml |
| Runs.ShowTitrationResults | app.py:252-303 | on the full grid the chart stores 0.2 and 4.2 ml, the results page shows their amounts, and "Return Home" reaches the home page |

## Left out

- Rendering is left out: titles, markdown, the home page's HTML, tables
  and messages. The model keeps only the numbers a page shows, as method
  results or as `Dispatch`'s `View`.
- Plotting with matplotlib is left out. Only the data computed for the
  charts is modelled.
- Floating point is left out: all arithmetic is exact over `real`.
  - Rounding drift in the repeated +0.2 ml and +2 ml steps is not modelled.
  - Float ties that may move `idxmin` away from the first of the equal
    -0.1 slopes are not modelled.
  - Display rounding is not modelled.
- Input widgets are method parameters, bounded by the `requires` clauses
  given by the widgets' minimum and maximum. Their 0.1 and 0.2 steps are
  not modelled. Nor is the way a keyed widget keeps its typed value across
  reruns; the runs assume the user enters the proposed value.
- Streamlit's rerun loop and session persistence are not modelled. One call
  to a page method is one run of its handler, and one button press per run
  is modelled as its `Click` argument.
- The bare `except:` clauses are modelled only in the case that can occur.
  - In the chart, fewer than two readings make the endpoint `None`, which is
    shown as 0.
  - The results page's handler cannot fail, because the invariant
    guarantees both endpoints are stored before that page is reached.
- An empty phenol table on the diagram page cannot occur. The invariant
  keeps the table non-empty on that page, which `Cst` and `MeanHysteresis`
  require.
- Sorting is a stable insertion sort; the library's sort order among equal
  keys is not modelled. The CST's contract holds for any placement of ties,
  because rows of equal percentage also share their mean temperature.
- `drop_duplicates` is modelled only for exact duplicate rows.
- Lab.Session.CondGraphPage: shows and stores the intended endpoints
  (`HclEndpoint`, `Ch3coohEndpoint`), not the ones the chart code computes.
  The two differ when the readings were not recorded in ascending order of
  volume; for example, readings at 0.2 ml and then 0.0 ml show 0.0 ml in the
  program and 0.2 ml in the model (see "## Findings"). They agree when the
  readings were recorded in ascending order, as in the default run.

## Findings

| source | as written | input that shows it | evidently intended | confidence | as-written member | corrected member |
|---|---|---|---|---|---|---|
| app.py:262 | `idxmin` of the slope column returns a row label, and `iloc` then reads that label as a position of the frame sorted by volume | readings recorded at 0.2 ml and then at 0.0 ml: the HCl endpoint shown is 0.0 ml | the volume of the reading with the steepest fall, 0.2 ml | not executed | Titration.HclEndpointAsWritten, Titration.AsWrittenMisreadsLabels | Titration.HclEndpoint |
| app.py:268 | `idxmax` of the slope column returns a row label, and `iloc` then reads that label as a position of the frame sorted by volume | readings recorded at 0.2 ml and then at 0.0 ml: the CH3COOH endpoint shown is 0.0 ml | the volume of the reading with the steepest rise, 0.2 ml | not executed | Titration.Ch3coohEndpointAsWritten, Titration.AsWrittenMisreadsLabels | Titration.Ch3coohEndpoint |

The session uses the corrected endpoints.
`Titration.AsWrittenAgreesWhenAscending` shows that the two versions agree
whenever the readings were recorded in ascending order of volume, as in the
default run.
