/** The forecast page (src/pages/Index.tsx): from the submitted expense rows it
    predicts next month's amount per row, picks an insight per category, and
    derives the totals, the trend, the top category and the recommendations.
    The page draws two random numbers in [0, 1) per row with `Math.random`;
    here they are parameters: `draws[i]` scales row i and `picks[i]` chooses
    its insight. */
module Forecast {
  import opened Options
  import opened Expenses
  import opened Sums

  /** A predicted row: the category, the predicted amount and an insight line. */
  datatype Prediction = Prediction(category: string, amount: real, description: string)

  /** A random draw as `Math.random` returns it. */
  predicate IsDraw(r: real) { 0.0 <= r < 1.0 }

  /** The scaling applied to one row for the draw `r`. */
  function Multiplier(r: real): (m: real)
    requires IsDraw(r)
    ensures 0.95 <= m < 1.15
  {
    0.95 + r * 0.2
  }

  /** The insight candidates per known category; any other category has the single default. */
  function InsightCandidates(category: string): (c: seq<string>)
    ensures IsKnownCategory(category) ==> |c| == 3 && "Normal spending pattern" !in c
    ensures !IsKnownCategory(category) ==> c == ["Normal spending pattern"]
  {
    if category == "Food & Dining" then
      ["Weekend dining spike expected", "Delivery fees increasing", "Seasonal menu changes"]
    else if category == "Transportation" then
      ["Gas prices trending up", "Public transit rate change", "More commute days"]
    else if category == "Entertainment" then
      ["New streaming service", "Concert season approaching", "Weekend activities up"]
    else if category == "Shopping" then
      ["Holiday shopping ahead", "Seasonal wardrobe update", "Price inflation expected"]
    else
      ["Normal spending pattern"]
  }

  predicate IsKnownCategory(category: string)
  {
    category in {"Food & Dining", "Transportation", "Entertainment", "Shopping"}
  }

  /** `Math.floor(q * n)`: the index a draw `q` selects among `n` candidates. */
  function PickIndex(q: real, n: nat): (k: nat)
    requires IsDraw(q) && n > 0
    ensures k < n
    ensures k as real <= q * n as real < k as real + 1.0
  {
    assert q * n as real < n as real by {
      assert (1.0 - q) * n as real > 0.0;
    }
    (q * n as real).Floor
  }

  /** The insight shown for `category` when the draw is `q`. */
  function RandomInsight(category: string, q: real): (s: string)
    requires IsDraw(q)
    ensures s in InsightCandidates(category)
    ensures IsKnownCategory(category) <==> s != "Normal spending pattern"
  {
    var candidates := InsightCandidates(category);
    candidates[PickIndex(q, |candidates|)]
  }

  /** Every row has its two draws. */
  predicate DrawsFor(expenses: seq<ExpenseEntry>, draws: seq<real>, picks: seq<real>)
  {
    |draws| == |expenses| && |picks| == |expenses| &&
    (forall i :: 0 <= i < |draws| ==> IsDraw(draws[i])) &&
    (forall i :: 0 <= i < |picks| ==> IsDraw(picks[i]))
  }

  /** One prediction per row, in the same order, with the row's category, its
      amount scaled into [0.95, 1.15) of itself and an insight for its category. */
  function GeneratePredictions(expenses: seq<ExpenseEntry>, draws: seq<real>, picks: seq<real>): (p: seq<Prediction>)
    requires DrawsFor(expenses, draws, picks)
    ensures |p| == |expenses|
    ensures forall i :: 0 <= i < |p| ==>
      && p[i].category == expenses[i].name
      && p[i].amount == expenses[i].amount * Multiplier(draws[i])
      && p[i].description == RandomInsight(expenses[i].name, picks[i])
  {
    seq(|expenses|, i requires 0 <= i < |expenses| =>
      Prediction(expenses[i].name, expenses[i].amount * Multiplier(draws[i]), RandomInsight(expenses[i].name, picks[i])))
  }

  /** The sum of the predicted amounts. */
  function PredictedTotal(p: seq<Prediction>): (t: real)
    ensures (forall i :: 0 <= i < |p| ==> p[i].amount >= 0.0) ==> t >= 0.0
  {
    Sum(p, PredictedAmount)
  }

  function PredictedAmount(x: Prediction): real
  {
    x.amount
  }

  /** `PredictedTotal` agrees with the page's left-to-right `reduce`: appending a prediction adds its amount. */
  lemma PredictedTotalAppend(p: seq<Prediction>, x: Prediction)
    ensures PredictedTotal(p + [x]) == PredictedTotal(p) + x.amount
  {
    SumAppend(p, x, PredictedAmount);
  }

  /** A positive amount scaled by a multiplier in [0.95, 1.15) stays in [0.95, 1.15) of itself. */
  lemma ScaledBounds(a: real, m: real)
    requires a > 0.0 && 0.95 <= m < 1.15
    ensures 0.95 * a <= a * m < 1.15 * a
  {
  }

  /** Each predicted amount lies in [0.95, 1.15) of the row's positive current amount. */
  lemma PredictionWithinBounds(expenses: seq<ExpenseEntry>, draws: seq<real>, picks: seq<real>, i: nat)
    requires DrawsFor(expenses, draws, picks)
    requires i < |expenses| && expenses[i].amount > 0.0
    ensures 0.95 * expenses[i].amount <= GeneratePredictions(expenses, draws, picks)[i].amount < 1.15 * expenses[i].amount
  {
  }

  /** Row-wise scaling adds up: if every positive current amount is scaled by a
      multiplier in [0.95, 1.15), the total is scaled into [0.95, 1.15) as well. */
  lemma {:induction false} TotalsWithinBounds(p: seq<Prediction>, expenses: seq<ExpenseEntry>, ms: seq<real>)
    requires |p| == |expenses| == |ms|
    requires forall i :: 0 <= i < |p| ==>
      && expenses[i].amount > 0.0 && 0.95 <= ms[i] < 1.15
      && p[i].amount == expenses[i].amount * ms[i]
    ensures 0.95 * Total(expenses) <= PredictedTotal(p) <= 1.15 * Total(expenses)
    ensures p != [] ==> PredictedTotal(p) < 1.15 * Total(expenses)
  {
    if p != [] {
      assert p[0].amount == expenses[0].amount * ms[0];
      ScaledBounds(expenses[0].amount, ms[0]);
      assert 0.95 * expenses[0].amount <= p[0].amount < 1.15 * expenses[0].amount;
      TotalsWithinBounds(p[1..], expenses[1..], ms[1..]);
      assert PredictedTotal(p) == p[0].amount + PredictedTotal(p[1..]) by {
        assert PredictedTotal(p[1..]) == Sum(p[1..], PredictedAmount);
      }
      TotalFirst(expenses);
    }
  }

  /** With positive current amounts the predicted total lies in [0.95, 1.15) of the current total. */
  lemma PredictedTotalBounds(expenses: seq<ExpenseEntry>, draws: seq<real>, picks: seq<real>)
    requires DrawsFor(expenses, draws, picks)
    requires forall i :: 0 <= i < |expenses| ==> expenses[i].amount > 0.0
    ensures 0.95 * Total(expenses) <= PredictedTotal(GeneratePredictions(expenses, draws, picks))
    ensures expenses != [] ==> PredictedTotal(GeneratePredictions(expenses, draws, picks)) < 1.15 * Total(expenses)
  {
    var ms := seq(|expenses|, i requires 0 <= i < |expenses| => Multiplier(draws[i]));
    TotalsWithinBounds(GeneratePredictions(expenses, draws, picks), expenses, ms);
  }

  /** The page's spending trend: the relative change from the current to the
      predicted total, in percent. The page does not guard a zero current total,
      where the division yields no finite number (`None`). */
  function TrendPercent(currentTotal: real, predictedTotal: real): (t: Option<real>)
    ensures t.None? <==> currentTotal == 0.0
    ensures t.Some? ==> t.value * currentTotal == (predictedTotal - currentTotal) * 100.0
  {
    if currentTotal == 0.0 then None else Some((predictedTotal - currentTotal) / currentTotal * 100.0)
  }

  /** With a positive current total the trend is positive exactly when spending is
      predicted to rise, i.e. when the savings potential is negative. */
  lemma TrendSign(currentTotal: real, predictedTotal: real)
    requires currentTotal > 0.0
    ensures TrendPercent(currentTotal, predictedTotal).Some?
    ensures TrendPercent(currentTotal, predictedTotal).value > 0.0 <==> SavingsPotential(currentTotal, predictedTotal) < 0.0
    ensures TrendPercent(currentTotal, predictedTotal).value == 0.0 <==> SavingsPotential(currentTotal, predictedTotal) == 0.0
  {
  }

  /** Current minus predicted total: positive is an expected saving, negative an expected overspend. */
  function SavingsPotential(currentTotal: real, predictedTotal: real): (s: real)
    ensures s + predictedTotal == currentTotal
  {
    currentTotal - predictedTotal
  }

  /** `reduce((max, exp) => exp.amount > max.amount ? exp : max)` over `p[i..]`,
      with the running maximum at index `best`. */
  function ReduceMax(p: seq<Prediction>, best: nat, i: nat): (k: nat)
    requires best < i <= |p|
    requires forall j :: 0 <= j < i ==> p[j].amount <= p[best].amount
    requires forall j :: 0 <= j < best ==> p[j].amount < p[best].amount
    ensures k < |p|
    ensures forall j :: 0 <= j < |p| ==> p[j].amount <= p[k].amount
    ensures forall j :: 0 <= j < k ==> p[j].amount < p[k].amount
    decreases |p| - i
  {
    if i == |p| then best
    else if p[i].amount > p[best].amount then ReduceMax(p, i, i + 1)
    else ReduceMax(p, best, i + 1)
  }

  /** The index of the top category: the first prediction with the largest amount
      (the comparison is strict, so a later tie does not replace it). The page calls
      `reduce` without an initial value, which fails on an empty list. */
  function TopIndex(p: seq<Prediction>): (k: nat)
    requires p != []
    ensures k < |p|
    ensures forall j :: 0 <= j < |p| ==> p[j].amount <= p[k].amount
    ensures forall j :: 0 <= j < k ==> p[j].amount < p[k].amount
  {
    ReduceMax(p, 0, 1)
  }

  /** The top category shown on the page. */
  function TopCategory(p: seq<Prediction>): (c: string)
    requires p != []
    ensures exists k :: (0 <= k < |p| && p[k].category == c &&
                         (forall j :: 0 <= j < |p| ==> p[j].amount <= p[k].amount) &&
                         (forall j :: 0 <= j < k ==> p[j].amount < p[k].amount))
  {
    p[TopIndex(p)].category
  }

  /** The position of the first row with the given category, or `|expenses|` when there is none. */
  function FirstIndexOf(expenses: seq<ExpenseEntry>, name: string): (k: nat)
    ensures k <= |expenses|
    ensures k < |expenses| ==> expenses[k].name == name
    ensures forall j :: 0 <= j < k ==> expenses[j].name != name
  {
    if expenses == [] then 0
    else if expenses[0].name == name then 0
    else 1 + FirstIndexOf(expenses[1..], name)
  }

  /** The first row with the given category, as `Array.prototype.find` returns it. */
  function FindByName(expenses: seq<ExpenseEntry>, name: string): (r: Option<ExpenseEntry>)
    ensures r.None? <==> forall i :: 0 <= i < |expenses| ==> expenses[i].name != name
    ensures r.Some? ==> r.value.name == name && r.value == expenses[FirstIndexOf(expenses, name)]
  {
    var k := FirstIndexOf(expenses, name);
    if k < |expenses| then Some(expenses[k]) else None
  }

  /** The saving challenge amount: 20% of the first "Food & Dining" row, or 50 when
      there is none or that product is 0 (`undefined * 0.2` and `0` are both falsy). */
  function ChallengeAmount(expenses: seq<ExpenseEntry>): (a: real)
    ensures (forall i :: 0 <= i < |expenses| ==> expenses[i].name != "Food & Dining") ==> a == 50.0
    ensures forall k :: (0 <= k < |expenses| && expenses[k].name == "Food & Dining" &&
                         (forall j :: 0 <= j < k ==> expenses[j].name != "Food & Dining")) ==>
                        a == if expenses[k].amount == 0.0 then 50.0 else expenses[k].amount * 0.2
  {
    var food := FindByName(expenses, "Food & Dining");
    if food.Some? && food.value.amount * 0.2 != 0.0 then food.value.amount * 0.2 else 50.0
  }

  /** The advisory cards, in display order. */
  datatype Recommendation =
    | OverspendAlert(overspend: real)
    | SavingChallenge(save: real)
    | TrackProgress

  /** The recommendations: an overspend alert with |savings| when savings are negative,
      then the saving challenge, then the tracking tip. */
  function Recommendations(expenses: seq<ExpenseEntry>, savings: real): (r: seq<Recommendation>)
    ensures |r| == if savings < 0.0 then 3 else 2
    ensures r[0].OverspendAlert? <==> savings < 0.0
    ensures r[0].OverspendAlert? ==> r[0].overspend == -savings && r[0].overspend > 0.0
    ensures r[|r| - 2] == SavingChallenge(ChallengeAmount(expenses))
    ensures r[|r| - 1] == TrackProgress
    ensures forall i :: 1 <= i < |r| ==> !r[i].OverspendAlert?
  {
    var alert := if savings < 0.0 then [OverspendAlert(-savings)] else [];
    alert + [SavingChallenge(ChallengeAmount(expenses)), TrackProgress]
  }

  /** Everything the page derives from one submission and one set of draws. */
  datatype Report = Report(
    currentTotal: real,
    predictions: seq<Prediction>,
    predictedTotal: real,
    savingsPotential: real,
    trend: Option<real>,
    topCategory: string,
    recommendations: seq<Recommendation>)

  /** The page as rendered for a non-empty list of submitted rows. */
  function BuildReport(expenses: seq<ExpenseEntry>, draws: seq<real>, picks: seq<real>): (r: Report)
    requires DrawsFor(expenses, draws, picks)
    requires expenses != []
    ensures |r.predictions| == |expenses|
    ensures r.savingsPotential == r.currentTotal - r.predictedTotal
    ensures |r.recommendations| >= 2
    ensures r.trend.None? <==> r.currentTotal == 0.0
    ensures r.recommendations[0].OverspendAlert? <==> r.predictedTotal > r.currentTotal
  {
    var currentTotal := Total(expenses);
    var predictions := GeneratePredictions(expenses, draws, picks);
    var predictedTotal := PredictedTotal(predictions);
    var savings := SavingsPotential(currentTotal, predictedTotal);
    Report(currentTotal, predictions, predictedTotal, savings,
      TrendPercent(currentTotal, predictedTotal), TopCategory(predictions),
      Recommendations(expenses, savings))
  }

  /** For rows submitted under the intended guard, the report is defined, the trend
      is finite, and the overspend alert appears exactly when the trend is positive. */
  lemma {:induction false} SubmittedRowsGiveFiniteTrend(rows: seq<ExpenseEntry>, draws: seq<real>, picks: seq<real>)
    requires CanSubmit(rows)
    requires DrawsFor(ValidExpenses(rows), draws, picks)
    ensures ValidExpenses(rows) != []
    ensures BuildReport(ValidExpenses(rows), draws, picks).trend.Some?
    ensures BuildReport(ValidExpenses(rows), draws, picks).trend.value > 0.0 <==>
      BuildReport(ValidExpenses(rows), draws, picks).recommendations[0].OverspendAlert?
  {
    var valid := ValidExpenses(rows);
    ValidTotalPositive(rows);
    var r := BuildReport(valid, draws, picks);
    TrendSign(r.currentTotal, r.predictedTotal);
  }
}
