/** The receipt page (src/pages/ReceiptPage.tsx) runs the forecast pipeline over a
    fixed month of four expense rows. The lemmas below state what that page
    shows for every possible pair of random draws. */
module Receipt {
  import opened Expenses
  import opened Forecast

  /** The page's fixed rows. */
  const CurrentExpenses: seq<ExpenseEntry> := [
    ExpenseEntry("Food & Dining", 450.00, "Card"),
    ExpenseEntry("Transportation", 320.50, "Card"),
    ExpenseEntry("Entertainment", 180.75, "Cash"),
    ExpenseEntry("Shopping", 265.30, "Mobile")
  ]

  /** The current total shown on the page. */
  lemma MockCurrentTotal()
    ensures Total(CurrentExpenses) == 1216.55
  {
  }

  /** Whatever the draws, the predicted total lies in [0.95, 1.15) of 1216.55. */
  lemma MockPredictedTotalBounds(draws: seq<real>, picks: seq<real>)
    requires DrawsFor(CurrentExpenses, draws, picks)
    ensures 0.95 * 1216.55 <= BuildReport(CurrentExpenses, draws, picks).predictedTotal < 1.15 * 1216.55
  {
    MockCurrentTotal();
    PredictedTotalBounds(CurrentExpenses, draws, picks);
  }

  /** The savings potential is current minus predicted total, and the overspend
      alert leads the recommendations exactly when it is negative. */
  lemma MockOverspendAlert(draws: seq<real>, picks: seq<real>)
    requires DrawsFor(CurrentExpenses, draws, picks)
    ensures BuildReport(CurrentExpenses, draws, picks).savingsPotential ==
      1216.55 - BuildReport(CurrentExpenses, draws, picks).predictedTotal
    ensures BuildReport(CurrentExpenses, draws, picks).recommendations[0].OverspendAlert? <==>
      BuildReport(CurrentExpenses, draws, picks).savingsPotential < 0.0
    ensures -0.15 * 1216.55 < BuildReport(CurrentExpenses, draws, picks).savingsPotential <= 0.05 * 1216.55
  {
    MockCurrentTotal();
    MockPredictedTotalBounds(draws, picks);
  }

  /** "Food & Dining" is the first row, so the saving challenge is 20% of 450, i.e. 90. */
  lemma MockChallengeAmount()
    ensures ChallengeAmount(CurrentExpenses) == 90.0
  {
  }

  /** Every row of the page has a known category, so no insight is the default one. */
  lemma MockInsightsAreCategorySpecific(draws: seq<real>, picks: seq<real>)
    requires DrawsFor(CurrentExpenses, draws, picks)
    ensures forall i :: 0 <= i < 4 ==>
      BuildReport(CurrentExpenses, draws, picks).predictions[i].description != "Normal spending pattern"
  {
  }

  /** The top category is the category of one of the page's rows. */
  lemma MockTopCategory(draws: seq<real>, picks: seq<real>)
    requires DrawsFor(CurrentExpenses, draws, picks)
    ensures BuildReport(CurrentExpenses, draws, picks).topCategory in
      {"Food & Dining", "Transportation", "Entertainment", "Shopping"}
  {
  }
}
