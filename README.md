# Receipt Buddy: a verified model of its computational core

Receipt Buddy is a personal-finance web client. The user enters a month of
expenses, sees a speculative forecast of next month rendered as a receipt,
tracks savings goals, and collects badges and challenges. Almost all of the
application is view code; this project models the part that computes:

- **Expenses** (`expenses.dfy`, from `src/components/ExpenseForm.tsx`): the
  expense-entry form as a class over a list of rows (add a default row, remove a
  row, change one field of one row, record the income), the rows handed on at
  submit (those with a positive amount, in order), the total, and the
  "remaining after expenses" figure.
- **Forecast** (`forecast.dfy`, from `src/pages/Index.tsx`): the per-row forecast
  (amount scaled by `0.95 + 0.2 r` for a random `r` in [0, 1)), the insight
  lookup with its default, the current and predicted totals, the savings
  potential, the trend percentage, the top category (first maximum) and the
  ordered list of recommendations. The two random draws per row are parameters.
- **Receipt** (`receipt.dfy`, from `src/pages/ReceiptPage.tsx`): the same pipeline
  over the page's four fixed rows, with what the page shows for every draw.
- **Goals** (`goals.dfy`, from `src/pages/GoalsPage.tsx`): the goal list as a class
  (add from the form, delete by id, contribute with clamping to [0, target]) and
  the derived progress percentage, days remaining, remaining amount and totals.
- **Gamification** (`gamification.dfy`, from `src/pages/GamificationPage.tsx`):
  earned-badge count, level `floor(1.5 n) + 1`, completion rate, level progress,
  badges to the next level and challenge progress.
- **Signup** (`signup.dfy`, from `src/pages/auth/Signup.tsx`): the ordered password
  checks, the profile sent to the sign-up service, and the form state.

Amounts are `real`. A JavaScript division that yields no finite number
(`x / 0`) is an `Option` whose `None` stands for `NaN` or an infinity; times
are integer milliseconds.

The model follows the code as written: the forecast multiplier lies in
[0.95, 1.15), not within ±10% as the comment at src/pages/Index.tsx:30 says;
challenge progress is not capped at 100; a goal is accepted with any parsed
target, including 0 or a negative one (the clamping invariant is therefore
proved for non-negative targets); the completion rate and the trend are not
numbers when their divisor is 0.

## Model

| member | source | states |
|---|---|---|
| `Expenses.ExpenseForm.constructor` | src/components/ExpenseForm.tsx:34-37 | the form opens with no income and one "Food & Dining", 0, "Credit Card" row, whose values come from the selector lists |
| `Expenses.ExpenseForm.AddExpense` | src/components/ExpenseForm.tsx:39-41 | appends exactly the default row; all existing rows and the income are unchanged; rows drawn from the selector lists stay so |
| `Expenses.ExpenseForm.RemoveExpense` | src/components/ExpenseForm.tsx:43-45 | an index naming a row removes exactly that row (length drops by one, the rest keep their order); any other index removes nothing |
| `Expenses.ExpenseForm.UpdateExpense` | src/components/ExpenseForm.tsx:47-51 | only the named field of the row at the index changes; every other row and field is kept; a value chosen from the selector lists keeps every row within them |
| `Expenses.DefaultRowFromCatalog` | src/components/ExpenseForm.tsx:19-40 | the default row's category and payment method are entries of the category and payment-method lists the selectors offer |
| `Expenses.UpdateField` | src/components/ExpenseForm.tsx:49 | replacing one field of a row keeps the other two fields |
| `Expenses.ExpenseForm.SetIncome` | src/components/ExpenseForm.tsx:78-79 | records the income field and leaves the rows alone |
| `Expenses.ExpenseForm.HandleSubmit` | src/components/ExpenseForm.tsx:53-58 | hands on the income and the order-preserving filter of the rows whose amount is positive (each kept as often as it occurs); the form is unchanged |
| `Sums.Sum` | src/components/ExpenseForm.tsx:61 | the sum of a field over a list is non-negative when every element's value is; the four totals of the pages are instances of it |
| `Sums.SumAppend` | src/components/ExpenseForm.tsx:61 | appending an element adds its value, which is the step of a left-to-right `reduce` from 0 |
| `Expenses.Total` | src/components/ExpenseForm.tsx:61 | the sum of the row amounts, non-negative when no amount is negative; its relation to the submitted rows is `Expenses.TotalOfNonNegativeRows` and `Expenses.ValidTotalPositive` |
| `Expenses.TotalAppendRow` | src/components/ExpenseForm.tsx:61 | appending a row adds its amount, which is the step of the page's left-to-right reduce |
| `Expenses.ValidExpenses` | src/components/ExpenseForm.tsx:54 | the submitted rows are rows of the form, all with positive amounts, and no more of them than rows |
| `Expenses.ValidExpensesCounts` | src/components/ExpenseForm.tsx:54 | each positive row is submitted as often as it occurs, each other row never |
| `Expenses.ValidExpensesAppend` | src/components/ExpenseForm.tsx:54 | the filter distributes over concatenation, so submitted rows keep their relative order |
| `Expenses.ValidExpensesIdempotent` | src/components/ExpenseForm.tsx:54 | filtering the submitted rows again changes nothing |
| `Expenses.ValidTotalPositive` | src/components/ExpenseForm.tsx:54-61 | the total of submitted rows is non-negative, and positive exactly when some row is submitted |
| `Expenses.TotalOfNonNegativeRows` | src/components/ExpenseForm.tsx:54-61 | with no negative amount the form total equals the total of the submitted rows |
| `Expenses.SubmitEnabledAsWritten` | src/components/ExpenseForm.tsx:181 | the button is enabled exactly when the total of all rows is not 0; without negative amounts that is exactly when submit would hand on at least one row |
| `Expenses.NegativeRowSubmitsNothing` | src/components/ExpenseForm.tsx:181 | one row of -5 enables the button although no row is submitted |
| `Expenses.CanSubmit` | src/components/ExpenseForm.tsx:176-182 | the intended guard: enabled exactly when some row has a positive amount, i.e. when the submitted total is positive |
| `Expenses.ExpenseForm.SubmitEnabled` | src/components/ExpenseForm.tsx:176-182 | the form's button under the intended guard is enabled exactly when submit hands on a row |
| `Expenses.ValidNonEmptyIff` | src/components/ExpenseForm.tsx:54 | some row is submitted exactly when some row has a positive amount |
| `Expenses.GuardsAgreeOnNonNegativeRows` | src/components/ExpenseForm.tsx:181 | without negative amounts the written and the intended guard agree |
| `Expenses.RemainderShown` | src/components/ExpenseForm.tsx:156-168 | the remainder is shown exactly when the total and the income are positive, and then income = remainder + total |
| `Forecast.Multiplier` | src/pages/Index.tsx:30 | a draw in [0, 1) gives a multiplier in [0.95, 1.15) |
| `Forecast.InsightCandidates` | src/pages/Index.tsx:36-42 | the four known categories have three candidates, none the default; any other category name the form or the receipt supplies has only "Normal spending pattern" |
| `Forecast.PickIndex` | src/pages/Index.tsx:43 | `floor(q * n)` for a draw q is a valid index: the integer part of q n, below n |
| `Forecast.RandomInsight` | src/pages/Index.tsx:35-44 | the insight is one of the category's candidates, and is "Normal spending pattern" exactly for a category outside the four known ones |
| `Forecast.GeneratePredictions` | src/pages/Index.tsx:27-33 | one prediction per row, same order, same category, amount scaled by the row's multiplier, insight from the row's category |
| `Forecast.PredictedTotal` | src/pages/Index.tsx:49 | the sum of the predicted amounts, non-negative when no amount is negative; its bounds are `Forecast.TotalsWithinBounds` and `Forecast.PredictedTotalBounds` |
| `Forecast.PredictedTotalAppend` | src/pages/Index.tsx:49 | appending a prediction adds its amount, which is the step of the page's left-to-right reduce |
| `Forecast.ScaledBounds` | src/pages/Index.tsx:30 | a positive amount times a multiplier in [0.95, 1.15) lies in [0.95, 1.15) of itself |
| `Forecast.PredictionWithinBounds` | src/pages/Index.tsx:30 | each predicted amount lies in [0.95, 1.15) times the row's positive amount |
| `Forecast.TotalsWithinBounds` | src/pages/Index.tsx:47-49 | row-wise scaling into [0.95, 1.15) carries over to the totals |
| `Forecast.PredictedTotalBounds` | src/pages/Index.tsx:47-49 | the predicted total lies in [0.95, 1.15) times the current total |
| `Forecast.SavingsPotential` | src/pages/Index.tsx:50 | savings potential plus predicted total is the current total |
| `Forecast.TrendPercent` | src/pages/Index.tsx:104-108 | the trend is not a number exactly when the current total is 0; otherwise trend times current total is 100 times the change |
| `Forecast.TrendSign` | src/pages/Index.tsx:104-108 | for a positive current total the trend is positive exactly when the savings potential is negative, and 0 exactly when it is 0 |
| `Forecast.ReduceMax` | src/pages/Index.tsx:142 | the running reduce ends on an index whose amount is a maximum and strictly above every earlier amount |
| `Forecast.TopIndex` | src/pages/Index.tsx:142 | on a non-empty list: the first index of a maximal predicted amount |
| `Forecast.TopCategory` | src/pages/Index.tsx:142 | the shown category is that of the first maximal prediction: its amount is a maximum and strictly above every earlier amount |
| `Forecast.FirstIndexOf` | src/pages/Index.tsx:167 | the position of the first row with the category, or the length when none has it |
| `Forecast.FindByName` | src/pages/Index.tsx:167 | nothing is found exactly when no row has the category; otherwise the first such row |
| `Forecast.ChallengeAmount` | src/pages/Index.tsx:167 | 20% of the first "Food & Dining" amount, or 50 when there is no such row or its amount is 0 |
| `Forecast.Recommendations` | src/pages/Index.tsx:156-174 | the overspend alert (for the absolute savings) comes first exactly when savings are negative; the saving challenge and the tracking tip always follow, in that order |
| `Forecast.BuildReport` | src/pages/Index.tsx:46-174 | the page's figures fit together: savings = current - predicted, the trend is undefined exactly for a zero current total, the alert shows exactly when the predicted total exceeds the current one |
| `Forecast.SubmittedRowsGiveFiniteTrend` | src/pages/Index.tsx:46-108 | rows submitted under the intended guard are non-empty and give a finite trend that is positive exactly when the overspend alert shows |
| `Receipt.MockCurrentTotal` | src/pages/ReceiptPage.tsx:10-37 | the fixed rows total 1216.55 |
| `Receipt.MockPredictedTotalBounds` | src/pages/ReceiptPage.tsx:18-39 | for any draws the predicted total lies in [0.95, 1.15) times 1216.55 |
| `Receipt.MockOverspendAlert` | src/pages/ReceiptPage.tsx:152-159 | savings = 1216.55 - predicted, the alert shows exactly when they are negative, and they lie in (-0.15, 0.05] times 1216.55 |
| `Receipt.MockChallengeAmount` | src/pages/ReceiptPage.tsx:163 | the saving challenge is 90, 20% of the 450 spent on "Food & Dining" |
| `Receipt.MockInsightsAreCategorySpecific` | src/pages/ReceiptPage.tsx:26-35 | all four fixed categories are known, so no insight is the default one |
| `Receipt.MockTopCategory` | src/pages/ReceiptPage.tsx:138 | the top category is one of the four fixed categories |
| `Goals.GoalsPage.constructor` | src/pages/GoalsPage.tsx:20-53 | the page opens with its goals, an empty add-goal form, closed |
| `Goals.GoalsPage.SetNewGoal` | src/pages/GoalsPage.tsx:130-162 | typing into the form changes only the draft |
| `Goals.GoalsPage.HandleAddGoal` | src/pages/GoalsPage.tsx:55-68 | with title, target and deadline filled in, exactly one goal is appended (saved 0, category "Other" when empty) and the form is reset and closed; otherwise nothing changes; clamped lists stay clamped for a non-negative target |
| `Goals.GoalsPage.HandleDeleteGoal` | src/pages/GoalsPage.tsx:71-73 | removes the goals with the id and keeps the others in order; no goal with the id remains |
| `Goals.RemoveById` | src/pages/GoalsPage.tsx:72 | a goal remains exactly when it was there and its id differs |
| `Goals.RemoveByIdCounts` | src/pages/GoalsPage.tsx:72 | every other goal is kept as often as it occurred |
| `Goals.RemoveByIdAppend` | src/pages/GoalsPage.tsx:72 | deletion distributes over concatenation, so the order is kept |
| `Goals.RemoveAbsentId` | src/pages/GoalsPage.tsx:72 | deleting an id no goal has changes nothing |
| `Goals.GoalsPage.UpdateGoalProgress` | src/pages/GoalsPage.tsx:75-81 | only goals with the id change, by a clamped contribution; length, order and all other goals are unchanged; clamped lists stay clamped |
| `Goals.ClampAmount` | src/pages/GoalsPage.tsx:78 | for a non-negative target the result lies in [0, target]; a value in range is kept, values beyond are cut to the nearer bound |
| `Goals.Contribute` | src/pages/GoalsPage.tsx:78 | only the saved amount changes; for a non-negative target it lands in [0, target] whatever the sign or size of the contribution |
| `Goals.ContributeMonotone` | src/pages/GoalsPage.tsx:78 | a non-negative contribution never lowers a clamped goal's saved amount |
| `Goals.ProgressPercentage` | src/pages/GoalsPage.tsx:83-85 | at most 100, exactly 100 once the saved amount reaches a positive target, non-negative for a non-negative saved amount, proportional below the target; a zero target gives 100 or no number |
| `Goals.ProgressMonotone` | src/pages/GoalsPage.tsx:83-85 | for a positive target the percentage is non-decreasing in the saved amount |
| `Goals.DaysRemaining` | src/pages/GoalsPage.tsx:87-92 | the ceiling of the millisecond difference divided by one day's milliseconds |
| `Goals.OverdueIff` | src/pages/GoalsPage.tsx:228-245 | the day count is negative (overdue) exactly when the deadline lies a full day or more before today |
| `Goals.Remaining` | src/pages/GoalsPage.tsx:301 | for a clamped goal the remaining amount lies in [0, target] and is 0 exactly when the goal is reached |
| `Goals.TotalSaved` | src/pages/GoalsPage.tsx:202 | the sum of the saved amounts, non-negative when no saved amount is; bounded by the target total in `Goals.TotalsOrdered` |
| `Goals.TotalTarget` | src/pages/GoalsPage.tsx:217 | the sum of the targets, non-negative when no target is negative |
| `Goals.TotalsOrdered` | src/pages/GoalsPage.tsx:202-217 | when every goal is clamped, 0 <= total saved <= total target |
| `Goals.ContributionClampsAtTarget` | src/pages/GoalsPage.tsx:37-44 | 320 of 1200 saved plus 1000 gives 1200 saved and 0 remaining |
| `Gamification.EarnedBadges` | src/pages/GamificationPage.tsx:134-135 | between 0 and the number of badges; 0 exactly when none is earned, all exactly when all are |
| `Gamification.EarnedBadgesAppend` | src/pages/GamificationPage.tsx:134-135 | the count adds up over concatenated badge lists and a single badge counts 1 exactly when earned, so it is the length of the earned filter |
| `Gamification.UserLevel` | src/pages/GamificationPage.tsx:137 | at least 1, and equal to 3n div 2 + 1 |
| `Gamification.LevelStep` | src/pages/GamificationPage.tsx:137 | each further badge raises the level by 1 or 2 |
| `Gamification.LevelMonotone` | src/pages/GamificationPage.tsx:137 | the level is non-decreasing in the earned count |
| `Gamification.LevelExamples` | src/pages/GamificationPage.tsx:137 | level 1, 4 and 16 for 0, 2 and 10 badges |
| `Gamification.CompletionRate` | src/pages/GamificationPage.tsx:182 | not a number exactly when there are no badges; otherwise in [0, 100], and 100 exactly when all are earned |
| `Gamification.LevelProgress` | src/pages/GamificationPage.tsx:309 | in [0, 100), and 0 exactly when the count is a multiple of 3 |
| `Gamification.BadgesToNextLevel` | src/pages/GamificationPage.tsx:311 | 1, 2 or 3, and brings the count to a multiple of 3 |
| `Gamification.ChallengeProgress` | src/pages/GamificationPage.tsx:235 | not a number exactly for a zero target; for 0 <= progress <= target it lies in [0, 100] and is 100 exactly when progress equals target |
| `Gamification.PageFigures` | src/pages/GamificationPage.tsx:44-96 | the page's badges give 3 earned, level 5, 50% completion, an empty level bar and 3 badges to go |
| `Signup.SignupPage.constructor` | src/pages/auth/Signup.tsx:13-24 | the form opens empty, currency "USD", not loading |
| `Signup.SignupPage.HandleChange` | src/pages/auth/Signup.tsx:68-70 | one field takes the typed value; the rest of the form and the loading flag are unchanged |
| `Signup.WithField` | src/pages/auth/Signup.tsx:69 | the named field reads the typed value and every other field reads as before |
| `Signup.FieldsDetermineForm` | src/pages/auth/Signup.tsx:69 | two forms that agree on all seven fields are equal, so `Signup.WithField`'s contract fixes its result |
| `Signup.Profile` | src/pages/auth/Signup.tsx:49-55 | names, lifestyle and currency copied; the full name is the first name, one space, the last name |
| `Signup.Validate` | src/pages/auth/Signup.tsx:37-45 | a mismatch is reported first, whatever the length; then a password under 6 characters; the service is reached exactly when both checks pass, with the email, password and profile |
| `Signup.RequestedPasswordIsConfirmed` | src/pages/auth/Signup.tsx:37-57 | a password that reaches the service has at least 6 characters and equals its confirmation |
| `Signup.SignupPage.HandleSubmit` | src/pages/auth/Signup.tsx:34-66 | a rejected form changes nothing; an accepted one sets loading, which a failed sign-up clears again |

## Findings

| source | as written | input that shows it | evidently intended | confidence | as-written member | corrected member |
|---|---|---|---|---|---|---|
| src/components/ExpenseForm.tsx:181 | the submit button is disabled only when the total of all rows is exactly 0, while submit hands on only rows with a positive amount | a single row with amount -5: the total is -5, the button is enabled, submit hands on no row, and the forecast page then reduces an empty list without an initial value (src/pages/Index.tsx:142) and divides by a zero total (src/pages/Index.tsx:108) | enable submit only when some row would be handed on | not executed; high | `Expenses.NegativeRowSubmitsNothing` | `Expenses.CanSubmit` |

`Expenses.NegativeRowSubmitsNothing` is stated about `Expenses.SubmitEnabledAsWritten`. The form's `Expenses.ExpenseForm.SubmitEnabled` and the pipeline lemma `Forecast.SubmittedRowsGiveFiniteTrend` use the corrected guard.

## Left out

- Rendering, CSS classes, icons, routing and navigation, the receipt display component and all static pages: presentation only.
- Authentication and I/O: the sign-up service call is a boolean parameter of `Signup.SignupPage.HandleSubmit`; redirects, toasts, alerts and logging are not modelled.
- `Math.random`: each forecast row takes two draws in [0, 1) as parameters (`draws`, `picks`).
- `new Date()` and `Date.now()`: "today" and the deadline are integer milliseconds passed to `Goals.DaysRemaining`; the goal id is a parameter of `Goals.GoalsPage.HandleAddGoal`, and its uniqueness is not assumed.
- Parsing and formatting: `parseFloat`, the `|| 0` coercion of the amount field, date parsing, `toFixed` and `toLocaleDateString`; the parsed goal target is a parameter and the income is an optional number.
- Floating point: amounts are exact reals, so rounding in sums and products is not modelled.
- `Expenses.ExpenseForm.UpdateExpense`: requires an index naming a row, which every caller passes; a JavaScript assignment past the end would leave holes in the array, which a sequence cannot represent.
- `Signup.Validate`: counts the password length in characters, whereas JavaScript counts UTF-16 code units; the two differ only for characters outside the Basic Multilingual Plane.
- `Forecast.InsightCandidates`: looks the category up among the four known names only; the page's object lookup also finds inherited object properties, so a category named `constructor`, `toString` or `__proto__` yields no insight there instead of the default. The category selector and the receipt's fixed rows never supply such a name.
- `Forecast.ChallengeAmount`: the page shows the amount rounded to whole units; the model keeps the unrounded value.
- `Forecast.BuildReport`: requires a non-empty list of rows, as do `Forecast.TopIndex` and `Forecast.TopCategory`; on an empty list the page's `reduce` without an initial value throws, and that crash is excluded rather than modelled (the Findings row shows how such a list arrives).
- The challenge list at src/pages/GamificationPage.tsx:98-132 opens with `useState<Challenge[]>([` but closes with `];`, so the file as given does not parse; the model reads the list as the intended `]);` and, since the page never updates it, as fixed data.
- The level hint at src/pages/GamificationPage.tsx:311 ("earn 3 - n mod 3 more badges to reach level L + 1") does not match the level formula: `Gamification.LevelStep` proves every further badge raises the level by 1 or 2, so the hinted level is reached after one badge or skipped. The model keeps both formulas as written and does not claim which one is intended.
- The open/close toggles of the add-goal and expense forms (`setShowAddForm`, `setShowForm`) and the goal list's initial sample data beyond one scenario: UI state with no computation.
