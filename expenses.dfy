/** The expense-entry form (src/components/ExpenseForm.tsx): a list of rows the
    user edits, the total of the amounts, the remainder after income, and the
    rows that are handed on when the form is submitted. */
module Expenses {
  import opened Options
  import opened Sums

  /** One row of the form: a category name, an amount and a payment method. */
  datatype ExpenseEntry = ExpenseEntry(name: string, amount: real, paymentMethod: string)

  /** The category catalog offered by the form's category selector. */
  const DefaultCategories: seq<string> :=
    ["Food & Dining", "Transportation", "Rent/Housing", "Subscriptions", "Shopping",
     "Entertainment", "Healthcare", "Utilities", "Other"]

  /** The payment methods offered by the form's payment selector. */
  const PaymentMethods: seq<string> :=
    ["Cash", "Credit Card", "Debit Card", "Mobile Wallet", "Bank Transfer"]

  /** The row the form starts with and that "Add Category" appends. */
  const DefaultRow: ExpenseEntry := ExpenseEntry("Food & Dining", 0.0, "Credit Card")

  /** A row whose category and payment method are values the two selectors offer. */
  predicate FromCatalog(e: ExpenseEntry)
  {
    e.name in DefaultCategories && e.paymentMethod in PaymentMethods
  }

  predicate AllFromCatalog(s: seq<ExpenseEntry>)
  {
    forall i :: 0 <= i < |s| ==> FromCatalog(s[i])
  }

  /** A change as the selectors and the amount field can make it. */
  predicate UpdateFromCatalog(u: FieldUpdate)
  {
    (u.SetName? ==> u.name in DefaultCategories) && (u.SetPaymentMethod? ==> u.payment in PaymentMethods)
  }

  /** The default row uses the first category and the second payment method of the catalog. */
  lemma DefaultRowFromCatalog()
    ensures FromCatalog(DefaultRow)
    ensures DefaultRow.name == DefaultCategories[0] && DefaultRow.paymentMethod == PaymentMethods[1]
  {
  }

  /** A change to one field of one row, with the value the field receives. */
  datatype FieldUpdate = SetName(name: string) | SetAmount(amount: real) | SetPaymentMethod(payment: string)

  /** The row `e` with one field replaced and the other two kept. */
  function UpdateField(e: ExpenseEntry, u: FieldUpdate): (r: ExpenseEntry)
    ensures u.SetName? ==> r.name == u.name && r.amount == e.amount && r.paymentMethod == e.paymentMethod
    ensures u.SetAmount? ==> r.name == e.name && r.amount == u.amount && r.paymentMethod == e.paymentMethod
    ensures u.SetPaymentMethod? ==> r.name == e.name && r.amount == e.amount && r.paymentMethod == u.payment
  {
    match u
    case SetName(n) => e.(name := n)
    case SetAmount(a) => e.(amount := a)
    case SetPaymentMethod(m) => e.(paymentMethod := m)
  }

  /** The sum of the amounts of all rows. */
  function Total(s: seq<ExpenseEntry>): (t: real)
    ensures (forall i :: 0 <= i < |s| ==> s[i].amount >= 0.0) ==> t >= 0.0
  {
    Sum(s, AmountOf)
  }

  function AmountOf(e: ExpenseEntry): real
  {
    e.amount
  }

  /** `Total` of a non-empty list: the first amount plus the total of the rest. */
  lemma TotalFirst(s: seq<ExpenseEntry>)
    requires s != []
    ensures Total(s) == s[0].amount + Total(s[1..])
  {
  }

  /** `Total` agrees with the page's left-to-right `reduce`: appending a row adds its amount. */
  lemma TotalAppendRow(s: seq<ExpenseEntry>, e: ExpenseEntry)
    ensures Total(s + [e]) == Total(s) + e.amount
  {
    SumAppend(s, e, AmountOf);
  }

  /** The rows with a positive amount, in their original order: what submit hands on. */
  function ValidExpenses(s: seq<ExpenseEntry>): (r: seq<ExpenseEntry>)
    ensures |r| <= |s|
    ensures forall e :: e in r ==> e in s && e.amount > 0.0
  {
    if s == [] then []
    else if s[0].amount > 0.0 then [s[0]] + ValidExpenses(s[1..])
    else ValidExpenses(s[1..])
  }

  /** Submission keeps exactly the rows with a positive amount, each as often as it occurs. */
  lemma {:induction false} ValidExpensesCounts(s: seq<ExpenseEntry>, e: ExpenseEntry)
    ensures multiset(ValidExpenses(s))[e] == if e.amount > 0.0 then multiset(s)[e] else 0
  {
    if s != [] {
      ValidExpensesCounts(s[1..], e);
      assert s == [s[0]] + s[1..];
    }
  }

  /** Submission preserves order: filtering a concatenation filters each part. */
  lemma {:induction false} ValidExpensesAppend(a: seq<ExpenseEntry>, b: seq<ExpenseEntry>)
    ensures ValidExpenses(a + b) == ValidExpenses(a) + ValidExpenses(b)
  {
    if a == [] {
      assert a + b == b;
    } else {
      assert (a + b)[1..] == a[1..] + b;
      ValidExpensesAppend(a[1..], b);
    }
  }

  /** Submitting the submitted rows again changes nothing. */
  lemma {:induction false} ValidExpensesIdempotent(s: seq<ExpenseEntry>)
    ensures ValidExpenses(ValidExpenses(s)) == ValidExpenses(s)
  {
    if s != [] {
      ValidExpensesIdempotent(s[1..]);
      if s[0].amount > 0.0 {
        assert ([s[0]] + ValidExpenses(s[1..]))[1..] == ValidExpenses(s[1..]);
      }
    }
  }

  /** The total of the submitted rows is positive exactly when some row is submitted. */
  lemma {:induction false} ValidTotalPositive(s: seq<ExpenseEntry>)
    ensures Total(ValidExpenses(s)) >= 0.0
    ensures Total(ValidExpenses(s)) > 0.0 <==> ValidExpenses(s) != []
  {
    if s != [] {
      ValidTotalPositive(s[1..]);
      if s[0].amount > 0.0 {
        assert ([s[0]] + ValidExpenses(s[1..]))[1..] == ValidExpenses(s[1..]);
      }
    }
  }

  /** When no amount is negative, the form total equals the total of what is submitted. */
  lemma {:induction false} TotalOfNonNegativeRows(s: seq<ExpenseEntry>)
    requires forall i :: 0 <= i < |s| ==> s[i].amount >= 0.0
    ensures Total(ValidExpenses(s)) == Total(s)
  {
    if s != [] {
      TotalOfNonNegativeRows(s[1..]);
      if s[0].amount > 0.0 {
        assert ([s[0]] + ValidExpenses(s[1..]))[1..] == ValidExpenses(s[1..]);
      }
    }
  }

  /** The submit button as written: disabled exactly when the total of all rows is 0.
      Without negative amounts this means some row would be submitted. */
  function SubmitEnabledAsWritten(s: seq<ExpenseEntry>): (enabled: bool)
    ensures enabled <==> Total(s) != 0.0
    ensures (forall i :: 0 <= i < |s| ==> s[i].amount >= 0.0) ==> (enabled <==> ValidExpenses(s) != [])
  {
    ValidTotalPositive(s);
    assert (forall i :: 0 <= i < |s| ==> s[i].amount >= 0.0) ==> Total(ValidExpenses(s)) == Total(s) by {
      if forall i :: 0 <= i < |s| ==> s[i].amount >= 0.0 {
        TotalOfNonNegativeRows(s);
      }
    }
    Total(s) != 0.0
  }

  /** A single row with a negative amount enables the button although nothing
      would be submitted: the page receiving the rows then reduces an empty list. */
  lemma NegativeRowSubmitsNothing()
    ensures SubmitEnabledAsWritten([DefaultRow.(amount := -5.0)])
    ensures ValidExpenses([DefaultRow.(amount := -5.0)]) == []
  {
    TotalFirst([DefaultRow.(amount := -5.0)]);
  }

  /** The submit guard the page evidently intends: enabled exactly when some row would be submitted. */
  function CanSubmit(s: seq<ExpenseEntry>): (enabled: bool)
    ensures enabled <==> exists i :: 0 <= i < |s| && s[i].amount > 0.0
    ensures enabled <==> Total(ValidExpenses(s)) > 0.0
  {
    ValidTotalPositive(s);
    ValidNonEmptyIff(s);
    ValidExpenses(s) != []
  }

  lemma {:induction false} ValidNonEmptyIff(s: seq<ExpenseEntry>)
    ensures ValidExpenses(s) != [] <==> exists i :: 0 <= i < |s| && s[i].amount > 0.0
  {
    if s != [] {
      ValidNonEmptyIff(s[1..]);
      if ValidExpenses(s[1..]) != [] {
        var i :| 0 <= i < |s[1..]| && s[1..][i].amount > 0.0;
        assert s[i + 1].amount > 0.0;
      }
      if exists i :: 0 <= i < |s| && s[i].amount > 0.0 {
        var i :| 0 <= i < |s| && s[i].amount > 0.0;
        if i > 0 { assert s[1..][i - 1].amount > 0.0; }
      }
    }
  }

  /** When no amount is negative the written guard agrees with the intended one. */
  lemma GuardsAgreeOnNonNegativeRows(s: seq<ExpenseEntry>)
    requires forall i :: 0 <= i < |s| ==> s[i].amount >= 0.0
    ensures SubmitEnabledAsWritten(s) == CanSubmit(s)
  {
    TotalOfNonNegativeRows(s);
  }

  /** "Remaining after expenses": shown only when the total is positive and an income
      above 0 was entered (`None` for an empty income field), and then equal to
      income minus the total. */
  function RemainderShown(income: Option<real>, s: seq<ExpenseEntry>): (r: Option<real>)
    ensures r.Some? <==> Total(s) > 0.0 && income.Some? && income.value > 0.0
    ensures r.Some? ==> r.value + Total(s) == income.value
  {
    var total := Total(s);
    if total > 0.0 && income.Some? && income.value > 0.0 then Some(income.value - total) else None
  }

  /** What submit hands to the page: the income, if entered, and the submitted rows. */
  datatype ExpenseData = ExpenseData(income: Option<real>, expenses: seq<ExpenseEntry>)

  /** The form's state: the income field (`None` while empty) and the list of rows. */
  class ExpenseForm {
    var income: Option<real>
    var expenses: seq<ExpenseEntry>

    /** The form opens with no income and one default row. */
    constructor ()
      ensures income == None && expenses == [DefaultRow]
      ensures AllFromCatalog(expenses)
    {
      income := None;
      expenses := [DefaultRow];
    }

    /** The "Generate" button as the page intends it: enabled exactly when submitting
        would hand on at least one row. */
    function SubmitEnabled(): (enabled: bool)
      reads this
      ensures enabled <==> ValidExpenses(expenses) != []
      ensures enabled <==> exists i :: 0 <= i < |expenses| && expenses[i].amount > 0.0
    {
      CanSubmit(expenses)
    }

    /** Appends one default row and leaves the existing rows as they were. */
    method AddExpense()
      modifies this
      ensures expenses == old(expenses) + [DefaultRow]
      ensures |expenses| == |old(expenses)| + 1
      ensures forall i :: 0 <= i < |old(expenses)| ==> expenses[i] == old(expenses)[i]
      ensures income == old(income)
      ensures AllFromCatalog(old(expenses)) ==> AllFromCatalog(expenses)
    {
      expenses := expenses + [DefaultRow];
    }

    /** Removes the row at `index`; an index that names no row removes nothing. */
    method RemoveExpense(index: int)
      modifies this
      ensures 0 <= index < |old(expenses)| ==>
        expenses == old(expenses)[..index] + old(expenses)[index + 1..]
      ensures !(0 <= index < |old(expenses)|) ==> expenses == old(expenses)
      ensures 0 <= index < |old(expenses)| ==> |expenses| == |old(expenses)| - 1
      ensures income == old(income)
      ensures AllFromCatalog(old(expenses)) ==> AllFromCatalog(expenses)
    {
      if 0 <= index < |expenses| {
        expenses := expenses[..index] + expenses[index + 1..];
      }
    }

    /** Replaces one field of the row at `index`; every other row and field is kept. */
    method UpdateExpense(index: nat, u: FieldUpdate)
      requires index < |expenses|
      modifies this
      ensures |expenses| == |old(expenses)|
      ensures expenses[index] == UpdateField(old(expenses)[index], u)
      ensures forall i :: 0 <= i < |expenses| && i != index ==> expenses[i] == old(expenses)[i]
      ensures income == old(income)
      ensures AllFromCatalog(old(expenses)) && UpdateFromCatalog(u) ==> AllFromCatalog(expenses)
    {
      var updated := expenses;
      updated := updated[index := UpdateField(updated[index], u)];
      expenses := updated;
    }

    /** Records what the user typed into the income field. */
    method SetIncome(value: Option<real>)
      modifies this
      ensures income == value && expenses == old(expenses)
    {
      income := value;
    }

    /** Submitting hands on the income and the rows with a positive amount; the form is unchanged. */
    method HandleSubmit() returns (data: ExpenseData)
      ensures data.income == income
      ensures data.expenses == ValidExpenses(expenses)
      ensures forall e :: e in data.expenses ==> e in expenses && e.amount > 0.0
      ensures forall e :: multiset(data.expenses)[e] == if e.amount > 0.0 then multiset(expenses)[e] else 0
    {
      var valid := ValidExpenses(expenses);
      forall e: ExpenseEntry
        ensures multiset(valid)[e] == if e.amount > 0.0 then multiset(expenses)[e] else 0
      {
        ValidExpensesCounts(expenses, e);
      }
      data := ExpenseData(income, valid);
    }
  }
}
