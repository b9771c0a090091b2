/**
  The financial statement: the totals block, the balance colour, the period line and one
  table row per transaction, as data. The HTML, the currency and date formatting and the
  call that prints the document to a file are not modelled.
 */
module Statement {
  import opened Wrappers
  import opened TransactionsSlice
  import TransactionsThunks

  // ---------------------------------------------------------------- totals

  /** What one transaction adds to the income total: its raw amount, only when its type is "income". */
  function IncomePart(t: Transaction): int {
    if t.kind == "income" then t.amount else 0
  }

  /** What one transaction adds to the expense total: its magnitude, only when its type is "expense". */
  function ExpensePart(t: Transaction): nat {
    if t.kind == "expense" then Abs(t.amount) else 0
  }

  /**
    The sum of the raw amounts of the "income" transactions (filter, then reduce from 0).
    It never exceeds the sum of their magnitudes.
   */
  function TotalIncome(ts: seq<Transaction>): (r: int)
    ensures r <= MagnitudeIncome(ts)
    decreases |ts|
  {
    if ts == [] then 0 else IncomePart(ts[0]) + TotalIncome(ts[1..])
  }

  /** The sum of the magnitudes of the "expense" transactions; never negative. */
  function TotalExpenses(ts: seq<Transaction>): (r: int)
    ensures r >= 0
    decreases |ts|
  {
    if ts == [] then 0 else ExpensePart(ts[0]) + TotalExpenses(ts[1..])
  }

  datatype Totals = Totals(income: int, expenses: int, balance: int)

  /** The totals block: the two sums, and the balance as their exact difference. */
  function ComputeTotals(ts: seq<Transaction>): (r: Totals)
    ensures r.expenses >= 0
    ensures r.balance == r.income - r.expenses
    ensures ts == [] ==> r == Totals(0, 0, 0)
  {
    var income := TotalIncome(ts);
    var expenses := TotalExpenses(ts);
    Totals(income, expenses, income - expenses)
  }

  /** Both sums split over a concatenation. */
  lemma {:induction false} TotalsAppend(a: seq<Transaction>, b: seq<Transaction>)
    ensures TotalIncome(a + b) == TotalIncome(a) + TotalIncome(b)
    ensures TotalExpenses(a + b) == TotalExpenses(a) + TotalExpenses(b)
    decreases |a|
  {
    if a == [] {
      assert a + b == b;
    } else {
      assert (a + b)[1..] == a[1..] + b;
      TotalsAppend(a[1..], b);
    }
  }

  /** Taking out the element at `i` takes out exactly its part of each sum. */
  lemma TotalsWithout(us: seq<Transaction>, i: nat)
    requires i < |us|
    ensures TotalIncome(us) == IncomePart(us[i]) + TotalIncome(us[..i] + us[i + 1..])
    ensures TotalExpenses(us) == ExpensePart(us[i]) + TotalExpenses(us[..i] + us[i + 1..])
  {
    var before, after := us[..i], us[i + 1..];
    assert us == before + ([us[i]] + after);
    TotalsAppend(before, [us[i]] + after);
    TotalsAppend(before, after);
    assert ([us[i]] + after)[1..] == after;
  }

  lemma MultisetWithout(ts: seq<Transaction>, us: seq<Transaction>, i: nat)
    requires ts != [] && i < |us| && us[i] == ts[0] && multiset(ts) == multiset(us)
    ensures multiset(ts[1..]) == multiset(us[..i] + us[i + 1..])
  {
    assert ts == [ts[0]] + ts[1..];
    assert us == us[..i] + [us[i]] + us[i + 1..];
    assert multiset(us) == multiset(us[..i]) + multiset{us[i]} + multiset(us[i + 1..]);
    assert multiset(ts) == multiset{ts[0]} + multiset(ts[1..]);
    assert multiset(us[..i] + us[i + 1..]) == multiset(us[..i]) + multiset(us[i + 1..]);
    assert multiset(ts[1..]) == multiset(ts) - multiset{ts[0]};
    assert multiset(us[..i] + us[i + 1..]) == multiset(us) - multiset{us[i]};
  }

  /** The totals do not depend on the order of the list: any permutation gives the same totals. */
  lemma {:induction false} TotalsPermutationInvariant(ts: seq<Transaction>, us: seq<Transaction>)
    requires multiset(ts) == multiset(us)
    ensures TotalIncome(ts) == TotalIncome(us) && TotalExpenses(ts) == TotalExpenses(us)
    ensures ComputeTotals(ts) == ComputeTotals(us)
    decreases |ts|
  {
    if ts == [] {
      assert |us| == |multiset(us)| == 0;
    } else {
      assert ts[0] in multiset(us);
      var i :| 0 <= i < |us| && us[i] == ts[0];
      MultisetWithout(ts, us, i);
      TotalsPermutationInvariant(ts[1..], us[..i] + us[i + 1..]);
      TotalsWithout(us, i);
    }
  }

  /**
    A transaction whose type is neither "income" nor "expense", wherever it stands in the
    list, adds to neither total.
   */
  lemma UnknownKindAddsNothing(a: seq<Transaction>, t: Transaction, b: seq<Transaction>)
    requires t.kind != "income" && t.kind != "expense"
    ensures ComputeTotals(a + [t] + b) == ComputeTotals(a + b)
  {
    TotalsAppend(a + [t], b);
    TotalsAppend(a, [t]);
    TotalsAppend(a, b);
    assert [t][1..] == [];
  }

  /** The income total is not bounded below: a negative "income" amount makes it negative. */
  lemma TotalIncomeCanBeNegative()
    ensures TotalIncome([Transaction("t1", "2024-01-01", -500, "income", "refund", "u1")]) == -500
  {
  }

  /** A list whose amounts are all normalised as `createTransaction` normalises them. */
  ghost predicate Normalised(ts: seq<Transaction>) {
    forall i :: 0 <= i < |ts| ==> ts[i].amount == TransactionsThunks.StoredAmount(ts[i].kind, ts[i].amount)
  }

  /** The intended income total: the sum of the magnitudes of the "income" transactions. */
  function MagnitudeIncome(ts: seq<Transaction>): (r: int)
    ensures r >= 0
    decreases |ts|
  {
    if ts == [] then 0
    else (if ts[0].kind == "income" then Abs(ts[0].amount) else 0) + MagnitudeIncome(ts[1..])
  }

  /**
    On normalised data the raw income sum is the sum of magnitudes, hence never negative,
    and the balance is that sum minus the expenses.
   */
  lemma {:induction false} NormalisedIncomeIsMagnitude(ts: seq<Transaction>)
    requires Normalised(ts)
    ensures TotalIncome(ts) == MagnitudeIncome(ts) >= 0
    decreases |ts|
  {
    if ts != [] {
      assert Normalised(ts[1..]) by {
        forall i | 0 <= i < |ts[1..]|
          ensures ts[1..][i].amount == TransactionsThunks.StoredAmount(ts[1..][i].kind, ts[1..][i].amount)
        {
          assert ts[1..][i] == ts[i + 1];
        }
      }
      NormalisedIncomeIsMagnitude(ts[1..]);
      assert ts[0].amount == TransactionsThunks.StoredAmount(ts[0].kind, ts[0].amount);
    }
  }

  /** Every "income" transaction has a non-negative amount. */
  ghost predicate IncomeAmountsNonNegative(ts: seq<Transaction>) {
    forall i :: 0 <= i < |ts| && ts[i].kind == "income" ==> ts[i].amount >= 0
  }

  /**
    The raw income total equals the sum of magnitudes exactly when no "income" amount is
    negative; the other transactions' amounts do not matter.
   */
  lemma {:induction false} IncomeIsMagnitudeIff(ts: seq<Transaction>)
    ensures TotalIncome(ts) == MagnitudeIncome(ts) <==> IncomeAmountsNonNegative(ts)
    decreases |ts|
  {
    if ts != [] {
      IncomeIsMagnitudeIff(ts[1..]);
      assert IncomeAmountsNonNegative(ts) <==>
        (ts[0].kind == "income" ==> ts[0].amount >= 0) && IncomeAmountsNonNegative(ts[1..])
      by {
        if (ts[0].kind == "income" ==> ts[0].amount >= 0) && IncomeAmountsNonNegative(ts[1..]) {
          forall i | 0 <= i < |ts| && ts[i].kind == "income" ensures ts[i].amount >= 0 {
            if i > 0 { assert ts[i] == ts[1..][i - 1]; }
          }
        }
        if IncomeAmountsNonNegative(ts) {
          forall i | 0 <= i < |ts[1..]| && ts[1..][i].kind == "income" ensures ts[1..][i].amount >= 0 {
            assert ts[1..][i] == ts[i + 1];
          }
        }
      }
    }
  }

  /** Without normalisation the two income totals differ. */
  lemma RawIncomeDiffersFromMagnitude()
    ensures var ts := [Transaction("t1", "2024-01-01", -500, "income", "refund", "u1")];
      TotalIncome(ts) != MagnitudeIncome(ts)
  {
  }

  // ---------------------------------------------------------------- rows

  datatype AmountClass = IncomeClass | ExpenseClass
  datatype Colour = Green | Red

  /**
    One table row: the date (the raw `created_at`), the description, the type label, the
    sign prefix, the colour class of the amount cell and the magnitude shown.
   */
  datatype Row = Row(
    date: string,
    description: string,
    typeLabel: string,
    sign: char,
    amountClass: AmountClass,
    magnitude: nat)

  /** `toUpperCase` on one character, for the ASCII letters. */
  function UpperAscii(c: char): char {
    if 'a' <= c <= 'z' then (c as int - 'a' as int + 'A' as int) as char else c
  }

  /** `s.charAt(0).toUpperCase() + s.slice(1)`: the first character upper-cased, the rest unchanged. */
  function Capitalize(s: string): (r: string)
    ensures |r| == |s|
    ensures s != [] ==> r[0] == UpperAscii(s[0]) && r[1..] == s[1..]
  {
    if s == [] then [] else [UpperAscii(s[0])] + s[1..]
  }

  lemma CapitalizeIdempotent(s: string)
    ensures Capitalize(Capitalize(s)) == Capitalize(s)
  {
  }

  lemma CapitalizeKnownKinds()
    ensures Capitalize("income") == "Income" && Capitalize("expense") == "Expense"
  {
  }

  /** The row of one transaction: '+' and the income class exactly for type "income", '-' and the expense class otherwise. */
  function RowFor(t: Transaction): (r: Row)
    ensures r.sign == '+' <==> t.kind == "income"
    ensures r.amountClass == IncomeClass <==> t.kind == "income"
    ensures r.sign == '+' || r.sign == '-'
    ensures r.magnitude == Abs(t.amount)
    ensures r.typeLabel == Capitalize(t.kind)
  {
    var income := t.kind == "income";
    Row(t.createdAt, t.name, Capitalize(t.kind),
      if income then '+' else '-',
      if income then IncomeClass else ExpenseClass,
      Abs(t.amount))
  }

  /** The table: exactly one row per transaction, in input order. */
  function Rows(ts: seq<Transaction>): (r: seq<Row>)
    ensures |r| == |ts|
    ensures forall i :: 0 <= i < |ts| ==> r[i] == RowFor(ts[i])
    decreases |ts|
  {
    if ts == [] then [] else [RowFor(ts[0])] + Rows(ts[1..])
  }

  /**
    An unknown type is rendered as an expense (a '-' sign and the expense class) although
    it adds nothing to the expense total.
   */
  lemma UnknownKindRenderedAsExpense(t: Transaction)
    requires t.kind != "income" && t.kind != "expense"
    ensures RowFor(t).sign == '-' && RowFor(t).amountClass == ExpenseClass
    ensures IncomePart(t) == 0 && ExpensePart(t) == 0
  {
  }

  /** The amount a row shows, read as a signed number. */
  function SignedValue(r: Row): int {
    if r.sign == '+' then r.magnitude else -(r.magnitude as int)
  }

  function SumSigned(rows: seq<Row>): int
    decreases |rows|
  {
    if rows == [] then 0 else SignedValue(rows[0]) + SumSigned(rows[1..])
  }

  /** Every transaction has type "income" or "expense". */
  ghost predicate KnownKinds(ts: seq<Transaction>) {
    forall i :: 0 <= i < |ts| ==> ts[i].kind == "income" || ts[i].kind == "expense"
  }

  /**
    When every type is known and every amount is normalised, the signed row amounts add up
    to the balance of the totals block: the table and the summary agree.
   */
  lemma {:induction false} RowsAddUpToBalance(ts: seq<Transaction>)
    requires KnownKinds(ts) && Normalised(ts)
    ensures SumSigned(Rows(ts)) == ComputeTotals(ts).balance
    decreases |ts|
  {
    if ts != [] {
      var t := ts[0];
      assert t.kind == "income" || t.kind == "expense";
      assert t.amount == TransactionsThunks.StoredAmount(t.kind, t.amount);
      assert KnownKinds(ts[1..]) && Normalised(ts[1..]) by {
        forall i | 0 <= i < |ts[1..]| ensures ts[1..][i] == ts[i + 1] { }
      }
      RowsAddUpToBalance(ts[1..]);
      assert Rows(ts)[1..] == Rows(ts[1..]);
    }
  }

  /** An unknown type breaks that agreement: its row shows a debit the totals do not count. */
  lemma UnknownKindBreaksAgreement()
    ensures var ts := [Transaction("t1", "2024-01-01", 700, "transfer", "moved", "u1")];
      SumSigned(Rows(ts)) == -700 && ComputeTotals(ts).balance == 0
  {
    var ts := [Transaction("t1", "2024-01-01", 700, "transfer", "moved", "u1")];
    assert Rows(ts)[1..] == [];
  }

  // ---------------------------------------------------------------- the statement

  /** The period line: the dates of the first and the last transaction of the list. */
  datatype Period = Period(first: string, last: string)

  /**
    The period of a list: its first and last `created_at`, and none for an empty list
    (where the source reads past the end of the array).
   */
  function PeriodOf(ts: seq<Transaction>): (r: Option<Period>)
    ensures r.None? <==> ts == []
    ensures r.Some? ==> r.value.first == ts[0].createdAt && r.value.last == ts[|ts| - 1].createdAt
  {
    if ts == [] then None else Some(Period(ts[0].createdAt, ts[|ts| - 1].createdAt))
  }

  /** The net balance is shown green when it is not negative and red otherwise. */
  function BalanceColour(balance: int): (c: Colour)
    ensures c == Green <==> balance >= 0
  {
    if balance >= 0 then Green else Red
  }

  datatype Document = Document(
    totals: Totals,
    balanceColour: Colour,
    period: Option<Period>,
    rows: seq<Row>)

  /** The whole statement for a list of transactions, as the document is built from it. */
  function BuildStatement(ts: seq<Transaction>): (r: Document)
    ensures r.totals.balance == r.totals.income - r.totals.expenses && r.totals.expenses >= 0
    ensures r.totals.income == TotalIncome(ts) && r.totals.expenses == TotalExpenses(ts)
    ensures r.balanceColour == Green <==> r.totals.balance >= 0
    ensures r.period.None? <==> ts == []
    ensures |r.rows| == |ts| && forall i :: 0 <= i < |ts| ==> r.rows[i] == RowFor(ts[i])
  {
    var totals := ComputeTotals(ts);
    Document(totals, BalanceColour(totals.balance), PeriodOf(ts), Rows(ts))
  }

  /** Three transactions give income 100, expenses 60 and a balance of 40. */
  lemma ThreeTransactionTotals()
    ensures ComputeTotals([
      Transaction("a", "2024-03-01", 10000, "income", "salary", "u1"),
      Transaction("b", "2024-03-01", -4000, "expense", "food", "u1"),
      Transaction("c", "2024-03-02", -2000, "expense", "bus", "u1")]) == Totals(10000, 6000, 4000)
  {
  }
}
