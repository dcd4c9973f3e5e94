/** The expense summary panel: total, count, per-category totals, the top
    category, the per-transaction average, and the daily, weekly and monthly
    averages over the span of days the records cover. */
module Summary {
  import opened Domain
  import opened Chart

  datatype Summary = Summary(
    totalAmount: real,
    expenseCount: nat,
    highestCategory: string,
    highestAmount: real,
    averageAmount: real,
    dailyAverage: real,
    weeklyAverage: real,
    monthlyAverage: real)

  /** The summary shown for a missing or empty record list. */
  const Zero := Summary(0.0, 0, "", 0.0, 0.0, 0.0, 0.0, 0.0)

  /** Milliseconds in a day, the unit the date difference is divided by. */
  const MsPerDay: int := 86400000  // 1000 * 60 * 60 * 24

  // ---------------------------------------------------------------------
  // Per-category totals and the top category

  /** The `forEach` that fills the category dictionary in place, one record at a time. */
  method TallyCategories(es: seq<Expense>) returns (totals: Totals)
    ensures totals == CategoryTotals(es)
  {
    totals := [];
    var i := 0;
    while i < |es|
      invariant 0 <= i <= |es|
      invariant totals == CategoryTotals(es[..i])
    {
      assert es[..i + 1][..i] == es[..i];
      totals := Accumulate(totals, es[i].category, es[i].amount);
      i := i + 1;
    }
    assert es[..i] == es;
  }

  /** `amount` is the largest total when one is positive, and 0 otherwise;
      `category` names the first entry holding that total, or is "" when none is positive. */
  ghost predicate IsTop(t: Totals, category: string, amount: real)
  {
    && amount >= 0.0
    && (forall j :: 0 <= j < |t| ==> t[j].1 <= amount)
    && (amount == 0.0 ==> category == "")
    && (amount > 0.0 ==>
          exists k :: 0 <= k < |t| && t[k].1 == amount && category == Name(t[k].0)
                      && forall j :: 0 <= j < k ==> t[j].1 < amount)
  }

  /** The loop over `Object.entries(categoryTotals)` that keeps the best entry
      so far, replacing it only on a strictly larger total. */
  method TopCategory(t: Totals) returns (category: string, amount: real)
    ensures IsTop(t, category, amount)
  {
    category, amount := "", 0.0;
    ghost var k := 0;
    for i := 0 to |t|
      invariant amount >= 0.0
      invariant forall j :: 0 <= j < i ==> t[j].1 <= amount
      invariant amount == 0.0 ==> category == ""
      invariant amount > 0.0 ==>
        && 0 <= k < i && t[k].1 == amount && category == Name(t[k].0)
        && forall j :: 0 <= j < k ==> t[j].1 < amount
    {
      if t[i].1 > amount {
        amount := t[i].1;
        category := Name(t[i].0);
        k := i;
      }
    }
  }

  /** The top category and its total are determined by the totals alone. */
  lemma IsTopUnique(t: Totals, c1: string, a1: real, c2: string, a2: real)
    requires IsTop(t, c1, a1) && IsTop(t, c2, a2)
    ensures c1 == c2 && a1 == a2
  {
    assert a1 <= a2 by {
      if a1 > 0.0 {
        var k1 :| 0 <= k1 < |t| && t[k1].1 == a1 && c1 == Name(t[k1].0)
                  && forall j :: 0 <= j < k1 ==> t[j].1 < a1;
      }
    }
    assert a2 <= a1 by {
      if a2 > 0.0 {
        var k2 :| 0 <= k2 < |t| && t[k2].1 == a2 && c2 == Name(t[k2].0)
                  && forall j :: 0 <= j < k2 ==> t[j].1 < a2;
      }
    }
    if a1 > 0.0 {
      var k1 :| 0 <= k1 < |t| && t[k1].1 == a1 && c1 == Name(t[k1].0)
                && forall j :: 0 <= j < k1 ==> t[j].1 < a1;
      var k2 :| 0 <= k2 < |t| && t[k2].1 == a2 && c2 == Name(t[k2].0)
                && forall j :: 0 <= j < k2 ==> t[j].1 < a2;
      assert k1 == k2;
    }
  }

  /** No category's total exceeds the reported highest amount, and a positive
      highest amount is the total of the category it names. */
  lemma TopIsLargestCategoryTotal(es: seq<Expense>, category: string, amount: real)
    requires IsTop(CategoryTotals(es), category, amount)
    ensures forall c :: SumFor(es, c) <= amount
    ensures amount > 0.0 ==> exists c :: Name(c) == category && SumFor(es, c) == amount
  {
    var t := CategoryTotals(es);
    var firsts := FirstOccurrences(Categories(es));
    forall c ensures SumFor(es, c) <= amount {
      LookupIsSumFor(es, c);
      KeysAreFirstOccurrences(es);
      KeysLength(t);
      if c in Keys(t) {
        var i :| 0 <= i < |Keys(t)| && Keys(t)[i] == c;
        CategoryTotalsAt(es, i);
      } else {
        LookupAbsent(t, c);
      }
    }
    if amount > 0.0 {
      var k :| 0 <= k < |t| && t[k].1 == amount && category == Name(t[k].0)
               && forall j :: 0 <= j < k ==> t[j].1 < amount;
      KeysAreFirstOccurrences(es);
      KeysLength(t);
      CategoryTotalsAt(es, k);
    }
  }

  lemma {:induction false} LookupAbsent(t: Totals, c: Category)
    requires c !in Keys(t)
    ensures Lookup(t, c) == 0.0
  {
    if t != [] {
      LookupAbsent(t[1..], c);
    }
  }

  // ---------------------------------------------------------------------
  // The span of days

  /** `Math.min(...dates)`. */
  function MinDay(es: seq<Expense>): (d: int)
    requires es != []
    ensures forall i :: 0 <= i < |es| ==> d <= es[i].date
    ensures exists i :: 0 <= i < |es| && es[i].date == d
  {
    if |es| == 1 then es[0].date
    else
      var m := MinDay(es[1..]);
      if es[0].date < m then es[0].date else m
  }

  /** `Math.max(...dates)`. */
  function MaxDay(es: seq<Expense>): (d: int)
    requires es != []
    ensures forall i :: 0 <= i < |es| ==> es[i].date <= d
    ensures exists i :: 0 <= i < |es| && es[i].date == d
  {
    if |es| == 1 then es[0].date
    else
      var m := MaxDay(es[1..]);
      if es[0].date > m then es[0].date else m
  }

  /** `Math.ceil(a / b)` for a positive divisor: the least integer r with a <= r * b. */
  function CeilDiv(a: int, b: int): (r: int)
    requires b > 0
    ensures (r - 1) * b < a <= r * b
  {
    -((-a) / b)
  }

  /** `Math.max(1, Math.ceil((maxDate - minDate) / msPerDay) + 1)`, with the
      date difference taken in milliseconds. */
  function TotalDays(es: seq<Expense>): (r: int)
    requires es != []
    ensures r >= 1
  {
    var elapsedMs := (MaxDay(es) - MinDay(es)) * MsPerDay;
    var days := CeilDiv(elapsedMs, MsPerDay) + 1;
    if 1 < days then days else 1
  }

  /** The days from the earliest to the latest record, both included. */
  function Span(es: seq<Expense>): int
    requires es != []
  {
    MaxDay(es) - MinDay(es) + 1
  }

  /** For day-aligned dates the span counts both end days: latest - earliest + 1. */
  lemma TotalDaysIsInclusiveSpan(es: seq<Expense>)
    requires es != []
    ensures TotalDays(es) == Span(es)
  {
    var n := MaxDay(es) - MinDay(es);
    assert n >= 0 by {
      var i :| 0 <= i < |es| && es[i].date == MinDay(es);
    }
    var r := CeilDiv(n * MsPerDay, MsPerDay);
    assert (r - 1) * MsPerDay < n * MsPerDay <= r * MsPerDay;
    assert r == n;
  }

  // ---------------------------------------------------------------------
  // The summary

  /** What the panel shows for a non-empty record list. */
  ghost predicate Describes(s: Summary, es: seq<Expense>)
    requires es != []
  {
    && s.totalAmount == TotalAmount(es)
    && s.expenseCount == |es|
    && IsTop(CategoryTotals(es), s.highestCategory, s.highestAmount)
    && s.averageAmount == Average(s.totalAmount, |es|)
    && s.dailyAverage == Average(s.totalAmount, TotalDays(es))
    && s.weeklyAverage == PerPeriod(s.totalAmount, TotalDays(es), 7)
    && s.monthlyAverage == PerPeriod(s.totalAmount, TotalDays(es), 30)
  }

  /** The effect that recomputes the summary whenever the record list changes. */
  method Summarize(expenses: Option<seq<Expense>>) returns (s: Summary)
    ensures expenses.None? || expenses.value == [] ==> s == Zero
    ensures expenses.Some? && expenses.value != [] ==> Describes(s, expenses.value)
  {
    if expenses.None? || |expenses.value| == 0 {
      return Zero;
    }
    var es := expenses.value;
    var totalAmount := TotalAmount(es);
    var averageAmount := Average(totalAmount, |es|);
    var totalDays := TotalDays(es);
    var dailyAverage := Average(totalAmount, totalDays);
    var weeklyAverage := PerPeriod(totalAmount, totalDays, 7);
    var monthlyAverage := PerPeriod(totalAmount, totalDays, 30);
    var totals := TallyCategories(es);
    var highestCategory, highestAmount := TopCategory(totals);
    s := Summary(totalAmount, |es|, highestCategory, highestAmount,
                 averageAmount, dailyAverage, weeklyAverage, monthlyAverage);
  }

  /** `totalAmount / n`: the share of the total per unit, used both per
      transaction (`expenses.length`) and per day (`totalDays`). */
  function Average(total: real, n: int): (r: real)
    requires n > 0
    ensures r * n as real == total
  {
    total / n as real
  }

  /** `totalAmount / (totalDays / period)`: the rate over a period of the given
      number of days, which is that many daily averages. */
  function PerPeriod(total: real, days: int, period: nat): (r: real)
    requires days > 0 && period > 0
    ensures r == period as real * Average(total, days)
  {
    var d := days as real;
    var k := period as real;
    assert (d / k) * k == d;
    total / (d / k)
  }

  /** The averages of a summary: the per-transaction average times the count
      is the total, the daily average times the days from the earliest to the
      latest record (both included) is the total, and the weekly and monthly
      averages are 7 and 30 daily averages. */
  lemma SummaryAverages(es: seq<Expense>, s: Summary)
    requires es != [] && Describes(s, es)
    ensures s.averageAmount * s.expenseCount as real == s.totalAmount
    ensures s.dailyAverage * Span(es) as real == s.totalAmount
    ensures s.weeklyAverage == 7.0 * s.dailyAverage
    ensures s.monthlyAverage == 30.0 * s.dailyAverage
  {
    TotalDaysIsInclusiveSpan(es);
  }

  /** Two records, Food 100 on day 0 and Travel 50 on day 9: a total of 150 over
      ten days, Food on top, 75 per transaction, 15 a day, 105 a week and 450 a month. */
  lemma TwoRecordExample(s: Summary)
    requires Describes(s, [Expense(0, 0, "Lunch", 100.0, Food, 0, None),
                           Expense(1, 0, "Taxi", 50.0, Travel, 9, None)])
    ensures s.totalAmount == 150.0 && s.expenseCount == 2
    ensures s.highestCategory == "Food" && s.highestAmount == 100.0
    ensures s.averageAmount == 75.0
    ensures s.dailyAverage == 15.0 && s.weeklyAverage == 105.0 && s.monthlyAverage == 450.0
  {
    var food := Expense(0, 0, "Lunch", 100.0, Food, 0, None);
    var taxi := Expense(1, 0, "Taxi", 50.0, Travel, 9, None);
    var es := [food, taxi];
    assert es[..1] == [food] && [food][..0] == [];
    assert TotalAmount([food]) == 100.0;
    assert TotalAmount(es) == 150.0;
    assert CategoryTotals([food]) == [(Food, 100.0)];
    var first: Totals := [(Food, 100.0)];
    assert first[1..] == [];
    assert Accumulate(first, Travel, 50.0) == [(Food, 100.0)] + Accumulate([], Travel, 50.0);
    assert CategoryTotals(es) == [(Food, 100.0), (Travel, 50.0)];
    assert Span(es) == 10;
    TotalDaysIsInclusiveSpan(es);
    SummaryAverages(es, s);
    var t := CategoryTotals(es);
    assert t[0].1 <= s.highestAmount;
  }

  /** The category totals shown by the summary partition its total. */
  lemma SummaryPartition(es: seq<Expense>, s: Summary)
    requires es != [] && Describes(s, es)
    ensures Sum(Values(CategoryTotals(es))) == s.totalAmount
  {
    TotalsSumToTotal(es);
  }
}
