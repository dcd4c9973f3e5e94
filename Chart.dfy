/** The category breakdown drawn by the chart component: a fold of the record
    list into per-category totals (in first-occurrence order), and the
    index-aligned labels, data and colour arrays derived from it. */
module Chart {
  import opened Domain

  /** A JavaScript object keyed by category, as an association list in key
      insertion order (the order Object.keys and Object.values report). */
  type Totals = seq<(Category, real)>

  /** `acc[c] = (acc[c] || 0) + a`: add to an existing key in place, or append a new key. */
  function Accumulate(acc: Totals, c: Category, a: real): Totals
  {
    if acc == [] then [(c, a)]
    else if acc[0].0 == c then [(c, acc[0].1 + a)] + acc[1..]
    else [acc[0]] + Accumulate(acc[1..], c, a)
  }

  /** `expenses.reduce(..., {})`: the totals after folding in every record, left to right. */
  function CategoryTotals(es: seq<Expense>): Totals
  {
    if es == [] then []
    else
      var last := es[|es| - 1];
      Accumulate(CategoryTotals(es[..|es| - 1]), last.category, last.amount)
  }

  /** `Object.keys`. */
  function Keys(t: Totals): seq<Category>
  {
    if t == [] then [] else [t[0].0] + Keys(t[1..])
  }

  /** `Object.values`. */
  function Values(t: Totals): seq<real>
  {
    if t == [] then [] else [t[0].1] + Values(t[1..])
  }

  /** `acc[c] || 0`: the value stored under c, or 0 when c is absent. */
  function Lookup(t: Totals, c: Category): real
  {
    if t == [] then 0.0 else if t[0].0 == c then t[0].1 else Lookup(t[1..], c)
  }

  // ---------------------------------------------------------------------
  // Reference definitions, independent of the fold

  /** The categories of the records, in input order. */
  function Categories(es: seq<Expense>): (r: seq<Category>)
    ensures |r| == |es|
    ensures forall i :: 0 <= i < |es| ==> r[i] == es[i].category
  {
    seq(|es|, i requires 0 <= i < |es| => es[i].category)
  }

  /** Each distinct element of s, at the position of its first occurrence. */
  function FirstOccurrences(s: seq<Category>): seq<Category>
  {
    if s == [] then []
    else
      var init := s[..|s| - 1];
      if s[|s| - 1] in init then FirstOccurrences(init) else FirstOccurrences(init) + [s[|s| - 1]]
  }

  /** The sum of the amounts of the records whose category is c. */
  function SumFor(es: seq<Expense>, c: Category): real
  {
    if es == [] then 0.0
    else
      var last := es[|es| - 1];
      SumFor(es[..|es| - 1], c) + (if last.category == c then last.amount else 0.0)
  }

  ghost predicate Distinct<T>(s: seq<T>)
  {
    forall i, j :: 0 <= i < j < |s| ==> s[i] != s[j]
  }

  // ---------------------------------------------------------------------
  // One step of the fold

  lemma {:induction false} KeysLength(t: Totals)
    ensures |Keys(t)| == |t| == |Values(t)|
    ensures forall i :: 0 <= i < |t| ==> Keys(t)[i] == t[i].0 && Values(t)[i] == t[i].1
  {
    if t != [] {
      KeysLength(t[1..]);
    }
  }

  lemma {:induction false} AccumulateKeys(acc: Totals, c: Category, a: real)
    ensures Keys(Accumulate(acc, c, a)) == if c in Keys(acc) then Keys(acc) else Keys(acc) + [c]
  {
    if acc != [] && acc[0].0 != c {
      AccumulateKeys(acc[1..], c, a);
    }
  }

  lemma {:induction false} AccumulateLookup(acc: Totals, c: Category, a: real, d: Category)
    ensures Lookup(Accumulate(acc, c, a), d) == Lookup(acc, d) + (if d == c then a else 0.0)
  {
    if acc != [] && acc[0].0 != c {
      AccumulateLookup(acc[1..], c, a, d);
    }
  }

  lemma {:induction false} AccumulateSum(acc: Totals, c: Category, a: real)
    ensures Sum(Values(Accumulate(acc, c, a))) == Sum(Values(acc)) + a
  {
    if acc != [] && acc[0].0 != c {
      AccumulateSum(acc[1..], c, a);
    }
  }

  // ---------------------------------------------------------------------
  // Properties of the fold

  lemma {:induction false} FirstOccurrencesMembers(s: seq<Category>)
    ensures forall x :: x in FirstOccurrences(s) <==> x in s
  {
    if s != [] {
      var init := s[..|s| - 1];
      FirstOccurrencesMembers(init);
      assert s == init + [s[|s| - 1]];
    }
  }

  /** The labels hold no category twice. */
  lemma {:induction false} FirstOccurrencesDistinct(s: seq<Category>)
    ensures Distinct(FirstOccurrences(s))
  {
    if s != [] {
      var init := s[..|s| - 1];
      FirstOccurrencesDistinct(init);
      FirstOccurrencesMembers(init);
    }
  }

  /** The keys of the fold are the categories of the input in first-occurrence order. */
  lemma {:induction false} KeysAreFirstOccurrences(es: seq<Expense>)
    ensures Keys(CategoryTotals(es)) == FirstOccurrences(Categories(es))
  {
    if es != [] {
      var init := es[..|es| - 1];
      var last := es[|es| - 1];
      KeysAreFirstOccurrences(init);
      AccumulateKeys(CategoryTotals(init), last.category, last.amount);
      FirstOccurrencesMembers(Categories(init));
      assert Categories(es)[..|es| - 1] == Categories(init);
    }
  }

  /** For each category, the folded total is the sum of that category's amounts. */
  lemma {:induction false} LookupIsSumFor(es: seq<Expense>, c: Category)
    ensures Lookup(CategoryTotals(es), c) == SumFor(es, c)
  {
    if es != [] {
      var init := es[..|es| - 1];
      var last := es[|es| - 1];
      LookupIsSumFor(init, c);
      AccumulateLookup(CategoryTotals(init), last.category, last.amount, c);
    }
  }

  /** The per-category totals partition the grand total. */
  lemma {:induction false} TotalsSumToTotal(es: seq<Expense>)
    ensures Sum(Values(CategoryTotals(es))) == TotalAmount(es)
  {
    if es != [] {
      var init := es[..|es| - 1];
      var last := es[|es| - 1];
      TotalsSumToTotal(init);
      AccumulateSum(CategoryTotals(init), last.category, last.amount);
    }
  }

  lemma {:induction false} LookupAt(t: Totals, i: nat)
    requires i < |t|
    requires Distinct(Keys(t))
    ensures Lookup(t, t[i].0) == t[i].1
  {
    KeysLength(t);
    if i > 0 {
      assert Keys(t)[0] != Keys(t)[i];
      KeysLength(t[1..]);
      assert Keys(t[1..]) == Keys(t)[1..];
      LookupAt(t[1..], i - 1);
    }
  }

  /** Entry i of the fold pairs the i-th first-seen category with the sum of its amounts. */
  lemma CategoryTotalsAt(es: seq<Expense>, i: nat)
    requires i < |FirstOccurrences(Categories(es))|
    ensures |CategoryTotals(es)| == |FirstOccurrences(Categories(es))|
    ensures CategoryTotals(es)[i].0 == FirstOccurrences(Categories(es))[i]
    ensures CategoryTotals(es)[i].1 == SumFor(es, CategoryTotals(es)[i].0)
  {
    var t := CategoryTotals(es);
    KeysLength(t);
    KeysAreFirstOccurrences(es);
    FirstOccurrencesDistinct(Categories(es));
    LookupAt(t, i);
    LookupIsSumFor(es, t[i].0);
  }

  // ---------------------------------------------------------------------
  // The chart data

  /** The chart palette; only as many colours as there are categories are used. */
  const Palette: seq<string> := [
    "rgba(255, 99, 132, 0.7)",
    "rgba(54, 162, 235, 0.7)",
    "rgba(255, 206, 86, 0.7)",
    "rgba(75, 192, 192, 0.7)",
    "rgba(153, 102, 255, 0.7)",
    "rgba(255, 159, 64, 0.7)",
    "rgba(199, 199, 199, 0.7)"
  ]

  datatype ChartData = ChartData(labels: seq<string>, data: seq<real>, backgroundColor: seq<string>)

  function Names(cs: seq<Category>): (r: seq<string>)
    ensures |r| == |cs|
    ensures forall i :: 0 <= i < |cs| ==> r[i] == Name(cs[i])
  {
    seq(|cs|, i requires 0 <= i < |cs| => Name(cs[i]))
  }

  /** `Array.prototype.slice(0, n)`: the first n elements, or all of them when there are fewer. */
  function Slice<T>(s: seq<T>, n: nat): (r: seq<T>)
    ensures |r| == if n < |s| then n else |s|
    ensures r == s[..|r|]
  {
    if n < |s| then s[..n] else s
  }

  /** The chart data, or None (no chart) for a missing or empty record list. */
  function BuildChart(expenses: Option<seq<Expense>>): (r: Option<ChartData>)
    ensures r.None? <==> expenses.None? || expenses.value == []
  {
    if expenses.Some? && |expenses.value| > 0 then
      var totals := CategoryTotals(expenses.value);
      var categories := Names(Keys(totals));
      Some(ChartData(categories, Values(totals), Slice(Palette, |categories|)))
    else
      None
  }

  lemma {:induction false} NamesDistinct(cs: seq<Category>)
    requires Distinct(cs)
    ensures Distinct(Names(cs))
  {
    forall i, j | 0 <= i < j < |cs| ensures Names(cs)[i] != Names(cs)[j] {
      NameInjective(cs[i], cs[j]);
    }
  }

  /** The chart of a non-empty record list: one label per distinct category of
      the input, in first-occurrence order, no label twice, data index-aligned
      with the labels and holding each category's total, all data summing to
      the grand total, and min(7, labels) colours. */
  lemma ChartIsBreakdown(es: seq<Expense>)
    requires es != []
    ensures BuildChart(Some(es)).Some?
    ensures var c := BuildChart(Some(es)).value;
      && c.labels == Names(FirstOccurrences(Categories(es)))
      && Distinct(c.labels)
      && (forall l :: l in c.labels <==> exists e :: e in es && Name(e.category) == l)
      && |c.data| == |c.labels|
      && (forall i :: 0 <= i < |c.data| ==> c.data[i] == SumFor(es, FirstOccurrences(Categories(es))[i]))
      && Sum(c.data) == TotalAmount(es)
      && |c.backgroundColor| == (if |c.labels| < 7 then |c.labels| else 7)
      && c.backgroundColor == Palette[..|c.backgroundColor|]
  {
    var t := CategoryTotals(es);
    var firsts := FirstOccurrences(Categories(es));
    var c := BuildChart(Some(es)).value;
    KeysLength(t);
    KeysAreFirstOccurrences(es);
    FirstOccurrencesDistinct(Categories(es));
    FirstOccurrencesMembers(Categories(es));
    NamesDistinct(firsts);
    forall i | 0 <= i < |c.data| ensures c.data[i] == SumFor(es, firsts[i]) {
      CategoryTotalsAt(es, i);
    }
    forall l ensures l in c.labels <==> exists e :: e in es && Name(e.category) == l {
      if l in c.labels {
        var i :| 0 <= i < |c.labels| && c.labels[i] == l;
        assert firsts[i] in Categories(es);
        var k :| 0 <= k < |es| && Categories(es)[k] == firsts[i];
        assert es[k] in es;
      }
      if exists e :: e in es && Name(e.category) == l {
        var e :| e in es && Name(e.category) == l;
        var k :| 0 <= k < |es| && es[k] == e;
        assert Categories(es)[k] == e.category;
        assert e.category in firsts;
        var i :| 0 <= i < |firsts| && firsts[i] == e.category;
        assert c.labels[i] == l;
      }
    }
    TotalsSumToTotal(es);
  }
}
