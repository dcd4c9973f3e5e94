/** Shared entities of the expense tracker: the fixed category set and the
    expense record as stored by the backend and handed to the frontend. */
module Domain {

  datatype Option<+T> = None | Some(value: T)

  /** Identity of a user, as resolved from the caller's credential. */
  type UserId = nat

  /** Identity of a stored expense record (the document id). */
  type ExpenseId = nat

  /** The fixed set of categories offered by every category selector of the frontend. */
  datatype Category = Food | Travel | Shopping | Utilities | Entertainment | Health | Other

  /** The string under which a category is stored, sent and displayed. */
  function Name(c: Category): string
  {
    match c
    case Food => "Food"
    case Travel => "Travel"
    case Shopping => "Shopping"
    case Utilities => "Utilities"
    case Entertainment => "Entertainment"
    case Health => "Health"
    case Other => "Other"
  }

  /** Reads a category back from its name; the inverse of Name. */
  function Parse(s: string): (r: Option<Category>)
    ensures r.Some? ==> Name(r.value) == s
  {
    if s == "Food" then Some(Food)
    else if s == "Travel" then Some(Travel)
    else if s == "Shopping" then Some(Shopping)
    else if s == "Utilities" then Some(Utilities)
    else if s == "Entertainment" then Some(Entertainment)
    else if s == "Health" then Some(Health)
    else if s == "Other" then Some(Other)
    else None
  }

  /** Every category survives the trip through its name, so no two share a name. */
  lemma ParseName(c: Category)
    ensures Parse(Name(c)) == Some(c)
  {
  }

  lemma NameInjective(c: Category, d: Category)
    ensures Name(c) == Name(d) ==> c == d
  {
    ParseName(c);
    ParseName(d);
  }

  /** Comparing a record's category with a string by name is the same as
      reading the string back as a category and comparing categories. */
  lemma CategoryByParse(s: string, e: Expense)
    ensures Name(e.category) == s <==> Parse(s) == Some(e.category)
  {
    ParseName(e.category);
  }

  /** An expense record. Dates are day numbers; amounts are exact reals. */
  datatype Expense = Expense(
    id: ExpenseId,
    owner: UserId,
    title: string,
    amount: real,
    category: Category,
    date: int,
    note: Option<string>)

  /** The amounts of a record list, in order. */
  function Amounts(es: seq<Expense>): (r: seq<real>)
    ensures |r| == |es|
    ensures forall i :: 0 <= i < |es| ==> r[i] == es[i].amount
  {
    seq(|es|, i requires 0 <= i < |es| => es[i].amount)
  }

  /** Sum of a sequence of reals, head first. */
  function Sum(s: seq<real>): real
  {
    if s == [] then 0.0 else s[0] + Sum(s[1..])
  }

  /** `expenses.reduce((total, e) => total + amount, 0)`: a left fold over the records. */
  function TotalAmount(es: seq<Expense>): real
  {
    if es == [] then 0.0 else TotalAmount(es[..|es| - 1]) + es[|es| - 1].amount
  }

  lemma {:induction false} SumSnoc(s: seq<real>, x: real)
    ensures Sum(s + [x]) == Sum(s) + x
  {
    if s != [] {
      assert (s + [x])[1..] == s[1..] + [x];
      SumSnoc(s[1..], x);
    }
  }

  /** The left fold of the records agrees with the sum of their amounts. */
  lemma {:induction false} TotalIsSumOfAmounts(es: seq<Expense>)
    ensures TotalAmount(es) == Sum(Amounts(es))
  {
    if es != [] {
      var init := es[..|es| - 1];
      TotalIsSumOfAmounts(init);
      assert Amounts(es) == Amounts(init) + [es[|es| - 1].amount];
      SumSnoc(Amounts(init), es[|es| - 1].amount);
    }
  }
}
