/** The expense controller of the backend: creating records for the caller,
    listing the caller's records under optional constraints (newest first),
    and updating or deleting a record only after it is found and owned by the
    caller. The document store behind it is a map from record id to record. */
module ExpenseStore {
  import opened Domain

  // ---------------------------------------------------------------------
  // Listing: the query string, the filter built from it, and what it admits

  /** The constraints of a listing request. A date or amount bound is None when
      its query parameter is absent or empty; `category` is None when absent. */
  datatype Query = Query(
    startDate: Option<int>,
    endDate: Option<int>,
    category: Option<string>,
    minAmount: Option<real>,
    maxAmount: Option<real>)

  /** A date condition `{ $gte, $lte }`; an absent operator imposes nothing. */
  datatype DayRange = DayRange(gte: Option<int>, lte: Option<int>)

  /** An amount condition `{ $gte, $lte }`. */
  datatype AmountRange = AmountRange(gte: Option<real>, lte: Option<real>)

  /** The filter document handed to the store: the owner is always present,
      every other field only when the query constrains it. */
  datatype Filter = Filter(
    user: UserId,
    date: Option<DayRange>,
    category: Option<string>,
    amount: Option<AmountRange>)

  predicate InDayRange(r: DayRange, d: int)
  {
    (r.gte.Some? ==> r.gte.value <= d) && (r.lte.Some? ==> d <= r.lte.value)
  }

  predicate InAmountRange(r: AmountRange, a: real)
  {
    (r.gte.Some? ==> r.gte.value <= a) && (r.lte.Some? ==> a <= r.lte.value)
  }

  /** How the store evaluates a filter document against a record: every field
      present in the filter must hold. */
  predicate Matches(f: Filter, e: Expense)
  {
    && e.owner == f.user
    && (f.date.Some? ==> InDayRange(f.date.value, e.date))
    && (f.category.Some? ==> Name(e.category) == f.category.value)
    && (f.amount.Some? ==> InAmountRange(f.amount.value, e.amount))
  }

  /** A category parameter constrains the listing unless it is absent, empty or "all". */
  predicate ConstrainsCategory(q: Query)
  {
    q.category.Some? && q.category.value != "" && q.category.value != "all"
  }

  /** The records a listing request admits, stated constraint by constraint:
      the caller's own records, each present bound inclusive and independent
      of the others, and the category compared by name. */
  predicate Admits(q: Query, caller: UserId, e: Expense)
  {
    && e.owner == caller
    && (q.startDate.Some? ==> q.startDate.value <= e.date)
    && (q.endDate.Some? ==> e.date <= q.endDate.value)
    && (ConstrainsCategory(q) ==> Name(e.category) == q.category.value)
    && (q.minAmount.Some? ==> q.minAmount.value <= e.amount)
    && (q.maxAmount.Some? ==> e.amount <= q.maxAmount.value)
  }

  /** Builds the filter document by successive conditional assignments: the
      owner first, then a date range from whichever bounds are given, then the
      category, then an amount range from whichever bounds are given. The
      filter admits exactly what the request asks for. */
  method BuildFilter(q: Query, caller: UserId) returns (f: Filter)
    ensures f.user == caller
    ensures forall e :: Matches(f, e) <==> Admits(q, caller, e)
  {
    f := Filter(caller, None, None, None);
    if q.startDate.Some? && q.endDate.Some? {
      f := f.(date := Some(DayRange(q.startDate, q.endDate)));
    } else if q.startDate.Some? {
      f := f.(date := Some(DayRange(q.startDate, None)));
    } else if q.endDate.Some? {
      f := f.(date := Some(DayRange(None, q.endDate)));
    }
    if q.category.Some? && q.category.value != "" && q.category.value != "all" {
      f := f.(category := q.category);
    }
    if q.minAmount.Some? || q.maxAmount.Some? {
      var amount := AmountRange(None, None);
      if q.minAmount.Some? {
        amount := amount.(gte := q.minAmount);
      }
      if q.maxAmount.Some? {
        amount := amount.(lte := q.maxAmount);
      }
      f := f.(amount := Some(amount));
    }
  }

  /** A category parameter of "all" lists the same records as no category parameter. */
  lemma AllIsNoCategory(q: Query, caller: UserId, e: Expense)
    requires q.category == Some("all")
    ensures Admits(q, caller, e) <==> Admits(q.(category := None), caller, e)
  {
  }

  /** Equal amount bounds list exactly the records of that amount. */
  lemma EqualAmountBounds(q: Query, caller: UserId, e: Expense, a: real)
    requires q.minAmount == Some(a) && q.maxAmount == Some(a)
    ensures Admits(q, caller, e) <==>
      Admits(q.(minAmount := None, maxAmount := None), caller, e) && e.amount == a
  {
  }

  // ---------------------------------------------------------------------
  // Ordering of a listing: newest first

  predicate NewestFirst(s: seq<Expense>)
  {
    forall i, j :: 0 <= i < j < |s| ==> s[i].date >= s[j].date
  }

  predicate DistinctIds(s: seq<Expense>)
  {
    forall i, j :: 0 <= i < j < |s| ==> s[i].id != s[j].id
  }

  /** Where a record of day d goes in a newest-first list: after every strictly newer record. */
  function InsertionPoint(s: seq<Expense>, d: int): (p: nat)
    ensures p <= |s|
    ensures forall i :: 0 <= i < p ==> s[i].date > d
    ensures p < |s| ==> s[p].date <= d
  {
    if s == [] || s[0].date <= d then 0 else 1 + InsertionPoint(s[1..], d)
  }

  /** Adds a record to a newest-first list, keeping it newest first. */
  function InsertByDate(s: seq<Expense>, e: Expense): (r: seq<Expense>)
    requires NewestFirst(s)
    ensures NewestFirst(r)
    ensures multiset(r) == multiset(s) + multiset{e}
    ensures exists p :: 0 <= p <= |s| && r == s[..p] + [e] + s[p..]
  {
    var p := InsertionPoint(s, e.date);
    InsertAtPoint(s, e, p);
    s[..p] + [e] + s[p..]
  }

  /** Placing e after every strictly newer record and before the rest keeps the order. */
  lemma InsertAtPoint(s: seq<Expense>, e: Expense, p: nat)
    requires NewestFirst(s) && p <= |s|
    requires forall i :: 0 <= i < p ==> s[i].date > e.date
    requires p < |s| ==> s[p].date <= e.date
    ensures NewestFirst(s[..p] + [e] + s[p..])
    ensures multiset(s[..p] + [e] + s[p..]) == multiset(s) + multiset{e}
  {
    var r := s[..p] + [e] + s[p..];
    assert |r| == |s| + 1;
    assert forall k :: 0 <= k < p ==> r[k] == s[k];
    assert r[p] == e;
    assert forall k :: p < k < |r| ==> r[k] == s[k - 1];
    forall i, j | 0 <= i < j < |r| ensures r[i].date >= r[j].date {
      var di := if i < p then s[i].date else if i == p then e.date else s[i - 1].date;
      var dj := if j < p then s[j].date else if j == p then e.date else s[j - 1].date;
      assert r[i].date == di && r[j].date == dj;
    }
    InsertMultiset(s, e, p);
  }

  lemma InsertMultiset(s: seq<Expense>, e: Expense, p: nat)
    requires p <= |s|
    ensures multiset(s[..p] + [e] + s[p..]) == multiset(s) + multiset{e}
  {
    assert s == s[..p] + s[p..];
  }

  lemma DistinctAfterInsert(s: seq<Expense>, e: Expense, p: nat)
    requires p <= |s| && DistinctIds(s)
    requires forall x :: x in s ==> x.id != e.id
    ensures DistinctIds(s[..p] + [e] + s[p..])
  {
    var r := s[..p] + [e] + s[p..];
    forall i, j | 0 <= i < j < |r| ensures r[i].id != r[j].id {
      if i < p && j < p {
        assert r[i] == s[i] && r[j] == s[j];
      } else if i < p && j == p {
        assert r[i] == s[i] && s[i] in s;
      } else if i < p {
        assert r[i] == s[i] && r[j] == s[j - 1];
      } else if i == p {
        assert r[j] == s[j - 1] && s[j - 1] in s;
      } else {
        assert r[i] == s[i - 1] && r[j] == s[j - 1];
      }
    }
  }

  /** Inserting a record whose id is new keeps a listing newest first and free
      of repeated ids, and adds exactly that record. */
  lemma InsertKeepsListing(s: seq<Expense>, e: Expense)
    requires NewestFirst(s) && DistinctIds(s)
    requires forall x :: x in s ==> x.id != e.id
    ensures var r := InsertByDate(s, e);
      && NewestFirst(r) && DistinctIds(r)
      && forall x :: x in r <==> x in s || x == e
  {
    var r := InsertByDate(s, e);
    var p :| 0 <= p <= |s| && r == s[..p] + [e] + s[p..];
    DistinctAfterInsert(s, e, p);
    assert forall x :: x in r <==> x in multiset(r);
  }

  // ---------------------------------------------------------------------
  // Create, update and delete

  /** The body of a create request. It may carry a `user` field of its own. */
  datatype NewExpense = NewExpense(
    title: string,
    amount: real,
    category: Category,
    date: int,
    note: Option<string>,
    user: Option<UserId>)

  /** The body of an update request: each present field replaces the stored one.
      A present `user` field is applied too. */
  datatype Patch = Patch(
    title: Option<string>,
    amount: Option<real>,
    category: Option<Category>,
    date: Option<int>,
    note: Option<string>,
    user: Option<UserId>)

  function Pick<T>(update: Option<T>, current: T): T
  {
    if update.Some? then update.value else current
  }

  /** The stored record after an update with the given body; the id never changes. */
  function Patched(e: Expense, p: Patch): (r: Expense)
    ensures r.id == e.id
    ensures p == Patch(None, None, None, None, None, None) ==> r == e
    ensures p.user.Some? ==> r.owner == p.user.value
    ensures p.user.None? ==> r.owner == e.owner
    ensures p.title.Some? ==> r.title == p.title.value
    ensures p.title.None? ==> r.title == e.title
    ensures p.amount.Some? ==> r.amount == p.amount.value
    ensures p.amount.None? ==> r.amount == e.amount
    ensures p.category.Some? ==> r.category == p.category.value
    ensures p.category.None? ==> r.category == e.category
    ensures p.date.Some? ==> r.date == p.date.value
    ensures p.date.None? ==> r.date == e.date
    ensures p.note.Some? ==> r.note == p.note
    ensures p.note.None? ==> r.note == e.note
  {
    Expense(e.id, Pick(p.user, e.owner), Pick(p.title, e.title), Pick(p.amount, e.amount),
            Pick(p.category, e.category), Pick(p.date, e.date),
            if p.note.Some? then p.note else e.note)
  }

  /** The failures an update or delete reports before touching the store. */
  datatype Failure = NotFound | NotAuthorized

  function Status(f: Failure): int
  {
    match f
    case NotFound => 404
    case NotAuthorized => 401
  }

  function Message(f: Failure): string
  {
    match f
    case NotFound => "Expense not found"
    case NotAuthorized => "User not authorized"
  }

  datatype Result<T> = Ok(value: T) | Err(failure: Failure)

  /** The guard in front of every update and delete: the record must exist, and
      must belong to the caller. */
  function Guard(records: map<ExpenseId, Expense>, id: ExpenseId, caller: UserId): (r: Option<Failure>)
    ensures r == Some(NotFound) <==> id !in records
    ensures r == Some(NotAuthorized) <==> id in records && records[id].owner != caller
    ensures r == None <==> id in records && records[id].owner == caller
  {
    if id !in records then Some(NotFound)
    else if records[id].owner != caller then Some(NotAuthorized)
    else None
  }

  // ---------------------------------------------------------------------
  // The store

  class Store {
    /** The stored records by id. */
    var records: map<ExpenseId, Expense>
    /** The id the store gives the next created record. */
    var nextId: ExpenseId

    /** Every record is stored under its own id, and ids already given out are below nextId. */
    ghost predicate Valid()
      reads this
    {
      forall k :: k in records ==> records[k].id == k && k < nextId
    }

    constructor ()
      ensures Valid() && records == map[]
    {
      records := map[];
      nextId := 0;
    }

    /** Creates a record from the body, owned by the caller whatever the body says. */
    method AddExpense(body: NewExpense, caller: UserId) returns (saved: Expense)
      requires Valid()
      modifies this
      ensures Valid()
      ensures saved.id !in old(records)
      ensures saved == Expense(saved.id, caller, body.title, body.amount, body.category, body.date, body.note)
      ensures records == old(records)[saved.id := saved]
    {
      saved := Expense(nextId, caller, body.title, body.amount, body.category, body.date, body.note);
      records := records[nextId := saved];
      nextId := nextId + 1;
    }

    /** Lists the caller's records that satisfy every constraint of the query,
        newest first, each once. */
    method GetExpenses(q: Query, caller: UserId) returns (result: seq<Expense>)
      requires Valid()
      ensures forall e :: e in result ==> e.owner == caller
      ensures forall e :: e in result ==> e.id in records && records[e.id] == e && Admits(q, caller, e)
      ensures forall k :: k in records && Admits(q, caller, records[k]) ==> records[k] in result
      ensures DistinctIds(result)
      ensures NewestFirst(result)
    {
      var filter := BuildFilter(q, caller);
      result := [];
      var pending := records.Keys;
      while pending != {}
        invariant pending <= records.Keys
        invariant forall e :: e in result ==> e.id in records && records[e.id] == e && e.id !in pending && Admits(q, caller, e)
        invariant forall k :: k in records && k !in pending && Admits(q, caller, records[k]) ==> records[k] in result
        invariant DistinctIds(result)
        invariant NewestFirst(result)
        decreases pending
      {
        var k :| k in pending;
        pending := pending - {k};
        var e := records[k];
        if Matches(filter, e) {
          InsertKeepsListing(result, e);
          result := InsertByDate(result, e);
        }
      }
    }

    /** Replaces the fields the body gives, after the guard has passed. */
    method UpdateExpense(id: ExpenseId, body: Patch, caller: UserId) returns (r: Result<Expense>)
      requires Valid()
      modifies this
      ensures Valid() && nextId == old(nextId)
      ensures Guard(old(records), id, caller) == Some(NotFound) ==> r == Err(NotFound)
      ensures Guard(old(records), id, caller) == Some(NotAuthorized) ==> r == Err(NotAuthorized)
      ensures r.Err? ==> records == old(records)
      ensures r.Ok? ==> Guard(old(records), id, caller) == None
      ensures r.Err? ==>
        (Status(r.failure), Message(r.failure)) ==
          (if id !in old(records) then (404, "Expense not found") else (401, "User not authorized"))
      ensures Guard(old(records), id, caller) == None ==>
        && r == Ok(Patched(old(records)[id], body))
        && records == old(records)[id := r.value]
    {
      var failure := Guard(records, id, caller);
      if failure.Some? {
        return Err(failure.value);
      }
      var updated := Patched(records[id], body);
      records := records[id := updated];
      r := Ok(updated);
    }

    /** Removes the record after the guard has passed, and reports its id. */
    method DeleteExpense(id: ExpenseId, caller: UserId) returns (r: Result<ExpenseId>)
      requires Valid()
      modifies this
      ensures Valid() && nextId == old(nextId)
      ensures Guard(old(records), id, caller) == Some(NotFound) ==> r == Err(NotFound)
      ensures Guard(old(records), id, caller) == Some(NotAuthorized) ==> r == Err(NotAuthorized)
      ensures r.Err? ==> records == old(records)
      ensures r.Err? ==>
        (Status(r.failure), Message(r.failure)) ==
          (if id !in old(records) then (404, "Expense not found") else (401, "User not authorized"))
      ensures Guard(old(records), id, caller) == None ==>
        && r == Ok(id)
        && records == old(records) - {id}
    {
      var failure := Guard(records, id, caller);
      if failure.Some? {
        return Err(failure.value);
      }
      records := records - {id};
      r := Ok(id);
    }
  }
}
