/** The transaction endpoints (backend/src/controllers/transactionController.ts).
    Unlike the other controllers, a record of another user is answered with 404,
    because the lookup filters on id and owner together. */
module TransactionController {
  import opened Common
  import opened Calendar
  import opened Records
  import Seqs

  /** The query string of the list endpoint; absent parameters are `None`. */
  datatype ListQuery = ListQuery(
    kind: Option<string>,
    category: Option<string>,
    startDate: Option<CalendarDate>,
    endDate: Option<CalendarDate>)

  /** The `where` clause: the caller's transactions, of the given type and
      category when those are non-empty, dated within the inclusive range. */
  predicate Matches(t: Transaction, caller: Id, q: ListQuery) {
    t.userId == caller
    && (TruthyString(q.kind) ==> t.kind == q.kind.value)
    && (TruthyString(q.category) ==> t.category == q.category.value)
    && (q.startDate.Some? ==> !Before(t.date, q.startDate.value))
    && (q.endDate.Some? ==> !IsAfter(t.date, q.endDate.value))
  }

  function MatchesQuery(caller: Id, q: ListQuery): Transaction -> bool {
    (t: Transaction) => Matches(t, caller, q)
  }

  function DateKey(t: Transaction): real {
    ToDays(t.date) as real
  }

  /** GET: the matching transactions, latest date first. */
  function List(store: seq<Transaction>, caller: Id, q: ListQuery): (r: seq<Transaction>)
    ensures forall t :: t in r <==> t in store && Matches(t, caller, q)
    ensures Seqs.SortedDesc(r, DateKey)
    ensures forall i, j :: 0 <= i < j < |r| ==> !Before(r[i].date, r[j].date)
    ensures multiset(r) == multiset(Seqs.Filter(store, MatchesQuery(caller, q)))
  {
    var matching := Seqs.Filter(store, MatchesQuery(caller, q));
    Seqs.SortDesc(matching, DateKey)
  }

  /** A transaction the query does not match leaves the list exactly as it was,
      wherever it is stored: in particular, other users' transactions never
      change what the caller sees. */
  lemma ListIgnoresNonMatching(store: seq<Transaction>, t: Transaction, caller: Id, q: ListQuery)
    requires !Matches(t, caller, q)
    ensures List(store + [t], caller, q) == List(store, caller, q)
  {
    Seqs.FilterSnoc(store, t, MatchesQuery(caller, q));
    assert Seqs.Filter(store, MatchesQuery(caller, q)) + [] == Seqs.Filter(store, MatchesQuery(caller, q));
  }

  /** A query with no parameters lists every transaction of the caller. */
  lemma EmptyQueryListsAll(store: seq<Transaction>, caller: Id)
    ensures forall t :: t in List(store, caller, ListQuery(None, None, None, None))
                        <==> t in store && t.userId == caller
  {
  }

  /** Adding a type filter to a query without one never adds a transaction to the list. */
  lemma NarrowingQueryShrinksList(store: seq<Transaction>, caller: Id, q: ListQuery, kind: string)
    requires kind != "" && !TruthyString(q.kind)
    ensures forall t :: t in List(store, caller, q.(kind := Some(kind))) ==> t in List(store, caller, q)
  {
  }

  /** GET /:id: the caller's transaction with that id, else 404. */
  function GetById(store: seq<Transaction>, caller: Id, id: Id): (r: Result<Transaction>)
    ensures r.Err? ==> r.error == NotFound
    ensures r.Err? <==> forall i :: 0 <= i < |store| ==> !(store[i].id == id && store[i].userId == caller)
    ensures r.Ok? ==> r.value in store && r.value.id == id && r.value.userId == caller
  {
    FindOwned(store, TransactionId, TransactionOwner, id, caller)
  }

  /** The body of a create request. */
  datatype CreateRequest = CreateRequest(
    amount: Option<real>,
    kind: Option<string>,
    category: Option<string>,
    description: Option<string>,
    date: Option<CalendarDate>)

  predicate ValidKind(kind: string) {
    kind == "income" || kind == "expense"
  }

  /** POST: 400 when amount, type or category is missing or falsy, 400 when the
      type is neither "income" nor "expense"; otherwise the caller's transaction
      is appended, dated `now` when no date is given. */
  function Create(store: seq<Transaction>, caller: Id, req: CreateRequest, now: CalendarDate)
    : (r: Result<(seq<Transaction>, Transaction)>)
    ensures !(TruthyNumber(req.amount) && TruthyString(req.kind) && TruthyString(req.category))
            ==> r == Err(MissingFields)
    ensures (TruthyNumber(req.amount) && TruthyString(req.kind) && TruthyString(req.category)
             && !ValidKind(req.kind.value)) ==> r == Err(InvalidType)
    ensures r.Ok? <==> TruthyNumber(req.amount) && TruthyString(req.category)
                       && req.kind.Some? && ValidKind(req.kind.value)
    ensures r.Ok? ==> r.value.0 == store + [r.value.1]
    ensures r.Ok? ==> forall x :: x in store ==> x.id != r.value.1.id
    ensures r.Ok? ==> var t := r.value.1;
              t.userId == caller && Some(t.amount) == req.amount && Some(t.kind) == req.kind
              && Some(t.category) == req.category && t.description == NullIfEmpty(req.description)
              && t.date == req.date.GetOr(now)
  {
    if !(TruthyNumber(req.amount) && TruthyString(req.kind) && TruthyString(req.category)) then
      Err(MissingFields)
    else if req.kind.value != "income" && req.kind.value != "expense" then
      Err(InvalidType)
    else
      var t := Transaction(FreshId(store, TransactionId), caller, req.amount.value, req.kind.value,
                           req.category.value, NullIfEmpty(req.description),
                           if req.date.Some? then req.date.value else now);
      Ok((store + [t], t))
  }

  /** The body of an update request. `description` distinguishes an absent field
      (`None`) from an explicit value, which may be `null` (`Some(None)`). */
  datatype UpdateRequest = UpdateRequest(
    amount: Option<real>,
    kind: Option<string>,
    category: Option<string>,
    description: Option<Option<string>>,
    date: Option<CalendarDate>)

  /** The spread of conditional fields: truthy amount, type, category and date
      replace the stored ones; a description that is present replaces it even
      when empty or null. */
  function ApplyUpdate(t: Transaction, req: UpdateRequest): (r: Transaction)
    ensures r.id == t.id && r.userId == t.userId
    ensures r.amount == (if TruthyNumber(req.amount) then req.amount.value else t.amount)
    ensures r.kind == (if TruthyString(req.kind) then req.kind.value else t.kind)
    ensures r.category == (if TruthyString(req.category) then req.category.value else t.category)
    ensures r.description == req.description.GetOr(t.description)
    ensures r.date == req.date.GetOr(t.date)
  {
    t.(amount := if TruthyNumber(req.amount) then req.amount.value else t.amount,
       kind := if TruthyString(req.kind) then req.kind.value else t.kind,
       category := if TruthyString(req.category) then req.category.value else t.category,
       description := req.description.GetOr(t.description),
       date := req.date.GetOr(t.date))
  }

  /** PUT /:id: 404 unless the caller owns a transaction with that id; then 400
      when a non-empty type other than income/expense is given; otherwise the
      given fields are written. */
  function Update(store: seq<Transaction>, caller: Id, id: Id, req: UpdateRequest)
    : (r: Result<(seq<Transaction>, Transaction)>)
    ensures GetById(store, caller, id).Err? ==> r == Err(NotFound)
    ensures GetById(store, caller, id).Ok? && TruthyString(req.kind) && !ValidKind(req.kind.value)
            ==> r == Err(InvalidType)
    ensures r.Ok? <==> GetById(store, caller, id).Ok? && !(TruthyString(req.kind) && !ValidKind(req.kind.value))
    ensures r.Ok? ==> |r.value.0| == |store|
    ensures r.Ok? ==> forall i :: 0 <= i < |store| ==>
              r.value.0[i] == if store[i].id == id then ApplyUpdate(store[i], req) else store[i]
    ensures r.Ok? ==> r.value.1 == ApplyUpdate(GetById(store, caller, id).value, req) && r.value.1 in r.value.0
  {
    match GetById(store, caller, id)
    case Err(e) => Err(e)
    case Ok(t) =>
      if TruthyString(req.kind) && req.kind.value != "income" && req.kind.value != "expense" then
        Err(InvalidType)
      else
        var updated := UpdateWhere(store, TransactionId, id, x => ApplyUpdate(x, req));
        var i :| 0 <= i < |store| && store[i] == t;
        assert updated[i] == ApplyUpdate(t, req);
        Ok((updated, ApplyUpdate(t, req)))
  }

  /** DELETE /:id: 404 unless the caller owns a transaction with that id;
      otherwise that transaction is removed and every other one kept in order. */
  function Delete(store: seq<Transaction>, caller: Id, id: Id): (r: Result<seq<Transaction>>)
    ensures r.Err? <==> GetById(store, caller, id).Err?
    ensures r.Err? ==> r.error == NotFound
    ensures r.Ok? ==> forall x :: x in r.value <==> x in store && x.id != id
    ensures r.Ok? ==> Seqs.IsSubsequence(r.value, store)
  {
    match GetById(store, caller, id)
    case Err(e) => Err(e)
    case Ok(_) => Ok(DeleteWhere(store, TransactionId, id))
  }

  /** Every stored transaction is an income or an expense. */
  predicate KindsValid(store: seq<Transaction>) {
    forall i :: 0 <= i < |store| ==> ValidKind(store[i].kind)
  }

  /** Create, update and delete keep every type valid. */
  lemma WritesKeepKindsValid(store: seq<Transaction>, caller: Id, id: Id,
                             c: CreateRequest, u: UpdateRequest, now: CalendarDate)
    requires KindsValid(store)
    ensures var r := Create(store, caller, c, now); r.Ok? ==> KindsValid(r.value.0)
    ensures var r := Update(store, caller, id, u); r.Ok? ==> KindsValid(r.value.0)
    ensures var r := Delete(store, caller, id); r.Ok? ==> KindsValid(r.value)
  {
    var d := Delete(store, caller, id);
    if d.Ok? {
      forall i | 0 <= i < |d.value|
        ensures ValidKind(d.value[i].kind)
      {
        assert d.value[i] in store;
      }
    }
  }

  /** Another user's transaction is invisible: reading, updating or deleting it
      answers 404, even when the update carries an invalid type. */
  lemma OthersTransactionsAreNotFound(store: seq<Transaction>, caller: Id, k: nat, u: UpdateRequest)
    requires k < |store| && UniqueIds(store, TransactionId) && store[k].userId != caller
    ensures GetById(store, caller, store[k].id) == Err(NotFound)
    ensures Update(store, caller, store[k].id, u) == Err(NotFound)
    ensures Delete(store, caller, store[k].id) == Err(NotFound)
  {
    var id := store[k].id;
    forall i | 0 <= i < |store|
      ensures !(store[i].id == id && store[i].userId == caller)
    {
      if i != k {
        assert TransactionId(store[i]) != TransactionId(store[k]);
      }
    }
  }
}
