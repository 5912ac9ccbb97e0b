/** The persisted entities of the finance tracker and the in-memory store
    operations the controllers perform on them. A table is a sequence of records
    in insertion order; the database's `findFirst`, `findUnique`, `update` and
    `delete` become the functions of this module. */
module Records {
  import opened Common
  import opened Calendar
  import Seqs

  /** A booked income or expense. `kind` is the free-form `type` string. */
  datatype Transaction = Transaction(
    id: Id,
    userId: Id,
    amount: real,
    kind: string,
    category: string,
    description: Option<string>,
    date: CalendarDate)

  /** The `data` of a `transaction.create` call: a transaction before the store
      has given it an id. */
  datatype NewTransaction = NewTransaction(
    userId: Id,
    amount: real,
    kind: string,
    category: string,
    description: Option<string>,
    date: CalendarDate)

  function WithId(t: NewTransaction, id: Id): (r: Transaction)
    ensures r.id == id && r.userId == t.userId && r.amount == t.amount && r.kind == t.kind
    ensures r.category == t.category && r.description == t.description && r.date == t.date
  {
    Transaction(id, t.userId, t.amount, t.kind, t.category, t.description, t.date)
  }

  /** A recurring-transaction series. `frequency` is the free-form tag
      ("daily", "weekly", "monthly", "yearly", or anything else). */
  datatype Series = Series(
    id: Id,
    userId: Id,
    amount: real,
    kind: string,
    category: string,
    description: Option<string>,
    frequency: string,
    startDate: CalendarDate,
    endDate: Option<CalendarDate>,
    lastProcessed: Option<CalendarDate>,
    isActive: bool)

  /** A spending limit for one category in one month ("YYYY-MM"). */
  datatype Budget = Budget(id: Id, userId: Id, category: string, limit: real, month: string)

  datatype Goal = Goal(
    id: Id,
    userId: Id,
    title: string,
    targetAmount: real,
    currentAmount: real,
    deadline: Option<CalendarDate>)

  datatype User = User(id: Id, email: string, name: Option<string>, googleId: Option<string>)

  function TransactionId(t: Transaction): Id { t.id }
  function TransactionOwner(t: Transaction): Id { t.userId }
  function SeriesId(s: Series): Id { s.id }
  function BudgetId(b: Budget): Id { b.id }
  function GoalId(g: Goal): Id { g.id }
  function UserId(u: User): Id { u.id }

  function SeriesOwner(s: Series): Id { s.userId }
  function BudgetOwner(b: Budget): Id { b.userId }
  function GoalOwner(g: Goal): Id { g.userId }

  /** `findFirst({ where })`: the first record satisfying `p`. */
  function FindFirst<R>(items: seq<R>, p: R -> bool): (r: Option<R>)
    ensures r.Some? ==> r.value in items && p(r.value)
    ensures r.None? <==> forall i :: 0 <= i < |items| ==> !p(items[i])
  {
    if |items| == 0 then None
    else if p(items[0]) then Some(items[0])
    else FindFirst(items[1..], p)
  }

  /** No two records share an id. */
  predicate UniqueIds<R>(items: seq<R>, idOf: R -> Id) {
    forall i, j :: 0 <= i < j < |items| ==> idOf(items[i]) != idOf(items[j])
  }

  /** One more than the largest id in use: an id no record has. */
  function FreshId<R>(items: seq<R>, idOf: R -> Id): (id: Id)
    ensures forall i :: 0 <= i < |items| ==> idOf(items[i]) < id
  {
    if |items| == 0 then 0
    else
      var rest := FreshId(items[1..], idOf);
      if idOf(items[0]) < rest then rest else idOf(items[0]) + 1
  }

  /** `update({ where: { id } })`: every record with that id becomes `f` of itself. */
  function UpdateWhere<R>(items: seq<R>, idOf: R -> Id, id: Id, f: R -> R): (r: seq<R>)
    ensures |r| == |items|
    ensures forall i :: 0 <= i < |items| ==> r[i] == if idOf(items[i]) == id then f(items[i]) else items[i]
  {
    if |items| == 0 then []
    else [if idOf(items[0]) == id then f(items[0]) else items[0]] + UpdateWhere(items[1..], idOf, id, f)
  }

  /** Applying an update that undoes itself and keeps ids twice restores the table. */
  lemma UpdateWhereTwice<R>(items: seq<R>, idOf: R -> Id, id: Id, f: R -> R)
    requires forall x :: idOf(f(x)) == idOf(x) && f(f(x)) == x
    ensures UpdateWhere(UpdateWhere(items, idOf, id, f), idOf, id, f) == items
  {
    var once := UpdateWhere(items, idOf, id, f);
    var twice := UpdateWhere(once, idOf, id, f);
    forall i | 0 <= i < |items| ensures twice[i] == items[i] {
      assert idOf(once[i]) == idOf(items[i]);
    }
  }

  /** `delete({ where: { id } })`: drops the records with that id and keeps the
      others in order. */
  function DeleteWhere<R(==,!new)>(items: seq<R>, idOf: R -> Id, id: Id): (r: seq<R>)
    ensures forall x :: x in r <==> x in items && idOf(x) != id
    ensures Seqs.IsSubsequence(r, items)
  {
    Seqs.Filter(items, x => idOf(x) != id)
  }

  /** Deleting a record that is present and whose id is unique shrinks the table by one. */
  lemma {:induction false} DeleteOneRecord<R(!new)>(items: seq<R>, idOf: R -> Id, k: nat)
    requires k < |items| && UniqueIds(items, idOf)
    ensures |DeleteWhere(items, idOf, idOf(items[k]))| == |items| - 1
  {
    var id := idOf(items[k]);
    if k == 0 {
      assert forall j :: 0 < j < |items| ==> idOf(items[j]) != id;
      KeepAllWhenAbsent(items[1..], idOf, id);
    } else {
      DeleteOneRecord(items[1..], idOf, k - 1);
    }
  }

  lemma {:induction false} KeepAllWhenAbsent<R(!new)>(items: seq<R>, idOf: R -> Id, id: Id)
    requires forall j :: 0 <= j < |items| ==> idOf(items[j]) != id
    ensures DeleteWhere(items, idOf, id) == items
  {
    if |items| > 0 {
      KeepAllWhenAbsent(items[1..], idOf, id);
    }
  }

  /** Appending a record with a fresh id keeps ids unique. */
  lemma AppendFreshKeepsUnique<R>(items: seq<R>, idOf: R -> Id, x: R)
    requires UniqueIds(items, idOf)
    requires idOf(x) == FreshId(items, idOf)
    ensures UniqueIds(items + [x], idOf)
  {
  }

  /** `findUnique({ where: { id } })` followed by the ownership check the
      controllers perform: 404 when no record has the id, 403 when the record
      belongs to another user, and otherwise the caller's record. */
  function Authorize<R>(items: seq<R>, idOf: R -> Id, ownerOf: R -> Id, id: Id, caller: Id): (r: Result<R>)
    ensures r.Err? ==> r.error == NotFound || r.error == Forbidden
    ensures (r.Err? && r.error == NotFound) <==> forall i :: 0 <= i < |items| ==> idOf(items[i]) != id
    ensures r.Ok? ==> r.value in items && idOf(r.value) == id && ownerOf(r.value) == caller
    ensures (r.Err? && r.error == Forbidden) ==> exists i :: 0 <= i < |items| && idOf(items[i]) == id && ownerOf(items[i]) != caller
  {
    match FindFirst(items, x => idOf(x) == id)
    case None => Err(NotFound)
    case Some(x) => if ownerOf(x) != caller then Err(Forbidden) else Ok(x)
  }

  /** `findFirst({ where: { id, userId } })` with 404 when nothing matches: a
      record of another user is reported as missing. */
  function FindOwned<R>(items: seq<R>, idOf: R -> Id, ownerOf: R -> Id, id: Id, caller: Id): (r: Result<R>)
    ensures r.Err? ==> r.error == NotFound
    ensures r.Err? <==> forall i :: 0 <= i < |items| ==> !(idOf(items[i]) == id && ownerOf(items[i]) == caller)
    ensures r.Ok? ==> r.value in items && idOf(r.value) == id && ownerOf(r.value) == caller
  {
    match FindFirst(items, x => idOf(x) == id && ownerOf(x) == caller)
    case None => Err(NotFound)
    case Some(x) => Ok(x)
  }

  /** With unique ids, the record `Authorize` returns is the one holding the id,
      and the caller is refused with 403 exactly when that record is someone else's. */
  lemma AuthorizeUnique<R>(items: seq<R>, idOf: R -> Id, ownerOf: R -> Id, k: nat, caller: Id)
    requires k < |items| && UniqueIds(items, idOf)
    ensures var r := Authorize(items, idOf, ownerOf, idOf(items[k]), caller);
            (r.Ok? <==> ownerOf(items[k]) == caller)
            && (r.Ok? ==> r.value == items[k])
            && (r.Err? ==> r.error == Forbidden)
  {
    var id := idOf(items[k]);
    var found := FindFirst(items, x => idOf(x) == id);
    assert found.Some?;
    var j :| 0 <= j < |items| && items[j] == found.value;
    assert j == k;
  }

  /** A store update that keeps every record's id and owner keeps every
      authorization decision. */
  lemma AuthorizeAfterUpdate<R>(items: seq<R>, idOf: R -> Id, ownerOf: R -> Id, id: Id, f: R -> R, target: Id, caller: Id)
    requires forall x :: idOf(f(x)) == idOf(x) && ownerOf(f(x)) == ownerOf(x)
    ensures var before := Authorize(items, idOf, ownerOf, target, caller);
            var after := Authorize(UpdateWhere(items, idOf, id, f), idOf, ownerOf, target, caller);
            (before.Err? ==> after.Err? && after.error == before.error)
            && (before.Ok? ==> after.Ok? && after.value == if idOf(before.value) == id then f(before.value) else before.value)
  {
    FindFirstAfterUpdate(items, idOf, id, f, target);
  }

  lemma {:induction false} FindFirstAfterUpdate<R>(items: seq<R>, idOf: R -> Id, id: Id, f: R -> R, target: Id)
    requires forall x :: idOf(f(x)) == idOf(x)
    ensures var b := FindFirst(items, x => idOf(x) == target);
            var a := FindFirst(UpdateWhere(items, idOf, id, f), x => idOf(x) == target);
            a.Some? == b.Some? && (b.Some? ==> a.value == if idOf(b.value) == id then f(b.value) else b.value)
  {
    if |items| > 0 {
      var items' := UpdateWhere(items, idOf, id, f);
      assert items'[1..] == UpdateWhere(items[1..], idOf, id, f);
      FindFirstAfterUpdate(items[1..], idOf, id, f, target);
    }
  }
}
