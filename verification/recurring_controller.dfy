/** The recurring-transaction endpoints (backend/src/controllers/recurringTransactionController.ts).
    Each handler takes the series table and the authenticated caller and returns
    the response value (and the new table where the handler writes). */
module RecurringController {
  import opened Common
  import opened Calendar
  import opened Records
  import Seqs

  /** GET: the caller's series, most recently created first. */
  function List(store: seq<Series>, caller: Id): (r: seq<Series>)
    ensures forall s :: s in r <==> s in store && s.userId == caller
    ensures Seqs.IsSubsequence(Seqs.Reverse(r), store)
  {
    var owned := Seqs.Filter(store, (s: Series) => s.userId == caller);
    Seqs.ReverseInvolutive(owned);
    Seqs.Reverse(owned)
  }

  /** The body of a create request; absent fields are `None`. */
  datatype CreateRequest = CreateRequest(
    amount: Option<real>,
    kind: Option<string>,
    category: Option<string>,
    description: Option<string>,
    frequency: Option<string>,
    startDate: Option<CalendarDate>,
    endDate: Option<CalendarDate>)

  /** The required fields are all present and truthy. */
  predicate CompleteCreate(req: CreateRequest) {
    TruthyNumber(req.amount) && TruthyString(req.kind) && TruthyString(req.category)
    && TruthyString(req.frequency) && req.startDate.Some?
  }

  /** POST: 400 unless amount, type, category, frequency and start date are all
      given; otherwise an active, never-processed series of the caller with a
      fresh id is appended. */
  function Create(store: seq<Series>, caller: Id, req: CreateRequest): (r: Result<(seq<Series>, Series)>)
    ensures r.Err? <==> !CompleteCreate(req)
    ensures r.Err? ==> r.error == MissingFields
    ensures r.Ok? ==> r.value.0 == store + [r.value.1]
    ensures r.Ok? ==> forall x :: x in store ==> x.id != r.value.1.id
    ensures r.Ok? ==> var s := r.value.1;
              s.userId == caller && s.isActive && s.lastProcessed.None?
              && Some(s.amount) == req.amount && Some(s.kind) == req.kind
              && Some(s.category) == req.category && Some(s.frequency) == req.frequency
              && Some(s.startDate) == req.startDate && s.endDate == req.endDate
              && s.description == NullIfEmpty(req.description)
  {
    if !CompleteCreate(req) then Err(MissingFields)
    else
      var s := Series(FreshId(store, SeriesId), caller, req.amount.value, req.kind.value,
                      req.category.value, NullIfEmpty(req.description), req.frequency.value,
                      req.startDate.value, req.endDate, None, true);
      Ok((store + [s], s))
  }

  /** The body of an update request. `description` distinguishes an absent field
      (`None`) from an explicit `null` (`Some(None)`). */
  datatype UpdateRequest = UpdateRequest(
    amount: Option<real>,
    description: Option<Option<string>>,
    isActive: Option<bool>)

  /** The fields the update writes: each one given in the request, and nothing else. */
  function ApplyUpdate(s: Series, req: UpdateRequest): (r: Series)
    ensures r == s.(amount := r.amount, description := r.description, isActive := r.isActive)
    ensures r.amount == req.amount.GetOr(s.amount)
    ensures r.description == req.description.GetOr(s.description)
    ensures r.isActive == req.isActive.GetOr(s.isActive)
  {
    s.(amount := req.amount.GetOr(s.amount),
       description := req.description.GetOr(s.description),
       isActive := req.isActive.GetOr(s.isActive))
  }

  /** PUT /:id: 404 when the id is unknown, 403 when the series is another user's;
      otherwise only the given fields of that series change. */
  function Update(store: seq<Series>, caller: Id, id: Id, req: UpdateRequest): (r: Result<(seq<Series>, Series)>)
    ensures r.Err? <==> Authorize(store, SeriesId, SeriesOwner, id, caller).Err?
    ensures r.Err? ==> r.error == Authorize(store, SeriesId, SeriesOwner, id, caller).error
    ensures r.Ok? ==> |r.value.0| == |store|
    ensures r.Ok? ==> forall i :: 0 <= i < |store| ==>
              r.value.0[i] == if store[i].id == id then ApplyUpdate(store[i], req) else store[i]
    ensures r.Ok? ==> r.value.1.id == id && r.value.1.userId == caller
    ensures r.Ok? ==> r.value.1 == ApplyUpdate(Authorize(store, SeriesId, SeriesOwner, id, caller).value, req)
                      && r.value.1 in r.value.0
  {
    match Authorize(store, SeriesId, SeriesOwner, id, caller)
    case Err(e) => Err(e)
    case Ok(s) =>
      var updated := UpdateWhere(store, SeriesId, id, x => ApplyUpdate(x, req));
      var i :| 0 <= i < |store| && store[i] == s;
      assert updated[i] == ApplyUpdate(s, req);
      Ok((updated, ApplyUpdate(s, req)))
  }

  /** An update that names no field leaves the table as it was. */
  lemma {:induction false} EmptyUpdateIsIdentity(store: seq<Series>, caller: Id, id: Id)
    ensures var r := Update(store, caller, id, UpdateRequest(None, None, None));
            r.Ok? ==> r.value.0 == store
  {
    var r := Update(store, caller, id, UpdateRequest(None, None, None));
    if r.Ok? {
      assert forall i :: 0 <= i < |store| ==> r.value.0[i] == store[i];
    }
  }

  /** DELETE /:id: 404 / 403 as for update; otherwise the series is removed. */
  function Delete(store: seq<Series>, caller: Id, id: Id): (r: Result<seq<Series>>)
    ensures r.Err? <==> Authorize(store, SeriesId, SeriesOwner, id, caller).Err?
    ensures r.Err? ==> r.error == Authorize(store, SeriesId, SeriesOwner, id, caller).error
    ensures r.Ok? ==> forall x :: x in r.value <==> x in store && x.id != id
    ensures r.Ok? ==> Seqs.IsSubsequence(r.value, store)
  {
    match Authorize(store, SeriesId, SeriesOwner, id, caller)
    case Err(e) => Err(e)
    case Ok(_) => Ok(DeleteWhere(store, SeriesId, id))
  }

  /** With unique ids, deleting one's own series removes exactly one row, and
      deleting another user's series is refused with 403. */
  lemma DeleteRemovesOne(store: seq<Series>, caller: Id, k: nat)
    requires k < |store| && UniqueIds(store, SeriesId)
    ensures var r := Delete(store, caller, store[k].id);
            (store[k].userId == caller ==> r.Ok? && |r.value| == |store| - 1)
            && (store[k].userId != caller ==> r.Err? && r.error == Forbidden)
  {
    AuthorizeUnique(store, SeriesId, SeriesOwner, k, caller);
    DeleteOneRecord(store, SeriesId, k);
  }

  function Flip(s: Series): (r: Series)
    ensures r == s.(isActive := !s.isActive)
  {
    s.(isActive := !s.isActive)
  }

  /** PATCH /:id/toggle: 404 / 403 as for update; otherwise the series' active
      flag is negated and nothing else changes. */
  function Toggle(store: seq<Series>, caller: Id, id: Id): (r: Result<(seq<Series>, Series)>)
    ensures r.Err? <==> Authorize(store, SeriesId, SeriesOwner, id, caller).Err?
    ensures r.Err? ==> r.error == Authorize(store, SeriesId, SeriesOwner, id, caller).error
    ensures r.Ok? ==> |r.value.0| == |store|
    ensures r.Ok? ==> forall i :: 0 <= i < |store| ==>
              r.value.0[i] == if store[i].id == id then store[i].(isActive := !store[i].isActive) else store[i]
    ensures r.Ok? ==> var before := Authorize(store, SeriesId, SeriesOwner, id, caller).value;
              r.value.1 == before.(isActive := !before.isActive)
  {
    match Authorize(store, SeriesId, SeriesOwner, id, caller)
    case Err(e) => Err(e)
    case Ok(s) => Ok((UpdateWhere(store, SeriesId, id, Flip), Flip(s)))
  }

  /** Toggling the same series twice restores the table. */
  lemma ToggleTwiceRestores(store: seq<Series>, caller: Id, id: Id)
    ensures var first := Toggle(store, caller, id);
            first.Ok? ==> var second := Toggle(first.value.0, caller, id);
                          second.Ok? && second.value.0 == store
  {
    var first := Toggle(store, caller, id);
    if first.Ok? {
      AuthorizeAfterUpdate(store, SeriesId, SeriesOwner, id, Flip, id, caller);
      UpdateWhereTwice(store, SeriesId, id, Flip);
    }
  }
}
