/** The savings-goal endpoints (backend/src/controllers/goalController.ts). A
    goal of another user is reported as missing (404). */
module GoalController {
  import opened Common
  import opened Calendar
  import opened Records
  import Seqs

  /** GET: the caller's goals, most recently created first. */
  function List(goals: seq<Goal>, caller: Id): (r: seq<Goal>)
    ensures forall g :: g in r <==> g in goals && g.userId == caller
    ensures Seqs.IsSubsequence(Seqs.Reverse(r), goals)
  {
    var owned := Seqs.Filter(goals, (g: Goal) => g.userId == caller);
    Seqs.ReverseInvolutive(owned);
    Seqs.Reverse(owned)
  }

  datatype CreateRequest = CreateRequest(
    title: Option<string>,
    targetAmount: Option<real>,
    currentAmount: Option<real>,
    deadline: Option<CalendarDate>)

  /** POST: 400 unless title and target amount are truthy; the saved amount
      defaults to 0 and the deadline to none. */
  function Create(goals: seq<Goal>, caller: Id, req: CreateRequest): (r: Result<(seq<Goal>, Goal)>)
    ensures r.Err? <==> !(TruthyString(req.title) && TruthyNumber(req.targetAmount))
    ensures r.Err? ==> r.error == MissingFields
    ensures r.Ok? ==> r.value.0 == goals + [r.value.1]
    ensures r.Ok? ==> forall x :: x in goals ==> x.id != r.value.1.id
    ensures r.Ok? ==> var g := r.value.1;
              g.userId == caller && Some(g.title) == req.title
              && Some(g.targetAmount) == req.targetAmount && g.targetAmount != 0.0
              && g.currentAmount == (if TruthyNumber(req.currentAmount) then req.currentAmount.value else 0.0)
              && g.deadline == req.deadline
  {
    if !(TruthyString(req.title) && TruthyNumber(req.targetAmount)) then Err(MissingFields)
    else
      var g := Goal(FreshId(goals, GoalId), caller, req.title.value, req.targetAmount.value,
                    if TruthyNumber(req.currentAmount) then req.currentAmount.value else 0.0,
                    req.deadline);
      Ok((goals + [g], g))
  }

  /** The body of an update request. `currentAmount` and `deadline` distinguish
      an absent field (`None`) from a given one; a given deadline may be null
      or empty (`Some(None)`), which clears it. */
  datatype UpdateRequest = UpdateRequest(
    title: Option<string>,
    targetAmount: Option<real>,
    currentAmount: Option<real>,
    deadline: Option<Option<CalendarDate>>)

  /** The merge the update writes: truthy title and target replace the stored
      ones, a present saved amount and a present deadline replace theirs. */
  function Merge(g: Goal, req: UpdateRequest): (r: Goal)
    ensures r.id == g.id && r.userId == g.userId
    ensures r.title == (if TruthyString(req.title) then req.title.value else g.title)
    ensures r.targetAmount == (if TruthyNumber(req.targetAmount) then req.targetAmount.value else g.targetAmount)
    ensures r.currentAmount == req.currentAmount.GetOr(g.currentAmount)
    ensures r.deadline == req.deadline.GetOr(g.deadline)
  {
    g.(title := if TruthyString(req.title) then req.title.value else g.title,
       targetAmount := if TruthyNumber(req.targetAmount) then req.targetAmount.value else g.targetAmount,
       currentAmount := req.currentAmount.GetOr(g.currentAmount),
       deadline := req.deadline.GetOr(g.deadline))
  }

  /** An update naming no field rewrites the goal with its own values. */
  lemma EmptyMergeIsIdentity(g: Goal)
    ensures Merge(g, UpdateRequest(None, None, None, None)) == g
  {
  }

  /** PUT /:id: 404 unless the caller owns the goal; otherwise the merge is written. */
  function Update(goals: seq<Goal>, caller: Id, id: Id, req: UpdateRequest): (r: Result<(seq<Goal>, Goal)>)
    ensures r.Err? <==> FindOwned(goals, GoalId, GoalOwner, id, caller).Err?
    ensures r.Err? ==> r.error == NotFound
    ensures r.Ok? ==> |r.value.0| == |goals|
    ensures r.Ok? ==> forall i :: 0 <= i < |goals| ==>
              r.value.0[i] == if goals[i].id == id then Merge(goals[i], req) else goals[i]
    ensures r.Ok? ==> r.value.1 == Merge(FindOwned(goals, GoalId, GoalOwner, id, caller).value, req)
                      && r.value.1 in r.value.0
  {
    match FindOwned(goals, GoalId, GoalOwner, id, caller)
    case Err(e) => Err(e)
    case Ok(g) =>
      var updated := UpdateWhere(goals, GoalId, id, x => Merge(x, req));
      var i :| 0 <= i < |goals| && goals[i] == g;
      assert updated[i] == Merge(g, req);
      Ok((updated, Merge(g, req)))
  }

  /** DELETE /:id: 404 unless the caller owns the goal; otherwise it is removed. */
  function Delete(goals: seq<Goal>, caller: Id, id: Id): (r: Result<seq<Goal>>)
    ensures r.Err? <==> FindOwned(goals, GoalId, GoalOwner, id, caller).Err?
    ensures r.Err? ==> r.error == NotFound
    ensures r.Ok? ==> forall x :: x in r.value <==> x in goals && x.id != id
    ensures r.Ok? ==> Seqs.IsSubsequence(r.value, goals)
  {
    match FindOwned(goals, GoalId, GoalOwner, id, caller)
    case Err(e) => Err(e)
    case Ok(_) => Ok(DeleteWhere(goals, GoalId, id))
  }

  function AddTo(amount: real): Goal -> Goal {
    (g: Goal) => g.(currentAmount := g.currentAmount + amount)
  }

  /** PATCH /:id/add-progress: 400 unless the amount is given and positive,
      checked before the goal is looked up; then 404 unless the caller owns the
      goal; otherwise the amount is added to the saved amount and nothing else
      changes. */
  function AddProgress(goals: seq<Goal>, caller: Id, id: Id, amount: Option<real>): (r: Result<(seq<Goal>, Goal)>)
    ensures !(amount.Some? && amount.value > 0.0) ==> r == Err(NonPositiveAmount)
    ensures amount.Some? && amount.value > 0.0 && FindOwned(goals, GoalId, GoalOwner, id, caller).Err?
            ==> r == Err(NotFound)
    ensures r.Ok? <==> amount.Some? && amount.value > 0.0 && FindOwned(goals, GoalId, GoalOwner, id, caller).Ok?
    ensures r.Ok? ==> var before := FindOwned(goals, GoalId, GoalOwner, id, caller).value;
              r.value.1 == before.(currentAmount := before.currentAmount + amount.value)
              && r.value.1.currentAmount > before.currentAmount
    ensures r.Ok? ==> |r.value.0| == |goals|
    ensures r.Ok? ==> forall i :: 0 <= i < |goals| ==>
              r.value.0[i] == if goals[i].id == id
                              then goals[i].(currentAmount := goals[i].currentAmount + amount.value)
                              else goals[i]
  {
    if !TruthyNumber(amount) || amount.value <= 0.0 then Err(NonPositiveAmount)
    else
      match FindOwned(goals, GoalId, GoalOwner, id, caller)
      case Err(e) => Err(e)
      case Ok(g) => Ok((UpdateWhere(goals, GoalId, id, AddTo(amount.value)), AddTo(amount.value)(g)))
  }

  /** Two contributions accumulate: the saved amount grows by their sum. */
  lemma ProgressAccumulates(goals: seq<Goal>, caller: Id, id: Id, a: real, b: real)
    requires a > 0.0 && b > 0.0
    ensures var first := AddProgress(goals, caller, id, Some(a));
            first.Ok? ==> var second := AddProgress(first.value.0, caller, id, Some(b));
                          second.Ok? && second.value.1.currentAmount
                                        == FindOwned(goals, GoalId, GoalOwner, id, caller).value.currentAmount + a + b
  {
    var first := AddProgress(goals, caller, id, Some(a));
    if first.Ok? {
      FindOwnedAfterUpdate(goals, id, AddTo(a), id, caller);
    }
  }

  /** An update that keeps ids and owners keeps the owned lookup, applied to the record. */
  lemma {:induction false} FindOwnedAfterUpdate(goals: seq<Goal>, id: Id, f: Goal -> Goal, target: Id, caller: Id)
    requires forall g :: f(g).id == g.id && f(g).userId == g.userId
    ensures var before := FindOwned(goals, GoalId, GoalOwner, target, caller);
            var after := FindOwned(UpdateWhere(goals, GoalId, id, f), GoalId, GoalOwner, target, caller);
            before.Ok? == after.Ok?
            && (before.Ok? ==> after.value == if before.value.id == id then f(before.value) else before.value)
  {
    if |goals| > 0 {
      var goals' := UpdateWhere(goals, GoalId, id, f);
      assert goals'[1..] == UpdateWhere(goals[1..], GoalId, id, f);
      FindOwnedAfterUpdate(goals[1..], id, f, target, caller);
    }
  }

  /** Every target amount is non-zero (the goal card divides by it). */
  predicate TargetsNonZero(goals: seq<Goal>) {
    forall i :: 0 <= i < |goals| ==> goals[i].targetAmount != 0.0
  }

  /** Create, update, delete and add-progress keep every target non-zero. */
  lemma WritesKeepTargetsNonZero(goals: seq<Goal>, caller: Id, id: Id, c: CreateRequest,
                                 u: UpdateRequest, amount: Option<real>)
    requires TargetsNonZero(goals)
    ensures var r := Create(goals, caller, c); r.Ok? ==> TargetsNonZero(r.value.0)
    ensures var r := Update(goals, caller, id, u); r.Ok? ==> TargetsNonZero(r.value.0)
    ensures var r := Delete(goals, caller, id); r.Ok? ==> TargetsNonZero(r.value)
    ensures var r := AddProgress(goals, caller, id, amount); r.Ok? ==> TargetsNonZero(r.value.0)
  {
    CreateKeepsTargetsNonZero(goals, caller, c);
    UpdateKeepsTargetsNonZero(goals, caller, id, u);
    DeleteKeepsTargetsNonZero(goals, caller, id);
    AddProgressKeepsTargetsNonZero(goals, caller, id, amount);
  }

  lemma CreateKeepsTargetsNonZero(goals: seq<Goal>, caller: Id, c: CreateRequest)
    requires TargetsNonZero(goals)
    ensures var r := Create(goals, caller, c); r.Ok? ==> TargetsNonZero(r.value.0)
  {
  }

  lemma UpdateKeepsTargetsNonZero(goals: seq<Goal>, caller: Id, id: Id, u: UpdateRequest)
    requires TargetsNonZero(goals)
    ensures var r := Update(goals, caller, id, u); r.Ok? ==> TargetsNonZero(r.value.0)
  {
  }

  lemma DeleteKeepsTargetsNonZero(goals: seq<Goal>, caller: Id, id: Id)
    requires TargetsNonZero(goals)
    ensures var r := Delete(goals, caller, id); r.Ok? ==> TargetsNonZero(r.value)
  {
    var d := Delete(goals, caller, id);
    if d.Ok? {
      forall i | 0 <= i < |d.value|
        ensures d.value[i].targetAmount != 0.0
      {
        assert d.value[i] in goals;
      }
    }
  }

  lemma AddProgressKeepsTargetsNonZero(goals: seq<Goal>, caller: Id, id: Id, amount: Option<real>)
    requires TargetsNonZero(goals)
    ensures var r := AddProgress(goals, caller, id, amount); r.Ok? ==> TargetsNonZero(r.value.0)
  {
  }
}
