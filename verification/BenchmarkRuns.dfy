/** Benchmark runs: the store's compare-and-set transitions and transactional completion, and the calls
    that race over them: the job, cancellation, deletion and restart reconciliation. */
module BenchmarkRuns {
  import opened Common

  type RunID = nat
  type CallID = nat

  datatype Status = Queued | Running | Completed | Failed | Cancelled

  predicate Terminal(s: Status) { s.Completed? || s.Failed? || s.Cancelled? }

  predicate CanTransition(from: Status, to: Status) {
    match from
    case Queued => to.Running? || to.Failed? || to.Cancelled?
    case Running => to.Completed? || to.Failed? || to.Cancelled?
    case _ => false
  }

  // A parsed row; the store checks that its raw fields are JSON.
  datatype Parsed = Parsed(payload: nat, rawIsJSON: bool)

  datatype Result = Result(caseIndex: nat, payload: nat)

  datatype Run = Run(status: Status, startedAt: Option<int>, completedAt: Option<int>, results: seq<Result>)

  type Store = map<RunID, Run>

  datatype Outcome = Done | NotFound | Conflict | InvalidResult

  // ----- store operations ----------------------------------------------------------------------

  datatype Update = Update(startedAt: Option<int>, completedAt: Option<int>)

  function TransitionOutcome(store: Store, id: RunID, from: Status, to: Status): Outcome {
    if !CanTransition(from, to) then Conflict
    else if id !in store then NotFound
    else if store[id].status != from then Conflict
    else Done
  }

  function Transitioned(store: Store, id: RunID, from: Status, to: Status, update: Update): Store {
    if !TransitionOutcome(store, id, from, to).Done? then store
    else
      var run := store[id];
      store[id := run.(status := to,
                       startedAt := if update.startedAt.Some? then update.startedAt else run.startedAt,
                       completedAt := if update.completedAt.Some? then update.completedAt else run.completedAt)]
  }

  predicate AllJSON(results: seq<Parsed>) { forall i :: 0 <= i < |results| ==> results[i].rawIsJSON }

  function CompleteOutcome(store: Store, id: RunID, results: seq<Parsed>): Outcome {
    if id !in store then NotFound
    else if !store[id].status.Running? then Conflict
    else if !AllJSON(results) then InvalidResult
    else Done
  }

  function Indexed(results: seq<Parsed>): seq<Result> {
    seq(|results|, i requires 0 <= i < |results| => Result(i, results[i].payload))
  }

  function CompletedStore(store: Store, id: RunID, at: int, results: seq<Parsed>): Store {
    if !CompleteOutcome(store, id, results).Done? then store
    else store[id := store[id].(status := Completed, completedAt := Some(at),
        results := store[id].results + Indexed(results))]
  }

  const PageLimit: nat := 100

  predicate IsPage(store: Store, status: Status, page: seq<RunID>) {
    && |page| <= PageLimit
    && (forall i :: 0 <= i < |page| ==> page[i] in store && store[page[i]].status == status)
    && (forall i, j :: 0 <= i < j < |page| ==> page[i] != page[j])
    && (|page| == 0 ==> forall id :: id in store ==> store[id].status != status)
  }

  function WithStatus(store: Store, status: Status): set<RunID> { set id | id in store && store[id].status == status }

  // Where reconciliation sends an interrupted run.
  function Interrupted(status: Status): Status { if status.Queued? then Cancelled else Failed }

  // Every run of one status closed at this time.
  ghost predicate ClosedAll(store: Store, status: Status, now: int, after: Store) {
    && after.Keys == store.Keys
    && forall id :: id in store ==>
         if store[id].status != status then after[id] == store[id]
         else after[id] == store[id].(status := Interrupted(status), completedAt := Some(now))
  }

  class RunStore {
    var runs: Store

    constructor ()
      ensures runs == map[]
    {
      runs := map[];
    }

    method CreateRun(id: RunID) returns (ok: bool)
      modifies this
      ensures ok == (id !in old(runs))
      ensures runs == if ok then old(runs)[id := Run(Queued, None, None, [])] else old(runs)
    {
      if id in runs {
        return false;
      }
      runs := runs[id := Run(Queued, None, None, [])];
      ok := true;
    }

    method TransitionRun(id: RunID, from: Status, to: Status, update: Update) returns (outcome: Outcome)
      modifies this
      ensures outcome == TransitionOutcome(old(runs), id, from, to)
      ensures runs == Transitioned(old(runs), id, from, to, update)
    {
      if !CanTransition(from, to) {
        return Conflict;
      }
      if id in runs && runs[id].status == from {
        var run := runs[id];
        var startedAt := if update.startedAt.Some? then update.startedAt else run.startedAt;
        var completedAt := if update.completedAt.Some? then update.completedAt else run.completedAt;
        runs := runs[id := run.(status := to, startedAt := startedAt, completedAt := completedAt)];
        return Done;
      }
      outcome := if id in runs then Conflict else NotFound;
    }

    /** The status and all results change together, or nothing does. */
    method CompleteRun(id: RunID, at: int, results: seq<Parsed>) returns (outcome: Outcome)
      modifies this
      ensures outcome == CompleteOutcome(old(runs), id, results)
      ensures runs == CompletedStore(old(runs), id, at, results)
    {
      if id !in runs {
        return NotFound;
      }
      if !runs[id].status.Running? {
        return Conflict;
      }
      var run := runs[id].(status := Completed, completedAt := Some(at));
      ghost var before := run.results;
      assert before + Indexed(results)[..0] == before;
      for index := 0 to |results|
        invariant forall i :: 0 <= i < index ==> results[i].rawIsJSON
        invariant run == runs[id].(status := Completed, completedAt := Some(at),
            results := before + Indexed(results)[..index])
      {
        if !results[index].rawIsJSON {
          return InvalidResult;
        }
        run := run.(results := run.results + [Result(index, results[index].payload)]);
        assert Indexed(results)[..index + 1] == Indexed(results)[..index] + [Result(index, results[index].payload)];
      }
      assert Indexed(results)[..|results|] == Indexed(results);
      runs := runs[id := run];
      return Done;
    }

    method DeleteRun(id: RunID) returns (outcome: Outcome)
      modifies this
      ensures outcome == if id in old(runs) then Done else NotFound
      ensures runs == old(runs) - {id}
    {
      outcome := if id in runs then Done else NotFound;
      runs := runs - {id};
    }

    method ListRuns(status: Status) returns (page: seq<RunID>)
      ensures IsPage(runs, status, page)
    {
      page := [];
      var left := WithStatus(runs, status);
      while left != {} && |page| < PageLimit
        invariant left <= WithStatus(runs, status) && |page| <= PageLimit
        invariant forall i :: 0 <= i < |page| ==> page[i] in WithStatus(runs, status) && page[i] !in left
        invariant forall i, j :: 0 <= i < j < |page| ==> page[i] != page[j]
        invariant page == [] ==> left == WithStatus(runs, status)
        decreases |left|
      {
        var id :| id in left;
        page, left := page + [id], left - {id};
      }
      assert page == [] ==> forall id :: id in runs && runs[id].status == status ==> id in WithStatus(runs, status);
    }

    /** One status of the restart reconciliation, when nothing else writes: the page loop terminates
        and closes exactly the runs of that status. */
    method ReconcileStatus(status: Status, now: int)
      requires status.Running? || status.Queued?
      modifies this
      ensures ClosedAll(old(runs), status, now, runs)
    {
      hide WithStatus;
      ghost var before := runs;
      assert PartlyClosed(before, status, now, runs);
      hide ClosedAll;
      while true
        invariant PartlyClosed(before, status, now, runs)
        decreases |WithStatus(runs, status)|
      {
        var page := ListRuns(status);
        if |page| == 0 {
          AllClosed(before, status, now, runs);
          break;
        }
        ghost var start := runs;
        var transitioned := 0;
        for i := 0 to |page|
          invariant PartlyClosed(before, status, now, runs) && PartlyClosed(start, status, now, runs)
          invariant forall j :: i <= j < |page| ==> page[j] in runs && runs[page[j]] == start[page[j]]
          invariant forall j :: 0 <= j < i ==> page[j] in runs && runs[page[j]].status != status
          invariant transitioned == i
        {
          ghost var previous := runs;
          var outcome := TransitionRun(page[i], status, Interrupted(status), Update(None, Some(now)));
          if outcome.Done? {
            transitioned := transitioned + 1;
          }
          OneCloses(before, status, previous, page[i], now);
          OneCloses(start, status, previous, page[i], now);
        }
        FewerLeft(start, status, now, runs, page[0]);
        if transitioned == 0 {
          break;
        }
      }
    }

    /** After a restart's reconciliation no run is queued or running; finished runs are untouched. */
    method ReconcileInterrupted(now: int)
      modifies this
      ensures runs.Keys == old(runs).Keys
      ensures forall id :: id in runs ==> Terminal(runs[id].status)
      ensures forall id :: id in runs && Terminal(old(runs)[id].status) ==> runs[id] == old(runs)[id]
      ensures forall id :: id in runs && !Terminal(old(runs)[id].status) ==>
          && runs[id].status == (if old(runs)[id].status == Queued then Cancelled else Failed)
          && runs[id].completedAt == Some(now)
          && runs[id].startedAt == old(runs)[id].startedAt && runs[id].results == old(runs)[id].results
    {
      ReconcileStatus(Running, now);
      ReconcileStatus(Queued, now);
    }
  }

  ghost predicate PartlyClosed(store: Store, status: Status, now: int, after: Store) {
    && after.Keys == store.Keys
    && forall id :: id in store ==>
         after[id] == store[id] ||
         (store[id].status == status
          && after[id] == store[id].(status := Interrupted(status), completedAt := Some(now)))
  }

  lemma {:induction false} OneCloses(before: Store, status: Status, store: Store, id: RunID, now: int)
    requires PartlyClosed(before, status, now, store) && id in store && store[id].status == status
        && (status.Running? || status.Queued?)
    ensures PartlyClosed(before, status, now,
                         Transitioned(store, id, status, Interrupted(status), Update(None, Some(now))))
  {
  }

  lemma {:induction false} AllClosed(before: Store, status: Status, now: int, store: Store)
    requires PartlyClosed(before, status, now, store) && forall id :: id in store ==> store[id].status != status
    ensures ClosedAll(before, status, now, store)
  {
  }

  lemma {:induction false} FewerLeft(start: Store, status: Status, now: int, store: Store, id: RunID)
    requires PartlyClosed(start, status, now, store) && (status.Running? || status.Queued?)
    requires id in start && start[id].status == status && store[id].status != status
    ensures |WithStatus(store, status)| < |WithStatus(start, status)|
  {
    SubsetIsSmaller(WithStatus(store, status), WithStatus(start, status) - {id});
  }

  // ----- the protocol ------------------------------------------------------------------------------

  datatype JobPc =
    | NotActive                                  // created, its cancel function not yet registered
    | Start
    | WillCancel                                 // saw its context cancelled before execution
    | WillRun
    | Executing
    | Closing(to: Status, at: int)
    | Storing(results: seq<Parsed>, at: int)
    | Leaving

  datatype ReconcilePc =
    | Listing
    | Closing(page: seq<RunID>, transitioned: nat)

  datatype Call =
    | Job(id: RunID, pc: JobPc)
    | Cancel(id: RunID, seen: Option<Status>)
    | Delete(id: RunID, checked: bool)
    | Reconcile(status: Status, rpc: ReconcilePc)

  /** `history` records the statuses each run has ever had; `active` and `cancelled` are the runs with a
      registered cancel function and those whose context is cancelled. */
  datatype State = State(
    store: Store, calls: map<CallID, Call>, active: set<RunID>, cancelled: set<RunID>, history: map<RunID, seq<Status>>)

  predicate Init(s: State) {
    s.store == map[] && s.calls == map[] && s.active == {} && s.cancelled == {} && s.history == map[]
  }

  datatype Execution = Broke | Output(results: seq<Parsed>)

  // `now` is the clock of the step.
  datatype JobStep =
    | Activate
    | CheckContext
    | CloseUnrun(now: int)
    | BeginRunning(now: int)
    | Finish(result: Execution, now: int)
    | Close
    | StoreResults
    | RemoveActive

  datatype Action =
    | Create(c: CallID, id: RunID)
    | JobMoves(c: CallID, step: JobStep)
    | StartCancel(c: CallID, id: RunID)
    | CancelMoves(c: CallID, now: int)
    | StartDelete(c: CallID, id: RunID)
    | DeleteMoves(c: CallID)
    | StartReconcile(c: CallID)
    | ListPage(c: CallID, page: seq<RunID>)
    | CloseNext(c: CallID, now: int)
    | Crash                                      // the manager restarts: every call is gone

  predicate JobEnabled(pc: JobPc, step: JobStep) {
    match step
    case Activate => pc.NotActive?
    case CheckContext => pc.Start?
    case CloseUnrun(_) => pc.WillCancel?
    case BeginRunning(_) => pc.WillRun?
    case Finish(result, _) =>   // parsing rejects an empty result set
      pc.Executing? && (result.Output? ==> |result.results| > 0)
    case Close => pc.Closing?
    case StoreResults => pc.Storing?
    case RemoveActive => pc.Leaving?
  }

  predicate Enabled(s: State, a: Action) {
    match a
    case Create(c, id) => c !in s.calls && id !in s.history
    case JobMoves(c, step) => c in s.calls && s.calls[c].Job? && JobEnabled(s.calls[c].pc, step)
    case StartCancel(c, id) => c !in s.calls
    case CancelMoves(c, _) => c in s.calls && s.calls[c].Cancel?
    case StartDelete(c, id) => c !in s.calls
    case DeleteMoves(c) => c in s.calls && s.calls[c].Delete?
    case StartReconcile(c) => c !in s.calls
    case ListPage(c, page) => c in s.calls && s.calls[c].Reconcile? && s.calls[c].rpc.Listing?
        && IsPage(s.store, s.calls[c].status, page)
    case CloseNext(c, _) => c in s.calls && s.calls[c].Reconcile? && s.calls[c].rpc.Closing?
    case Crash => true
  }

  function StoreAfterJob(s: State, id: RunID, pc: JobPc, step: JobStep): Store
    requires JobEnabled(pc, step)
  {
    match step
    case CloseUnrun(now) => Transitioned(s.store, id, Queued, Cancelled, Update(None, Some(now)))
    case BeginRunning(now) => Transitioned(s.store, id, Queued, Running, Update(Some(now), None))
    case Close => Transitioned(s.store, id, Running, pc.to, Update(None, Some(pc.at)))
    case StoreResults => CompletedStore(s.store, id, pc.at, pc.results)
    case _ => s.store
  }

  function JobAfter(s: State, id: RunID, pc: JobPc, step: JobStep): JobPc
    requires JobEnabled(pc, step)
  {
    match step
    case Activate => Start
    case CheckContext => if id in s.cancelled then WillCancel else WillRun
    case CloseUnrun(_) => Leaving
    case BeginRunning(_) => if TransitionOutcome(s.store, id, Queued, Running).Done? then Executing else Leaving
    case Finish(result, now) =>
      if id in s.cancelled then JobPc.Closing(Cancelled, now)
      else if result.Broke? then JobPc.Closing(Failed, now)
      else Storing(result.results, now)
    case Close => Leaving
    case StoreResults => if CompleteOutcome(s.store, id, pc.results).Done? then Leaving
        else JobPc.Closing(Failed, pc.at)
    case RemoveActive => Leaving
  }

  // What the operation leaves of the call that made it.
  function CallsAfter(s: State, c: CallID, after: Option<Call>): map<CallID, Call> {
    if after.Some? then s.calls[c := after.value] else s.calls - {c}
  }

  function HistoryOf(history: map<RunID, seq<Status>>, id: RunID): seq<Status> {
    if id in history then history[id] else []
  }

  predicate Moved(store: Store, after: Store, id: RunID) {
    id in after && (id !in store || store[id].status != after[id].status)
  }

  function Recorded(history: map<RunID, seq<Status>>, store: Store, after: Store): map<RunID, seq<Status>> {
    map id | id in history.Keys + after.Keys :: if Moved(store, after, id)
        then HistoryOf(history, id) + [after[id].status] else HistoryOf(history, id)
  }

  function JobApply(s: State, c: CallID, step: JobStep): (State, Store)
    requires Enabled(s, JobMoves(c, step))
  {
    var Job(id, pc) := s.calls[c];
    var after := if step.RemoveActive? then None else Some(Job(id, JobAfter(s, id, pc, step)));
    (s.(calls := CallsAfter(s, c, after),
        active := if step.Activate? then s.active + {id} else if step.RemoveActive? then s.active - {id} else s.active),
     StoreAfterJob(s, id, pc, step))
  }

  function CancelApply(s: State, c: CallID, now: int): (State, Store)
    requires Enabled(s, CancelMoves(c, now))
  {
    var Cancel(id, seen) := s.calls[c];
    match seen
    case None =>
      if id !in s.store || Terminal(s.store[id].status) then (s.(calls := s.calls - {c}), s.store)
      else (s.(calls := s.calls[c := Cancel(id, Some(s.store[id].status))]), s.store)
    case Some(status) =>
      var gone := s.(calls := s.calls - {c});
      if id in s.active then (gone.(cancelled := s.cancelled + {id}), s.store)
      else (gone, Transitioned(s.store, id, status, Cancelled, Update(None, Some(now))))
  }

  function DeleteApply(s: State, c: CallID): (State, Store)
    requires Enabled(s, DeleteMoves(c))
  {
    var Delete(id, checked) := s.calls[c];
    if checked then (s.(calls := s.calls - {c}), s.store - {id})
    else if id in s.store && Terminal(s.store[id].status) then (s.(calls := s.calls[c := Delete(id, true)]), s.store)
    else (s.(calls := s.calls - {c}), s.store)
  }

  // The end of a status: queued runs follow the running ones.
  function NextStatus(status: Status): Option<Call> {
    if status.Running? then Some(Reconcile(Queued, Listing)) else None
  }

  function CloseApply(s: State, c: CallID, now: int): (State, Store)
    requires Enabled(s, CloseNext(c, now))
  {
    var Reconcile(status, Closing(page, transitioned)) := s.calls[c];
    if page == [] then
      (s.(calls := CallsAfter(s, c,
          if transitioned == 0 then NextStatus(status) else Some(Reconcile(status, Listing)))), s.store)
    else
      var outcome := TransitionOutcome(s.store, page[0], status, Interrupted(status));
      var rest := Reconcile(status,
          ReconcilePc.Closing(page[1..], if outcome.Done? then transitioned + 1 else transitioned));
      (s.(calls := CallsAfter(s, c, if outcome.NotFound? then None else Some(rest))),
       Transitioned(s.store, page[0], status, Interrupted(status), Update(None, Some(now))))
  }

  // The step's effect on everything but store and history, and the new store.
  function Effect(s: State, a: Action): (State, Store)
    requires Enabled(s, a)
  {
    match a
    case Create(c, id) => (s.(calls := s.calls[c := Job(id, NotActive)]), s.store[id := Run(Queued, None, None, [])])
    case JobMoves(c, step) => JobApply(s, c, step)
    case StartCancel(c, id) => (s.(calls := s.calls[c := Cancel(id, None)]), s.store)
    case CancelMoves(c, now) => CancelApply(s, c, now)
    case StartDelete(c, id) => (s.(calls := s.calls[c := Delete(id, false)]), s.store)
    case DeleteMoves(c) => DeleteApply(s, c)
    case StartReconcile(c) => (s.(calls := s.calls[c := Reconcile(Running, Listing)]), s.store)
    case ListPage(c, page) =>
      (s.(calls := CallsAfter(s, c,
          if page == [] then NextStatus(s.calls[c].status)
          else Some(Reconcile(s.calls[c].status, ReconcilePc.Closing(page, 0))))), s.store)
    case CloseNext(c, now) => CloseApply(s, c, now)
    case Crash => (s.(calls := map[], active := {}, cancelled := {}), s.store)
  }

  function Apply(s: State, a: Action): State
    requires Enabled(s, a)
  {
    var (moved, store) := Effect(s, a);
    moved.(store := store, history := Recorded(s.history, s.store, store))
  }

  ghost predicate IsRun(run: seq<State>, actions: seq<Action>) {
    && |run| == |actions| + 1
    && Init(run[0])
    && forall i :: 0 <= i < |actions| ==> Enabled(run[i], actions[i]) && run[i + 1] == Apply(run[i], actions[i])
  }

  // ----- invariant -----------------------------------------------------------------------------------

  predicate RunOK(run: Run) {
    && (run.completedAt.Some? <==> Terminal(run.status))
    && (run.startedAt.Some? ==> !run.status.Queued?)
    && (run.status.Running? || run.status.Completed? ==> run.startedAt.Some?)
    && (|run.results| > 0 <==> run.status.Completed?)
    && forall i :: 0 <= i < |run.results| ==> run.results[i].caseIndex == i
  }

  predicate IsPath(history: seq<Status>) {
    && |history| > 0 && history[0].Queued?
    && forall i :: 0 < i < |history| ==> CanTransition(history[i - 1], history[i])
  }

  ghost predicate StoreInv(store: Store, history: map<RunID, seq<Status>>) {
    && (forall id :: id in store ==>
        RunOK(store[id]) && id in history && |history[id]| > 0 && history[id][|history[id]| - 1] == store[id].status)
    && (forall id :: id in history ==> IsPath(history[id]))
  }

  predicate CallOK(store: Store, history: map<RunID, seq<Status>>, call: Call) {
    match call
    case Job(id, pc) =>
      && (pc.Closing? ==> pc.to.Failed? || pc.to.Cancelled?)
      && (pc.Storing? ==> |pc.results| > 0)
    case Cancel(id, seen) => seen.Some? ==> !Terminal(seen.value)
    case Delete(id, checked) => checked ==> id in history && (id in store ==> Terminal(store[id].status))
    case Reconcile(status, rpc) => status.Running? || status.Queued?
  }

  ghost predicate Inv(s: State) {
    StoreInv(s.store, s.history) && forall c :: c in s.calls ==> CallOK(s.store, s.history, s.calls[c])
  }

  // What any step may do to the store: create a queued run, move one along a legal transition,
  // or delete a finished one.
  ghost predicate Legal(store: Store, after: Store, history: map<RunID, seq<Status>>) {
    && (forall id :: id in after ==>
          if id in store then after[id] == store[id]
              || (CanTransition(store[id].status, after[id].status) && RunOK(after[id]))
          else id !in history && after[id] == Run(Queued, None, None, []))
    && forall id :: id in store && id !in after ==> Terminal(store[id].status)
  }

  lemma {:induction false} TransitionIsLegal(store: Store, history: map<RunID, seq<Status>>, id: RunID, from: Status,
        to: Status, update: Update)
    requires StoreInv(store, history) && !to.Completed?
    requires if to.Running? then update.startedAt.Some? && update.completedAt.None?
        else update.startedAt.None? && update.completedAt.Some?
    ensures Legal(store, Transitioned(store, id, from, to, update), history)
  {
  }

  lemma {:induction false} CompletionIsLegal(store: Store, history: map<RunID, seq<Status>>, id: RunID, at: int,
        results: seq<Parsed>)
    requires StoreInv(store, history) && |results| > 0
    ensures Legal(store, CompletedStore(store, id, at, results), history)
  {
    if CompleteOutcome(store, id, results).Done? {
      assert store[id].results + Indexed(results) == Indexed(results);
    }
  }

  lemma {:induction false} JobIsLegal(s: State, id: RunID, pc: JobPc, step: JobStep)
    requires StoreInv(s.store, s.history) && JobEnabled(pc, step) && CallOK(s.store, s.history, Job(id, pc))
    ensures Legal(s.store, StoreAfterJob(s, id, pc, step), s.history)
  {
    match step
    case CloseUnrun(now) => TransitionIsLegal(s.store, s.history, id, Queued, Cancelled, Update(None, Some(now)));
    case BeginRunning(now) => TransitionIsLegal(s.store, s.history, id, Queued, Running, Update(Some(now), None));
    case Close => TransitionIsLegal(s.store, s.history, id, Running, pc.to, Update(None, Some(pc.at)));
    case StoreResults => CompletionIsLegal(s.store, s.history, id, pc.at, pc.results);
    case _ =>
  }

  lemma {:induction false} EffectIsLegal(s: State, a: Action)
    requires Inv(s) && Enabled(s, a)
    ensures Legal(s.store, Effect(s, a).1, s.history)
  {
    match a
    case JobMoves(c, step) =>
      assert CallOK(s.store, s.history, s.calls[c]);
      var Job(id, pc) := s.calls[c];
      JobIsLegal(s, id, pc, step);
    case CancelMoves(c, now) =>
      if s.calls[c].seen.Some? {
        TransitionIsLegal(s.store, s.history, s.calls[c].id, s.calls[c].seen.value, Cancelled, Update(None, Some(now)));
      }
    case DeleteMoves(c) => assert CallOK(s.store, s.history, s.calls[c]);
    case CloseNext(c, now) =>
      assert CallOK(s.store, s.history, s.calls[c]);
      var Reconcile(status, Closing(page, transitioned)) := s.calls[c];
      if page != [] {
        TransitionIsLegal(s.store, s.history, page[0], status, Interrupted(status), Update(None, Some(now)));
      }
    case _ =>
  }

  lemma {:induction false} PathSnoc(path: seq<Status>, status: Status)
    requires if path == [] then status.Queued? else IsPath(path) && CanTransition(path[|path| - 1], status)
    ensures IsPath(path + [status])
  {
  }

  lemma {:induction false} RecordedPath(store: Store, after: Store, history: map<RunID, seq<Status>>, id: RunID)
    requires StoreInv(store, history) && Legal(store, after, history) && (id in history || id in after)
    ensures var path := Recorded(history, store, after)[id];
      && IsPath(path) && |path| > 0
      && (id in after ==> path[|path| - 1] == after[id].status && RunOK(after[id]))
  {
    assert id in history ==> IsPath(history[id]);
    hide IsPath, RunOK;
    assert id in store ==> id in history;
    if Moved(store, after, id) {
      PathSnoc(HistoryOf(history, id), after[id].status);
      if id !in store {
        FreshRunOK();
      }
    }
  }

  lemma {:induction false} FreshRunOK()
    ensures RunOK(Run(Queued, None, None, []))
  {
  }

  // The path of a run, and the run at its end.
  ghost predicate PathOK(after: Store, history: map<RunID, seq<Status>>, id: RunID)
    requires id in history
  {
    && IsPath(history[id]) && |history[id]| > 0
    && (id in after ==> history[id][|history[id]| - 1] == after[id].status && RunOK(after[id]))
  }

  lemma {:induction false} LegalPaths(store: Store, after: Store, history: map<RunID, seq<Status>>)
    requires StoreInv(store, history) && Legal(store, after, history)
    ensures forall id :: id in Recorded(history, store, after) ==> PathOK(after, Recorded(history, store, after), id)
  {
    hide RunOK, Legal, Moved, CanTransition, IsPath, StoreInv;
    forall id | id in Recorded(history, store, after)
      ensures PathOK(after, Recorded(history, store, after), id)
    {
      RecordedPath(store, after, history, id);
    }
  }

  lemma {:induction false} LegalKeepsStore(store: Store, after: Store, history: map<RunID, seq<Status>>)
    requires StoreInv(store, history) && Legal(store, after, history)
    ensures StoreInv(after, Recorded(history, store, after))
    ensures forall id :: id in history ==> id in Recorded(history, store, after)
  {
    LegalPaths(store, after, history);
    var recorded := Recorded(history, store, after);
    assert recorded.Keys == history.Keys + after.Keys;
    hide RunOK, Legal, Moved, CanTransition, IsPath, Recorded;
  }

  lemma {:induction false} LegalKeepsCall(store: Store, after: Store, history: map<RunID, seq<Status>>, call: Call)
    requires StoreInv(store, history) && Legal(store, after, history) && CallOK(store, history, call)
    ensures CallOK(after, Recorded(history, store, after), call)
  {
  }

  // The calls whose record a step changes.
  lemma {:induction false} MovedCallsOK(s: State, a: Action, c: CallID)
    requires Inv(s) && Enabled(s, a) && c in Effect(s, a).0.calls
    requires c !in s.calls || Effect(s, a).0.calls[c] != s.calls[c]
    ensures CallOK(s.store, s.history, Effect(s, a).0.calls[c])
  {
    if c in s.calls {
      assert CallOK(s.store, s.history, s.calls[c]);
    }
  }

  lemma {:induction false} StepPreserves(s: State, a: Action)
    requires Inv(s) && Enabled(s, a)
    ensures Inv(Apply(s, a))
  {
    EffectIsLegal(s, a);
    var after := Effect(s, a).1;
    LegalKeepsStore(s.store, after, s.history);
    var calls := Effect(s, a).0.calls;
    forall c | c in calls
      ensures CallOK(after, Recorded(s.history, s.store, after), calls[c])
    {
      if c !in s.calls || calls[c] != s.calls[c] {
        MovedCallsOK(s, a, c);
      }
      LegalKeepsCall(s.store, after, s.history, calls[c]);
    }
    hide StoreInv, CallOK, Effect, Recorded;
  }

  lemma {:induction false} RunInv(run: seq<State>, actions: seq<Action>, i: nat)
    requires IsRun(run, actions) && i < |run|
    ensures Inv(run[i])
  {
    if i > 0 {
      RunInv(run, actions, i - 1);
      StepPreserves(run[i - 1], actions[i - 1]);
    }
  }

  // ----- what holds over every run ---------------------------------------------------------------------

  /** In every reachable state: a run's completion time is set exactly when it is finished, it has results
      exactly when it is completed, indexed from zero and at least one, and it has started if it is running. */
  lemma {:induction false} StoredRunsAreConsistent(run: seq<State>, actions: seq<Action>, i: nat, id: RunID)
    requires IsRun(run, actions) && i < |run| && id in run[i].store
    ensures var r := run[i].store[id];
      && (r.completedAt.Some? <==> Terminal(r.status))
      && (|r.results| >= 1 <==> r.status.Completed?)
      && (forall k :: 0 <= k < |r.results| ==> r.results[k].caseIndex == k)
      && (r.status.Running? || r.status.Completed? ==> r.startedAt.Some?)
  {
    RunInv(run, actions, i);
    assert RunOK(run[i].store[id]);
  }

  /** A run's recorded history only ever grows at its end. */
  lemma {:induction false} HistoryGrows(run: seq<State>, actions: seq<Action>, i: nat, id: RunID)
    requires IsRun(run, actions) && i < |actions| && id in run[i].history
    ensures id in run[i + 1].history && run[i].history[id] <= run[i + 1].history[id]
        && |run[i + 1].history[id]| <= |run[i].history[id]| + 1
  {
    RunInv(run, actions, i);
    EffectIsLegal(run[i], actions[i]);
    assert run[i + 1] == Apply(run[i], actions[i]);
    hide Effect, Legal, StoreInv;
  }

  /** The statuses a run has had, from its creation on, are a path of legal transitions that ends in its
      present status; and a finished status is the end of the path. */
  lemma {:induction false} HistoryIsAPath(run: seq<State>, actions: seq<Action>, i: nat, id: RunID)
    requires IsRun(run, actions) && i < |run| && id in run[i].history
    ensures IsPath(run[i].history[id])
    ensures id in run[i].store ==> run[i].history[id][|run[i].history[id]| - 1] == run[i].store[id].status
    ensures forall k :: 0 <= k < |run[i].history[id]| - 1 ==> !Terminal(run[i].history[id][k])
    ensures var path := run[i].history[id];
      && path[0] == Queued && |path| <= 3
      && (|path| >= 2 ==> path[1] in {Running, Failed, Cancelled})
      && (|path| == 3 ==> path[1] == Running && path[2] in {Completed, Failed, Cancelled})
  {
    RunInv(run, actions, i);
    var path := run[i].history[id];
    assert IsPath(path);
    forall k | 0 <= k < |path| - 1
      ensures !Terminal(path[k])
    {
      assert CanTransition(path[k + 1 - 1], path[k + 1]);
    }
    assert |path| > 1 ==> CanTransition(path[0], path[1]);
    assert |path| > 2 ==> CanTransition(path[1], path[2]);
  }

  /** A finished run never changes again: its status, times and results stay until it is deleted, and
      its id is never used again. */
  lemma {:induction false} FinishedRunsStay(run: seq<State>, actions: seq<Action>, i: nat, j: nat, id: RunID)
    requires IsRun(run, actions) && i <= j < |run| && id in run[i].store && Terminal(run[i].store[id].status)
    ensures id in run[j].store ==> run[j].store[id] == run[i].store[id]
    ensures id in run[j].history
    decreases j
  {
    hide Inv, Apply, Enabled, Init;
    if i < j {
      FinishedRunsStay(run, actions, i, j - 1, id);
      RunInv(run, actions, j - 1);
      FinishedStep(run[j - 1], actions[j - 1], id);
    } else {
      RunInv(run, actions, i);
      StoredIsRecorded(run[i], id);
    }
  }

  lemma {:induction false} StoredIsRecorded(s: State, id: RunID)
    requires Inv(s) && id in s.store
    ensures id in s.history
  {
  }

  lemma {:induction false} FinishedStep(s: State, a: Action, id: RunID)
    requires Inv(s) && Enabled(s, a) && id in s.history && (id in s.store ==> Terminal(s.store[id].status))
    ensures var after := Apply(s, a);
      id in after.history && (id in after.store ==> id in s.store && after.store[id] == s.store[id])
  {
    EffectIsLegal(s, a);
    LegalKeepsStore(s.store, Effect(s, a).1, s.history);
    hide Effect, StoreInv, Recorded, RunOK, Enabled;
  }

  // ----- how long reconciliation takes ------------------------------------------------------------------

  // The run that a step of reconciliation closes, if any.
  function ClosedRun(s: State, a: Action): set<RunID> {
    if a.CloseNext? && Enabled(s, a) then
      var Reconcile(status, Closing(page, _)) := s.calls[a.c];
      if page != [] && TransitionOutcome(s.store, page[0], status, Interrupted(status)).Done? then {page[0]} else {}
    else {}
  }

  /** No run is closed twice, whatever else is going on. */
  lemma {:induction false} ClosedAtMostOnce(run: seq<State>, actions: seq<Action>, i: nat, j: nat, id: RunID)
    requires IsRun(run, actions) && i < j < |actions| && id in ClosedRun(run[i], actions[i])
    ensures id !in ClosedRun(run[j], actions[j])
  {
    RunInv(run, actions, i);
    assert run[i + 1] == Apply(run[i], actions[i]);
    ClosedIsFinished(run[i], actions[i], id);
    hide Inv, Apply, ClosedRun;
    FinishedRunsStay(run, actions, i + 1, j, id);
    RunInv(run, actions, j);
    if id in ClosedRun(run[j], actions[j]) {
      ClosedIsFinished(run[j], actions[j], id);
    }
  }

  lemma {:induction false} ClosedIsFinished(s: State, a: Action, id: RunID)
    requires Inv(s) && Enabled(s, a) && id in ClosedRun(s, a)
    ensures id in s.store && !Terminal(s.store[id].status)
    ensures id in Apply(s, a).store && Terminal(Apply(s, a).store[id].status) && id in Apply(s, a).history
  {
    assert CallOK(s.store, s.history, s.calls[a.c]);
  }

  /** Reconciliation closes queued runs as cancelled and running ones as failed. */
  lemma {:induction false} ClosedRunsEnd(run: seq<State>, actions: seq<Action>, i: nat, id: RunID)
    requires IsRun(run, actions) && i < |actions| && id in ClosedRun(run[i], actions[i])
    ensures id in run[i].store && id in run[i + 1].store
    ensures var before, after := run[i].store[id], run[i + 1].store[id];
      && (before.status == Queued || before.status == Running)
      && after == before.(status := if before.status == Queued then Cancelled else Failed,
                          completedAt := Some(actions[i].now))
  {
    RunInv(run, actions, i);
    assert run[i + 1] == Apply(run[i], actions[i]);
    assert CallOK(run[i].store, run[i].history, run[i].calls[actions[i].c]);
    hide Recorded, StoreInv;
  }

  // The runs closed, and the closing steps made, from position i to position j.
  ghost function ClosedRuns(run: seq<State>, actions: seq<Action>, i: nat, j: nat): set<RunID>
    requires i <= j <= |actions| < |run|
  {
    if i == j then {} else ClosedRuns(run, actions, i, j - 1) + ClosedRun(run[j - 1], actions[j - 1])
  }

  ghost function Closings(run: seq<State>, actions: seq<Action>, i: nat, j: nat): nat
    requires i <= j <= |actions| < |run|
  {
    if i == j then 0 else Closings(run, actions, i, j - 1) + |ClosedRun(run[j - 1], actions[j - 1])|
  }

  /** Reconciliation closes no more runs than were ever created. */
  lemma {:induction false} ClosingsAreBounded(run: seq<State>, actions: seq<Action>, i: nat, j: nat)
    requires IsRun(run, actions) && i <= j <= |actions|
    ensures Closings(run, actions, i, j) == |ClosedRuns(run, actions, i, j)| <= |run[j].history|
    ensures forall id :: id in ClosedRuns(run, actions, i, j) ==>
        id in run[j].history && (id in run[j].store ==> Terminal(run[j].store[id].status))
    decreases j
  {
    hide Inv, Apply, Enabled, Init, ClosedRun;
    if i < j {
      var s, a, after := run[j - 1], actions[j - 1], run[j];
      ClosingsAreBounded(run, actions, i, j - 1);
      RunInv(run, actions, j - 1);
      forall id | id in ClosedRuns(run, actions, i, j - 1)
        ensures id in after.history && (id in after.store ==> Terminal(after.store[id].status))
            && id !in ClosedRun(s, a)
      {
        FinishedStep(s, a, id);
        if id in ClosedRun(s, a) {
          ClosedIsFinished(s, a, id);
        }
      }
      forall id | id in ClosedRun(s, a)
        ensures id in after.history && (id in after.store ==> Terminal(after.store[id].status))
      {
        ClosedIsFinished(s, a, id);
      }
    }
    assert ClosedRuns(run, actions, i, j) <= run[j].history.Keys;
    SubsetIsSmaller(ClosedRuns(run, actions, i, j), run[j].history.Keys);
  }

  predicate StepOf(a: Action, c: CallID) { (a.ListPage? || a.CloseNext?) && a.c == c }

  predicate EndsRound(s: State, a: Action, c: CallID) {
    a.CloseNext? && a.c == c && Enabled(s, a) && s.calls[c].rpc.page == []
  }

  // The steps and the completed page rounds of call c from position i to position j.
  ghost function StepsOf(actions: seq<Action>, c: CallID, i: nat, j: nat): nat
    requires i <= j <= |actions|
  {
    if i == j then 0 else StepsOf(actions, c, i, j - 1) + if StepOf(actions[j - 1], c) then 1 else 0
  }

  ghost function RoundsOf(run: seq<State>, actions: seq<Action>, c: CallID, i: nat, j: nat): nat
    requires i <= j <= |actions| < |run|
  {
    if i == j then 0 else RoundsOf(run, actions, c, i, j - 1) + if EndsRound(run[j - 1], actions[j - 1], c) then 1
        else 0
  }

  // Which of the two statuses the call is at, what it has closed in this round, and how much of its page is done.
  function Stage(call: Call): nat
    requires call.Reconcile?
  {
    if call.status.Running? then 0 else 1
  }

  function RoundCloses(call: Call): nat
    requires call.Reconcile?
  {
    if call.rpc.Closing? && call.rpc.transitioned > 0 then 1 else 0
  }

  function RoundSteps(call: Call): int
    requires call.Reconcile?
  {
    if call.rpc.Listing? then 0 else 1 + PageLimit - |call.rpc.page|
  }

  predicate PageFits(call: Call) { call.Reconcile? && (call.rpc.Closing? ==> |call.rpc.page| <= PageLimit) }

  // One step of anyone: every round but two closes a run, and no round takes more than its page and two steps.
  lemma {:induction false} ReconcileStep(s: State, a: Action, c: CallID)
    requires Enabled(s, a) && c in s.calls && PageFits(s.calls[c]) && c in Apply(s, a).calls
    ensures var before, after := s.calls[c], Apply(s, a).calls[c];
      var round, step := if EndsRound(s, a, c) then 1 else 0, if StepOf(a, c) then 1 else 0;
      && PageFits(after)
      && round + RoundCloses(after) + Stage(before) <= RoundCloses(before) + |ClosedRun(s, a)| + Stage(after)
      && step + RoundSteps(before) + Stage(before) <= 102 * round + RoundSteps(after) + Stage(after)
  {
    hide TransitionOutcome, Transitioned, Recorded, CompleteOutcome;
  }

  // The end of the call is at most one more round and one more step.
  lemma {:induction false} CallProgress(run: seq<State>, actions: seq<Action>, c: CallID, i: nat, j: nat)
    requires IsRun(run, actions) && i < j <= |actions| && actions[i] == StartReconcile(c)
    requires forall k :: i < k <= j ==> c in run[k].calls
    ensures var call, rounds := run[j].calls[c], RoundsOf(run, actions, c, i, j);
      && PageFits(call)
      && rounds + RoundCloses(call) <= Closings(run, actions, i, j) + Stage(call)
      && StepsOf(actions, c, i, j) <= 102 * rounds + RoundSteps(call) + Stage(call)
    decreases j
  {
    var s, a := run[j - 1], actions[j - 1];
    assert Enabled(s, a) && run[j] == Apply(s, a);
    if j == i + 1 {
      assert StepsOf(actions, c, i, i) == RoundsOf(run, actions, c, i, i) == Closings(run, actions, i, i) == 0;
      assert run[j].calls[c] == Reconcile(Running, Listing);
    } else {
      hide Apply, Enabled, EndsRound, StepOf, ClosedRun, RoundCloses, RoundSteps, Stage, PageFits;
      CallProgress(run, actions, c, i, j - 1);
      ReconcileStep(s, a, c);
    }
  }

  /** A reconciliation call, while it has not returned, completes at most two page rounds more than runs are closed,
      hence than runs are ever created, and each takes at most its page and two steps: it ends unless runs are
      created forever. */
  lemma {:induction false} ReconciliationIsBounded(run: seq<State>, actions: seq<Action>, c: CallID, i: nat, j: nat)
    requires IsRun(run, actions) && i < j <= |actions| && actions[i] == StartReconcile(c)
    requires forall k :: i < k < j ==> c in run[k].calls
    ensures RoundsOf(run, actions, c, i, j) <= Closings(run, actions, i, j) + 2
    ensures Closings(run, actions, i, j) <= |run[j].history|
    ensures StepsOf(actions, c, i, j) <= 102 * (|run[j].history| + 2) + 1
  {
    hide IsRun, EndsRound, StepOf, RoundsOf, StepsOf, Closings, ClosedRuns;
    RunLength(run, actions);
    ClosingsAreBounded(run, actions, i, j);
    RoundsSoFar(run, actions, c, i, j - 1);
    ClosingsGrow(run, actions, i, j);
    LastStep(run, actions, c, i, j);
  }

  lemma RunLength(run: seq<State>, actions: seq<Action>)
    requires IsRun(run, actions)
    ensures |run| == |actions| + 1
  {
  }

  lemma {:induction false} LastStep(run: seq<State>, actions: seq<Action>, c: CallID, i: nat, j: nat)
    requires i < j <= |actions| < |run|
    ensures RoundsOf(run, actions, c, i, j - 1) <= RoundsOf(run, actions, c, i, j) <=
        RoundsOf(run, actions, c, i, j - 1) + 1
    ensures StepsOf(actions, c, i, j) <= StepsOf(actions, c, i, j - 1) + 1
  {
    hide EndsRound, StepOf;
  }

  lemma {:induction false} ClosingsGrow(run: seq<State>, actions: seq<Action>, i: nat, j: nat)
    requires i < j <= |actions| < |run|
    ensures Closings(run, actions, i, j - 1) <= Closings(run, actions, i, j)
  {
  }

  lemma {:induction false} RoundsSoFar(run: seq<State>, actions: seq<Action>, c: CallID, i: nat, j: nat)
    requires IsRun(run, actions) && i <= j < |actions| && actions[i] == StartReconcile(c)
    requires forall k :: i < k <= j ==> c in run[k].calls
    ensures RoundsOf(run, actions, c, i, j) <= Closings(run, actions, i, j) + 1
    ensures StepsOf(actions, c, i, j) <= 102 * RoundsOf(run, actions, c, i, j) + 102
  {
    hide IsRun;
    if i < j {
      CallProgress(run, actions, c, i, j);
    }
  }

  /** Check-then-delete never removes a live run: whatever step makes a run disappear, it was finished. */
  lemma {:induction false} OnlyFinishedRunsAreDeleted(run: seq<State>, actions: seq<Action>, i: nat, id: RunID)
    requires IsRun(run, actions) && i < |actions| && id in run[i].store && id !in run[i + 1].store
    ensures Terminal(run[i].store[id].status) && run[i].store[id].completedAt.Some?
    ensures actions[i].DeleteMoves?
  {
    RunInv(run, actions, i);
    EffectIsLegal(run[i], actions[i]);
    assert run[i + 1] == Apply(run[i], actions[i]);
    assert RunOK(run[i].store[id]);
    hide StoreInv, CallOK, Recorded;
    OnlyDeletionRemoves(run[i], actions[i], id);
    hide Effect;
  }

  lemma {:induction false} OnlyDeletionRemoves(s: State, a: Action, id: RunID)
    requires Enabled(s, a) && id in s.store && id !in Effect(s, a).1
    ensures a.DeleteMoves?
  {
    hide TransitionOutcome, CompleteOutcome, Indexed;
  }

  /** Results appear only by a job's completion of a running run, together with the completed status. */
  lemma {:induction false} ResultsComeWithCompletion(run: seq<State>, actions: seq<Action>, i: nat, id: RunID)
    requires IsRun(run, actions) && i < |actions| && id in run[i].store && id in run[i + 1].store
    requires run[i].store[id].results != run[i + 1].store[id].results
    ensures run[i].store[id].status.Running? && run[i + 1].store[id].status.Completed? && run[i].store[id].results == []
    ensures actions[i].JobMoves? && actions[i].step.StoreResults? && run[i].calls[actions[i].c].id == id
  {
    RunInv(run, actions, i);
    RunInv(run, actions, i + 1);
    var s, a := run[i], actions[i];
    assert run[i + 1] == Apply(s, a);
    assert RunOK(s.store[id]) && RunOK(run[i + 1].store[id]);
    OnlyCompletionAddsResults(s, a, id);
    hide Effect, StoreInv, Recorded;
  }

  lemma {:induction false} OnlyCompletionAddsResults(s: State, a: Action, id: RunID)
    requires Inv(s) && Enabled(s, a) && id in s.store && id in Effect(s, a).1
        && s.store[id].results != Effect(s, a).1[id].results
    ensures a.JobMoves? && a.step.StoreResults? && s.calls[a.c].id == id
    ensures s.store[id].status.Running? && Effect(s, a).1[id].status.Completed?
  {
    hide Indexed, TransitionOutcome;
  }

  // ----- what a job comes to ---------------------------------------------------------------------------

  // No step of the job, and no restart, from position i to position j.
  ghost predicate JobWaits(actions: seq<Action>, c: CallID, i: nat, j: nat)
    requires j <= |actions|
  {
    forall k :: i <= k < j ==> !actions[k].Crash? && !(actions[k].JobMoves? && actions[k].c == c)
  }

  lemma {:induction false} StepAt(run: seq<State>, actions: seq<Action>, i: nat)
    requires IsRun(run, actions) && i < |actions|
    ensures |run| == |actions| + 1 && Enabled(run[i], actions[i]) && run[i + 1] == Apply(run[i], actions[i])
  {
    hide Enabled, Apply, Init;
  }

  lemma {:induction false} JobStays(run: seq<State>, actions: seq<Action>, c: CallID, i: nat, j: nat)
    requires IsRun(run, actions) && i <= j < |run| && c in run[i].calls && run[i].calls[c].Job?
    requires JobWaits(actions, c, i, j)
    ensures c in run[j].calls && run[j].calls[c] == run[i].calls[c]
    decreases j
  {
    hide IsRun, Enabled, Apply;
    if i < j {
      JobStays(run, actions, c, i, j - 1);
      RunLength(run, actions);
      StepAt(run, actions, j - 1);
      OthersLeaveJob(run[j - 1], actions[j - 1], c);
    }
  }

  lemma {:induction false} OthersLeaveJob(s: State, a: Action, c: CallID)
    requires Enabled(s, a) && c in s.calls && s.calls[c].Job? && !a.Crash? && !(a.JobMoves? && a.c == c)
    ensures c in Apply(s, a).calls && Apply(s, a).calls[c] == s.calls[c]
  {
    hide TransitionOutcome, Transitioned, CompleteOutcome, CompletedStore, Recorded, IsPage;
  }

  // A running run, and results that the store takes, if there are to be any.
  predicate CanEnd(store: Store, id: RunID, status: Status, results: seq<Parsed>) {
    && id in store && store[id].status == Running
    && (status == Completed ==> forall k :: 0 <= k < |results| ==> results[k].rawIsJSON)
  }

  /** How a job ends its run: cancelled if its context was, failed if the execution broke, otherwise completed
      with what the execution put out, in order; all at the time it finished, and only if the run still runs. */
  lemma {:induction false} JobEnds(run: seq<State>, actions: seq<Action>, i: nat, j: nat, c: CallID, result: Execution,
      now: int)
    requires IsRun(run, actions) && i < j < |actions| && JobWaits(actions, c, i + 1, j)
    requires actions[i] == JobMoves(c, Finish(result, now)) && actions[j].JobMoves? && actions[j].c == c
    ensures c in run[i].calls
    ensures var id, before, after := run[i].calls[c].id, run[j].store, run[j + 1].store;
      var status := if id in run[i].cancelled then Cancelled else if result.Broke? then Failed else Completed;
      var results := if status == Completed then result.results else [];
      if CanEnd(before, id, status, results) then
        && after.Keys == before.Keys && (forall k :: k in before && k != id ==> after[k] == before[k])
        && after[id].status == status && after[id].completedAt == Some(now)
        && after[id].startedAt == before[id].startedAt
        && after[id].results == seq(|results|, k requires 0 <= k < |results| => Result(k, results[k].payload))
      else after == before
  {
    assert Enabled(run[i], actions[i]) && run[i + 1] == Apply(run[i], actions[i]);
    assert Enabled(run[j], actions[j]) && run[j + 1] == Apply(run[j], actions[j]);
    RunInv(run, actions, j);
    assert c in run[i + 1].calls;
    JobStays(run, actions, c, i + 1, j);
    hide IsRun, Inv, Recorded, Transitioned, CompletedStore;
    var id := run[i].calls[c].id;
    var status := if id in run[i].cancelled then Cancelled else if result.Broke? then Failed else Completed;
    EndStep(run[j], c, actions[j].step, status, if status == Completed then result.results else [], now);
  }

  lemma {:induction false} EndStep(s: State, c: CallID, step: JobStep, status: Status, results: seq<Parsed>, now: int)
    requires Inv(s) && Enabled(s, JobMoves(c, step)) && (status == Completed || results == [])
    requires s.calls[c].pc == if status == Completed then Storing(results, now) else JobPc.Closing(status, now)
    requires status == Cancelled || status == Failed || status == Completed
    ensures var id, before, after := s.calls[c].id, s.store, Apply(s, JobMoves(c, step)).store;
      if CanEnd(before, id, status, results) then
        && after.Keys == before.Keys && (forall k :: k in before && k != id ==> after[k] == before[k])
        && after[id].status == status && after[id].completedAt == Some(now)
        && after[id].startedAt == before[id].startedAt
        && after[id].results == seq(|results|, k requires 0 <= k < |results| => Result(k, results[k].payload))
      else after == before
  {
    var id := s.calls[c].id;
    if id in s.store {
      assert RunOK(s.store[id]);
      assert [] + Indexed(results) == Indexed(results);
    }
    hide Recorded, Inv;
  }

  /** A cancellation that found the run unfinished asks its job to stop if the run has one, and otherwise cancels
      the run itself if it still has the status that was found; a finished run it leaves alone. */
  lemma {:induction false} CancelTakesEffect(run: seq<State>, actions: seq<Action>, i: nat, c: CallID, now: int)
    requires IsRun(run, actions) && i < |actions| && actions[i] == CancelMoves(c, now)
    ensures c in run[i].calls && run[i].calls[c].Cancel?
    ensures var Cancel(id, seen) := run[i].calls[c];
      var before, after := run[i], run[i + 1];
      if seen.Some? && id !in before.active && id in before.store && before.store[id].status == seen.value then
        && before.store[id].status in {Queued, Running} && after.cancelled == before.cancelled
        && after.store == before.store[id := before.store[id].(status := Cancelled, completedAt := Some(now))]
      else
        && after.store == before.store
        && after.cancelled == if seen.Some? && id in before.active then before.cancelled + {id} else before.cancelled
    ensures var Cancel(id, seen) := run[i].calls[c];
      seen.None? && id in run[i].store && run[i].store[id].status in {Queued, Running} ==>
        c in run[i + 1].calls && run[i + 1].calls[c] == Cancel(id, Some(run[i].store[id].status))
  {
    assert Enabled(run[i], actions[i]) && run[i + 1] == Apply(run[i], actions[i]);
    RunInv(run, actions, i);
    assert CallOK(run[i].store, run[i].history, run[i].calls[c]);
    hide IsRun, Recorded, StoreInv;
  }

  /** A deletion that found the run finished removes it; one that did not changes nothing. */
  lemma {:induction false} DeleteTakesEffect(run: seq<State>, actions: seq<Action>, i: nat, c: CallID)
    requires IsRun(run, actions) && i < |actions| && actions[i] == DeleteMoves(c)
    ensures c in run[i].calls && run[i].calls[c].Delete?
    ensures var Delete(id, checked) := run[i].calls[c];
      if checked then run[i + 1].store == run[i].store - {id}
      else
        && run[i + 1].store == run[i].store
        && (id in run[i].store && run[i].store[id].status in {Completed, Failed, Cancelled} ==>
            c in run[i + 1].calls && run[i + 1].calls[c] == Delete(id, true))
  {
    assert Enabled(run[i], actions[i]) && run[i + 1] == Apply(run[i], actions[i]);
    hide IsRun, Recorded;
  }

  // ----- the order of a job's steps ---------------------------------------------------------------------

  /** What a job does next, by the states before and after its step. */
  ghost predicate JobFollows(s: State, after: State, id: RunID, step: JobStep, next: JobStep) {
    match step
    case Activate => next.CheckContext?
    case CheckContext => if id in s.cancelled then next.CloseUnrun? else next.BeginRunning?
    case CloseUnrun(_) => next.RemoveActive?
    case BeginRunning(_) =>
      if id in s.store && s.store[id].status == Queued then next.Finish? else next.RemoveActive?
    case Finish(result, _) => if id !in s.cancelled && result.Output? then next.StoreResults? else next.Close?
    case Close => next.RemoveActive?
    case StoreResults => if after.store != s.store then next.RemoveActive? else next.Close?
    case RemoveActive => false
  }

  predicate MovesJob(a: Action, c: CallID) { a.JobMoves? && a.c == c }

  lemma {:induction false} JobStepFollows(s: State, c: CallID, step: JobStep, t: State, next: JobStep)
    requires Enabled(s, JobMoves(c, step)) && Enabled(t, JobMoves(c, next))
    requires var after := Apply(s, JobMoves(c, step)); c in after.calls ==> t.calls[c] == after.calls[c]
    requires !step.RemoveActive?
    ensures JobFollows(s, Apply(s, JobMoves(c, step)), s.calls[c].id, step, next)
  {
    hide Recorded, Transitioned, Indexed;
  }

  /** Two steps of a job with none of its own in between follow that order; the first step lets its run be
      cancelled and the last one ends that. */
  lemma {:induction false} JobStepsFollow(run: seq<State>, actions: seq<Action>, i: nat, j: nat, c: CallID)
    requires IsRun(run, actions) && i < j < |actions| && MovesJob(actions[i], c) && MovesJob(actions[j], c)
    requires JobWaits(actions, c, i + 1, j) && !actions[i].step.RemoveActive?
    ensures c in run[i].calls && JobFollows(run[i], run[i + 1], run[i].calls[c].id, actions[i].step, actions[j].step)
  {
    assert Enabled(run[i], actions[i]) && run[i + 1] == Apply(run[i], actions[i]) && Enabled(run[j], actions[j]);
    assert c in run[i + 1].calls && run[i + 1].calls[c].Job?;
    JobStays(run, actions, c, i + 1, j);
    hide IsRun, Enabled, Apply, JobFollows;
    JobStepFollows(run[i], c, actions[i].step, run[j], actions[j].step);
  }

  /** Before it executes, a job that was cancelled closes its queued run as cancelled, and one that was not sets it
      running; no other step before the end changes the store. */
  lemma {:induction false} JobBegins(run: seq<State>, actions: seq<Action>, i: nat, c: CallID)
    requires IsRun(run, actions) && i < |actions| && MovesJob(actions[i], c)
    requires !actions[i].step.Close? && !actions[i].step.StoreResults?
    ensures c in run[i].calls
    ensures var id, before, step := run[i].calls[c].id, run[i].store, actions[i].step;
      run[i + 1].store ==
        if id in before && before[id].status == Queued && step.CloseUnrun?
        then before[id := before[id].(status := Cancelled, completedAt := Some(step.now))]
        else if id in before && before[id].status == Queued && step.BeginRunning?
        then before[id := before[id].(status := Running, startedAt := Some(step.now))]
        else before
  {
    assert Enabled(run[i], actions[i]) && run[i + 1] == Apply(run[i], actions[i]);
    hide IsRun, Recorded, JobAfter;
  }

  /** A run can be cancelled through its job exactly from the job's first step to its last. */
  lemma {:induction false} ActiveFollowsJob(run: seq<State>, actions: seq<Action>, i: nat, c: CallID)
    requires IsRun(run, actions) && i < |actions| && MovesJob(actions[i], c)
    ensures c in run[i].calls
    ensures var id, before, after := run[i].calls[c].id, run[i].active, run[i + 1].active;
      after == if actions[i].step.Activate? then before + {id}
               else if actions[i].step.RemoveActive? then before - {id}
               else before
  {
    assert Enabled(run[i], actions[i]) && run[i + 1] == Apply(run[i], actions[i]);
    hide Recorded, StoreAfterJob, JobAfter;
  }

  // ----- the rounds of reconciliation --------------------------------------------------------------------

  // Whether the call has closed a run from position i to position j.
  ghost predicate HasClosed(run: seq<State>, actions: seq<Action>, c: CallID, i: nat, j: nat)
    requires j <= |actions| < |run|
  {
    exists k :: i <= k < j && actions[k].CloseNext? && actions[k].c == c && ClosedRun(run[k], actions[k]) != {}
  }

  lemma {:induction false} RoundStep(s: State, a: Action, c: CallID)
    requires Enabled(s, a) && c in s.calls && s.calls[c].Reconcile? && s.calls[c].rpc.Closing? && c in Apply(s, a).calls
    requires !EndsRound(s, a, c)
    ensures var before, after := s.calls[c], Apply(s, a).calls[c];
      && after.Reconcile? && after.rpc.Closing? && after.status == before.status
      && (after.rpc.transitioned > 0 <==>
          before.rpc.transitioned > 0 || (a.CloseNext? && a.c == c && ClosedRun(s, a) != {}))
  {
    hide Recorded, Transitioned, CompletedStore, CompleteOutcome;
  }

  lemma {:induction false} RoundBegins(s: State, a: Action)
    requires Enabled(s, a) && a.ListPage? && a.page != []
    ensures a.c in s.calls && s.calls[a.c].Reconcile?
    ensures var after := Apply(s, a).calls;
      a.c in after && after[a.c] == Reconcile(s.calls[a.c].status, ReconcilePc.Closing(a.page, 0))
  {
    hide IsPage, Recorded;
  }

  lemma {:induction false} RoundCounts(run: seq<State>, actions: seq<Action>, c: CallID, i: nat, j: nat)
    requires IsRun(run, actions) && i < j <= |actions|
    requires actions[i].ListPage? && actions[i].c == c && actions[i].page != []
    requires forall k :: i < k <= j ==> c in run[k].calls
    requires forall k :: i < k < j ==> !EndsRound(run[k], actions[k], c)
    ensures c in run[i].calls && run[i].calls[c].Reconcile?
    ensures var call := run[j].calls[c];
      && call.Reconcile? && call.rpc.Closing? && call.status == run[i].calls[c].status
      && (call.rpc.transitioned > 0 <==> HasClosed(run, actions, c, i + 1, j))
    decreases j
  {
    hide IsRun, Enabled, Apply, ClosedRun, EndsRound;
    StepAt(run, actions, i);
    RoundBegins(run[i], actions[i]);
    if j > i + 1 {
      RoundCounts(run, actions, c, i, j - 1);
      StepAt(run, actions, j - 1);
      RoundStep(run[j - 1], actions[j - 1], c);
    }
  }

  /** A page round that has closed a run is followed by another one of the same status; one that has closed none is
      the last of its status, and queued runs come after the running ones. */
  lemma {:induction false} RoundsGoOn(run: seq<State>, actions: seq<Action>, c: CallID, i: nat, j: nat)
    requires IsRun(run, actions) && i < j < |actions|
    requires actions[i].ListPage? && actions[i].c == c && actions[i].page != []
    requires forall k :: i < k <= j ==> c in run[k].calls
    requires (forall k :: i < k < j ==> !EndsRound(run[k], actions[k], c)) && EndsRound(run[j], actions[j], c)
    ensures c in run[i].calls && run[i].calls[c].Reconcile?
    ensures var status, after := run[i].calls[c].status, run[j + 1].calls;
      if HasClosed(run, actions, c, i + 1, j) then c in after && after[c] == Reconcile(status, Listing)
      else if status.Running? then c in after && after[c] == Reconcile(Queued, Listing)
      else c !in after
  {
    RoundCounts(run, actions, c, i, j);
    assert Enabled(run[j], actions[j]) && run[j + 1] == Apply(run[j], actions[j]);
    hide IsRun, HasClosed, Recorded;
  }

  /** An empty page ends a status; a run that is gone meanwhile ends the call, and any other run is passed over. */
  lemma {:induction false} ReconcileMoves(run: seq<State>, actions: seq<Action>, c: CallID, i: nat)
    requires IsRun(run, actions) && i < |actions| && c in run[i].calls && run[i].calls[c].Reconcile?
    requires (actions[i].ListPage? || actions[i].CloseNext?) && actions[i].c == c && !EndsRound(run[i], actions[i], c)
    ensures var status, rpc, after := run[i].calls[c].status, run[i].calls[c].rpc, run[i + 1].calls;
      if actions[i].ListPage? then
        if actions[i].page != [] then
          c in after && after[c] == Reconcile(status, ReconcilePc.Closing(actions[i].page, 0))
        else if status.Running? then c in after && after[c] == Reconcile(Queued, Listing)
        else c !in after
      else
        && rpc.Closing? && rpc.page != []
        && (rpc.page[0] !in run[i].store <==> c !in after)
        && (c in after ==> after[c].Reconcile? && after[c].rpc.Closing? && after[c].rpc.page == rpc.page[1..])
  {
    assert Enabled(run[i], actions[i]) && run[i + 1] == Apply(run[i], actions[i]);
    RunInv(run, actions, i);
    assert CallOK(run[i].store, run[i].history, run[i].calls[c]);
    hide IsRun, Recorded, StoreInv, Transitioned;
  }
}
