/** Request admission, request accounting and drain claims of the instance lifecycle service.

    One `State` holds the maps the service guards with its mutexes; every critical section
    of the source is one `Action`.  A call keeps its own program counter.  The supervisor is
    only known through the worker state it reports; that state may change at any moment. */
module Admission {
  type InstanceID = nat
  type CallID = nat
  type Channel = nat

  // ----- request counters -------------------------------------------------------------

  datatype Activity = Activity(pending: nat, active: nat)

  type Activities = map<InstanceID, Activity>

  // A missing entry reads as the zero value.
  function Lookup(acts: Activities, id: InstanceID): Activity {
    if id in acts then acts[id] else Activity(0, 0)
  }

  function Demand(acts: Activities, id: InstanceID): nat {
    Lookup(acts, id).pending + Lookup(acts, id).active
  }

  datatype Limits = Limits(perInstance: int, global: int, overrides: map<InstanceID, int>)

  function EffectiveLimit(limits: Limits, id: InstanceID): int {
    if id in limits.overrides && limits.overrides[id] > 0 then limits.overrides[id] else limits.perInstance
  }

  ghost function TotalPending(acts: Activities): nat {
    if acts == map[] then 0
    else var id :| id in acts; acts[id].pending + TotalPending(acts - {id})
  }

  lemma {:induction false} TotalPendingRemove(acts: Activities, id: InstanceID)
    requires id in acts
    ensures TotalPending(acts) == acts[id].pending + TotalPending(acts - {id})
    decreases |acts|
  {
    var k :| k in acts && TotalPending(acts) == acts[k].pending + TotalPending(acts - {k});
    if k != id {
      TotalPendingRemove(acts - {k}, id);
      TotalPendingRemove(acts - {id}, k);
      assert acts - {k} - {id} == acts - {id} - {k};
    }
  }

  datatype Outcome = Accepted | InstanceFull | ManagerFull

  ghost function ReserveOutcome(limits: Limits, acts: Activities, id: InstanceID): Outcome {
    var effective := EffectiveLimit(limits, id);
    if effective > 0 && Lookup(acts, id).pending >= effective then InstanceFull
    else if limits.global > 0 && TotalPending(acts) >= limits.global then ManagerFull
    else Accepted
  }

  function AddPending(acts: Activities, id: InstanceID): Activities {
    var a := Lookup(acts, id);
    acts[id := a.(pending := a.pending + 1)]
  }

  // The source guards each decrement against underflow; so does the model.
  function Pred(n: nat): nat { if n > 0 then n - 1 else n }

  function DropPending(acts: Activities, id: InstanceID): Activities {
    var a := Lookup(acts, id);
    acts[id := a.(pending := Pred(a.pending))]
  }

  function MoveToActive(acts: Activities, id: InstanceID): Activities {
    var a := Lookup(acts, id);
    acts[id := Activity(Pred(a.pending), a.active + 1)]
  }

  function DropActive(acts: Activities, id: InstanceID): Activities {
    var a := Lookup(acts, id);
    acts[id := a.(active := Pred(a.active))]
  }

  /** The counters as the service keeps them: one map, updated in place under one mutex. */
  class RequestCounters {
    var activities: Activities
    const limits: Limits

    constructor (limits: Limits)
      ensures activities == map[] && this.limits == limits
    {
      activities := map[];
      this.limits := limits;
    }

    method GlobalPending() returns (total: nat)
      ensures total == TotalPending(activities)
    {
      total := 0;
      var rest := activities;
      while rest != map[]
        invariant total + TotalPending(rest) == TotalPending(activities)
        decreases |rest|
      {
        var id :| id in rest;
        TotalPendingRemove(rest, id);
        total := total + rest[id].pending;
        rest := rest - {id};
      }
    }

    method ReservePending(id: InstanceID) returns (outcome: Outcome)
      modifies this
      ensures outcome == ReserveOutcome(limits, old(activities), id)
      ensures activities == if outcome.Accepted? then AddPending(old(activities), id) else old(activities)
    {
      var effective := EffectiveLimit(limits, id);
      var activity := Lookup(activities, id);
      if effective > 0 && activity.pending >= effective {
        return InstanceFull;
      }
      if limits.global > 0 {
        var total := GlobalPending();
        if total >= limits.global {
          return ManagerFull;
        }
      }
      activities := activities[id := activity.(pending := activity.pending + 1)];
      outcome := Accepted;
    }

    method ReleasePending(id: InstanceID)
      modifies this
      ensures activities == DropPending(old(activities), id)
    {
      var activity := Lookup(activities, id);
      if activity.pending > 0 {
        activity := activity.(pending := activity.pending - 1);
      }
      activities := activities[id := activity];
    }

    method ActivateRequest(id: InstanceID)
      modifies this
      ensures activities == MoveToActive(old(activities), id)
    {
      var activity := Lookup(activities, id);
      if activity.pending > 0 {
        activity := activity.(pending := activity.pending - 1);
      }
      activities := activities[id := activity.(active := activity.active + 1)];
    }

    method FinishActive(id: InstanceID)
      modifies this
      ensures activities == DropActive(old(activities), id)
    {
      var activity := Lookup(activities, id);
      if activity.active > 0 {
        activity := activity.(active := activity.active - 1);
      }
      activities := activities[id := activity];
    }
  }

  // ----- protocol state ---------------------------------------------------------------

  datatype Worker = Inactive | Starting | Ready | Draining | Stopping

  predicate ShuttingDown(w: Worker) { w.Draining? || w.Stopping? }

  // Eviction and idle unload look at the demand first; stop, restart and kill do not.
  datatype Kind = Eviction | IdleUnload | Explicit

  datatype RequestPc =
    | Reserved            // counted as pending; head of the admission loop
    | Locked              // holds the idle lock
    | NoDrain             // saw no drain channel
    | Running             // saw a worker that is not shutting down
    | WaitDrain(ch: Channel)
    | WaitInactive
    | Admitted            // passed admission, waiting for a ready worker
    | WorkerReady         // worker is ready, about to become active
    | Active
    | Failing             // error; about to give the reservation back
    | Served

  datatype ClaimPc =
    | Start
    | ClaimLocked         // holds the idle lock
    | Idle                // saw zero demand
    | SawReady            // saw a ready worker
    | Clear               // saw no drain channel
    | ToldDrain           // told the supervisor to drain
    | SawShutdown         // saw the worker shutting down
    | StopWorker          // claim made; stopping the worker
    | Aborting            // stop failed; drain aborted, channel still open
    | Closing(ch: Channel)  // took the channel out of drainWaits, about to close it
    | Over

  datatype Call =
    | Request(id: InstanceID, at: RequestPc)
    | Claim(id: InstanceID, kind: Kind, pc: ClaimPc)

  datatype State = State(
    limits: Limits,
    calls: map<CallID, Call>,
    activities: Activities,
    idleLock: map<InstanceID, CallID>,
    drainWaits: map<InstanceID, Channel>,
    closed: set<Channel>,
    guarded: set<Channel>,       // channels registered by a claim that saw zero demand
    nextChannel: Channel,
    workers: map<InstanceID, Worker>)

  predicate Init(s: State) {
    && s.calls == map[] && s.activities == map[] && s.idleLock == map[]
    && s.drainWaits == map[] && s.closed == {} && s.guarded == {} && s.workers == map[]
  }

  function WorkerOf(s: State, id: InstanceID): Worker {
    if id in s.workers then s.workers[id] else Inactive
  }

  // ----- a request in Acquire ------------------------------------------------------------

  datatype RequestStep =
    | TakeLock | CheckDrain | CheckStatus | Admit | WakeFromDrain | WorkerInactive | Cancel
    | EnsureReady(ok: bool) | Release | Activate | Finish

  predicate RequestEnabled(s: State, c: CallID, step: RequestStep) {
    && c in s.calls && s.calls[c].Request?
    && var Request(id, at) := s.calls[c];
       match step
       case TakeLock => at.Reserved? && id !in s.idleLock
       case CheckDrain => at.Locked?
       case CheckStatus => at.NoDrain?
       case Admit => at.Running?
       case WakeFromDrain => at.WaitDrain? && at.ch in s.closed
       case WorkerInactive => at.WaitInactive?
       case Cancel => at.Reserved? || at.WaitDrain? || at.WaitInactive?
       case EnsureReady(_) => at.Admitted?
       case Release => at.Failing?
       case Activate => at.WorkerReady?
       case Finish => at.Active?
  }

  function RequestNext(s: State, c: CallID, step: RequestStep): RequestPc
    requires RequestEnabled(s, c, step)
  {
    var Request(id, at) := s.calls[c];
    match step
    case TakeLock => Locked
    case CheckDrain => if id in s.drainWaits then WaitDrain(s.drainWaits[id]) else NoDrain
    case CheckStatus => if ShuttingDown(WorkerOf(s, id)) then WaitInactive else Running
    case Admit => Admitted
    case WakeFromDrain => Reserved
    case WorkerInactive => Reserved
    case Cancel => Failing
    case EnsureReady(ok) => if ok then WorkerReady else Failing
    case Release => Served
    case Activate => Active
    case Finish => Served
  }

  function RequestCounts(acts: Activities, id: InstanceID, step: RequestStep): Activities {
    match step
    case Release => DropPending(acts, id)
    case Activate => MoveToActive(acts, id)
    case Finish => DropActive(acts, id)
    case _ => acts
  }

  function RequestApply(s: State, c: CallID, step: RequestStep): State
    requires RequestEnabled(s, c, step)
  {
    var id, next := s.calls[c].id, RequestNext(s, c, step);
    s.(calls := s.calls[c := Request(id, next)],
       activities := RequestCounts(s.activities, id, step),
       idleLock := LockAfter(s.idleLock, c, s.calls[c], Request(id, next)))
  }

  // The idle lock is held exactly at the program counters named here.
  predicate HoldsLock(call: Call) {
    match call
    case Request(_, at) => at.Locked? || at.NoDrain? || at.Running?
    case Claim(_, _, pc) => !(pc.Start? || pc.StopWorker? || pc.Aborting? || pc.Closing? || pc.Over?)
  }

  function LockAfter(lock: map<InstanceID, CallID>, c: CallID, before: Call, after: Call): map<InstanceID, CallID> {
    if HoldsLock(after) then lock[before.id := c]
    else if HoldsLock(before) then lock - {before.id}
    else lock
  }

  // ----- a claim that drains the worker --------------------------------------------------

  datatype ClaimStep =
    | TakeIdleLock | CheckDemand(eligible: bool) | CheckReady | CheckChannel | BeginDrain | CheckShutdown
    | RegisterDrain | AbortDrain | RemoveDrain | CloseChannel

  predicate ClaimEnabled(s: State, c: CallID, step: ClaimStep) {
    && c in s.calls && s.calls[c].Claim?
    && var Claim(id, kind, pc) := s.calls[c];
       match step
       case TakeIdleLock => pc.Start? && id !in s.idleLock
       case CheckDemand(_) => pc.ClaimLocked? && !kind.Explicit?
       case CheckReady => pc.Idle?
       case CheckChannel => if kind.Explicit? then pc.ClaimLocked? else kind.IdleUnload? && pc.SawReady?
       case BeginDrain => if kind.Eviction? then pc.SawReady? else pc.Clear?
       case CheckShutdown => !kind.Eviction? && pc.ToldDrain?
       case RegisterDrain => if kind.Eviction? then pc.ToldDrain? else pc.SawShutdown?
       case AbortDrain => pc.StopWorker?
       case RemoveDrain => pc.StopWorker? || pc.Aborting?
       case CloseChannel => pc.Closing?
  }

  // ReconcileIdle goes on with StopInstance, which claims again without looking at demand.
  function AfterClaim(id: InstanceID, kind: Kind): Call {
    if kind.IdleUnload? then Claim(id, Explicit, Start) else Claim(id, kind, StopWorker)
  }

  function ClaimNext(s: State, c: CallID, step: ClaimStep): Call
    requires ClaimEnabled(s, c, step)
  {
    var Claim(id, kind, pc) := s.calls[c];
    match step
    case TakeIdleLock => Claim(id, kind, ClaimLocked)
    case CheckDemand(eligible) =>
      if eligible && Demand(s.activities, id) == 0 then Claim(id, kind, Idle) else Claim(id, kind, Over)
    case CheckReady => if WorkerOf(s, id).Ready? then Claim(id, kind, SawReady) else Claim(id, kind, Over)
    case CheckChannel => if id in s.drainWaits then AfterClaim(id, kind) else Claim(id, kind, Clear)
    case BeginDrain =>
      if kind.Eviction? && !WorkerOf(s, id).Ready? then Claim(id, kind, Over) else Claim(id, kind, ToldDrain)
    case CheckShutdown =>
      if ShuttingDown(WorkerOf(s, id)) then Claim(id, kind, SawShutdown) else AfterClaim(id, kind)
    case RegisterDrain => AfterClaim(id, kind)
    case AbortDrain => Claim(id, kind, Aborting)
    case RemoveDrain => Claim(id, kind, if id in s.drainWaits then Closing(s.drainWaits[id]) else Over)
    case CloseChannel => Claim(id, kind, Over)
  }

  function WorkersAfter(s: State, id: InstanceID, step: ClaimStep): map<InstanceID, Worker> {
    if step.BeginDrain? && WorkerOf(s, id).Ready? then s.workers[id := Draining]
    else if step.AbortDrain? && WorkerOf(s, id).Draining? then s.workers[id := Ready]
    else s.workers
  }

  // The channel a registration leaves behind: the one already there, or a new one.
  function RegisteredChannel(s: State, id: InstanceID): Channel {
    if id in s.drainWaits then s.drainWaits[id] else s.nextChannel
  }

  function ClaimApply(s: State, c: CallID, step: ClaimStep): State
    requires ClaimEnabled(s, c, step)
  {
    var id, kind, next := s.calls[c].id, s.calls[c].kind, ClaimNext(s, c, step);
    var moved := s.(calls := s.calls[c := next],
                    workers := WorkersAfter(s, id, step),
                    idleLock := LockAfter(s.idleLock, c, s.calls[c], next));
    if step.RegisterDrain? then
      var ch := RegisteredChannel(s, id);
      moved.(drainWaits := s.drainWaits[id := ch],
             nextChannel := if ch == s.nextChannel then ch + 1 else s.nextChannel,
             guarded := if kind.Explicit? then s.guarded else s.guarded + {ch})
    else if step.RemoveDrain? then moved.(drainWaits := s.drainWaits - {id})
    else if step.CloseChannel? then moved.(closed := s.closed + {s.calls[c].pc.ch})
    else moved
  }

  // ----- runs ------------------------------------------------------------------------------

  datatype Action =
    | Arrive(c: CallID, id: InstanceID)
    | RequestMoves(c: CallID, request: RequestStep)
    | StartClaim(c: CallID, id: InstanceID, kind: Kind)
    | ClaimMoves(c: CallID, claim: ClaimStep)
    | WorkerChange(id: InstanceID, worker: Worker)

  predicate Enabled(s: State, a: Action) {
    match a
    case Arrive(c, id) => c !in s.calls
    case RequestMoves(c, step) => RequestEnabled(s, c, step)
    case StartClaim(c, id, kind) => c !in s.calls
    case ClaimMoves(c, step) => ClaimEnabled(s, c, step)
    case WorkerChange(id, worker) => true
  }

  ghost function Apply(s: State, a: Action): State
    requires Enabled(s, a)
  {
    match a
    case Arrive(c, id) =>
      if ReserveOutcome(s.limits, s.activities, id).Accepted? then
        s.(calls := s.calls[c := Request(id, Reserved)], activities := AddPending(s.activities, id))
      else
        s.(calls := s.calls[c := Request(id, Served)])
    case RequestMoves(c, step) => RequestApply(s, c, step)
    case StartClaim(c, id, kind) => s.(calls := s.calls[c := Claim(id, kind, Start)])
    case ClaimMoves(c, step) => ClaimApply(s, c, step)
    case WorkerChange(id, worker) => s.(workers := s.workers[id := worker])
  }

  ghost predicate IsRun(run: seq<State>, actions: seq<Action>) {
    && |run| == |actions| + 1
    && Init(run[0])
    && forall i :: 0 <= i < |actions| ==> Enabled(run[i], actions[i]) && run[i + 1] == Apply(run[i], actions[i])
  }

  // ----- invariant --------------------------------------------------------------------

  // Between admission and the end of the request.
  predicate Busy(call: Call) { call.Request? && (call.at.Admitted? || call.at.WorkerReady? || call.at.Active?) }

  datatype Phase = InPending | InActive

  predicate Counts(call: Call, phase: Phase) {
    && call.Request?
    && match phase
       case InActive => call.at.Active?
       case InPending => !call.at.Active? && !call.at.Served?
  }

  function InPhase(calls: map<CallID, Call>, id: InstanceID, phase: Phase): set<CallID> {
    set c | c in calls && calls[c].id == id && Counts(calls[c], phase)
  }

  // A claim that has seen zero demand and still holds the idle lock.
  predicate ClaimsIdle(call: Call) {
    call.Claim? && !call.kind.Explicit? && HoldsLock(call) && !call.pc.ClaimLocked?
  }

  // Holds the idle lock and has seen that there is no drain channel.
  predicate SawNoDrain(call: Call) {
    match call
    case Request(_, at) => at.NoDrain? || at.Running?
    case Claim(_, kind, pc) => pc.Clear? || pc.SawShutdown? || (pc.ToldDrain? && !kind.Eviction?)
  }

  ghost predicate NoneBusy(calls: map<CallID, Call>, id: InstanceID) {
    forall c :: c in calls && calls[c].id == id ==> !Busy(calls[c])
  }

  ghost predicate LockInv(calls: map<CallID, Call>, lock: map<InstanceID, CallID>) {
    && (forall c :: c in calls && HoldsLock(calls[c]) ==> calls[c].id in lock && lock[calls[c].id] == c)
    && (forall id :: id in lock ==> lock[id] in calls && calls[lock[id]].id == id && HoldsLock(calls[lock[id]]))
  }

  // The counters of one instance are the numbers of its calls in the two phases.
  ghost predicate Counted(calls: map<CallID, Call>, acts: Activities, id: InstanceID) {
    && Lookup(acts, id).pending == |InPhase(calls, id, InPending)|
    && Lookup(acts, id).active == |InPhase(calls, id, InActive)|
  }

  ghost predicate CountInv(calls: map<CallID, Call>, acts: Activities) {
    forall id: InstanceID :: Counted(calls, acts, id)
  }

  ghost predicate ChannelInv(s: State) {
    && (forall ch :: ch in s.closed ==> ch < s.nextChannel)
    && (forall ch :: ch in s.guarded ==> ch < s.nextChannel)
    && (forall id :: id in s.drainWaits ==> s.drainWaits[id] < s.nextChannel && s.drainWaits[id] !in s.closed)
    && (forall i, j :: i in s.drainWaits && j in s.drainWaits && s.drainWaits[i] == s.drainWaits[j] ==> i == j)
  }

  // Whoever took a channel out is the only one to close it, and has not yet.
  ghost predicate ClosingInv(s: State) {
    && (forall c :: c in s.calls && s.calls[c].Claim? && s.calls[c].pc.Closing? ==>
          && s.calls[c].pc.ch < s.nextChannel && s.calls[c].pc.ch !in s.closed
          && forall id :: id in s.drainWaits ==> s.drainWaits[id] != s.calls[c].pc.ch)
    && (forall c, d :: c in s.calls && d in s.calls && SameClosing(s.calls[c], s.calls[d]) ==> c == d)
  }

  predicate SameClosing(a: Call, b: Call) {
    a.Claim? && b.Claim? && a.pc.Closing? && b.pc.Closing? && a.pc.ch == b.pc.ch
  }

  ghost predicate ClaimInv(calls: map<CallID, Call>) {
    forall c :: c in calls && ClaimsIdle(calls[c]) ==> NoneBusy(calls, calls[c].id)
  }

  ghost predicate NoDrainInv(calls: map<CallID, Call>, drains: map<InstanceID, Channel>) {
    forall c :: c in calls && SawNoDrain(calls[c]) ==> calls[c].id !in drains
  }

  ghost predicate GuardInv(calls: map<CallID, Call>, drains: map<InstanceID, Channel>, guarded: set<Channel>) {
    forall id :: id in drains && drains[id] in guarded ==> NoneBusy(calls, id)
  }

  ghost predicate LimitInv(limits: Limits, acts: Activities) {
    && (forall id: InstanceID :: EffectiveLimit(limits, id) > 0 ==>
        Lookup(acts, id).pending <= EffectiveLimit(limits, id))
    && (limits.global > 0 ==> TotalPending(acts) <= limits.global)
  }

  ghost predicate Inv(s: State) {
    && LockInv(s.calls, s.idleLock) && CountInv(s.calls, s.activities) && ChannelInv(s)
    && ClaimInv(s.calls) && NoDrainInv(s.calls, s.drainWaits) && GuardInv(s.calls, s.drainWaits, s.guarded)
    && LimitInv(s.limits, s.activities) && ClosingInv(s)
  }

  // ----- preservation ------------------------------------------------------------------------

  // Changing one call moves only that call between phases.
  lemma {:induction false} PhaseUpdate(calls: map<CallID, Call>, c: CallID, call: Call, id: InstanceID, phase: Phase)
    requires c in calls ==> calls[c].id == call.id
    ensures InPhase(calls[c := call], id, phase) ==
            if call.id == id && Counts(call, phase) then InPhase(calls, id, phase) + {c}
                else InPhase(calls, id, phase) - {c}
    ensures c in InPhase(calls, id, phase) <==> c in calls && call.id == id && Counts(calls[c], phase)
  {
  }

  predicate Counted1(calls: map<CallID, Call>, c: CallID, phase: Phase) {
    c in calls && Counts(calls[c], phase)
  }

  // The counters follow the calls when they change by what the moved call gained or lost.
  lemma {:induction false} CountUpdate(calls: map<CallID, Call>, c: CallID, call: Call, acts: Activities,
        acts': Activities)
    requires CountInv(calls, acts)
    requires c in calls ==> calls[c].id == call.id
    requires forall id: InstanceID :: id != call.id ==> Lookup(acts', id) == Lookup(acts, id)
    requires Lookup(acts', call.id).pending + (if Counted1(calls, c, InPending) then 1 else 0)
          == Lookup(acts, call.id).pending + (if Counts(call, InPending) then 1 else 0)
    requires Lookup(acts', call.id).active + (if Counted1(calls, c, InActive) then 1 else 0)
          == Lookup(acts, call.id).active + (if Counts(call, InActive) then 1 else 0)
    ensures CountInv(calls[c := call], acts')
  {
    var after := calls[c := call];
    forall id: InstanceID
      ensures Counted(after, acts', id)
    {
      assert Counted(calls, acts, id);
      PhaseUpdate(calls, c, call, id, InPending);
      PhaseUpdate(calls, c, call, id, InActive);
    }
  }

  lemma {:induction false} CountedIsPositive(calls: map<CallID, Call>, acts: Activities, c: CallID)
    requires CountInv(calls, acts) && c in calls
    ensures Counts(calls[c], InPending) ==> Lookup(acts, calls[c].id).pending > 0
    ensures Counts(calls[c], InActive) ==> Lookup(acts, calls[c].id).active > 0
  {
    assert Counted(calls, acts, calls[c].id);
    PhaseUpdate(calls, c, calls[c], calls[c].id, InPending);
    PhaseUpdate(calls, c, calls[c], calls[c].id, InActive);
  }

  lemma {:induction false} LockUpdate(calls: map<CallID, Call>, lock: map<InstanceID, CallID>, c: CallID, call: Call)
    requires LockInv(calls, lock)
    requires c in calls && calls[c].id == call.id
    requires HoldsLock(call) && !HoldsLock(calls[c]) ==> call.id !in lock
    ensures LockInv(calls[c := call], LockAfter(lock, c, calls[c], call))
  {
  }

  // Only a call that holds the idle lock turns busy, so no claim is between its demand
  // check and the end of its critical section.
  lemma {:induction false} ClaimUpdate(calls: map<CallID, Call>, lock: map<InstanceID, CallID>, c: CallID, call: Call)
    requires LockInv(calls, lock) && ClaimInv(calls)
    requires c in calls && calls[c].id == call.id
    requires Busy(call) ==> Busy(calls[c]) || (HoldsLock(calls[c]) && calls[c].Request?)
    requires ClaimsIdle(call) ==> !Busy(call) && (ClaimsIdle(calls[c]) || NoneBusy(calls, call.id))
    ensures ClaimInv(calls[c := call])
  {
    var after := calls[c := call];
    forall k | k in after && ClaimsIdle(after[k])
      ensures NoneBusy(after, after[k].id)
    {
      assert NoneBusy(calls, after[k].id);
    }
  }

  lemma {:induction false} NoDrainUpdate(calls: map<CallID, Call>, lock: map<InstanceID, CallID>,
        drains: map<InstanceID, Channel>,
        drains': map<InstanceID, Channel>, c: CallID, call: Call)
    requires LockInv(calls, lock) && NoDrainInv(calls, drains)
    requires c in calls && calls[c].id == call.id
    requires forall id :: id in drains' && id !in drains ==> id == call.id && HoldsLock(calls[c])
    requires SawNoDrain(call) ==> call.id !in drains'
    ensures NoDrainInv(calls[c := call], drains')
  {
  }

  lemma {:induction false} GuardUpdate(calls: map<CallID, Call>, drains: map<InstanceID, Channel>,
        guarded: set<Channel>, c: CallID, call: Call)
    requires GuardInv(calls, drains, guarded)
    requires c in calls && calls[c].id == call.id
    requires Busy(call) && !Busy(calls[c]) ==> call.id !in drains
    ensures GuardInv(calls[c := call], drains, guarded)
  {
    var after := calls[c := call];
    forall id | id in drains && drains[id] in guarded
      ensures NoneBusy(after, id)
    {
      assert NoneBusy(calls, id);
    }
  }

  lemma {:induction false} TotalPendingUpdate(acts: Activities, id: InstanceID, a: Activity)
    ensures TotalPending(acts[id := a]) == TotalPending(acts) - Lookup(acts, id).pending + a.pending
  {
    TotalPendingRemove(acts[id := a], id);
    if id in acts {
      TotalPendingRemove(acts, id);
      assert acts[id := a] - {id} == acts - {id};
    } else {
      assert acts[id := a] - {id} == acts;
    }
  }

  // No step of an admitted request raises a pending counter.
  lemma {:induction false} LimitUpdate(limits: Limits, acts: Activities, id: InstanceID, step: RequestStep)
    requires LimitInv(limits, acts)
    ensures LimitInv(limits, RequestCounts(acts, id, step))
  {
    TotalPendingUpdate(acts, id, Lookup(RequestCounts(acts, id, step), id));
  }

  // ----- what one step of a request does to the pieces the invariant is about -----------------

  lemma {:induction false} RequestFacts(s: State, c: CallID, step: RequestStep)
    requires RequestEnabled(s, c, step) && NoDrainInv(s.calls, s.drainWaits)
    ensures var before, after := s.calls[c], Request(s.calls[c].id, RequestNext(s, c, step));
      && (Busy(after) && !Busy(before) ==> HoldsLock(before) && before.id !in s.drainWaits)
      && (SawNoDrain(after) ==> before.id !in s.drainWaits)
      && (HoldsLock(after) && !HoldsLock(before) ==> before.id !in s.idleLock)
  {
  }

  lemma {:induction false} RequestCountFacts(s: State, c: CallID, step: RequestStep)
    requires RequestEnabled(s, c, step) && CountInv(s.calls, s.activities)
    ensures CountInv(RequestApply(s, c, step).calls, RequestApply(s, c, step).activities)
  {
    var id, after := s.calls[c].id, Request(s.calls[c].id, RequestNext(s, c, step));
    CountedIsPositive(s.calls, s.activities, c);
    CountUpdate(s.calls, c, after, s.activities, RequestCounts(s.activities, id, step));
  }

  lemma {:induction false} RequestPreserves(s: State, c: CallID, step: RequestStep)
    requires Inv(s) && RequestEnabled(s, c, step)
    ensures Inv(RequestApply(s, c, step))
  {
    var after := Request(s.calls[c].id, RequestNext(s, c, step));
    RequestFacts(s, c, step);
    RequestCountFacts(s, c, step);
    LockUpdate(s.calls, s.idleLock, c, after);
    ClaimUpdate(s.calls, s.idleLock, c, after);
    NoDrainUpdate(s.calls, s.idleLock, s.drainWaits, s.drainWaits, c, after);
    GuardUpdate(s.calls, s.drainWaits, s.guarded, c, after);
    LimitUpdate(s.limits, s.activities, s.calls[c].id, step);
  }

  // ----- what one step of a claim does ---------------------------------------------------------

  // A claim whose demand check succeeded knows that nobody is busy.
  lemma {:induction false} ZeroDemandMeansIdle(calls: map<CallID, Call>, acts: Activities, id: InstanceID)
    requires CountInv(calls, acts) && Demand(acts, id) == 0
    ensures NoneBusy(calls, id)
  {
    forall c | c in calls && calls[c].id == id
      ensures !Busy(calls[c])
    {
      CountedIsPositive(calls, acts, c);
    }
  }

  lemma {:induction false} ClaimFacts(s: State, c: CallID, step: ClaimStep)
    requires ClaimEnabled(s, c, step) && NoDrainInv(s.calls, s.drainWaits) && CountInv(s.calls, s.activities)
    ensures var before, after := s.calls[c], ClaimNext(s, c, step);
      && after.Claim? && after.id == before.id
      && (ClaimsIdle(after) ==> ClaimsIdle(before) || NoneBusy(s.calls, before.id))
      && (SawNoDrain(after) ==> before.id !in s.drainWaits && !step.RegisterDrain?)
      && (HoldsLock(after) && !HoldsLock(before) ==> before.id !in s.idleLock)
      && (step.RegisterDrain? ==>
          HoldsLock(before) && (before.kind.Explicit? || ClaimsIdle(before))
          && (before.kind.Eviction? || before.id !in s.drainWaits))
  {
    if step.CheckDemand? && Demand(s.activities, s.calls[c].id) == 0 {
      ZeroDemandMeansIdle(s.calls, s.activities, s.calls[c].id);
    }
  }

  lemma {:induction false} ClaimPreserves(s: State, c: CallID, step: ClaimStep)
    requires Inv(s) && ClaimEnabled(s, c, step)
    ensures Inv(ClaimApply(s, c, step))
  {
    var t, after := ClaimApply(s, c, step), ClaimNext(s, c, step);
    ClaimFacts(s, c, step);
    CountUpdate(s.calls, c, after, s.activities, s.activities);
    LockUpdate(s.calls, s.idleLock, c, after);
    ClaimUpdate(s.calls, s.idleLock, c, after);
    NoDrainUpdate(s.calls, s.idleLock, s.drainWaits, t.drainWaits, c, after);
    GuardUpdate(s.calls, s.drainWaits, s.guarded, c, after);
    ClaimChannels(s, c, step);
    ClaimClosings(s, c, step);
    hide InPhase, TotalPending, GuardInv, ClosingInv, ChannelInv, LimitInv, NoDrainInv, ClaimInv, LockInv, CountInv;
  }

  lemma {:induction false} ClaimClosings(s: State, c: CallID, step: ClaimStep)
    requires ChannelInv(s) && ClosingInv(s) && ClaimEnabled(s, c, step)
    ensures ClosingInv(ClaimApply(s, c, step))
  {
    hide LockAfter, WorkersAfter;
  }

  lemma {:induction false} ClaimChannels(s: State, c: CallID, step: ClaimStep)
    requires Inv(s) && ClaimEnabled(s, c, step)
    ensures ChannelInv(ClaimApply(s, c, step))
    ensures var t := ClaimApply(s, c, step); GuardInv(s.calls, t.drainWaits, t.guarded)
  {
    ClaimFacts(s, c, step);
  }

  lemma {:induction false} InitInv(s: State)
    requires Init(s)
    ensures Inv(s)
  {
    forall id: InstanceID
      ensures Counted(s.calls, s.activities, id)
    {
      assert InPhase(s.calls, id, InPending) == {} && InPhase(s.calls, id, InActive) == {};
    }
  }

  // A call that starts is neither busy nor inside a critical section.
  lemma {:induction false} NewCallPreserves(s: State, c: CallID, call: Call, acts: Activities)
    requires Inv(s) && c !in s.calls
    requires !Busy(call) && !HoldsLock(call) && !ClaimsIdle(call) && !SawNoDrain(call) && !SameClosing(call, call)
    requires CountInv(s.calls[c := call], acts) && LimitInv(s.limits, acts)
    ensures Inv(s.(calls := s.calls[c := call], activities := acts))
  {
    var after := s.calls[c := call];
    forall id | NoneBusy(s.calls, id)
      ensures NoneBusy(after, id)
    {}
    assert ClaimInv(after) by {
      forall k | k in after && ClaimsIdle(after[k])
        ensures NoneBusy(after, after[k].id)
      {
        assert NoneBusy(s.calls, after[k].id);
      }
    }
  }

  lemma {:induction false} ArrivePreserves(s: State, c: CallID, id: InstanceID)
    requires Inv(s) && c !in s.calls
    ensures Inv(Apply(s, Arrive(c, id)))
  {
    if ReserveOutcome(s.limits, s.activities, id).Accepted? {
      var acts := AddPending(s.activities, id);
      TotalPendingUpdate(s.activities, id, acts[id]);
      CountUpdate(s.calls, c, Request(id, Reserved), s.activities, acts);
      NewCallPreserves(s, c, Request(id, Reserved), acts);
    } else {
      CountUpdate(s.calls, c, Request(id, Served), s.activities, s.activities);
      NewCallPreserves(s, c, Request(id, Served), s.activities);
    }
  }

  lemma {:induction false} StepPreserves(s: State, a: Action)
    requires Inv(s) && Enabled(s, a)
    ensures Inv(Apply(s, a))
  {
    match a
    case Arrive(c, id) => ArrivePreserves(s, c, id);
    case RequestMoves(c, step) => RequestPreserves(s, c, step);
    case StartClaim(c, id, kind) =>
      CountUpdate(s.calls, c, Claim(id, kind, Start), s.activities, s.activities);
      NewCallPreserves(s, c, Claim(id, kind, Start), s.activities);
    case ClaimMoves(c, step) => ClaimPreserves(s, c, step);
    case WorkerChange(id, worker) =>
  }

  lemma {:induction false} RunInv(run: seq<State>, actions: seq<Action>, i: nat)
    requires IsRun(run, actions) && i < |run|
    ensures Inv(run[i])
  {
    if i == 0 {
      InitInv(run[0]);
    } else {
      RunInv(run, actions, i - 1);
      StepPreserves(run[i - 1], actions[i - 1]);
    }
  }

  // ----- what holds over every run -------------------------------------------------------------

  predicate Waits(s: State, id: InstanceID, ch: Channel) { id in s.drainWaits && s.drainWaits[id] == ch }

  predicate Removes(s: State, a: Action, id: InstanceID) {
    a.ClaimMoves? && a.claim.RemoveDrain? && a.c in s.calls && s.calls[a.c].id == id
  }

  ghost predicate NoRemoval(run: seq<State>, actions: seq<Action>, i: nat, j: nat, id: InstanceID)
    requires j <= |actions| < |run|
  {
    forall k :: i <= k < j ==> !Removes(run[k], actions[k], id)
  }

  lemma {:induction false} ChannelStep(s: State, a: Action, id: InstanceID, ch: Channel)
    requires Enabled(s, a) && ChannelInv(s) && ch < s.nextChannel
    ensures Waits(Apply(s, a), id, ch) <==> Waits(s, id, ch) && !Removes(s, a, id)
    ensures ch < Apply(s, a).nextChannel && s.guarded <= Apply(s, a).guarded
  {
    hide LockAfter, WorkersAfter, RequestNext, RequestCounts;
  }

  /** A registered channel is its instance's until the claim that ends the drain takes it out of drainWaits,
      and it never comes back; a channel registered after a demand check keeps that mark. */
  lemma {:induction false} ChannelStays(run: seq<State>, actions: seq<Action>, i: nat, j: nat, id: InstanceID,
        ch: Channel)
    requires IsRun(run, actions) && i <= j < |run| && Waits(run[i], id, ch)
    ensures Waits(run[j], id, ch) <==> NoRemoval(run, actions, i, j, id)
    ensures ch < run[j].nextChannel && (ch in run[i].guarded ==> ch in run[j].guarded)
    decreases j - i
  {
    hide Inv, Apply, Enabled, Init;
    RunChannels(run, actions, i);
    if i < j {
      ChannelStays(run, actions, i, j - 1, id, ch);
      RunChannels(run, actions, j - 1);
      ChannelStep(run[j - 1], actions[j - 1], id, ch);
    }
  }

  lemma {:induction false} RunChannels(run: seq<State>, actions: seq<Action>, i: nat)
    requires IsRun(run, actions) && i < |run|
    ensures ChannelInv(run[i])
  {
    RunInv(run, actions, i);
  }

  /** From the moment an eviction or idle-unload claim registers a drain channel until that channel is taken
      out of drainWaits, no request on that instance is admitted or active. */
  lemma {:induction false} NoRequestDuringGuardedDrain(run: seq<State>, actions: seq<Action>, i: nat, j: nat)
    requires IsRun(run, actions) && i < j < |run|
    requires actions[i].ClaimMoves? && actions[i].claim.RegisterDrain?
    requires !run[i].calls[actions[i].c].kind.Explicit?
    requires NoRemoval(run, actions, i + 1, j, run[i].calls[actions[i].c].id)
    ensures var id := run[i].calls[actions[i].c].id;
      && id in run[i + 1].drainWaits && Waits(run[j], id, run[i + 1].drainWaits[id])
      && NoneBusy(run[j].calls, id)
  {
    var id := run[i].calls[actions[i].c].id;
    assert run[i + 1] == Apply(run[i], actions[i]);
    ChannelStays(run, actions, i + 1, j, id, run[i + 1].drainWaits[id]);
    RunInv(run, actions, j);
  }

  // ----- every drain, whoever registered it -----------------------------------------------------------

  /** While an instance has a drain channel, whoever registered it, no request is admitted. */
  lemma {:induction false} NoAdmissionWhileDraining(run: seq<State>, actions: seq<Action>, i: nat)
    requires IsRun(run, actions) && i < |actions| && actions[i].RequestMoves? && actions[i].request.Admit?
    ensures actions[i].c in run[i].calls && run[i].calls[actions[i].c].id !in run[i].drainWaits
  {
    RunInv(run, actions, i);
    assert Enabled(run[i], actions[i]);
    assert SawNoDrain(run[i].calls[actions[i].c]);
  }

  lemma {:induction false} BusyStep(s: State, a: Action, c: CallID)
    requires Enabled(s, a) && c in Apply(s, a).calls && Busy(Apply(s, a).calls[c])
    ensures c in s.calls && s.calls[c].id == Apply(s, a).calls[c].id
        && (Busy(s.calls[c]) || a == RequestMoves(c, Admit))
  {
    hide LockAfter, WorkersAfter, RequestCounts, RegisteredChannel;
  }

  // During a drain the busy requests are among those that were busy when it began.
  lemma {:induction false} BusyWereBusy(run: seq<State>, actions: seq<Action>, i: nat, j: nat, id: InstanceID,
        c: CallID)
    requires IsRun(run, actions) && i <= j < |run| && id in run[i].drainWaits && NoRemoval(run, actions, i, j, id)
    requires c in run[j].calls && run[j].calls[c].id == id && Busy(run[j].calls[c])
    ensures c in run[i].calls && run[i].calls[c].id == id && Busy(run[i].calls[c])
    decreases j
  {
    hide Inv, Apply, Enabled, Init, Busy;
    if i < j {
      ChannelStays(run, actions, i, j - 1, id, run[i].drainWaits[id]);
      BusyStep(run[j - 1], actions[j - 1], c);
      if actions[j - 1] == RequestMoves(c, Admit) {
        NoAdmissionWhileDraining(run, actions, j - 1);
      }
      BusyWereBusy(run, actions, i, j - 1, id, c);
    }
  }

  lemma {:induction false} ClaimsAreNotBusy(calls: map<CallID, Call>, c: CallID, call: Call)
    requires c in calls && calls[c].Claim? && call.Claim? && call.id == calls[c].id
    ensures forall id :: NoneBusy(calls[c := call], id) <==> NoneBusy(calls, id)
  {
    forall id
      ensures NoneBusy(calls[c := call], id) <==> NoneBusy(calls, id)
    {
      assert forall d :: d in calls && d != c ==> calls[c := call][d] == calls[d];
    }
  }

  /** Whatever kind of claim registered it, a drain is free of requests for its whole life exactly when no
      request was busy at its registration; zero demand, which only eviction and idle unload check, is
      enough for that. */
  lemma {:induction false} DrainIsFreeOfRequests(run: seq<State>, actions: seq<Action>, i: nat)
    requires IsRun(run, actions) && i < |actions| && actions[i].ClaimMoves? && actions[i].claim.RegisterDrain?
    ensures var id := run[i].calls[actions[i].c].id;
      && id in run[i + 1].drainWaits
      && ((forall j :: i < j < |run| && NoRemoval(run, actions, i + 1, j, id) ==> NoneBusy(run[j].calls, id)) <==>
          NoneBusy(run[i].calls, id))
      && (Demand(run[i].activities, id) == 0 ==> NoneBusy(run[i].calls, id))
      && (!run[i].calls[actions[i].c].kind.Explicit? ==> NoneBusy(run[i].calls, id))
  {
    RunInv(run, actions, i);
    var id := run[i].calls[actions[i].c].id;
    assert run[i + 1] == Apply(run[i], actions[i]) && Enabled(run[i], actions[i]);
    if Demand(run[i].activities, id) == 0 {
      ZeroDemandMeansIdle(run[i].calls, run[i].activities, id);
    }
    ClaimFacts(run[i], actions[i].c, RegisterDrain);
    ClaimsAreNotBusy(run[i].calls, actions[i].c, run[i + 1].calls[actions[i].c]);
    assert NoRemoval(run, actions, i + 1, i + 1, id);
    hide Inv, Enabled, Apply, ClaimNext;
    if NoneBusy(run[i].calls, id) {
      forall j | i < j < |run| && NoRemoval(run, actions, i + 1, j, id)
        ensures NoneBusy(run[j].calls, id)
      {
        forall c | c in run[j].calls && run[j].calls[c].id == id && Busy(run[j].calls[c])
          ensures false
        {
          BusyWereBusy(run, actions, i + 1, j, id, c);
        }
      }
    }
  }

  /** No drain channel is closed twice. */
  lemma {:induction false} ChannelsAreClosedOnce(run: seq<State>, actions: seq<Action>, i: nat)
    requires IsRun(run, actions) && i < |actions| && actions[i].ClaimMoves? && actions[i].claim.CloseChannel?
    ensures run[i].calls[actions[i].c].pc.ch !in run[i].closed
  {
    RunInv(run, actions, i);
    assert Enabled(run[i], actions[i]);
  }

  /** The counters are the numbers of calls in the two phases, within both caps. */
  lemma {:induction false} RequestAccounting(run: seq<State>, actions: seq<Action>, i: nat, id: InstanceID)
    requires IsRun(run, actions) && i < |run|
    ensures var s := run[i];
      && Lookup(s.activities, id).pending == |InPhase(s.calls, id, InPending)|
      && Lookup(s.activities, id).active == |InPhase(s.calls, id, InActive)|
      && (var own := if id in s.limits.overrides then s.limits.overrides[id] else 0;
          var cap := if own > 0 then own else s.limits.perInstance;
          cap > 0 ==> |PendingCallsOf(s.calls, id)| <= cap)
      && (s.limits.global > 0 ==> |PendingCalls(s.calls)| <= s.limits.global)
      && s.limits == run[0].limits
  {
    RunInv(run, actions, i);
    assert Counted(run[i].calls, run[i].activities, id);
    PendingIsCount(run[i].calls, run[i].activities, id);
    LimitsFixed(run, actions, i);
  }

  // The requests of all instances that are counted as pending.
  function PendingCalls(calls: map<CallID, Call>): set<CallID> {
    set c | c in calls && calls[c].Request? && !calls[c].at.Active? && !calls[c].at.Served?
  }

  function PendingCallsOf(calls: map<CallID, Call>, id: InstanceID): set<CallID> {
    set c | c in PendingCalls(calls) && calls[c].id == id
  }

  function PendingIn(calls: map<CallID, Call>, ids: set<InstanceID>): set<CallID> {
    set c | c in PendingCalls(calls) && calls[c].id in ids
  }

  lemma {:induction false} PendingSplits(calls: map<CallID, Call>, ids: set<InstanceID>, id: InstanceID)
    requires id in ids
    ensures |PendingIn(calls, ids)| == |PendingIn(calls, ids - {id})| + |PendingCallsOf(calls, id)|
  {
    var rest, own := PendingIn(calls, ids - {id}), PendingCallsOf(calls, id);
    assert PendingIn(calls, ids) == rest + own;
    assert rest * own == {};
  }

  lemma {:induction false} TotalIsCount(calls: map<CallID, Call>, acts: Activities, left: Activities)
    requires CountInv(calls, acts) && left.Keys <= acts.Keys && forall id :: id in left ==> left[id] == acts[id]
    ensures TotalPending(left) == |PendingIn(calls, left.Keys)|
    decreases |left|
  {
    if left == map[] {
      assert PendingIn(calls, {}) == {};
    } else {
      var id :| id in left;
      TotalPendingRemove(left, id);
      TotalIsCount(calls, acts, left - {id});
      assert (left - {id}).Keys == left.Keys - {id};
      PendingSplits(calls, left.Keys, id);
      assert InPhase(calls, id, InPending) == PendingCallsOf(calls, id);
      assert Counted(calls, acts, id);
      hide PendingIn, PendingCallsOf, InPhase, TotalPending;
    }
  }

  lemma {:induction false} PendingIsCount(calls: map<CallID, Call>, acts: Activities, id: InstanceID)
    requires CountInv(calls, acts)
    ensures Lookup(acts, id).pending == |PendingCallsOf(calls, id)|
    ensures TotalPending(acts) == |PendingCalls(calls)|
  {
    assert Counted(calls, acts, id);
    assert InPhase(calls, id, InPending) == PendingCallsOf(calls, id);
    TotalIsCount(calls, acts, acts);
    forall c | c in PendingCalls(calls)
      ensures calls[c].id in acts
    {
      assert Counted(calls, acts, calls[c].id);
      assert c in InPhase(calls, calls[c].id, InPending);
    }
    assert PendingCalls(calls) == PendingIn(calls, acts.Keys);
  }

  /** A request is turned away exactly when its instance has as many pending requests as it may, or all instances
      together have; a positive limit of the instance goes before the manager's, and no positive limit is none. */
  lemma {:induction false} RefusedExactly(run: seq<State>, actions: seq<Action>, i: nat)
    requires IsRun(run, actions) && i < |actions| && actions[i].Arrive?
    ensures var Arrive(c, id) := actions[i];
      var limits, calls := run[i].limits, run[i].calls;
      var own := id in limits.overrides && limits.overrides[id] > 0;
      var cap := if own then limits.overrides[id] else limits.perInstance;
      var full := cap > 0 && |PendingCallsOf(calls, id)| >= cap;
      var allFull := limits.global > 0 && |PendingCalls(calls)| >= limits.global;
      && run[i + 1].calls == calls[c := Request(id, if full || allFull then Served else Reserved)]
      && ReserveOutcome(limits, run[i].activities, id) ==
           if full then InstanceFull else if allFull then ManagerFull else Accepted
  {
    RunInv(run, actions, i);
    assert Enabled(run[i], actions[i]) && run[i + 1] == Apply(run[i], actions[i]);
    PendingIsCount(run[i].calls, run[i].activities, actions[i].id);
    hide IsRun, Inv, TotalPending, PendingCalls, PendingCallsOf;
  }

  // The check of the worker's status finds it neither draining nor stopping.
  predicate SeesWorker(s: State, a: Action, c: CallID, id: InstanceID) {
    a == RequestMoves(c, CheckStatus) && WorkerOf(s, id) != Draining && WorkerOf(s, id) != Stopping
  }

  /** A request is admitted only after it has seen that the worker is not shutting down. */
  lemma {:induction false} AdmittedSawTheWorker(run: seq<State>, actions: seq<Action>, j: nat, c: CallID)
    requires IsRun(run, actions) && j < |run| && c in run[j].calls && run[j].calls[c].Request?
    requires run[j].calls[c].at.Running?
    ensures exists k :: 0 <= k < j && SeesWorker(run[k], actions[k], c, run[j].calls[c].id)
    decreases j
  {
    hide IsRun, Apply, Enabled, SeesWorker;
    StepAt(run, actions, j);
    var s, a := run[j - 1], actions[j - 1];
    RunsAfterStatus(s, a, c);
    if !SeesWorker(s, a, c, run[j].calls[c].id) {
      AdmittedSawTheWorker(run, actions, j - 1, c);
    }
  }

  // The step before a state, if it has any calls.
  lemma {:induction false} StepAt(run: seq<State>, actions: seq<Action>, j: nat)
    requires IsRun(run, actions) && j < |run| && run[j].calls != map[]
    ensures |run| == |actions| + 1 && j > 0 && Enabled(run[j - 1], actions[j - 1])
    ensures run[j] == Apply(run[j - 1], actions[j - 1])
  {
    hide Apply, Enabled;
  }

  lemma {:induction false} RunsAfterStatus(s: State, a: Action, c: CallID)
    requires Enabled(s, a) && c in Apply(s, a).calls
    requires Apply(s, a).calls[c].Request? && Apply(s, a).calls[c].at.Running?
    ensures SeesWorker(s, a, c, Apply(s, a).calls[c].id) || (c in s.calls && s.calls[c] == Apply(s, a).calls[c])
  {
    hide RequestCounts, LockAfter, WorkersAfter, RegisteredChannel;
  }

  lemma {:induction false} LimitsFixed(run: seq<State>, actions: seq<Action>, i: nat)
    requires IsRun(run, actions) && i < |run|
    ensures run[i].limits == run[0].limits
  {
    if i > 0 {
      LimitsFixed(run, actions, i - 1);
    }
  }

  /** No decrement in any run finds a counter at zero. */
  lemma {:induction false} UnderflowGuardsNeverNeeded(run: seq<State>, actions: seq<Action>, i: nat)
    requires IsRun(run, actions) && i < |actions| && actions[i].RequestMoves?
    ensures var a := Lookup(run[i].activities, run[i].calls[actions[i].c].id);
      && (actions[i].request.Release? || actions[i].request.Activate? ==> a.pending > 0)
      && (actions[i].request.Finish? ==> a.active > 0)
  {
    RunInv(run, actions, i);
    assert Enabled(run[i], actions[i]);
    CountedIsPositive(run[i].calls, run[i].activities, actions[i].c);
  }

  /** When every request has been served all counters are back to zero. */
  lemma {:induction false} CountersReturnToZero(run: seq<State>, actions: seq<Action>, i: nat, id: InstanceID)
    requires IsRun(run, actions) && i < |run|
    requires forall c :: c in run[i].calls && run[i].calls[c].Request? ==> run[i].calls[c].at.Served?
    ensures Lookup(run[i].activities, id) == Activity(0, 0)
  {
    RunInv(run, actions, i);
    assert Counted(run[i].calls, run[i].activities, id);
    assert InPhase(run[i].calls, id, InPending) == {} && InPhase(run[i].calls, id, InActive) == {};
  }

  ghost predicate Leads(s: State, actions: seq<Action>, t: State)
    decreases |actions|
  {
    if actions == [] then s == t
    else Enabled(s, actions[0]) && Leads(Apply(s, actions[0]), actions[1..], t)
  }

  lemma {:induction false} LeadsOne(s: State, a: Action, actions: seq<Action>, t: State)
    requires Enabled(s, a) && Leads(Apply(s, a), actions, t)
    ensures Leads(s, [a] + actions, t)
  {
    assert ([a] + actions)[1..] == actions;
  }

  lemma {:induction false} LeadsOn(s: State, first: seq<Action>, m: State, second: seq<Action>, t: State)
    requires Leads(s, first, m) && Leads(m, second, t)
    ensures Leads(s, first + second, t)
    decreases |first|
  {
    if first == [] {
      assert first + second == second;
    } else {
      LeadsOn(Apply(s, first[0]), first[1..], m, second, t);
      assert (first + second)[1..] == first[1..] + second;
    }
  }

  // Nothing holds the instance back: a ready worker, no drain, no lock, no limits.
  predicate Open(s: State, id: InstanceID) {
    id !in s.drainWaits && id !in s.idleLock && WorkerOf(s, id).Ready? && s.limits == Limits(0, 0, map[])
  }

  lemma {:induction false} RequestLocks(s: State, id: InstanceID, c: CallID) returns (actions: seq<Action>, t: State)
    requires Open(s, id) && c !in s.calls
    ensures Leads(s, actions, t)
    ensures t == s.(calls := s.calls[c := Request(id, Locked)], activities := t.activities,
        idleLock := s.idleLock[id := c])
  {
    hide AddPending, TotalPending;
    var s1 := Apply(s, Arrive(c, id));
    assert s1.calls == s.calls[c := Request(id, Reserved)];
    t := Apply(s1, RequestMoves(c, TakeLock));
    assert Leads(t, [], t);
    LeadsOne(s1, RequestMoves(c, TakeLock), [], t);
    LeadsOne(s, Arrive(c, id), [RequestMoves(c, TakeLock)], t);
    actions := [Arrive(c, id)] + [RequestMoves(c, TakeLock)];
  }

  lemma {:induction false} RequestPasses(s: State, id: InstanceID, c: CallID) returns (actions: seq<Action>, t: State)
    requires c in s.calls && s.calls[c] == Request(id, Locked) && id !in s.drainWaits && WorkerOf(s, id).Ready?
    ensures Leads(s, actions, t)
    ensures t == s.(calls := s.calls[c := Request(id, Admitted)], idleLock := s.idleLock - {id})
  {
    var s1 := Apply(s, RequestMoves(c, CheckDrain));
    var s2 := Apply(s1, RequestMoves(c, CheckStatus));
    t := Apply(s2, RequestMoves(c, Admit));
    assert s1.idleLock == s.idleLock[id := c] && s2.idleLock == s.idleLock[id := c];
    assert t.idleLock == s.idleLock - {id};
    assert Leads(t, [], t);
    LeadsOne(s2, RequestMoves(c, Admit), [], t);
    LeadsOne(s1, RequestMoves(c, CheckStatus), [RequestMoves(c, Admit)], t);
    actions := [RequestMoves(c, CheckStatus)] + [RequestMoves(c, Admit)];
    LeadsOne(s, RequestMoves(c, CheckDrain), actions, t);
    actions := [RequestMoves(c, CheckDrain)] + actions;
  }

  // A new request of an undrained instance with a ready worker passes admission.
  lemma {:induction false} RequestIsAdmitted(s: State, id: InstanceID, c: CallID)
      returns (actions: seq<Action>, t: State)
    requires Open(s, id) && c !in s.calls
    ensures Leads(s, actions, t)
    ensures t == s.(calls := s.calls[c := Request(id, Admitted)], activities := t.activities)
  {
    var first, m := RequestLocks(s, id, c);
    var second;
    second, t := RequestPasses(m, id, c);
    LeadsOn(s, first, m, second, t);
    actions := first + second;
    assert s.idleLock[id := c] - {id} == s.idleLock;
    assert s.calls[c := Request(id, Locked)][c := Request(id, Admitted)] == s.calls[c := Request(id, Admitted)];
  }

  // The instance has a ready worker serving call c and nobody has claimed it.
  ghost predicate Serving(s: State, id: InstanceID, c: CallID) {
    && c in s.calls && s.calls[c] == Request(id, Active)
    && id !in s.drainWaits && WorkerOf(s, id).Ready?
  }

  function Beginning(): State { State(Limits(0, 0, map[]), map[], map[], map[], map[], {}, {}, 0, map[]) }

  // A run from the beginning to a worker that serves a request.
  lemma {:induction false} ServingIsReached(id: InstanceID, c: CallID) returns (actions: seq<Action>, t: State)
    ensures Init(Beginning()) && Leads(Beginning(), actions, t) && Serving(t, id, c)
    ensures t.calls == map[c := Request(id, Active)] && t.idleLock == map[]
  {
    hide MoveToActive;
    var s0 := Beginning();
    var s1 := Apply(s0, WorkerChange(id, Ready));
    var first, s2 := RequestIsAdmitted(s1, id, c);
    var s3 := Apply(s2, RequestMoves(c, EnsureReady(true)));
    t := Apply(s3, RequestMoves(c, Activate));
    assert Leads(t, [], t);
    LeadsOne(s3, RequestMoves(c, Activate), [], t);
    LeadsOne(s2, RequestMoves(c, EnsureReady(true)), [RequestMoves(c, Activate)], t);
    var second := [RequestMoves(c, EnsureReady(true))] + [RequestMoves(c, Activate)];
    LeadsOn(s1, first, s2, second, t);
    LeadsOne(s0, WorkerChange(id, Ready), first + second, t);
    actions := [WorkerChange(id, Ready)] + (first + second);
  }

  lemma {:induction false} LastStepsOfExplicitStop(s: State, id: InstanceID, c: CallID, k: CallID)
      returns (actions: seq<Action>, t: State)
    requires Serving(s, id, c) && k in s.calls && s.calls[k] == Claim(id, Explicit, Clear)
    ensures Leads(s, actions, t) && id in t.drainWaits && c in t.calls && t.calls[c] == Request(id, Active)
  {
    var s1 := Apply(s, ClaimMoves(k, BeginDrain));
    assert s1.calls[k] == Claim(id, Explicit, ToldDrain) && WorkerOf(s1, id).Draining?;
    var s2 := Apply(s1, ClaimMoves(k, CheckShutdown));
    assert s2.calls[k] == Claim(id, Explicit, SawShutdown);
    t := Apply(s2, ClaimMoves(k, RegisterDrain));
    LeadsOne(s2, ClaimMoves(k, RegisterDrain), [], t);
    LeadsOne(s1, ClaimMoves(k, CheckShutdown), [ClaimMoves(k, RegisterDrain)], t);
    actions := [ClaimMoves(k, CheckShutdown)] + [ClaimMoves(k, RegisterDrain)];
    LeadsOne(s, ClaimMoves(k, BeginDrain), actions, t);
    actions := [ClaimMoves(k, BeginDrain)] + actions;
  }

  // An explicit stop looks at no counter.
  lemma {:induction false} ExplicitStopDrains(s: State, id: InstanceID, c: CallID, k: CallID)
      returns (actions: seq<Action>, t: State)
    requires Serving(s, id, c) && k !in s.calls && id !in s.idleLock
    ensures Leads(s, actions, t) && id in t.drainWaits && c in t.calls && t.calls[c] == Request(id, Active)
  {
    var s1 := Apply(s, StartClaim(k, id, Explicit));
    var s2 := Apply(s1, ClaimMoves(k, TakeIdleLock));
    assert s2.calls[k] == Claim(id, Explicit, ClaimLocked);
    var s3 := Apply(s2, ClaimMoves(k, CheckChannel));
    actions, t := LastStepsOfExplicitStop(s3, id, c, k);
    LeadsOne(s2, ClaimMoves(k, CheckChannel), actions, t);
    actions := [ClaimMoves(k, CheckChannel)] + actions;
    LeadsOne(s1, ClaimMoves(k, TakeIdleLock), actions, t);
    actions := [ClaimMoves(k, TakeIdleLock)] + actions;
    LeadsOne(s, StartClaim(k, id, Explicit), actions, t);
    actions := [StartClaim(k, id, Explicit)] + actions;
  }

  /** A run from the beginning in which an explicit stop opens a drain on a worker that is serving: the
      exclusion of requests is owed to the demand check alone. */
  lemma {:induction false} ExplicitStopDrainsBusyWorker(id: InstanceID, c: CallID, k: CallID)
      returns (actions: seq<Action>, t: State)
    requires c != k
    ensures Init(Beginning()) && Leads(Beginning(), actions, t)
    ensures id in t.drainWaits && c in t.calls && t.calls[c] == Request(id, Active)
  {
    var first, m := ServingIsReached(id, c);
    var second;
    second, t := ExplicitStopDrains(m, id, c, k);
    LeadsOn(Beginning(), first, m, second, t);
    actions := first + second;
  }

  // ----- between taking a channel out and closing it -----------------------------------------------------

  // An eviction of an idle instance with a ready worker, at this point of its critical section.
  function Evicting(id: InstanceID, k: CallID, pc: ClaimPc, worker: Worker): State {
    State(Limits(0, 0, map[]), map[k := Claim(id, Eviction, pc)], map[],
        if HoldsLock(Claim(id, Eviction, pc)) then map[id := k] else map[],
          map[], {}, {}, 0, map[id := worker])
  }

  lemma {:induction false} EvictionLooks(id: InstanceID, k: CallID) returns (actions: seq<Action>)
    ensures Leads(Beginning(), actions, Evicting(id, k, Idle, Ready))
  {
    var s1 := Apply(Beginning(), WorkerChange(id, Ready));
    assert Apply(s1, StartClaim(k, id, Eviction)) == Evicting(id, k, Start, Ready);
    assert Apply(Evicting(id, k, Start, Ready), ClaimMoves(k, TakeIdleLock)) == Evicting(id, k, ClaimLocked, Ready);
    var t := Evicting(id, k, Idle, Ready);
    assert Apply(Evicting(id, k, ClaimLocked, Ready), ClaimMoves(k, CheckDemand(true))) == t;
    assert Leads(t, [], t);
    LeadsOne(Evicting(id, k, ClaimLocked, Ready), ClaimMoves(k, CheckDemand(true)), [], t);
    LeadsOne(Evicting(id, k, Start, Ready), ClaimMoves(k, TakeIdleLock), [ClaimMoves(k, CheckDemand(true))], t);
    actions := [ClaimMoves(k, TakeIdleLock)] + [ClaimMoves(k, CheckDemand(true))];
    LeadsOne(s1, StartClaim(k, id, Eviction), actions, t);
    actions := [StartClaim(k, id, Eviction)] + actions;
    LeadsOne(Beginning(), WorkerChange(id, Ready), actions, t);
    actions := [WorkerChange(id, Ready)] + actions;
  }

  lemma {:induction false} EvictionRegisters(id: InstanceID, k: CallID) returns (actions: seq<Action>, t: State)
    ensures Leads(Beginning(), actions, t)
    ensures t == Evicting(id, k, StopWorker, Draining).(drainWaits := map[id := 0], guarded := {0}, nextChannel := 1)
  {
    var first := EvictionLooks(id, k);
    var s1, s2, s3 := Evicting(id, k, Idle, Ready), Evicting(id, k, SawReady, Ready),
        Evicting(id, k, ToldDrain, Draining);
    assert Apply(s1, ClaimMoves(k, CheckReady)) == s2;
    assert Apply(s2, ClaimMoves(k, BeginDrain)) == s3;
    t := Evicting(id, k, StopWorker, Draining).(drainWaits := map[id := 0], guarded := {0}, nextChannel := 1);
    assert Apply(s3, ClaimMoves(k, RegisterDrain)).idleLock == t.idleLock;
    assert Apply(s3, ClaimMoves(k, RegisterDrain)) == t;
    assert Leads(t, [], t);
    LeadsOne(s3, ClaimMoves(k, RegisterDrain), [], t);
    LeadsOne(s2, ClaimMoves(k, BeginDrain), [ClaimMoves(k, RegisterDrain)], t);
    actions := [ClaimMoves(k, BeginDrain)] + [ClaimMoves(k, RegisterDrain)];
    LeadsOne(s1, ClaimMoves(k, CheckReady), actions, t);
    actions := [ClaimMoves(k, CheckReady)] + actions;
    LeadsOn(Beginning(), first, s1, actions, t);
    actions := first + actions;
  }

  /** A channel leaves drainWaits before it is closed: in between, a request passes admission although the
      channel that an eviction registered after its demand check is still open. */
  lemma {:induction false} RequestIsAdmittedBeforeClose(id: InstanceID, c: CallID, k: CallID)
      returns (actions: seq<Action>, t: State)
    requires c != k
    ensures Init(Beginning()) && Leads(Beginning(), actions, t)
    ensures c in t.calls && t.calls[c] == Request(id, Admitted)
    ensures k in t.calls && t.calls[k] == Claim(id, Eviction, Closing(0)) && 0 !in t.closed
  {
    var first, m := EvictionRegisters(id, k);
    var s1 := Apply(m, ClaimMoves(k, AbortDrain));
    assert s1.calls == map[k := Claim(id, Eviction, Aborting)] && s1.workers == map[id := Ready];
    var s2 := Apply(s1, ClaimMoves(k, RemoveDrain));
    assert s2.calls == map[k := Claim(id, Eviction, Closing(0))] && s2.drainWaits == map[];
    assert Leads(s2, [], s2);
    LeadsOne(s1, ClaimMoves(k, RemoveDrain), [], s2);
    LeadsOne(m, ClaimMoves(k, AbortDrain), [ClaimMoves(k, RemoveDrain)], s2);
    var second := [ClaimMoves(k, AbortDrain)] + [ClaimMoves(k, RemoveDrain)];
    LeadsOn(Beginning(), first, m, second, s2);
    var third;
    third, t := RequestIsAdmitted(s2, id, c);
    LeadsOn(Beginning(), first + second, s2, third, t);
    actions := first + second + third;
  }

  // ----- the order of a request's steps ------------------------------------------------------------------

  /** What a request may do next: whoever has waited for a drain or for the worker tries again from the lock on. */
  predicate RequestFollows(step: RequestStep, next: RequestStep) {
    match step
    case TakeLock => next.CheckDrain?
    case CheckDrain => next.CheckStatus? || next.WakeFromDrain? || next.Cancel?
    case CheckStatus => next.Admit? || next.WorkerInactive? || next.Cancel?
    case Admit => next.EnsureReady?
    case WakeFromDrain => next.TakeLock? || next.Cancel?
    case WorkerInactive => next.TakeLock? || next.Cancel?
    case Cancel => next.Release?
    case EnsureReady(ok) => if ok then next.Activate? else next.Release?
    case Release => false
    case Activate => next.Finish?
    case Finish => false
  }

  predicate MovesRequest(a: Action, c: CallID) { a.RequestMoves? && a.c == c }

  lemma {:induction false} RequestWaits(s: State, a: Action, c: CallID)
    requires Enabled(s, a) && c in s.calls && s.calls[c].Request? && !MovesRequest(a, c)
    ensures c in Apply(s, a).calls && Apply(s, a).calls[c] == s.calls[c]
  {
    hide LockAfter, WorkersAfter, RequestCounts, RegisteredChannel, RequestNext, ClaimNext;
  }

  lemma {:induction false} RequestStays(run: seq<State>, actions: seq<Action>, i: nat, j: nat, c: CallID)
    requires IsRun(run, actions) && i <= j < |run| && c in run[i].calls && run[i].calls[c].Request?
    requires forall k :: i <= k < j ==> !MovesRequest(actions[k], c)
    ensures c in run[j].calls && run[j].calls[c] == run[i].calls[c]
    decreases j
  {
    hide Apply, Enabled, Init;
    if i < j {
      RequestStays(run, actions, i, j - 1, c);
      RequestWaits(run[j - 1], actions[j - 1], c);
    }
  }

  /** Two steps of a request with none of its own in between follow that order. */
  lemma {:induction false} RequestStepsFollow(run: seq<State>, actions: seq<Action>, i: nat, j: nat, c: CallID)
    requires IsRun(run, actions) && i < j < |actions| && MovesRequest(actions[i], c) && MovesRequest(actions[j], c)
    requires forall k :: i < k < j ==> !MovesRequest(actions[k], c)
    ensures RequestFollows(actions[i].request, actions[j].request)
  {
    assert Enabled(run[i], actions[i]) && run[i + 1] == Apply(run[i], actions[i]) && Enabled(run[j], actions[j]);
    assert c in run[i + 1].calls && run[i + 1].calls[c].Request?;
    RequestStays(run, actions, i + 1, j, c);
    hide IsRun, LockAfter, RequestCounts;
  }
}
