/** Worker exits against starts: a start commits its lease, tracks the worker and re-checks its status,
    while exit reports for the same worker may arrive at any moment. */
module WorkerExit {
  import opened Common

  type InstanceID = nat
  type LeaseID = nat
  type CallID = nat
  type PID = p: int | 0 < p witness 1

  // ----- the reservation ledger ---------------------------------------------------------------

  datatype Lease = Lease(owner: InstanceID, committed: bool)

  /** `removed` counts how often each lease has been taken out; ids below `next` have been issued. */
  datatype Ledger = Ledger(leases: map<LeaseID, Lease>, byOwner: map<InstanceID, LeaseID>, next: LeaseID,
        removed: multiset<LeaseID>)

  function LeaseOf(l: Ledger, id: InstanceID): Option<LeaseID> { if id in l.byOwner then Some(l.byOwner[id]) else None }

  function Released(l: Ledger, lease: LeaseID): Ledger {
    if lease !in l.leases then l
    else
      var owner := l.leases[lease].owner;
      Ledger(l.leases - {lease},
             if owner in l.byOwner && l.byOwner[owner] == lease then l.byOwner - {owner} else l.byOwner,
             l.next, l.removed + multiset{lease})
  }

  function ReleasedOwner(l: Ledger, id: InstanceID): Ledger {
    if id in l.byOwner then Released(l, l.byOwner[id]) else l
  }

  // Acquiring gives up the owner's lease first, even when the new one does not fit.
  function Acquired(l: Ledger, id: InstanceID, fits: bool): Ledger {
    var freed := ReleasedOwner(l, id);
    if !fits then freed else Issued(freed, id)
  }

  function Issued(l: Ledger, id: InstanceID): Ledger {
    l.(leases := l.leases[l.next := Lease(id, false)], byOwner := l.byOwner[id := l.next], next := l.next + 1)
  }

  predicate CommitFails(l: Ledger, id: InstanceID) {
    id in l.byOwner && l.byOwner[id] in l.leases && l.leases[l.byOwner[id]].committed
  }

  // Committing an owner without a lease is not an error.
  function CommittedOwner(l: Ledger, id: InstanceID): Ledger {
    if id in l.byOwner && l.byOwner[id] in l.leases
        then l.(leases := l.leases[l.byOwner[id] := Lease(l.leases[l.byOwner[id]].owner, true)]) else l
  }

  class ReservationLedger {
    var leases: map<LeaseID, Lease>
    var byOwner: map<InstanceID, LeaseID>
    var next: LeaseID
    ghost var removed: multiset<LeaseID>

    ghost function Contents(): Ledger
      reads this
    {
      Ledger(leases, byOwner, next, removed)
    }

    constructor ()
      ensures Contents() == Ledger(map[], map[], 0, multiset{})
    {
      leases, byOwner, next, removed := map[], map[], 0, multiset{};
    }

    method Release(lease: LeaseID)
      modifies this
      ensures Contents() == Released(old(Contents()), lease)
    {
      if lease !in leases {
        return;
      }
      var owner := leases[lease].owner;
      leases := leases - {lease};
      if owner in byOwner && byOwner[owner] == lease {
        byOwner := byOwner - {owner};
      }
      removed := removed + multiset{lease};
    }

    method ReleaseInstance(id: InstanceID)
      modifies this
      ensures Contents() == ReleasedOwner(old(Contents()), id)
    {
      if id in byOwner {
        Release(byOwner[id]);
      }
    }

    method Acquire(id: InstanceID, fits: bool) returns (lease: Option<LeaseID>)
      modifies this
      ensures Contents() == Acquired(old(Contents()), id, fits)
      ensures lease == if fits then Some(old(next)) else None
    {
      ReleaseInstance(id);
      if !fits {
        return None;
      }
      lease := Some(next);
      leases := leases[next := Lease(id, false)];
      byOwner := byOwner[id := next];
      next := next + 1;
    }

    method CommitInstance(id: InstanceID) returns (ok: bool)
      modifies this
      ensures ok == !CommitFails(old(Contents()), id)
      ensures Contents() == if ok then CommittedOwner(old(Contents()), id) else old(Contents())
    {
      if id !in byOwner || byOwner[id] !in leases {
        return true;
      }
      var lease := byOwner[id];
      if leases[lease].committed {
        return false;
      }
      leases := leases[lease := Lease(leases[lease].owner, true)];
      return true;
    }
  }

  // ----- the committed workers ------------------------------------------------------------------

  datatype Tracked = Tracked(pid: PID, lease: LeaseID)

  type Table = map<InstanceID, Tracked>

  // The tracked lease of an exited worker, when it is that worker's.
  function Match(tracked: Table, id: InstanceID, pid: PID): Option<LeaseID> {
    if id in tracked && tracked[id].pid == pid then Some(tracked[id].lease) else None
  }

  class CommittedWorkers {
    var tracked: Table

    constructor ()
      ensures tracked == map[]
    {
      tracked := map[];
    }

    method TrackCommittedWorker(id: InstanceID, pid: PID, lease: LeaseID)
      modifies this
      ensures tracked == old(tracked)[id := Tracked(pid, lease)]
    {
      tracked := tracked[id := Tracked(pid, lease)];
    }

    method HandleWorkerExit(id: InstanceID, pid: PID, ledger: ReservationLedger)
      modifies this, ledger
      ensures tracked == if Match(old(tracked), id, pid).Some? then old(tracked) - {id} else old(tracked)
      ensures var lease := Match(old(tracked), id, pid);
        ledger.Contents() == if lease.Some? then Released(old(ledger.Contents()), lease.value)
            else old(ledger.Contents())
    {
      if id !in tracked || tracked[id].pid != pid {
        return;
      }
      var lease := tracked[id].lease;
      tracked := tracked - {id};
      ledger.Release(lease);
    }
  }

  // ----- the protocol -----------------------------------------------------------------------------

  datatype WorkerState = Loading | Ready | Draining | Stopping

  // A worker the supervisor still has; it leaves the map in the step that makes it inactive.
  datatype Worker = Worker(pid: PID, state: WorkerState)

  datatype StarterPc =
    | Begin
    | Leased
    | Launched(pid: PID)
    | SawEndpoint(pid: PID)
    | Committed(pid: PID)
    | Tracking(pid: PID, lease: LeaseID)
    | Rechecking(pid: PID)
    | Failing
    | Finished

  datatype Starter = Starter(id: InstanceID, pc: StarterPc)

  datatype ReportPc = Reported | Releasing(lease: LeaseID) | Done

  /** A call of the exit handler; `exited` when the supervisor made it, otherwise a start's re-check did. */
  datatype Report = Report(id: InstanceID, pid: PID, exited: bool, pc: ReportPc)

  datatype Binding = Binding(id: InstanceID, pid: PID, lease: LeaseID)

  /** Three fields are history: `owners` tells for whom each lease was issued, `bound` which workers a lease
      was ever tracked for, and `lost` the lease that an instance had in the ledger when the last start to
      track it tracked one that was no longer there. */
  datatype State = State(
    ledger: Ledger, tracked: Table, workers: map<InstanceID, Worker>, starters: map<CallID, Starter>,
    reports: map<CallID, Report>,
    owners: map<LeaseID, InstanceID>, bound: set<Binding>, lost: map<InstanceID, LeaseID>)

  predicate Init(s: State) {
    && s.ledger == Ledger(map[], map[], 0, multiset{}) && s.tracked == map[] && s.workers == map[]
    && s.starters == map[] && s.reports == map[] && s.owners == map[] && s.bound == {} && s.lost == map[]
  }

  datatype StarterStep =
    | AcquireLease(fits: bool)
    | Launch(pid: PID)
    | CheckEndpoint
    | CommitLease
    | FindLease
    | Track
    | Recheck(report: CallID)
    | Fail
    | GiveBack

  datatype Action =
    | StartAttempt(c: CallID, id: InstanceID)
    | StarterMoves(c: CallID, step: StarterStep)
    | WorkerChanges(id: InstanceID, state: WorkerState)
    | WorkerExits(id: InstanceID, report: CallID)
    | ReportMoves(r: CallID)
    | StopReleases(id: InstanceID)               // stop, kill and restart release the instance's lease
    | PendingExpires(lease: LeaseID)

  // No other report about this process is under way: the system does not reuse the pid so soon.
  predicate Unreported(reports: map<CallID, Report>, id: InstanceID, pid: PID) {
    forall r :: r in reports && !reports[r].pc.Done? && reports[r].id == id ==> reports[r].pid != pid
  }

  // Starts of one instance overlap freely, and one without a hardware snapshot launches without a lease.
  predicate StarterEnabled(s: State, c: CallID, step: StarterStep) {
    && c in s.starters
    && var Starter(id, pc) := s.starters[c];
       match step
       case AcquireLease(_) => pc.Begin? || pc.Leased?
       case Launch(pid) =>
         && (pc.Begin? || pc.Leased?)
         && if id in s.workers then pid == s.workers[id].pid
             && (s.workers[id].state.Loading? || s.workers[id].state.Ready?)
            else Unreported(s.reports, id, pid)
       case CheckEndpoint => pc.Launched?
       case CommitLease => pc.SawEndpoint?
       case FindLease => pc.Committed?
       case Track => pc.Tracking?
       case Recheck(report) => pc.Rechecking? && report !in s.reports
       case Fail => pc.Begin? || pc.Leased? || pc.Launched? || pc.SawEndpoint?
       case GiveBack => pc.Failing?
  }

  predicate Enabled(s: State, a: Action) {
    match a
    case StartAttempt(c, id) => c !in s.starters
    case StarterMoves(c, step) => StarterEnabled(s, c, step)
    case WorkerChanges(id, state) => id in s.workers
    case WorkerExits(id, report) => id in s.workers && report !in s.reports
    case ReportMoves(r) => r in s.reports && !s.reports[r].pc.Done?
    case StopReleases(id) => true
    case PendingExpires(lease) => lease in s.ledger.leases && !s.ledger.leases[lease].committed
  }

  predicate Has(s: State, id: InstanceID, pid: PID) { id in s.workers && s.workers[id].pid == pid }

  predicate IsReady(s: State, id: InstanceID) { id in s.workers && s.workers[id].state.Ready? }

  predicate IsReadyWith(s: State, id: InstanceID, pid: PID) { IsReady(s, id) && s.workers[id].pid == pid }

  function StarterNext(s: State, c: CallID, step: StarterStep): StarterPc
    requires StarterEnabled(s, c, step)
  {
    var Starter(id, pc) := s.starters[c];
    match step
    case AcquireLease(fits) => if fits then Leased else Begin
    case Launch(pid) => Launched(pid)
    case CheckEndpoint => if IsReady(s, id) then SawEndpoint(pc.pid) else Failing
    case CommitLease => if CommitFails(s.ledger, id) then Failing else Committed(pc.pid)
    case FindLease => if LeaseOf(s.ledger, id).Some? then Tracking(pc.pid, s.ledger.byOwner[id]) else Finished
    case Track => Rechecking(pc.pid)
    case Recheck(_) => Finished
    case Fail => Failing
    case GiveBack => Finished
  }

  function LedgerAfter(s: State, c: CallID, step: StarterStep): Ledger
    requires StarterEnabled(s, c, step)
  {
    var id := s.starters[c].id;
    match step
    case AcquireLease(fits) => Acquired(s.ledger, id, fits)
    case CommitLease => if CommitFails(s.ledger, id) then s.ledger else CommittedOwner(s.ledger, id)
    case GiveBack => ReleasedOwner(s.ledger, id)
    case _ => s.ledger
  }

  function OwnersAfter(s: State, c: CallID, step: StarterStep): map<LeaseID, InstanceID>
    requires StarterEnabled(s, c, step)
  {
    if step.AcquireLease? && step.fits then s.owners[s.ledger.next := s.starters[c].id] else s.owners
  }

  // Whether a start tracks a lease that has left the ledger since it found it.
  predicate TracksStale(s: State, c: CallID) {
    c in s.starters && s.starters[c].pc.Tracking? && s.starters[c].pc.lease !in s.ledger.leases
  }

  function LostAfter(s: State, id: InstanceID, stale: bool): map<InstanceID, LeaseID> {
    if stale && id in s.ledger.byOwner then s.lost[id := s.ledger.byOwner[id]] else s.lost - {id}
  }

  function StarterApply(s: State, c: CallID, step: StarterStep): State
    requires StarterEnabled(s, c, step)
  {
    var Starter(id, pc) := s.starters[c];
    var moved := s.(starters := s.starters[c := Starter(id, StarterNext(s, c, step))],
        ledger := LedgerAfter(s, c, step),
                    owners := OwnersAfter(s, c, step));
    match step
    case Launch(pid) => if id in s.workers then moved else moved.(workers := s.workers[id := Worker(pid, Loading)])
    case Track =>
      moved.(tracked := s.tracked[id := Tracked(pc.pid, pc.lease)], bound := s.bound + {Binding(id, pc.pid, pc.lease)},
             lost := LostAfter(s, id, TracksStale(s, c)))
    case Recheck(report) =>
      if IsReadyWith(s, id, pc.pid) then moved
          else moved.(reports := s.reports[report := Report(id, pc.pid, false, Reported)])
    case _ => moved
  }

  function ReportApply(s: State, r: CallID): State
    requires r in s.reports && !s.reports[r].pc.Done?
  {
    var Report(id, pid, exited, pc) := s.reports[r];
    if pc.Releasing? then
      s.(ledger := Released(s.ledger, pc.lease), reports := s.reports[r := Report(id, pid, exited, Done)])
    else
      match Match(s.tracked, id, pid)
      case None => s.(reports := s.reports[r := Report(id, pid, exited, Done)])
      case Some(lease) => s.(tracked := s.tracked - {id},
          reports := s.reports[r := Report(id, pid, exited, Releasing(lease))])
  }

  function Apply(s: State, a: Action): State
    requires Enabled(s, a)
  {
    match a
    case StartAttempt(c, id) => s.(starters := s.starters[c := Starter(id, Begin)])
    case StarterMoves(c, step) => StarterApply(s, c, step)
    case WorkerChanges(id, state) => s.(workers := s.workers[id := Worker(s.workers[id].pid, state)])
    case WorkerExits(id, report) =>
      s.(workers := s.workers - {id}, reports := s.reports[report := Report(id, s.workers[id].pid, true, Reported)])
    case ReportMoves(r) => ReportApply(s, r)
    case StopReleases(id) => s.(ledger := ReleasedOwner(s.ledger, id))
    case PendingExpires(lease) => s.(ledger := Released(s.ledger, lease))
  }

  ghost predicate IsRun(run: seq<State>, actions: seq<Action>) {
    && |run| == |actions| + 1
    && Init(run[0])
    && forall i :: 0 <= i < |actions| ==> Enabled(run[i], actions[i]) && run[i + 1] == Apply(run[i], actions[i])
  }

  // ----- invariant ---------------------------------------------------------------------------------

  ghost predicate LedgerInv(l: Ledger) {
    && (forall k :: k in l.leases ==> k < l.next && l.leases[k].owner in l.byOwner && l.byOwner[l.leases[k].owner] == k)
    && (forall id :: id in l.byOwner ==> l.byOwner[id] in l.leases && l.leases[l.byOwner[id]].owner == id)
    && (forall k: LeaseID :: l.removed[k] == if k < l.next && k !in l.leases then 1 else 0)
  }

  ghost predicate OwnersInv(l: Ledger, owners: map<LeaseID, InstanceID>) {
    && (forall k :: k in owners ==> k < l.next)
    && (forall k :: k in l.leases ==> k in owners && owners[k] == l.leases[k].owner)
  }

  predicate Owns(owners: map<LeaseID, InstanceID>, id: InstanceID, k: LeaseID) { k in owners && owners[k] == id }

  // What is tracked, or about to be, was issued for its instance.
  ghost predicate FoundInv(owners: map<LeaseID, InstanceID>, starters: map<CallID, Starter>, tracked: Table) {
    && (forall c :: c in starters && starters[c].pc.Tracking? ==> Owns(owners, starters[c].id, starters[c].pc.lease))
    && (forall id :: id in tracked ==> Owns(owners, id, tracked[id].lease))
  }

  ghost predicate BoundInv(tracked: Table, reports: map<CallID, Report>, bound: set<Binding>) {
    && (forall id :: id in tracked ==> Binding(id, tracked[id].pid, tracked[id].lease) in bound)
    && (forall r :: r in reports && reports[r].pc.Releasing? ==>
        Binding(reports[r].id, reports[r].pid, reports[r].pc.lease) in bound)
  }

  ghost predicate BoundOwned(owners: map<LeaseID, InstanceID>, bound: set<Binding>) {
    forall b :: b in bound ==> Owns(owners, b.id, b.lease)
  }

  // A process with a report of the supervisor under way is gone.
  ghost predicate ReportedGone(reports: map<CallID, Report>, workers: map<InstanceID, Worker>) {
    forall r :: r in reports && reports[r].exited && !reports[r].pc.Done? && reports[r].id in workers ==>
      workers[reports[r].id].pid != reports[r].pid
  }

  // A lost lease is not the tracked one.
  ghost predicate LostInv(owners: map<LeaseID, InstanceID>, tracked: Table, lost: map<InstanceID, LeaseID>) {
    forall id :: id in lost ==> Owns(owners, id, lost[id]) && (id in tracked ==> tracked[id].lease != lost[id])
  }

  predicate HoldsPending(st: Starter, id: InstanceID) {
    st.id == id && (st.pc.Leased? || st.pc.Launched? || st.pc.SawEndpoint? || st.pc.Failing?)
  }

  ghost predicate SomeHolder(starters: map<CallID, Starter>, id: InstanceID) {
    exists c :: c in starters && HoldsPending(starters[c], id)
  }

  // A lease that is still pending has a start that will commit it or give it back.
  ghost predicate PendingInv(s: State) {
    forall k :: k in s.ledger.leases && !s.ledger.leases[k].committed ==>
        SomeHolder(s.starters, s.ledger.leases[k].owner)
  }

  // A start that will still see to this lease.
  predicate StarterSees(st: Starter, id: InstanceID, k: LeaseID) {
    st.id == id && (st.pc.Committed? || (st.pc.Tracking? && st.pc.lease == k))
  }

  ghost predicate SomeStarterSees(starters: map<CallID, Starter>, id: InstanceID, k: LeaseID) {
    exists c :: c in starters && StarterSees(starters[c], id, k)
  }

  predicate Rechecks(st: Starter, id: InstanceID, pid: PID) { st.id == id && st.pc.Rechecking? && st.pc.pid == pid }

  ghost predicate SomeRecheck(starters: map<CallID, Starter>, id: InstanceID, pid: PID) {
    exists c :: c in starters && Rechecks(starters[c], id, pid)
  }

  predicate Reports(r: Report, id: InstanceID, pid: PID) { r.id == id && r.pid == pid && r.pc.Reported? }

  ghost predicate SomeReport(reports: map<CallID, Report>, id: InstanceID, pid: PID) {
    exists r :: r in reports && Reports(reports[r], id, pid)
  }

  predicate Releases(r: Report, id: InstanceID, k: LeaseID) { r.id == id && r.pc == Releasing(k) }

  ghost predicate SomeRelease(reports: map<CallID, Report>, id: InstanceID, k: LeaseID) {
    exists r :: r in reports && Releases(reports[r], id, k)
  }

  // Someone will notice when the tracked worker is gone.
  ghost predicate Watched(s: State, id: InstanceID, pid: PID) {
    Has(s, id, pid) || SomeReport(s.reports, id, pid) || SomeRecheck(s.starters, id, pid)
  }

  ghost predicate Accounted(s: State, id: InstanceID, k: LeaseID) {
    || (id in s.lost && s.lost[id] == k)
    || SomeStarterSees(s.starters, id, k)
    || SomeRelease(s.reports, id, k)
    || (id in s.tracked && s.tracked[id].lease == k && Watched(s, id, s.tracked[id].pid))
  }

  ghost predicate AccountedInv(s: State) {
    forall k :: k in s.ledger.leases && s.ledger.leases[k].committed ==> Accounted(s, s.ledger.leases[k].owner, k)
  }

  // What is said of leases and their owners.
  ghost predicate OwnedInv(s: State) {
    && LedgerInv(s.ledger) && OwnersInv(s.ledger, s.owners) && FoundInv(s.owners, s.starters, s.tracked)
    && BoundInv(s.tracked, s.reports, s.bound) && BoundOwned(s.owners, s.bound) && ReportedGone(s.reports, s.workers)
    && LostInv(s.owners, s.tracked, s.lost)
  }

  ghost predicate Inv(s: State) { OwnedInv(s) && PendingInv(s) && AccountedInv(s) }

  ghost predicate Shrinks(l: Ledger, after: Ledger) {
    && after.next == l.next
    && (forall k :: k in after.leases ==> k in l.leases && after.leases[k] == l.leases[k])
    && (forall id :: id in after.byOwner ==> id in l.byOwner && after.byOwner[id] == l.byOwner[id])
  }

  lemma {:induction false} ReleaseKeepsLedger(l: Ledger, k: LeaseID)
    requires LedgerInv(l)
    ensures LedgerInv(Released(l, k)) && Shrinks(l, Released(l, k)) && k !in Released(l, k).leases
  {
  }

  lemma {:induction false} ReleaseOwnerKeepsLedger(l: Ledger, id: InstanceID)
    requires LedgerInv(l)
    ensures LedgerInv(ReleasedOwner(l, id)) && Shrinks(l, ReleasedOwner(l, id)) && id !in ReleasedOwner(l, id).byOwner
    ensures forall k :: k in ReleasedOwner(l, id).leases ==> ReleasedOwner(l, id).leases[k].owner != id
  {
    if id in l.byOwner { ReleaseKeepsLedger(l, l.byOwner[id]); }
  }

  lemma {:induction false} IssueKeepsLedger(l: Ledger, id: InstanceID)
    requires LedgerInv(l) && id !in l.byOwner
    ensures LedgerInv(Issued(l, id))
  {
  }

  lemma {:induction false} AcquireKeepsLedger(l: Ledger, id: InstanceID, fits: bool)
    requires LedgerInv(l)
    ensures var after := Acquired(l, id, fits);
      && LedgerInv(after)
      && (forall k :: k in after.leases && k != l.next ==>
          k in l.leases && after.leases[k] == l.leases[k] && l.leases[k].owner != id)
      && (forall j :: j in after.byOwner && j != id ==> j in l.byOwner && after.byOwner[j] == l.byOwner[j])
      && (if fits then id in after.byOwner && after.byOwner[id] == l.next && after.leases[l.next] == Lease(id, false)
          && after.next == l.next + 1
          else id !in after.byOwner && l.next !in after.leases && after.next == l.next)
  {
    ReleaseOwnerKeepsLedger(l, id);
    IssueKeepsLedger(ReleasedOwner(l, id), id);
    assert l.next !in l.leases;
    hide ReleasedOwner, LedgerInv;
  }

  lemma {:induction false} CommitKeepsLedger(l: Ledger, id: InstanceID)
    requires LedgerInv(l) && !CommitFails(l, id)
    ensures var after := CommittedOwner(l, id);
      && LedgerInv(after) && after.byOwner == l.byOwner && after.next == l.next && after.leases.Keys == l.leases.Keys
      && (forall k :: k in l.leases ==> after.leases[k].owner == l.leases[k].owner)
      && (forall k :: k in l.leases && after.leases[k] != l.leases[k] ==> id in l.byOwner && l.byOwner[id] == k)
  {
  }

  // ----- the parts of the invariant, step by step -----------------------------------------------------

  // What a start's own step does to the ledger.
  ghost predicate LedgerMoves(l: Ledger, after: Ledger, id: InstanceID, fits: bool, commits: bool) {
    && LedgerInv(after)
    && after.next == (if fits then l.next + 1 else l.next)
    && (forall k :: k in after.leases && !(fits && k == l.next) ==>
          && k in l.leases && after.leases[k].owner == l.leases[k].owner
          && (after.leases[k] == l.leases[k]
              || (commits && after.leases[k] == Lease(id, true) && l.leases[k].owner == id)))
    && (fits ==> l.next in after.leases && after.leases[l.next] == Lease(id, false))
  }

  lemma {:induction false} StarterLedger(s: State, c: CallID, step: StarterStep)
    requires LedgerInv(s.ledger) && StarterEnabled(s, c, step)
    ensures var id := s.starters[c].id;
      var l := LedgerAfter(s, c, step);
      && LedgerMoves(s.ledger, l, id, step.AcquireLease? && step.fits, step.CommitLease?
          && StarterNext(s, c, step).Committed?)
      && (step.AcquireLease? || step.GiveBack? ==>
            forall k :: k in l.leases && k != s.ledger.next ==> l.leases[k].owner != id)
      && (step.GiveBack? ==> id !in l.byOwner)
      && (step.CommitLease? ==> forall k :: k in l.leases && l.leases[k].owner == id ==> l.leases[k].committed)
      && (step.AcquireLease? || step.GiveBack? || step.CommitLease? || l == s.ledger)
  {
    var id := s.starters[c].id;
    match step
    case AcquireLease(fits) => AcquireKeepsLedger(s.ledger, id, fits); hide Acquired;
    case GiveBack => ReleaseOwnerKeepsLedger(s.ledger, id); hide ReleasedOwner;
    case CommitLease =>
      if !CommitFails(s.ledger, id) {
        CommitKeepsLedger(s.ledger, id);
      }
    case _ =>
  }

  ghost predicate OwnersGrow(owners: map<LeaseID, InstanceID>, after: map<LeaseID, InstanceID>) {
    forall k :: k in owners ==> k in after && after[k] == owners[k]
  }

  lemma {:induction false} StarterKeepsOwners(s: State, c: CallID, step: StarterStep)
    requires LedgerInv(s.ledger) && OwnersInv(s.ledger, s.owners) && StarterEnabled(s, c, step)
    ensures OwnersInv(LedgerAfter(s, c, step), OwnersAfter(s, c, step)) && OwnersGrow(s.owners, OwnersAfter(s, c, step))
  {
    StarterLedger(s, c, step);
    var id, l := s.starters[c].id, LedgerAfter(s, c, step);
    OwnersFollow(s.ledger, l, s.owners, id, step.AcquireLease? && step.fits, step.CommitLease?
        && StarterNext(s, c, step).Committed?);
    hide LedgerAfter, LedgerInv, StarterNext, LedgerMoves, OwnersInv, OwnersGrow;
  }

  lemma {:induction false} OwnersFollow(l: Ledger, after: Ledger, owners: map<LeaseID, InstanceID>, id: InstanceID,
        fits: bool, commits: bool)
    requires OwnersInv(l, owners) && LedgerMoves(l, after, id, fits, commits)
    ensures var owners' := if fits then owners[l.next := id] else owners;
      OwnersInv(after, owners') && OwnersGrow(owners, owners')
  {
    hide LedgerInv;
  }

  // The tables under more owners, and with one start's new position.
  lemma {:induction false} TablesGrow(s: State, owners: map<LeaseID, InstanceID>, c: CallID, st: Starter)
    requires OwnersGrow(s.owners, owners) && FoundInv(s.owners, s.starters, s.tracked) && BoundOwned(s.owners, s.bound)
    requires LostInv(s.owners, s.tracked, s.lost) && (st.pc.Tracking? ==> Owns(owners, st.id, st.pc.lease))
    ensures FoundInv(owners, s.starters[c := st], s.tracked) && BoundOwned(owners, s.bound)
        && LostInv(owners, s.tracked, s.lost)
  {
    assert forall id, k :: Owns(s.owners, id, k) ==> Owns(owners, id, k);
    hide Owns;
  }

  lemma {:induction false} TableTracks(owners: map<LeaseID, InstanceID>, starters: map<CallID, Starter>, tracked: Table,
        reports: map<CallID, Report>, bound: set<Binding>, lost: map<InstanceID, LeaseID>,
        lost': map<InstanceID, LeaseID>, id: InstanceID, pid: PID, k: LeaseID)
    requires FoundInv(owners, starters, tracked) && BoundInv(tracked, reports, bound) && BoundOwned(owners, bound)
        && LostInv(owners, tracked, lost)
    requires Owns(owners, id, k)
    requires forall j :: j in lost' ==> if j == id then Owns(owners, id, lost'[j]) && lost'[j] != k
        else j in lost && lost[j] == lost'[j]
    ensures var after := tracked[id := Tracked(pid, k)];
      && FoundInv(owners, starters, after) && BoundInv(after, reports, bound + {Binding(id, pid, k)})
      && BoundOwned(owners, bound + {Binding(id, pid, k)}) && LostInv(owners, after, lost')
  {
    hide Owns;
  }

  // What a start tracks was issued for its instance.
  lemma {:induction false} TrackKeepsTables(s: State, c: CallID)
    requires OwnedInv(s) && StarterEnabled(s, c, Track)
    ensures var after := StarterApply(s, c, Track);
      && FoundInv(after.owners, after.starters, after.tracked) && BoundInv(after.tracked, after.reports, after.bound)
      && BoundOwned(after.owners, after.bound) && LostInv(after.owners, after.tracked, after.lost)
  {
    var Starter(id, pc) := s.starters[c];
    assert Owns(s.owners, id, pc.lease);
    var lost := LostAfter(s, id, TracksStale(s, c));
    forall j | j in lost
      ensures if j == id then Owns(s.owners, id, lost[j]) && lost[j] != pc.lease
          else j in s.lost && s.lost[j] == lost[j]
    {
    }
    hide LedgerInv, OwnersInv, ReportedGone, LostAfter, FoundInv, BoundInv, BoundOwned, LostInv, Owns;
    TablesGrow(s, s.owners, c, Starter(id, Rechecking(pc.pid)));
    TableTracks(s.owners, s.starters[c := Starter(id, Rechecking(pc.pid))], s.tracked, s.reports, s.bound, s.lost, lost,
        id, pc.pid, pc.lease);
  }

  // Other steps leave the tables, and what they find they find in the ledger.
  lemma {:induction false} OthersKeepTables(s: State, c: CallID, step: StarterStep)
    requires OwnedInv(s) && StarterEnabled(s, c, step) && !step.Track?
    ensures var after := StarterApply(s, c, step);
      && FoundInv(after.owners, after.starters, after.tracked) && BoundInv(after.tracked, after.reports, after.bound)
      && BoundOwned(after.owners, after.bound) && LostInv(after.owners, after.tracked, after.lost)
  {
    StarterKeepsOwners(s, c, step);
    var after := StarterApply(s, c, step);
    var st := after.starters[c];
    assert st.pc.Tracking? ==> Owns(s.owners, st.id, st.pc.lease) && after.owners == s.owners;
    TablesGrow(s, after.owners, c, st);
    if step.Recheck? {
      NewReportKeepsBound(s.tracked, s.reports, s.bound, step.report,
          Report(st.id, s.starters[c].pc.pid, false, Reported));
    }
    hide LedgerAfter, OwnersAfter, StarterNext, LedgerInv, OwnersInv, ReportedGone, FoundInv, BoundInv, BoundOwned,
        LostInv, Owns, OwnersGrow;
  }

  lemma {:induction false} NewReportKeepsBound(tracked: Table, reports: map<CallID, Report>, bound: set<Binding>,
        r: CallID, rep: Report)
    requires BoundInv(tracked, reports, bound) && r !in reports && rep.pc.Reported?
    ensures BoundInv(tracked, reports[r := rep], bound)
  {
  }

  lemma {:induction false} StarterKeepsGone(s: State, c: CallID, step: StarterStep)
    requires ReportedGone(s.reports, s.workers) && StarterEnabled(s, c, step)
    ensures ReportedGone(StarterApply(s, c, step).reports, StarterApply(s, c, step).workers)
  {
    hide LedgerAfter, OwnersAfter, StarterNext, LostAfter;
  }

  lemma {:induction false} StarterKeepsOwned(s: State, c: CallID, step: StarterStep)
    requires OwnedInv(s) && StarterEnabled(s, c, step)
    ensures OwnedInv(StarterApply(s, c, step))
  {
    StarterLedger(s, c, step);
    StarterKeepsOwners(s, c, step);
    if step.Track? { TrackKeepsTables(s, c); } else { OthersKeepTables(s, c, step); }
    StarterKeepsGone(s, c, step);
    hide LedgerInv, OwnersInv, FoundInv, BoundInv, BoundOwned, LostInv, ReportedGone, LedgerAfter, OwnersAfter,
        StarterNext;
  }

  // ----- who still sees to a lease ----------------------------------------------------------------------

  lemma {:induction false} StarterMovesOn(starters: map<CallID, Starter>, c: CallID, st: Starter, id: InstanceID,
        k: LeaseID, pid: PID)
    ensures SomeStarterSees(starters, id, k) && !(c in starters && StarterSees(starters[c], id, k)) ==>
        SomeStarterSees(starters[c := st], id, k)
    ensures StarterSees(st, id, k) ==> SomeStarterSees(starters[c := st], id, k)
    ensures SomeRecheck(starters, id, pid) && !(c in starters && Rechecks(starters[c], id, pid)) ==>
        SomeRecheck(starters[c := st], id, pid)
    ensures Rechecks(st, id, pid) ==> SomeRecheck(starters[c := st], id, pid)
    ensures SomeHolder(starters, id) && !(c in starters && HoldsPending(starters[c], id)) ==>
        SomeHolder(starters[c := st], id)
    ensures HoldsPending(st, id) ==> SomeHolder(starters[c := st], id)
  {
    var after := starters[c := st];
    assert c in after && after[c] == st;
    if SomeStarterSees(starters, id, k) && !(c in starters && StarterSees(starters[c], id, k)) {
      var d :| d in starters && StarterSees(starters[d], id, k);
      assert StarterSees(after[d], id, k);
    }
    if SomeRecheck(starters, id, pid) && !(c in starters && Rechecks(starters[c], id, pid)) {
      var d :| d in starters && Rechecks(starters[d], id, pid);
      assert Rechecks(after[d], id, pid);
    }
    if SomeHolder(starters, id) && !(c in starters && HoldsPending(starters[c], id)) {
      var d :| d in starters && HoldsPending(starters[d], id);
      assert HoldsPending(after[d], id);
    }
  }

  lemma {:induction false} ReportMovesOn(reports: map<CallID, Report>, r: CallID, rep: Report, id: InstanceID,
        k: LeaseID, pid: PID)
    ensures SomeReport(reports, id, pid) && !(r in reports && Reports(reports[r], id, pid)) ==>
        SomeReport(reports[r := rep], id, pid)
    ensures Reports(rep, id, pid) ==> SomeReport(reports[r := rep], id, pid)
    ensures SomeRelease(reports, id, k) && !(r in reports && Releases(reports[r], id, k)) ==>
        SomeRelease(reports[r := rep], id, k)
    ensures Releases(rep, id, k) ==> SomeRelease(reports[r := rep], id, k)
  {
    var after := reports[r := rep];
    assert after[r] == rep;
    if SomeReport(reports, id, pid) && !(r in reports && Reports(reports[r], id, pid)) {
      var q :| q in reports && Reports(reports[q], id, pid);
      assert Reports(after[q], id, pid);
    }
    if SomeRelease(reports, id, k) && !(r in reports && Releases(reports[r], id, k)) {
      var q :| q in reports && Releases(reports[q], id, k);
      assert Releases(after[q], id, k);
    }
  }

  // The pid whose exit matters to an instance's tracked lease.
  function TrackedPid(s: State, id: InstanceID): PID { if id in s.tracked then s.tracked[id].pid else 1 }

  lemma {:induction false} StarterKeepsPending(s: State, c: CallID, step: StarterStep)
    requires LedgerInv(s.ledger) && PendingInv(s) && StarterEnabled(s, c, step)
    ensures PendingInv(StarterApply(s, c, step))
  {
    var after := StarterApply(s, c, step);
    StarterLedger(s, c, step);
    forall k | k in after.ledger.leases && !after.ledger.leases[k].committed
      ensures SomeHolder(after.starters, after.ledger.leases[k].owner)
    {
      StarterMovesOn(s.starters, c, after.starters[c], after.ledger.leases[k].owner, k, 1);
      hide SomeHolder, LedgerAfter, LedgerInv, OwnersAfter;
    }
    hide SomeHolder;
  }

  lemma {:induction false} TrackKeepsAccount(s: State, c: CallID, k: LeaseID)
    requires OwnedInv(s) && StarterEnabled(s, c, Track) && k in s.ledger.leases
        && Accounted(s, s.ledger.leases[k].owner, k)
    ensures Accounted(StarterApply(s, c, Track), s.ledger.leases[k].owner, k)
  {
    var owner := s.ledger.leases[k].owner;
    var Starter(id, pc) := s.starters[c];
    assert s.ledger.byOwner[owner] == k && (owner == id && !TracksStale(s, c) ==> pc.lease == k) by {
      assert Owns(s.owners, id, pc.lease);
    }
    StarterMovesOn(s.starters, c, Starter(id, Rechecking(pc.pid)), owner, k, TrackedPid(s, owner));
    StarterMovesOn(s.starters, c, Starter(id, Rechecking(pc.pid)), owner, k, pc.pid);
    hide SomeStarterSees, SomeRecheck, SomeReport, SomeRelease;
  }

  lemma {:induction false} RecheckKeepsAccount(s: State, c: CallID, report: CallID, k: LeaseID)
    requires StarterEnabled(s, c, Recheck(report)) && k in s.ledger.leases && Accounted(s, s.ledger.leases[k].owner, k)
    ensures Accounted(StarterApply(s, c, Recheck(report)), s.ledger.leases[k].owner, k)
  {
    var owner := s.ledger.leases[k].owner;
    var Starter(id, pc) := s.starters[c];
    StarterMovesOn(s.starters, c, Starter(id, Finished), owner, k, TrackedPid(s, owner));
    ReportMovesOn(s.reports, report, Report(id, pc.pid, false, Reported), owner, k, TrackedPid(s, owner));
    hide SomeStarterSees, SomeRecheck, SomeReport, SomeRelease;
  }

  lemma {:induction false} PositionKeepsAccount(s: State, after: State, c: CallID, id: InstanceID, k: LeaseID)
    requires c in s.starters && c in after.starters && after.starters == s.starters[c := after.starters[c]]
    requires after.tracked == s.tracked && after.lost == s.lost && after.reports == s.reports
        && !s.starters[c].pc.Rechecking?
    requires forall pid :: Has(s, id, pid) ==> Has(after, id, pid)
    requires StarterSees(s.starters[c], id, k) ==> StarterSees(after.starters[c], id, k)
    requires Accounted(s, id, k) || StarterSees(after.starters[c], id, k)
    ensures Accounted(after, id, k)
  {
    StarterMovesOn(s.starters, c, after.starters[c], id, k, TrackedPid(s, id));
    hide SomeStarterSees, SomeRecheck, SomeReport, SomeRelease, StarterSees, Has;
  }

  // What a start's step does to the state around it.
  lemma {:induction false} StarterTouches(s: State, c: CallID, step: StarterStep)
    requires StarterEnabled(s, c, step)
    ensures var after := StarterApply(s, c, step);
      var id := s.starters[c].id;
      && after.starters == s.starters[c := Starter(id, StarterNext(s, c, step))]
          && after.ledger == LedgerAfter(s, c, step)
      && after.reports == (if step.Recheck? && !IsReadyWith(s, id, s.starters[c].pc.pid)
                           then s.reports[step.report := Report(id, s.starters[c].pc.pid, false, Reported)]
                               else s.reports)
      && after.workers == (if step.Launch? && id !in s.workers then s.workers[id := Worker(step.pid, Loading)]
          else s.workers)
      && after.owners == OwnersAfter(s, c, step)
      && (step.Track? || (after.tracked == s.tracked && after.lost == s.lost))
  {
    hide LedgerAfter, StarterNext, OwnersAfter, LostAfter;
  }

  // A start that sees to a lease goes on to, and so does one that commits it.
  lemma {:induction false} StarterStillSees(s: State, c: CallID, step: StarterStep, k: LeaseID)
    requires LedgerInv(s.ledger) && StarterEnabled(s, c, step) && !step.Track? && !step.Recheck?
    requires var l := LedgerAfter(s, c, step); k in l.leases && l.leases[k].committed
    ensures k in s.ledger.leases && s.ledger.leases[k].owner == LedgerAfter(s, c, step).leases[k].owner
    ensures var owner, st := s.ledger.leases[k].owner, Starter(s.starters[c].id, StarterNext(s, c, step));
      && !s.starters[c].pc.Rechecking?
      && (StarterSees(s.starters[c], owner, k) || !s.ledger.leases[k].committed ==> StarterSees(st, owner, k))
  {
    StarterLedger(s, c, step);
    var owner := s.ledger.leases[k].owner;
    assert s.ledger.byOwner[owner] == k;
    hide LedgerAfter, LedgerInv;
  }

  lemma {:induction false} StarterKeepsAccount(s: State, c: CallID, step: StarterStep, k: LeaseID)
    requires OwnedInv(s) && AccountedInv(s) && StarterEnabled(s, c, step)
    requires var l := LedgerAfter(s, c, step); k in l.leases && l.leases[k].committed
    ensures Accounted(StarterApply(s, c, step), LedgerAfter(s, c, step).leases[k].owner, k)
  {
    hide Accounted, StarterApply;
    if step.Track? {
      TrackKeepsAccount(s, c, k);
    } else if step.Recheck? {
      RecheckKeepsAccount(s, c, step.report, k);
    } else {
      StarterTouches(s, c, step);
      StarterStillSees(s, c, step, k);
      hide OwnedInv, LedgerAfter, StarterNext, StarterSees, OwnersAfter;
      PositionKeepsAccount(s, StarterApply(s, c, step), c, s.ledger.leases[k].owner, k);
    }
  }

  lemma {:induction false} StarterPreserves(s: State, c: CallID, step: StarterStep)
    requires Inv(s) && StarterEnabled(s, c, step)
    ensures Inv(StarterApply(s, c, step))
  {
    StarterKeepsOwned(s, c, step);
    StarterKeepsPending(s, c, step);
    var after := StarterApply(s, c, step);
    forall k | k in after.ledger.leases && after.ledger.leases[k].committed
      ensures Accounted(after, after.ledger.leases[k].owner, k)
    {
      StarterKeepsAccount(s, c, step, k);
    }
    hide Accounted, OwnedInv, PendingInv, LedgerAfter, OwnersAfter, StarterNext;
  }

  lemma {:induction false} ReleasePreserves(s: State, l: Ledger)
    requires Inv(s) && Shrinks(s.ledger, l) && LedgerInv(l)
    ensures Inv(s.(ledger := l))
  {
    var after := s.(ledger := l);
    assert OwnedInv(after) by {
      hide FoundInv, BoundInv, BoundOwned, LostInv, ReportedGone, LedgerInv;
    }
    hide OwnedInv, SomeHolder;
    forall k | k in l.leases && l.leases[k].committed
      ensures Accounted(after, l.leases[k].owner, k)
    {
      assert Accounted(s, s.ledger.leases[k].owner, k);
      hide SomeStarterSees, SomeRelease, SomeReport, SomeRecheck;
    }
    hide Accounted;
  }

  // A report's new position, with its instance's entry taken or not.
  lemma {:induction false} TablesWithReport(s: State, r: CallID, rep: Report, tracked: Table)
    requires FoundInv(s.owners, s.starters, s.tracked) && BoundInv(s.tracked, s.reports, s.bound)
        && LostInv(s.owners, s.tracked, s.lost)
    requires ReportedGone(s.reports, s.workers)
    requires r in s.reports && !s.reports[r].pc.Done? && rep.id == s.reports[r].id && rep.pid == s.reports[r].pid
        && rep.exited == s.reports[r].exited
    requires tracked == s.tracked || tracked == s.tracked - {rep.id}
    requires rep.pc.Releasing? ==> Binding(rep.id, rep.pid, rep.pc.lease) in s.bound
    ensures FoundInv(s.owners, s.starters, tracked) && BoundInv(tracked, s.reports[r := rep], s.bound)
        && LostInv(s.owners, tracked, s.lost)
    ensures ReportedGone(s.reports[r := rep], s.workers)
  {
    hide Owns;
  }

  // The handler takes the tracked entry, or ends.
  lemma {:induction false} ReportKeepsOwned(s: State, r: CallID)
    requires OwnedInv(s) && r in s.reports && s.reports[r].pc.Reported?
    ensures OwnedInv(ReportApply(s, r))
  {
    var rep := s.reports[r];
    assert rep.id in s.tracked ==> Binding(rep.id, s.tracked[rep.id].pid, s.tracked[rep.id].lease) in s.bound;
    hide LedgerInv, OwnersInv, BoundOwned, FoundInv, BoundInv, LostInv, ReportedGone;
    TablesWithReport(s, r, ReportApply(s, r).reports[r], ReportApply(s, r).tracked);
  }

  lemma {:induction false} ReportKeepsAccount(s: State, r: CallID, rep: Report, tracked: Table, k: LeaseID)
    requires r in s.reports && k in s.ledger.leases && Accounted(s, s.ledger.leases[k].owner, k)
    requires rep.id == s.reports[r].id && (s.reports[r].pc == Releasing(k) ==> rep.pc == Releasing(k))
    requires if tracked == s.tracked
        then !(s.reports[r].pc.Reported? && Match(s.tracked, rep.id, s.reports[r].pid).Some?)
             else tracked == s.tracked - {rep.id} && rep.id in s.tracked && rep.pc == Releasing(s.tracked[rep.id].lease)
    ensures Accounted(s.(tracked := tracked, reports := s.reports[r := rep]), s.ledger.leases[k].owner, k)
  {
    var owner := s.ledger.leases[k].owner;
    ReportMovesOn(s.reports, r, rep, owner, k, TrackedPid(s, owner));
    hide SomeStarterSees, SomeRecheck, SomeReport, SomeRelease;
  }

  lemma {:induction false} TakeTouches(s: State, r: CallID)
    requires r in s.reports && s.reports[r].pc.Reported?
    ensures var after := ReportApply(s, r);
      r in after.reports && after == s.(tracked := after.tracked, reports := s.reports[r := after.reports[r]])
  {
  }

  lemma {:induction false} TakePreserves(s: State, r: CallID)
    requires Inv(s) && r in s.reports && s.reports[r].pc.Reported?
    ensures Inv(ReportApply(s, r))
  {
    var after := ReportApply(s, r);
    ReportKeepsOwned(s, r);
    TakeTouches(s, r);
    hide Accounted, OwnedInv, SomeHolder;
    forall k | k in s.ledger.leases && s.ledger.leases[k].committed
      ensures Accounted(after, s.ledger.leases[k].owner, k)
    {
      ReportKeepsAccount(s, r, after.reports[r], after.tracked, k);
    }
    hide ReportApply;
  }

  // A report is over once the lease it took is out of the ledger.
  lemma {:induction false} DonePreserves(s: State, r: CallID)
    requires Inv(s) && r in s.reports && s.reports[r].pc.Releasing? && s.reports[r].pc.lease !in s.ledger.leases
    ensures var rep := s.reports[r]; Inv(s.(reports := s.reports[r := Report(rep.id, rep.pid, rep.exited, Done)]))
  {
    var rep := s.reports[r];
    var over := Report(rep.id, rep.pid, rep.exited, Done);
    var after := s.(reports := s.reports[r := over]);
    forall k | k in s.ledger.leases && s.ledger.leases[k].committed
      ensures Accounted(after, s.ledger.leases[k].owner, k)
    {
      assert Accounted(s, s.ledger.leases[k].owner, k);
      ReportKeepsAccount(s, r, over, s.tracked, k);
    }
    hide Accounted, LedgerInv, OwnersInv, FoundInv, BoundOwned, LostInv, SomeHolder;
  }

  lemma {:induction false} ReportPreserves(s: State, r: CallID)
    requires Inv(s) && r in s.reports && !s.reports[r].pc.Done?
    ensures Inv(ReportApply(s, r))
  {
    if s.reports[r].pc.Releasing? {
      var k := s.reports[r].pc.lease;
      LedgerIsOK(s);
      ReleaseKeepsLedger(s.ledger, k);
      ReleasePreserves(s, Released(s.ledger, k));
      DonePreserves(s.(ledger := Released(s.ledger, k)), r);
    } else {
      TakePreserves(s, r);
    }
    hide Inv, Released;
  }

  lemma {:induction false} ExitPreserves(s: State, id: InstanceID, report: CallID)
    requires Inv(s) && Enabled(s, WorkerExits(id, report))
    ensures Inv(Apply(s, WorkerExits(id, report)))
  {
    var after := Apply(s, WorkerExits(id, report));
    NewReportKeepsBound(s.tracked, s.reports, s.bound, report, after.reports[report]);
    forall k | k in after.ledger.leases && after.ledger.leases[k].committed
      ensures Accounted(after, after.ledger.leases[k].owner, k)
    {
      var owner := after.ledger.leases[k].owner;
      assert Accounted(s, owner, k);
      ReportMovesOn(s.reports, report, after.reports[report], owner, k, TrackedPid(s, owner));
      hide SomeStarterSees, SomeRecheck, SomeReport, SomeRelease, OwnedInv, AccountedInv;
    }
    hide Accounted, LedgerInv, OwnersInv, FoundInv, BoundInv, BoundOwned, LostInv, SomeHolder;
  }

  lemma {:induction false} AttemptPreserves(s: State, c: CallID, id: InstanceID)
    requires Inv(s) && Enabled(s, StartAttempt(c, id))
    ensures Inv(Apply(s, StartAttempt(c, id)))
  {
    var after := Apply(s, StartAttempt(c, id));
    forall k | k in s.ledger.leases
      ensures SomeHolder(s.starters, s.ledger.leases[k].owner) ==> SomeHolder(after.starters, s.ledger.leases[k].owner)
      ensures Accounted(s, s.ledger.leases[k].owner, k) ==> Accounted(after, s.ledger.leases[k].owner, k)
    {
      var owner := s.ledger.leases[k].owner;
      StarterMovesOn(s.starters, c, Starter(id, Begin), owner, k, TrackedPid(s, owner));
      hide SomeStarterSees, SomeRecheck, SomeReport, SomeRelease, SomeHolder;
    }
    hide Accounted, LedgerInv, OwnersInv, BoundInv, BoundOwned, LostInv, SomeHolder, ReportedGone;
  }

  lemma {:induction false} WorkerPreserves(s: State, id: InstanceID, state: WorkerState)
    requires Inv(s) && id in s.workers
    ensures Inv(Apply(s, WorkerChanges(id, state)))
  {
    var after := Apply(s, WorkerChanges(id, state));
    forall k | k in s.ledger.leases && s.ledger.leases[k].committed
      ensures Accounted(after, s.ledger.leases[k].owner, k)
    {
      assert Accounted(s, s.ledger.leases[k].owner, k);
      hide SomeStarterSees, SomeRecheck, SomeReport, SomeRelease;
    }
    hide Accounted, LedgerInv, OwnersInv, FoundInv, BoundInv, BoundOwned, LostInv, SomeHolder;
  }

  lemma {:induction false} StepPreserves(s: State, a: Action)
    requires Inv(s) && Enabled(s, a)
    ensures Inv(Apply(s, a))
  {
    hide Inv;
    match a
    case StartAttempt(c, id) => AttemptPreserves(s, c, id);
    case StarterMoves(c, step) => StarterPreserves(s, c, step);
    case WorkerChanges(id, state) => WorkerPreserves(s, id, state);
    case WorkerExits(id, report) => ExitPreserves(s, id, report);
    case ReportMoves(r) => ReportPreserves(s, r);
    case StopReleases(id) =>
      LedgerIsOK(s);
      ReleaseOwnerKeepsLedger(s.ledger, id);
      ReleasePreserves(s, ReleasedOwner(s.ledger, id));
    case PendingExpires(lease) =>
      LedgerIsOK(s);
      ReleaseKeepsLedger(s.ledger, lease);
      ReleasePreserves(s, Released(s.ledger, lease));
  }

  lemma {:induction false} LedgerIsOK(s: State)
    requires Inv(s)
    ensures LedgerInv(s.ledger)
  {
  }

  lemma {:induction false} RunInv(run: seq<State>, actions: seq<Action>, i: nat)
    requires IsRun(run, actions) && i < |run|
    ensures Inv(run[i])
  {
    if i > 0 {
      RunInv(run, actions, i - 1);
      StepPreserves(run[i - 1], actions[i - 1]);
    }
  }

  // ----- what holds over every run ------------------------------------------------------------------

  // Nothing about this instance is under way: no start and no exit report.
  ghost predicate Quiet(s: State, id: InstanceID) {
    && (forall c :: c in s.starters && s.starters[c].id == id ==> s.starters[c].pc.Finished?)
    && (forall r :: r in s.reports && s.reports[r].id == id ==> s.reports[r].pc.Done?)
  }

  predicate IsLost(s: State, id: InstanceID, k: LeaseID) { id in s.lost && s.lost[id] == k }

  /** When the starts and exit reports of an instance have finished, its lease, if it has one, is committed;
      and it is the tracked one of a worker that the supervisor still has exactly when no later start has
      tracked a lease that had already left the ledger. */
  lemma {:induction false} CommittedLeaseHasAWorker(run: seq<State>, actions: seq<Action>, i: nat, k: LeaseID)
    requires IsRun(run, actions) && i < |run| && k in run[i].ledger.leases
        && Quiet(run[i], run[i].ledger.leases[k].owner)
    ensures var s, id := run[i], run[i].ledger.leases[k].owner;
      && s.ledger.leases[k].committed
      && ((id in s.tracked && id in s.workers && s.tracked[id] == Tracked(s.workers[id].pid, k)) <==> !IsLost(s, id, k))
  {
    RunInv(run, actions, i);
    var s, id := run[i], run[i].ledger.leases[k].owner;
    assert !SomeHolder(s.starters, id) && !SomeStarterSees(s.starters, id, k) && !SomeRelease(s.reports, id, k);
    assert id in s.tracked ==>
        !SomeReport(s.reports, id, s.tracked[id].pid) && !SomeRecheck(s.starters, id, s.tracked[id].pid);
    assert s.ledger.leases[k].committed;
    assert Accounted(s, id, k);
    hide SomeHolder, SomeStarterSees, SomeRelease, SomeReport, SomeRecheck;
  }

  // No worker is left that this lease was ever tracked for.
  ghost predicate WorkersGone(s: State, id: InstanceID, k: LeaseID) {
    forall pid :: Binding(id, pid, k) in s.bound ==> !Has(s, id, pid)
  }

  /** Whatever the order of commit, track, re-check and exit: once both sides have finished and the workers
      a lease was tracked for are gone, the lease has been released exactly once; unless it is lost and still
      in the ledger, and then it has not been released at all. */
  lemma {:induction false} ExitedWorkersLeaseIsReleasedOnce(run: seq<State>, actions: seq<Action>, i: nat, b: Binding)
    requires IsRun(run, actions) && i < |run| && b in run[i].bound && Quiet(run[i], b.id)
        && WorkersGone(run[i], b.id, b.lease)
    ensures var s := run[i];
      && (!IsLost(s, b.id, b.lease) ==> b.lease !in s.ledger.leases && s.ledger.removed[b.lease] == 1)
      && (b.lease in s.ledger.leases ==> IsLost(s, b.id, b.lease) && s.ledger.removed[b.lease] == 0)
  {
    RunInv(run, actions, i);
    assert Owns(run[i].owners, b.id, b.lease);
    if b.lease in run[i].ledger.leases {
      CommittedLeaseHasAWorker(run, actions, i, b.lease);
    }
  }

  /** No lease is ever released twice, by whatever mixture of stops, expiries, new starts and exits. */
  lemma {:induction false} NeverReleasedTwice(run: seq<State>, actions: seq<Action>, i: nat, k: LeaseID)
    requires IsRun(run, actions) && i < |run|
    ensures run[i].ledger.removed[k] <= 1
    ensures k in run[i].ledger.leases ==> run[i].ledger.removed[k] == 0
  {
    RunInv(run, actions, i);
  }

  /** What an exit report takes out of the ledger is the lease tracked for exactly its own instance and
      process, and that process is gone; a report for any other process leaves ledger and table alone. */
  lemma {:induction false} ReportReleasesItsOwnWorkersLease(run: seq<State>, actions: seq<Action>, i: nat, r: CallID)
    requires IsRun(run, actions) && i < |actions| && actions[i] == ReportMoves(r) && run[i].reports[r].exited
    ensures var s, rep := run[i], run[i].reports[r];
      && !Has(s, rep.id, rep.pid)
      && (run[i + 1].ledger != s.ledger ==> rep.pc.Releasing? && Binding(rep.id, rep.pid, rep.pc.lease) in s.bound)
      && (run[i + 1].tracked != s.tracked ==> rep.id in s.tracked && s.tracked[rep.id].pid == rep.pid)
  {
    RunInv(run, actions, i);
    assert run[i + 1] == Apply(run[i], actions[i]);
  }

  // ----- reports about workers that are still there ------------------------------------------------------

  // A report under way keeps its process, which is there unless it exits: its pid is not given away.
  ghost predicate KeepsReport(s: State, after: State, r: CallID, exits: bool)
    requires r in s.reports && r in after.reports
  {
    var rep := s.reports[r];
    && after.reports[r].id == rep.id && after.reports[r].pid == rep.pid && after.reports[r].exited == rep.exited
        && !rep.pc.Done?
    && (Has(after, rep.id, rep.pid) <==> Has(s, rep.id, rep.pid) && !exits)
  }

  lemma {:induction false} StarterKeepsReport(s: State, c: CallID, step: StarterStep, r: CallID)
    requires StarterEnabled(s, c, step) && r in s.reports && !s.reports[r].pc.Done?
    ensures var after := StarterApply(s, c, step); r in after.reports && KeepsReport(s, after, r, false)
  {
    StarterTouches(s, c, step);
    hide StarterApply, OwnersAfter, LedgerAfter, StarterNext;
  }

  lemma {:induction false} ReportTouches(s: State, q: CallID)
    requires q in s.reports && !s.reports[q].pc.Done?
    ensures var after, rep := ReportApply(s, q), s.reports[q];
      && q in after.reports && after.reports == s.reports[q := after.reports[q]] && after.workers == s.workers
      && after.reports[q] == Report(rep.id, rep.pid, rep.exited, after.reports[q].pc)
  {
    var rep := s.reports[q];
    hide Released, Match;
    if rep.pc.Releasing? {
      assert ReportApply(s, q).reports == s.reports[q := Report(rep.id, rep.pid, rep.exited, Done)];
    }
  }

  lemma {:induction false} OthersKeepReport(s: State, a: Action, r: CallID)
    requires Enabled(s, a) && !a.StarterMoves? && r in s.reports && r in Apply(s, a).reports
        && !Apply(s, a).reports[r].pc.Done?
    ensures KeepsReport(s, Apply(s, a), r, a.WorkerExits? && a.id == s.reports[r].id)
  {
    if a.ReportMoves? { ReportTouches(s, a.r); }
    hide ReportApply, Released, ReleasedOwner, Match, Unreported;
  }

  lemma {:induction false} ReportStep(s: State, a: Action, r: CallID)
    requires Enabled(s, a) && r in s.reports && r in Apply(s, a).reports && !Apply(s, a).reports[r].pc.Done?
    ensures KeepsReport(s, Apply(s, a), r, a.WorkerExits? && a.id == s.reports[r].id)
  {
    hide KeepsReport, StarterApply, StarterNext;
    if a.StarterMoves? {
      StarterTouches(s, a.c, a.step);
      assert Apply(s, a) == StarterApply(s, a.c, a.step);
      hide Apply;
      StarterKeepsReport(s, a.c, a.step, r);
    } else {
      OthersKeepReport(s, a, r);
    }
  }

  lemma {:induction false} ReportsStay(s: State, a: Action, r: CallID)
    requires Enabled(s, a) && r in s.reports
    ensures r in Apply(s, a).reports && (s.reports[r].pc.Done? ==> Apply(s, a).reports[r] == s.reports[r])
  {
    if a.StarterMoves? { StarterTouches(s, a.c, a.step); }
    hide StarterApply, OwnersAfter, Released, ReleasedOwner, Match;
  }

  // What raises a report: the supervisor, when a worker exits, or the re-check of a start.
  lemma {:induction false} ReportRaised(s: State, a: Action, r: CallID)
    requires Enabled(s, a) && r !in s.reports && r in Apply(s, a).reports
    ensures var rep := Apply(s, a).reports[r];
      && rep.pc.Reported?
      && (if rep.exited then a == WorkerExits(rep.id, r) && !Has(Apply(s, a), rep.id, rep.pid)
          else
            a.StarterMoves? && a.step == Recheck(r) && a.c in s.starters
            && Rechecks(s.starters[a.c], rep.id, rep.pid)
            && !IsReadyWith(s, rep.id, rep.pid) && Apply(s, a).workers == s.workers)
  {
    if a.StarterMoves? { StarterTouches(s, a.c, a.step); }
    hide StarterApply, OwnersAfter, Released, ReleasedOwner, Match;
  }

  /** The report was raised by a re-check that met its process present in a state other than ready, and
      the process has not exited since. */
  ghost predicate RaisedOverAnUnreadyWorker(run: seq<State>, actions: seq<Action>, k: nat, i: nat, r: CallID)
    requires k < i < |run| && |run| == |actions| + 1 && r in run[i].reports
  {
    var rep := run[i].reports[r];
    && r !in run[k].reports && r in run[k + 1].reports && actions[k].StarterMoves?
    && Has(run[k], rep.id, rep.pid) && run[k].workers[rep.id].state != Ready
    && forall m :: k < m < i ==> !(actions[m].WorkerExits? && actions[m].id == rep.id)
  }

  // From the step that raised a report until it is done.
  lemma {:induction false} ReportUnderWay(run: seq<State>, actions: seq<Action>, k: nat, i: nat, r: CallID)
    requires IsRun(run, actions) && k < i < |run| && r !in run[k].reports && r in run[k + 1].reports
    requires r in run[i].reports && !run[i].reports[r].pc.Done?
    ensures Has(run[i], run[i].reports[r].id, run[i].reports[r].pid) <==>
        RaisedOverAnUnreadyWorker(run, actions, k, i, r)
    ensures run[i].reports[r].exited <==> actions[k].WorkerExits?
    decreases i
  {
    hide Apply, Enabled, Init;
    if i == k + 1 {
      ReportRaised(run[k], actions[k], r);
    } else {
      ReportsRemain(run, actions, k + 1, i - 1, r);
      ReportStep(run[i - 1], actions[i - 1], r);
      ReportUnderWay(run, actions, k, i - 1, r);
    }
  }

  lemma {:induction false} ReportsRemain(run: seq<State>, actions: seq<Action>, i: nat, j: nat, r: CallID)
    requires IsRun(run, actions) && i <= j < |run| && r in run[i].reports
    ensures r in run[j].reports && (run[i].reports[r].pc.Done? ==> run[j].reports[r].pc.Done?)
    decreases j
  {
    hide Apply, Enabled, Init;
    if i < j {
      ReportsRemain(run, actions, i, j - 1, r);
      ReportsStay(run[j - 1], actions[j - 1], r);
    }
  }

  lemma {:induction false} RaisedSometime(run: seq<State>, actions: seq<Action>, i: nat, r: CallID) returns (k: nat)
    requires IsRun(run, actions) && i < |run| && r in run[i].reports
    ensures k < i && r !in run[k].reports && r in run[k + 1].reports
  {
    k := i - 1;
    if r in run[k].reports {
      k := RaisedSometime(run, actions, k, r);
    }
  }

  /** A report takes the tracked entry of a worker that the supervisor still has exactly when it was
      raised by a re-check that met the tracked process present but not ready, and the process has not
      exited since. */
  lemma {:induction false} ReportsHaveAReason(run: seq<State>, actions: seq<Action>, i: nat, r: CallID)
    requires IsRun(run, actions) && i < |actions| && actions[i] == ReportMoves(r)
    requires run[i].reports[r].pc.Reported? && Match(run[i].tracked, run[i].reports[r].id, run[i].reports[r].pid).Some?
    ensures run[i + 1].tracked == run[i].tracked - {run[i].reports[r].id}
    ensures Has(run[i], run[i].reports[r].id, run[i].reports[r].pid) <==>
        exists k :: 0 <= k < i && RaisedOverAnUnreadyWorker(run, actions, k, i, r)
  {
    assert run[i + 1] == ReportApply(run[i], r);
    var raised := RaisedSometime(run, actions, i, r);
    ReportUnderWay(run, actions, raised, i, r);
    forall k | 0 <= k < i && RaisedOverAnUnreadyWorker(run, actions, k, i, r)
      ensures k == raised
    {
      hide Apply, Enabled;
      if k < raised {
        ReportsRemain(run, actions, k + 1, raised, r);
      } else if raised < k {
        ReportsRemain(run, actions, raised + 1, k, r);
      }
    }
  }

  // ----- how a lease gets lost -----------------------------------------------------------------------------

  // A start that is about to track a lease found it in the ledger, and has not moved since.
  lemma {:induction false} TrackingFound(run: seq<State>, actions: seq<Action>, j: nat, c: CallID) returns (f: nat)
    requires IsRun(run, actions) && j < |run| && c in run[j].starters && run[j].starters[c].pc.Tracking?
    ensures f < j && actions[f] == StarterMoves(c, FindLease)
    ensures forall m :: f < m <= j ==> c in run[m].starters && run[m].starters[c] == run[j].starters[c]
    ensures var Starter(id, pc) := run[j].starters[c];
        id in run[f].ledger.byOwner && run[f].ledger.byOwner[id] == pc.lease
  {
    f := j - 1;
    FoundStep(run[f], actions[f], c);
    if actions[f] != StarterMoves(c, FindLease) {
      f := TrackingFound(run, actions, f, c);
    }
  }

  lemma {:induction false} FoundStep(s: State, a: Action, c: CallID)
    requires Enabled(s, a) && c in Apply(s, a).starters && Apply(s, a).starters[c].pc.Tracking?
    ensures var Starter(id, pc) := Apply(s, a).starters[c];
      if a == StarterMoves(c, FindLease) then id in s.ledger.byOwner && s.ledger.byOwner[id] == pc.lease
      else c in s.starters && s.starters[c] == Apply(s, a).starters[c]
  {
    if a.StarterMoves? { StarterTouches(s, a.c, a.step); }
    hide StarterApply, ReportApply, LedgerAfter, OwnersAfter, Released, ReleasedOwner;
  }

  // A lease that was not in the ledger yet was issued to some start of its instance.
  lemma {:induction false} IssuedBetween(run: seq<State>, actions: seq<Action>, f: nat, j: nat, k: LeaseID)
      returns (m: nat)
    requires IsRun(run, actions) && f <= j < |run| && k !in run[f].ledger.leases && k in run[j].ledger.leases
    ensures f <= m < j && actions[m].StarterMoves? && actions[m].step == AcquireLease(true)
        && actions[m].c in run[m].starters
    ensures run[m].ledger.next == k && run[m].starters[actions[m].c].id == run[j].ledger.leases[k].owner
    decreases j
  {
    m := j - 1;
    RunInv(run, actions, m);
    IssuedStep(run[m], actions[m], k);
    hide Inv, Apply, Enabled;
    if k in run[m].ledger.leases {
      m := IssuedBetween(run, actions, f, m, k);
    }
  }

  lemma {:induction false} IssuedStep(s: State, a: Action, k: LeaseID)
    requires Inv(s) && Enabled(s, a) && k in Apply(s, a).ledger.leases
    ensures k in s.ledger.leases ==> s.ledger.leases[k].owner == Apply(s, a).ledger.leases[k].owner
    ensures k !in s.ledger.leases ==>
        && a.StarterMoves? && a.step == AcquireLease(true) && a.c in s.starters && s.ledger.next == k
        && s.starters[a.c].id == Apply(s, a).ledger.leases[k].owner
  {
    LedgerIsOK(s);
    hide Inv, LedgerInv, StarterApply;
    match a
    case StarterMoves(c, step) => StarterIssues(s, c, step, k);
    case _ => OthersIssueNothing(s, a);
  }

  lemma {:induction false} OthersIssueNothing(s: State, a: Action)
    requires LedgerInv(s.ledger) && Enabled(s, a) && !a.StarterMoves?
    ensures Shrinks(s.ledger, Apply(s, a).ledger)
  {
    hide LedgerInv;
    match a
    case StopReleases(id) => ReleaseOwnerKeepsLedger(s.ledger, id); hide ReleasedOwner;
    case PendingExpires(lease) => ReleaseKeepsLedger(s.ledger, lease); hide Released;
    case ReportMoves(r) =>
      if s.reports[r].pc.Releasing? { ReleaseKeepsLedger(s.ledger, s.reports[r].pc.lease); }
      hide Released;
    case _ =>
  }

  lemma {:induction false} StarterIssues(s: State, c: CallID, step: StarterStep, k: LeaseID)
    requires LedgerInv(s.ledger) && StarterEnabled(s, c, step) && k in StarterApply(s, c, step).ledger.leases
    ensures var l := StarterApply(s, c, step).ledger;
      if k in s.ledger.leases then s.ledger.leases[k].owner == l.leases[k].owner
      else step == AcquireLease(true) && s.ledger.next == k && s.starters[c].id == l.leases[k].owner
  {
    StarterLedger(s, c, step);
    assert StarterApply(s, c, step).ledger == LedgerAfter(s, c, step);
    hide LedgerAfter, LedgerInv, OwnersAfter, LostAfter, StarterNext, StarterApply;
  }

  lemma {:induction false} OwnersStep(s: State, a: Action)
    requires Inv(s) && Enabled(s, a)
    ensures OwnersGrow(s.owners, Apply(s, a).owners)
  {
    hide LedgerInv, PendingInv, AccountedInv, FoundInv, BoundInv, BoundOwned, LostInv, ReportedGone;
    if a.StarterMoves? { StarterTouches(s, a.c, a.step); }
    hide StarterApply, Released, ReleasedOwner, Match;
  }

  lemma {:induction false} OwnersGrowAlong(run: seq<State>, actions: seq<Action>, i: nat, j: nat)
    requires IsRun(run, actions) && i <= j < |run|
    ensures OwnersGrow(run[i].owners, run[j].owners)
    decreases j
  {
    hide Inv, Apply, Enabled, Init;
    if i < j {
      OwnersGrowAlong(run, actions, i, j - 1);
      RunInv(run, actions, j - 1);
      OwnersStep(run[j - 1], actions[j - 1]);
    }
  }

  /** A lease gets lost only when starts of an instance overlap: one found its lease, another one acquired
      the lease that is lost, and then the first tracked what it had found. */
  lemma {:induction false} LostOnlyByOverlap(run: seq<State>, actions: seq<Action>, i: nat, id: InstanceID)
      returns (f: nat, m: nat, j: nat)
    requires IsRun(run, actions) && i < |run| && id in run[i].lost
    ensures f < m < j < i
    ensures actions[f].StarterMoves? && actions[f].step == FindLease && actions[j] == StarterMoves(actions[f].c, Track)
    ensures actions[m].StarterMoves? && actions[m].step == AcquireLease(true) && actions[m].c != actions[f].c
    ensures actions[f].c in run[f].starters && run[f].starters[actions[f].c].id == id
    ensures actions[m].c in run[m].starters && run[m].starters[actions[m].c].id == id
    ensures run[m].ledger.next == run[i].lost[id]
    decreases i
  {
    assert i > 0;
    hide Inv, Apply, Enabled, Init, TracksStale;
    var s, a := run[i - 1], actions[i - 1];
    LostStep(s, a, id);
    if id in s.lost && s.lost[id] == run[i].lost[id] {
      f, m, j := LostOnlyByOverlap(run, actions, i - 1, id);
    } else {
      f, m := StaleOnlyByOverlap(run, actions, i - 1);
      j := i - 1;
    }
  }

  // A start that tracks a lease no longer in the ledger, while its instance has another one.
  lemma {:induction false} StaleOnlyByOverlap(run: seq<State>, actions: seq<Action>, j: nat) returns (f: nat, m: nat)
    requires IsRun(run, actions) && j < |actions| && actions[j].StarterMoves? && actions[j].step.Track?
        && TracksStale(run[j], actions[j].c)
    requires run[j].starters[actions[j].c].id in run[j].ledger.byOwner
    ensures f < m < j && actions[f] == StarterMoves(actions[j].c, FindLease)
    ensures actions[m].StarterMoves? && actions[m].step == AcquireLease(true) && actions[m].c != actions[j].c
    ensures var id := run[j].starters[actions[j].c].id;
      && actions[j].c in run[f].starters && run[f].starters[actions[j].c].id == id
      && actions[m].c in run[m].starters && run[m].starters[actions[m].c].id == id
      && run[m].ledger.next == run[j].ledger.byOwner[id]
  {
    var c := actions[j].c;
    var Starter(id, pc) := run[j].starters[c];
    var k := run[j].ledger.byOwner[id];
    f := TrackingFound(run, actions, j, c);
    RunInv(run, actions, f);
    RunInv(run, actions, j);
    OwnersGrowAlong(run, actions, f, j);
    FoundWasOther(run[f], run[j], id, pc.lease, k);
    m := IssuedBetween(run, actions, f, j, k);
    assert Enabled(run[f], actions[f]) && Enabled(run[m], actions[m]);
    SameInstance(run[f], actions[f], c);
    assert run[f + 1] == Apply(run[f], actions[f]) && run[f + 1].starters[c] == run[j].starters[c];
    hide Inv, Apply, OwnersGrow;
  }

  lemma {:induction false} SameInstance(s: State, a: Action, c: CallID)
    requires Enabled(s, a) && a.StarterMoves? && a.c == c
    ensures c in s.starters && c in Apply(s, a).starters && Apply(s, a).starters[c].id == s.starters[c].id
  {
    hide LedgerAfter, OwnersAfter, LostAfter, StarterNext;
  }

  lemma {:induction false} LostStep(s: State, a: Action, id: InstanceID)
    requires Enabled(s, a) && id in Apply(s, a).lost
    ensures (id in s.lost && s.lost[id] == Apply(s, a).lost[id])
         || (a.StarterMoves? && a.step == Track && TracksStale(s, a.c) && s.starters[a.c].id == id
             && id in s.ledger.byOwner && s.ledger.byOwner[id] == Apply(s, a).lost[id])
  {
    hide LedgerAfter, OwnersAfter, StarterNext, Released, ReleasedOwner, Match;
  }

  // The lease an instance has later was not there while it had another that is gone by then.
  lemma {:induction false} FoundWasOther(s: State, later: State, id: InstanceID, found: LeaseID, k: LeaseID)
    requires Inv(s) && Inv(later) && id in s.ledger.byOwner && s.ledger.byOwner[id] == found
    requires id in later.ledger.byOwner && later.ledger.byOwner[id] == k && found !in later.ledger.leases
        && OwnersGrow(s.owners, later.owners)
    ensures k in later.ledger.leases && later.ledger.leases[k].owner == id && k !in s.ledger.leases
  {
    hide PendingInv, AccountedInv, FoundInv, BoundInv, BoundOwned, LostInv, ReportedGone;
  }

  // ----- two runs -------------------------------------------------------------------------------------------

  // A start whose worker begins to drain between track and re-check, and stops draining afterwards.
  const AbortedDrain: seq<Action> := [
    StartAttempt(0, 0), StarterMoves(0, AcquireLease(true)), StarterMoves(0, Launch(1)), WorkerChanges(0, Ready),
    StarterMoves(0, CheckEndpoint), StarterMoves(0, CommitLease), StarterMoves(0, FindLease), StarterMoves(0, Track),
    WorkerChanges(0, Draining), StarterMoves(0, Recheck(0)), ReportMoves(0), ReportMoves(0), WorkerChanges(0, Ready)]

  // The first start of instance 0 up to its commit, with lease 0 and process 1.
  function FirstLedger(i: nat): Ledger {
    if i < 2 then Ledger(map[], map[], 0, multiset{})
    else if i < 6 then Ledger(map[0 := Lease(0, false)], map[0 := 0], 1, multiset{})
    else Ledger(map[0 := Lease(0, true)], map[0 := 0], 1, multiset{})
  }

  function FirstPc(i: nat): StarterPc {
    if i == 1 then Begin else if i == 2 then Leased else if i < 5 then Launched(1) else if i == 5 then SawEndpoint(1)
    else if i == 6 then Committed(1) else Tracking(1, 0)
  }

  function FirstState(i: nat): State {
    State(FirstLedger(i), map[], if i < 3 then map[] else map[0 := Worker(1, if i == 3 then Loading else Ready)],
          if i == 0 then map[] else map[0 := Starter(0, FirstPc(i))], map[],
          if i < 2 then map[] else map[0 := 0], {}, map[])
  }

  lemma {:induction false} FirstSteps(i: nat)
    requires i < 4
    ensures Enabled(FirstState(i), AbortedDrain[i]) && FirstState(i + 1) == Apply(FirstState(i), AbortedDrain[i])
  {
    assert FirstLedger(2) == Issued(FirstLedger(0), 0);
  }

  lemma {:induction false} FirstCommits(i: nat)
    requires 4 <= i < 7
    ensures Enabled(FirstState(i), AbortedDrain[i]) && FirstState(i + 1) == Apply(FirstState(i), AbortedDrain[i])
  {
  }

  function DrainState(i: nat): State {
    if i < 8 then FirstState(i)
    else
      State(if i < 12 then FirstLedger(8) else Ledger(map[], map[], 1, multiset{0}),
            if i < 11 then map[0 := Tracked(1, 0)] else map[],
            map[0 := Worker(1, if 9 <= i < 13 then Draining else Ready)],
            map[0 := Starter(0, if i < 10 then Rechecking(1) else Finished)],
            if i < 10 then map[] else map[0 :=
                Report(0, 1, false, if i == 10 then Reported else if i == 11 then Releasing(0) else Done)],
            map[0 := 0], {Binding(0, 1, 0)}, map[])
  }

  lemma {:induction false} DrainTracks(i: nat)
    requires 7 <= i < 10
    ensures Enabled(DrainState(i), AbortedDrain[i]) && DrainState(i + 1) == Apply(DrainState(i), AbortedDrain[i])
  {
    assert DrainState(8).lost == map[] - {0};
  }

  lemma {:induction false} DrainEnds(i: nat)
    requires 10 <= i < 13
    ensures Enabled(DrainState(i), AbortedDrain[i]) && DrainState(i + 1) == Apply(DrainState(i), AbortedDrain[i])
  {
    assert map[0 := Tracked(1, 0)] - {0} == map[];
    assert Released(FirstLedger(8), 0) == Ledger(map[], map[], 1, multiset{0});
  }

  /** The re-check takes any worker that is not ready for an exited one: when a drain begins between track
      and re-check and is aborted later, a ready worker is left without its lease, though nothing stopped
      it and it never exited. */
  lemma {:induction false} RecheckDuringAbortedDrain() returns (run: seq<State>)
    ensures IsRun(run, AbortedDrain)
    ensures forall i :: 0 <= i < |AbortedDrain| ==> !AbortedDrain[i].StopReleases? && !AbortedDrain[i].WorkerExits?
    ensures var s := run[|AbortedDrain|];
      Quiet(s, 0) && IsReadyWith(s, 0, 1) && Binding(0, 1, 0) in s.bound && s.ledger.leases == map[]
  {
    run := seq(14, i requires 0 <= i < 14 => DrainState(i));
    forall i | 0 <= i < 13
      ensures Enabled(run[i], AbortedDrain[i]) && run[i + 1] == Apply(run[i], AbortedDrain[i])
    {
      hide Apply, Enabled;
      if i < 4 {
        FirstSteps(i);
      } else if i < 7 {
        FirstCommits(i);
      } else if i < 10 {
        DrainTracks(i);
      } else {
        DrainEnds(i);
      }
    }
    hide Apply, Enabled;
  }

  // The first start has found its lease when its worker is stopped; a second start runs to its end; then
  // the first one tracks what it had found, and the second one's worker exits.
  const OverlappingStarts: seq<Action> := AbortedDrain[..7] + [
    WorkerExits(0, 0), ReportMoves(0), StopReleases(0),
    StartAttempt(1, 0), StarterMoves(1, AcquireLease(true)), StarterMoves(1, Launch(2)), WorkerChanges(0, Ready),
    StarterMoves(1, CheckEndpoint), StarterMoves(1, CommitLease), StarterMoves(1, FindLease), StarterMoves(1, Track),
        StarterMoves(1, Recheck(1)),
    StarterMoves(0, Track), StarterMoves(0, Recheck(1)), ReportMoves(1), ReportMoves(1), WorkerExits(0, 2),
        ReportMoves(2)]

  function OverlapLedger(i: nat): Ledger {
    if i < 10 then FirstLedger(7)
    else if i < 12 then Ledger(map[], map[], 1, multiset{0})
    else Ledger(map[1 := Lease(0, i >= 16)], map[0 := 1], 2, multiset{0})
  }

  function SecondPc(i: nat): StarterPc {
    if i == 11 then Begin else if i == 12 then Leased else if i < 15 then Launched(2) else if i == 15
        then SawEndpoint(2)
    else if i == 16 then Committed(2) else if i == 17 then Tracking(2, 1) else if i == 18 then Rechecking(2)
        else Finished
  }

  function OverlapStarters(i: nat): map<CallID, Starter> {
    var first := Starter(0, if i < 20 then Tracking(1, 0) else if i == 20 then Rechecking(1) else Finished);
    if i < 11 then map[0 := first] else map[0 := first, 1 := Starter(0, SecondPc(i))]
  }

  function OverlapWorkers(i: nat): map<InstanceID, Worker> {
    if i == 7 then map[0 := Worker(1, Ready)]
    else if 13 <= i < 24 then map[0 := Worker(2, if i == 13 then Loading else Ready)]
    else map[]
  }

  function OverlapReports(i: nat): map<CallID, Report> {
    if i == 7 then map[]
    else
      var first := Report(0, 1, true, if i == 8 then Reported else Done);
      var second := Report(0, 1, false, if i == 21 then Reported else if i == 22 then Releasing(0) else Done);
      if i < 21 then map[0 := first]
      else if i < 24 then map[0 := first, 1 := second]
      else map[0 := first, 1 := second, 2 := Report(0, 2, true, if i == 24 then Reported else Done)]
  }

  function OverlapState(i: nat): State {
    if i < 7 then FirstState(i)
    else
      State(OverlapLedger(i), if i < 18
          || i >= 22 then map[] else if i < 20 then map[0 := Tracked(2, 1)] else map[0 := Tracked(1, 0)],
            OverlapWorkers(i), OverlapStarters(i), OverlapReports(i), if i < 12 then map[0 := 0]
                else map[0 := 0, 1 := 0],
            if i < 18 then {} else if i < 20 then {Binding(0, 2, 1)} else {Binding(0, 2, 1), Binding(0, 1, 0)},
            if i < 20 then map[] else map[0 := 1])
  }

  predicate OverlapStep(i: nat)
    requires i < 25
  {
    Enabled(OverlapState(i), OverlappingStarts[i])
        && OverlapState(i + 1) == Apply(OverlapState(i), OverlappingStarts[i])
  }

  lemma {:induction false} OverlapStops(i: nat)
    requires 7 <= i < 10
    ensures OverlapStep(i)
  {
    assert map[0 := Worker(1, Ready)] - {0} == map[];
    assert Released(FirstLedger(7), 0) == OverlapLedger(10);
  }

  lemma {:induction false} OverlapLaunches(i: nat)
    requires 10 <= i < 14
    ensures OverlapStep(i)
  {
    assert Issued(OverlapLedger(11), 0) == OverlapLedger(12);
  }

  lemma {:induction false} OverlapSeesEndpoint()
    ensures OverlapStep(14)
  {
  }

  lemma {:induction false} OverlapCommits()
    ensures OverlapStep(15)
  {
  }

  lemma {:induction false} OverlapFinds()
    ensures OverlapStep(16)
  {
  }

  lemma {:induction false} OverlapTracks()
    ensures OverlapStep(17)
  {
    assert OverlapState(18).lost == map[] - {0};
  }

  lemma {:induction false} OverlapRechecks()
    ensures OverlapStep(18)
  {
  }

  lemma {:induction false} OverlapTracksStale()
    ensures OverlapStep(19)
  {
    assert TracksStale(OverlapState(19), 0);
  }

  lemma {:induction false} OverlapRechecksStale()
    ensures OverlapStep(20)
  {
  }

  lemma {:induction false} OverlapTakes(i: nat)
    requires 21 <= i < 23
    ensures OverlapStep(i)
  {
    assert map[0 := Tracked(1, 0)] - {0} == map[];
  }

  lemma {:induction false} OverlapExits(i: nat)
    requires 23 <= i < 25
    ensures OverlapStep(i)
  {
    assert map[0 := Worker(2, Ready)] - {0} == map[];
  }

  /** Overlapping starts leak a lease: at the end nothing is under way and no worker is left, but the second
      start's lease is still committed in the ledger, and nothing tracks it. */
  lemma {:induction false} OverlappingStartsLeakALease() returns (run: seq<State>)
    ensures IsRun(run, OverlappingStarts)
    ensures var s := run[|OverlappingStarts|];
      Quiet(s, 0) && s.workers == map[] && s.tracked == map[] && s.ledger.leases == map[1 := Lease(0, true)]
          && IsLost(s, 0, 1)
  {
    run := seq(26, i requires 0 <= i < 26 => OverlapState(i));
    forall i | 0 <= i < 25
      ensures Enabled(run[i], OverlappingStarts[i]) && run[i + 1] == Apply(run[i], OverlappingStarts[i])
    {
      OverlapGoesOn(i);
    }
    hide Apply, Enabled;
  }

  lemma {:induction false} OverlapGoesOn(i: nat)
    requires i < 25
    ensures OverlapStep(i)
  {
    if i < 7 {
      if i < 4 { FirstSteps(i); } else { FirstCommits(i); }
      assert OverlappingStarts[i] == AbortedDrain[i];
      assert OverlapState(7) == FirstState(7);
    }
    hide OverlapStep;
    if 7 <= i < 10 {
      OverlapStops(i);
    } else if 10 <= i < 14 {
      OverlapLaunches(i);
    } else if i == 14 {
      OverlapSeesEndpoint();
    } else if i == 15 {
      OverlapCommits();
    } else if i == 16 {
      OverlapFinds();
    } else if i == 17 {
      OverlapTracks();
    } else if i == 18 {
      OverlapRechecks();
    } else if i == 19 {
      OverlapTracksStale();
    } else if i == 20 {
      OverlapRechecksStale();
    } else if 21 <= i < 23 {
      OverlapTakes(i);
    } else if 23 <= i {
      OverlapExits(i);
    }
  }
}
