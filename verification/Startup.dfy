/** Startup coordination: the operation gate, startup generations and their cancel functions, and the
    single-flight table of loads. */
module Startup {
  import opened Common

  type InstanceID = nat
  type OpID = nat
  type CallID = nat
  type Generation = nat

  datatype Outcome = Endpoint(url: string) | Error(code: nat) | StartupKilled

  // ----- the shared tables ---------------------------------------------------------------------

  datatype LoadCall = LoadCall(id: InstanceID, result: Option<Outcome>)

  /** `cancels` holds for each instance the startup whose cancel function is stored, named by its generation. */
  datatype Board = Board(
    gens: map<InstanceID, Generation>, cancels: map<InstanceID, Generation>,
    loads: map<InstanceID, OpID>, calls: map<OpID, LoadCall>)

  function GenOf(b: Board, id: InstanceID): Generation { if id in b.gens then b.gens[id] else 0 }

  function Stored(b: Board, id: InstanceID): Option<Generation> {
    if id in b.cancels then Some(b.cancels[id]) else None
  }

  function Begun(b: Board, id: InstanceID): Board {
    b.(gens := b.gens[id := GenOf(b, id) + 1], cancels := b.cancels[id := GenOf(b, id) + 1])
  }

  function Cancelled(b: Board, id: InstanceID): Board {
    b.(gens := b.gens[id := GenOf(b, id) + 1], cancels := b.cancels - {id})
  }

  function Finished(b: Board, id: InstanceID, gen: Generation): Board {
    if GenOf(b, id) != gen then b else b.(cancels := b.cancels - {id})
  }

  function Joined(b: Board, id: InstanceID, unused: OpID): Board {
    if id in b.loads then b
    else b.(loads := b.loads[id := unused], calls := b.calls[unused := LoadCall(id, None)])
  }

  function Completed(b: Board, c: OpID, outcome: Outcome): Board
    requires c in b.calls
  {
    if b.calls[c].result.Some? then b
    else
      var id := b.calls[c].id;
      b.(calls := b.calls[c := LoadCall(id, Some(outcome))],
         loads := if id in b.loads && b.loads[id] == c then b.loads - {id} else b.loads)
  }

  /** The tables as the service keeps them, changed in place under one mutex. */
  class StartupTables {
    var gens: map<InstanceID, Generation>
    var cancels: map<InstanceID, Generation>
    var loads: map<InstanceID, OpID>
    var calls: map<OpID, LoadCall>

    ghost function Contents(): Board
      reads this
    {
      Board(gens, cancels, loads, calls)
    }

    constructor ()
      ensures Contents() == Board(map[], map[], map[], map[])
    {
      gens, cancels, loads, calls := map[], map[], map[], map[];
    }

    method BeginStartup(id: InstanceID) returns (gen: Generation, previous: Option<Generation>)
      modifies this
      ensures Contents() == Begun(old(Contents()), id)
      ensures gen == GenOf(Contents(), id) && previous == Stored(old(Contents()), id)
    {
      previous := if id in cancels then Some(cancels[id]) else None;
      gen := (if id in gens then gens[id] else 0) + 1;
      gens := gens[id := gen];
      cancels := cancels[id := gen];
    }

    method CancelStartup(id: InstanceID) returns (cancel: Option<Generation>)
      modifies this
      ensures Contents() == Cancelled(old(Contents()), id) && cancel == Stored(old(Contents()), id)
    {
      gens := gens[id := (if id in gens then gens[id] else 0) + 1];
      cancel := if id in cancels then Some(cancels[id]) else None;
      cancels := cancels - {id};
    }

    method FinishStartup(id: InstanceID, gen: Generation) returns (cancel: Option<Generation>)
      modifies this
      ensures Contents() == Finished(old(Contents()), id, gen)
      ensures cancel == if GenOf(old(Contents()), id) == gen then Stored(old(Contents()), id) else None
    {
      var current := if id in gens then gens[id] else 0;
      if current != gen {
        return None;
      }
      cancel := if id in cancels then Some(cancels[id]) else None;
      cancels := cancels - {id};
    }

    method StartupLive(id: InstanceID, gen: Generation) returns (live: bool)
      ensures live == (GenOf(Contents(), id) == gen)
    {
      var current := if id in gens then gens[id] else 0;
      live := current == gen;
    }

    method JoinOrCreateLoad(id: InstanceID, unused: OpID) returns (c: OpID, created: bool)
      modifies this
      ensures Contents() == Joined(old(Contents()), id, unused)
      ensures c == Contents().loads[id] && created == (id !in old(loads))
    {
      if id in loads {
        return loads[id], false;
      }
      loads := loads[id := unused];
      calls := calls[unused := LoadCall(id, None)];
      return unused, true;
    }

    method CompleteLoad(c: OpID, outcome: Outcome)
      requires c in calls
      modifies this
      ensures Contents() == Completed(old(Contents()), c, outcome)
    {
      if calls[c].result.Some? {
        return;
      }
      var id := calls[c].id;
      calls := calls[c := LoadCall(id, Some(outcome))];
      if id in loads && loads[id] == c {
        loads := loads - {id};
      }
    }
  }

  // ----- the protocol ----------------------------------------------------------------------------

  // Load is the goroutine behind a load call; Reconcile retries a start blocked by resource pressure.
  datatype Kind = Load | Restart | Reconcile | Stop | Kill

  datatype Pc =
    | AtGate
    | Entered
    | Cancelling(cancel: Option<Generation>)
    | Stopping
    | Stopped
    | Beginning(gen: Generation, cancel: Option<Generation>)
    | Ready(gen: Generation)                          // about to release the gate and start the worker
    | Starting(gen: Generation)
    | Started(gen: Generation, outcome: Outcome)
    | SeenLive(gen: Generation, outcome: Outcome)
    | Finishing(cancel: Option<Generation>, outcome: Outcome)
    | Completing(outcome: Outcome)                    // a load about to complete its call
    | Leaving                                         // about to run the deferred release
    | Over

  // The state of the release function that acquireOperation returns; it works only once.
  datatype Token = NotAcquired | Held | Released

  datatype Op = Op(id: InstanceID, kind: Kind, pc: Pc, token: Token)

  datatype Join = Join(id: InstanceID, load: OpID, seen: Option<Outcome>)

  datatype Context = Context(id: InstanceID, gen: Generation)

  /** `gate` has an instance as a key when its one-slot gate is full, with the call that filled it.
      `begun` and `ended` are the startup contexts created and cancelled so far. */
  datatype State = State(
    board: Board, gate: map<InstanceID, OpID>, ops: map<OpID, Op>, joins: map<CallID, Join>,
    begun: set<Context>, ended: set<Context>)

  predicate Init(s: State) {
    && s.board == Board(map[], map[], map[], map[]) && s.gate == map[] && s.ops == map[] && s.joins == map[]
    && s.begun == {} && s.ended == {}
  }

  datatype Step =
    | Acquire
    | GiveUp(error: Outcome)            // before the gate: a failed wait, or the caller's context is done
    | CancelStartup
    | CallCancel
    | StopSucceeds | StopFails
    | BeginStartup
    | NoStart(outcome: Outcome)         // back-off, manual stop, disabled, or already running
    | ReleaseEarly
    | StartReturns(outcome: Outcome)
    | CheckLive
    | FinishStartup
    | Complete
    | Release

  datatype Action =
    | StartSingleFlight(j: CallID, id: InstanceID, unused: OpID)
    | SeeDone(j: CallID)
    | StartOp(o: OpID, id: InstanceID, kind: Kind)
    | Move(o: OpID, step: Step)

  predicate StepEnabled(s: State, op: Op, step: Step) {
    match step
    case Acquire => op.pc.AtGate? && op.id !in s.gate
    case GiveUp(error) => op.pc.AtGate? && !op.kind.Reconcile? && !error.Endpoint?
    case CancelStartup => op.pc.Entered? && (op.kind.Restart? || op.kind.Stop? || op.kind.Kill?)
    case CallCancel => op.pc.Cancelling? || op.pc.Beginning? || op.pc.Finishing?
    case StopSucceeds => op.pc.Stopping?
    case StopFails => op.pc.Stopping?
    case BeginStartup => (op.pc.Entered? && (op.kind.Load? || op.kind.Reconcile?)) || op.pc.Stopped?
    case NoStart(_) => op.pc.Entered? && (op.kind.Load? || op.kind.Reconcile?)
    case ReleaseEarly => op.pc.Ready?
    case StartReturns(_) => op.pc.Starting?
    case CheckLive => op.pc.Started?
    case FinishStartup => op.pc.SeenLive?
    case Complete => op.pc.Completing?
    case Release => op.pc.Leaving?
  }

  // A load still has to complete its call; the other operations just return.
  function Wind(op: Op, outcome: Outcome): Pc { if op.kind.Load? then Completing(outcome) else Leaving }

  function NextPc(s: State, op: Op, step: Step): Pc
    requires StepEnabled(s, op, step)
  {
    match step
    case Acquire => Entered
    case GiveUp(error) => if op.kind.Load? then Completing(error) else Over
    case CancelStartup => Cancelling(Stored(s.board, op.id))
    case CallCancel =>
      if op.pc.Cancelling? then Stopping
      else if op.pc.Beginning? then Ready(op.pc.gen)
      else Wind(op, op.pc.outcome)
    case StopSucceeds => if op.kind.Restart? then Stopped else Leaving
    case StopFails => Leaving
    case BeginStartup => Beginning(GenOf(s.board, op.id) + 1, Stored(s.board, op.id))
    case NoStart(outcome) => Wind(op, outcome)
    case ReleaseEarly => Starting(op.pc.gen)
    case StartReturns(outcome) => Started(op.pc.gen, outcome)
    case CheckLive =>
      if GenOf(s.board, op.id) == op.pc.gen then SeenLive(op.pc.gen, op.pc.outcome) else Wind(op, StartupKilled)
    case FinishStartup =>
      Finishing(if GenOf(s.board, op.id) == op.pc.gen then Stored(s.board, op.id) else None, op.pc.outcome)
    case Complete => Leaving
    case Release => Over
  }

  function NextBoard(s: State, o: OpID, op: Op, step: Step): Board
    requires StepEnabled(s, op, step)
  {
    match step
    case CancelStartup => Cancelled(s.board, op.id)
    case BeginStartup => Begun(s.board, op.id)
    case FinishStartup => Finished(s.board, op.id, op.pc.gen)
    case Complete => if o in s.board.calls then Completed(s.board, o, op.pc.outcome) else s.board
    case _ => s.board
  }

  function NextToken(op: Op, step: Step): Token {
    match step
    case Acquire => Held
    case ReleaseEarly => if op.token.Held? then Released else op.token
    case Release => if op.token.Held? then Released else op.token
    case _ => op.token
  }

  function NextOp(s: State, op: Op, step: Step): Op
    requires StepEnabled(s, op, step)
  {
    op.(pc := NextPc(s, op, step), token := NextToken(op, step))
  }

  // Releasing takes whatever is in the gate.
  function NextGate(s: State, o: OpID, op: Op, step: Step): map<InstanceID, OpID> {
    match step
    case Acquire => s.gate[op.id := o]
    case ReleaseEarly => if op.token.Held? then s.gate - {op.id} else s.gate
    case Release => if op.token.Held? then s.gate - {op.id} else s.gate
    case _ => s.gate
  }

  function ContextOf(id: InstanceID, gen: Option<Generation>): set<Context> {
    if gen.Some? then {Context(id, gen.value)} else {}
  }

  function MoveOp(s: State, o: OpID, step: Step): State
    requires o in s.ops && StepEnabled(s, s.ops[o], step)
  {
    var op := s.ops[o];
    State(
      NextBoard(s, o, op, step), NextGate(s, o, op, step),
      s.ops[o := NextOp(s, op, step)], s.joins,
      if step.BeginStartup? then s.begun + {Context(op.id, GenOf(s.board, op.id) + 1)} else s.begun,
      if step.CallCancel? then s.ended + ContextOf(op.id, op.pc.cancel) else s.ended)
  }

  predicate Enabled(s: State, a: Action) {
    match a
    case StartSingleFlight(j, id, unused) => j !in s.joins && unused !in s.ops && unused !in s.board.calls
    case SeeDone(j) => j in s.joins && s.joins[j].load in s.board.calls && s.board.calls[s.joins[j].load].result.Some?
    case StartOp(o, id, kind) => o !in s.ops && o !in s.board.calls && !kind.Load?
    case Move(o, step) => o in s.ops && StepEnabled(s, s.ops[o], step)
  }

  function Apply(s: State, a: Action): State
    requires Enabled(s, a)
  {
    match a
    case StartSingleFlight(j, id, unused) =>
      var board := Joined(s.board, id, unused);
      s.(board := board, joins := s.joins[j := Join(id, board.loads[id], None)],
         ops := if id in s.board.loads then s.ops else s.ops[unused := Op(id, Load, AtGate, NotAcquired)])
    case SeeDone(j) => s.(joins := s.joins[j := s.joins[j].(seen := s.board.calls[s.joins[j].load].result)])
    case StartOp(o, id, kind) => s.(ops := s.ops[o := Op(id, kind, AtGate, NotAcquired)])
    case Move(o, step) => MoveOp(s, o, step)
  }

  ghost predicate IsRun(run: seq<State>, actions: seq<Action>) {
    && |run| == |actions| + 1
    && Init(run[0])
    && forall i :: 0 <= i < |actions| ==> Enabled(run[i], actions[i]) && run[i + 1] == Apply(run[i], actions[i])
  }

  // ----- invariant -------------------------------------------------------------------------------

  predicate InsideGate(pc: Pc) {
    pc.Entered? || pc.Cancelling? || pc.Stopping? || pc.Stopped? || pc.Beginning? || pc.Ready?
  }

  predicate TokenOK(op: Op) {
    && (op.pc.AtGate? ==> op.token.NotAcquired?)
    && (InsideGate(op.pc) ==> op.token.Held?)
    && (op.pc.Starting? || op.pc.Started? || op.pc.SeenLive? || op.pc.Finishing? ==> op.token.Released?)
    && (op.pc.Over? ==> !op.token.Held?)
    && (op.pc.Completing? ==> op.kind.Load?)
    && (op.pc.Cancelling? || op.pc.Stopping? || op.pc.Stopped? ==> !op.kind.Load?)
  }

  // The generation of the startup an operation has begun and not finished.
  function StartupGen(op: Op): Option<Generation> {
    if op.pc.Beginning? || op.pc.Ready? || op.pc.Starting? || op.pc.Started? || op.pc.SeenLive? then Some(op.pc.gen)
        else None
  }

  predicate OwnsStartup(op: Op, id: InstanceID, gen: Generation) { op.id == id && StartupGen(op) == Some(gen) }

  function StoredContext(board: Board, id: InstanceID): Option<Context> {
    if id in board.cancels then Some(Context(id, board.cancels[id])) else None
  }

  // The context whose cancel function the operation is about to call.
  function Owed(op: Op): Option<Context> {
    if (op.pc.Cancelling? || op.pc.Beginning? || op.pc.Finishing?) && op.pc.cancel.Some?
        then Some(Context(op.id, op.pc.cancel.value)) else None
  }

  ghost predicate GateInv(gate: map<InstanceID, OpID>, ops: map<OpID, Op>) {
    && (forall o :: o in ops && ops[o].token.Held? ==> ops[o].id in gate && gate[ops[o].id] == o)
    && (forall id :: id in gate ==> gate[id] in ops && ops[gate[id]].id == id && ops[gate[id]].token.Held?)
    && (forall o :: o in ops ==> TokenOK(ops[o]))
  }

  ghost predicate CancelInv(board: Board) { forall id :: id in board.cancels ==> board.cancels[id] == GenOf(board, id) }

  // While a startup's generation is current, its cancel function is the stored one.
  predicate OwnerOK(board: Board, op: Op) {
    match StartupGen(op)
    case None => true
    case Some(gen) => gen <= GenOf(board, op.id) && (gen == GenOf(board, op.id) ==> Stored(board, op.id) == Some(gen))
  }

  predicate SameStartup(a: Op, b: Op) { a.id == b.id && StartupGen(a).Some? && StartupGen(a) == StartupGen(b) }

  ghost predicate OwnerInv(board: Board, ops: map<OpID, Op>) {
    && (forall o :: o in ops ==> OwnerOK(board, ops[o]))
    && (forall o, p :: o in ops && p in ops && SameStartup(ops[o], ops[p]) ==> o == p)
  }

  ghost predicate HasOwner(ops: map<OpID, Op>, id: InstanceID, gen: Generation) {
    exists o :: o in ops && OwnsStartup(ops[o], id, gen)
  }

  ghost predicate IsOwed(ops: map<OpID, Op>, c: Context) { exists o :: o in ops && Owed(ops[o]) == Some(c) }

  // A stored cancel function belongs to a startup that an operation has begun and not finished.
  ghost predicate StoredInv(board: Board, ops: map<OpID, Op>, begun: set<Context>) {
    forall id :: id in board.cancels ==> HasOwner(ops, id, board.cancels[id]) && Context(id, board.cancels[id]) in begun
  }

  ghost predicate BegunInv(board: Board, ops: map<OpID, Op>, begun: set<Context>, ended: set<Context>) {
    forall c :: c in begun ==>
        c.gen <= GenOf(board, c.id) && (StoredContext(board, c.id) == Some(c) || c in ended || IsOwed(ops, c))
  }

  // A context that has been cancelled, or is about to be, is no longer stored.
  ghost predicate EndedInv(board: Board, ops: map<OpID, Op>, begun: set<Context>, ended: set<Context>) {
    && (forall c :: c in ended ==> c in begun && StoredContext(board, c.id) != Some(c))
    && (forall o :: o in ops && Owed(ops[o]).Some? ==>
          Owed(ops[o]).value in begun && Owed(ops[o]).value.id == ops[o].id
              && StoredContext(board, ops[o].id) != Owed(ops[o]))
  }

  ghost predicate ContextInv(board: Board, ops: map<OpID, Op>, begun: set<Context>, ended: set<Context>) {
    StoredInv(board, ops, begun) && BegunInv(board, ops, begun, ended) && EndedInv(board, ops, begun, ended)
  }

  predicate CallOK(board: Board, ops: map<OpID, Op>, c: OpID)
    requires c in board.calls
  {
    var LoadCall(id, result) := board.calls[c];
    && (result.None? ==> id in board.loads && board.loads[id] == c)
    && c in ops && ops[c].kind.Load? && ops[c].id == id
    && (result.Some? <==> ops[c].pc.Leaving? || ops[c].pc.Over?)
  }

  ghost predicate LoadInv(board: Board, ops: map<OpID, Op>) {
    && (forall id :: id in board.loads ==>
        board.loads[id] in board.calls && board.calls[board.loads[id]] == LoadCall(id, None))
    && (forall c :: c in board.calls ==> CallOK(board, ops, c))
    && (forall o :: o in ops && ops[o].kind.Load? ==> o in board.calls)
  }

  ghost predicate JoinInv(board: Board, joins: map<CallID, Join>) {
    forall j :: j in joins ==>
      && joins[j].load in board.calls && board.calls[joins[j].load].id == joins[j].id
      && (joins[j].seen.Some? ==> joins[j].seen == board.calls[joins[j].load].result)
  }

  ghost predicate Inv(s: State) {
    && GateInv(s.gate, s.ops) && CancelInv(s.board) && OwnerInv(s.board, s.ops)
    && ContextInv(s.board, s.ops, s.begun, s.ended) && LoadInv(s.board, s.ops) && JoinInv(s.board, s.joins)
  }

  // What one step does to the operation that takes it.
  lemma {:induction false} NextOpFacts(s: State, op: Op, step: Step)
    requires TokenOK(op) && StepEnabled(s, op, step)
    ensures var next := NextOp(s, op, step);
      && TokenOK(next)
      && (step.Acquire? ==> op.token.NotAcquired?)
      && (step.Complete? ==> op.kind.Load?)
      && (op.kind.Load? ==> ((next.pc.Leaving? || next.pc.Over?) <==>
          (op.pc.Leaving? || op.pc.Over? || step.Complete?)))
      && (step.Complete? ==> !op.pc.Leaving? && !op.pc.Over?)
  {
    hide GenOf, Stored;
  }

  lemma {:induction false} NextOwns(s: State, op: Op, step: Step)
    requires StepEnabled(s, op, step)
    ensures StartupGen(NextOp(s, op, step)) ==
            if step.BeginStartup? then Some(GenOf(s.board, op.id) + 1)
            else if step.FinishStartup? || (step.CheckLive? && op.pc.gen != GenOf(s.board, op.id)) then None
            else StartupGen(op)
    ensures step.FinishStartup? || step.CheckLive? ==> StartupGen(op) == Some(op.pc.gen)
    ensures step.BeginStartup? || step.CancelStartup? ==> StartupGen(op) == None
  {
    hide GenOf, Stored;
  }

  lemma {:induction false} NextOwed(s: State, op: Op, step: Step)
    requires StepEnabled(s, op, step)
    ensures Owed(NextOp(s, op, step)) ==
            if step.BeginStartup? || step.CancelStartup? || (step.FinishStartup? && op.pc.gen == GenOf(s.board, op.id))
            then StoredContext(s.board, op.id) else None
    ensures Owed(op).Some? ==> step.CallCancel?
    ensures step.CallCancel? ==> ContextOf(op.id, op.pc.cancel) == if Owed(op).Some? then {Owed(op).value} else {}
  {
  }

  lemma {:induction false} MoveKeepsGate(s: State, o: OpID, step: Step)
    requires GateInv(s.gate, s.ops) && o in s.ops && StepEnabled(s, s.ops[o], step)
    ensures GateInv(MoveOp(s, o, step).gate, MoveOp(s, o, step).ops)
  {
    NextOpFacts(s, s.ops[o], step);
    hide NextPc, TokenOK, NextBoard;
  }

  // What one step does to the generations and stored cancel functions.
  lemma {:induction false} BoardFacts(s: State, o: OpID, step: Step)
    requires o in s.ops && StepEnabled(s, s.ops[o], step) && CancelInv(s.board)
    ensures var op := s.ops[o];
      var board := NextBoard(s, o, op, step);
      && CancelInv(board)
      && (forall id :: GenOf(board, id) == GenOf(s.board, id) + if id == op.id
          && (step.BeginStartup? || step.CancelStartup?) then 1 else 0)
      && (forall id :: id != op.id ==> Stored(board, id) == Stored(s.board, id))
      && Stored(board, op.id) ==
           if step.BeginStartup? then Some(GenOf(board, op.id))
           else if step.CancelStartup? || (step.FinishStartup? && op.pc.gen == GenOf(s.board, op.id)) then None
           else Stored(s.board, op.id)
    ensures forall b: Board, id :: StoredContext(b, id) == if Stored(b, id).Some?
        then Some(Context(id, Stored(b, id).value)) else None
  {
  }

  lemma {:induction false} MoveKeepsOwners(s: State, o: OpID, step: Step)
    requires OwnerInv(s.board, s.ops) && CancelInv(s.board) && o in s.ops && StepEnabled(s, s.ops[o], step)
    ensures OwnerInv(MoveOp(s, o, step).board, MoveOp(s, o, step).ops) && CancelInv(MoveOp(s, o, step).board)
  {
    var after := MoveOp(s, o, step);
    BoardFacts(s, o, step);
    NextOwns(s, s.ops[o], step);
    hide GenOf, Stored, NextBoard, StartupGen, NextPc, CancelInv;
    forall p | p in after.ops
      ensures OwnerOK(after.board, after.ops[p])
    {
      assert OwnerOK(s.board, s.ops[p]);
      assert step.FinishStartup? && p != o ==> !SameStartup(s.ops[o], s.ops[p]);
    }
  }

  lemma {:induction false} CompleteKeepsLoads(s: State, o: OpID, outcome: Outcome, next: Op)
    requires LoadInv(s.board, s.ops) && JoinInv(s.board, s.joins) && o in s.ops
    requires s.ops[o].kind.Load? && !s.ops[o].pc.Leaving? && !s.ops[o].pc.Over?
    requires next.kind.Load? && next.id == s.ops[o].id && next.pc.Leaving?
    ensures o in s.board.calls
    ensures var board := Completed(s.board, o, outcome);
      LoadInv(board, s.ops[o := next]) && JoinInv(board, s.joins)
  {
    assert CallOK(s.board, s.ops, o);
  }

  lemma {:induction false} OthersKeepLoads(s: State, board: Board, o: OpID, next: Op)
    requires LoadInv(s.board, s.ops) && o in s.ops && board.loads == s.board.loads && board.calls == s.board.calls
    requires next.kind == s.ops[o].kind && next.id == s.ops[o].id
    requires next.kind.Load? ==> ((next.pc.Leaving? || next.pc.Over?) <==> (s.ops[o].pc.Leaving? || s.ops[o].pc.Over?))
    ensures LoadInv(board, s.ops[o := next])
  {
    var ops := s.ops[o := next];
    forall c | c in board.calls
      ensures CallOK(board, ops, c)
    {
      assert CallOK(s.board, s.ops, c);
    }
  }

  lemma {:induction false} MoveKeepsLoads(s: State, o: OpID, step: Step)
    requires LoadInv(s.board, s.ops) && JoinInv(s.board, s.joins) && GateInv(s.gate, s.ops) && o in s.ops
        && StepEnabled(s, s.ops[o], step)
    ensures var after := MoveOp(s, o, step); LoadInv(after.board, after.ops) && JoinInv(after.board, after.joins)
  {
    NextOpFacts(s, s.ops[o], step);
    if step.Complete? {
      CompleteKeepsLoads(s, o, s.ops[o].pc.outcome, NextOp(s, s.ops[o], step));
    } else {
      OthersKeepLoads(s, NextBoard(s, o, s.ops[o], step), o, NextOp(s, s.ops[o], step));
    }
    hide NextToken, NextGate, TokenOK, LoadInv, Completed;
  }

  lemma {:induction false} MoveKeepsStored(s: State, o: OpID, step: Step)
    requires OwnerInv(s.board, s.ops) && CancelInv(s.board) && StoredInv(s.board, s.ops, s.begun)
    requires o in s.ops && StepEnabled(s, s.ops[o], step)
    ensures var after := MoveOp(s, o, step); StoredInv(after.board, after.ops, after.begun)
  {
    var after := MoveOp(s, o, step);
    var op := s.ops[o];
    BoardFacts(s, o, step);
    NextOwns(s, op, step);
    hide GenOf, NextBoard, StartupGen, NextPc, NextToken, NextGate;
    forall id | id in after.board.cancels
      ensures HasOwner(after.ops, id, after.board.cancels[id]) && Context(id, after.board.cancels[id]) in after.begun
    {
      var gen := after.board.cancels[id];
      assert Stored(after.board, id) == Some(gen);
      if step.BeginStartup? && id == op.id {
        assert OwnsStartup(after.ops[o], id, gen);
      } else {
        assert Stored(s.board, id) == Some(gen);
        var p :| p in s.ops && OwnsStartup(s.ops[p], id, gen);
        assert OwnsStartup(after.ops[p], id, gen);
      }
    }
  }

  lemma {:induction false} MoveKeepsBegun(s: State, o: OpID, step: Step)
    requires CancelInv(s.board) && BegunInv(s.board, s.ops, s.begun, s.ended)
    requires o in s.ops && StepEnabled(s, s.ops[o], step)
    ensures var after := MoveOp(s, o, step); BegunInv(after.board, after.ops, after.begun, after.ended)
  {
    var after := MoveOp(s, o, step);
    var op := s.ops[o];
    BoardFacts(s, o, step);
    NextOwed(s, op, step);
    hide GenOf, NextBoard, NextPc, NextToken, NextGate, Owed, StoredContext, ContextOf;
    forall c | c in after.begun
      ensures c.gen <= GenOf(after.board, c.id)
      ensures StoredContext(after.board, c.id) == Some(c) || c in after.ended || IsOwed(after.ops, c)
    {
      assert GenOf(s.board, c.id) <= GenOf(after.board, c.id);
      if c in s.begun {
        if StoredContext(s.board, c.id) == Some(c) {
          assert StoredContext(after.board, c.id) == Some(c) || Owed(after.ops[o]) == Some(c);
        } else if c !in s.ended {
          var p :| p in s.ops && Owed(s.ops[p]) == Some(c);
          assert p != o ==> Owed(after.ops[p]) == Some(c);
        }
      }
    }
  }

  lemma {:induction false} MoveKeepsEnded(s: State, o: OpID, step: Step)
    requires CancelInv(s.board) && StoredInv(s.board, s.ops, s.begun) && BegunInv(s.board, s.ops, s.begun, s.ended)
        && EndedInv(s.board, s.ops, s.begun, s.ended)
    requires o in s.ops && StepEnabled(s, s.ops[o], step)
    ensures var after := MoveOp(s, o, step); EndedInv(after.board, after.ops, after.begun, after.ended)
  {
    var after := MoveOp(s, o, step);
    var op := s.ops[o];
    BoardFacts(s, o, step);
    NextOwed(s, op, step);
    forall c: Context | c in s.begun
      ensures StoredContext(after.board, c.id) == Some(c) ==> StoredContext(s.board, c.id) == Some(c)
    {
      assert c.gen <= GenOf(s.board, c.id);
    }
    assert StoredContext(s.board, op.id).Some? ==>
        StoredContext(s.board, op.id).value in s.begun && StoredContext(s.board, op.id).value.id == op.id;
    assert step.BeginStartup? || step.CancelStartup? || (step.FinishStartup? && op.pc.gen == GenOf(s.board, op.id)) ==>
        StoredContext(s.board, op.id).None? || StoredContext(after.board, op.id) != StoredContext(s.board, op.id);
    hide GenOf, NextBoard, NextPc, NextToken, NextGate, Owed, StoredContext, ContextOf, StoredInv, BegunInv, CancelInv;
  }

  lemma {:induction false} MovePreserves(s: State, o: OpID, step: Step)
    requires Inv(s) && o in s.ops && StepEnabled(s, s.ops[o], step)
    ensures Inv(MoveOp(s, o, step))
  {
    MoveKeepsGate(s, o, step);
    MoveKeepsOwners(s, o, step);
    MoveKeepsStored(s, o, step);
    MoveKeepsBegun(s, o, step);
    MoveKeepsEnded(s, o, step);
    MoveKeepsLoads(s, o, step);
  }

  // An operation that has just begun owns, owes and holds nothing.
  lemma {:induction false} NewOpKeepsGate(s: State, o: OpID, op: Op)
    requires GateInv(s.gate, s.ops) && OwnerInv(s.board, s.ops)
    requires o !in s.ops && op.pc.AtGate? && op.token.NotAcquired?
    ensures GateInv(s.gate, s.ops[o := op]) && OwnerInv(s.board, s.ops[o := op])
  {
    assert TokenOK(op) && StartupGen(op).None?;
    hide GenOf, TokenOK, StartupGen;
  }

  lemma {:induction false} NewOpKeepsContexts(s: State, o: OpID, op: Op)
    requires ContextInv(s.board, s.ops, s.begun, s.ended) && o !in s.ops && op.pc.AtGate?
    ensures ContextInv(s.board, s.ops[o := op], s.begun, s.ended)
  {
    var ops := s.ops[o := op];
    assert Owed(op).None?;
    hide GenOf, StoredContext, StartupGen, Owed;
    forall id | id in s.board.cancels
      ensures HasOwner(ops, id, s.board.cancels[id])
    {
      var p :| p in s.ops && OwnsStartup(s.ops[p], id, s.board.cancels[id]);
      assert OwnsStartup(ops[p], id, s.board.cancels[id]);
    }
    hide HasOwner;
    forall c | IsOwed(s.ops, c)
      ensures IsOwed(ops, c)
    {
      var p :| p in s.ops && Owed(s.ops[p]) == Some(c);
      assert Owed(ops[p]) == Some(c);
    }
    hide IsOwed;
  }

  // Joining changes neither generations nor cancel functions.
  lemma {:induction false} SameStartups(a: Board, b: Board, s: State)
    requires OwnerInv(a, s.ops) && CancelInv(a) && ContextInv(a, s.ops, s.begun, s.ended) && a.gens == b.gens
        && a.cancels == b.cancels
    ensures OwnerInv(b, s.ops) && CancelInv(b) && ContextInv(b, s.ops, s.begun, s.ended)
  {
    assert forall id ::
        GenOf(a, id) == GenOf(b, id) && Stored(a, id) == Stored(b, id) && StoredContext(a, id) == StoredContext(b, id);
    hide GenOf, Stored, StoredContext, HasOwner, IsOwed, StartupGen, Owed;
    forall o | o in s.ops
      ensures OwnerOK(b, s.ops[o])
    {
      assert OwnerOK(a, s.ops[o]);
    }
  }

  lemma {:induction false} NewLoad(s: State, id: InstanceID, unused: OpID, op: Op)
    requires LoadInv(s.board, s.ops) && JoinInv(s.board, s.joins) && id !in s.board.loads && unused !in s.board.calls
        && unused !in s.ops
    requires op == Op(id, Load, AtGate, NotAcquired)
    ensures LoadInv(Joined(s.board, id, unused), s.ops[unused := op]) && JoinInv(Joined(s.board, id, unused), s.joins)
  {
    var board, ops := Joined(s.board, id, unused), s.ops[unused := op];
    forall c | c in board.calls
      ensures CallOK(board, ops, c)
    {
      assert c in s.board.calls ==> CallOK(s.board, s.ops, c);
    }
  }

  lemma {:induction false} SingleFlightPreserves(s: State, j: CallID, id: InstanceID, unused: OpID)
    requires Inv(s) && Enabled(s, StartSingleFlight(j, id, unused))
    ensures Inv(Apply(s, StartSingleFlight(j, id, unused)))
  {
    var op := Op(id, Load, AtGate, NotAcquired);
    var board := Joined(s.board, id, unused);
    var ops := if id in s.board.loads then s.ops else s.ops[unused := op];
    assert Apply(s, StartSingleFlight(j, id, unused)) ==
      State(board, s.gate, ops, s.joins[j := Join(id, board.loads[id], None)], s.begun, s.ended);
    if id !in s.board.loads {
      NewOpKeepsGate(s, unused, op);
      NewOpKeepsContexts(s, unused, op);
      NewLoad(s, id, unused, op);
      SameStartups(s.board, board, s.(ops := ops));
    }
    JoinAdded(board, ops, s.joins, j, id);
    hide GateInv, OwnerInv, ContextInv, CancelInv, LoadInv, JoinInv;
  }

  lemma {:induction false} JoinAdded(board: Board, ops: map<OpID, Op>, joins: map<CallID, Join>, j: CallID,
        id: InstanceID)
    requires LoadInv(board, ops) && JoinInv(board, joins) && id in board.loads
    ensures JoinInv(board, joins[j := Join(id, board.loads[id], None)])
  {
  }

  lemma {:induction false} StepPreserves(s: State, a: Action)
    requires Inv(s) && Enabled(s, a)
    ensures Inv(Apply(s, a))
  {
    match a
    case StartSingleFlight(j, id, unused) => SingleFlightPreserves(s, j, id, unused);
    case SeeDone(j) => hide GateInv, OwnerInv, ContextInv, CancelInv, LoadInv;
    case StartOp(o, id, kind) =>
      NewOpKeepsGate(s, o, Op(id, kind, AtGate, NotAcquired));
      NewOpKeepsContexts(s, o, Op(id, kind, AtGate, NotAcquired));
      hide GateInv, OwnerInv, ContextInv, CancelInv;
      forall c | c in s.board.calls
        ensures CallOK(s.board, s.ops[o := Op(id, kind, AtGate, NotAcquired)], c)
      {
        assert CallOK(s.board, s.ops, c);
      }
    case Move(o, step) => MovePreserves(s, o, step);
  }

  lemma {:induction false} RunInv(run: seq<State>, actions: seq<Action>, i: nat)
    requires IsRun(run, actions) && i < |run|
    ensures Inv(run[i])
  {
    if i > 0 {
      RunInv(run, actions, i - 1);
      StepPreserves(run[i - 1], actions[i - 1]);
    }
  }

  // ----- what holds over every run ------------------------------------------------------------------

  /** At most one operation holds an instance's gate, although a release may be called twice; and every
      operation between acquiring and releasing, where startups are begun and cancelled, holds it. */
  lemma {:induction false} OneHolder(run: seq<State>, actions: seq<Action>, i: nat, o: OpID, p: OpID)
    requires IsRun(run, actions) && i < |run| && o in run[i].ops && p in run[i].ops
    requires run[i].ops[o].id == run[i].ops[p].id
    requires run[i].ops[o].token.Held? || InsideGate(run[i].ops[o].pc)
    requires run[i].ops[p].token.Held? || InsideGate(run[i].ops[p].pc)
    ensures o == p && run[i].ops[o].id in run[i].gate && run[i].gate[run[i].ops[o].id] == o
  {
    RunInv(run, actions, i);
    assert TokenOK(run[i].ops[o]) && TokenOK(run[i].ops[p]);
  }

  /** A generation moves only by one, and only by the operation that holds the instance's gate. */
  lemma {:induction false} GenerationsMoveUnderGate(run: seq<State>, actions: seq<Action>, i: nat, id: InstanceID)
    requires IsRun(run, actions) && i < |actions| && GenOf(run[i + 1].board, id) != GenOf(run[i].board, id)
    ensures GenOf(run[i + 1].board, id) == GenOf(run[i].board, id) + 1
    ensures actions[i].Move? && id in run[i].gate && run[i].gate[id] == actions[i].o
  {
    RunInv(run, actions, i);
    var s, a := run[i], actions[i];
    assert run[i + 1] == Apply(s, a);
    if a.Move? {
      BoardFacts(s, a.o, a.step);
      assert TokenOK(s.ops[a.o]);
    }
  }

  /** A stored cancel function is always the one of the current generation, of a startup that one
      operation has begun and not finished, and whose context has not been cancelled. */
  lemma {:induction false} StoredCancelIsCurrent(run: seq<State>, actions: seq<Action>, i: nat, id: InstanceID)
    requires IsRun(run, actions) && i < |run| && id in run[i].board.cancels
    ensures var gen := GenOf(run[i].board, id);
      && run[i].board.cancels[id] == gen
      && HasOwner(run[i].ops, id, gen)
      && Context(id, gen) in run[i].begun - run[i].ended
  {
    RunInv(run, actions, i);
    assert StoredContext(run[i].board, id) == Some(Context(id, run[i].board.cancels[id]));
  }

  /** At most one startup of an instance is live, and the context of a live startup has not been cancelled. */
  lemma {:induction false} OneLiveStartup(run: seq<State>, actions: seq<Action>, i: nat, o: OpID, p: OpID)
    requires IsRun(run, actions) && i < |run| && o in run[i].ops && p in run[i].ops
    requires var id, gen := run[i].ops[o].id, GenOf(run[i].board, run[i].ops[o].id);
      OwnsStartup(run[i].ops[o], id, gen) && OwnsStartup(run[i].ops[p], id, gen)
    ensures o == p && Context(run[i].ops[o].id, GenOf(run[i].board, run[i].ops[o].id)) in run[i].begun - run[i].ended
  {
    RunInv(run, actions, i);
    var s := run[i];
    assert SameStartup(s.ops[o], s.ops[p]);
    assert OwnerOK(s.board, s.ops[o]);
    StoredCancelIsCurrent(run, actions, i, s.ops[o].id);
  }

  /** No startup context is lost: each is stored, cancelled, or about to be cancelled by an operation;
      so once all operations are over every context has been cancelled and no cancel function is left. */
  lemma {:induction false} EveryContextEnds(run: seq<State>, actions: seq<Action>, i: nat)
    requires IsRun(run, actions) && i < |run|
    requires forall o :: o in run[i].ops ==> run[i].ops[o].pc.Over?
    ensures run[i].begun == run[i].ended && run[i].board.cancels == map[] && run[i].gate == map[]
        && run[i].board.loads == map[]
    ensures forall c :: c in run[i].board.calls ==> run[i].board.calls[c].result.Some?
  {
    RunInv(run, actions, i);
    var s := run[i];
    assert forall o :: o in s.ops ==> TokenOK(s.ops[o]);
    assert forall o, id, gen :: o in s.ops ==> !OwnsStartup(s.ops[o], id, gen);
    assert forall o :: o in s.ops ==> Owed(s.ops[o]).None?;
    forall id
      ensures id !in s.board.cancels
    {
      assert id in s.board.cancels ==> HasOwner(s.ops, id, s.board.cancels[id]);
    }
    forall c | c in s.begun
      ensures c in s.ended
    {
      assert StoredContext(s.board, c.id).None? && !IsOwed(s.ops, c);
    }
    forall id
      ensures id !in s.board.loads
    {
      assert id in s.board.loads ==> CallOK(s.board, s.ops, s.board.loads[id]);
    }
    forall c | c in s.board.calls
      ensures s.board.calls[c].result.Some?
    {
      assert CallOK(s.board, s.ops, c);
    }
  }

  lemma {:induction false} GenerationsGrow(run: seq<State>, actions: seq<Action>, i: nat, j: nat, id: InstanceID)
    requires IsRun(run, actions) && i <= j < |run|
    ensures GenOf(run[i].board, id) <= GenOf(run[j].board, id)
    decreases j
  {
    hide GenOf, Apply, Enabled, Init;
    if i < j {
      GenerationsGrow(run, actions, i, j - 1, id);
      if GenOf(run[j].board, id) != GenOf(run[j - 1].board, id) {
        GenerationsMoveUnderGate(run, actions, j - 1, id);
      }
    }
  }

  // Operations only go forward, so none begins a startup twice.
  function Place(pc: Pc): nat {
    match pc
    case AtGate => 0 case Entered => 1 case Cancelling(_) => 2 case Stopping => 3 case Stopped => 4
    case Beginning(_, _) => 5 case Ready(_) => 6 case Starting(_) => 7 case Started(_, _) => 8 case SeenLive(_, _) => 9
    case Finishing(_, _) => 10 case Completing(_) => 11 case Leaving => 12 case Over => 13
  }

  lemma {:induction false} OpsGoForward(s: State, op: Op, step: Step)
    requires StepEnabled(s, op, step)
    ensures Place(op.pc) < Place(NextOp(s, op, step).pc) && NextOp(s, op, step).id == op.id
  {
    hide GenOf, Stored;
  }

  // The startup that an operation has begun, as long as it has not finished it.
  predicate KeepsStartup(op: Op, id: InstanceID, gen: Generation) {
    op.id == id && Place(op.pc) >= 5 && (StartupGen(op).None? || StartupGen(op) == Some(gen))
  }

  lemma {:induction false} StartupIsKept(run: seq<State>, actions: seq<Action>, i: nat, j: nat, o: OpID, id: InstanceID,
        gen: Generation)
    requires IsRun(run, actions) && i <= j < |run| && o in run[i].ops && KeepsStartup(run[i].ops[o], id, gen)
    ensures o in run[j].ops && KeepsStartup(run[j].ops[o], id, gen)
    decreases j
  {
    hide KeepsStartup, Init;
    if i < j {
      StartupIsKept(run, actions, i, j - 1, o, id, gen);
      var s, a := run[j - 1], actions[j - 1];
      assert run[j] == Apply(s, a);
      if a.Move? && a.o == o {
        StepKeepsStartup(s, s.ops[o], a.step, id, gen);
      }
      hide NextOp, NextBoard, NextGate, ContextOf;
    }
  }

  lemma {:induction false} StepKeepsStartup(s: State, op: Op, step: Step, id: InstanceID, gen: Generation)
    requires StepEnabled(s, op, step) && KeepsStartup(op, id, gen)
    ensures KeepsStartup(NextOp(s, op, step), id, gen)
  {
    OpsGoForward(s, op, step);
    NextOwns(s, op, step);
    hide NextOp, StartupGen;
  }

  /** A startup that finds itself live was not disturbed: from when its operation began it until then no stop,
      kill or restart cancelled it and no other startup of the instance began. */
  lemma {:induction false} LiveMeansUndisturbed(run: seq<State>, actions: seq<Action>, i: nat, j: nat, k: nat, o: OpID)
    requires IsRun(run, actions) && i < k <= j < |actions|
    requires actions[i] == Move(o, BeginStartup) && actions[j] == Move(o, CheckLive)
    requires run[j + 1].ops[o].pc.SeenLive?
    ensures GenOf(run[k].board, run[i].ops[o].id) == run[i + 1].ops[o].pc.gen
    ensures actions[k].Move? && actions[k].o in run[k].ops && run[k].ops[actions[k].o].id == run[i].ops[o].id ==>
        !actions[k].step.CancelStartup? && !actions[k].step.BeginStartup?
  {
    var id := run[i].ops[o].id;
    assert run[i + 1] == Apply(run[i], actions[i]) && run[j + 1] == Apply(run[j], actions[j]);
    assert Enabled(run[i], actions[i]) && Enabled(run[j], actions[j]);
    var gen := run[i + 1].ops[o].pc.gen;
    assert KeepsStartup(run[i + 1].ops[o], id, gen);
    StartupIsKept(run, actions, i + 1, j, o, id, gen);
    assert run[j].ops[o].pc.gen == gen;
    hide KeepsStartup, OwnsStartup;
    GenerationsGrow(run, actions, i + 1, k, id);
    GenerationsGrow(run, actions, k, j, id);
    if k < j {
      GenerationsGrow(run, actions, k + 1, j, id);
      assert run[k + 1] == Apply(run[k], actions[k]);
    }
  }

  /** At most one unfinished load call per instance, which is the one in the table. */
  lemma {:induction false} OneUnfinishedLoad(run: seq<State>, actions: seq<Action>, i: nat, c: OpID, d: OpID)
    requires IsRun(run, actions) && i < |run| && c in run[i].board.calls && d in run[i].board.calls
    requires run[i].board.calls[c].result.None? && run[i].board.calls[d].result.None?
    requires run[i].board.calls[c].id == run[i].board.calls[d].id
    ensures c == d && run[i].board.calls[c].id in run[i].board.loads
        && run[i].board.loads[run[i].board.calls[c].id] == c
  {
    RunInv(run, actions, i);
    assert CallOK(run[i].board, run[i].ops, c) && CallOK(run[i].board, run[i].ops, d);
  }

  /** A load call is completed by its own goroutine, when it is still unfinished: never a second time. */
  lemma {:induction false} CompletedOnce(run: seq<State>, actions: seq<Action>, i: nat, o: OpID)
    requires IsRun(run, actions) && i < |actions| && actions[i] == Move(o, Complete)
    ensures o in run[i].board.calls && run[i].board.calls[o].result.None?
    ensures run[i + 1].board.calls[o].result == Some(run[i].ops[o].pc.outcome)
    ensures run[i].board.calls[o].id !in run[i + 1].board.loads
  {
    RunInv(run, actions, i);
    var s := run[i];
    assert run[i + 1] == Apply(s, actions[i]);
    assert TokenOK(s.ops[o]) && CallOK(s.board, s.ops, o);
  }

  lemma {:induction false} ResultsStay(run: seq<State>, actions: seq<Action>, i: nat, j: nat, c: OpID)
    requires IsRun(run, actions) && i <= j < |run| && c in run[i].board.calls
    ensures c in run[j].board.calls && run[j].board.calls[c].id == run[i].board.calls[c].id
    ensures run[i].board.calls[c].result.Some? ==> run[j].board.calls[c] == run[i].board.calls[c]
    decreases j
  {
    hide Apply, Enabled, Init;
    if i < j {
      ResultsStay(run, actions, i, j - 1, c);
      ResultStays(run[j - 1], actions[j - 1], c);
    }
  }

  lemma {:induction false} ResultStays(s: State, a: Action, c: OpID)
    requires Enabled(s, a) && c in s.board.calls
    ensures var after := Apply(s, a).board.calls;
      && c in after && after[c].id == s.board.calls[c].id
      && (s.board.calls[c].result.Some? ==> after[c] == s.board.calls[c])
  {
    hide GenOf, Stored, NextOp, NextGate, ContextOf;
  }

  /** All who joined the same load see the same endpoint or the same error, whenever they look. */
  lemma {:induction false} JoinersAgree(run: seq<State>, actions: seq<Action>, i: nat, j: nat, a: CallID, b: CallID)
    requires IsRun(run, actions) && i <= j < |run| && a in run[i].joins && b in run[j].joins
    requires run[i].joins[a].load == run[j].joins[b].load && run[i].joins[a].seen.Some? && run[j].joins[b].seen.Some?
    ensures run[i].joins[a].seen == run[j].joins[b].seen && run[i].joins[a].id == run[j].joins[b].id
  {
    RunInv(run, actions, i);
    RunInv(run, actions, j);
    ResultsStay(run, actions, i, j, run[i].joins[a].load);
  }

  // ----- what a load comes to ------------------------------------------------------------------------

  // From some place on, whatever outcome the operation holds is this one.
  predicate Carries(op: Op, place: nat, outcome: Outcome) {
    && op.kind.Load? && Place(op.pc) >= place
    && (op.pc.Started? && place < 9 ==> op.pc.outcome == outcome)
    && (op.pc.SeenLive? || op.pc.Finishing? || op.pc.Completing? ==> place < 9 || op.pc.outcome == outcome)
  }

  lemma {:induction false} StepCarries(s: State, op: Op, step: Step, place: nat, outcome: Outcome)
    requires StepEnabled(s, op, step) && Carries(op, place, outcome) && place >= 8
    ensures Carries(NextOp(s, op, step), place, outcome)
  {
    hide GenOf, Stored;
  }

  lemma {:induction false} OutcomeIsCarried(run: seq<State>, actions: seq<Action>, i: nat, j: nat, o: OpID, place: nat,
        outcome: Outcome)
    requires IsRun(run, actions) && i <= j < |run| && o in run[i].ops && Carries(run[i].ops[o], place, outcome)
    requires place >= 8
    ensures o in run[j].ops && Carries(run[j].ops[o], place, outcome)
    decreases j
  {
    hide Carries, Init;
    if i < j {
      OutcomeIsCarried(run, actions, i, j - 1, o, place, outcome);
      var s, a := run[j - 1], actions[j - 1];
      assert run[j] == Apply(s, a);
      if a.Move? && a.o == o {
        StepCarries(s, s.ops[o], a.step, place, outcome);
      }
      hide NextOp, NextBoard, NextGate, ContextOf;
    }
  }

  // The call ends with this result, and nobody who joined it sees anything else.
  ghost predicate EndsWith(run: seq<State>, m: nat, o: OpID, outcome: Outcome)
    requires m + 1 < |run|
  {
    && o in run[m + 1].board.calls && run[m + 1].board.calls[o].result == Some(outcome)
    && forall i, a :: 0 <= i < |run| && a in run[i].joins && run[i].joins[a].load == o && run[i].joins[a].seen.Some? ==>
         run[i].joins[a].seen == Some(outcome)
  }

  lemma {:induction false} CarriedToTheEnd(run: seq<State>, actions: seq<Action>, k: nat, m: nat, o: OpID,
        outcome: Outcome)
    requires IsRun(run, actions) && k < m < |actions| && actions[m] == Move(o, Complete)
    requires o in run[k + 1].ops && Carries(run[k + 1].ops[o], 9, outcome)
    ensures EndsWith(run, m, o, outcome)
  {
    OutcomeIsCarried(run, actions, k + 1, m, o, 9, outcome);
    assert Enabled(run[m], actions[m]);
    CompletedOnce(run, actions, m, o);
    hide Apply, Enabled, Init, Inv;
    forall i, a | 0 <= i < |run| && a in run[i].joins && run[i].joins[a].load == o && run[i].joins[a].seen.Some?
      ensures run[i].joins[a].seen == Some(outcome)
    {
      SeenIsTheResult(run, actions, i, a);
      if i <= m {
        ResultsStay(run, actions, i, m, o);
      } else {
        ResultsStay(run, actions, m + 1, i, o);
      }
    }
  }

  lemma {:induction false} SeenIsTheResult(run: seq<State>, actions: seq<Action>, i: nat, a: CallID)
    requires IsRun(run, actions) && i < |run| && a in run[i].joins && run[i].joins[a].seen.Some?
    ensures run[i].joins[a].load in run[i].board.calls
    ensures run[i].joins[a].seen == run[i].board.calls[run[i].joins[a].load].result
  {
    RunInv(run, actions, i);
  }

  /** A load that started a worker ends with what the start returned when the instance's generation has not moved
      from its beginning to the live check, and as killed when it has; all who joined it see just that. */
  lemma {:induction false} LoadEndsWithItsStart(run: seq<State>, actions: seq<Action>, b: nat, j: nat, k: nat, m: nat,
        o: OpID, outcome: Outcome)
    requires IsRun(run, actions) && b < j < k < m < |actions|
    requires actions[b] == Move(o, BeginStartup) && actions[j] == Move(o, StartReturns(outcome))
    requires actions[k] == Move(o, CheckLive) && actions[m] == Move(o, Complete)
    ensures o in run[b].ops
    ensures var id := run[b].ops[o].id;
      EndsWith(run, m, o, if GenOf(run[k].board, id) == GenOf(run[b + 1].board, id) then outcome else StartupKilled)
  {
    hide IsRun, GenOf, Stored, NextToken, NextGate, NextBoard, ContextOf;
    CompletesALoad(run, actions, m, o);
    GenerationIsKept(run, actions, b, k, o);
    OutcomeIsKept(run, actions, j, k, m, o, outcome);
    MoveAt(run, actions, k);
    SameKind(run, actions, k, m, o);
    CarriedToTheEnd(run, actions, k, m, o, NextPc(run[k], run[k].ops[o], CheckLive).outcome);
  }

  // A startup checks for the generation it has begun with ...
  lemma {:induction false} GenerationIsKept(run: seq<State>, actions: seq<Action>, b: nat, k: nat, o: OpID)
    requires IsRun(run, actions) && b < k < |actions| && actions[b] == Move(o, BeginStartup)
    requires actions[k] == Move(o, CheckLive)
    ensures o in run[b].ops && o in run[k].ops && run[k].ops[o].id == run[b].ops[o].id && run[k].ops[o].pc.Started?
    ensures run[k].ops[o].pc.gen == GenOf(run[b + 1].board, run[b].ops[o].id)
  {
    hide IsRun, NextToken, NextGate, ContextOf;
    MoveAt(run, actions, b);
    MoveAt(run, actions, k);
    var id := run[b].ops[o].id;
    var gen := GenOf(run[b + 1].board, id);
    assert KeepsStartup(run[b + 1].ops[o], id, gen);
    StartupIsKept(run, actions, b + 1, k, o, id, gen);
  }

  // ... with the outcome its start has returned.
  lemma {:induction false} OutcomeIsKept(run: seq<State>, actions: seq<Action>, j: nat, k: nat, m: nat, o: OpID,
        outcome: Outcome)
    requires IsRun(run, actions) && j < k < m < |actions| && actions[j] == Move(o, StartReturns(outcome))
    requires actions[k] == Move(o, CheckLive) && o in run[m].ops && run[m].ops[o].kind.Load?
    ensures o in run[k].ops && run[k].ops[o].pc.Started? && run[k].ops[o].pc.outcome == outcome
  {
    hide IsRun, GenOf, Stored, NextToken, NextGate, NextBoard, ContextOf;
    MoveAt(run, actions, j);
    MoveAt(run, actions, k);
    SameKind(run, actions, j + 1, m, o);
    OutcomeIsCarried(run, actions, j + 1, k, o, 8, outcome);
  }

  lemma {:induction false} MoveAt(run: seq<State>, actions: seq<Action>, i: nat)
    requires IsRun(run, actions) && i < |actions| && actions[i].Move?
    ensures |run| == |actions| + 1
    ensures var Move(o, step) := actions[i];
      && o in run[i].ops && StepEnabled(run[i], run[i].ops[o], step) && run[i + 1] == MoveOp(run[i], o, step)
  {
    assert Enabled(run[i], actions[i]) && run[i + 1] == Apply(run[i], actions[i]);
  }

  /** A load that gave up before the gate, or did not start, ends with the outcome of that step. */
  lemma {:induction false} LoadEndsWithoutAStart(run: seq<State>, actions: seq<Action>, k: nat, m: nat, o: OpID,
        outcome: Outcome)
    requires IsRun(run, actions) && k < m < |actions| && actions[m] == Move(o, Complete)
    requires actions[k] == Move(o, GiveUp(outcome)) || actions[k] == Move(o, NoStart(outcome))
    ensures EndsWith(run, m, o, outcome)
  {
    hide IsRun, NextBoard, NextToken, NextGate, ContextOf;
    MoveAt(run, actions, k);
    CompletesALoad(run, actions, m, o);
    SameKind(run, actions, k + 1, m, o);
    CarriedToTheEnd(run, actions, k, m, o, outcome);
  }

  lemma {:induction false} CompletesALoad(run: seq<State>, actions: seq<Action>, m: nat, o: OpID)
    requires IsRun(run, actions) && m < |actions| && actions[m] == Move(o, Complete)
    ensures o in run[m].ops && run[m].ops[o].kind.Load?
  {
    RunInv(run, actions, m);
    assert Enabled(run[m], actions[m]) && TokenOK(run[m].ops[o]);
  }

  lemma {:induction false} SameKind(run: seq<State>, actions: seq<Action>, i: nat, j: nat, o: OpID)
    requires IsRun(run, actions) && i <= j < |run| && o in run[i].ops
    ensures o in run[j].ops && run[j].ops[o].kind == run[i].ops[o].kind && run[j].ops[o].id == run[i].ops[o].id
    decreases j
  {
    hide NextPc, NextToken, NextBoard, NextGate, ContextOf, Init;
    if i < j {
      SameKind(run, actions, i, j - 1, o);
      assert run[j] == Apply(run[j - 1], actions[j - 1]);
    }
  }

  // The operation's last step.
  lemma {:induction false} LastMove(run: seq<State>, actions: seq<Action>, i: nat, o: OpID) returns (k: nat)
    requires IsRun(run, actions) && i < |run| && o in run[i].ops && !run[i].ops[o].pc.AtGate?
    ensures k < i && actions[k].Move? && actions[k].o == o && o in run[k].ops && run[i].ops[o] == run[k + 1].ops[o]
    ensures StepEnabled(run[k], run[k].ops[o], actions[k].step)
    ensures run[i].ops[o] == NextOp(run[k], run[k].ops[o], actions[k].step)
    decreases i
  {
    hide NextOp, NextBoard, NextGate, ContextOf, StepEnabled;
    if i == 0 {
      assert false;
    } else {
      var s, a := run[i - 1], actions[i - 1];
      assert Enabled(s, a) && run[i] == Apply(s, a);
      if a.Move? && a.o == o {
        k := i - 1;
      } else {
        k := LastMove(run, actions, i - 1, o);
      }
    }
  }

  /** Every load that completes has one of these histories. */
  lemma {:induction false} LoadHistory(run: seq<State>, actions: seq<Action>, m: nat, o: OpID)
      returns (b: nat, j: nat, k: nat)
    requires IsRun(run, actions) && m < |actions| && actions[m] == Move(o, Complete)
    ensures k < m && actions[k].Move? && actions[k].o == o
    ensures actions[k].step.GiveUp? || actions[k].step.NoStart? ||
        (b < j < k && actions[b] == Move(o, BeginStartup) && actions[j].Move? && actions[j].o == o
         && actions[j].step.StartReturns? && actions[k].step.CheckLive?)
  {
    hide IsRun, GenOf, Stored, NextToken, MoveOp;
    MoveAt(run, actions, m);
    b, j := 0, 0;
    k := LastMove(run, actions, m, o);
    if actions[k].step.CallCancel? {
      k := LastMove(run, actions, k, o);
      k := LastMove(run, actions, k, o);
    }
    if actions[k].step.CheckLive? {
      b, j := StartHistory(run, actions, k, o);
    }
  }

  lemma {:induction false} StartHistory(run: seq<State>, actions: seq<Action>, k: nat, o: OpID)
      returns (b: nat, j: nat)
    requires IsRun(run, actions) && k < |run| && o in run[k].ops && run[k].ops[o].pc.Started?
    ensures b < j < k && actions[b] == Move(o, BeginStartup)
    ensures actions[j].Move? && actions[j].o == o && actions[j].step.StartReturns?
  {
    hide IsRun, GenOf, Stored, NextToken;
    j := LastMove(run, actions, k, o);
    b := LastMove(run, actions, j, o);
    b := LastMove(run, actions, b, o);
    b := LastMove(run, actions, b, o);
  }

  // ----- the order of steps ----------------------------------------------------------------------------

  /** What an operation may do next: loads and retries start; stops and kills cancel and stop; a restart does both. */
  predicate Follows(kind: Kind, step: Step, next: Step) {
    var starts := kind.Load? || kind.Reconcile?;
    match step
    case Acquire => if starts then next.BeginStartup? || next.NoStart? else next.CancelStartup?
    case GiveUp(_) => kind.Load? && next.Complete?
    case CancelStartup => next.CallCancel?
    case CallCancel =>
      || next.ReleaseEarly? || (kind.Load? && next.Complete?) || (!kind.Load? && next.Release?)
      || (!starts && (next.StopSucceeds? || next.StopFails?))
    case StopSucceeds => if kind.Restart? then next.BeginStartup? else next.Release?
    case StopFails => next.Release?
    case BeginStartup => next.CallCancel?
    case NoStart(_) => if kind.Load? then next.Complete? else next.Release?
    case ReleaseEarly => next.StartReturns?
    case StartReturns(_) => next.CheckLive?
    case CheckLive => next.FinishStartup? || if kind.Load? then next.Complete? else next.Release?
    case FinishStartup => next.CallCancel?
    case Complete => next.Release?
    case Release => false
  }

  // What is known of the kinds at the places that only some of them reach.
  predicate KindOK(op: Op) {
    && (op.pc.Cancelling? || op.pc.Stopping? ==> op.kind.Restart? || op.kind.Stop? || op.kind.Kill?)
    && (op.pc.Stopped? ==> op.kind.Restart?)
    && (op.pc.Completing? ==> op.kind.Load?)
  }

  lemma {:induction false} KindsAreOK(run: seq<State>, actions: seq<Action>, i: nat, o: OpID)
    requires IsRun(run, actions) && i < |run| && o in run[i].ops
    ensures KindOK(run[i].ops[o])
    decreases i
  {
    if i > 0 {
      var s, a := run[i - 1], actions[i - 1];
      assert Enabled(s, a) && run[i] == Apply(s, a);
      if o in s.ops {
        KindsAreOK(run, actions, i - 1, o);
      }
      hide IsRun, NextBoard, NextGate, NextToken, ContextOf, GenOf, Stored;
    }
  }

  lemma {:induction false} NextFollows(s: State, op: Op, step: Step, t: State, next: Step)
    requires StepEnabled(s, op, step) && StepEnabled(t, NextOp(s, op, step), next) && KindOK(op)
    ensures Follows(op.kind, step, next)
  {
    hide GenOf, Stored, NextToken;
  }

  /** Two steps of an operation with none of its own in between follow that order. */
  lemma {:induction false} StepsFollow(run: seq<State>, actions: seq<Action>, i: nat, j: nat, o: OpID)
    requires IsRun(run, actions) && i < j < |actions| && actions[i].Move? && actions[j].Move?
    requires actions[i].o == o && actions[j].o == o
    requires forall k :: i < k < j ==> !(actions[k].Move? && actions[k].o == o)
    ensures o in run[i].ops && Follows(run[i].ops[o].kind, actions[i].step, actions[j].step)
  {
    hide IsRun, GenOf, Stored, NextBoard, NextGate, NextToken, NextPc, ContextOf, Follows, KindOK;
    MoveAt(run, actions, i);
    MoveAt(run, actions, j);
    OpWaits(run, actions, i + 1, j, o);
    KindsAreOK(run, actions, i, o);
    NextFollows(run[i], run[i].ops[o], actions[i].step, run[j], actions[j].step);
  }

  lemma {:induction false} OpWaits(run: seq<State>, actions: seq<Action>, i: nat, j: nat, o: OpID)
    requires IsRun(run, actions) && i <= j < |run| && o in run[i].ops
    requires forall k :: i <= k < j ==> !(actions[k].Move? && actions[k].o == o)
    ensures o in run[j].ops && run[j].ops[o] == run[i].ops[o]
    decreases j
  {
    hide NextOp, NextBoard, NextGate, ContextOf, Init;
    if i < j {
      OpWaits(run, actions, i, j - 1, o);
      assert Enabled(run[j - 1], actions[j - 1]) && run[j] == Apply(run[j - 1], actions[j - 1]);
    }
  }

  // ----- left alone ----------------------------------------------------------------------------------

  // One operation moves and nobody else does.
  ghost predicate MovesAlone(s: State, o: OpID, steps: seq<Step>, t: State)
    decreases |steps|
  {
    if steps == [] then s == t
    else
      o in s.ops && StepEnabled(s, s.ops[o], steps[0]) && MovesAlone(MoveOp(s, o, steps[0]), o, steps[1..], t)
  }

  lemma {:induction false} OneMore(s: State, o: OpID, step: Step, steps: seq<Step>, t: State)
    requires o in s.ops && StepEnabled(s, s.ops[o], step) && MovesAlone(MoveOp(s, o, step), o, steps, t)
    ensures MovesAlone(s, o, [step] + steps, t)
  {
    assert ([step] + steps)[1..] == steps;
  }

  lemma {:induction false} MovesOn(s: State, o: OpID, first: seq<Step>, m: State, second: seq<Step>, t: State)
    requires MovesAlone(s, o, first, m) && MovesAlone(m, o, second, t)
    ensures MovesAlone(s, o, first + second, t)
    decreases |first|
  {
    hide StepEnabled, MoveOp;
    if first == [] {
      assert first + second == second;
    } else {
      MovesOn(MoveOp(s, o, first[0]), o, first[1..], m, second, t);
      assert (first + second)[1..] == first[1..] + second;
    }
  }

  lemma {:induction false} TwoMoves(s: State, o: OpID, x: Step, y: Step)
    requires o in s.ops && StepEnabled(s, s.ops[o], x)
    requires var m := MoveOp(s, o, x); o in m.ops && StepEnabled(m, m.ops[o], y)
    ensures MovesAlone(s, o, [x] + [y], MoveOp(MoveOp(s, o, x), o, y))
  {
    hide StepEnabled, MoveOp;
    var m := MoveOp(s, o, x);
    var t := MoveOp(m, o, y);
    assert MovesAlone(t, o, [], t);
    OneMore(m, o, y, [], t);
    assert [y] + [] == [y];
    OneMore(s, o, x, [y], t);
  }

  // A load between its startup's beginning and its start.
  predicate IsLoad(s: State, o: OpID) {
    o in s.ops && s.ops[o].kind.Load? && o in s.board.calls && s.board.calls[o].result.None?
  }

  lemma {:induction false} EntersAlone(s: State, o: OpID) returns (t: State)
    requires IsLoad(s, o) && s.ops[o].pc.AtGate? && s.ops[o].id !in s.gate
    ensures MovesAlone(s, o, [Acquire] + [BeginStartup], t) && IsLoad(t, o) && t.ops[o].pc.Beginning?
    ensures t.ops[o].pc.gen == GenOf(t.board, t.ops[o].id)
  {
    hide ContextOf, NextToken;
    t := MoveOp(MoveOp(s, o, Acquire), o, BeginStartup);
    TwoMoves(s, o, Acquire, BeginStartup);
  }

  lemma {:induction false} LeavesGateAlone(s: State, o: OpID) returns (t: State)
    requires IsLoad(s, o) && s.ops[o].pc.Beginning? && s.ops[o].pc.gen == GenOf(s.board, s.ops[o].id)
    ensures MovesAlone(s, o, [CallCancel] + [ReleaseEarly], t) && IsLoad(t, o) && t.ops[o].pc.Starting?
    ensures t.ops[o].pc.gen == GenOf(t.board, t.ops[o].id)
  {
    hide ContextOf, NextToken, NextGate;
    t := MoveOp(MoveOp(s, o, CallCancel), o, ReleaseEarly);
    TwoMoves(s, o, CallCancel, ReleaseEarly);
  }

  lemma {:induction false} StartsAlone(s: State, o: OpID, outcome: Outcome) returns (t: State)
    requires IsLoad(s, o) && s.ops[o].pc.Starting? && s.ops[o].pc.gen == GenOf(s.board, s.ops[o].id)
    ensures MovesAlone(s, o, [StartReturns(outcome)] + [CheckLive], t) && IsLoad(t, o)
    ensures t.ops[o].pc.SeenLive? && t.ops[o].pc.outcome == outcome
  {
    hide ContextOf, NextToken, NextGate;
    t := MoveOp(MoveOp(s, o, StartReturns(outcome)), o, CheckLive);
    TwoMoves(s, o, StartReturns(outcome), CheckLive);
  }

  lemma {:induction false} FinishesAlone(s: State, o: OpID) returns (t: State)
    requires IsLoad(s, o) && s.ops[o].pc.SeenLive?
    ensures MovesAlone(s, o, [FinishStartup] + [CallCancel], t) && IsLoad(t, o)
    ensures t.ops[o].pc == Completing(s.ops[o].pc.outcome)
  {
    hide ContextOf, NextToken, NextGate;
    t := MoveOp(MoveOp(s, o, FinishStartup), o, CallCancel);
    TwoMoves(s, o, FinishStartup, CallCancel);
  }

  lemma {:induction false} CompletesAlone(s: State, o: OpID) returns (t: State)
    requires IsLoad(s, o) && s.ops[o].pc.Completing?
    ensures MovesAlone(s, o, [Complete] + [Release], t)
    ensures o in t.ops && t.ops[o].pc.Over?
    ensures o in t.board.calls && t.board.calls[o].result == Some(s.ops[o].pc.outcome)
  {
    hide ContextOf, NextToken, NextGate;
    t := MoveOp(MoveOp(s, o, Complete), o, Release);
    TwoMoves(s, o, Complete, Release);
  }

  /** A load that finds its gate free and is left alone completes with what its start returns. */
  lemma {:induction false} LoadLeftAlone(run: seq<State>, actions: seq<Action>, i: nat, o: OpID, outcome: Outcome)
      returns (steps: seq<Step>, t: State)
    requires IsRun(run, actions) && i < |run| && o in run[i].ops && run[i].ops[o].kind.Load?
    requires run[i].ops[o].pc.AtGate? && run[i].ops[o].id !in run[i].gate
    ensures MovesAlone(run[i], o, steps, t) && StartReturns(outcome) in steps
    ensures o in t.ops && t.ops[o].pc.Over? && o in t.board.calls && t.board.calls[o].result == Some(outcome)
  {
    RunInv(run, actions, i);
    UnfinishedLoad(run[i], o);
    hide IsRun, Inv, MovesAlone, GenOf;
    var s1 := EntersAlone(run[i], o);
    var s2 := LeavesGateAlone(s1, o);
    var s3 := StartsAlone(s2, o, outcome);
    var s4 := FinishesAlone(s3, o);
    t := CompletesAlone(s4, o);
    steps := [Complete] + [Release];
    MovesOn(s3, o, [FinishStartup] + [CallCancel], s4, steps, t);
    steps := [FinishStartup] + [CallCancel] + steps;
    MovesOn(s2, o, [StartReturns(outcome)] + [CheckLive], s3, steps, t);
    steps := [StartReturns(outcome)] + [CheckLive] + steps;
    MovesOn(s1, o, [CallCancel] + [ReleaseEarly], s2, steps, t);
    steps := [CallCancel] + [ReleaseEarly] + steps;
    MovesOn(run[i], o, [Acquire] + [BeginStartup], s1, steps, t);
    steps := [Acquire] + [BeginStartup] + steps;
  }

  lemma {:induction false} UnfinishedLoad(s: State, o: OpID)
    requires Inv(s) && o in s.ops && s.ops[o].kind.Load? && s.ops[o].pc.AtGate?
    ensures o in s.board.calls && s.board.calls[o].result.None?
  {
    assert CallOK(s.board, s.ops, o);
  }
}
