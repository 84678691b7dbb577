/** The generation-stamped API key cache: authentications read the table, publish what they read
    under the generation they started from, and stamp before they succeed; mutators commit first
    and clear afterwards. */
module ApiKeyCache {
  import opened Common

  type Hash = nat
  type CallID = nat

  datatype Expiry = Never | Day(day: int) | Unparsable

  // The fields an authentication decides on; `details` stands for those it only returns.
  datatype KeyRow = KeyRow(id: nat, enabled: bool, ownerEnabled: bool, expires: Expiry, details: nat)

  datatype ApiKey = ApiKey(row: KeyRow, lastUsedAt: Option<int>)

  type Table = map<Hash, ApiKey>

  predicate Expired(expires: Expiry, today: int) {
    match expires
    case Never => false
    case Day(day) => day < today
    case Unparsable => true
  }

  predicate Acceptable(row: KeyRow, today: int) { row.enabled && row.ownerEnabled && !Expired(row.expires, today) }

  // ----- the cache ------------------------------------------------------------------------

  datatype Cache = Cache(generation: nat, byHash: Table)

  function Remembered(cache: Cache, hash: Hash, item: ApiKey, generation: nat): Cache {
    if cache.generation != generation then cache else cache.(byHash := cache.byHash[hash := item])
  }

  predicate CanStamp(cache: Cache, hash: Hash, generation: nat) {
    cache.generation == generation && hash in cache.byHash
  }

  function StampedItem(cache: Cache, hash: Hash, at: int): ApiKey
    requires hash in cache.byHash
  {
    cache.byHash[hash].(lastUsedAt := Some(at))
  }

  function Cleared(cache: Cache): Cache { Cache(cache.generation + 1, map[]) }

  /** The cache as the service keeps it: two fields changed in place under one lock. */
  class KeyCache {
    var generation: nat
    var byHash: Table

    constructor ()
      ensures Contents() == Cache(0, map[])
    {
      generation, byHash := 0, map[];
    }

    ghost function Contents(): Cache
      reads this
    {
      Cache(generation, byHash)
    }

    method CachedAPIKey(hash: Hash) returns (item: Option<ApiKey>, current: nat)
      ensures current == Contents().generation
      ensures item == if hash in Contents().byHash then Some(Contents().byHash[hash]) else None
    {
      current := generation;
      item := if hash in byHash then Some(byHash[hash]) else None;
    }

    method RememberAPIKey(hash: Hash, item: ApiKey, current: nat) returns (ok: bool)
      modifies this
      ensures ok == (old(generation) == current) && Contents() == Remembered(old(Contents()), hash, item, current)
    {
      if generation != current {
        return false;
      }
      byHash := byHash[hash := item];
      return true;
    }

    method StampCachedAPIKey(hash: Hash, at: int, current: nat) returns (stamped: Option<ApiKey>)
      modifies this
      ensures stamped.Some? == CanStamp(old(Contents()), hash, current)
      ensures stamped.Some? ==> stamped.value == StampedItem(old(Contents()), hash, at)
      ensures Contents() == if stamped.Some? then Remembered(old(Contents()), hash, stamped.value, current)
          else old(Contents())
    {
      if generation != current || hash !in byHash {
        return None;
      }
      var item := byHash[hash].(lastUsedAt := Some(at));
      byHash := byHash[hash := item];
      return Some(item);
    }

    method ClearAPIKeyCache()
      modifies this
      ensures Contents() == Cleared(old(Contents()))
    {
      generation := generation + 1;
      byHash := map[];
    }
  }

  // ----- the protocol -------------------------------------------------------------------------

  datatype AuthPc =
    | Begin
    | Missed(generation: nat)
    | Read(item: ApiKey, generation: nat)       // read from the table, not yet published
    | Found(item: ApiKey, generation: nat)      // from the cache, or read and published
    | Checked(item: ApiKey, generation: nat, today: int)
    | Succeeded(checked: KeyRow, today: int, result: ApiKey)
    | Rejected

  datatype Auth = Auth(hash: Hash, pc: AuthPc)

  // A commit records the keys whose rows it changed.
  datatype MutatorPc = Started | Committed(changed: set<Hash>) | Returned

  /** `epoch` records the tables since the last clear, the current one last. */
  datatype State = State(
    table: Table, cache: Cache, today: int,
    auths: map<CallID, Auth>, mutators: map<CallID, MutatorPc>, epoch: seq<Table>)

  predicate Init(s: State) {
    s.cache.byHash == map[] && s.auths == map[] && s.mutators == map[] && s.epoch == [s.table]
  }

  datatype AuthStep = LookUp | ReadTable | Remember | Check | Stamp(at: int) | WriteLastUsed(at: int)

  datatype Action =
    | StartAuth(c: CallID, hash: Hash)
    | AuthMoves(c: CallID, step: AuthStep)
    | StartMutator(m: CallID)
    | Commit(m: CallID, table: Table)
    | Clear(m: CallID)
    | InsertKey(hash: Hash, item: ApiKey)
    | DayPasses(today: int)

  predicate AuthEnabled(s: State, c: CallID, step: AuthStep) {
    && c in s.auths
    && var pc := s.auths[c].pc;
       match step
       case LookUp => pc.Begin?
       case ReadTable => pc.Missed?
       case Remember => pc.Read?
       case Check => pc.Found?
       case Stamp(_) => pc.Checked?
       case WriteLastUsed(_) => pc.Succeeded?
  }

  function AuthNext(s: State, c: CallID, step: AuthStep): AuthPc
    requires AuthEnabled(s, c, step)
  {
    var Auth(hash, pc) := s.auths[c];
    match step
    case LookUp =>
      if hash in s.cache.byHash then Found(s.cache.byHash[hash], s.cache.generation) else Missed(s.cache.generation)
    case ReadTable => if hash in s.table then Read(s.table[hash], pc.generation) else Rejected
    case Remember => if s.cache.generation == pc.generation then Found(pc.item, pc.generation) else Begin
    case Check => if Acceptable(pc.item.row, s.today) then Checked(pc.item, pc.generation, s.today) else Rejected
    case Stamp(at) =>
      if CanStamp(s.cache, hash, pc.generation) then Succeeded(pc.item.row, pc.today, StampedItem(s.cache, hash, at))
          else Begin
    case WriteLastUsed(_) => pc
  }

  function CacheAfter(s: State, c: CallID, step: AuthStep): Cache
    requires AuthEnabled(s, c, step)
  {
    var Auth(hash, pc) := s.auths[c];
    match step
    case Remember => Remembered(s.cache, hash, pc.item, pc.generation)
    case Stamp(at) =>
      if CanStamp(s.cache, hash, pc.generation)
          then Remembered(s.cache, hash, StampedItem(s.cache, hash, at), pc.generation) else s.cache
    case _ => s.cache
  }

  // UPDATE api_keys SET last_used_at=? WHERE id=? AND enabled=1
  function Touch(table: Table, id: nat, at: int): Table {
    map h | h in table :: if table[h].row.id == id && table[h].row.enabled then table[h].(lastUsedAt := Some(at))
        else table[h]
  }

  predicate Enabled(s: State, a: Action) {
    match a
    case StartAuth(c, hash) => c !in s.auths
    case AuthMoves(c, step) => AuthEnabled(s, c, step)
    case StartMutator(m) => m !in s.mutators
    case Commit(m, table) => m in s.mutators && s.mutators[m].Started?
    case Clear(m) => m in s.mutators && s.mutators[m].Committed?
    case InsertKey(hash, item) => hash !in s.table
    case DayPasses(today) => true
  }

  function ChangedRows(before: Table, after: Table): set<Hash> {
    set h | h in before && (h !in after || after[h].row != before[h].row)
  }

  function NewTable(s: State, table: Table): State { s.(table := table, epoch := s.epoch + [table]) }

  function AuthApply(s: State, c: CallID, step: AuthStep): State
    requires AuthEnabled(s, c, step)
  {
    var moved := s.(auths := s.auths[c := s.auths[c].(pc := AuthNext(s, c, step))], cache := CacheAfter(s, c, step));
    if step.WriteLastUsed? then NewTable(moved, Touch(s.table, s.auths[c].pc.result.row.id, step.at)) else moved
  }

  function Apply(s: State, a: Action): State
    requires Enabled(s, a)
  {
    match a
    case StartAuth(c, hash) => s.(auths := s.auths[c := Auth(hash, Begin)])
    case AuthMoves(c, step) => AuthApply(s, c, step)
    case StartMutator(m) => s.(mutators := s.mutators[m := Started])
    case Commit(m, table) => NewTable(s, table).(mutators := s.mutators[m := Committed(ChangedRows(s.table, table))])
    case Clear(m) => s.(mutators := s.mutators[m := Returned], cache := Cleared(s.cache), epoch := [s.table])
    case InsertKey(hash, item) => NewTable(s, s.table[hash := item])
    case DayPasses(today) => s.(today := today)
  }

  ghost predicate IsRun(run: seq<State>, actions: seq<Action>) {
    && |run| == |actions| + 1
    && Init(run[0])
    && forall i :: 0 <= i < |actions| ==> Enabled(run[i], actions[i]) && run[i + 1] == Apply(run[i], actions[i])
  }

  // ----- invariant -----------------------------------------------------------------------------

  // The key had this row at some time since the last clear.
  ghost predicate InEpoch(epoch: seq<Table>, hash: Hash, row: KeyRow) {
    exists k :: 0 <= k < |epoch| && hash in epoch[k] && epoch[k][hash].row == row
  }

  ghost predicate CacheInv(epoch: seq<Table>, cache: Cache) {
    forall h :: h in cache.byHash ==> InEpoch(epoch, h, cache.byHash[h].row)
  }

  // What a call holds under the current generation it read since the last clear.
  ghost predicate AuthOK(epoch: seq<Table>, generation: nat, auth: Auth) {
    match auth.pc
    case Missed(g) => g <= generation
    case Read(item, g) => g <= generation && (g == generation ==> InEpoch(epoch, auth.hash, item.row))
    case Found(item, g) => g <= generation && (g == generation ==> InEpoch(epoch, auth.hash, item.row))
    case Checked(item, g, today) =>
      g <= generation && Acceptable(item.row, today) && (g == generation ==> InEpoch(epoch, auth.hash, item.row))
    case _ => true
  }

  ghost predicate AuthInv(epoch: seq<Table>, generation: nat, auths: map<CallID, Auth>) {
    forall c :: c in auths ==> AuthOK(epoch, generation, auths[c])
  }

  // Some mutator has committed a change of this very key and has not cleared the cache yet.
  ghost predicate Changing(mutators: map<CallID, MutatorPc>, hash: Hash) {
    exists m :: m in mutators && mutators[m].Committed? && hash in mutators[m].changed
  }

  // The key's row has not changed since the last clear.
  ghost predicate Settled(epoch: seq<Table>, table: Table, hash: Hash) {
    forall k :: 0 <= k < |epoch| && hash in epoch[k] ==> hash in table && table[hash].row == epoch[k][hash].row
  }

  ghost predicate Inv(s: State) {
    && |s.epoch| > 0 && s.epoch[|s.epoch| - 1] == s.table
    && CacheInv(s.epoch, s.cache)
    && AuthInv(s.epoch, s.cache.generation, s.auths)
    && forall h :: Changing(s.mutators, h) || Settled(s.epoch, s.table, h)
  }

  lemma {:induction false} EpochGrows(epoch: seq<Table>, table: Table, hash: Hash, row: KeyRow)
    ensures InEpoch(epoch, hash, row) ==> InEpoch(epoch + [table], hash, row)
  {
    if InEpoch(epoch, hash, row) {
      var k :| 0 <= k < |epoch| && hash in epoch[k] && epoch[k][hash].row == row;
      assert (epoch + [table])[k] == epoch[k];
    }
  }

  lemma {:induction false} TableGrows(s: State, table: Table)
    requires CacheInv(s.epoch, s.cache) && AuthInv(s.epoch, s.cache.generation, s.auths)
    ensures CacheInv(s.epoch + [table], s.cache) && AuthInv(s.epoch + [table], s.cache.generation, s.auths)
  {
    hide InEpoch;
    forall h: Hash, row: KeyRow
      ensures InEpoch(s.epoch, h, row) ==> InEpoch(s.epoch + [table], h, row)
    {
      EpochGrows(s.epoch, table, h, row);
    }
  }

  // A row in the current table has been there since the last clear or later.
  lemma {:induction false} CurrentInEpoch(s: State, hash: Hash)
    requires |s.epoch| > 0 && s.epoch[|s.epoch| - 1] == s.table && hash in s.table
    ensures InEpoch(s.epoch, hash, s.table[hash].row)
  {
  }

  lemma {:induction false} AuthPreserves(s: State, c: CallID, step: AuthStep)
    requires Inv(s) && AuthEnabled(s, c, step) && !step.WriteLastUsed?
    ensures Inv(AuthApply(s, c, step))
  {
    hide InEpoch, Settled, Changing;
    if step.ReadTable? && s.auths[c].hash in s.table {
      CurrentInEpoch(s, s.auths[c].hash);
    }
    assert AuthOK(s.epoch, s.cache.generation, s.auths[c]);
  }

  // A key whose row a new table keeps stays settled.
  lemma {:induction false} SettledGrows(s: State, table: Table, h: Hash)
    requires |s.epoch| > 0 && s.epoch[|s.epoch| - 1] == s.table && Settled(s.epoch, s.table, h)
        && h !in ChangedRows(s.table, table)
    ensures Settled(s.epoch + [table], table, h)
  {
    var epoch: seq<Table> := s.epoch + [table];
    forall k: int | 0 <= k < |epoch| && h in epoch[k]
      ensures h in table && table[h].row == epoch[k][h].row
    {
      if k < |s.epoch| { assert epoch[k] == s.epoch[k]; }
    }
  }

  lemma {:induction false} GrowPreserves(s: State, table: Table)
    requires Inv(s) && ChangedRows(s.table, table) == {}
    ensures Inv(NewTable(s, table))
  {
    hide InEpoch, Settled, Changing, ChangedRows;
    TableGrows(s, table);
    forall h
      ensures Changing(s.mutators, h) || Settled(s.epoch + [table], table, h)
    {
      if !Changing(s.mutators, h) {
        SettledGrows(s, table, h);
      }
    }
  }

  lemma {:induction false} ChangingStays(mutators: map<CallID, MutatorPc>, m: CallID, pc: MutatorPc, h: Hash)
    requires m !in mutators || mutators[m].Started?
    ensures Changing(mutators, h) ==> Changing(mutators[m := pc], h)
    ensures pc.Committed? && h in pc.changed ==> Changing(mutators[m := pc], h)
  {
    if Changing(mutators, h) {
      var k :| k in mutators && mutators[k].Committed? && h in mutators[k].changed;
      assert mutators[m := pc][k] == mutators[k];
    }
    assert mutators[m := pc][m] == pc;
  }

  lemma {:induction false} CommitPreserves(s: State, m: CallID, table: Table)
    requires Inv(s) && Enabled(s, Commit(m, table))
    ensures Inv(Apply(s, Commit(m, table)))
  {
    hide InEpoch, Settled, Changing, ChangedRows;
    TableGrows(s, table);
    forall h
      ensures Changing(Apply(s, Commit(m, table)).mutators, h) || Settled(s.epoch + [table], table, h)
    {
      ChangingStays(s.mutators, m, Committed(ChangedRows(s.table, table)), h);
      if !Changing(s.mutators, h) && h !in ChangedRows(s.table, table) {
        SettledGrows(s, table, h);
      }
    }
  }

  lemma {:induction false} MutatorPreserves(s: State, a: Action)
    requires Inv(s) && Enabled(s, a) && (a.StartMutator? || a.Clear?)
    ensures Inv(Apply(s, a))
  {
    hide InEpoch, Changing;
    match a
    case StartMutator(m) =>
      forall h
        ensures Changing(s.mutators, h) ==> Changing(Apply(s, a).mutators, h)
      {
        ChangingStays(s.mutators, m, Started, h);
      }
    case Clear(m) =>
      forall c | c in s.auths
        ensures AuthOK([s.table], s.cache.generation + 1, s.auths[c])
      {
        assert AuthOK(s.epoch, s.cache.generation, s.auths[c]);
      }
  }

  lemma {:induction false} StepPreserves(s: State, a: Action)
    requires Inv(s) && Enabled(s, a)
    ensures Inv(Apply(s, a))
  {
    hide InEpoch, Settled, Changing, CacheInv, AuthOK;
    match a
    case StartAuth(c, hash) => NewAuthOK(s, hash);
    case AuthMoves(c, step) =>
      if step.WriteLastUsed? {
        assert s.auths[c := s.auths[c].(pc := s.auths[c].pc)] == s.auths;
        GrowPreserves(s, Touch(s.table, s.auths[c].pc.result.row.id, step.at));
      } else {
        AuthPreserves(s, c, step);
      }
    case StartMutator(m) => MutatorPreserves(s, a);
    case Commit(m, table) => CommitPreserves(s, m, table);
    case Clear(m) => MutatorPreserves(s, a);
    case InsertKey(hash, item) => GrowPreserves(s, s.table[hash := item]);
    case DayPasses(today) =>
  }

  lemma {:induction false} NewAuthOK(s: State, hash: Hash)
    ensures AuthOK(s.epoch, s.cache.generation, Auth(hash, Begin))
  {
  }

  lemma {:induction false} RunInv(run: seq<State>, actions: seq<Action>, i: nat)
    requires IsRun(run, actions) && i < |run|
    ensures Inv(run[i])
  {
    if i > 0 {
      RunInv(run, actions, i - 1);
      StepPreserves(run[i - 1], actions[i - 1]);
    }
  }

  // ----- what holds over every run ----------------------------------------------------------------

  /** In every reachable state each cached key equals its row, or some mutator that changed this very key sits
      between its commit and its clear. */
  lemma {:induction false} CacheAgreesWithTable(run: seq<State>, actions: seq<Action>, i: nat, hash: Hash)
    requires IsRun(run, actions) && i < |run|
    requires hash in run[i].cache.byHash && !Changing(run[i].mutators, hash)
    ensures hash in run[i].table && run[i].table[hash].row == run[i].cache.byHash[hash].row
  {
    RunInv(run, actions, i);
    var s := run[i];
    assert InEpoch(s.epoch, hash, s.cache.byHash[hash].row) && Settled(s.epoch, s.table, hash);
  }

  lemma {:induction false} EpochStep(s: State, a: Action)
    requires Enabled(s, a)
    ensures forall table :: table in Apply(s, a).epoch ==> table == Apply(s, a).table || table in s.epoch
    ensures a.Clear? ==> Apply(s, a).epoch == [Apply(s, a).table]
  {
  }

  // Every table of the epoch was the table at some time after an earlier clear.
  lemma {:induction false} EpochIsRecent(run: seq<State>, actions: seq<Action>, i: nat, j: nat, table: Table)
    requires IsRun(run, actions) && i < j < |run| && actions[i].Clear? && table in run[j].epoch
    ensures exists k :: i < k <= j && run[k].table == table
    decreases j
  {
    EpochStep(run[j - 1], actions[j - 1]);
    hide Apply, Enabled;
    if table != run[j].table {
      EpochIsRecent(run, actions, i, j - 1, table);
    }
  }

  // Enabled, of an enabled owner, and with no day of expiry that has passed or cannot be told.
  predicate Good(row: KeyRow, today: int) {
    row.enabled && row.ownerEnabled && (row.expires == Never || (row.expires.Day? && today <= row.expires.day))
  }

  ghost predicate HadRow(run: seq<State>, i: nat, j: nat, hash: Hash, row: KeyRow)
    requires j < |run|
  {
    exists k :: i < k <= j && hash in run[k].table && run[k].table[hash].row == row
  }

  lemma {:induction false} RowIsRecent(run: seq<State>, actions: seq<Action>, i: nat, j: nat, hash: Hash, row: KeyRow)
    requires IsRun(run, actions) && i < j < |run| && actions[i].Clear? && InEpoch(run[j].epoch, hash, row)
    ensures HadRow(run, i, j, hash, row)
  {
    var e :| 0 <= e < |run[j].epoch| && hash in run[j].epoch[e] && run[j].epoch[e][hash].row == row;
    EpochIsRecent(run, actions, i, j, run[j].epoch[e]);
  }

  /** Once a mutator has returned (its clear is step i), an authentication that succeeds at a later
      step j decided on a row its key had after that clear, and that row was acceptable on the day
      it was checked; the key it returns is such a row too.  So no success is ever owed to a row
      that a returned mutator has replaced. */
  lemma {:induction false} SuccessIsOwedToARecentRow(run: seq<State>, actions: seq<Action>, i: nat, j: nat)
    requires IsRun(run, actions) && i < j < |actions|
    requires actions[i].Clear?
    requires actions[j].AuthMoves? && actions[j].step.Stamp? && run[j + 1].auths[actions[j].c].pc.Succeeded?
    ensures var auth := run[j + 1].auths[actions[j].c];
      && Good(auth.pc.checked, auth.pc.today)
      && HadRow(run, i, j, auth.hash, auth.pc.checked)
      && HadRow(run, i, j, auth.hash, auth.pc.result.row)
  {
    RunInv(run, actions, j);
    var s, c := run[j], actions[j].c;
    assert run[j + 1] == Apply(s, actions[j]);
    var hash := s.auths[c].hash;
    assert AuthOK(s.epoch, s.cache.generation, s.auths[c]);
    RowIsRecent(run, actions, i, j, hash, s.auths[c].pc.item.row);
    RowIsRecent(run, actions, i, j, hash, s.cache.byHash[hash].row);
  }

  /** In particular a key that is disabled, or gone, ever since a mutator returned cannot authenticate. */
  lemma {:induction false} DisabledKeyCannotSucceed(run: seq<State>, actions: seq<Action>, i: nat, j: nat, hash: Hash)
    requires IsRun(run, actions) && i < j < |actions| && actions[i].Clear?
    requires forall k :: i < k <= j && hash in run[k].table ==>
        !run[k].table[hash].row.enabled || !run[k].table[hash].row.ownerEnabled
    requires actions[j].AuthMoves? && actions[j].step.Stamp? && run[j].auths[actions[j].c].hash == hash
    ensures !run[j + 1].auths[actions[j].c].pc.Succeeded?
  {
    if run[j + 1].auths[actions[j].c].pc.Succeeded? {
      SuccessIsOwedToARecentRow(run, actions, i, j);
    }
  }

  /** Unless a mutator that changed this very key is between commit and clear, a success is decided on the row
      of that moment. */
  lemma {:induction false} SuccessOutsideWindowsIsCurrent(run: seq<State>, actions: seq<Action>, j: nat)
    requires IsRun(run, actions) && j < |actions|
    requires actions[j].AuthMoves? && actions[j].step.Stamp? && run[j + 1].auths[actions[j].c].pc.Succeeded?
    requires !Changing(run[j].mutators, run[j].auths[actions[j].c].hash)
    ensures var auth := run[j + 1].auths[actions[j].c];
      && auth.hash in run[j].table
      && run[j].table[auth.hash].row == auth.pc.checked == auth.pc.result.row
  {
    RunInv(run, actions, j);
    var s, c := run[j], actions[j].c;
    assert run[j + 1] == Apply(s, actions[j]);
    assert AuthOK(s.epoch, s.cache.generation, s.auths[c]);
    assert InEpoch(s.epoch, s.auths[c].hash, s.cache.byHash[s.auths[c].hash].row)
        && Settled(s.epoch, s.table, s.auths[c].hash);
  }

  // ----- refusals ----------------------------------------------------------------------------------

  // The key had this row at some time up to this one.
  ghost predicate WasRow(run: seq<State>, i: nat, hash: Hash, row: KeyRow)
    requires i < |run|
  {
    exists k :: 0 <= k <= i && hash in run[k].table && run[k].table[hash].row == row
  }

  lemma {:induction false} StillWasRow(run: seq<State>, i: nat, hash: Hash, row: KeyRow)
    requires i + 1 < |run| && WasRow(run, i, hash, row)
    ensures WasRow(run, i + 1, hash, row)
  {
  }

  // What a call holds.
  function ItemOf(pc: AuthPc): Option<ApiKey> {
    if pc.Read? || pc.Found? || pc.Checked? then Some(pc.item) else None
  }

  ghost predicate AllWereRows(run: seq<State>, i: nat)
    requires i < |run|
  {
    && (forall h :: h in run[i].cache.byHash ==> WasRow(run, i, h, run[i].cache.byHash[h].row))
    && (forall c :: c in run[i].auths && ItemOf(run[i].auths[c].pc).Some? ==>
          WasRow(run, i, run[i].auths[c].hash, ItemOf(run[i].auths[c].pc).value.row))
  }

  // What a step holds or caches was held, cached, or a row.
  lemma {:induction false} StepHolds(s: State, a: Action, h: Hash, row: KeyRow)
    requires Enabled(s, a)
    requires var t := Apply(s, a);
      (h in t.cache.byHash && t.cache.byHash[h].row == row)
      || exists c ::
           c in t.auths && t.auths[c].hash == h && ItemOf(t.auths[c].pc).Some? && ItemOf(t.auths[c].pc).value.row == row
    ensures (h in s.cache.byHash && s.cache.byHash[h].row == row)
      || (h in s.table && s.table[h].row == row)
      || exists c ::
           c in s.auths && s.auths[c].hash == h && ItemOf(s.auths[c].pc).Some? && ItemOf(s.auths[c].pc).value.row == row
  {
    if a.AuthMoves? {
      assert s.auths[a.c].hash == Apply(s, a).auths[a.c].hash;
    }
  }

  lemma {:induction false} ItemsWereRows(run: seq<State>, actions: seq<Action>, i: nat)
    requires IsRun(run, actions) && i < |run|
    ensures AllWereRows(run, i)
  {
    if i > 0 {
      ItemsWereRows(run, actions, i - 1);
      var s, a := run[i - 1], actions[i - 1];
      assert Enabled(s, a) && run[i] == Apply(s, a);
      hide Enabled, Apply, IsRun;
      forall h, row | (h in run[i].cache.byHash && run[i].cache.byHash[h].row == row)
          || exists c :: c in run[i].auths && run[i].auths[c].hash == h && ItemOf(run[i].auths[c].pc).Some?
               && ItemOf(run[i].auths[c].pc).value.row == row
        ensures WasRow(run, i, h, row)
      {
        StepHolds(s, a, h, row);
        assert h in s.table && s.table[h].row == row ==> WasRow(run, i - 1, h, row);
        StillWasRow(run, i - 1, h, row);
      }
    }
  }

  /** An authentication that is refused has found no row for its key, at a moment since it started, or has checked
      a row that the key had and that was not good on that day. */
  lemma {:induction false} RefusalIsOwed(run: seq<State>, actions: seq<Action>, i: nat, j: nat, c: CallID)
    requires IsRun(run, actions) && i <= j < |run| && c !in run[i].auths
    requires c in run[j].auths && run[j].auths[c].pc.Rejected?
    ensures var hash := run[j].auths[c].hash;
      exists k ::
        i <= k < j && (hash !in run[k].table || exists row :: WasRow(run, k, hash, row) && !Good(row, run[k].today))
    decreases j
  {
    var s, a := run[j - 1], actions[j - 1];
    assert Enabled(s, a) && run[j] == Apply(s, a);
    if c in s.auths && s.auths[c].pc.Rejected? {
      RefusalIsOwed(run, actions, i, j - 1, c);
    } else {
      assert a.AuthMoves? && a.c == c && (a.step.ReadTable? || a.step.Check?);
      ItemsWereRows(run, actions, j - 1);
      AuthsOnlyGrow(run, actions, i, j - 1, c);
      if a.step.Check? {
        assert WasRow(run, j - 1, s.auths[c].hash, s.auths[c].pc.item.row);
      }
    }
  }

  lemma {:induction false} AuthsOnlyGrow(run: seq<State>, actions: seq<Action>, i: nat, j: nat, c: CallID)
    requires IsRun(run, actions) && i < |run| && j < |run| && c !in run[i].auths && c in run[j].auths
    ensures i < j
    decreases i
  {
    if j <= i && i > 0 {
      assert run[i] == Apply(run[i - 1], actions[i - 1]);
      assert c !in run[i - 1].auths;
      if j < i {
        AuthsOnlyGrow(run, actions, i - 1, j, c);
      }
    }
  }

  /** The write that follows a success sets the time of last use of the enabled rows with the key's id, and
      changes nothing else in the table. */
  lemma {:induction false} LastUseIsWritten(run: seq<State>, actions: seq<Action>, i: nat, c: CallID, at: int)
    requires IsRun(run, actions) && i < |actions| && actions[i] == AuthMoves(c, WriteLastUsed(at))
    ensures c in run[i].auths && run[i].auths[c].pc.Succeeded?
    ensures var before, after, id := run[i].table, run[i + 1].table, run[i].auths[c].pc.result.row.id;
      && after.Keys == before.Keys
      && forall h :: h in before ==>
           && after[h].row == before[h].row
           && after[h].lastUsedAt ==
                if before[h].row.id != id || !before[h].row.enabled then before[h].lastUsedAt else Some(at)
  {
    assert Enabled(run[i], actions[i]) && run[i + 1] == Apply(run[i], actions[i]);
  }

  // ----- left alone ----------------------------------------------------------------------------------

  // One call moves and nobody else does.
  ghost predicate MovesAlone(s: State, c: CallID, steps: seq<AuthStep>, t: State)
    decreases |steps|
  {
    if steps == [] then s == t
    else AuthEnabled(s, c, steps[0]) && MovesAlone(AuthApply(s, c, steps[0]), c, steps[1..], t)
  }

  // From the check on.
  lemma {:induction false} CheckAnswers(s: State, c: CallID, at: int) returns (steps: seq<AuthStep>, t: State)
    requires c in s.auths && s.auths[c].pc.Found? && s.auths[c].pc.generation == s.cache.generation
    requires var hash := s.auths[c].hash;
      hash in s.cache.byHash && s.cache.byHash[hash].row == s.auths[c].pc.item.row
    ensures MovesAlone(s, c, steps, t) && c in t.auths
    ensures var row, pc := s.auths[c].pc.item.row, t.auths[c].pc;
      if Good(row, s.today) then pc.Succeeded? && pc.result.row == row && pc.result.lastUsedAt == Some(at)
      else pc.Rejected?
  {
    var s1 := AuthApply(s, c, Check);
    if Acceptable(s.auths[c].pc.item.row, s.today) {
      steps, t := [Check, Stamp(at)], AuthApply(s1, c, Stamp(at));
      assert [Check, Stamp(at)][1..] == [Stamp(at)] && [Stamp(at)][1..] == [];
      assert MovesAlone(s1, c, [Stamp(at)], t);
    } else {
      steps, t := [Check], s1;
      assert [Check][1..] == [];
    }
  }

  /** An authentication that is left alone, with no change of its key under way, succeeds exactly when the key has
      a good row, which it returns with the new time of last use. */
  lemma {:induction false} AloneItAnswers(run: seq<State>, actions: seq<Action>, i: nat, c: CallID, at: int)
      returns (steps: seq<AuthStep>, t: State)
    requires IsRun(run, actions) && i < |run| && c in run[i].auths && run[i].auths[c].pc.Begin?
    requires !Changing(run[i].mutators, run[i].auths[c].hash)
    ensures MovesAlone(run[i], c, steps, t) && c in t.auths
    ensures var s, hash, pc := run[i], run[i].auths[c].hash, t.auths[c].pc;
      if hash in s.table && Good(s.table[hash].row, s.today)
      then pc.Succeeded? && pc.result.row == s.table[hash].row && pc.result.lastUsedAt == Some(at)
      else pc.Rejected?
  {
    var s, hash := run[i], run[i].auths[c].hash;
    var s1 := AuthApply(s, c, LookUp);
    if hash in s.cache.byHash {
      CacheAgreesWithTable(run, actions, i, hash);
      var rest;
      rest, t := CheckAnswers(s1, c, at);
      steps := [LookUp] + rest;
      assert steps[1..] == rest;
    } else {
      var s2 := AuthApply(s1, c, ReadTable);
      if hash in s.table {
        var s3 := AuthApply(s2, c, Remember);
        var rest;
        rest, t := CheckAnswers(s3, c, at);
        steps := [LookUp, ReadTable, Remember] + rest;
        assert steps[1..] == [ReadTable, Remember] + rest;
        assert ([ReadTable, Remember] + rest)[1..] == [Remember] + rest && ([Remember] + rest)[1..] == rest;
        assert MovesAlone(s2, c, [Remember] + rest, t);
        assert MovesAlone(s1, c, [ReadTable, Remember] + rest, t);
      } else {
        steps, t := [LookUp, ReadTable], s2;
        assert [LookUp, ReadTable][1..] == [ReadTable] && [ReadTable][1..] == [];
        assert MovesAlone(s1, c, [ReadTable], t);
      }
    }
  }

  /** The window is real: between the commit that disables a key and the clear that follows, an
      authentication that has already checked the old row still succeeds. */
  lemma {:induction false} OldRowSucceedsInsideTheWindow(key: ApiKey, at: int)
      returns (run: seq<State>, actions: seq<Action>)
    requires key.row.enabled && key.row.ownerEnabled && key.row.expires.Never?
    ensures IsRun(run, actions) && |run| == 9
    ensures Changing(run[7].mutators, 0) && 0 in run[7].table && !run[7].table[0].row.enabled
    ensures 0 in run[8].auths && run[8].auths[0].pc.Succeeded? && run[8].auths[0].pc.checked == key.row
  {
    actions := [StartAuth(0, 0), AuthMoves(0, LookUp), AuthMoves(0, ReadTable), AuthMoves(0, Remember),
        AuthMoves(0, Check),
                StartMutator(0), Commit(0, map[0 := key.(row := key.row.(enabled := false))]), AuthMoves(0, Stamp(at))];
    var table: Table, disabled: Table := map[0 := key], map[0 := key.(row := key.row.(enabled := false))];
    var empty, full := Cache(0, map[]), Cache(0, map[0 := key]);
    var stamped := key.(lastUsedAt := Some(at));
    run := [
      State(table, empty, 0, map[], map[], [table]),
      State(table, empty, 0, map[0 := Auth(0, Begin)], map[], [table]),
      State(table, empty, 0, map[0 := Auth(0, Missed(0))], map[], [table]),
      State(table, empty, 0, map[0 := Auth(0, Read(key, 0))], map[], [table]),
      State(table, full, 0, map[0 := Auth(0, Found(key, 0))], map[], [table]),
      State(table, full, 0, map[0 := Auth(0, Checked(key, 0, 0))], map[], [table]),
      State(table, full, 0, map[0 := Auth(0, Checked(key, 0, 0))], map[0 := Started], [table]),
      State(disabled, full, 0, map[0 := Auth(0, Checked(key, 0, 0))], map[0 := Committed({0})], [table, disabled]),
      State(disabled, Cache(0, map[0 := stamped]), 0, map[0 := Auth(0, Succeeded(key.row, 0, stamped))],
          map[0 := Committed({0})], [table, disabled])];
    assert Init(run[0]);
    assert 0 in run[7].mutators && run[7].mutators[0].Committed?;
    assert Changing(run[7].mutators, 0);
    assert ChangedRows(table, disabled) == {0};
    forall i | 0 <= i < 8
      ensures Enabled(run[i], actions[i]) && run[i + 1] == Apply(run[i], actions[i])
    {
      if i == 0 {
      } else if i == 1 {
      } else if i == 2 {
      } else if i == 3 {
      } else if i == 4 {
      } else if i == 5 {
      } else if i == 6 {
      }
    }
  }
}
