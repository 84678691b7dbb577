/** The instance hot cache: lookups read the table and publish under the generation they started
    from; Update, Delete and Create commit first and then invalidate or publish. */
module HotCache {
  import opened Common
  import opened Text

  type Id = nat
  type Slug = string
  type CallID = nat

  // `details` stands for the fields the cache does not look at.
  datatype Instance = Instance(id: Id, slug: Slug, enabled: bool, devices: seq<string>, details: nat)

  // ----- device lists in the table ----------------------------------------------------------

  function JoinDevices(devices: seq<string>): Option<string> {
    if devices == [] then None else Some(Join(devices, ","))
  }

  function TrimAll(parts: seq<string>): seq<string> {
    if parts == [] then []
    else TrimAll(parts[..|parts| - 1]) + if TrimSpace(Last(parts)) == "" then [] else [TrimSpace(Last(parts))]
  }

  function ScanDevices(column: Option<string>): seq<string> {
    match column
    case None => []
    case Some(text) => TrimAll(Split(text, ','))
  }

  // Device lists as the service normalizes them before a write.
  predicate Normalized(devices: seq<string>) {
    forall k :: 0 <= k < |devices| ==> devices[k] != "" && TrimSpace(devices[k]) == devices[k]
  }

  predicate CommaFree(devices: seq<string>) { forall k :: 0 <= k < |devices| ==> ',' !in devices[k] }

  lemma {:induction false} TrimAllKeeps(devices: seq<string>)
    requires Normalized(devices)
    ensures TrimAll(devices) == devices
  {
    hide TrimSpace;
    if devices != [] {
      var shorter, last := devices[..|devices| - 1], devices[|devices| - 1];
      assert devices == shorter + [last];
      TrimAllKeeps(shorter);
    }
  }

  lemma {:induction false} TrimAllCommaFree(parts: seq<string>)
    requires CommaFree(parts)
    ensures CommaFree(TrimAll(parts))
  {
    if parts != [] {
      TrimAllCommaFree(parts[..|parts| - 1]);
      TrimIsPart(Last(parts));
    }
  }

  /** A normalized device list survives the table exactly when no device id holds a comma. */
  lemma {:induction false} DevicesRoundTrip(devices: seq<string>)
    requires Normalized(devices)
    ensures ScanDevices(JoinDevices(devices)) == devices <==> CommaFree(devices)
  {
    hide TrimSpace, Split, TrimAll;
    if devices != [] {
      var text := Join(devices, ",");
      JoinSplit(text, ',');
      TrimAllCommaFree(Split(text, ','));
      if CommaFree(devices) {
        SplitJoin(devices, ',');
        TrimAllKeeps(devices);
      }
    }
  }

  // What a later scan of the written row returns.
  function Stored(item: Instance): Instance { item.(devices := ScanDevices(JoinDevices(item.devices))) }

  // ----- the cache ---------------------------------------------------------------------------

  datatype Cache = Cache(enabled: bool, generation: nat, byID: map<Id, Instance>, slugToID: map<Slug, Id>)

  function EnabledCache(cache: Cache): Cache {
    if cache.enabled then cache else cache.(enabled := true, generation := cache.generation + 1)
  }

  function FindByID(cache: Cache, id: Id): Option<Instance> {
    if cache.enabled && id in cache.byID then Some(cache.byID[id]) else None
  }

  function FindBySlug(cache: Cache, slug: Slug): Option<Instance> {
    if cache.enabled && slug in cache.slugToID then FindByID(cache, cache.slugToID[slug]) else None
  }

  function Published(cache: Cache, item: Instance): Cache {
    var slugs := if item.id in cache.byID && cache.byID[item.id].slug != item.slug
        then cache.slugToID - {cache.byID[item.id].slug} else cache.slugToID;
    cache.(byID := cache.byID[item.id := item], slugToID := slugs[item.slug := item.id])
  }

  function PublishedIf(cache: Cache, item: Instance, generation: nat): Cache {
    if cache.enabled && cache.generation == generation then Published(cache, item) else cache
  }

  function Republished(cache: Cache, item: Instance): Cache {
    if cache.enabled then Published(cache.(generation := cache.generation + 1), item) else cache
  }

  function Forgotten(cache: Cache, id: Id): Cache {
    if !cache.enabled then cache
    else
      var slugs := if id in cache.byID then cache.slugToID - {cache.byID[id].slug} else cache.slugToID;
      Cache(true, cache.generation + 1, cache.byID - {id}, slugs)
  }

  class InstanceHotCache {
    var enabled: bool
    var generation: nat
    var byID: map<Id, Instance>
    var slugToID: map<Slug, Id>

    constructor ()
      ensures Contents() == Cache(false, 0, map[], map[])
    {
      enabled, generation, byID, slugToID := false, 0, map[], map[];
    }

    ghost function Contents(): Cache
      reads this
    {
      Cache(enabled, generation, byID, slugToID)
    }

    method EnableHotCache()
      modifies this
      ensures Contents() == EnabledCache(old(Contents()))
    {
      if !enabled {
        enabled := true;
        generation := generation + 1;
      }
    }

    method CachedByIDAtGeneration(id: Id) returns (item: Option<Instance>, current: nat)
      ensures item == FindByID(Contents(), id) && current == Contents().generation
    {
      current := generation;
      if !enabled {
        return None, current;
      }
      item := if id in byID then Some(byID[id]) else None;
    }

    method CachedBySlugAtGeneration(slug: Slug) returns (item: Option<Instance>, current: nat)
      ensures item == FindBySlug(Contents(), slug) && current == Contents().generation
    {
      current := generation;
      if !enabled || slug !in slugToID {
        return None, current;
      }
      var id := slugToID[slug];
      item := if id in byID then Some(byID[id]) else None;
    }

    method RememberHotLocked(item: Instance)
      modifies this
      ensures Contents() == Published(old(Contents()), item)
    {
      if item.id in byID && byID[item.id].slug != item.slug {
        slugToID := slugToID - {byID[item.id].slug};
      }
      byID := byID[item.id := item];
      slugToID := slugToID[item.slug := item.id];
    }

    method RememberHotIfGeneration(item: Instance, current: nat) returns (ok: bool)
      modifies this
      ensures ok == (!old(enabled) || old(generation) == current)
      ensures Contents() == PublishedIf(old(Contents()), item, current)
    {
      if !enabled {
        return true;
      }
      if generation != current {
        return false;
      }
      RememberHotLocked(item);
      return true;
    }

    method RememberHot(item: Instance)
      modifies this
      ensures Contents() == Republished(old(Contents()), item)
    {
      if !enabled {
        return;
      }
      generation := generation + 1;
      RememberHotLocked(item);
    }

    method ForgetHot(id: Id)
      modifies this
      ensures Contents() == Forgotten(old(Contents()), id)
    {
      if !enabled {
        return;
      }
      generation := generation + 1;
      if id in byID {
        slugToID := slugToID - {byID[id].slug};
      }
      byID := byID - {id};
    }
  }

  // ----- the protocol -----------------------------------------------------------------------------

  datatype Key = ByID(id: Id) | BySlug(slug: Slug)

  datatype GetPc =
    | Begin
    | Missed(generation: nat)
    | Read(item: Instance, generation: nat)
    | Done(item: Instance)
    | NotFound

  datatype Get = Get(key: Key, pc: GetPc)

  /** A writer of one instance after its commit.  `before` is the row it replaced, `publish` what it
      publishes once it has invalidated (an update does, a deletion does not). */
  datatype Writer =
    | Committed(before: Option<Instance>, publish: Option<Instance>)
    | Publishing(item: Instance)

  /** At most one writer per instance id runs at a time.  `outdated` are the rows that were replaced or removed
      without telling the cache and have not come back: a model's deletion takes its instances' rows along, and
      an import that has lost its claim enables its instance without a notice. */
  datatype State = State(
    table: map<Id, Instance>, cache: Cache, gets: map<CallID, Get>, writers: map<Id, Writer>, outdated: set<Instance>)

  ghost predicate Init(s: State) {
    && s.cache == Cache(false, 0, map[], map[]) && s.gets == map[] && s.writers == map[] && s.outdated == {}
    && TableOK(s.table)
  }

  // Rows are keyed by their ids and no two rows share a slug.
  ghost predicate TableOK(table: map<Id, Instance>) {
    && (forall id :: id in table ==> table[id].id == id)
    && forall j, k :: j in table && k in table && table[j].slug == table[k].slug ==> j == k
  }

  // The UNIQUE constraint on the slug column.
  predicate SlugFree(table: map<Id, Instance>, item: Instance) {
    forall id :: id in table && id != item.id ==> table[id].slug != item.slug
  }

  datatype GetStep = LookUp | ReadTable | Publish

  datatype Action =
    | Enable
    | StartGet(c: CallID, key: Key)
    | GetMoves(c: CallID, step: GetStep)
    | CommitCreate(item: Instance, imported: bool)   // an import's service has no cache of its own and notifies
    | CommitUpdate(item: Instance)
    | ImportEnables(id: Id, claimed: bool)   // a direct row update, followed by NotifyChange only if claimed
    | CommitDelete(id: Id)
    | Invalidate(id: Id)
    | PublishWritten(id: Id)
    | Notify(id: Id)
    | DeleteModel(ids: set<Id>)

  predicate GetEnabled(s: State, c: CallID, step: GetStep) {
    && c in s.gets
    && var pc := s.gets[c].pc;
       match step
       case LookUp => pc.Begin?
       case ReadTable => pc.Missed?
       case Publish => pc.Read?
  }

  ghost predicate RowFor(table: map<Id, Instance>, key: Key, item: Instance) {
    && item.id in table && table[item.id] == item
    && match key case ByID(id) => item.id == id case BySlug(slug) => item.slug == slug
  }

  ghost function ReadResult(table: map<Id, Instance>, key: Key, generation: nat): GetPc {
    if exists item :: RowFor(table, key, item) then
      var item :| RowFor(table, key, item); Read(item, generation)
    else
      NotFound
  }

  ghost function GetNext(s: State, c: CallID, step: GetStep): GetPc
    requires GetEnabled(s, c, step)
  {
    var Get(key, pc) := s.gets[c];
    match step
    case LookUp =>
      var found := match key case ByID(id) => FindByID(s.cache, id) case BySlug(slug) => FindBySlug(s.cache, slug);
      if found.Some? then Done(found.value) else Missed(s.cache.generation)
    case ReadTable => ReadResult(s.table, key, pc.generation)
    case Publish => if s.cache.enabled && s.cache.generation != pc.generation then Begin else Done(pc.item)
  }

  function CacheAfter(s: State, c: CallID, step: GetStep): Cache
    requires GetEnabled(s, c, step)
  {
    if step.Publish? then PublishedIf(s.cache, s.gets[c].pc.item, s.gets[c].pc.generation) else s.cache
  }

  // What the service writes: normalized device ids, without commas, under a slug of its own.
  predicate Writable(table: map<Id, Instance>, item: Instance) {
    Normalized(item.devices) && CommaFree(item.devices) && SlugFree(table, item)
  }

  predicate Enabled(s: State, a: Action) {
    match a
    case Enable => true
    case StartGet(c, key) => c !in s.gets
    case GetMoves(c, step) => GetEnabled(s, c, step)
    case CommitCreate(item, _) => Writable(s.table, item) && item.id !in s.table && item.id !in s.writers
    case CommitUpdate(item) => Writable(s.table, item) && item.id in s.table && item.id !in s.writers
    case ImportEnables(id, claimed) => id in s.table && id !in s.writers
    case CommitDelete(id) => id in s.table && id !in s.writers
    case Invalidate(id) => id in s.writers && s.writers[id].Committed?
    case PublishWritten(id) => id in s.writers && s.writers[id].Publishing?
    case Notify(id) => true
    case DeleteModel(ids) => forall id :: id in ids ==> id in s.table && id !in s.writers
  }

  function WriterAfter(s: State, id: Id): map<Id, Writer>
    requires id in s.writers && s.writers[id].Committed?
  {
    match s.writers[id].publish
    case None => s.writers - {id}
    case Some(item) => s.writers[id := Publishing(item)]
  }

  // A write that a writer will tell the cache about.
  function Write(s: State, row: Instance, writer: Writer): State {
    s.(table := s.table[row.id := row], writers := s.writers[row.id := writer], outdated := s.outdated - {row})
  }

  function Superseded(outdated: set<Instance>, gone: set<Instance>, row: Instance): set<Instance> {
    outdated + gone - {row}
  }

  ghost function Apply(s: State, a: Action): State
    requires Enabled(s, a)
  {
    match a
    case Enable => s.(cache := EnabledCache(s.cache))
    case StartGet(c, key) => s.(gets := s.gets[c := Get(key, Begin)])
    case GetMoves(c, step) =>
      s.(gets := s.gets[c := s.gets[c].(pc := GetNext(s, c, step))], cache := CacheAfter(s, c, step))
    case CommitCreate(item, imported) => Write(s, Stored(item),
        if imported then Committed(None, None) else Publishing(item))
    case CommitUpdate(item) => Write(s, Stored(item), Committed(Some(s.table[item.id]), Some(item)))
    case ImportEnables(id, claimed) =>
      var row := s.table[id].(enabled := true);
      if claimed then Write(s, row, Committed(Some(s.table[id]), None))
      else s.(table := s.table[id := row], outdated := Superseded(s.outdated, {s.table[id]}, row))
    case CommitDelete(id) =>
      s.(table := s.table - {id}, writers := s.writers[id := Committed(Some(s.table[id]), None)])
    case Invalidate(id) => s.(cache := Forgotten(s.cache, id), writers := WriterAfter(s, id))
    case PublishWritten(id) => s.(cache := Republished(s.cache, s.writers[id].item), writers := s.writers - {id})
    case Notify(id) => s.(cache := Forgotten(s.cache, id))
    case DeleteModel(ids) => s.(table := s.table - ids, outdated := s.outdated + set id | id in ids :: s.table[id])
  }

  ghost predicate IsRun(run: seq<State>, actions: seq<Action>) {
    && |run| == |actions| + 1
    && Init(run[0])
    && forall i :: 0 <= i < |actions| ==> Enabled(run[i], actions[i]) && run[i + 1] == Apply(run[i], actions[i])
  }

  // ----- invariant --------------------------------------------------------------------------------

  ghost predicate CacheOK(cache: Cache) {
    && (forall id :: id in cache.byID ==> cache.byID[id].id == id)
    && (forall slug :: slug in cache.slugToID ==>
          cache.slugToID[slug] in cache.byID && cache.byID[cache.slugToID[slug]].slug == slug)
    && (!cache.enabled ==> cache.byID == map[] && cache.slugToID == map[])
  }

  ghost predicate InWindow(writers: map<Id, Writer>, id: Id) { id in writers && writers[id].Committed? }

  /** The item is its instance's row, or the row that this instance's writer has just replaced and not
      yet invalidated, or one that went without a notice. */
  ghost predicate Fresh(table: map<Id, Instance>, writers: map<Id, Writer>, outdated: set<Instance>, item: Instance) {
    || item in outdated
    || (item.id in table && table[item.id] == item)
    || (InWindow(writers, item.id) && writers[item.id].before == Some(item))
  }

  ghost predicate CacheFresh(s: State) {
    forall id :: id in s.cache.byID ==> Fresh(s.table, s.writers, s.outdated, s.cache.byID[id])
  }

  predicate Matches(key: Key, item: Instance) {
    match key case ByID(id) => item.id == id case BySlug(slug) => item.slug == slug
  }

  ghost predicate GetOK(s: State, get: Get) {
    match get.pc
    case Missed(g) => g <= s.cache.generation
    case Read(item, g) =>
      && g <= s.cache.generation && Matches(get.key, item)
      && (s.cache.enabled && g == s.cache.generation ==> Fresh(s.table, s.writers, s.outdated, item))
    case Done(item) => Matches(get.key, item)
    case _ => true
  }

  ghost predicate GetsOK(s: State) { forall c :: c in s.gets ==> GetOK(s, s.gets[c]) }

  // A writer that is to publish an item has put it in the table.
  ghost predicate WriterOK(table: map<Id, Instance>, id: Id, writer: Writer) {
    var item := if writer.Publishing? then Some(writer.item) else writer.publish;
    item.Some? ==> item.value.id == id && id in table && table[id] == item.value
  }

  ghost predicate RowsOK(s: State) {
    && TableOK(s.table)
    && (forall item :: item in s.outdated ==> !(item.id in s.table && s.table[item.id] == item))
    && (forall id :: id in s.writers ==> WriterOK(s.table, id, s.writers[id]))
  }

  ghost predicate Inv(s: State) { CacheOK(s.cache) && RowsOK(s) && CacheFresh(s) && GetsOK(s) }

  // The cache changes only by publishing what is fresh and by forgetting.
  lemma {:induction false} CacheOpsKeepOK(cache: Cache, item: Instance, id: Id)
    requires CacheOK(cache)
    ensures CacheOK(EnabledCache(cache)) && CacheOK(Forgotten(cache, id))
    ensures cache.enabled ==> CacheOK(Published(cache, item))
    ensures CacheOK(Republished(cache, item))
  {
    if cache.enabled {
      PublishKeepsOK(cache, item);
      PublishKeepsOK(cache.(generation := cache.generation + 1), item);
    }
  }

  lemma {:induction false} PublishKeepsOK(cache: Cache, item: Instance)
    requires CacheOK(cache) && cache.enabled
    ensures CacheOK(Published(cache, item))
  {
  }

  lemma {:induction false} ReadsTheRow(table: map<Id, Instance>, key: Key, generation: nat)
    ensures var pc := ReadResult(table, key, generation);
      pc.NotFound? || (pc.Read? && pc.generation == generation && RowFor(table, key, pc.item))
  {
  }

  lemma {:induction false} GetPreserves(s: State, c: CallID, step: GetStep)
    requires Inv(s) && GetEnabled(s, c, step)
    ensures Inv(Apply(s, GetMoves(c, step)))
  {
    var Get(key, pc) := s.gets[c];
    assert GetOK(s, s.gets[c]);
    if step.ReadTable? {
      ReadsTheRow(s.table, key, pc.generation);
    }
    if step.Publish? && s.cache.enabled {
      PublishKeepsOK(s.cache, pc.item);
    }
    hide ReadResult, Fresh;
  }

  ghost predicate FreshStays(s: State, after: State, id: Option<Id>) {
    forall item :: Fresh(s.table, s.writers, s.outdated, item) && id != Some(item.id) ==>
        Fresh(after.table, after.writers, after.outdated, item)
  }

  predicate IsCommit(a: Action) {
    a.CommitCreate? || a.CommitUpdate? || a.ImportEnables? || a.CommitDelete? || a.DeleteModel?
  }

  lemma {:induction false} WriteKeepsRows(s: State, row: Instance, writer: Writer)
    requires RowsOK(s) && SlugFree(s.table, row) && row.id !in s.writers
    requires WriterOK(s.table[row.id := row], row.id, writer)
    requires row.id in s.table ==> writer.Committed? && writer.before == Some(s.table[row.id])
    ensures RowsOK(Write(s, row, writer)) && FreshStays(s, Write(s, row, writer), None)
  {
  }

  lemma {:induction false} DeleteKeepsRows(s: State, a: Action)
    requires RowsOK(s) && Enabled(s, a) && (a.CommitDelete? || a.DeleteModel?)
    ensures RowsOK(Apply(s, a)) && FreshStays(s, Apply(s, a), None)
  {
  }

  lemma {:induction false} SilentKeepsRows(s: State, id: Id)
    requires RowsOK(s) && Enabled(s, ImportEnables(id, false))
    ensures var after := Apply(s, ImportEnables(id, false)); RowsOK(after) && FreshStays(s, after, None)
  {
  }

  lemma {:induction false} CommitKeepsRows(s: State, a: Action)
    requires RowsOK(s) && Enabled(s, a) && IsCommit(a)
    ensures RowsOK(Apply(s, a)) && FreshStays(s, Apply(s, a), None)
  {
    match a
    case CommitDelete(id) => DeleteKeepsRows(s, a);
    case DeleteModel(ids) => DeleteKeepsRows(s, a);
    case ImportEnables(id, claimed) =>
      if claimed {
        WriteKeepsRows(s, s.table[id].(enabled := true), Committed(Some(s.table[id]), None));
      } else {
        SilentKeepsRows(s, id);
      }
    case CommitCreate(item, imported) =>
      DevicesRoundTrip(item.devices);
      assert Stored(item) == item;
      WriteKeepsRows(s, item, if imported then Committed(None, None) else Publishing(item));
    case CommitUpdate(item) =>
      DevicesRoundTrip(item.devices);
      assert Stored(item) == item;
      WriteKeepsRows(s, item, Committed(Some(s.table[item.id]), Some(item)));
  }

  lemma {:induction false} CommitPreserves(s: State, a: Action)
    requires Inv(s) && Enabled(s, a) && IsCommit(a)
    ensures Inv(Apply(s, a))
  {
    CommitKeepsRows(s, a);
    hide Fresh, CacheOK, RowsOK, Enabled;
    var after := Apply(s, a);
    forall c | c in after.gets
      ensures GetOK(after, after.gets[c])
    {
      assert GetOK(s, s.gets[c]);
    }
  }

  // A new generation: what calls read before it will not be published.
  lemma {:induction false} NewGeneration(s: State, after: State, id: Option<Id>)
    requires GetsOK(s) && CacheFresh(s) && FreshStays(s, after, id)
    requires after.gets == s.gets && (id.Some? ==> id.value !in after.cache.byID)
    requires (after.cache == s.cache && !s.cache.enabled) || after.cache.generation > s.cache.generation
    requires forall k :: k in after.cache.byID ==>
        Fresh(after.table, after.writers, after.outdated, after.cache.byID[k])
            || (k in s.cache.byID && after.cache.byID[k] == s.cache.byID[k] && id != Some(s.cache.byID[k].id))
    ensures GetsOK(after) && CacheFresh(after)
  {
    hide Fresh;
    forall c | c in after.gets
      ensures GetOK(after, after.gets[c])
    {
      assert GetOK(s, s.gets[c]);
    }
  }

  lemma {:induction false} EnablePreserves(s: State)
    requires Inv(s)
    ensures Inv(Apply(s, Enable))
  {
    hide Fresh;
    if !s.cache.enabled {
      NewGeneration(s, Apply(s, Enable), None);
    }
  }

  lemma {:induction false} ForgetPreserves(s: State, a: Action, id: Id)
    requires Inv(s) && Enabled(s, a) && (a == Invalidate(id) || a == Notify(id))
    ensures Inv(Apply(s, a))
  {
    CacheOpsKeepOK(s.cache, Instance(0, "", false, [], 0), id);
    var after := Apply(s, a);
    assert FreshStays(s, after, Some(id));
    hide Fresh;
    NewGeneration(s, after, Some(id));
  }

  lemma {:induction false} PublishWrittenPreserves(s: State, id: Id)
    requires Inv(s) && Enabled(s, PublishWritten(id))
    ensures Inv(Apply(s, PublishWritten(id)))
  {
    var item := s.writers[id].item;
    var after := Apply(s, PublishWritten(id));
    CacheOpsKeepOK(s.cache, item, id);
    assert WriterOK(s.table, id, s.writers[id]);
    assert FreshStays(s, after, None);
    assert Fresh(after.table, after.writers, after.outdated, item);
    hide Fresh;
    NewGeneration(s, after, None);
  }

  lemma {:induction false} StepPreserves(s: State, a: Action)
    requires Inv(s) && Enabled(s, a)
    ensures Inv(Apply(s, a))
  {
    match a
    case GetMoves(c, step) => GetPreserves(s, c, step);
    case StartGet(c, key) => hide CacheOK, RowsOK, Fresh;
    case Enable => EnablePreserves(s);
    case Invalidate(id) => ForgetPreserves(s, a, id);
    case PublishWritten(id) => PublishWrittenPreserves(s, id);
    case Notify(id) => ForgetPreserves(s, a, id);
    case CommitCreate(item, imported) => CommitPreserves(s, a);
    case CommitUpdate(item) => CommitPreserves(s, a);
    case ImportEnables(id, claimed) => CommitPreserves(s, a);
    case CommitDelete(id) => CommitPreserves(s, a);
    case DeleteModel(ids) => CommitPreserves(s, a);
  }

  lemma {:induction false} RunInv(run: seq<State>, actions: seq<Action>, i: nat)
    requires IsRun(run, actions) && i < |run|
    ensures Inv(run[i])
  {
    if i > 0 {
      RunInv(run, actions, i - 1);
      StepPreserves(run[i - 1], actions[i - 1]);
    }
  }

  // ----- what holds over every run ------------------------------------------------------------------

  /** Outside its writer's window, from commit to invalidation, a cached instance equals its row exactly
      when it is not a row that went without a notice. */
  lemma {:induction false} CacheAgreesWithTable(run: seq<State>, actions: seq<Action>, i: nat, id: Id)
    requires IsRun(run, actions) && i < |run|
    requires id in run[i].cache.byID && !InWindow(run[i].writers, id)
    ensures (id in run[i].table && run[i].table[id] == run[i].cache.byID[id]) <==>
        run[i].cache.byID[id] !in run[i].outdated
  {
    RunInv(run, actions, i);
    assert Fresh(run[i].table, run[i].writers, run[i].outdated, run[i].cache.byID[id]);
  }

  /** Inside the window a cached instance is the new row, the one just replaced, or one that went without
      a notice. */
  lemma {:induction false} CacheInsideWindow(run: seq<State>, actions: seq<Action>, i: nat, id: Id)
    requires IsRun(run, actions) && i < |run|
    requires id in run[i].cache.byID && InWindow(run[i].writers, id)
    ensures var item := run[i].cache.byID[id];
      (id in run[i].table && run[i].table[id] == item) || run[i].writers[id].before == Some(item)
          || item in run[i].outdated
  {
    RunInv(run, actions, i);
    assert Fresh(run[i].table, run[i].writers, run[i].outdated, run[i].cache.byID[id]);
  }

  /** Every slug entry leads to a cached instance with exactly that slug. */
  lemma {:induction false} SlugEntriesLead(run: seq<State>, actions: seq<Action>, i: nat, slug: Slug)
    requires IsRun(run, actions) && i < |run| && slug in run[i].cache.slugToID
    ensures var id := run[i].cache.slugToID[slug];
      id in run[i].cache.byID && run[i].cache.byID[id].id == id && run[i].cache.byID[id].slug == slug
  {
    RunInv(run, actions, i);
  }

  // The rows an instance has had from step i to step j.
  ghost function Rows(run: seq<State>, i: nat, j: nat, id: Id): set<Instance>
    requires i <= j < |run|
    decreases j
  {
    (if i == j then {} else Rows(run, i, j - 1, id)) + if id in run[j].table then {run[j].table[id]} else {}
  }

  lemma {:induction false} RowsAreRows(run: seq<State>, i: nat, j: nat, id: Id, item: Instance)
    requires i <= j < |run| && item in Rows(run, i, j, id)
    ensures exists k :: i <= k <= j && id in run[k].table && run[k].table[id] == item
    decreases j
  {
    if i < j && item in Rows(run, i, j - 1, id) {
      RowsAreRows(run, i, j - 1, id, item);
    } else {
      assert id in run[j].table && run[j].table[id] == item;
    }
  }

  // What calls and cache may still say about an instance: only the rows in `rows`; calls in `earlier`
  // began before those rows were first collected.
  ghost predicate Recent(s: State, id: Id, rows: set<Instance>, c: CallID, early: bool) {
    c in s.gets ==>
      match s.gets[c].pc
      case Read(item, g) =>
        item.id == id && (!early || (s.cache.enabled && g == s.cache.generation)) ==> item in rows
      case Done(item) => item.id == id && !early ==> item in rows
      case _ => true
  }

  ghost predicate AllRecent(s: State, id: Id, rows: set<Instance>, earlier: set<CallID>) {
    && (id in s.table ==> s.table[id] in rows)
    && (id in s.cache.byID ==> s.cache.byID[id] in rows)
    && forall c :: Recent(s, id, rows, c, c in earlier)
  }

  // What the cache, or a call that may still publish, holds of an instance.
  ghost function Held(s: State, id: Id): set<Instance> {
    (if id in s.cache.byID then {s.cache.byID[id]} else {})
    + set c | c in s.gets && s.gets[c].pc.Read? && s.gets[c].pc.item.id == id && s.cache.enabled
        && s.gets[c].pc.generation == s.cache.generation
      :: s.gets[c].pc.item
  }

  // What may linger of an instance: rows held although they went without a notice.
  ghost function Lingering(s: State, id: Id): set<Instance> { Held(s, id) * s.outdated }

  lemma {:induction false} RecentAtStart(s: State, id: Id, rows: set<Instance>)
    requires Inv(s) && !InWindow(s.writers, id) && (id in s.table ==> s.table[id] in rows) && Lingering(s, id) <= rows
    ensures AllRecent(s, id, rows, s.gets.Keys)
  {
    forall item | item in Held(s, id) && item.id == id && Fresh(s.table, s.writers, s.outdated, item)
      ensures item in rows
    {
      assert item in s.outdated ==> item in Lingering(s, id);
    }
    forall c | c in s.gets
      ensures Recent(s, id, rows, c, true)
    {
      assert GetOK(s, s.gets[c]);
    }
    if id in s.cache.byID {
      assert s.cache.byID[id] in Held(s, id) && Fresh(s.table, s.writers, s.outdated, s.cache.byID[id]);
    }
  }

  lemma {:induction false} GetKeepsRecent(s: State, c: CallID, step: GetStep, id: Id, rows: set<Instance>,
        earlier: set<CallID>)
    requires Inv(s) && GetEnabled(s, c, step) && AllRecent(s, id, rows, earlier)
    ensures AllRecent(Apply(s, GetMoves(c, step)), id, rows, earlier)
  {
    var after := Apply(s, GetMoves(c, step));
    var Get(key, pc) := s.gets[c];
    assert Recent(s, id, rows, c, c in earlier);
    if step.ReadTable? {
      ReadsTheRow(s.table, key, pc.generation);
    }
    hide ReadResult, RowsOK, CacheFresh, GetsOK;
    assert Recent(after, id, rows, c, c in earlier);
    forall k | k != c
      ensures Recent(after, id, rows, k, k in earlier)
    {
      assert Recent(s, id, rows, k, k in earlier);
    }
  }

  lemma {:induction false} OthersKeepRecent(s: State, a: Action, id: Id, rows: set<Instance>, earlier: set<CallID>)
    requires Inv(s) && Enabled(s, a) && !a.GetMoves? && AllRecent(s, id, rows, earlier)
    requires id in Apply(s, a).table ==> Apply(s, a).table[id] in rows
    requires a.StartGet? ==> a.c !in earlier
    ensures AllRecent(Apply(s, a), id, rows, earlier)
  {
    var after := Apply(s, a);
    if a.PublishWritten? {
      assert WriterOK(s.table, a.id, s.writers[a.id]);
    }
    hide CacheFresh, GetsOK, Fresh, Stored;
    assert after.cache.generation == s.cache.generation ==> after.cache == s.cache;
    assert id in after.cache.byID ==>
        (id in s.cache.byID && after.cache.byID[id] == s.cache.byID[id])
            || (id in s.table && after.cache.byID[id] == s.table[id]);
    assert s.cache.generation <= after.cache.generation;
    assert a.StartGet? || after.gets == s.gets;
    hide RowsOK, CacheOK, Enabled;
    forall k
      ensures Recent(after, id, rows, k, k in earlier)
    {
      assert Recent(s, id, rows, k, k in earlier);
    }
  }

  lemma {:induction false} MoreRowsStayRecent(s: State, id: Id, rows: set<Instance>, more: set<Instance>,
        earlier: set<CallID>)
    requires AllRecent(s, id, rows, earlier) && rows <= more
    ensures AllRecent(s, id, more, earlier)
  {
    forall c
      ensures Recent(s, id, more, c, c in earlier)
    {
      assert Recent(s, id, rows, c, c in earlier);
    }
  }

  lemma {:induction false} CurrentRowIsCollected(run: seq<State>, i: nat, j: nat, id: Id)
    requires i <= j < |run|
    ensures id in run[j].table ==> run[j].table[id] in Rows(run, i, j, id)
    ensures i < j ==> Rows(run, i, j - 1, id) <= Rows(run, i, j, id)
  {
  }

  lemma {:induction false} RowsStayRecent(run: seq<State>, actions: seq<Action>, i: nat, j: nat, id: Id)
    requires IsRun(run, actions) && i <= j < |run| && !InWindow(run[i].writers, id)
    ensures AllRecent(run[j], id, Rows(run, i, j, id) + Lingering(run[i], id), run[i].gets.Keys)
        && run[i].gets.Keys <= run[j].gets.Keys
    decreases j
  {
    hide Inv, AllRecent, Apply, Enabled, Init, InWindow, Lingering;
    RunInv(run, actions, i);
    var rows, earlier := Rows(run, i, j, id) + Lingering(run[i], id), run[i].gets.Keys;
    CurrentRowIsCollected(run, i, j, id);
    if i == j {
      RecentAtStart(run[j], id, rows);
    } else {
      RunInv(run, actions, j - 1);
      RowsStayRecent(run, actions, i, j - 1, id);
      var s, a := run[j - 1], actions[j - 1];
      MoreRowsStayRecent(s, id, Rows(run, i, j - 1, id) + Lingering(run[i], id), rows, earlier);
      CallsGrow(s, a);
      hide IsRun, Rows;
      if a.GetMoves? {
        assert GetEnabled(s, a.c, a.step)
            && Apply(s, a) == Apply(s, GetMoves(a.c, a.step)) by { MovesAreEnabled(s, a); }
        GetKeepsRecent(s, a.c, a.step, id, rows, earlier);
      } else {
        OthersKeepRecent(s, a, id, rows, earlier);
      }
    }
  }

  lemma {:induction false} MovesAreEnabled(s: State, a: Action)
    requires Enabled(s, a) && a.GetMoves?
    ensures GetEnabled(s, a.c, a.step)
  {
  }

  lemma {:induction false} CallsGrow(s: State, a: Action)
    requires Enabled(s, a)
    ensures s.gets.Keys <= Apply(s, a).gets.Keys && (a.StartGet? ==> a.c !in s.gets)
  {
    hide ReadResult;
  }

  /** A get that starts when no writer of the instance is between commit and invalidation yields only what
      was the row at some moment since then, or what already lingered from a change without notice. */
  lemma {:induction false} GetIsNoOlderThanItsStart(run: seq<State>, actions: seq<Action>, i: nat, j: nat, c: CallID)
    requires IsRun(run, actions) && i <= j < |run|
    requires c !in run[i].gets && c in run[j].gets && run[j].gets[c].pc.Done?
        && !InWindow(run[i].writers, run[j].gets[c].pc.item.id)
    ensures var item := run[j].gets[c].pc.item;
      && ((exists k :: i <= k <= j && item.id in run[k].table && run[k].table[item.id] == item)
          || item in Lingering(run[i], item.id))
      && Matches(run[j].gets[c].key, item)
  {
    var item := run[j].gets[c].pc.item;
    RunInv(run, actions, j);
    assert GetOK(run[j], run[j].gets[c]);
    hide Inv;
    RowsStayRecent(run, actions, i, j, item.id);
    assert Recent(run[j], item.id, Rows(run, i, j, item.id) + Lingering(run[i], item.id), c, false);
    if item in Rows(run, i, j, item.id) {
      RowsAreRows(run, i, j, item.id, item);
    }
  }

  // No row has the id or the slug that is looked for.
  predicate NoRowFor(table: map<Id, Instance>, key: Key) {
    match key
    case ByID(id) => id !in table
    case BySlug(slug) => forall id :: id in table ==> table[id].slug != slug
  }

  lemma {:induction false} NotFoundMeansNoRow(table: map<Id, Instance>, key: Key, generation: nat)
    requires TableOK(table)
    ensures ReadResult(table, key, generation).NotFound? <==> NoRowFor(table, key)
  {
    match key
    case ByID(id) => assert id in table ==> RowFor(table, key, table[id]);
    case BySlug(slug) => assert forall id :: id in table && table[id].slug == slug ==> RowFor(table, key, table[id]);
  }

  /** A get that finds nothing has read the table when it had no row with the id or slug asked for, at a moment
      since the get started. */
  lemma {:induction false} NotFoundHadNoRow(run: seq<State>, actions: seq<Action>, i: nat, j: nat, c: CallID)
    requires IsRun(run, actions) && i <= j < |run| && c !in run[i].gets
    requires c in run[j].gets && run[j].gets[c].pc.NotFound?
    ensures exists k :: i <= k < j && NoRowFor(run[k].table, run[j].gets[c].key)
    decreases j
  {
    hide IsRun, Apply, Enabled, NoRowFor, Inv, ReadResult;
    StepAt(run, actions, j);
    var s, a := run[j - 1], actions[j - 1];
    RunInv(run, actions, j - 1);
    FindsNothing(s, a, c);
    if c in s.gets && s.gets[c].pc.NotFound? {
      NotFoundHadNoRow(run, actions, i, j - 1, c);
    } else {
      CallsOnlyGrow(run, actions, i, j - 1, c);
    }
  }

  // The step before a state, if it has any calls.
  lemma {:induction false} StepAt(run: seq<State>, actions: seq<Action>, j: nat)
    requires IsRun(run, actions) && j < |run| && run[j].gets != map[]
    ensures |run| == |actions| + 1 && j > 0 && Enabled(run[j - 1], actions[j - 1])
    ensures run[j] == Apply(run[j - 1], actions[j - 1])
  {
    hide Apply, Enabled;
  }

  lemma {:induction false} FindsNothing(s: State, a: Action, c: CallID)
    requires Inv(s) && Enabled(s, a) && c in Apply(s, a).gets && Apply(s, a).gets[c].pc.NotFound?
    ensures c in s.gets && s.gets[c].key == Apply(s, a).gets[c].key
    ensures s.gets[c].pc.NotFound? || NoRowFor(s.table, s.gets[c].key)
  {
    if a.GetMoves? && a.c == c && a.step.ReadTable? {
      NotFoundMeansNoRow(s.table, s.gets[c].key, s.gets[c].pc.generation);
    }
    hide ReadResult, NoRowFor, Stored, CacheOK, CacheFresh;
  }

  lemma {:induction false} CallsOnlyGrow(run: seq<State>, actions: seq<Action>, i: nat, j: nat, c: CallID)
    requires IsRun(run, actions) && i < |run| && j < |run| && c !in run[i].gets && c in run[j].gets
    ensures i < j
    decreases i
  {
    if j <= i {
      CallsGrow(run[i - 1], actions[i - 1]);
      assert run[i] == Apply(run[i - 1], actions[i - 1]);
      if j < i {
        CallsOnlyGrow(run, actions, i - 1, j, c);
      }
    }
  }

  // The last step of a writer of this instance, or a notice of a change that nobody else is making.
  predicate TellsCache(s: State, a: Action, id: Id) {
    match a
    case PublishWritten(k) => k == id
    case Invalidate(k) => k == id && id in s.writers && s.writers[id].Committed? && s.writers[id].publish.None?
    case Notify(k) => k == id && id !in s.writers
    case _ => false
  }

  lemma {:induction false} NothingLingersAfterTelling(s: State, a: Action, id: Id)
    requires Inv(s) && Enabled(s, a) && TellsCache(s, a, id)
    ensures Lingering(Apply(s, a), id) == {} && !InWindow(Apply(s, a).writers, id)
  {
    var after := Apply(s, a);
    StepPreserves(s, a);
    forall c | c in s.gets && s.gets[c].pc.Read?
      ensures !(after.cache.enabled && s.gets[c].pc.generation == after.cache.generation)
    {
      assert GetOK(s, s.gets[c]);
    }
    if a.PublishWritten? {
      assert WriterOK(s.table, id, s.writers[id]);
      assert after.cache.enabled ==> after.cache.byID[id] == s.table[id];
    }
    hide Fresh;
  }

  /** A get that starts after an Update, a Delete or a notified change of the instance has returned never
      yields an older row: only what was the row at some moment since then. */
  lemma {:induction false} GetAfterWriterReturned(run: seq<State>, actions: seq<Action>, i: nat, j: nat, c: CallID)
    requires IsRun(run, actions) && i < j < |run|
    requires c !in run[i + 1].gets && c in run[j].gets && run[j].gets[c].pc.Done?
    requires TellsCache(run[i], actions[i], run[j].gets[c].pc.item.id)
    ensures var item := run[j].gets[c].pc.item;
      exists k :: i < k <= j && item.id in run[k].table && run[k].table[item.id] == item
  {
    RunInv(run, actions, i);
    NothingLingersAfterTelling(run[i], actions[i], run[j].gets[c].pc.item.id);
    hide Inv, Lingering, Apply;
    GetIsNoOlderThanItsStart(run, actions, i + 1, j, c);
  }

  // ----- the order of a writer's steps -------------------------------------------------------------------

  // A step of the one who writes this instance: its commit, or what it tells the cache.
  predicate MovesWriter(a: Action, id: Id) {
    match a
    case CommitCreate(item, _) => item.id == id
    case CommitUpdate(item) => item.id == id
    case ImportEnables(k, claimed) => k == id && claimed
    case CommitDelete(k) => k == id
    case Invalidate(k) => k == id
    case PublishWritten(k) => k == id
    case _ => false
  }

  /** A created instance is published; an update invalidates and then publishes what it wrote; a deletion, and the
      changes that an import makes, only invalidate. */
  predicate WriterFollows(a: Action, next: Action, id: Id) {
    match a
    case CommitCreate(_, imported) => next == if imported then Invalidate(id) else PublishWritten(id)
    case CommitUpdate(_) => next == Invalidate(id)
    case ImportEnables(_, _) => next == Invalidate(id)
    case CommitDelete(_) => next == Invalidate(id)
    case _ => true
  }

  lemma {:induction false} WriterWaits(s: State, a: Action, id: Id)
    requires TableOK(s.table) && Enabled(s, a) && !MovesWriter(a, id)
    ensures id in Apply(s, a).writers <==> id in s.writers
    ensures id in s.writers ==> Apply(s, a).writers[id] == s.writers[id]
  {
    hide ReadResult, ScanDevices, JoinDevices, SlugFree;
  }

  lemma {:induction false} WriterStays(run: seq<State>, actions: seq<Action>, i: nat, j: nat, id: Id)
    requires IsRun(run, actions) && i <= j < |run| && forall k :: i <= k < j ==> !MovesWriter(actions[k], id)
    ensures id in run[j].writers <==> id in run[i].writers
    ensures id in run[i].writers ==> run[j].writers[id] == run[i].writers[id]
    decreases j
  {
    hide Apply, Enabled, Init, MovesWriter, Inv;
    if i < j {
      WriterStays(run, actions, i, j - 1, id);
      RunInv(run, actions, j - 1);
      InvParts(run[j - 1]);
      WriterWaits(run[j - 1], actions[j - 1], id);
    }
  }

  lemma {:induction false} CommitLeads(s: State, a: Action, t: State, next: Action, id: Id)
    requires TableOK(s.table) && Enabled(s, a) && MovesWriter(a, id) && Enabled(t, next) && MovesWriter(next, id)
    requires id in t.writers <==> id in Apply(s, a).writers
    requires id in t.writers ==> t.writers[id] == Apply(s, a).writers[id]
    ensures WriterFollows(a, next, id)
  {
    hide ReadResult, ScanDevices, JoinDevices, SlugFree, Normalized, CommaFree;
  }

  /** Two steps of the writers of an instance with none of theirs in between follow that order. */
  lemma {:induction false} WriterStepsFollow(run: seq<State>, actions: seq<Action>, i: nat, j: nat, id: Id)
    requires IsRun(run, actions) && i < j < |actions| && MovesWriter(actions[i], id) && MovesWriter(actions[j], id)
    requires forall k :: i < k < j ==> !MovesWriter(actions[k], id)
    ensures WriterFollows(actions[i], actions[j], id)
  {
    hide Apply, Enabled, Init, MovesWriter, WriterFollows, Inv;
    WriterStays(run, actions, i + 1, j, id);
    RunInv(run, actions, i);
    InvParts(run[i]);
    CommitLeads(run[i], actions[i], run[j], actions[j], id);
  }

  /** An update publishes exactly what it wrote. */
  lemma {:induction false} UpdatePublishes(run: seq<State>, actions: seq<Action>, i: nat, id: Id)
    requires IsRun(run, actions) && i < |actions| && id in run[i].writers
    requires actions[i] == Invalidate(id) && run[i].writers[id].publish.Some?
    ensures id in run[i].table && id in run[i + 1].writers
    ensures run[i + 1].writers[id] == Publishing(run[i].table[id])
  {
    RunInv(run, actions, i);
    assert WriterOK(run[i].table, id, run[i].writers[id]);
    assert Enabled(run[i], actions[i]) && run[i + 1] == Apply(run[i], actions[i]);
  }

  // ----- left alone ---------------------------------------------------------------------------------

  // One call moves and nobody else does.
  ghost predicate MovesAlone(s: State, c: CallID, steps: seq<GetStep>, t: State)
    decreases |steps|
  {
    if steps == [] then s == t
    else GetEnabled(s, c, steps[0]) && MovesAlone(Apply(s, GetMoves(c, steps[0])), c, steps[1..], t)
  }

  // The cache has an instance for the key.
  predicate IsCached(cache: Cache, key: Key, item: Instance) {
    && cache.enabled && item.id in cache.byID && cache.byID[item.id] == item
    && match key
       case ByID(id) => id == item.id
       case BySlug(slug) => slug in cache.slugToID && cache.slugToID[slug] == item.id
  }

  lemma {:induction false} FoundIsCached(s: State, key: Key)
    requires CacheOK(s.cache)
    ensures
      var found :=
        match key
        case ByID(id) => FindByID(s.cache, id)
        case BySlug(slug) => FindBySlug(s.cache, slug);
      && (found.Some? ==> IsCached(s.cache, key, found.value))
      && (found.None? ==> forall item :: !IsCached(s.cache, key, item))
  {
  }

  lemma {:induction false} RowIsRead(table: map<Id, Instance>, key: Key, generation: nat)
    requires TableOK(table)
    ensures var pc := ReadResult(table, key, generation);
      && (pc.Read? ==> pc.generation == generation && RowFor(table, key, pc.item))
      && (!pc.Read? ==> pc.NotFound? && NoRowFor(table, key))
  {
    NotFoundMeansNoRow(table, key, generation);
    ReadsTheRow(table, key, generation);
  }

  /** A get that is left alone yields what the cache has for its key, or else the row with its id or slug; it finds
      nothing exactly when there is neither. */
  lemma {:induction false} AloneItAnswers(run: seq<State>, actions: seq<Action>, i: nat, c: CallID)
      returns (steps: seq<GetStep>, t: State)
    requires IsRun(run, actions) && i < |run| && c in run[i].gets && run[i].gets[c].pc.Begin?
    ensures MovesAlone(run[i], c, steps, t) && c in t.gets
    ensures var s, key, pc := run[i], run[i].gets[c].key, t.gets[c].pc;
      || (pc.Done? && IsCached(s.cache, key, pc.item))
      || ((forall item :: !IsCached(s.cache, key, item))
          && if NoRowFor(s.table, key) then pc.NotFound? else pc.Done? && RowFor(s.table, key, pc.item))
  {
    RunInv(run, actions, i);
    var s, key := run[i], run[i].gets[c].key;
    hide IsRun, Inv, ReadResult, FindByID, FindBySlug, IsCached, NoRowFor, RowFor;
    assert CacheOK(s.cache) && TableOK(s.table) by { InvParts(s); }
    FoundIsCached(s, key);
    var s1 := Apply(s, GetMoves(c, LookUp));
    if s1.gets[c].pc.Done? {
      steps, t := [LookUp], s1;
      assert steps[1..] == [];
    } else {
      var s2 := Apply(s1, GetMoves(c, ReadTable));
      RowIsRead(s.table, key, s.cache.generation);
      if s2.gets[c].pc.Read? {
        RowThere(s.table, key, s2.gets[c].pc.item);
        t := Apply(s2, GetMoves(c, Publish));
        steps := [LookUp, ReadTable, Publish];
        assert steps[1..] == [ReadTable, Publish] && [ReadTable, Publish][1..] == [Publish] && [Publish][1..] == [];
        assert MovesAlone(s2, c, [Publish], t);
        assert MovesAlone(s1, c, [ReadTable, Publish], t);
      } else {
        steps, t := [LookUp, ReadTable], s2;
        assert steps[1..] == [ReadTable] && [ReadTable][1..] == [];
        assert MovesAlone(s1, c, [ReadTable], t);
      }
    }
  }

  lemma {:induction false} InvParts(s: State)
    requires Inv(s)
    ensures CacheOK(s.cache) && TableOK(s.table)
  {
  }

  lemma {:induction false} RowThere(table: map<Id, Instance>, key: Key, item: Instance)
    requires RowFor(table, key, item)
    ensures !NoRowFor(table, key)
  {
  }

  // ----- changes without notice ----------------------------------------------------------------------

  const Caching: seq<Action> := [Enable, StartGet(0, ByID(0)), GetMoves(0, LookUp), GetMoves(0, ReadTable),
      GetMoves(0, Publish)]

  // The one instance of the table is read and cached.
  function CachingState(item: Instance, i: nat): State {
    var cache := if i == 0 then Cache(false, 0, map[], map[]) else if i < 5 then Cache(true, 1, map[], map[])
        else Cache(true, 1, map[0 := item], map[item.slug := 0]);
    var pc := if i == 2 then Begin else if i == 3 then Missed(1) else if i == 4 then Read(item, 1) else Done(item);
    State(map[0 := item], cache, if i < 2 then map[] else map[0 := Get(ByID(0), pc)], map[], {})
  }

  lemma {:induction false} CachingSteps(item: Instance, i: nat)
    requires item.id == 0 && i < 5
    ensures Enabled(CachingState(item, i), Caching[i])
        && CachingState(item, i + 1) == Apply(CachingState(item, i), Caching[i])
  {
    ReadsTheRow(map[0 := item], ByID(0), 1);
    assert RowFor(map[0 := item], ByID(0), item);
    hide ReadResult, RowFor;
  }

  // The cached instance after its row went without a notice, with the calls that come later.
  function LateState(item: Instance, table: map<Id, Instance>, late: map<CallID, Get>): State {
    State(table, Cache(true, 1, map[0 := item], map[item.slug := 0]), map[0 := Get(ByID(0), Done(item))] + late, map[],
        {item})
  }

  // Cache, change the table without a notice, and get.
  lemma {:induction false} ServedAfterChange(item: Instance, change: Action, table: map<Id, Instance>)
      returns (run: seq<State>, actions: seq<Action>)
    requires item.id == 0 && Enabled(CachingState(item, 5), change)
    requires Apply(CachingState(item, 5), change) == LateState(item, table, map[])
    ensures IsRun(run, actions) && |run| == 9 && 1 !in run[6].gets && run[6].table == table && run[6].writers == map[]
    ensures run[8].table == table && 1 in run[8].gets && run[8].gets[1].pc == Done(item)
  {
    var key := ByID(0);
    actions := Caching + [change, StartGet(1, key), GetMoves(1, LookUp)];
    run := seq(6, i requires 0 <= i < 6 => CachingState(item, i))
      + [LateState(item, table, map[]), LateState(item, table, map[1 := Get(key, Begin)]),
          LateState(item, table, map[1 := Get(key, Done(item))])];
    LateSteps(item, table, key);
    forall i | 0 <= i < 8
      ensures Enabled(run[i], actions[i]) && run[i + 1] == Apply(run[i], actions[i])
    {
      hide Apply, Enabled, LateState, CachingState;
      if i < 5 {
        CachingSteps(item, i);
      }
    }
    hide Apply, Enabled;
  }

  lemma {:induction false} LateSteps(item: Instance, table: map<Id, Instance>, key: Key)
    requires item.id == 0 && key == ByID(0)
    ensures var s, t, u := LateState(item, table, map[]), LateState(item, table, map[1 := Get(key, Begin)]),
        LateState(item, table, map[1 := Get(key, Done(item))]);
      && Enabled(s, StartGet(1, key)) && t == Apply(s, StartGet(1, key))
      && Enabled(t, GetMoves(1, LookUp)) && u == Apply(t, GetMoves(1, LookUp))
  {
    var s, t := LateState(item, table, map[]), LateState(item, table, map[1 := Get(key, Begin)]);
    assert Apply(s, StartGet(1, key)).gets == t.gets;
    assert Apply(t, GetMoves(1, LookUp)).gets == LateState(item, table, map[1 := Get(key, Done(item))]).gets;
  }

  /** Deleting a model removes its instances' rows without invalidating, so an instance that was cached
      is served to calls that start after its row is gone. */
  lemma {:induction false} DeletedModelIsServed(item: Instance) returns (run: seq<State>, actions: seq<Action>)
    requires item.id == 0
    ensures IsRun(run, actions) && |run| == 9
    ensures 1 !in run[6].gets && run[6].table == map[] && run[6].writers == map[]
    ensures 1 in run[8].gets && run[8].gets[1].pc == Done(item)
  {
    var after := Apply(CachingState(item, 5), DeleteModel({0}));
    assert after.table == map[] && after.outdated == {item};
    assert after == LateState(item, map[], map[]);
    run, actions := ServedAfterChange(item, DeleteModel({0}), map[]);
  }

  /** An import whose claim was lost enables its instance without a notice, so a cached disabled instance is
      served as disabled to calls that start after its row is enabled. */
  lemma {:induction false} ReEnabledInstanceIsServedDisabled(item: Instance)
      returns (run: seq<State>, actions: seq<Action>)
    requires item.id == 0 && !item.enabled
    ensures IsRun(run, actions) && |run| == 9
    ensures 1 !in run[6].gets && run[6].table == map[0 := item.(enabled := true)] && run[6].writers == map[]
    ensures run[8].table == run[6].table && 1 in run[8].gets && run[8].gets[1].pc == Done(item)
  {
    var row := item.(enabled := true);
    var after := Apply(CachingState(item, 5), ImportEnables(0, false));
    assert after.table == map[0 := row] && after.outdated == {item};
    assert after == LateState(item, map[0 := row], map[]);
    run, actions := ServedAfterChange(item, ImportEnables(0, false), map[0 := row]);
  }
}
