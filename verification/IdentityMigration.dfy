/** The resource identity migration: every instance id is replaced by a fresh one, in the instances,
    in the seven tables that refer to them and in the key scopes; and every model gets a slug. */
module IdentityMigration {
  import opened Common
  import opened Text

  type Id = string

  // ----- fresh ids -----------------------------------------------------------------------------

  // The random ids still to come, all different.
  ghost predicate Injective(random: nat -> Id) { forall i, j :: i != j ==> random(i) != random(j) }

  /** Draws ids until one is unused; with distinct ids it needs at most one draw more than there are used ones. */
  method UniqueRandomUUID(random: nat -> Id, at: nat, used: set<Id>) returns (id: Id, next: nat)
    requires Injective(random)
    ensures id !in used && at < next <= at + |used| + 1 && id == random(next - 1)
    ensures forall i :: at <= i < next - 1 ==> random(i) in used
  {
    next := at;
    while random(next) in used
      invariant at <= next <= at + |used|
      invariant forall i :: at <= i < next ==> random(i) in used
      decreases at + |used| - next
    {
      DistinctMembersFit(seq(next + 1 - at, i requires 0 <= i => random(at + i)), used);
      next := next + 1;
    }
    id := random(next);
    next := next + 1;
  }

  function Elements(ids: seq<Id>): set<Id> { set x | x in ids }

  predicate Distinct(ids: seq<Id>) { forall i, j :: 0 <= i < j < |ids| ==> ids[i] != ids[j] }

  lemma {:induction false} ElementsSnoc(ids: seq<Id>, i: nat)
    requires i < |ids|
    ensures Elements(ids[..i + 1]) == Elements(ids[..i]) + {ids[i]}
    ensures Distinct(ids) ==> ids[i] !in Elements(ids[..i])
  {
    assert ids[..i + 1] == ids[..i] + [ids[i]];
  }

  // ----- the mapping -------------------------------------------------------------------------------

  type Mapping = map<Id, Id>

  predicate OneToOne(m: Mapping) { forall j, k :: j in m && k in m && m[j] == m[k] ==> j == k }

  // Which old ids the mapping has: every instance's, and every other reference's once trimmed.
  ghost predicate Covers(m: Mapping, instances: set<Id>, legacy: seq<Id>) {
    && (forall x :: x in instances ==> x in m)
    && (forall i :: 0 <= i < |legacy| && TrimSpace(legacy[i]) != "" ==> TrimSpace(legacy[i]) in m)
    && (forall x :: x in m && x !in instances ==> exists i :: 0 <= i < |legacy| && TrimSpace(legacy[i]) == x != "")
  }

  // The ids handed out so far.
  predicate Uses(m: Mapping, used: set<Id>) { used == m.Values }

  lemma {:induction false} Extended(m: Mapping, used: set<Id>, k: Id, id: Id)
    requires OneToOne(m) && Uses(m, used) && k !in m && id !in used
    ensures OneToOne(m[k := id]) && Uses(m[k := id], used + {id}) && m[k := id].Keys == m.Keys + {k}
  {
    var after := m[k := id];
    forall v | v in m.Values
      ensures v in after.Values
    {
      var j :| j in m && m[j] == v;
      assert after[j] == v;
    }
    assert after[k] == id;
    forall i, j | i in after && j in after && after[i] == after[j]
      ensures i == j
    {
      assert i in m ==> m[i] in m.Values;
      assert j in m ==> m[j] in m.Values;
    }
  }

  // The first n random ids.
  function Drawn(random: nat -> Id, n: nat): (ids: set<Id>)
    ensures forall k :: 0 <= k < n ==> random(k) in ids
    ensures forall id :: id in ids ==> exists k :: 0 <= k < n && random(k) == id
  {
    set k | 0 <= k < n :: random(k)
  }

  /** The i-th instance gets the i-th random id. */
  method MapInstances(random: nat -> Id, ids: seq<Id>) returns (m: Mapping, used: set<Id>, next: nat)
    requires Injective(random)
    requires Distinct(ids)
    ensures OneToOne(m) && m.Keys == Elements(ids) && Uses(m, used)
    ensures next == |ids| && forall i :: 0 <= i < |ids| ==> m[ids[i]] == random(i)
  {
    m, used, next := map[], {}, 0;
    assert OneToOne(m) && Uses(m, used);
    assert m.Keys == Elements(ids[..0]);
    DrawNone(random);
    hide OneToOne, Uses, Elements, Injective, Drawn;
    for i := 0 to |ids|
      invariant OneToOne(m) && Uses(m, used)
      invariant m.Keys == Elements(ids[..i]) && (forall j :: 0 <= j < i ==> ids[j] in m)
      invariant next == i && used == Drawn(random, i)
      invariant forall j :: 0 <= j < i ==> m[ids[j]] == random(j)
    {
      ElementsSnoc(ids, i);
      DrawOneMore(random, i);
      var id;
      id, next := UniqueRandomUUID(random, next, used);
      Extended(m, used, ids[i], id);
      m, used := m[ids[i] := id], used + {id};
    }
    assert ids[..|ids|] == ids;
  }

  lemma {:induction false} DrawNone(random: nat -> Id)
    ensures Drawn(random, 0) == {}
  {
  }

  lemma {:induction false} DrawOneMore(random: nat -> Id, n: nat)
    requires Injective(random)
    ensures random(n) !in Drawn(random, n) && Drawn(random, n + 1) == Drawn(random, n) + {random(n)}
  {
  }

  const Namespace: string := "llamarack:legacy-instance:"

  // Another old id has been given this new one.
  ghost predicate Taken(m: Mapping, x: Id, id: Id) { exists y :: y in m && y != x && m[y] == id }

  // A reference that is no instance's gets the deterministic id of its name, or a random one when that is taken.
  ghost predicate Assigned(m: Mapping, random: nat -> Id, deterministic: Id -> Id, first: nat, x: Id)
    requires x in m
  {
    var own := deterministic("llamarack:legacy-instance:" + x);
    && (m[x] == own <==> !Taken(m, x, own))
    && (m[x] != own ==> exists k: nat :: k >= first && m[x] == random(k))
  }

  lemma {:induction false} StaysAssigned(m: Mapping, random: nat -> Id, deterministic: Id -> Id, first: nat, x: Id,
      k: Id, id: Id)
    requires x in m && k !in m && id !in m.Values && Assigned(m, random, deterministic, first, x)
    ensures Assigned(m[k := id], random, deterministic, first, x)
  {
    var own := deterministic(Namespace + x);
    var after := m[k := id];
    assert m[x] in m.Values;
    if Taken(m, x, own) {
      var y :| y in m && y != x && m[y] == own;
      assert after[y] == own;
    }
    assert !Taken(m, x, own) ==> own in m.Values && id != own;
  }

  lemma {:induction false} NewlyAssigned(m: Mapping, random: nat -> Id, deterministic: Id -> Id, first: nat, k: Id,
      id: Id)
    requires k !in m && id !in m.Values
    requires var own := deterministic("llamarack:legacy-instance:" + k);
      if own in m.Values then exists j: nat :: j >= first && id == random(j) else id == own
    ensures Assigned(m[k := id], random, deterministic, first, k)
  {
    var own := deterministic(Namespace + k);
    var after := m[k := id];
    if own in m.Values {
      var y :| y in m && m[y] == own;
      assert after[y] == own && y != k;
    }
  }

  // Every reference that is no instance's has been assigned its id.
  ghost predicate AllAssigned(m: Mapping, random: nat -> Id, deterministic: Id -> Id, first: nat, instances: set<Id>) {
    forall x :: x in m && x !in instances ==> Assigned(m, random, deterministic, first, x)
  }

  lemma {:induction false} AssignedOneMore(m: Mapping, random: nat -> Id, deterministic: Id -> Id, first: nat,
        instances: set<Id>, k: Id, id: Id)
    requires AllAssigned(m, random, deterministic, first, instances) && k !in m && id !in m.Values
    requires var own := deterministic("llamarack:legacy-instance:" + k);
      if own in m.Values then exists j: nat :: j >= first && id == random(j) else id == own
    ensures AllAssigned(m[k := id], random, deterministic, first, instances)
  {
    hide Assigned;
    NewlyAssigned(m, random, deterministic, first, k, id);
    forall x | x in m && x !in instances
      ensures Assigned(m[k := id], random, deterministic, first, x)
    {
      StaysAssigned(m, random, deterministic, first, x, k, id);
    }
  }

  /** Instances get the first random ids; other references a deterministic one, unless it is already taken. */
  method BuildMapping(random: nat -> Id, deterministic: Id -> Id, ids: seq<Id>, legacy: seq<Id>) returns (m: Mapping)
    requires Injective(random)
    requires Distinct(ids)
    ensures OneToOne(m) && Covers(m, Elements(ids), legacy)
    ensures DrewInOrder(m, random, ids) && AllAssigned(m, random, deterministic, |ids|, Elements(ids))
  {
    hide OneToOne, Covers, Injective, TrimSpace, Distinct, Assigned;
    var used, next;
    m, used, next := MapInstances(random, ids);
    ghost var instances := Elements(ids);
    CoversInstances(m, instances);
    assert legacy[..0] == [];
    assert forall i :: 0 <= i < |ids| ==> ids[i] in instances;
    hide Elements;
    for i := 0 to |legacy|
      invariant OneToOne(m) && Uses(m, used) && next >= |ids|
      invariant Covers(m, instances, legacy[..i]) && AllAssigned(m, random, deterministic, |ids|, instances)
      invariant forall j :: 0 <= j < |ids| ==> ids[j] in m && m[ids[j]] == random(j)
    {
      var oldID := TrimSpace(legacy[i]);
      ghost var before := m;
      assert oldID in m ==> m.Keys == m.Keys + {oldID};
      if oldID != "" && oldID !in m {
        var id := deterministic("llamarack:legacy-instance:" + oldID);
        if id in used {
          id, next := UniqueRandomUUID(random, next, used);
        }
        Extended(m, used, oldID, id);
        AssignedOneMore(m, random, deterministic, |ids|, instances, oldID, id);
        m, used := m[oldID := id], used + {id};
      }
      CoversOneMore(before, m, instances, legacy, i);
    }
    assert legacy[..|legacy|] == legacy;
  }

  lemma {:induction false} CoversInstances(m: Mapping, instances: set<Id>)
    requires m.Keys == instances
    ensures Covers(m, instances, [])
  {
  }

  lemma {:induction false} CoversOneMore(m: Mapping, after: Mapping, instances: set<Id>, legacy: seq<Id>, i: nat)
    requires i < |legacy| && Covers(m, instances, legacy[..i])
    requires var x := TrimSpace(legacy[i]); after.Keys == if x == "" then m.Keys else m.Keys + {x}
    ensures Covers(after, instances, legacy[..i + 1])
  {
    hide TrimSpace;
    var shorter, longer := legacy[..i], legacy[..i + 1];
    assert longer == shorter + [legacy[i]];
    forall x | x in after && x !in instances
      ensures exists k :: 0 <= k < |longer| && TrimSpace(longer[k]) == x != ""
    {
      if x in m {
        var k :| 0 <= k < |shorter| && TrimSpace(shorter[k]) == x != "";
        assert TrimSpace(longer[k]) == x;
      } else {
        assert TrimSpace(longer[i]) == x;
      }
    }
  }

  // ----- rewriting references ----------------------------------------------------------------------

  // The simultaneous substitution of new ids for old ones.
  function Rename(m: Mapping, x: Id): Id { if x in m then m[x] else x }

  // Scope entries are trimmed before they are looked up.
  function RenameScope(m: Mapping, x: Id): Id { if TrimSpace(x) in m then m[TrimSpace(x)] else x }

  // What one UPDATE after the other makes of a reference.
  function Chained(order: seq<Id>, m: Mapping, x: Id): Id
    requires forall i :: 0 <= i < |order| ==> order[i] in m
  {
    if order == [] then x
    else
      var before := Chained(order[..|order| - 1], m, x);
      if before == Last(order) then m[Last(order)] else before
  }

  predicate IsOrder(order: seq<Id>, m: Mapping) {
    && Distinct(order) && (forall i :: 0 <= i < |order| ==> order[i] in m)
    && forall x :: x in m ==> x in order
  }

  // No new id is the old id of another reference.
  predicate Separate(m: Mapping) { forall k :: k in m ==> m[k] !in m || m[k] == k }

  lemma {:induction false} ChainedPrefix(order: seq<Id>, m: Mapping, x: Id)
    requires Separate(m) && Distinct(order) && forall i :: 0 <= i < |order| ==> order[i] in m
    ensures Chained(order, m, x) == if x in order then m[x] else x
  {
    if order != [] {
      var shorter := order[..|order| - 1];
      ChainedPrefix(shorter, m, x);
      assert order == shorter + [Last(order)];
    }
  }

  lemma {:induction false} SomeOrder(s: set<Id>) returns (order: seq<Id>)
    ensures Distinct(order) && forall x :: x in order <==> x in s
  {
    if s == {} {
      order := [];
    } else {
      var x :| x in s;
      var rest := SomeOrder(s - {x});
      order := rest + [x];
    }
  }

  // Once a reference has left a value that only k leads to, it never comes back.
  lemma {:induction false} NeverBack(order: seq<Id>, m: Mapping, x: Id, n: nat)
    requires OneToOne(m) && x in m && 0 < n <= |order| && forall i :: 0 <= i < |order| ==> order[i] in m
    requires forall i :: n <= i < |order| ==> order[i] != x
    requires Chained(order[..n], m, x) != m[x]
    ensures Chained(order, m, x) != m[x]
    decreases |order|
  {
    if n < |order| {
      var shorter := order[..|order| - 1];
      assert shorter[..n] == order[..n];
      NeverBack(shorter, m, x, n);
    } else {
      assert order[..n] == order;
    }
  }

  /** The sequential updates equal one simultaneous substitution in every order exactly when no new id is
      another reference's old id. */
  lemma {:induction false} SequentialIsSimultaneous(m: Mapping)
    requires OneToOne(m)
    ensures (forall order, x :: IsOrder(order, m) ==> Chained(order, m, x) == Rename(m, x)) <==> Separate(m)
  {
    if Separate(m) {
      forall order, x | IsOrder(order, m)
        ensures Chained(order, m, x) == Rename(m, x)
      {
        ChainedPrefix(order, m, x);
      }
    } else {
      var k :| k in m && m[k] in m && m[k] != k;
      WrongOrder(m, k);
    }
  }

  // Moving the new id's own old reference second sends k's reference astray.
  lemma {:induction false} WrongOrder(m: Mapping, k: Id)
    requires OneToOne(m) && k in m && m[k] in m && m[k] != k
    ensures exists order :: IsOrder(order, m) && Chained(order, m, k) != Rename(m, k)
  {
    var v := m[k];
    var rest := SomeOrder(m.Keys - {k, v});
    var order := [k, v] + rest;
    assert order[..2] == [k, v] && [k, v][..1] == [k] && [k][..0] == [];
    assert Chained([k], m, k) == v;
    assert Chained([k, v], m, k) == m[v];
    forall i | 0 <= i < |order|
      ensures order[i] in m && (2 <= i ==> order[i] != k)
    {
      assert 2 <= i ==> order[i] == rest[i - 2] && order[i] in rest;
    }
    NeverBack(order, m, k, 2);
    assert IsOrder(order, m);
    assert Chained(order, m, k) != Rename(m, k);
  }

  function ChainedColumn(order: seq<Id>, m: Mapping, column: seq<Id>): seq<Id>
    requires forall i :: 0 <= i < |order| ==> order[i] in m
  {
    seq(|column|, i requires 0 <= i < |column| => Chained(order, m, column[i]))
  }

  // UPDATE t SET instance_id=newID WHERE instance_id=oldID
  function Updated(column: seq<Id>, oldID: Id, newID: Id): seq<Id> {
    seq(|column|, i requires 0 <= i < |column| => if column[i] == oldID then newID else column[i])
  }

  lemma {:induction false} ChainedSnoc(order: seq<Id>, m: Mapping, column: seq<Id>, k: Id)
    requires (forall i :: 0 <= i < |order| ==> order[i] in m) && k in m
    ensures ChainedColumn(order + [k], m, column) == Updated(ChainedColumn(order, m, column), k, m[k])
  {
    assert (order + [k])[..|order|] == order;
  }

  type Columns = seq<seq<Id>>

  // The seven tables with an instance_id column; inference_requests is the second.
  const TableCount: nat := 7
  const InferenceRequests: nat := 1

  method RewriteReferences(m: Mapping, columns: Columns) returns (after: Columns, ghost order: seq<Id>)
    ensures IsOrder(order, m) && |after| == |columns|
    ensures forall t :: 0 <= t < |columns| ==> after[t] == ChainedColumn(order, m, columns[t])
  {
    after, order := columns, [];
    var keys := m.Keys;
    while keys != {}
      invariant Distinct(order) && forall x :: x in order <==> x in m && x !in keys
      invariant keys <= m.Keys && |after| == |columns|
      invariant forall t :: 0 <= t < |columns| ==> after[t] == ChainedColumn(order, m, columns[t])
      decreases |keys|
    {
      var k :| k in keys;
      keys := keys - {k};
      for t := 0 to |columns|
        invariant |after| == |columns|
        invariant forall u :: t <= u < |columns| ==> after[u] == ChainedColumn(order, m, columns[u])
        invariant forall u :: 0 <= u < t ==> after[u] == ChainedColumn(order + [k], m, columns[u])
      {
        ChainedSnoc(order, m, columns[t], k);
        after := after[t := Updated(after[t], k, m[k])];
      }
      order := order + [k];
    }
  }

  predicate ScopeRenamed(m: Mapping, ids: seq<Id>, after: seq<Id>) {
    |after| == |ids| && forall i :: 0 <= i < |ids| ==> after[i] == RenameScope(m, ids[i])
  }

  method RewriteScopes(m: Mapping, scopes: seq<seq<Id>>) returns (after: seq<seq<Id>>)
    ensures |after| == |scopes|
    ensures forall s :: 0 <= s < |scopes| ==> ScopeRenamed(m, scopes[s], after[s])
  {
    hide ScopeRenamed, TrimSpace;
    after := scopes;
    for s := 0 to |scopes|
      invariant |after| == |scopes|
      invariant forall u :: s <= u < |scopes| ==> after[u] == scopes[u]
      invariant forall u :: 0 <= u < s ==> ScopeRenamed(m, scopes[u], after[u])
    {
      var ids := RewriteScope(m, after[s]);
      after := after[s := ids];
    }
  }

  method RewriteScope(m: Mapping, scope: seq<Id>) returns (ids: seq<Id>)
    ensures ScopeRenamed(m, scope, ids)
  {
    hide TrimSpace;
    ids := scope;
    for i := 0 to |ids|
      invariant |ids| == |scope|
      invariant forall j :: i <= j < |ids| ==> ids[j] == scope[j]
      invariant forall j :: 0 <= j < i ==> ids[j] == RenameScope(m, scope[j])
    {
      if TrimSpace(ids[i]) in m {
        ids := ids[i := m[TrimSpace(ids[i])]];
      }
    }
  }

  method CollectLegacyInstanceIDs(columns: Columns) returns (ids: seq<Id>)
    ensures forall x :: x in ids <==> x != "" && exists t :: 0 <= t < |columns| && x in columns[t]
  {
    var seen: set<Id> := {};
    for t := 0 to |columns|
      invariant forall x :: x in seen <==> x != "" && exists u :: 0 <= u < t && x in columns[u]
    {
      seen := seen + set x | x in columns[t] && x != "" :: x;
    }
    ids := [];
    var left := seen;
    while left != {}
      invariant left <= seen && forall x :: x in ids <==> x in seen && x !in left
      decreases |left|
    {
      var x :| x in left;
      ids, left := ids + [x], left - {x};
    }
  }

  // ----- the whole migration -------------------------------------------------------------------------

  // A row of the instances table; `details` stands for the columns that are copied.
  datatype Instance = Instance(slug: Option<string>, details: nat)

  type Instances = map<Id, Instance>

  // The rows come back under their new ids, each with its old id as its slug.
  ghost predicate Moved(m: Mapping, instances: Instances, after: Instances) {
    && (forall x :: x in instances ==>
        x in m && m[x] in after && after[m[x]] == Instance(Some(x), instances[x].details))
    && forall y :: y in after ==> exists x :: x in instances && m[x] == y
  }

  predicate RowMoved(m: Mapping, instances: Instances, after: Instances, x: Id) {
    x in instances && x in m && m[x] !in instances && m[x] in after
        && after[m[x]] == Instance(Some(x), instances[x].details)
  }

  ghost predicate CameFrom(m: Mapping, done: set<Id>, y: Id) { exists x :: x in done && x in m && m[x] == y }

  // The new rows beside the old ones.
  ghost predicate Inserted(m: Mapping, instances: Instances, after: Instances, done: set<Id>) {
    && (forall x :: x in instances ==> x in after && after[x] == instances[x])
    && (forall x :: x in done ==> RowMoved(m, instances, after, x))
    && (forall y :: y in after && y !in instances ==> CameFrom(m, done, y))
  }

  lemma {:induction false} InsertOne(m: Mapping, instances: Instances, after: Instances, done: set<Id>, x: Id)
    requires OneToOne(m) && Inserted(m, instances, after, done) && done <= instances.Keys <= m.Keys && x in instances
        && x !in done
    ensures m[x] in after <==> m[x] in instances
    ensures m[x] !in instances ==>
        Inserted(m, instances, after[m[x] := Instance(Some(x), instances[x].details)], done + {x})
  {
    assert m[x] in after && m[x] !in instances ==> CameFrom(m, done, m[x]);
    if m[x] !in instances {
      var grown, more := after[m[x] := Instance(Some(x), instances[x].details)], done + {x};
      forall k | k in done
        ensures RowMoved(m, instances, grown, k)
      {
        assert RowMoved(m, instances, after, k) && m[k] != m[x];
      }
      assert RowMoved(m, instances, grown, x);
      forall y | y in grown && y !in instances
        ensures CameFrom(m, more, y)
      {
        if y == m[x] {
          assert x in more;
        } else {
          assert CameFrom(m, done, y);
          var k :| k in done && k in m && m[k] == y;
          assert k in more;
        }
      }
      hide RowMoved, CameFrom, OneToOne;
    }
  }

  method InsertNew(m: Mapping, ids: seq<Id>, instances: Instances) returns (ok: bool, after: Instances)
    requires OneToOne(m) && Distinct(ids) && Elements(ids) == instances.Keys <= m.Keys
    ensures ok <==> forall x :: x in instances ==> m[x] !in instances
    ensures ok ==> Inserted(m, instances, after, instances.Keys)
  {
    hide OneToOne, Distinct;
    after := instances;
    assert Inserted(m, instances, after, Elements(ids[..0]));
    hide Inserted;
    for i := 0 to |ids|
      invariant Inserted(m, instances, after, Elements(ids[..i]))
      invariant forall x :: x in Elements(ids[..i]) ==> x in instances && m[x] !in instances
    {
      ElementsSnoc(ids, i);
      assert ids[i] in Elements(ids) && Elements(ids[..i]) <= Elements(ids);
      InsertOne(m, instances, after, Elements(ids[..i]), ids[i]);
      var newID := m[ids[i]];
      if newID in after {
        return false, instances;
      }
      after := after[newID := Instance(Some(ids[i]), instances[ids[i]].details)];
    }
    assert ids[..|ids|] == ids;
    ok := true;
  }

  method DeleteOld(ids: seq<Id>, instances: Instances) returns (after: Instances)
    ensures after == instances - Elements(ids)
  {
    after := instances;
    for i := 0 to |ids|
      invariant after == instances - Elements(ids[..i])
    {
      ElementsSnoc(ids, i);
      after := after - {ids[i]};
    }
    assert ids[..|ids|] == ids;
  }

  /** Inserting fails on a primary key already in use; otherwise every row ends under its new id. */
  method MoveInstances(m: Mapping, ids: seq<Id>, instances: Instances) returns (ok: bool, after: Instances)
    requires OneToOne(m) && Distinct(ids) && Elements(ids) == instances.Keys <= m.Keys
    ensures ok <==> forall x :: x in instances ==> m[x] !in instances
    ensures ok ==> Moved(m, instances, after)
  {
    ok, after := InsertNew(m, ids, instances);
    if ok {
      ghost var grown := after;
      after := DeleteOld(ids, after);
      hide Elements, Distinct, OneToOne;
      assert forall x :: x in instances ==> RowMoved(m, instances, grown, x);
      forall y | y in after
        ensures exists x :: x in instances && m[x] == y
      {
        assert y in grown && y !in instances;
        assert CameFrom(m, instances.Keys, y);
      }
    }
  }

  /** The database columns the migration touches, changed in one transaction. */
  class Database {
    var instances: Instances
    var columns: Columns
    var modelSlugs: seq<string>          // inference_requests.model_slug, row by row
    var scopes: seq<seq<Id>>             // api_keys.instance_ids, key by key

    constructor (instances: Instances, columns: Columns, scopes: seq<seq<Id>>)
      ensures this.instances == instances && this.columns == columns && this.scopes == scopes && modelSlugs == []
    {
      this.instances, this.columns, this.scopes, modelSlugs := instances, columns, scopes, [];
    }

    method Migrate(random: nat -> Id, deterministic: Id -> Id)
        returns (ok: bool, ghost m: Mapping, ghost order: seq<Id>)
      requires Injective(random) && |columns| == TableCount
      modifies this
      ensures OneToOne(m) && (ok ==> IsOrder(order, m))
      ensures forall x :: (x in old(instances) || Referenced(old(columns), x)) ==>
          (x in m <==> x in old(instances) || TrimSpace(x) == x)
      ensures forall s, i ::
          0 <= s < |old(scopes)| && 0 <= i < |old(scopes)[s]|
          && TrimSpace(old(scopes)[s][i]) != "" ==>
          TrimSpace(old(scopes)[s][i]) in m
      ensures ok <==> forall k: nat :: k < |old(instances)| ==> random(k) !in old(instances)
      ensures forall x :: x in old(instances) ==> x in m && m[x] in Drawn(random, |old(instances)|)
      ensures AllAssigned(m, random, deterministic, |old(instances)|, old(instances.Keys))
      ensures ok ==> instances.Keys == Drawn(random, |old(instances)|)
      ensures ok ==> Moved(m, old(instances), instances)
      ensures ok ==> |columns| == TableCount && forall t :: 0 <= t < TableCount ==>
          columns[t] == ChainedColumn(order, m, old(columns)[t])
      ensures ok ==> modelSlugs == old(columns)[InferenceRequests]
      ensures ok ==> |scopes| == |old(scopes)| && forall s :: 0 <= s < |scopes| ==>
          ScopeRenamed(m, old(scopes)[s], scopes[s])
      ensures !ok ==>
          instances == old(instances) && columns == old(columns) && scopes == old(scopes)
          && modelSlugs == old(modelSlugs)
    {
      hide OneToOne, Injective, IsOrder, TrimSpace, Moved, ScopeRenamed, Drawn, AllAssigned, Covers, Appended;
      hide ChainedColumn, Elements, Distinct, DrewInOrder;
      var ids := ListIDs(instances);
      var legacy := CollectLegacyInstanceIDs(columns);
      ghost var tableRefs := legacy;
      legacy := AppendScopes(legacy, scopes);
      var mapping := BuildMapping(random, deterministic, ids, legacy);
      m := mapping;
      CoverageOf(m, instances.Keys, columns, tableRefs, scopes, legacy);
      AllDrawn(m, random, ids, instances);
      var moved;
      ok, moved := MoveInstances(mapping, ids, instances);
      MovedToDrawn(m, random, ids, instances, ok, moved);
      if !ok {
        order := [];
        return;
      }
      var rewritten;
      rewritten, order := RewriteReferences(mapping, columns);
      modelSlugs := columns[InferenceRequests];
      var renamed := RewriteScopes(mapping, scopes);
      instances, columns, scopes := moved, rewritten, renamed;
    }
  }

  // The i-th instance has the i-th random id.
  ghost predicate DrewInOrder(m: Mapping, random: nat -> Id, ids: seq<Id>) {
    forall i :: 0 <= i < |ids| ==> ids[i] in m && m[ids[i]] == random(i)
  }

  lemma {:induction false} DrawOf(m: Mapping, random: nat -> Id, ids: seq<Id>, x: Id) returns (k: nat)
    requires DrewInOrder(m, random, ids) && x in Elements(ids)
    ensures k < |ids| && x in m && m[x] == random(k) && m[x] in Drawn(random, |ids|)
  {
    k :| 0 <= k < |ids| && ids[k] == x;
  }

  // The ids are free exactly when no draw is an instance's old id, and then the rows move to the draws.
  lemma {:induction false} MovedToDrawn(m: Mapping, random: nat -> Id, ids: seq<Id>, instances: Instances, ok: bool,
        moved: Instances)
    requires DrewInOrder(m, random, ids) && Elements(ids) == instances.Keys && |ids| == |instances|
    requires forall x :: x in instances ==> x in m
    requires ok <==> forall x :: x in instances ==> m[x] !in instances
    requires ok ==> Moved(m, instances, moved)
    ensures ok <==> forall k: nat :: k < |instances| ==> random(k) !in instances
    ensures ok ==> moved.Keys == Drawn(random, |instances|)
  {
    hide Elements;
    forall k: nat | k < |instances| && random(k) in instances
      ensures !ok
    {
      InElements(ids, k);
      assert m[ids[k]] == random(k);
    }
    if !ok {
      var x :| x in instances && m[x] in instances;
      var k := DrawOf(m, random, ids, x);
      assert random(k) in instances;
    } else {
      MovedKeys(m, random, ids, instances, moved);
    }
  }

  lemma {:induction false} InElements(ids: seq<Id>, k: nat)
    requires k < |ids|
    ensures ids[k] in Elements(ids)
  {
  }

  lemma {:induction false} MovedKeys(m: Mapping, random: nat -> Id, ids: seq<Id>, instances: Instances,
      moved: Instances)
    requires DrewInOrder(m, random, ids) && Elements(ids) == instances.Keys && Moved(m, instances, moved)
    ensures moved.Keys == Drawn(random, |ids|)
  {
    hide Elements;
    forall id | id in Drawn(random, |ids|)
      ensures id in moved
    {
      var k :| 0 <= k < |ids| && random(k) == id;
      InElements(ids, k);
      assert m[ids[k]] == id;
    }
    forall id | id in moved
      ensures id in Drawn(random, |ids|)
    {
      var x :| x in instances && m[x] == id;
      var k := DrawOf(m, random, ids, x);
    }
  }

  lemma {:induction false} AllDrawn(m: Mapping, random: nat -> Id, ids: seq<Id>, instances: Instances)
    requires DrewInOrder(m, random, ids) && Elements(ids) == instances.Keys && Distinct(ids)
    ensures |ids| == |instances| && forall x :: x in instances ==> x in m && m[x] in Drawn(random, |ids|)
  {
    DistinctCount(ids);
    hide Elements, Drawn, DrewInOrder;
    forall x | x in instances
      ensures x in m && m[x] in Drawn(random, |ids|)
    {
      var k := DrawOf(m, random, ids, x);
    }
  }

  lemma {:induction false} DistinctCount(ids: seq<Id>)
    requires Distinct(ids)
    ensures |Elements(ids)| == |ids|
  {
    if ids != [] {
      DistinctCount(ids[..|ids| - 1]);
      ElementsSnoc(ids, |ids| - 1);
      assert ids[..|ids|] == ids;
    }
  }

  ghost predicate Referenced(columns: Columns, x: Id) { x != "" && exists t :: 0 <= t < |columns| && x in columns[t] }

  method ListIDs(instances: Instances) returns (ids: seq<Id>)
    ensures Distinct(ids) && Elements(ids) == instances.Keys
  {
    ids := [];
    var left := instances.Keys;
    while left != {}
      invariant left <= instances.Keys && Distinct(ids) && forall x :: x in ids <==> x in instances && x !in left
      decreases |left|
    {
      var x :| x in left;
      ids, left := ids + [x], left - {x};
    }
  }

  // The references of the tables, then those of the scopes.
  ghost predicate Appended(ids: seq<Id>, scopes: seq<seq<Id>>, all: seq<Id>) {
    && |ids| <= |all| && all[..|ids|] == ids
    && (forall s, i :: 0 <= s < |scopes| && 0 <= i < |scopes[s]| ==> scopes[s][i] in all)
    && forall k :: |ids| <= k < |all| ==> exists s :: 0 <= s < |scopes| && all[k] in scopes[s]
  }

  lemma {:induction false} AppendedOne(ids: seq<Id>, scopes: seq<seq<Id>>, all: seq<Id>, s: nat)
    requires s < |scopes| && Appended(ids, scopes[..s], all)
    ensures Appended(ids, scopes[..s + 1], all + scopes[s])
  {
    var shorter, longer, more := scopes[..s], scopes[..s + 1], all + scopes[s];
    assert more[..|ids|] == ids;
    forall u, i | 0 <= u < |longer| && 0 <= i < |longer[u]|
      ensures longer[u][i] in more
    {
      if u < s {
        assert longer[u] == shorter[u];
      } else {
        assert more[|all| + i] == longer[u][i];
      }
    }
    forall k | |ids| <= k < |more|
      ensures exists u :: 0 <= u < |longer| && more[k] in longer[u]
    {
      if k < |all| {
        var u :| 0 <= u < |shorter| && all[k] in shorter[u];
        assert more[k] in longer[u];
      } else {
        assert more[k] == scopes[s][k - |all|] && more[k] in longer[s];
      }
    }
  }

  method AppendScopes(ids: seq<Id>, scopes: seq<seq<Id>>) returns (all: seq<Id>)
    ensures Appended(ids, scopes, all)
  {
    all := ids;
    assert all[..|ids|] == ids;
    for s := 0 to |scopes|
      invariant Appended(ids, scopes[..s], all)
    {
      AppendedOne(ids, scopes, all, s);
      all := all + scopes[s];
    }
    assert scopes[..|scopes|] == scopes;
  }

  /** A reference is covered exactly when it is an instance's id or has no white space around it. */
  lemma {:induction false} CoverageOf(m: Mapping, instances: set<Id>, columns: Columns, ids: seq<Id>,
        scopes: seq<seq<Id>>, legacy: seq<Id>)
    requires Covers(m, instances, legacy) && Appended(ids, scopes, legacy)
    requires forall x :: x in ids <==> Referenced(columns, x)
    ensures forall x :: x in instances || Referenced(columns, x) ==> (x in m <==> x in instances || TrimSpace(x) == x)
    ensures forall s, i :: 0 <= s < |scopes| && 0 <= i < |scopes[s]| && TrimSpace(scopes[s][i]) != "" ==>
        TrimSpace(scopes[s][i]) in m
  {
    hide TrimSpace;
    forall x | x in legacy
      ensures TrimSpace(x) != "" ==> TrimSpace(x) in m
    {
      var k :| 0 <= k < |legacy| && legacy[k] == x;
    }
    forall x | x in ids
      ensures x in legacy
    {
      var k :| 0 <= k < |ids| && ids[k] == x;
      assert legacy[..|ids|][k] == x;
    }
    forall x | x in m && x !in instances
      ensures TrimSpace(x) == x
    {
      var k :| 0 <= k < |legacy| && TrimSpace(legacy[k]) == x != "";
      TrimIsIdempotent(legacy[k]);
    }
  }

  // ----- what the migration preserves -----------------------------------------------------------------

  // No new id was in use before, neither as an id nor as a reference.
  ghost predicate Unseen(m: Mapping, refs: set<Id>) { forall k :: k in m ==> m[k] !in m && m[k] !in refs }

  /** Whatever order the updates were made in, two references of the tables are equal afterwards exactly
      when they were equal before. */
  lemma {:induction false} ReferencesKeepApart(m: Mapping, order: seq<Id>, refs: set<Id>, x: Id, y: Id)
    requires OneToOne(m) && IsOrder(order, m) && Unseen(m, refs) && x in refs && y in refs
    ensures Chained(order, m, x) == Chained(order, m, y) <==> x == y
  {
    ChainedPrefix(order, m, x);
    ChainedPrefix(order, m, y);
  }

  /** A reference to an instance leads to that instance's row afterwards, whose slug is the old id; what led to
      no instance still leads to none; and a key scope's entry goes with the table references exactly when
      the id has no white space around it. */
  lemma {:induction false} ReferencesFollowTheirInstance(m: Mapping, order: seq<Id>, before: Instances,
        after: Instances, refs: set<Id>, x: Id)
    requires OneToOne(m) && IsOrder(order, m) && Unseen(m, refs) && Moved(m, before, after) && x in refs
    ensures var y := Chained(order, m, x);
      && (x in before <==> y in after)
      && (x in before ==> after[y] == Instance(Some(x), before[x].details))
      && (x in before ==> (RenameScope(m, x) == y <==> TrimSpace(x) == x))
  {
    ChainedPrefix(order, m, x);
    var y := Chained(order, m, x);
    hide TrimSpace;
    if y in after {
      var k :| k in before && m[k] == y;
    }
  }

  /** The instance " a" and a key scope that names it: the trimmed entry gets an id of its own, which leads to
      no instance, while a table's reference leads to the moved row. */
  lemma {:induction false} SpacedIdGoesAstray(u: Id, v: Id, details: nat)
    requires u != v && u !in {" a", "a"} && v !in {" a", "a"}
    ensures var m, order := map[" a" := u, "a" := v], [" a", "a"];
      var before, after := map[" a" := Instance(None, details)], map[u := Instance(Some(" a"), details)];
      && Covers(m, before.Keys, [" a"]) && OneToOne(m) && IsOrder(order, m) && Unseen(m, {" a"})
          && Moved(m, before, after)
      && Chained(order, m, " a") in after && RenameScope(m, " a") !in after
  {
    var m, order := map[" a" := u, "a" := v], [" a", "a"];
    SpaceIsTrimmed();
    hide TrimSpace;
    assert [" a"][0] == " a";
    assert order[0] == " a" && order[1] == "a";
    assert m[" a"] == u;
    ChainedPrefix(order, m, " a");
  }

  lemma {:induction false} SpaceIsTrimmed()
    ensures TrimSpace(" a") == "a"
  {
    assert SpaceAtStart(" a") == 1 && " a"[1..] == "a";
    assert SpaceAtStart("a") == 0 && SpaceAtEnd("a") == 0;
    hide SpaceAtStart, SpaceAtEnd;
  }

  // ----- model slugs ------------------------------------------------------------------------------------

  function SlugBase(slugify: string -> string, name: string): string {
    if slugify(name) == "" then "model" else slugify(name)
  }

  function Candidate(base: string, n: nat): string
    requires n >= 1
  {
    if n == 1 then base else base + "-" + FormatInt(n)
  }

  lemma {:induction false} CandidatesDiffer(base: string, i: nat, j: nat)
    requires 1 <= i < j
    ensures Candidate(base, i) != Candidate(base, j)
  {
    assert |Candidate(base, j)| > |base|;
    if i > 1 && Candidate(base, i) == Candidate(base, j) {
      assert Candidate(base, i)[|base| + 1..] == FormatInt(i) && Candidate(base, j)[|base| + 1..] == FormatInt(j);
      DigitsInjective(i, j);
    }
  }

  // The first candidates are all taken: then there are at least as many taken slugs.
  lemma {:induction false} TakenCandidates(base: string, n: nat, used: set<string>)
    requires forall i :: 1 <= i <= n ==> Candidate(base, i) in used
    ensures n <= |used|
  {
    var taken := seq(n, i requires 0 <= i < n => Candidate(base, i + 1));
    forall i, j | 0 <= i < j < n
      ensures taken[i] != taken[j]
    {
      CandidatesDiffer(base, i + 1, j + 1);
    }
    DistinctMembersFit(taken, used);
  }

  // The slug a model gets: the first candidate that no earlier model has.
  ghost predicate FirstFree(base: string, slug: string, used: set<string>) {
    exists n :: 1 <= n <= |used| + 1 && slug == Candidate(base, n) && slug !in used
                && forall i :: 1 <= i < n ==> Candidate(base, i) in used
  }

  method FreeSlug(base: string, used: set<string>) returns (slug: string)
    ensures slug !in used && FirstFree(base, slug, used)
  {
    slug := base;
    var suffix := 2;
    while slug in used
      invariant 2 <= suffix && slug == Candidate(base, suffix - 1)
      invariant forall i :: 1 <= i < suffix - 1 ==> Candidate(base, i) in used
      decreases |used| + 2 - suffix
    {
      TakenCandidates(base, suffix - 1, used);
      slug := base + "-" + FormatInt(suffix);
      suffix := suffix + 1;
    }
    TakenCandidates(base, suffix - 2, used);
  }

  // Each slug is the first one that was free when its model's turn came.
  ghost predicate FreeInTurn(slugify: string -> string, names: seq<string>, slugs: seq<string>)
    requires |slugs| <= |names|
  {
    forall i :: 0 <= i < |slugs| ==> FirstFree(SlugBase(slugify, names[i]), slugs[i], Elements(slugs[..i]))
  }

  lemma {:induction false} NextSlug(slugify: string -> string, names: seq<string>, slugs: seq<string>, slug: string)
    requires |slugs| < |names| && Distinct(slugs) && FreeInTurn(slugify, names, slugs)
    requires slug !in slugs && FirstFree(SlugBase(slugify, names[|slugs|]), slug, Elements(slugs))
    ensures Distinct(slugs + [slug]) && FreeInTurn(slugify, names, slugs + [slug])
    ensures Elements(slugs + [slug]) == Elements(slugs) + {slug}
  {
    hide FirstFree, SlugBase;
    var more := slugs + [slug];
    forall i | 0 <= i < |more|
      ensures FirstFree(SlugBase(slugify, names[i]), more[i], Elements(more[..i]))
    {
      if i < |slugs| {
        assert more[..i] == slugs[..i];
      } else {
        assert more[..i] == slugs;
      }
    }
  }

  /** Every model gets a slug that no other model has: the first free one derived from its name. */
  method BackfillModelSlugs(slugify: string -> string, names: seq<string>) returns (slugs: seq<string>)
    ensures |slugs| == |names| && Distinct(slugs)
    ensures FreeInTurn(slugify, names, slugs)
  {
    slugs := [];
    var used: set<string> := {};
    assert used == Elements(slugs);
    for k := 0 to |names|
      invariant |slugs| == k && Distinct(slugs) && used == Elements(slugs)
      invariant FreeInTurn(slugify, names, slugs)
    {
      hide FirstFree, FreeInTurn, Distinct;
      var base := slugify(names[k]);
      if base == "" {
        base := "model";
      }
      var slug := FreeSlug(base, used);
      NextSlug(slugify, names, slugs, slug);
      slugs, used := slugs + [slug], used + {slug};
    }
  }
}
