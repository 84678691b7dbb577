/** The bounded table of one-time WebSocket tickets: issuing purges, evicts per session and globally,
    then inserts; consuming takes a ticket out for good. */
module Tickets {
  import opened Common
  import opened Text

  type Key = string
  type SessionID = string

  datatype Ticket = Ticket(session: SessionID, jti: string, expires: int)

  type Table = map<Key, Ticket>

  const PerSession: nat := 8
  const Global: nat := 1024

  // ----- what eviction leaves ---------------------------------------------------------------------

  function Purged(table: Table, now: int): Table { map k | k in table && table[k].expires > now :: table[k] }

  function KeysOf(table: Table, session: SessionID): set<Key> { set k | k in table && table[k].session == session }

  ghost predicate Sub(after: Table, before: Table) { forall k :: k in after ==> k in before && after[k] == before[k] }

  // Whatever was taken out of these keys expires no later than whatever stayed.
  ghost predicate SoonestFirst(before: Table, after: Table, keys: set<Key>) {
    forall gone, kept ::
        gone in keys && gone in before && gone !in after && kept in keys && kept in before
        && kept in after ==>
      before[gone].expires <= before[kept].expires
  }

  function Min(a: nat, b: nat): nat { if a < b then a else b }

  /** Room for one more ticket of the session: only its soonest-expiring tickets went, and no more than needed. */
  ghost predicate RoomForSession(before: Table, session: SessionID, after: Table) {
    && Sub(after, before)
    && (forall k :: k in before && before[k].session != session ==> k in after)
    && |KeysOf(after, session)| == Min(|KeysOf(before, session)|, PerSession - 1)
    && SoonestFirst(before, after, KeysOf(before, session))
  }

  /** Room for one more ticket at all: only the soonest-expiring tickets went, and no more than needed. */
  ghost predicate RoomAtAll(before: Table, after: Table) {
    Sub(after, before) && |after| == Min(|before|, Global - 1) && SoonestFirst(before, after, before.Keys)
  }

  // The tables between the three phases of an issue.
  ghost predicate Issued(before: Table, key: Key, ticket: Ticket, now: int, after: Table) {
    exists trimmed, room ::
      RoomForSession(Purged(before, now), ticket.session, trimmed) && RoomAtAll(trimmed, room)
          && after == room[key := ticket]
  }

  lemma {:induction false} RemoveSoonest(start: Table, before: Table, keys: set<Key>, k: Key)
    requires Sub(before, start) && SoonestFirst(start, before, keys) && k in before && k in keys
    requires forall j :: j in before && j in keys ==> before[k].expires <= before[j].expires
    ensures Sub(before - {k}, start) && SoonestFirst(start, before - {k}, keys)
  {
    forall gone, kept | gone in keys && gone in start && gone !in before - {k} && kept in keys && kept in start
        && kept in before - {k}
      ensures start[gone].expires <= start[kept].expires
    {
      if gone in before {
        assert gone == k;
      }
    }
  }

  class TicketTable {
    var tickets: Table

    constructor ()
      ensures tickets == map[]
    {
      tickets := map[];
    }

    method PurgeExpired(now: int)
      modifies this
      ensures tickets == Purged(old(tickets), now)
    {
      var left := tickets.Keys;
      ghost var before := tickets;
      while left != {}
        invariant left <= before.Keys && Sub(tickets, before)
        invariant forall k :: k in before ==> (k in tickets <==> k in left || before[k].expires > now)
        decreases |left|
      {
        var key :| key in left;
        left := left - {key};
        if tickets[key].expires <= now {
          tickets := tickets - {key};
        }
      }
    }

    // Counts the session's tickets (or all of them) and finds the one that expires soonest.
    method Soonest(keys: set<Key>) returns (count: nat, soonest: Option<Key>)
      requires keys <= tickets.Keys
      ensures count == |keys| && (soonest.Some? <==> keys != {})
      ensures soonest.Some? ==> soonest.value in keys && forall k :: k in keys ==>
          tickets[soonest.value].expires <= tickets[k].expires
    {
      count, soonest := 0, None;
      var left := keys;
      while left != {}
        invariant left <= keys && count == |keys| - |left|
        invariant soonest.Some? <==> left != keys
        invariant soonest.Some? ==> soonest.value in keys && forall k :: k in keys && k !in left ==>
            tickets[soonest.value].expires <= tickets[k].expires
        decreases |left|
      {
        var key :| key in left;
        left := left - {key};
        count := count + 1;
        if soonest.None? || tickets[key].expires < tickets[soonest.value].expires {
          soonest := Some(key);
        }
      }
    }

    method EvictForSession(session: SessionID)
      modifies this
      ensures RoomForSession(old(tickets), session, tickets)
    {
      ghost var before := tickets;
      while true
        invariant Sub(tickets, before) && SoonestFirst(before, tickets, KeysOf(before, session))
        invariant forall k :: k in before && before[k].session != session ==> k in tickets
        invariant KeysOf(tickets, session) <= KeysOf(before, session)
        invariant |KeysOf(tickets, session)| >= Min(|KeysOf(before, session)|, PerSession - 1)
        decreases |KeysOf(tickets, session)|
      {
        var keys := KeysOf(tickets, session);
        var count, soonest := Soonest(keys);
        if count < PerSession {
          SubsetIsSmaller(keys, KeysOf(before, session));
          break;
        }
        var key := soonest.value;
        RemoveSoonest(before, tickets, KeysOf(before, session), key);
        assert KeysOf(tickets - {key}, session) == keys - {key};
        tickets := tickets - {key};
      }
    }

    method EvictGlobal()
      modifies this
      ensures RoomAtAll(old(tickets), tickets)
    {
      ghost var before := tickets;
      while |tickets| >= Global
        invariant Sub(tickets, before) && SoonestFirst(before, tickets, before.Keys)
        invariant Min(|before|, Global - 1) <= |tickets| <= |before|
        decreases |tickets|
      {
        var count, soonest := Soonest(tickets.Keys);
        assert |tickets.Keys| == |tickets|;
        if soonest.None? {
          break;
        }
        RemoveSoonest(before, tickets, before.Keys, soonest.value);
        assert (tickets - {soonest.value}).Keys == tickets.Keys - {soonest.value};
        assert |(tickets - {soonest.value}).Keys| == |tickets - {soonest.value}|;
        tickets := tickets - {soonest.value};
      }
    }

    method IssueWebSocketTicket(key: Key, ticket: Ticket, now: int)
      modifies this
      ensures Issued(old(tickets), key, ticket, now, tickets)
    {
      PurgeExpired(now);
      EvictForSession(ticket.session);
      ghost var trimmed := tickets;
      EvictGlobal();
      ghost var room := tickets;
      tickets := tickets[key := ticket];
      assert RoomForSession(Purged(old(tickets), now), ticket.session, trimmed) && RoomAtAll(trimmed, room);
    }

    method ConsumeWebSocketTicket(raw: string, now: int) returns (ticket: Option<Ticket>)
      modifies this
      ensures ticket == Redeemed(old(tickets), raw, now)
      ensures ticket.Some? <==>
          TrimSpace(raw) != "" && TrimSpace(raw) in old(tickets) && now < old(tickets)[TrimSpace(raw)].expires
      ensures ticket.Some? ==> ticket.value == old(tickets)[TrimSpace(raw)]
      ensures tickets == if TrimSpace(raw) == "" then old(tickets) else old(tickets) - {TrimSpace(raw)}
    {
      hide TrimSpace;
      var key := TrimSpace(raw);
      if key == "" {
        return None;
      }
      if key !in tickets {
        assert tickets - {key} == tickets;
        return None;
      }
      var item := tickets[key];
      tickets := tickets - {key};
      ticket := if item.expires <= now then None else Some(item);
    }
  }

  function Redeemed(table: Table, raw: string, now: int): Option<Ticket> {
    var key := TrimSpace(raw);
    if key == "" || key !in table || table[key].expires <= now then None else Some(table[key])
  }

  // ----- the table over every run --------------------------------------------------------------------

  // `issued` remembers every ticket ever handed out.
  datatype State = State(tickets: Table, issued: Table)

  datatype Action = Issue(key: Key, ticket: Ticket, now: int) | Consume(raw: string, now: int)

  // Random tickets are new; the choice among tickets that expire together is left open.
  ghost predicate Next(s: State, a: Action, after: State) {
    match a
    case Issue(key, ticket, now) =>
      key !in s.issued && key != "" && Issued(s.tickets, key, ticket, now, after.tickets)
          && after.issued == s.issued[key := ticket]
    case Consume(raw, now) =>
      after == s.(tickets := if TrimSpace(raw) == "" then s.tickets else s.tickets - {TrimSpace(raw)})
  }

  ghost predicate IsRun(run: seq<State>, actions: seq<Action>) {
    && |run| == |actions| + 1
    && run[0] == State(map[], map[])
    && forall i :: 0 <= i < |actions| ==> Next(run[i], actions[i], run[i + 1])
  }

  ghost predicate WithinCaps(table: Table) {
    |table| <= Global && forall session :: |KeysOf(table, session)| <= PerSession
  }

  lemma {:induction false} KeysShrink(before: Table, after: Table)
    requires Sub(after, before)
    ensures |after| <= |before| && forall session :: |KeysOf(after, session)| <= |KeysOf(before, session)|
  {
    SubsetIsSmaller(after.Keys, before.Keys);
    assert |after.Keys| == |after| && |before.Keys| == |before|;
    forall session
      ensures |KeysOf(after, session)| <= |KeysOf(before, session)|
    {
      SubsetIsSmaller(KeysOf(after, session), KeysOf(before, session));
    }
  }

  lemma {:induction false} InsertKeepsCaps(room: Table, key: Key, ticket: Ticket)
    requires WithinCaps(room) && |room| < Global && |KeysOf(room, ticket.session)| < PerSession
    ensures WithinCaps(room[key := ticket])
  {
    var after := room[key := ticket];
    SubsetIsSmaller(after.Keys, room.Keys + {key});
    assert |after.Keys| == |after| && |room.Keys| == |room|;
    forall session
      ensures |KeysOf(after, session)| <= PerSession
    {
      var more := if session == ticket.session then {key} else {};
      SubsetIsSmaller(KeysOf(after, session), KeysOf(room, session) + more);
    }
  }

  lemma {:induction false} IssueKeepsCaps(before: Table, key: Key, ticket: Ticket, now: int, after: Table)
    requires WithinCaps(before) && Issued(before, key, ticket, now, after)
    ensures WithinCaps(after) && key in after && after[key] == ticket
    ensures forall k :: k in after && k != key ==> k in before && after[k] == before[k] && before[k].expires > now
  {
    var trimmed, room :|
      RoomForSession(Purged(before, now), ticket.session, trimmed) && RoomAtAll(trimmed, room)
          && after == room[key := ticket];
    KeysShrink(before, Purged(before, now));
    KeysShrink(Purged(before, now), trimmed);
    KeysShrink(trimmed, room);
    hide KeysOf;
    InsertKeepsCaps(room, key, ticket);
  }

  /** In every reachable state there are at most 8 tickets of a session and at most 1024 in all. */
  lemma {:induction false} CapsHold(run: seq<State>, actions: seq<Action>, i: nat)
    requires IsRun(run, actions) && i < |run|
    ensures |run[i].tickets| <= 1024 && forall session :: |KeysOf(run[i].tickets, session)| <= 8
    ensures WithinCaps(run[i].tickets) && Sub(run[i].tickets, run[i].issued)
  {
    hide TrimSpace, Issued;
    if i > 0 {
      CapsHold(run, actions, i - 1);
      var s, a := run[i - 1].tickets, actions[i - 1];
      assert Next(run[i - 1], a, run[i]);
      match a
      case Issue(key, ticket, now) => IssueKeepsCaps(s, key, ticket, now, run[i].tickets);
      case Consume(raw, now) => KeysShrink(s, run[i].tickets);
    }
  }

  /** Issuing for one session takes away other sessions' tickets only when they have expired or the
      whole table is full. */
  lemma {:induction false} OtherSessionsAreSpared(before: Table, key: Key, ticket: Ticket, now: int, after: Table,
        k: Key)
    requires Issued(before, key, ticket, now, after) && k in before && k !in after
    requires before[k].expires > now && before[k].session != ticket.session
    ensures |before| >= 1024
  {
    var trimmed, room :|
      RoomForSession(Purged(before, now), ticket.session, trimmed) && RoomAtAll(trimmed, room)
          && after == room[key := ticket];
    assert k in trimmed && k !in room;
    KeysShrink(before, Purged(before, now));
    KeysShrink(Purged(before, now), trimmed);
    hide RoomForSession, KeysOf, Purged;
    NothingMissing(trimmed, room, k);
  }

  // The tickets of a session that have not expired.
  function LiveKeys(table: Table, session: SessionID, now: int): set<Key> {
    set k | k in table && table[k].session == session && table[k].expires > now
  }

  /** A live ticket of the same session goes only when the session has eight of them or the table is full, and only
      before those of its session that expire later. */
  lemma {:induction false} OwnTicketsGoInOrder(before: Table, key: Key, ticket: Ticket, now: int, after: Table, k: Key)
    requires Issued(before, key, ticket, now, after) && k in LiveKeys(before, ticket.session, now) && k !in after
    ensures |before| >= 1024 || |LiveKeys(before, ticket.session, now)| >= 8
    ensures forall j :: j in LiveKeys(before, ticket.session, now) && j in after && j != key ==>
        before[k].expires <= before[j].expires
  {
    var trimmed, room :|
      RoomForSession(Purged(before, now), ticket.session, trimmed) && RoomAtAll(trimmed, room)
          && after == room[key := ticket];
    var live := Purged(before, now);
    assert KeysOf(live, ticket.session) == LiveKeys(before, ticket.session, now);
    if k in trimmed {
      KeysShrink(before, live);
      KeysShrink(live, trimmed);
      NothingMissing(trimmed, room, k);
    } else {
      FullSession(live, ticket.session, trimmed, k);
    }
    hide KeysOf, LiveKeys, RoomForSession, RoomAtAll, Purged;
    forall j | j in LiveKeys(before, ticket.session, now) && j in after && j != key
      ensures before[k].expires <= before[j].expires
    {
      KeptExpiresLater(before, ticket.session, now, trimmed, room, k, j);
    }
  }

  // A session that loses a ticket has eight.
  lemma {:induction false} FullSession(live: Table, session: SessionID, trimmed: Table, k: Key)
    requires RoomForSession(live, session, trimmed) && k in KeysOf(live, session) && k !in trimmed
    ensures |KeysOf(live, session)| >= 8
  {
    SubsetIsSmaller(KeysOf(trimmed, session), KeysOf(live, session) - {k});
  }

  lemma {:induction false} KeptExpiresLater(before: Table, session: SessionID, now: int, trimmed: Table, room: Table,
      k: Key, j: Key)
    requires RoomForSession(Purged(before, now), session, trimmed) && RoomAtAll(trimmed, room)
    requires k in LiveKeys(before, session, now) && k !in room && j in LiveKeys(before, session, now) && j in room
    ensures before[k].expires <= before[j].expires
  {
    var live := Purged(before, now);
    assert live[k] == before[k] && live[j] == before[j] && k in KeysOf(live, session) && j in KeysOf(live, session);
  }

  // Global eviction takes nothing from a table with room.
  lemma {:induction false} NothingMissing(trimmed: Table, room: Table, k: Key)
    requires RoomAtAll(trimmed, room) && k in trimmed && k !in room
    ensures |trimmed| >= Global
  {
    assert |room.Keys| == |room| && |trimmed.Keys| == |trimmed|;
    SubsetIsSmaller(room.Keys, trimmed.Keys - {k});
  }

  lemma {:induction false} ConsumedStaysGone(run: seq<State>, actions: seq<Action>, i: nat, j: nat, key: Key)
    requires IsRun(run, actions) && i <= j < |run| && key in run[i].issued && key !in run[i].tickets
    ensures key in run[j].issued && key !in run[j].tickets
    decreases j
  {
    hide TrimSpace, Issued, WithinCaps, KeysOf;
    if i < j {
      ConsumedStaysGone(run, actions, i, j - 1, key);
      CapsHold(run, actions, j - 1);
      var a := actions[j - 1];
      assert Next(run[j - 1], a, run[j]);
      if a.Issue? {
        IssueKeepsCaps(run[j - 1].tickets, a.key, a.ticket, a.now, run[j].tickets);
      }
    }
  }

  lemma {:induction false} IssuedStays(run: seq<State>, actions: seq<Action>, i: nat, j: nat, key: Key)
    requires IsRun(run, actions) && i <= j < |run| && key in run[i].issued
    ensures key in run[j].issued && run[j].issued[key] == run[i].issued[key]
    decreases j
  {
    hide TrimSpace, Issued;
    if i < j {
      IssuedStays(run, actions, i, j - 1, key);
      assert Next(run[j - 1], actions[j - 1], run[j]);
    }
  }

  /** A redemption yields the ticket that was issued under the text presented, blanks around it aside, with its
      session and token id; it succeeds exactly when that ticket is still in the table and has not expired. */
  lemma {:induction false} RedeemedIsIssued(run: seq<State>, actions: seq<Action>, i: nat, j: nat, key: Key,
      ticket: Ticket, raw: string, now: int)
    requires IsRun(run, actions) && i < j < |run| && actions[i].Issue? && actions[i].key == key
    requires actions[i].ticket == ticket && TrimSpace(raw) == key
    ensures Redeemed(run[j].tickets, raw, now)
            == if key in run[j].tickets && now < ticket.expires then Some(ticket) else None
    ensures key in run[i + 1].tickets
  {
    hide TrimSpace;
    assert Next(run[i], actions[i], run[i + 1]);
    CapsHold(run, actions, i);
    IssueKeepsCaps(run[i].tickets, key, ticket, actions[i].now, run[i + 1].tickets);
    IssuedStays(run, actions, i + 1, j, key);
    CapsHold(run, actions, j);
  }

  /** A ticket is redeemed at most once, and only what was issued and has not expired is redeemed. */
  lemma {:induction false} RedeemedAtMostOnce(run: seq<State>, actions: seq<Action>, i: nat, j: nat)
    requires IsRun(run, actions) && i < j < |actions| && actions[i].Consume? && actions[j].Consume?
    requires Redeemed(run[i].tickets, actions[i].raw, actions[i].now).Some?
    requires Redeemed(run[j].tickets, actions[j].raw, actions[j].now).Some?
    ensures TrimSpace(actions[i].raw) != TrimSpace(actions[j].raw)
    ensures TrimSpace(actions[i].raw) in run[i].issued
    ensures Redeemed(run[i].tickets, actions[i].raw, actions[i].now).value.expires > actions[i].now
  {
    hide TrimSpace;
    CapsHold(run, actions, i);
    assert Next(run[i], actions[i], run[i + 1]);
    ConsumedStaysGone(run, actions, i + 1, j, TrimSpace(actions[i].raw));
  }
}
