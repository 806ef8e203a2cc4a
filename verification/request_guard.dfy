/**
 The provider request guard: every request gets a record with a generation of its own, its final
 payload must be approved within the request's own scope while the record is live, and only an
 approved payload may be sent.
 */
module RequestGuard {
  import opened Outcomes

  /**
   A request payload. `freezable` and `strict` are what deep freezing and digesting find out about
   it: each of them throws when its answer is no.
   */
  datatype Payload = Payload(content: string, freezable: bool, strict: bool)

  /** A digest that tells contents apart. */
  ghost predicate Injective(digest: string -> string) {
    forall a, b {:trigger digest(a), digest(b)} :: digest(a) == digest(b) ==> a == b
  }

  datatype Record = Record(
    session: string, approved: Option<Payload>, digest: Option<string>, failure: Option<string>, closed: bool)

  /** `records` keeps every record ever opened, `active` those the guard still holds; aborted signals stay aborted. */
  datatype Guard = Guard(next: nat, records: map<nat, Record>, active: set<nat>, disposed: bool, aborted: set<nat>)

  const FRESH := Guard(0, map[], {}, false, {})

  datatype Event =
    | Open(session: string)
    | Approve(id: nat, scope: Option<nat>, payload: Payload)
    | Fail(id: nat, scope: Option<nat>, cause: string)
    | Consume(id: nat)
    | InvalidateSession(session: string)
    | InvalidateAll
    | Dispose
    | Abort(id: nat)

  // ---------------------------------------------------------------- one event

  predicate IsLive(g: Guard, id: nat) {
    !g.disposed && id in g.records && !g.records[id].closed && id in g.active && id !in g.aborted
  }

  /** An operation that must run inside the record's own scope. */
  predicate InScope(g: Guard, id: nat, scope: Option<nat>) { IsLive(g, id) && scope == Some(id) }

  function Closing(g: Guard, ids: set<nat>): Guard {
    g.(records := map id | id in g.records :: if id in ids then g.records[id].(closed := true) else g.records[id],
       active := g.active - ids)
  }

  /** Approving stores the payload before it is digested, so a payload that cannot be digested stays stored. */
  function Approving(record: Record, payload: Payload, digest: string -> string): Record {
    if !payload.freezable then record else
    if !payload.strict then record.(approved := Some(payload))
    else record.(approved := Some(payload), digest := Some(digest(payload.content)))
  }

  function After(g: Guard, event: Event, digest: string -> string): Guard {
    match event
    case Open(session) =>
      if g.disposed then g else
      Guard(g.next + 1, g.records[g.next + 1 := Record(session, None, None, None, false)], g.active + {g.next + 1},
            g.disposed, g.aborted)
    case Approve(id, scope, payload) =>
      if !InScope(g, id, scope) then g else g.(records := g.records[id := Approving(g.records[id], payload, digest)])
    case Fail(id, scope, cause) =>
      if !InScope(g, id, scope) || g.records[id].failure.Some? then g
      else g.(records := g.records[id := g.records[id].(failure := Some(cause))])
    case Consume(id) => if id in g.records && !g.records[id].closed then Closing(g, {id}) else g
    case InvalidateSession(session) => Closing(g, set id | id in g.active && id in g.records && g.records[id].session == session)
    case InvalidateAll => Closing(g, g.active)
    case Dispose => Closing(g, g.active).(disposed := true)
    case Abort(id) => if id in g.records then g.(aborted := g.aborted + {id}) else g
  }

  function Run(h: seq<Event>, digest: string -> string): Guard {
    if h == [] then FRESH else After(Run(h[..|h| - 1], digest), h[|h| - 1], digest)
  }

  datatype Verdict = Unapproved | Failed(cause: string) | Sent(payload: Payload)

  /** The last check before a request is sent. */
  function Check(g: Guard, id: nat, asked: Payload, digest: string -> string): Verdict {
    if !IsLive(g, id) then Unapproved else
    var record := g.records[id];
    if record.failure.Some? then Failed(record.failure.value) else
    if record.approved.None? || record.digest.None? || !asked.strict || digest(asked.content) != record.digest.value
    then Unapproved else Sent(record.approved.value)
  }

  // ---------------------------------------------------------------- what every run keeps

  /** Generations are handed out once, counting up; a record is held exactly while it is not closed. */
  ghost predicate Orderly(g: Guard) {
    && (forall id :: id in g.records <==> 0 < id <= g.next)
    && (forall id :: id in g.active <==> id in g.records && !g.records[id].closed)
    && (g.disposed ==> g.active == {})
    && g.aborted <= g.records.Keys
  }

  lemma AfterIsOrderly(g: Guard, event: Event, digest: string -> string)
    requires Orderly(g)
    ensures Orderly(After(g, event, digest)) && g.next <= After(g, event, digest).next
  {
  }

  lemma {:induction false} RunIsOrderly(h: seq<Event>, digest: string -> string)
    ensures Orderly(Run(h, digest))
  {
    if h != [] {
      RunIsOrderly(h[..|h| - 1], digest);
      AfterIsOrderly(Run(h[..|h| - 1], digest), h[|h| - 1], digest);
    }
  }

  // ---------------------------------------------------------------- liveness of a record, from the history

  /** The event at `i` opened record `id`. */
  predicate Opens(h: seq<Event>, i: nat, id: nat, digest: string -> string) {
    i < |h| && h[i].Open? && !Run(h[..i], digest).disposed && Run(h[..i], digest).next + 1 == id
  }

  /** An event that ends a record of the given session. */
  predicate Ends(event: Event, id: nat, session: string) {
    match event
    case Consume(ended) => ended == id
    case Abort(ended) => ended == id
    case InvalidateSession(s) => s == session
    case InvalidateAll => true
    case Dispose => true
    case _ => false
  }

  /** Only an approval changes what a record has stored and digested. */
  lemma StoresOnApproval(g: Guard, event: Event, id: nat, digest: string -> string)
    requires Orderly(g) && id in g.records
    ensures id in After(g, event, digest).records
    ensures var was, now := g.records[id], After(g, event, digest).records[id];
      if event.Approve? && event.id == id && InScope(g, id, event.scope)
      then now == Approving(was, event.payload, digest) else now.approved == was.approved && now.digest == was.digest
  {
  }

  lemma SurvivesUnlessEnded(g: Guard, event: Event, id: nat, digest: string -> string)
    requires Orderly(g) && id in g.records
    ensures id in After(g, event, digest).records && After(g, event, digest).records[id].session == g.records[id].session
    ensures IsLive(After(g, event, digest), id) <==> IsLive(g, id) && !Ends(event, id, g.records[id].session)
  {
  }

  lemma OpeningIsLive(g: Guard, session: string, digest: string -> string)
    requires Orderly(g) && !g.disposed
    ensures var id, begun := g.next + 1, After(g, Open(session), digest);
      id in begun.records && begun.records[id].session == session && IsLive(begun, id)
  {
  }

  predicate NotEnded(h: seq<Event>, from: nat, id: nat, session: string) {
    forall j :: from < j < |h| ==> !Ends(h[j], id, session)
  }

  lemma NotEndedGrows(h: seq<Event>, from: nat, id: nat, session: string)
    requires from < |h| - 1
    ensures NotEnded(h, from, id, session) <==> NotEnded(h[..|h| - 1], from, id, session) && !Ends(h[|h| - 1], id, session)
  {
  }

  /** A record is live exactly from its opening until the first event that ends it. */
  lemma {:induction false} LiveSinceOpened(h: seq<Event>, i: nat, id: nat, digest: string -> string)
    requires Opens(h, i, id, digest)
    ensures var g := Run(h, digest);
      && id in g.records && g.records[id].session == h[i].session
      && (IsLive(g, id) <==> NotEnded(h, i, id, h[i].session))
    decreases |h|
  {
    var front, last := h[..|h| - 1], h[|h| - 1];
    RunIsOrderly(front, digest);
    if i == |front| {
      assert h[..i] == front;
      OpeningIsLive(Run(front, digest), last.session, digest);
    } else {
      assert front[..i] == h[..i];
      LiveSinceOpened(front, i, id, digest);
      SurvivesUnlessEnded(Run(front, digest), last, id, digest);
      NotEndedGrows(h, i, id, h[i].session);
    }
  }

  // ---------------------------------------------------------------- what may be sent

  /** An approval that is taken: in scope, and with a payload that can be frozen. */
  predicate Takes(h: seq<Event>, i: nat, id: nat, digest: string -> string) {
    i < |h| && h[i].Approve? && h[i].id == id && InScope(Run(h[..i], digest), id, h[i].scope) && h[i].payload.freezable
  }

  /** The last payload stored for a record, and the last one digested for it. */
  function LastStored(h: seq<Event>, id: nat, digest: string -> string): Option<Payload> {
    if h == [] then None else
    if Takes(h, |h| - 1, id, digest) then Some(h[|h| - 1].payload) else LastStored(h[..|h| - 1], id, digest)
  }

  function LastDigested(h: seq<Event>, id: nat, digest: string -> string): Option<Payload> {
    if h == [] then None else
    if Takes(h, |h| - 1, id, digest) && h[|h| - 1].payload.strict then Some(h[|h| - 1].payload)
    else LastDigested(h[..|h| - 1], id, digest)
  }

  ghost predicate Remembers(h: seq<Event>, id: nat, record: Record, digest: string -> string) {
    && record.approved == LastStored(h, id, digest)
    && record.digest == (match LastDigested(h, id, digest) case None => None case Some(p) => Some(digest(p.content)))
  }

  /** A record holds the last payload stored and the digest of the last one digested. */
  lemma {:induction false} RecordsRemember(h: seq<Event>, id: nat, digest: string -> string)
    ensures id in Run(h, digest).records ==> Remembers(h, id, Run(h, digest).records[id], digest)
    ensures id !in Run(h, digest).records ==> LastStored(h, id, digest).None? && LastDigested(h, id, digest).None?
  {
    if h != [] {
      var front := h[..|h| - 1];
      RecordsRemember(front, id, digest);
      RunIsOrderly(front, digest);
      if id in Run(front, digest).records {
        StoresOnApproval(Run(front, digest), h[|h| - 1], id, digest);
      }
    }
  }

  /** The payload stored last is the one digested last, exactly when it can be digested at all. */
  lemma {:induction false} StoredIsDigested(h: seq<Event>, id: nat, digest: string -> string)
    ensures LastStored(h, id, digest) == LastDigested(h, id, digest)
       <==> (LastStored(h, id, digest).Some? ==> LastStored(h, id, digest).value.strict)
    ensures LastDigested(h, id, digest).Some? ==> LastStored(h, id, digest).Some? && LastDigested(h, id, digest).value.strict
  {
    if h != [] {
      StoredIsDigested(h[..|h| - 1], id, digest);
    }
  }

  /**
   What passes the last check belongs to a live record without a failure, whose last digested payload
   has the content asked about. What is sent is the last payload stored: it is the digested one, with
   the content asked about, exactly when it can be digested.
   */
  lemma SentWasApproved(h: seq<Event>, id: nat, asked: Payload, digest: string -> string)
    requires Injective(digest) && Check(Run(h, digest), id, asked, digest).Sent?
    ensures var sent, digested := Check(Run(h, digest), id, asked, digest).payload, LastDigested(h, id, digest);
      && IsLive(Run(h, digest), id) && Run(h, digest).records[id].failure.None?
      && LastStored(h, id, digest) == Some(sent)
      && digested.Some? && digested.value.content == asked.content
      && (sent == digested.value <==> sent.strict)
  {
    RecordsRemember(h, id, digest);
    StoredIsDigested(h, id, digest);
  }

  /** An approval that fails halfway changes what a later check of the earlier payload sends. */
  lemma HalfApprovalReplacesPayload(digest: string -> string)
    ensures var first, second := Payload("a", true, true), Payload("b", true, false);
      Check(Run([Open("s"), Approve(1, Some(1), first), Approve(1, Some(1), second)], digest), 1, first, digest) == Sent(second)
  {
    var first, second := Payload("a", true, true), Payload("b", true, false);
    var h := [Open("s"), Approve(1, Some(1), first), Approve(1, Some(1), second)];
    assert h[..2] == [Open("s"), Approve(1, Some(1), first)] && h[..2][..1] == [Open("s")] && h[..2][..1][..0] == [];
    var one := Run([Open("s")], digest);
    assert one == After(FRESH, Open("s"), digest);
    var two := Run(h[..2], digest);
    assert two == After(one, h[1], digest);
  }

  // ---------------------------------------------------------------- the class

  class CodexProviderRequestGuard {
    var nextGeneration: nat
    var records: map<nat, Record>
    var active: set<nat>
    var disposed: bool
    ghost var aborted: set<nat>
    ghost var history: seq<Event>
    const digest: string -> string

    ghost function View(): Guard
      reads this
    {
      Guard(nextGeneration, records, active, disposed, aborted)
    }

    ghost predicate Valid()
      reads this
    {
      View() == Run(history, digest)
    }

    constructor (digest: string -> string)
      ensures Valid() && history == [] && this.digest == digest
    {
      this.digest := digest;
      nextGeneration, records, active, disposed, aborted, history := 0, map[], {}, false, {}, [];
    }

    ghost method Note(event: Event)
      modifies this`history
      ensures history == old(history) + [event]
      ensures Run(history, digest) == After(Run(old(history), digest), event, digest)
    {
      history := history + [event];
      assert history[..|old(history)|] == old(history);
    }

    /** A new record, under a generation never used before, unless the guard is disposed. */
    method OpenRecord(session: string) returns (id: Option<nat>)
      requires Valid()
      modifies this
      ensures Valid() && history == old(history) + [Open(session)]
      ensures id.None? <==> old(disposed)
      ensures id.Some? ==> id.value !in old(records) && IsLive(View(), id.value)
    {
      RunIsOrderly(history, digest);
      Note(Open(session));
      if disposed {
        return None;
      }
      OpeningIsLive(View(), session, digest);
      var added := AddRecord(session);
      return Some(added);
    }

    method AddRecord(session: string) returns (id: nat)
      requires !disposed
      modifies this`nextGeneration, this`records, this`active
      ensures View() == After(old(View()), Open(session), digest) && id == old(nextGeneration) + 1
    {
      nextGeneration := nextGeneration + 1;
      records := records[nextGeneration := Record(session, None, None, None, false)];
      active := active + {nextGeneration};
      return nextGeneration;
    }

    method CloseRecords(ids: set<nat>)
      modifies this`records, this`active
      ensures View() == Closing(old(View()), ids)
    {
      records := map id | id in records :: if id in ids then records[id].(closed := true) else records[id];
      active := active - ids;
    }

    /** `aborting` tells whether the record's signal has been aborted. */
    method ApproveRequest(id: nat, scope: Option<nat>, payload: Payload, aborting: bool) returns (approved: Option<Payload>)
      requires Valid() && aborting == (id in aborted)
      modifies this
      ensures Valid() && history == old(history) + [Approve(id, scope, payload)]
      ensures approved == if InScope(old(View()), id, scope) && payload.freezable && payload.strict then Some(payload) else None
    {
      Note(Approve(id, scope, payload));
      if disposed || id !in records || records[id].closed || id !in active || aborting || scope != Some(id) {
        return None;
      }
      if !payload.freezable {
        assert records == records[id := records[id]];
        return None;
      }
      records := records[id := records[id].(approved := Some(payload))];
      if !payload.strict {
        return None;
      }
      records := records[id := records[id].(digest := Some(digest(payload.content)))];
      return Some(payload);
    }

    method ConsumeRecord(id: nat)
      requires Valid()
      modifies this
      ensures Valid() && history == old(history) + [Consume(id)] && !IsLive(View(), id)
    {
      RunIsOrderly(history, digest);
      Note(Consume(id));
      if id in records && !records[id].closed {
        CloseRecords({id});
      }
    }

    method InvalidateRecordsOf(session: string)
      requires Valid()
      modifies this
      ensures Valid() && history == old(history) + [InvalidateSession(session)]
      ensures forall id :: id in records && records[id].session == session ==> !IsLive(View(), id)
    {
      RunIsOrderly(history, digest);
      Note(InvalidateSession(session));
      CloseRecords(set id | id in active && id in records && records[id].session == session);
    }

    method DisposeGuard()
      requires Valid()
      modifies this
      ensures Valid() && history == old(history) + [Dispose] && forall id :: !IsLive(View(), id)
    {
      Note(Dispose);
      CloseRecords(active);
      disposed := true;
    }

    method AssertApproved(id: nat, asked: Payload, aborting: bool) returns (verdict: Verdict)
      requires Valid() && aborting == (id in aborted)
      ensures verdict == Check(Run(history, digest), id, asked, digest)
    {
      if disposed || id !in records || records[id].closed || id !in active || aborting {
        return Unapproved;
      }
      var record := records[id];
      if record.failure.Some? {
        return Failed(record.failure.value);
      }
      if record.approved.None? || record.digest.None? || !asked.strict || digest(asked.content) != record.digest.value {
        return Unapproved;
      }
      return Sent(record.approved.value);
    }
  }
}
