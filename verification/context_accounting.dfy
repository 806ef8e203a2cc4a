/**
 Context accounting: a cache of measured token usage, stamped with a generation per session, that
 must agree with the plain history of what was asked of it.
 */
module ContextAccounting {
  import opened Outcomes

  // ---------------------------------------------------------------- identities and keys

  datatype BindingKind = JwtAccount | Credential

  datatype Identity = Identity(
    sessionFingerprint: string, providerId: string, api: string, baseUrl: string, modelId: string,
    kind: BindingKind, fingerprint: string)

  const NUL: char := '\0'
  const SEPARATOR: char := '\U{0001}'

  function KindName(kind: BindingKind): string {
    if kind.JwtAccount? then "jwt_account" else "credential"
  }

  function IdentityKey(identity: Identity): string {
    identity.sessionFingerprint + ([SEPARATOR] + (identity.providerId + ([SEPARATOR] + (identity.api + ([SEPARATOR]
    + (identity.baseUrl + ([SEPARATOR] + (identity.modelId + ([SEPARATOR] + (KindName(identity.kind) + ([SEPARATOR]
    + identity.fingerprint)))))))))))
  }

  function AccountingKey(session: string, identity: Identity): string {
    session + ([NUL] + IdentityKey(identity))
  }

  /** Fields of a validated identity hold no control characters. */
  predicate Clean(identity: Identity) {
    && SEPARATOR !in identity.sessionFingerprint && SEPARATOR !in identity.providerId && SEPARATOR !in identity.api
    && SEPARATOR !in identity.baseUrl && SEPARATOR !in identity.modelId && SEPARATOR !in identity.fingerprint
  }

  predicate NulFree(session: string) { NUL !in session }

  /** Text up to the first separator is determined by the whole. */
  lemma {:induction false} SplitAtSeparator(a: string, b: string, c: char, rest: string, tail: string)
    requires c !in a && c !in b
    requires a + ([c] + rest) == b + ([c] + tail)
    ensures a == b && rest == tail
  {
    var whole, same := a + ([c] + rest), b + ([c] + tail);
    assert whole[|a|] == c && same[|b|] == c;
    assert forall i :: 0 <= i < |a| ==> whole[i] == a[i];
    assert forall i :: 0 <= i < |b| ==> same[i] == b[i];
    assert |a| == |b|;
    assert a == whole[..|a|] == b;
    assert rest == whole[|a| + 1..] == tail;
  }

  lemma IdentityKeyInjective(x: Identity, y: Identity)
    requires Clean(x) && Clean(y) && IdentityKey(x) == IdentityKey(y)
    ensures x == y
  {
    var c := SEPARATOR;
    var x5, y5 := KindName(x.kind) + ([c] + x.fingerprint), KindName(y.kind) + ([c] + y.fingerprint);
    var x4, y4 := x.modelId + ([c] + x5), y.modelId + ([c] + y5);
    var x3, y3 := x.baseUrl + ([c] + x4), y.baseUrl + ([c] + y4);
    var x2, y2 := x.api + ([c] + x3), y.api + ([c] + y3);
    var x1, y1 := x.providerId + ([c] + x2), y.providerId + ([c] + y2);
    SplitAtSeparator(x.sessionFingerprint, y.sessionFingerprint, c, x1, y1);
    SplitAtSeparator(x.providerId, y.providerId, c, x2, y2);
    SplitAtSeparator(x.api, y.api, c, x3, y3);
    SplitAtSeparator(x.baseUrl, y.baseUrl, c, x4, y4);
    SplitAtSeparator(x.modelId, y.modelId, c, x5, y5);
    SplitAtSeparator(KindName(x.kind), KindName(y.kind), c, x.fingerprint, y.fingerprint);
    assert KindName(x.kind)[0] == KindName(y.kind)[0];
  }

  lemma AccountingKeyInjective(s: string, x: Identity, t: string, y: Identity)
    requires NulFree(s) && NulFree(t) && Clean(x) && Clean(y) && AccountingKey(s, x) == AccountingKey(t, y)
    ensures s == t && x == y
  {
    SplitAtSeparator(s, t, NUL, IdentityKey(x), IdentityKey(y));
    IdentityKeyInjective(x, y);
  }

  /**
   Which records the prefix test sweeps, for any ids: the session's own, those of a session whose id
   begins with the swept id and NUL, and those whose own id and part of whose identity make up the
   swept id.
   */
  lemma PrefixSweepsExactly(s: string, t: string, identity: Identity)
    ensures s + [NUL] <= AccountingKey(t, identity) <==>
      || s == t || s + [NUL] <= t
      || (t + [NUL] <= s && s[|t| + 1..] + [NUL] <= IdentityKey(identity))
  {
    var key, rest := AccountingKey(t, identity), IdentityKey(identity);
    assert key[..|t|] == t && key[|t|] == NUL && key[|t| + 1..] == rest && |key| == |t| + 1 + |rest|;
    if |s| < |t| {
      assert s + [NUL] <= key <==> s + [NUL] <= t by {
        assert key[..|s| + 1] == t[..|s| + 1];
      }
    } else if |s| == |t| {
      assert key[..|s| + 1] == t + [NUL];
    } else {
      LongerIdSwept(s, t + [NUL], rest);
    }
  }

  lemma LongerIdSwept(s: string, front: string, rest: string)
    requires |front| <= |s|
    ensures s + [NUL] <= front + rest <==> front <= s && s[|front|..] + [NUL] <= rest
  {
    if s + [NUL] <= front + rest {
      assert s[..|front|] == (s + [NUL])[..|front|] == (front + rest)[..|front|] == front;
      assert s[|front|..] + [NUL] == (s + [NUL])[|front|..] == (front + rest)[|front|..|s| + 1];
    }
    if front <= s && s[|front|..] + [NUL] <= rest {
      assert s + [NUL] == front + (s[|front|..] + [NUL]);
    }
  }

  /** With identities free of NUL, another session is swept exactly if its id begins with the swept id and NUL. */
  lemma PrefixNamesSession(s: string, t: string, identity: Identity)
    requires NUL !in IdentityKey(identity) || NulFree(s)
    ensures s + [NUL] <= AccountingKey(t, identity) <==> s == t || s + [NUL] <= t
  {
    PrefixSweepsExactly(s, t, identity);
    if NulFree(s) {
      if t + [NUL] <= s {
        NulInPrefix(t, s);
      }
    } else if t + [NUL] <= s {
      var tail := s[|t| + 1..];
      if tail + [NUL] <= IdentityKey(identity) {
        NulInPrefix(tail, IdentityKey(identity));
      }
    }
  }

  lemma NulInPrefix(a: string, b: string)
    requires a + [NUL] <= b
    ensures NUL in b
  {
    assert b[|a|] == (a + [NUL])[|a|];
  }

  /** So among sessions without NUL every sweep finds just its own. */
  lemma NulFreePrefixNamesSession(s: string, t: string, identity: Identity)
    requires NulFree(t)
    requires NulFree(s)
    ensures s + [NUL] <= AccountingKey(t, identity) <==> s == t
  {
    PrefixNamesSession(s, t, identity);
    if s + [NUL] <= t {
      NulInPrefix(s, t);
    }
  }

  /** A session id that contains NUL can be swept together with another session. */
  lemma NulSessionIsSwept(identity: Identity)
    ensures "a" != "a\0b" && "a" + [NUL] <= AccountingKey("a\0b", identity)
  {
    assert AccountingKey("a\0b", identity)[..2] == "a" + [NUL];
  }

  // ---------------------------------------------------------------- history

  const MAX_SAFE_INTEGER: int := 9_007_199_254_740_991

  /** A JavaScript number: an integer, or something that is not one. */
  datatype Number = Integral(value: int) | NotIntegral {
    predicate IsCount() { Integral? && 0 <= value <= MAX_SAFE_INTEGER }
  }

  datatype Usage = Usage(totalTokens: Number, inputItemCount: Number, inputDigest: string, instructionsDigest: string)

  datatype Event =
    | Snapshot(session: string, identity: Identity)
    | Record(session: string, identity: Identity, generation: nat, requestGeneration: nat, usage: Usage)
    | Invalidate(session: string)
    | Dispose(session: string)
    | DisposeAll

  predicate WellNamed(event: Event) {
    (!event.DisposeAll? ==> NulFree(event.session)) && ((event.Snapshot? || event.Record?) ==> Clean(event.identity))
  }

  predicate AllWellNamed(h: seq<Event>) {
    forall event :: event in h ==> WellNamed(event)
  }

  /** A session is known once anything but a recording mentioned it. */
  predicate Mentions(event: Event, session: string) {
    !event.DisposeAll? && !event.Record? && event.session == session
  }

  predicate Known(h: seq<Event>, session: string) {
    exists event :: event in h && Mentions(event, session)
  }

  /** The identity the session last asked about, unless it was disposed since. */
  function Active(h: seq<Event>, session: string): Option<Identity> {
    if h == [] then None else
    var front, last := h[..|h| - 1], h[|h| - 1];
    if last.DisposeAll? || last == Dispose(session) then None else
    if last.Snapshot? && last.session == session then Some(last.identity) else Active(front, session)
  }

  /** Whether an event, coming after a history, makes everything measured for a session worthless. */
  predicate Forgets(h: seq<Event>, event: Event, session: string) {
    match event
    case Snapshot(s, identity) => s == session && Active(h, session).Some? && Active(h, session) != Some(identity)
    case Record(_, _, _, _, _) => false
    case Invalidate(s) => s == session
    case Dispose(s) => s == session
    case DisposeAll => true
  }

  predicate Bumps(h: seq<Event>, event: Event, session: string) {
    Forgets(h, event, session) && (event.DisposeAll? ==> Known(h, session))
  }

  function Generation(h: seq<Event>, session: string): nat {
    if h == [] then 0 else
    Generation(h[..|h| - 1], session) + (if Bumps(h[..|h| - 1], h[|h| - 1], session) then 1 else 0)
  }

  predicate IsUsable(usage: Usage) { usage.totalTokens.IsCount() && usage.inputItemCount.IsCount() }

  /** A recording that carries the session's current generation and sane numbers. */
  predicate Timely(h: seq<Event>, event: Event) {
    event.Record? && event.generation == Generation(h, event.session) && IsUsable(event.usage)
  }

  /** Position `i` holds a timely recording for the session and identity, and nothing forgot it since. */
  ghost predicate Counts(h: seq<Event>, session: string, identity: Identity, i: nat) {
    && i < |h| && Timely(h[..i], h[i]) && h[i].session == session && h[i].identity == identity
    && forall j :: i < j < |h| ==> !Forgets(h[..j], h[j], session)
  }

  /** The recording with the highest request generation, the last of them on a tie. */
  ghost predicate IsBest(h: seq<Event>, session: string, identity: Identity, i: nat) {
    && Counts(h, session, identity, i)
    && forall j: nat :: Counts(h, session, identity, j) ==>
         h[j].requestGeneration < h[i].requestGeneration || (h[j].requestGeneration == h[i].requestGeneration && j <= i)
  }

  // ---------------------------------------------------------------- the best recording

  /** What the store keeps for a session and identity: the position of its recording. */
  function Kept(h: seq<Event>, session: string, identity: Identity): (kept: Option<nat>)
    ensures kept.Some? ==> kept.value < |h| && h[kept.value].Record?
  {
    if h == [] then None else
    var front, last := h[..|h| - 1], h[|h| - 1];
    var kept := Kept(front, session, identity);
    if Forgets(front, last, session) then None else
    if Timely(front, last) && last.session == session && last.identity == identity
       && !(kept.Some? && h[kept.value].requestGeneration > last.requestGeneration)
    then Some(|front|) else kept
  }

  lemma CountsInPrefix(h: seq<Event>, session: string, identity: Identity, i: nat)
    requires i < |h| - 1
    ensures Counts(h, session, identity, i) <==>
      Counts(h[..|h| - 1], session, identity, i) && !Forgets(h[..|h| - 1], h[|h| - 1], session)
  {
    var front := h[..|h| - 1];
    assert forall j :: 0 <= j < |h| ==> h[..j] == if j < |front| then front[..j] else front;
  }

  /** Keeping one position per session and identity agrees with looking the best one up in the history. */
  lemma {:induction false} KeptIsBest(h: seq<Event>, session: string, identity: Identity)
    ensures match Kept(h, session, identity)
            case Some(i) => IsBest(h, session, identity, i)
            case None => forall i: nat :: !Counts(h, session, identity, i)
  {
    if h != [] {
      var front, last := h[..|h| - 1], h[|h| - 1];
      KeptIsBest(front, session, identity);
      forall i: nat | i < |front|
        ensures Counts(h, session, identity, i) <==> Counts(front, session, identity, i) && !Forgets(front, last, session)
      {
        CountsInPrefix(h, session, identity, i);
      }
      assert h[..|front|] == front;
    }
  }

  lemma BestIsUnique(h: seq<Event>, session: string, identity: Identity, i: nat, j: nat)
    requires IsBest(h, session, identity, i) && IsBest(h, session, identity, j)
    ensures i == j
  {
  }

  // ---------------------------------------------------------------- stale snapshots

  lemma {:induction false} MentionStaysKnown(h: seq<Event>, i: nat, session: string)
    requires i < |h| && Mentions(h[i], session)
    ensures Known(h, session)
  {
    assert h[i] in h;
  }

  /**
   A generation handed out with a snapshot is still current exactly while nothing has made the
   session's measurements worthless.
   */
  lemma {:induction false} SnapshotIsCurrentUntilForgotten(h: seq<Event>, i: nat, session: string)
    requires i < |h| && h[i].Snapshot? && h[i].session == session
    ensures Generation(h, session) >= Generation(h[..i + 1], session)
    ensures Generation(h, session) == Generation(h[..i + 1], session)
       <==> forall j :: i < j < |h| ==> !Forgets(h[..j], h[j], session)
  {
    if i + 1 < |h| {
      var front, last := h[..|h| - 1], h[|h| - 1];
      SnapshotIsCurrentUntilForgotten(front, i, session);
      MentionStaysKnown(front, i, session);
      assert front[..i + 1] == h[..i + 1];
      assert forall j :: 0 <= j < |h| ==> h[..j] == if j < |front| then front[..j] else front;
    } else {
      assert h[..i + 1] == h;
    }
  }

  /** A recording made with a snapshot issued before an invalidation, disposal or identity switch is refused. */
  lemma StaleRecordingRefused(h: seq<Event>, i: nat, j: nat, event: Event)
    requires i < j < |h| && h[i].Snapshot? && event.Record? && event.session == h[i].session
    requires Forgets(h[..j], h[j], event.session)
    requires event.generation == Generation(h[..i + 1], event.session)
    ensures !Timely(h, event)
  {
    SnapshotIsCurrentUntilForgotten(h, i, event.session);
  }

  // ---------------------------------------------------------------- the store's maps

  datatype Entry = Entry(generation: nat, requestGeneration: nat, usage: Usage)

  function EntryOf(event: Event): Entry
    requires event.Record?
  {
    Entry(event.generation, event.requestGeneration, event.usage)
  }

  function GenerationOf(generations: map<string, nat>, session: string): nat {
    if session in generations then generations[session] else 0
  }

  ghost predicate GenerationsAgree(h: seq<Event>, generations: map<string, nat>, identities: map<string, string>) {
    forall s :: GenerationOf(generations, s) == Generation(h, s)
      && (s in generations || s in identities <==> Known(h, s))
  }

  ghost predicate IdentitiesAgree(h: seq<Event>, identities: map<string, string>) {
    forall s :: (s in identities <==> Active(h, s).Some?)
      && (s in identities ==> identities[s] == IdentityKey(Active(h, s).value))
  }

  ghost predicate EntryAgrees(h: seq<Event>, accounting: map<string, Entry>, session: string, identity: Identity) {
    var key := AccountingKey(session, identity);
    match Kept(h, session, identity)
    case None => key !in accounting
    case Some(i) => key in accounting && accounting[key] == EntryOf(h[i])
  }

  ghost predicate EntriesAgree(h: seq<Event>, accounting: map<string, Entry>) {
    forall s, id {:trigger EntryAgrees(h, accounting, s, id)} :: NulFree(s) && Clean(id) ==> EntryAgrees(h, accounting, s, id)
  }

  /** The two sweeps and the deletion loop: every key with the session's prefix goes. */
  function Swept(accounting: map<string, Entry>, session: string): map<string, Entry> {
    map key | key in accounting && !(session + [NUL] <= key) :: accounting[key]
  }

  lemma {:induction false} ActiveIsClean(h: seq<Event>, session: string)
    requires AllWellNamed(h) && Active(h, session).Some?
    ensures Clean(Active(h, session).value)
  {
    var front, last := h[..|h| - 1], h[|h| - 1];
    assert last in h && WellNamed(last);
    if !(last.Snapshot? && last.session == session) {
      assert forall event :: event in front ==> event in h;
      ActiveIsClean(front, session);
    }
  }

  lemma KnownGrows(h: seq<Event>, event: Event, session: string)
    ensures Known(h + [event], session) <==> Known(h, session) || Mentions(event, session)
  {
    if Known(h, session) {
      var e :| e in h && Mentions(e, session);
      assert e in h + [event];
    }
    if Mentions(event, session) {
      assert event in h + [event];
    }
  }

  lemma KeptAfter(h: seq<Event>, event: Event, session: string, identity: Identity)
    ensures Kept(h + [event], session, identity) ==
      if Forgets(h, event, session) then None else
      if Timely(h, event) && event.session == session && event.identity == identity
         && !(Kept(h, session, identity).Some? && h[Kept(h, session, identity).value].requestGeneration > event.requestGeneration)
      then Some(|h|) else Kept(h, session, identity)
  {
    assert (h + [event])[..|h|] == h;
  }

  /** What is kept always carries the session's current generation. */
  lemma {:induction false} KeptIsCurrent(h: seq<Event>, session: string, identity: Identity)
    ensures Kept(h, session, identity).Some? ==>
      h[Kept(h, session, identity).value].generation == Generation(h, session)
      && h[Kept(h, session, identity).value].session == session && h[Kept(h, session, identity).value].identity == identity
  {
    if h != [] {
      KeptIsCurrent(h[..|h| - 1], session, identity);
    }
  }

  lemma SweepAgrees(h: seq<Event>, event: Event, accounting: map<string, Entry>, session: string)
    requires EntriesAgree(h, accounting) && NulFree(session)
    requires (event.Invalidate? || event.Dispose? || event.Snapshot?) && event.session == session && Forgets(h, event, session)
    ensures EntriesAgree(h + [event], Swept(accounting, session))
  {
    forall s, id | NulFree(s) && Clean(id)
      ensures EntryAgrees(h + [event], Swept(accounting, session), s, id)
    {
      assert EntryAgrees(h, accounting, s, id);
      KeptAfter(h, event, s, id);
      NulFreePrefixNamesSession(session, s, id);
    }
  }

  lemma UnchangedAgrees(h: seq<Event>, event: Event, accounting: map<string, Entry>)
    requires EntriesAgree(h, accounting)
    requires match event
             case Snapshot(s, _) => !Forgets(h, event, s)
             case Record(_, _, _, _, _) => !Timely(h, event)
             case _ => false
    ensures EntriesAgree(h + [event], accounting)
  {
    forall s, id | NulFree(s) && Clean(id)
      ensures EntryAgrees(h + [event], accounting, s, id)
    {
      assert EntryAgrees(h, accounting, s, id);
      KeptAfter(h, event, s, id);
    }
  }

  lemma RecordAgrees(h: seq<Event>, event: Event, accounting: map<string, Entry>, next: map<string, Entry>)
    requires EntriesAgree(h, accounting) && WellNamed(event) && Timely(h, event)
    requires var key := AccountingKey(event.session, event.identity);
      next == if key in accounting && accounting[key].requestGeneration > event.requestGeneration then accounting
              else accounting[key := EntryOf(event)]
    ensures EntriesAgree(h + [event], next)
  {
    forall s, id | NulFree(s) && Clean(id)
      ensures EntryAgrees(h + [event], next, s, id)
    {
      assert EntryAgrees(h, accounting, s, id);
      KeptAfter(h, event, s, id);
      if AccountingKey(s, id) == AccountingKey(event.session, event.identity) {
        AccountingKeyInjective(s, id, event.session, event.identity);
      }
    }
  }

  lemma DisposeAllAgrees(h: seq<Event>)
    ensures EntriesAgree(h + [DisposeAll], map[])
  {
    forall s, id | NulFree(s) && Clean(id)
      ensures EntryAgrees(h + [DisposeAll], map[], s, id)
    {
      KeptAfter(h, DisposeAll, s, id);
    }
  }

  function IdentitiesAfter(identities: map<string, string>, event: Event): map<string, string> {
    match event
    case Snapshot(s, id) => identities[s := IdentityKey(id)]
    case Dispose(s) => identities - {s}
    case DisposeAll => map[]
    case _ => identities
  }

  lemma IdentitiesAgreeAfter(h: seq<Event>, event: Event, identities: map<string, string>)
    requires IdentitiesAgree(h, identities)
    ensures IdentitiesAgree(h + [event], IdentitiesAfter(identities, event))
  {
    assert (h + [event])[..|h|] == h;
  }

  ghost predicate Advanced(h: seq<Event>, event: Event, generations: map<string, nat>, next: map<string, nat>) {
    forall s :: GenerationOf(next, s) == GenerationOf(generations, s) + (if Bumps(h, event, s) then 1 else 0)
  }

  lemma GenerationsAgreeAfter(
    h: seq<Event>, event: Event, generations: map<string, nat>, identities: map<string, string>, next: map<string, nat>)
    requires GenerationsAgree(h, generations, identities) && Advanced(h, event, generations, next)
    requires forall s ::
      s in next || s in IdentitiesAfter(identities, event) <==> s in generations || s in identities || Mentions(event, s)
    ensures GenerationsAgree(h + [event], next, IdentitiesAfter(identities, event))
  {
    assert (h + [event])[..|h|] == h;
    forall s
      ensures s in next || s in IdentitiesAfter(identities, event) <==> Known(h + [event], s)
    {
      KnownGrows(h, event, s);
    }
  }

  /** Every session of the set has moved on by one generation, and no other. */
  ghost predicate Bumped(before: map<string, nat>, after: map<string, nat>, all: set<string>) {
    && after.Keys == before.Keys + all
    && forall s :: GenerationOf(after, s) == GenerationOf(before, s) + (if s in all then 1 else 0)
  }

  // ---------------------------------------------------------------- one event at a time

  /** The three maps say what the history says, provided its names are well formed. */
  ghost predicate Refines(
    h: seq<Event>, generations: map<string, nat>, identities: map<string, string>, accounting: map<string, Entry>)
  {
    AllWellNamed(h) ==>
      GenerationsAgree(h, generations, identities) && IdentitiesAgree(h, identities) && EntriesAgree(h, accounting)
  }

  function BumpedOne(generations: map<string, nat>, session: string): map<string, nat> {
    generations[session := GenerationOf(generations, session) + 1]
  }

  lemma PrefixWellNamed(h: seq<Event>, event: Event)
    requires AllWellNamed(h + [event])
    ensures AllWellNamed(h) && WellNamed(event)
  {
    assert forall e :: e in h ==> e in h + [event];
    assert event in h + [event];
  }

  lemma ForgetRefines(
    h: seq<Event>, event: Event, generations: map<string, nat>, identities: map<string, string>, accounting: map<string, Entry>)
    requires event.Invalidate? || event.Dispose? || (event.Snapshot? && Forgets(h, event, event.session))
    requires Refines(h, generations, identities, accounting)
    ensures Refines(h + [event], BumpedOne(generations, event.session), IdentitiesAfter(identities, event),
                    Swept(accounting, event.session))
  {
    if AllWellNamed(h + [event]) {
      PrefixWellNamed(h, event);
      IdentitiesAgreeAfter(h, event, identities);
      GenerationsAgreeAfter(h, event, generations, identities, BumpedOne(generations, event.session));
      SweepAgrees(h, event, accounting, event.session);
    }
  }

  lemma SwitchForgets(
    h: seq<Event>, generations: map<string, nat>, identities: map<string, string>, accounting: map<string, Entry>,
    session: string, identity: Identity)
    requires Refines(h, generations, identities, accounting)
    ensures AllWellNamed(h + [Snapshot(session, identity)]) ==>
      (session in identities && identities[session] != IdentityKey(identity)
       <==> Forgets(h, Snapshot(session, identity), session))
  {
    if AllWellNamed(h + [Snapshot(session, identity)]) && Active(h, session).Some? {
      PrefixWellNamed(h, Snapshot(session, identity));
      ActiveIsClean(h, session);
      if IdentityKey(Active(h, session).value) == IdentityKey(identity) {
        IdentityKeyInjective(Active(h, session).value, identity);
      }
    } else if AllWellNamed(h + [Snapshot(session, identity)]) {
      PrefixWellNamed(h, Snapshot(session, identity));
    }
  }

  lemma QuietRefines(
    h: seq<Event>, event: Event, generations: map<string, nat>, identities: map<string, string>, accounting: map<string, Entry>)
    requires (event.Snapshot? && !Forgets(h, event, event.session)) || (event.Record? && !Timely(h, event))
    requires Refines(h, generations, identities, accounting)
    ensures Refines(h + [event], generations, IdentitiesAfter(identities, event), accounting)
  {
    if AllWellNamed(h + [event]) {
      PrefixWellNamed(h, event);
      IdentitiesAgreeAfter(h, event, identities);
      GenerationsAgreeAfter(h, event, generations, identities, generations);
      UnchangedAgrees(h, event, accounting);
    }
  }

  lemma RecordRefines(
    h: seq<Event>, event: Event, generations: map<string, nat>, identities: map<string, string>, accounting: map<string, Entry>,
    next: map<string, Entry>)
    requires event.Record? && Timely(h, event) && Refines(h, generations, identities, accounting)
    requires var key := AccountingKey(event.session, event.identity);
      next == if key in accounting && accounting[key].requestGeneration > event.requestGeneration then accounting
              else accounting[key := EntryOf(event)]
    ensures Refines(h + [event], generations, identities, next)
  {
    if AllWellNamed(h + [event]) {
      PrefixWellNamed(h, event);
      IdentitiesAgreeAfter(h, event, identities);
      GenerationsAgreeAfter(h, event, generations, identities, generations);
      RecordAgrees(h, event, accounting, next);
    }
  }

  lemma DisposeAllRefines(
    h: seq<Event>, generations: map<string, nat>, identities: map<string, string>, accounting: map<string, Entry>,
    sessions: set<string>, next: map<string, nat>)
    requires Refines(h, generations, identities, accounting)
    requires sessions == generations.Keys + identities.Keys && Bumped(generations, next, sessions)
    ensures Refines(h + [DisposeAll], next, map[], map[])
  {
    if AllWellNamed(h + [DisposeAll]) {
      PrefixWellNamed(h, DisposeAll);
      IdentitiesAgreeAfter(h, DisposeAll, identities);
      GenerationsAgreeAfter(h, DisposeAll, generations, identities, next);
      DisposeAllAgrees(h);
    }
  }

  method DropRecords(accounting: map<string, Entry>, session: string) returns (rest: map<string, Entry>)
    ensures rest == Swept(accounting, session)
  {
    rest := accounting;
    var keys := accounting.Keys;
    while keys != {}
      invariant keys <= rest.Keys
      invariant forall key :: key in rest <==> key in accounting && (key in keys || !(session + [NUL] <= key))
      invariant forall key :: key in rest ==> rest[key] == accounting[key]
      decreases |keys|
    {
      var key :| key in keys;
      keys := keys - {key};
      if session + [NUL] <= key {
        rest := rest - {key};
      }
    }
  }

  lemma BumpedOneMore(before: map<string, nat>, after: map<string, nat>, all: set<string>, rest: set<string>, session: string)
    requires session in rest && rest <= all && Bumped(before, after, all - rest)
    ensures Bumped(before, BumpedOne(after, session), all - (rest - {session}))
  {
  }

  method BumpAll(generations: map<string, nat>, all: set<string>) returns (bumped: map<string, nat>)
    ensures Bumped(generations, bumped, all)
  {
    bumped := generations;
    var rest := all;
    while rest != {}
      invariant rest <= all && Bumped(generations, bumped, all - rest)
      decreases |rest|
    {
      var session :| session in rest;
      BumpedOneMore(generations, bumped, all, rest, session);
      rest := rest - {session};
      bumped := BumpedOne(bumped, session);
    }
    assert all - rest == all;
  }

  function UsageKept(h: seq<Event>, session: string, identity: Identity): Option<Usage> {
    match Kept(h, session, identity)
    case None => None
    case Some(i) => Some(h[i].usage)
  }

  class CodexCompactionStore {
    var generations: map<string, nat>
    var activeIdentities: map<string, string>
    var accounting: map<string, Entry>
    ghost var history: seq<Event>

    ghost predicate Valid()
      reads this
    {
      Refines(history, generations, activeIdentities, accounting)
    }

    constructor ()
      ensures Valid() && history == []
    {
      generations, activeIdentities, accounting, history := map[], map[], map[], [];
    }

    /** Asking about another identity than last time makes the session's measurements worthless. */
    method SelectIdentity(session: string, identity: Identity)
      requires Valid()
      modifies this
      ensures Valid() && history == old(history) + [Snapshot(session, identity)]
    {
      ghost var event := Snapshot(session, identity);
      var selected := IdentityKey(identity);
      SwitchForgets(history, generations, activeIdentities, accounting, session, identity);
      if session in activeIdentities && activeIdentities[session] != selected {
        if AllWellNamed(history + [event]) {
          ForgetRefines(history, event, generations, activeIdentities, accounting);
        }
        generations := BumpedOne(generations, session);
        accounting := DropRecords(accounting, session);
      } else if AllWellNamed(history + [event]) {
        QuietRefines(history, event, generations, activeIdentities, accounting);
      }
      activeIdentities := activeIdentities[session := selected];
      history := history + [event];
    }

    /** The snapshot: the session's generation, and the best usage recorded since it was last forgotten. */
    method Account(session: string, identity: Identity) returns (generation: nat, baseline: Option<Usage>)
      requires Valid()
      modifies this
      ensures Valid() && history == old(history) + [Snapshot(session, identity)]
      ensures AllWellNamed(history) ==>
        generation == Generation(history, session) && baseline == UsageKept(history, session, identity)
    {
      SelectIdentity(session, identity);
      generation := GenerationOf(generations, session);
      var key := AccountingKey(session, identity);
      if key in accounting && accounting[key].generation == generation {
        baseline := Some(accounting[key].usage);
      } else {
        baseline := None;
      }
      if AllWellNamed(history) {
        PrefixWellNamed(old(history), Snapshot(session, identity));
        KeptIsCurrent(history, session, identity);
        assert EntryAgrees(history, accounting, session, identity);
      }
    }

    /** Whether a recording is taken: it must be timely and not outdone by a later request's. */
    method RecordUsage(session: string, identity: Identity, generation: nat, requestGeneration: nat, usage: Usage)
      returns (taken: bool)
      requires Valid()
      modifies this`accounting, this`history
      ensures Valid() && history == old(history) + [Record(session, identity, generation, requestGeneration, usage)]
      ensures AllWellNamed(history) ==>
        (taken <==> Timely(old(history), history[|old(history)|]) && Kept(history, session, identity) == Some(|old(history)|))
    {
      ghost var event := Record(session, identity, generation, requestGeneration, usage);
      ghost var before := history;
      history := history + [event];
      var key := AccountingKey(session, identity);
      if GenerationOf(generations, session) != generation
         || !usage.totalTokens.IsCount() || !usage.inputItemCount.IsCount() {
        taken := false;
      } else if key in accounting && accounting[key].generation == generation
                && accounting[key].requestGeneration > requestGeneration {
        taken := false;
      } else {
        accounting := accounting[key := Entry(generation, requestGeneration, usage)];
        taken := true;
      }
      if AllWellNamed(history) {
        PrefixWellNamed(before, event);
        assert EntryAgrees(before, old(accounting), session, identity);
        KeptIsCurrent(before, session, identity);
        KeptAfter(before, event, session, identity);
        if Timely(before, event) {
          RecordRefines(before, event, generations, activeIdentities, old(accounting), accounting);
        } else {
          QuietRefines(before, event, generations, activeIdentities, accounting);
        }
      }
    }

    method InvalidateContextAccounting(session: string)
      requires Valid()
      modifies this`generations, this`accounting, this`history
      ensures Valid() && history == old(history) + [Invalidate(session)]
    {
      ForgetRefines(history, Invalidate(session), generations, activeIdentities, accounting);
      generations := BumpedOne(generations, session);
      accounting := DropRecords(accounting, session);
      history := history + [Invalidate(session)];
    }

    method DisposeSession(session: string)
      requires Valid()
      modifies this
      ensures Valid() && history == old(history) + [Dispose(session)]
    {
      ForgetRefines(history, Dispose(session), generations, activeIdentities, accounting);
      generations := BumpedOne(generations, session);
      activeIdentities := activeIdentities - {session};
      accounting := DropRecords(accounting, session);
      history := history + [Dispose(session)];
    }

    method DisposeEverything()
      requires Valid()
      modifies this
      ensures Valid() && history == old(history) + [DisposeAll]
      ensures activeIdentities == map[] && accounting == map[]
    {
      var sessions := generations.Keys + activeIdentities.Keys;
      var next := BumpAll(generations, sessions);
      DisposeAllRefines(history, generations, activeIdentities, accounting, sessions, next);
      ClearTo(next);
    }

    method ClearTo(next: map<string, nat>)
      requires Refines(history + [DisposeAll], next, map[], map[])
      modifies this
      ensures Valid() && history == old(history) + [DisposeAll]
      ensures activeIdentities == map[] && accounting == map[]
    {
      generations, activeIdentities, accounting := next, map[], map[];
      history := history + [DisposeAll];
    }
  }
}
