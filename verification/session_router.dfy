/**
 The process-wide session router. It finds the dispatchers of a session through buckets of weak
 references, which leases enter and leave and which garbage collection empties behind its back. All
 of that must agree with the plain set of live leases.
 */
module SessionRouter {
  import opened Outcomes

  /** The identity of a lease's binding object. */
  type Token = nat

  datatype SessionId = SessionId(text: string)

  datatype Binding = Binding(session: Option<SessionId>, released: bool)

  /** `collected` holds the bindings that garbage collection took; `registered` what the finalizer still watches. */
  datatype State = State(
    buckets: map<SessionId, set<Token>>, bindings: map<Token, Binding>, registered: map<Token, SessionId>, collected: set<Token>)

  const EMPTY := State(map[], map[], map[], {})

  datatype Resolution = Found(token: Token) | Unavailable | Ambiguous

  /** White space and line terminators in the sense of ECMAScript's `trim`. */
  predicate IsSpace(c: char) {
    || '\t' <= c <= '\r' || c == ' ' || c == '\U{00A0}' || c == '\U{1680}' || '\U{2000}' <= c <= '\U{200A}'
    || c == '\U{2028}' || c == '\U{2029}' || c == '\U{202F}' || c == '\U{205F}' || c == '\U{3000}' || c == '\U{FEFF}'
  }

  predicate IsBlank(session: SessionId) {
    forall i :: 0 <= i < |session.text| ==> IsSpace(session.text[i])
  }

  // ---------------------------------------------------------------- buckets

  function BucketOf(buckets: map<SessionId, set<Token>>, session: SessionId): set<Token> {
    if session in buckets then buckets[session] else {}
  }

  /** A bucket is stored only while it holds something. */
  function WithBucket(buckets: map<SessionId, set<Token>>, session: SessionId, bucket: set<Token>): map<SessionId, set<Token>> {
    if bucket == {} then buckets - {session} else buckets[session := bucket]
  }

  function Removed(buckets: map<SessionId, set<Token>>, session: SessionId, token: Token): map<SessionId, set<Token>> {
    if session in buckets then WithBucket(buckets, session, buckets[session] - {token}) else buckets
  }

  function Added(buckets: map<SessionId, set<Token>>, session: SessionId, token: Token): map<SessionId, set<Token>> {
    buckets[session := BucketOf(buckets, session) + {token}]
  }

  // ---------------------------------------------------------------- the operations, on values

  /** A lease that can still be used: its binding exists and is not garbage. */
  predicate Exists(s: State, token: Token) { token in s.bindings && token !in s.collected }

  predicate IsLive(s: State, session: SessionId, token: Token) {
    Exists(s, token) && !s.bindings[token].released && s.bindings[token].session == Some(session)
  }

  function LiveIn(s: State, session: SessionId): set<Token> {
    set token | token in BucketOf(s.buckets, session) && IsLive(s, session, token)
  }

  function Created(s: State, token: Token): State {
    if token in s.bindings then s else s.(bindings := s.bindings[token := Binding(None, false)])
  }

  predicate Refuses(s: State, token: Token, session: SessionId)
    requires token in s.bindings
  {
    IsBlank(session) || s.bindings[token].released
  }

  function Bound(s: State, token: Token, session: SessionId): State
    requires token in s.bindings
  {
    if Refuses(s, token, session) then s else
    var previous := s.bindings[token].session;
    var buckets := if previous.Some? then Removed(s.buckets, previous.value, token) else s.buckets;
    s.(buckets := Added(buckets, session, token),
       bindings := s.bindings[token := Binding(Some(session), false)],
       registered := s.registered[token := session])
  }

  function Released(s: State, token: Token): State
    requires token in s.bindings
  {
    if s.bindings[token].released then s else
    var previous := s.bindings[token].session;
    s.(buckets := if previous.Some? then Removed(s.buckets, previous.value, token) else s.buckets,
       bindings := s.bindings[token := Binding(None, true)],
       registered := s.registered - {token})
  }

  function Collected(s: State, token: Token): State {
    if token in s.bindings then s.(collected := s.collected + {token}) else s
  }

  /** The finalizer's callback runs some time after a watched binding was collected. */
  function Finalized(s: State, token: Token): State {
    if token in s.collected && token in s.registered
    then s.(buckets := Removed(s.buckets, s.registered[token], token), registered := s.registered - {token})
    else s
  }

  /** Looking a session up drops what is no longer live from its bucket. */
  function Looked(s: State, session: SessionId): State {
    if session in s.buckets then s.(buckets := WithBucket(s.buckets, session, LiveIn(s, session))) else s
  }

  datatype Step =
    | Create(token: Token)
    | Bind(token: Token, session: SessionId)
    | Release(token: Token)
    | Collect(token: Token)
    | Finalize(token: Token)
    | Dispatch(session: SessionId)

  function Apply(s: State, step: Step): State {
    match step
    case Create(token) => Created(s, token)
    case Bind(token, session) => if Exists(s, token) then Bound(s, token, session) else s
    case Release(token) => if Exists(s, token) then Released(s, token) else s
    case Collect(token) => Collected(s, token)
    case Finalize(token) => Finalized(s, token)
    case Dispatch(session) => if IsBlank(session) then s else Looked(s, session)
  }

  function Run(steps: seq<Step>): State {
    if steps == [] then EMPTY else Apply(Run(steps[..|steps| - 1]), steps[|steps| - 1])
  }

  // ---------------------------------------------------------------- the plain set of leases

  /** Which lease serves which session, and which leases can still be bound. */
  datatype Leases = Leases(serving: map<Token, SessionId>, usable: set<Token>, ever: set<Token>)

  function LeasesAfter(l: Leases, step: Step): Leases {
    match step
    case Create(token) => if token in l.ever then l else l.(usable := l.usable + {token}, ever := l.ever + {token})
    case Bind(token, session) =>
      if token in l.usable && !IsBlank(session) then l.(serving := l.serving[token := session]) else l
    case Release(token) => l.(serving := l.serving - {token}, usable := l.usable - {token})
    case Collect(token) => l.(serving := l.serving - {token}, usable := l.usable - {token})
    case Finalize(_) => l
    case Dispatch(_) => l
  }

  function LeasesOf(steps: seq<Step>): Leases {
    if steps == [] then Leases(map[], {}, {}) else LeasesAfter(LeasesOf(steps[..|steps| - 1]), steps[|steps| - 1])
  }

  function Serving(l: Leases, session: SessionId): set<Token> {
    set token | token in l.serving && l.serving[token] == session
  }

  // ---------------------------------------------------------------- what every run keeps

  ghost predicate NoneEmpty(buckets: map<SessionId, set<Token>>) {
    forall session :: session in buckets ==> buckets[session] != {}
  }

  /** Where tokens are, as far as lookups can tell. */
  predicate InBucket(buckets: map<SessionId, set<Token>>, session: SessionId, token: Token) {
    session in buckets && token in buckets[session]
  }

  /** No bucket is empty, and a token is only in the bucket of the session its unreleased binding names. */
  ghost predicate Tidy(s: State) {
    && NoneEmpty(s.buckets)
    && (forall session, token :: InBucket(s.buckets, session, token) ==>
          token in s.bindings && s.bindings[token] == Binding(Some(session), false))
    && (forall token :: token in s.bindings && s.bindings[token].released ==> s.bindings[token].session.None?)
    && (forall token :: token in s.registered ==>
          token in s.bindings && s.bindings[token] == Binding(Some(s.registered[token]), false))
    && s.collected <= s.bindings.Keys
  }

  /** Live leases are in their bucket, and the plain set is made of just them. */
  ghost predicate Agrees(s: State, l: Leases) {
    && l.ever == s.bindings.Keys
    && (forall token :: token in l.usable <==> Exists(s, token) && !s.bindings[token].released)
    && (forall token :: token in l.serving <==> token in l.usable && s.bindings[token].session.Some?)
    && (forall token :: token in l.serving ==>
          s.bindings[token].session == Some(l.serving[token]) && InBucket(s.buckets, l.serving[token], token))
  }

  lemma InRemoved(buckets: map<SessionId, set<Token>>, session: SessionId, token: Token)
    requires NoneEmpty(buckets)
    ensures NoneEmpty(Removed(buckets, session, token))
    ensures forall other, t ::
      (InBucket(Removed(buckets, session, token), other, t) <==> InBucket(buckets, other, t) && !(other == session && t == token))
  {
    forall t | InBucket(buckets, session, t) && t != token
      ensures InBucket(Removed(buckets, session, token), session, t)
    {
      assert t in buckets[session] - {token};
    }
  }

  lemma InAdded(buckets: map<SessionId, set<Token>>, session: SessionId, token: Token)
    requires NoneEmpty(buckets)
    ensures NoneEmpty(Added(buckets, session, token))
    ensures forall other, t ::
      (InBucket(Added(buckets, session, token), other, t) <==> InBucket(buckets, other, t) || (other == session && t == token))
  {
  }

  /** Rebinding leaves the old bucket before it enters the new one. */
  lemma BoundBuckets(s: State, token: Token, session: SessionId)
    requires Tidy(s) && token in s.bindings && !Refuses(s, token, session)
    ensures NoneEmpty(Bound(s, token, session).buckets)
    ensures forall other, t :: (InBucket(Bound(s, token, session).buckets, other, t)
                                <==> if t == token then other == session else InBucket(s.buckets, other, t))
  {
    var previous := s.bindings[token].session;
    var buckets := if previous.Some? then Removed(s.buckets, previous.value, token) else s.buckets;
    if previous.Some? {
      InRemoved(s.buckets, previous.value, token);
    }
    InAdded(buckets, session, token);
  }

  lemma BoundKeeps(s: State, l: Leases, token: Token, session: SessionId)
    requires Tidy(s) && Agrees(s, l) && Exists(s, token)
    ensures Tidy(Bound(s, token, session)) && Agrees(Bound(s, token, session), LeasesAfter(l, Bind(token, session)))
  {
    if !Refuses(s, token, session) {
      BoundBuckets(s, token, session);
    }
  }

  lemma ReleasedKeeps(s: State, l: Leases, token: Token)
    requires Tidy(s) && Agrees(s, l) && Exists(s, token)
    ensures Tidy(Released(s, token)) && Agrees(Released(s, token), LeasesAfter(l, Release(token)))
  {
    if s.bindings[token].session.Some? {
      InRemoved(s.buckets, s.bindings[token].session.value, token);
    }
  }

  lemma FinalizedKeeps(s: State, l: Leases, token: Token)
    requires Tidy(s) && Agrees(s, l)
    ensures Tidy(Finalized(s, token)) && Agrees(Finalized(s, token), l)
  {
    if token in s.registered {
      InRemoved(s.buckets, s.registered[token], token);
    }
  }

  lemma LookedKeeps(s: State, l: Leases, session: SessionId)
    requires Tidy(s) && Agrees(s, l)
    ensures Tidy(Looked(s, session)) && Agrees(Looked(s, session), l)
  {
    var buckets := Looked(s, session).buckets;
    forall token | token in l.serving
      ensures InBucket(buckets, l.serving[token], token)
    {
      if l.serving[token] == session {
        assert token in LiveIn(s, session);
      }
    }
    forall other, token | InBucket(buckets, other, token)
      ensures InBucket(s.buckets, other, token)
    {
    }
  }

  lemma CreatedKeeps(s: State, l: Leases, token: Token)
    requires Tidy(s) && Agrees(s, l)
    ensures Tidy(Created(s, token)) && Agrees(Created(s, token), LeasesAfter(l, Create(token)))
  {
  }

  lemma CollectedKeeps(s: State, l: Leases, token: Token)
    requires Tidy(s) && Agrees(s, l)
    ensures Tidy(Collected(s, token)) && Agrees(Collected(s, token), LeasesAfter(l, Collect(token)))
  {
  }

  lemma StepKeeps(s: State, l: Leases, step: Step)
    requires Tidy(s) && Agrees(s, l)
    ensures Tidy(Apply(s, step)) && Agrees(Apply(s, step), LeasesAfter(l, step))
  {
    match step
    case Create(token) => CreatedKeeps(s, l, token);
    case Bind(token, session) => if Exists(s, token) { BoundKeeps(s, l, token, session); }
    case Release(token) => if Exists(s, token) { ReleasedKeeps(s, l, token); }
    case Collect(token) => CollectedKeeps(s, l, token);
    case Finalize(token) => FinalizedKeeps(s, l, token);
    case Dispatch(session) => LookedKeeps(s, l, session);
  }

  lemma {:induction false} RunKeeps(steps: seq<Step>)
    ensures Tidy(Run(steps)) && Agrees(Run(steps), LeasesOf(steps))
  {
    if steps != [] {
      RunKeeps(steps[..|steps| - 1]);
      StepKeeps(Run(steps[..|steps| - 1]), LeasesOf(steps[..|steps| - 1]), steps[|steps| - 1]);
    }
  }

  /** The three answers, as statements about the leases that serve a session. */
  predicate Answers(resolution: Resolution, serving: set<Token>) {
    match resolution
    case Found(token) => serving == {token}
    case Unavailable => serving == {}
    case Ambiguous => |serving| >= 2
  }

  /** In every run, what is live in a session's bucket is exactly the set of leases serving the session. */
  lemma LiveAreServing(steps: seq<Step>, session: SessionId)
    ensures LiveIn(Run(steps), session) == Serving(LeasesOf(steps), session)
    ensures forall other :: other in Run(steps).buckets ==> Run(steps).buckets[other] != {}
  {
    RunKeeps(steps);
  }

  // ---------------------------------------------------------------- the router

  function Servable(bindings: map<Token, Binding>, alive: set<Token>, session: SessionId, bucket: set<Token>): set<Token> {
    set token | token in bucket && token in alive && token in bindings && bindings[token] == Binding(Some(session), false)
  }

  class Router {
    var buckets: map<SessionId, set<Token>>
    var bindings: map<Token, Binding>
    var registered: map<Token, SessionId>
    ghost var collected: set<Token>
    ghost var history: seq<Step>

    ghost function View(): State
      reads this
    {
      State(buckets, bindings, registered, collected)
    }

    ghost predicate Valid()
      reads this
    {
      View() == Run(history)
    }

    constructor ()
      ensures Valid() && history == []
    {
      buckets, bindings, registered, collected, history := map[], map[], map[], {}, [];
    }

    method RemoveToken(session: SessionId, token: Token)
      modifies this`buckets
      ensures buckets == Removed(old(buckets), session, token)
    {
      if session !in buckets {
        return;
      }
      var bucket := buckets[session] - {token};
      if bucket == {} {
        buckets := buckets - {session};
      } else {
        buckets := buckets[session := bucket];
      }
    }

    method CreateLease(token: Token)
      requires Valid() && token !in bindings
      modifies this
      ensures Valid() && history == old(history) + [Create(token)] && Exists(View(), token)
    {
      RunOneMore(history, Create(token));
      RunKeeps(history);
      bindings := bindings[token := Binding(None, false)];
      history := history + [Create(token)];
    }

    /** Binding fails for a blank session id or a released lease, and then changes nothing. */
    method BindLease(token: Token, session: SessionId) returns (bound: bool)
      requires Valid() && Exists(View(), token)
      modifies this
      ensures Valid() && history == old(history) + [Bind(token, session)]
      ensures bound <==> !IsBlank(session) && !old(bindings)[token].released
      ensures !bound ==> View() == old(View())
    {
      RunOneMore(history, Bind(token, session));
      history := history + [Bind(token, session)];
      var binding := bindings[token];
      if IsBlank(session) || binding.released {
        return false;
      }
      if binding.session.Some? {
        registered := registered - {token};
        RemoveToken(binding.session.value, token);
      }
      bindings := bindings[token := Binding(Some(session), false)];
      var bucket := if session in buckets then buckets[session] else {};
      buckets := buckets[session := bucket + {token}];
      registered := registered[token := session];
      return true;
    }

    method ReleaseLease(token: Token)
      requires Valid() && Exists(View(), token)
      modifies this
      ensures Valid() && history == old(history) + [Release(token)]
    {
      RunOneMore(history, Release(token));
      history := history + [Release(token)];
      var binding := bindings[token];
      if binding.released {
        return;
      }
      registered := registered - {token};
      if binding.session.Some? {
        RemoveToken(binding.session.value, token);
      }
      bindings := bindings[token := Binding(None, true)];
    }

    /** Garbage collection is not the router's doing: only the ghost record of it changes. */
    ghost method CollectBinding(token: Token)
      requires Valid() && token in bindings
      modifies this`collected, this`history
      ensures Valid() && history == old(history) + [Collect(token)]
    {
      RunOneMore(history, Collect(token));
      collected := collected + {token};
      history := history + [Collect(token)];
    }

    method FinalizeBinding(token: Token)
      requires Valid() && token in collected && token in registered
      modifies this
      ensures Valid() && history == old(history) + [Finalize(token)]
    {
      RunOneMore(history, Finalize(token));
      RemoveToken(registered[token], token);
      registered := registered - {token};
      history := history + [Finalize(token)];
    }

    /** The tokens of a bucket whose weak reference still resolves to a binding of this session. */
    method Prune(session: SessionId, bucket: set<Token>, alive: set<Token>) returns (kept: set<Token>, live: set<Token>)
      requires bucket <= bindings.Keys
      ensures kept == live == Servable(bindings, alive, session, bucket)
    {
      var rest := bucket;
      kept, live := bucket, {};
      assert bucket - rest == {};
      while rest != {}
        invariant rest <= bucket && kept == rest + live
        invariant live == Servable(bindings, alive, session, bucket - rest)
        decreases |rest|
      {
        var token :| token in rest;
        assert bucket - (rest - {token}) == bucket - rest + {token};
        rest := rest - {token};
        if token !in alive || bindings[token].released || bindings[token].session != Some(session) {
          kept := kept - {token};
        } else {
          live := live + {token};
        }
      }
      assert bucket - rest == bucket;
    }

    /** `alive` tells which weak references still resolve. */
    method Resolve(session: SessionId, alive: set<Token>) returns (resolution: Resolution)
      requires Valid() && alive == bindings.Keys - collected
      modifies this`buckets
      ensures Answers(resolution, Serving(LeasesOf(history), session))
      ensures View() == Looked(old(View()), session)
    {
      RunKeeps(history);
      LiveAreServing(history, session);
      if session !in buckets {
        return Unavailable;
      }
      assert forall token :: token in buckets[session] ==> InBucket(buckets, session, token);
      var kept, live := Prune(session, buckets[session], alive);
      assert live == LiveIn(View(), session);
      buckets := WithBucket(buckets, session, kept);
      resolution := Judge(live);
    }

    method Judge(live: set<Token>) returns (resolution: Resolution)
      ensures Answers(resolution, live)
    {
      if live == {} {
        return Unavailable;
      }
      var token :| token in live;
      if live == {token} {
        return Found(token);
      }
      assert live == {token} + (live - {token}) && |live - {token}| > 0;
      return Ambiguous;
    }

    /** The route of a dispatched request: a blank or missing session id never has one. */
    method DispatchTo(session: Option<SessionId>, alive: set<Token>) returns (resolution: Resolution)
      requires Valid() && alive == bindings.Keys - collected
      modifies this
      ensures Valid()
      ensures session.None? || IsBlank(session.value) ==> resolution == Unavailable && View() == old(View())
      ensures session.Some? && !IsBlank(session.value) ==>
        Answers(resolution, Serving(LeasesOf(old(history)), session.value)) && history == old(history) + [Dispatch(session.value)]
    {
      if session.None? || IsBlank(session.value) {
        return Unavailable;
      }
      RunOneMore(history, Dispatch(session.value));
      resolution := Resolve(session.value, alive);
      history := history + [Dispatch(session.value)];
    }
  }

  lemma RunOneMore(history: seq<Step>, step: Step)
    ensures Run(history + [step]) == Apply(Run(history), step)
  {
    assert (history + [step])[..|history|] == history;
  }
}
