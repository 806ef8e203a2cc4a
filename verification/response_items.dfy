/**
 What the response events bring, item by item, against what the response state stores. The state does
 not know items apart: a finished message is compared with the whole open block, and a block goes on
 from one message to the next.
 */
module ResponseItems {
  import opened Outcomes
  import opened ResponseStream

  // ---------------------------------------------------------------- what the events bring

  /** The event that finishes an item of a kind. */
  predicate Finishes(event: Incoming, kind: Kind) {
    if kind.TextKind? then event.MessageDone? else event.ReasoningDone?
  }

  function DeltaOf(event: Incoming, kind: Kind): Option<string> {
    match event
    case TextArrived(delta) => if kind.TextKind? then Some(delta) else None
    case ThinkingArrived(delta) => if kind.TextKind? then None else Some(delta)
    case _ => None
  }

  function SearchOf(event: Incoming, kind: Kind): Option<string> {
    if event.WebSearchDone? && event.encoded.Some? && kind.TextKind? then Some(event.summary) else None
  }

  /** Events after which no block of the kind is open. */
  predicate Closes(event: Incoming, kind: Kind) {
    match event
    case TextArrived(_) => kind.ThinkingKind?
    case ThinkingArrived(_) => kind.TextKind?
    case MessageDone(_, _) => kind.ThinkingKind?
    case ReasoningDone(_, encoded) => kind.TextKind? && (FinishedWith(event, ThinkingKind).Some? || encoded.Some?)
    case ToolCallDone(called) => called.Callable?
    case WebSearchDone(_, _) => true
    case OpaqueDone(_) => true
    case Unrelated => false
  }

  /**
   The text of a kind that a sequence of events brings: per item its completed text if it has one and
   otherwise its deltas, and the summary of each search. `finished` is what finished items brought,
   `deltas` what has arrived for the item still under way. Of these, `base` and `here` are in the block
   now open.
   */
  datatype Ledger = Ledger(finished: string, deltas: string, base: string, here: string)

  function Bring(l: Ledger, event: Incoming, kind: Kind): Ledger {
    if DeltaOf(event, kind).Some? then
      var delta := DeltaOf(event, kind).value;
      l.(deltas := l.deltas + delta, here := l.here + delta)
    else if SearchOf(event, kind).Some? then
      Ledger(l.finished + l.deltas + SearchOf(event, kind).value, "", "", "")
    else if FinishedWith(event, kind).Some? then
      var completed := FinishedWith(event, kind).value;
      Ledger(l.finished + completed, "", l.base + completed, "")
    else if Finishes(event, kind) then Ledger(l.finished + l.deltas, "", l.base + l.here, "")
    else if Closes(event, kind) then l.(base := "", here := "")
    else l
  }

  function LedgerOf(events: seq<Incoming>, kind: Kind): Ledger {
    if events == [] then Ledger("", "", "", "") else Bring(LedgerOf(events[..|events| - 1], kind), events[|events| - 1], kind)
  }

  function Brought(events: seq<Incoming>, kind: Kind): string {
    LedgerOf(events, kind).finished + LedgerOf(events, kind).deltas
  }

  function CallsBrought(events: seq<Incoming>): seq<string> {
    if events == [] then [] else CallsPlus(CallsBrought(events[..|events| - 1]), events[|events| - 1])
  }

  /**
   When a completed item is stored right: its deltas are all there is in the block and begin it; or
   there were none, and the block is not a beginning of it.
   */
  predicate Fits(l: Ledger, completed: string) {
    || (l.base == "" && l.here == l.deltas && l.deltas <= completed)
    || (l.deltas == "" && !(l.base <= completed))
  }

  predicate FitsEvent(l: Ledger, event: Incoming, kind: Kind) {
    FinishedWith(event, kind).Some? ==> Fits(l, FinishedWith(event, kind).value)
  }

  // ---------------------------------------------------------------- what an event does to the open block

  /** The text of the open block after an event. */
  function ArrivedNext(arrived: string, event: Incoming, kind: Kind): string {
    if Closes(event, kind) then "" else
    if DeltaOf(event, kind).Some? then arrived + DeltaOf(event, kind).value else
    if FinishedWith(event, kind).Some? then Joined(arrived, FinishedWith(event, kind).value) else arrived
  }

  /** The block of a completed item: the completed text if the block began it, otherwise both. */
  function Joined(arrived: string, completed: string): string {
    if arrived <= completed then completed else arrived + completed
  }

  lemma MissingJoins(arrived: string, completed: string)
    ensures Plus(arrived, SomeText(Missing(arrived, completed))) == Joined(arrived, completed)
  {
    if arrived <= completed && arrived != completed {
      assert arrived + completed[|arrived|..] == completed;
    }
  }

  /** What has arrived of an open block is what it says. */
  lemma OpenBlockArrived(s: State, kind: Kind, last: nat)
    requires last < |s.content| && Has(s.content[last], kind)
    requires (if kind.TextKind? then s.textIndex else s.thinkingIndex) == Some(last)
    ensures ArrivedOf(s, kind) == StringOf(s.content[last], kind)
  {
  }

  lemma AppendedTextArrived(s: State, delta: string)
    requires Streamed(s)
    ensures ArrivedOf(AppendText(s, delta), TextKind) == ArrivedOf(s, TextKind) + delta
    ensures AppendText(s, delta).thinkingIndex.None?
  {
    EnsuredArrived(s);
    var t, last, grown := AppendedText(s, delta);
    OpenBlockArrived(t, TextKind, last);
    OpenBlockArrived(AppendText(s, delta), TextKind, last);
  }

  lemma AppendedThinkingArrived(s: State, delta: string)
    requires Streamed(s)
    ensures ArrivedOf(AppendThinking(s, delta), ThinkingKind) == ArrivedOf(s, ThinkingKind) + delta
    ensures AppendThinking(s, delta).textIndex.None?
  {
    EnsuredArrived(s);
    var t, last, grown := AppendedThinking(s, delta);
    OpenBlockArrived(t, ThinkingKind, last);
    OpenBlockArrived(AppendThinking(s, delta), ThinkingKind, last);
  }

  lemma CompletedTextArrived(s: State, completed: Option<string>)
    requires Streamed(s)
    ensures ArrivedOf(ApplyCompletedText(s, completed), TextKind)
         == ArrivedNext(ArrivedOf(s, TextKind), MessageDone(completed, None), TextKind)
  {
    if completed.Some? && completed.value != "" {
      AppliedText(s, completed.value);
      EnsuredArrived(s);
      MissingJoins(ArrivedOf(s, TextKind), completed.value);
      var delta := Missing(ArrivedOf(s, TextKind), completed.value);
      if delta != "" {
        AppendedTextArrived(EnsureText(s), delta);
      }
    }
  }

  lemma CompletedThinkingArrived(s: State, completed: Option<string>)
    requires Streamed(s)
    ensures ArrivedOf(ApplyCompletedThinking(s, completed), ThinkingKind)
         == ArrivedNext(ArrivedOf(s, ThinkingKind), ReasoningDone(completed, None), ThinkingKind)
    ensures completed.Some? && completed.value != "" ==> ApplyCompletedThinking(s, completed).textIndex.None?
  {
    if completed.Some? && completed.value != "" {
      AppliedThinking(s, completed.value);
      EnsuredArrived(s);
      EnsureThinkingStreamed(s);
      MissingJoins(ArrivedOf(s, ThinkingKind), completed.value);
      var delta := Missing(ArrivedOf(s, ThinkingKind), completed.value);
      if delta != "" {
        AppendedThinkingArrived(EnsureThinking(s), delta);
      }
    }
  }

  lemma SignedTextArrived(s: State, encoded: Option<string>)
    requires Streamed(s)
    ensures ArrivedOf(SignText(s, encoded), TextKind) == ArrivedOf(s, TextKind)
    ensures SignText(s, encoded).thinkingIndex.None?
  {
    EnsuredArrived(s);
    EnsureTextStreamed(s);
    if encoded.Some? {
      var t, last := SignedText(s, encoded);
    }
  }

  lemma SignedThinkingArrived(s: State, encoded: Option<string>)
    requires Streamed(s)
    ensures ArrivedOf(SignThinking(s, encoded), ThinkingKind) == ArrivedOf(s, ThinkingKind)
    ensures encoded.Some? ==> SignThinking(s, encoded).textIndex.None?
    ensures encoded.None? ==> SignThinking(s, encoded) == s
  {
    EnsuredArrived(s);
    if encoded.Some? {
      var t, last := SignedThinking(s, encoded);
    }
  }

  lemma MessageArrived(s: State, completed: Option<string>, encoded: Option<string>, kind: Kind)
    requires Streamed(s)
    ensures ArrivedOf(Accepted(s, MessageDone(completed, encoded)), kind)
         == ArrivedNext(ArrivedOf(s, kind), MessageDone(completed, encoded), kind)
  {
    CompletedTextArrived(s, completed);
    CompletedTextStreamed(s, completed);
    SignedTextArrived(ApplyCompletedText(s, completed), encoded);
  }

  lemma ReasoningArrived(s: State, completed: Option<string>, encoded: Option<string>, kind: Kind)
    requires Streamed(s)
    ensures ArrivedOf(Accepted(s, ReasoningDone(completed, encoded)), kind)
         == ArrivedNext(ArrivedOf(s, kind), ReasoningDone(completed, encoded), kind)
  {
    CompletedThinkingArrived(s, completed);
    CompletedThinkingStreamed(s, completed);
    SignedThinkingArrived(ApplyCompletedThinking(s, completed), encoded);
  }

  /** The open block after any event. */
  lemma BlockAfter(s: State, event: Incoming, kind: Kind)
    requires Streamed(s)
    ensures ArrivedOf(Accepted(s, event), kind) == ArrivedNext(ArrivedOf(s, kind), event, kind)
  {
    match event
    case TextArrived(delta) => AppendedTextArrived(s, delta);
    case ThinkingArrived(delta) => AppendedThinkingArrived(s, delta);
    case MessageDone(completed, encoded) => MessageArrived(s, completed, encoded, kind);
    case ReasoningDone(completed, encoded) => ReasoningArrived(s, completed, encoded, kind);
    case ToolCallDone(_) =>
    case WebSearchDone(_, _) =>
    case OpaqueDone(_) =>
    case Unrelated =>
  }

  /** The stored text of a kind ends in what is in the open block. */
  lemma StoredEndsInBlock(s: State, kind: Kind) returns (before: string)
    requires Streamed(s)
    ensures AllOf(s.content, kind) == before + ArrivedOf(s, kind)
  {
    var index := if kind.TextKind? then s.textIndex else s.thinkingIndex;
    if index.Some? {
      before := AllOf(s.content[..|s.content| - 1], kind);
    } else {
      before := AllOf(s.content, kind);
      NothingAdded(before);
    }
  }

  // ---------------------------------------------------------------- one finished item

  /**
   A finished item over its block, where `base` is what the block held when the item before it
   finished and `deltas` what has arrived since: the block comes to hold both items exactly if nothing
   was there before and the deltas begin the item, or something was there, no delta came, and it does
   not begin the item.
   */
  lemma CompletedTextIsExact(s: State, base: string, deltas: string, event: Incoming, kind: Kind)
    requires Streamed(s) && ArrivedOf(s, kind) == base + deltas && FinishedWith(event, kind).Some?
    ensures var completed, block := FinishedWith(event, kind).value, ArrivedOf(Accepted(s, event), kind);
      && block == Joined(base + deltas, completed)
      && (block == base + completed <==>
          (base == "" && deltas <= completed) || (base != "" && deltas == "" && !(base <= completed)))
  {
    BlockAfter(s, event, kind);
    JoinedIsBoth(base, deltas, FinishedWith(event, kind).value);
  }

  lemma JoinedIsBoth(base: string, deltas: string, completed: string)
    requires completed != ""
    ensures Joined(base + deltas, completed) == base + completed <==>
      (base == "" && deltas <= completed) || (base != "" && deltas == "" && !(base <= completed))
  {
    assert |base + completed| == |base| + |completed|;
    if base == "" {
      assert base + deltas == deltas && base + completed == completed;
    } else if deltas == "" {
      assert base + deltas == base;
    } else {
      assert |base + deltas + completed| > |base + completed|;
    }
  }

  // ---------------------------------------------------------------- whole responses

  /** How the ledger knows the open block. */
  ghost predicate Knows(l: Ledger, arrived: string) {
    && arrived == l.base + l.here && |l.here| <= |l.deltas|
    && (l.base != "" ==> l.here == l.deltas)
  }

  /** One event, told in strings: it keeps the stored text right exactly if it fits. */
  lemma BringStep(l: Ledger, all: string, before: string, arrived: string, event: Incoming, kind: Kind)
    requires Knows(l, arrived) && all == before + arrived && all == l.finished + l.deltas
    ensures var next := Bring(l, event, kind);
      && (Plus(all, AddedTo(arrived, event, kind)) == next.finished + next.deltas <==> FitsEvent(l, event, kind))
      && (FitsEvent(l, event, kind) ==> Knows(next, ArrivedNext(arrived, event, kind)))
  {
    if FinishedWith(event, kind).Some? {
      FinishStep(l, all, before, arrived, FinishedWith(event, kind).value);
    } else if DeltaOf(event, kind).Some? {
      Associates(l.finished, l.deltas, DeltaOf(event, kind).value);
      Associates(l.base, l.here, DeltaOf(event, kind).value);
    } else {
      NothingAdded(l.finished + l.deltas);
      if SearchOf(event, kind).Some? {
        NothingAdded(l.finished + l.deltas + SearchOf(event, kind).value);
      }
      NothingAdded(l.base + l.here);
    }
  }

  lemma Associates(a: string, b: string, c: string)
    ensures a + b + c == a + (b + c)
  {
  }

  lemma FinishStep(l: Ledger, all: string, before: string, arrived: string, completed: string)
    requires Knows(l, arrived) && all == before + arrived && all == l.finished + l.deltas && completed != ""
    ensures Plus(all, SomeText(Missing(arrived, completed))) == l.finished + completed <==> Fits(l, completed)
    ensures Fits(l, completed) ==> Joined(arrived, completed) == l.base + completed
    ensures l.finished + completed + "" == l.finished + completed && l.base + completed + "" == l.base + completed
  {
    NothingAdded(l.finished + completed);
    NothingAdded(l.base + completed);
    FitsByBlock(l, arrived, completed);
    if arrived <= completed {
      MissingAtEnd(before, arrived, completed);
      SameEnd(before, l.finished, completed);
      SameWhole(before, arrived, l.finished, l.deltas);
    } else {
      SameMiddle(l.finished, l.deltas, completed);
    }
  }

  /** The condition in terms of the block as it is. */
  lemma FitsByBlock(l: Ledger, arrived: string, completed: string)
    requires Knows(l, arrived)
    ensures Fits(l, completed) <==> (arrived <= completed && arrived == l.deltas) || (!(arrived <= completed) && l.deltas == "")
    ensures Fits(l, completed) ==> Joined(arrived, completed) == l.base + completed
  {
    if l.base == "" {
      assert arrived == l.here && l.base + completed == completed;
    } else {
      assert |arrived| > |l.deltas|;
      if l.deltas == "" {
        assert arrived == l.base;
      }
    }
  }

  lemma MissingAtEnd(before: string, arrived: string, completed: string)
    requires arrived <= completed
    ensures Plus(before + arrived, SomeText(Missing(arrived, completed))) == before + completed
  {
    if arrived != completed {
      assert arrived + completed[|arrived|..] == completed;
      assert before + arrived + completed[|arrived|..] == before + (arrived + completed[|arrived|..]);
    }
  }

  lemma SameEnd(a: string, b: string, end: string)
    ensures a + end == b + end <==> a == b
  {
    if a + end == b + end {
      assert a == (a + end)[..|a|] == (b + end)[..|b|] == b;
    }
  }

  lemma SameWhole(a: string, b: string, c: string, d: string)
    requires a + b == c + d
    ensures a == c <==> b == d
  {
    if a == c {
      assert b == (a + b)[|a|..] == (c + d)[|c|..] == d;
    }
    if b == d {
      assert |a| == |c|;
      assert a == (a + b)[..|a|] == (c + d)[..|c|] == c;
    }
  }

  lemma SameMiddle(a: string, middle: string, end: string)
    ensures a + middle + end == a + end <==> middle == ""
  {
    if middle == "" {
      assert a + middle == a;
    } else {
      assert |a + middle + end| > |a + end|;
    }
  }

  /** Whether what is stored after these events is what they brought. */
  ghost predicate StoresBrought(events: seq<Incoming>, kind: Kind) {
    AllOf(AcceptedAll(INITIAL, events).content, kind) == Brought(events, kind)
  }

  /** Whether the event at a position fits what the events before it brought. */
  predicate FitsAt(events: seq<Incoming>, k: nat, kind: Kind)
    requires k < |events|
  {
    FitsEvent(LedgerOf(events[..k], kind), events[k], kind)
  }

  lemma StepStoresBrought(events: seq<Incoming>, kind: Kind)
    requires events != []
    requires var front := events[..|events| - 1];
      StoresBrought(front, kind) && Knows(LedgerOf(front, kind), ArrivedOf(AcceptedAll(INITIAL, front), kind))
    ensures StoresBrought(events, kind) <==> FitsAt(events, |events| - 1, kind)
    ensures FitsAt(events, |events| - 1, kind) ==>
      Knows(LedgerOf(events, kind), ArrivedOf(AcceptedAll(INITIAL, events), kind))
  {
    var front, last := events[..|events| - 1], events[|events| - 1];
    var s := AcceptedAll(INITIAL, front);
    AcceptedAllStreamed(front);
    var before := StoredEndsInBlock(s, kind);
    EventsAddUp(s, last, kind);
    BlockAfter(s, last, kind);
    BringStep(LedgerOf(front, kind), AllOf(s.content, kind), before, ArrivedOf(s, kind), last, kind);
  }

  ghost predicate AlwaysStoresBrought(events: seq<Incoming>, kind: Kind) {
    forall k :: 0 <= k <= |events| ==> StoresBrought(events[..k], kind)
  }

  predicate AlwaysFits(events: seq<Incoming>, kind: Kind) {
    forall k :: 0 <= k < |events| ==> FitsAt(events, k, kind)
  }

  lemma PrefixSplits(events: seq<Incoming>, k: nat)
    requires events != [] && k < |events|
    ensures events[..|events| - 1][..k] == events[..k]
  {
  }

  lemma AlwaysStoresPrefix(events: seq<Incoming>, kind: Kind)
    requires events != []
    ensures AlwaysStoresBrought(events, kind) <==>
      AlwaysStoresBrought(events[..|events| - 1], kind) && StoresBrought(events, kind)
  {
    var front := events[..|events| - 1];
    assert events[..|events|] == events;
    if AlwaysStoresBrought(events, kind) {
      assert StoresBrought(events[..|events|], kind);
      forall k | 0 <= k <= |front| ensures StoresBrought(front[..k], kind) {
        PrefixSplits(events, k);
        assert StoresBrought(events[..k], kind);
      }
    }
    if AlwaysStoresBrought(front, kind) && StoresBrought(events, kind) {
      forall k | 0 <= k <= |events| ensures StoresBrought(events[..k], kind) {
        if k < |events| {
          PrefixSplits(events, k);
          assert StoresBrought(front[..k], kind);
        }
      }
    }
  }

  lemma AlwaysFitsPrefix(events: seq<Incoming>, kind: Kind)
    requires events != []
    ensures AlwaysFits(events, kind) <==> AlwaysFits(events[..|events| - 1], kind) && FitsAt(events, |events| - 1, kind)
  {
    var front := events[..|events| - 1];
    forall k: nat | k < |front| ensures FitsAt(front, k, kind) == FitsAt(events, k, kind) {
      PrefixSplits(events, k);
      assert front[k] == events[k];
    }
  }

  /**
   For every sequence of events and both kinds: what is stored is what the events brought, at every
   moment, exactly if every completed item fits. Until the first that does not, it is right.
   */
  lemma {:induction false} StoredIsBroughtExactlyWhen(events: seq<Incoming>, kind: Kind)
    ensures AlwaysStoresBrought(events, kind) <==> AlwaysFits(events, kind)
    ensures AlwaysFits(events, kind) ==> Knows(LedgerOf(events, kind), ArrivedOf(AcceptedAll(INITIAL, events), kind))
    decreases |events|
  {
    if events == [] {
      NothingAdded("");
    } else {
      var front := events[..|events| - 1];
      StoredIsBroughtExactlyWhen(front, kind);
      AlwaysStoresPrefix(events, kind);
      AlwaysFitsPrefix(events, kind);
      if AlwaysFits(front, kind) {
        assert front[..|front|] == front;
        assert StoresBrought(front[..|front|], kind);
        StepStoresBrought(events, kind);
      }
    }
  }

  lemma {:induction false} CallsAreBrought(events: seq<Incoming>)
    ensures CallsOf(AcceptedAll(INITIAL, events).content) == CallsBrought(events)
    decreases |events|
  {
    if events != [] {
      CallsAreBrought(events[..|events| - 1]);
      AcceptedAllStreamed(events[..|events| - 1]);
      EventsAddUp(AcceptedAll(INITIAL, events[..|events| - 1]), events[|events| - 1], TextKind);
    }
  }

  /**
   The completed response: its calls are those brought, always, and its text and thinking are those
   brought if every completed item fits.
   */
  lemma MessageIsWhatArrived(events: seq<Incoming>, lengthLimit: bool)
    ensures var content := Completed(AcceptedAll(INITIAL, events), lengthLimit).content;
      && CallsOf(content) == CallsBrought(events)
      && (AlwaysFits(events, TextKind) ==> AllOf(content, TextKind) == Brought(events, TextKind))
      && (AlwaysFits(events, ThinkingKind) ==> AllOf(content, ThinkingKind) == Brought(events, ThinkingKind))
  {
    EndedKeepsContent(AcceptedAll(INITIAL, events));
    CallsAreBrought(events);
    StoredIsBroughtExactlyWhen(events, TextKind);
    StoredIsBroughtExactlyWhen(events, ThinkingKind);
    assert events[..|events|] == events;
    assert AlwaysStoresBrought(events, TextKind) ==> StoresBrought(events[..|events|], TextKind);
    assert AlwaysStoresBrought(events, ThinkingKind) ==> StoresBrought(events[..|events|], ThinkingKind);
  }

  // ---------------------------------------------------------------- responses that do not fit

  lemma AcceptedTwo(a: Incoming, b: Incoming)
    ensures AcceptedAll(INITIAL, [a, b]) == Accepted(Accepted(INITIAL, a), b)
  {
    assert [a][..0] == [];
    assert AcceptedAll(INITIAL, [a]) == Accepted(INITIAL, a);
    assert [a, b][..1] == [a];
  }

  lemma AcceptedFour(a: Incoming, b: Incoming, c: Incoming, d: Incoming)
    ensures AcceptedAll(INITIAL, [a, b, c, d]) == Accepted(Accepted(Accepted(Accepted(INITIAL, a), b), c), d)
  {
    AcceptedTwo(a, b);
    assert [a, b, c][..2] == [a, b];
    assert [a, b, c, d][..3] == [a, b, c];
  }

  function Message(completed: string, encoded: string): Incoming { MessageDone(Some(completed), Some(encoded)) }

  ghost predicate HoldsOnly(s: State, text: string, signature: Option<string>) {
    s.content == [Text(text, signature)] && s.textIndex == Some(0)
  }

  lemma FirstText(delta: string)
    ensures HoldsOnly(Accepted(INITIAL, TextArrived(delta)), delta, None)
  {
    assert "" + delta == delta;
  }

  lemma NextText(s: State, text: string, signature: Option<string>, delta: string)
    requires HoldsOnly(s, text, signature)
    ensures HoldsOnly(Accepted(s, TextArrived(delta)), text + delta, signature)
  {
  }

  lemma NextMessage(s: State, text: string, signature: Option<string>, completed: string, encoded: string)
    requires HoldsOnly(s, text, signature) && completed != ""
    ensures HoldsOnly(Accepted(s, Message(completed, encoded)), Joined(text, completed), Some(encoded))
  {
    MissingJoins(text, completed);
  }

  lemma FirstMessage(completed: string, encoded: string)
    requires completed != ""
    ensures HoldsOnly(Accepted(INITIAL, Message(completed, encoded)), completed, Some(encoded))
  {
    var blank := EnsureText(INITIAL);
    assert Accepted(INITIAL, Message(completed, encoded)) == Accepted(blank, Message(completed, encoded));
    NextMessage(blank, "", None, completed, encoded);
  }

  /** Two messages in a row share a block, so the second one's streamed text is repeated when it completes. */
  lemma SecondMessageIsRepeated(a: string, b: string, first: string, second: string)
    requires a != "" && b != ""
    ensures AcceptedAll(INITIAL, [TextArrived(a), Message(a, first), TextArrived(b), Message(b, second)]).content
         == [Text(a + b + b, Some(second))]
  {
    AcceptedFour(TextArrived(a), Message(a, first), TextArrived(b), Message(b, second));
    FirstText(a);
    var one := Accepted(INITIAL, TextArrived(a));
    NextMessage(one, a, None, a, first);
    var two := Accepted(one, Message(a, first));
    NextText(two, a, Some(first), b);
    NextMessage(Accepted(two, TextArrived(b)), a + b, Some(first), b, second);
    assert |a + b| > |b|;
  }

  /** A message whose text begins the next one is lost: the two are stored as the second alone. */
  lemma FirstMessageIsLost(a: string, b: string, first: string, second: string)
    requires a != "" && a <= b
    ensures AcceptedAll(INITIAL, [Message(a, first), Message(b, second)]).content == [Text(b, Some(second))]
    ensures Brought([Message(a, first), Message(b, second)], TextKind) == a + b
  {
    BroughtByTwo(a, b, first, second);
    AcceptedTwo(Message(a, first), Message(b, second));
    FirstMessage(a, first);
    NextMessage(Accepted(INITIAL, Message(a, first)), a, Some(first), b, second);
  }

  /** Otherwise the text of both is stored, and still the first one's signature is lost, and so its item. */
  lemma FirstSignatureIsLost(a: string, b: string, first: string, second: string)
    requires a != "" && b != "" && !(a <= b)
    ensures AcceptedAll(INITIAL, [Message(a, first), Message(b, second)]).content == [Text(a + b, Some(second))]
    ensures a + b == Brought([Message(a, first), Message(b, second)], TextKind)
  {
    AcceptedTwo(Message(a, first), Message(b, second));
    FirstMessage(a, first);
    NextMessage(Accepted(INITIAL, Message(a, first)), a, Some(first), b, second);
    BroughtByTwo(a, b, first, second);
  }

  lemma BroughtByTwo(a: string, b: string, first: string, second: string)
    requires a != "" && b != ""
    ensures Brought([Message(a, first), Message(b, second)], TextKind) == a + b
  {
    var events := [Message(a, first), Message(b, second)];
    assert events[..1] == [Message(a, first)] && [Message(a, first)][..0] == [];
    assert "" + a == a;
    assert LedgerOf(events[..1], TextKind) == Ledger(a, "", a, "");
    NothingAdded(a + b);
  }

  function Reasoning(completed: string, encoded: string): Incoming { ReasoningDone(Some(completed), Some(encoded)) }

  ghost predicate HoldsOnlyThinking(s: State, thinking: string, signature: Option<string>) {
    s.content == [Thinking(thinking, signature)] && s.thinkingIndex == Some(0)
  }

  lemma NextReasoning(s: State, thinking: string, signature: Option<string>, completed: string, encoded: string)
    requires HoldsOnlyThinking(s, thinking, signature) && completed != ""
    ensures HoldsOnlyThinking(Accepted(s, Reasoning(completed, encoded)), Joined(thinking, completed), Some(encoded))
  {
    MissingJoins(thinking, completed);
  }

  lemma FirstReasoning(completed: string, encoded: string)
    requires completed != ""
    ensures HoldsOnlyThinking(Accepted(INITIAL, Reasoning(completed, encoded)), completed, Some(encoded))
  {
    var blank := EnsureThinking(INITIAL);
    assert Accepted(INITIAL, Reasoning(completed, encoded)) == Accepted(blank, Reasoning(completed, encoded));
    NextReasoning(blank, "", None, completed, encoded);
  }

  /** Two reasoning items: one block, the second signature, and the first's text if it does not begin the second. */
  lemma ReasoningItemsShareBlock(a: string, b: string, first: string, second: string)
    requires a != "" && b != ""
    ensures AcceptedAll(INITIAL, [Reasoning(a, first), Reasoning(b, second)]).content
         == [Thinking(if a <= b then b else a + b, Some(second))]
  {
    AcceptedTwo(Reasoning(a, first), Reasoning(b, second));
    FirstReasoning(a, first);
    NextReasoning(Accepted(INITIAL, Reasoning(a, first)), a, Some(first), b, second);
  }
}
