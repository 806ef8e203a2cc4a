/**
 The signatures under which finished items are kept whole. A block holds one signature, so an item that
 finishes in a block that is signed already takes the place of the item before it.
 */
module ResponseSignatures {
  import opened Outcomes
  import opened ResponseStream
  import opened ResponseItems

  // ---------------------------------------------------------------- what the events bring

  /** The signature an event brings: that of a finished item that can be encoded. */
  function SignatureBrought(event: Incoming): Option<string> {
    match event
    case MessageDone(_, encoded) => encoded
    case ReasoningDone(_, encoded) => encoded
    case WebSearchDone(_, encoded) => encoded
    case OpaqueDone(encoded) => encoded
    case _ => None
  }

  function SignaturesBrought(events: seq<Incoming>): seq<string> {
    if events == [] then [] else
    SignaturesBrought(events[..|events| - 1]) + Listed(SignatureBrought(events[|events| - 1]))
  }

  function Listed(signature: Option<string>): seq<string> {
    if signature.Some? then [signature.value] else []
  }

  /** The event signs a block of the kind. */
  predicate Signs(event: Incoming, kind: Kind) {
    Finishes(event, kind) && SignatureBrought(event).Some?
  }

  predicate SignedNext(signed: bool, event: Incoming, kind: Kind) {
    Signs(event, kind) || (signed && !Closes(event, kind))
  }

  /** An item of the kind has signed, and since then nothing has closed its block. */
  predicate SignedBy(events: seq<Incoming>, kind: Kind) {
    events != [] && SignedNext(SignedBy(events[..|events| - 1], kind), events[|events| - 1], kind)
  }

  /** The event's signature takes the place of an earlier one. */
  predicate Overwrites(before: seq<Incoming>, event: Incoming) {
    || (Signs(event, TextKind) && SignedBy(before, TextKind))
    || (Signs(event, ThinkingKind) && SignedBy(before, ThinkingKind))
  }

  function CountOverwrites(events: seq<Incoming>): nat {
    if events == [] then 0 else
    CountOverwrites(events[..|events| - 1]) + if Overwrites(events[..|events| - 1], events[|events| - 1]) then 1 else 0
  }

  predicate NeverOverwrites(events: seq<Incoming>) {
    forall k :: 0 <= k < |events| ==> !Overwrites(events[..k], events[k])
  }

  /** The signatures brought without those overwritten. */
  function SignaturesLeft(events: seq<Incoming>): seq<string> {
    if events == [] then [] else
    Place(SignaturesLeft(events[..|events| - 1]), SignatureBrought(events[|events| - 1]),
          Overwrites(events[..|events| - 1], events[|events| - 1]))
  }

  function Place(signatures: seq<string>, signature: Option<string>, over: bool): seq<string> {
    (if over && signatures != [] then signatures[..|signatures| - 1] else signatures) + Listed(signature)
  }

  // ---------------------------------------------------------------- what is stored

  function SignatureOf(block: Content): Option<string> {
    if block.ToolCall? then None else block.signature
  }

  function SignaturesOf(content: seq<Content>): seq<string> {
    if content == [] then [] else
    SignaturesOf(content[..|content| - 1]) + Listed(SignatureOf(content[|content| - 1]))
  }

  /** The open block of the kind is signed. */
  predicate IsSigned(s: State, kind: Kind) {
    var index := if kind.TextKind? then s.textIndex else s.thinkingIndex;
    index.Some? && index.value < |s.content| && SignatureOf(s.content[index.value]).Some?
  }

  lemma AppendedSignature(content: seq<Content>, block: Content)
    ensures SignaturesOf(content + [block]) == SignaturesOf(content) + Listed(SignatureOf(block))
  {
    assert (content + [block])[..|content|] == content;
  }

  lemma UnsignedAppended(content: seq<Content>, block: Content)
    requires SignatureOf(block).None?
    ensures SignaturesOf(content + [block]) == SignaturesOf(content)
  {
    AppendedSignature(content, block);
  }

  /** Changing the last block changes just its own signature. */
  lemma LastSignature(content: seq<Content>, block: Content)
    requires content != []
    ensures SignaturesOf(content) == SignaturesOf(content[..|content| - 1]) + Listed(SignatureOf(content[|content| - 1]))
    ensures SignaturesOf(content[|content| - 1 := block])
         == SignaturesOf(content[..|content| - 1]) + Listed(SignatureOf(block))
  {
    SplitLast(content, block);
    AppendedSignature(content[..|content| - 1], block);
  }

  /** A step that leaves the signatures alone, and the block of the kind as signed as it was. */
  ghost predicate LeavesSignatures(s: State, t: State, kind: Kind) {
    && SignaturesOf(t.content) == SignaturesOf(s.content)
    && IsSigned(t, kind) == IsSigned(s, kind)
  }

  lemma OpenBlockSigned(s: State, kind: Kind, last: nat)
    requires last < |s.content| && (if kind.TextKind? then s.textIndex else s.thinkingIndex) == Some(last)
    ensures IsSigned(s, kind) == SignatureOf(s.content[last]).Some?
  {
  }

  lemma EnsuredTextSignatures(s: State)
    ensures LeavesSignatures(s, EnsureText(s), TextKind)
  {
    if s.textIndex.None? {
      assert EndThinking(s).content == s.content;
      UnsignedAppended(s.content, Text("", None));
      OpenBlockSigned(EnsureText(s), TextKind, |s.content|);
    }
  }

  lemma EnsuredThinkingSignatures(s: State)
    ensures LeavesSignatures(s, EnsureThinking(s), ThinkingKind)
  {
    if s.thinkingIndex.None? {
      assert EndText(s).content == s.content;
      UnsignedAppended(s.content, Thinking("", None));
      OpenBlockSigned(EnsureThinking(s), ThinkingKind, |s.content|);
    }
  }

  lemma AppendedTextSignatures(s: State, delta: string)
    requires Streamed(s)
    ensures LeavesSignatures(s, AppendText(s, delta), TextKind)
  {
    EnsuredTextSignatures(s);
    var t, last, grown := AppendedText(s, delta);
    LastSignature(t.content, grown);
    OpenBlockSigned(t, TextKind, last);
    OpenBlockSigned(AppendText(s, delta), TextKind, last);
  }

  lemma AppendedThinkingSignatures(s: State, delta: string)
    requires Streamed(s)
    ensures LeavesSignatures(s, AppendThinking(s, delta), ThinkingKind)
  {
    EnsuredThinkingSignatures(s);
    var t, last, grown := AppendedThinking(s, delta);
    LastSignature(t.content, grown);
    OpenBlockSigned(t, ThinkingKind, last);
    OpenBlockSigned(AppendThinking(s, delta), ThinkingKind, last);
  }

  lemma CompletedTextSignatures(s: State, completed: Option<string>)
    requires Streamed(s)
    ensures LeavesSignatures(s, ApplyCompletedText(s, completed), TextKind)
  {
    if completed.Some? && completed.value != "" {
      AppliedText(s, completed.value);
      EnsureTextStreamed(s);
      EnsuredTextSignatures(s);
      AppendedTextSignatures(EnsureText(s), Missing(ArrivedOf(s, TextKind), completed.value));
    }
  }

  lemma CompletedThinkingSignatures(s: State, completed: Option<string>)
    requires Streamed(s)
    ensures LeavesSignatures(s, ApplyCompletedThinking(s, completed), ThinkingKind)
  {
    if completed.Some? && completed.value != "" {
      AppliedThinking(s, completed.value);
      EnsureThinkingStreamed(s);
      EnsuredThinkingSignatures(s);
      AppendedThinkingSignatures(EnsureThinking(s), Missing(ArrivedOf(s, ThinkingKind), completed.value));
    }
  }

  /** Signing puts the signature on the open block, in the place of the one that is there. */
  ghost predicate TakesSignature(s: State, t: State, signature: Option<string>, kind: Kind) {
    && SignaturesOf(t.content) == Place(SignaturesOf(s.content), signature, signature.Some? && IsSigned(s, kind))
    && IsSigned(t, kind) == (signature.Some? || IsSigned(s, kind))
  }

  lemma LastSigned(front: seq<string>, last: Option<string>, signature: Option<string>)
    requires signature.Some?
    ensures Place(front + Listed(last), signature, last.Some?) == front + Listed(signature)
  {
  }

  /** Signing the last block: in the place of its own signature, or behind the others. */
  lemma ResignedContent(content: seq<Content>, block: Content)
    requires content != [] && SignatureOf(block).Some?
    ensures var last := |content| - 1;
      SignaturesOf(content[last := block])
      == Place(SignaturesOf(content), SignatureOf(block), SignatureOf(content[last]).Some?)
  {
    LastSignature(content, block);
    LastSigned(SignaturesOf(content[..|content| - 1]), SignatureOf(content[|content| - 1]), SignatureOf(block));
  }

  lemma SignedTextSignatures(s: State, encoded: Option<string>)
    requires Streamed(s)
    ensures TakesSignature(s, SignText(s, encoded), encoded, TextKind)
  {
    EnsuredTextSignatures(s);
    if encoded.Some? {
      var t, last := SignedText(s, encoded);
      var signed := Text(t.content[last].text, encoded);
      ResignedContent(t.content, signed);
      OpenBlockSigned(t, TextKind, last);
      OpenBlockSigned(t.(content := t.content[last := signed]), TextKind, last);
    }
  }

  lemma SignedThinkingSignatures(s: State, encoded: Option<string>)
    requires Streamed(s)
    ensures TakesSignature(s, SignThinking(s, encoded), encoded, ThinkingKind)
  {
    EnsuredThinkingSignatures(s);
    if encoded.Some? {
      var t, last := SignedThinking(s, encoded);
      var signed := Thinking(t.content[last].thinking, encoded);
      ResignedContent(t.content, signed);
      OpenBlockSigned(t, ThinkingKind, last);
      OpenBlockSigned(t.(content := t.content[last := signed]), ThinkingKind, last);
    }
  }

  // ---------------------------------------------------------------- every event

  /** What an event does to the stored signatures and to which open block is signed. */
  ghost predicate SignaturesStep(s: State, t: State, event: Incoming) {
    && IsSigned(t, TextKind) == SignedNext(IsSigned(s, TextKind), event, TextKind)
    && IsSigned(t, ThinkingKind) == SignedNext(IsSigned(s, ThinkingKind), event, ThinkingKind)
    && SignaturesOf(t.content) == Place(SignaturesOf(s.content), SignatureBrought(event), ReplacesIn(s, event))
  }

  predicate ReplacesIn(s: State, event: Incoming) {
    (Signs(event, TextKind) && IsSigned(s, TextKind)) || (Signs(event, ThinkingKind) && IsSigned(s, ThinkingKind))
  }

  lemma MessageSignatures(s: State, completed: Option<string>, encoded: Option<string>)
    requires Streamed(s)
    ensures SignaturesStep(s, Accepted(s, MessageDone(completed, encoded)), MessageDone(completed, encoded))
  {
    var t := ApplyCompletedText(s, completed);
    CompletedTextStreamed(s, completed);
    CompletedTextSignatures(s, completed);
    SignedTextSignatures(t, encoded);
    SignedTextArrived(t, encoded);
    MessageStep(s, t, SignText(t, encoded), completed, encoded);
  }

  lemma MessageStep(s: State, t: State, u: State, completed: Option<string>, encoded: Option<string>)
    requires LeavesSignatures(s, t, TextKind) && TakesSignature(t, u, encoded, TextKind) && u.thinkingIndex.None?
    ensures SignaturesStep(s, u, MessageDone(completed, encoded))
  {
  }

  lemma ReasoningSignatures(s: State, completed: Option<string>, encoded: Option<string>)
    requires Streamed(s)
    ensures SignaturesStep(s, Accepted(s, ReasoningDone(completed, encoded)), ReasoningDone(completed, encoded))
  {
    var t := ApplyCompletedThinking(s, completed);
    CompletedThinkingStreamed(s, completed);
    CompletedThinkingSignatures(s, completed);
    CompletedThinkingArrived(s, completed);
    SignedThinkingSignatures(t, encoded);
    SignedThinkingArrived(t, encoded);
    ReasoningStep(s, t, SignThinking(t, encoded), completed, encoded);
  }

  lemma ReasoningStep(s: State, t: State, u: State, completed: Option<string>, encoded: Option<string>)
    requires LeavesSignatures(s, t, ThinkingKind) && TakesSignature(t, u, encoded, ThinkingKind)
    requires if Closes(ReasoningDone(completed, encoded), TextKind) then u.textIndex.None? else u == s
    ensures SignaturesStep(s, u, ReasoningDone(completed, encoded))
  {
  }

  /** A block of its own: no other is open then, and its signature stands behind the others. */
  ghost predicate AddsClosed(s: State, t: State, signature: Option<string>) {
    && t.textIndex.None? && t.thinkingIndex.None?
    && SignaturesOf(t.content) == SignaturesOf(s.content) + Listed(signature)
  }

  lemma ToolCallAddsClosed(s: State, call: string)
    ensures AddsClosed(s, AddToolCall(s, call), None)
  {
    EndedKeepsContent(s);
    UnsignedAppended(s.content, ToolCall(call));
    assert AddToolCall(s, call).content == s.content + [ToolCall(call)];
    assert SignaturesOf(s.content) + [] == SignaturesOf(s.content);
  }

  lemma TextAddsClosed(s: State, deltas: seq<string>, text: string, encoded: Option<string>)
    requires |deltas| <= 1
    ensures AddsClosed(s, AddClosedText(s, deltas, text, encoded), encoded)
  {
    EndedKeepsContent(s);
    if encoded.Some? {
      AppendedSignature(s.content, Text(text, encoded));
      assert AddClosedText(s, deltas, text, encoded).content == s.content + [Text(text, encoded)];
    }
  }

  lemma ClosedStep(s: State, t: State, event: Incoming)
    requires AddsClosed(s, t, SignatureBrought(event))
    requires Closes(event, TextKind) && Closes(event, ThinkingKind)
    requires !Signs(event, TextKind) && !Signs(event, ThinkingKind)
    ensures SignaturesStep(s, t, event)
  {
  }

  lemma EventSignatures(s: State, event: Incoming)
    requires Streamed(s)
    ensures SignaturesStep(s, Accepted(s, event), event)
  {
    match event
    case TextArrived(delta) =>
      AppendedTextSignatures(s, delta);
      AppendedTextArrived(s, delta);
    case ThinkingArrived(delta) =>
      AppendedThinkingSignatures(s, delta);
      AppendedThinkingArrived(s, delta);
    case MessageDone(completed, encoded) => MessageSignatures(s, completed, encoded);
    case ReasoningDone(completed, encoded) => ReasoningSignatures(s, completed, encoded);
    case ToolCallDone(called) =>
      if called.Callable? {
        ToolCallAddsClosed(s, called.call);
        ClosedStep(s, Accepted(s, event), event);
      }
    case WebSearchDone(summary, encoded) =>
      TextAddsClosed(s, [summary], summary, encoded);
      ClosedStep(s, Accepted(s, event), event);
    case OpaqueDone(encoded) =>
      TextAddsClosed(s, [], "", encoded);
      ClosedStep(s, Accepted(s, event), event);
    case Unrelated =>
  }

  // ---------------------------------------------------------------- whole responses

  /** For every sequence of events: what is stored are the signatures brought without those overwritten. */
  lemma {:induction false} StoredSignaturesAreLeft(events: seq<Incoming>)
    ensures var s := AcceptedAll(INITIAL, events);
      && SignaturesOf(s.content) == SignaturesLeft(events)
      && IsSigned(s, TextKind) == SignedBy(events, TextKind)
      && IsSigned(s, ThinkingKind) == SignedBy(events, ThinkingKind)
    decreases |events|
  {
    if events != [] {
      var front, last := events[..|events| - 1], events[|events| - 1];
      StoredSignaturesAreLeft(front);
      AcceptedAllStreamed(front);
      EventSignatures(AcceptedAll(INITIAL, front), last);
    }
  }

  /** What has signed a block has left a signature. */
  lemma {:induction false} SignedLeaves(events: seq<Incoming>, kind: Kind)
    requires SignedBy(events, kind)
    ensures SignaturesLeft(events) != []
    decreases |events|
  {
    var front, last := events[..|events| - 1], events[|events| - 1];
    if !Signs(last, kind) {
      SignedLeaves(front, kind);
    }
  }

  /** Every signature brought is left or has been overwritten. */
  lemma {:induction false} OverwritesAreLost(events: seq<Incoming>)
    ensures |SignaturesLeft(events)| + CountOverwrites(events) == |SignaturesBrought(events)|
    decreases |events|
  {
    if events != [] {
      var front, last := events[..|events| - 1], events[|events| - 1];
      OverwritesAreLost(front);
      if Overwrites(front, last) {
        SignedLeaves(front, if last.MessageDone? then TextKind else ThinkingKind);
      }
    }
  }

  lemma NeverOverwritesPrefix(events: seq<Incoming>)
    requires events != []
    ensures NeverOverwrites(events) <==>
      NeverOverwrites(events[..|events| - 1]) && !Overwrites(events[..|events| - 1], events[|events| - 1])
  {
    var front := events[..|events| - 1];
    forall k: nat | k < |front| ensures Overwrites(front[..k], front[k]) == Overwrites(events[..k], events[k]) {
      PrefixSplits(events, k);
    }
  }

  lemma {:induction false} LeftIsBroughtExactlyWhen(events: seq<Incoming>)
    ensures SignaturesLeft(events) == SignaturesBrought(events) <==> NeverOverwrites(events)
    ensures NeverOverwrites(events) <==> CountOverwrites(events) == 0
    decreases |events|
  {
    OverwritesAreLost(events);
    if events != [] {
      LeftIsBroughtExactlyWhen(events[..|events| - 1]);
      NeverOverwritesPrefix(events);
    }
  }

  /**
   For every sequence of events, the completed response holds the signatures brought, in order, if and
   only if no message or reasoning item is signed in a block that an item before it has signed; and
   exactly one is missing for each that is.
   */
  lemma SignaturesStoredExactlyWhen(events: seq<Incoming>, lengthLimit: bool)
    ensures var stored := SignaturesOf(Completed(AcceptedAll(INITIAL, events), lengthLimit).content);
      && (stored == SignaturesBrought(events) <==> NeverOverwrites(events))
      && |stored| + CountOverwrites(events) == |SignaturesBrought(events)|
  {
    EndedKeepsContent(AcceptedAll(INITIAL, events));
    StoredSignaturesAreLeft(events);
    OverwritesAreLost(events);
    LeftIsBroughtExactlyWhen(events);
  }
}
