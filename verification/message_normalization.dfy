/**
 Repairing a message history before it is sent: every tool call gets a result before the next turn
 boundary, and assistant messages that failed are dropped.
 */
module MessageNormalization {
  import opened Outcomes

  datatype OutputKind = FunctionOutput | CustomOutput

  /** A tool call's thought signature once parsed: no envelope of this extension, or one with its item. */
  datatype Signature = Unsigned | Signed(item: Option<SignedItem>)

  datatype SignedItem = SignedItem(itemType: string, callId: Option<string>)

  datatype Block = ToolCallBlock(id: Option<string>, name: Option<string>, signature: Signature) | OtherBlock(tag: nat)

  /** What a message holds besides the fields the normaliser reads. */
  datatype Body = Recorded(tag: nat) | Interrupted

  /** The role strings the normaliser distinguishes. */
  datatype Role =
    | UserRole | CustomRole | BranchSummaryRole | CompactionSummaryRole | AssistantRole
    | ToolResultRole | BashExecutionRole | OtherRole(name: string)

  datatype StopReason = ErrorStop | AbortedStop | OtherStop(reason: string)

  datatype Message =
    | NotARecord(tag: nat)
    | Record(role: Option<Role>, stopReason: Option<StopReason>, content: Option<seq<Block>>, excluded: bool,
             toolCallId: Option<string>, toolName: Option<string>, body: Body)

  datatype NormalizationError = InvalidHistory

  datatype PendingCall = PendingCall(callId: string, toolName: string, outputKind: OutputKind)

  // ---------------------------------------------------------------- classification

  predicate HasRole(m: Message) { m.Record? && m.role.Some? }

  predicate IsBoundary(m: Message) {
    && HasRole(m)
    && match m.role.value
       case UserRole => true
       case CustomRole => true
       case BranchSummaryRole => true
       case CompactionSummaryRole => true
       case AssistantRole => true
       case BashExecutionRole => !m.excluded
       case _ => false
  }

  predicate IsAssistant(m: Message) { HasRole(m) && m.role.value.AssistantRole? }

  predicate IsFailed(m: Message) {
    IsAssistant(m) && (m.stopReason == Some(ErrorStop) || m.stopReason == Some(AbortedStop))
  }

  predicate IsToolResult(m: Message) { HasRole(m) && m.role.value.ToolResultRole? }

  function KindForToolName(name: string): OutputKind {
    if name == "apply_patch" then CustomOutput else FunctionOutput
  }

  function ResultKind(m: Message): OutputKind
    requires m.Record?
  {
    KindForToolName(if m.toolName.Some? then m.toolName.value else "")
  }

  function NonEmpty(text: Option<string>): Option<string> {
    if text.Some? && text.value != "" then text else None
  }

  function SignedKind(signature: Signature, visibleCallId: string): Result<Option<OutputKind>, NormalizationError> {
    match signature
    case Unsigned => Ok(None)
    case Signed(None) => Err(InvalidHistory)
    case Signed(Some(item)) =>
      if NonEmpty(item.callId) != Some(visibleCallId) then Err(InvalidHistory)
      else if item.itemType == "custom_tool_call" then Ok(Some(CustomOutput))
      else if item.itemType == "function_call" then Ok(Some(FunctionOutput))
      else Err(InvalidHistory)
  }

  function CollectBlock(block: Block, seen: seq<PendingCall>): Result<seq<PendingCall>, NormalizationError> {
    if block.OtherBlock? then Ok(seen) else
    var callId, toolName := NonEmpty(block.id), NonEmpty(block.name);
    if callId.None? || toolName.None? || exists c | c in seen :: c.callId == callId.value then Err(InvalidHistory) else
    var visible := KindForToolName(toolName.value);
    match SignedKind(block.signature, callId.value)
    case Err(e) => Err(e)
    case Ok(signed) =>
      if signed.Some? && signed.value != visible then Err(InvalidHistory)
      else Ok(seen + [PendingCall(callId.value, toolName.value, if signed.Some? then signed.value else visible)])
  }

  function CollectBlocks(blocks: seq<Block>, seen: seq<PendingCall>): Result<seq<PendingCall>, NormalizationError>
    decreases |blocks|
  {
    if blocks == [] then Ok(seen) else
    match CollectBlock(blocks[0], seen)
    case Err(e) => Err(e)
    case Ok(calls) => CollectBlocks(blocks[1..], calls)
  }

  function CollectToolCalls(m: Message): Result<seq<PendingCall>, NormalizationError>
    requires m.Record?
  {
    if m.content.None? then Ok([]) else CollectBlocks(m.content.value, [])
  }

  function SyntheticToolResult(call: PendingCall): Message {
    Record(Some(ToolResultRole), None, None, false, Some(call.callId), Some(call.toolName), Interrupted)
  }

  // ---------------------------------------------------------------- one pass over the history

  /** An output message, and whether the normaliser inserted it. */
  datatype Entry = Kept(message: Message) | Inserted(message: Message)

  /** What has been emitted so far and which calls still wait for a result. */
  datatype Progress = Progress(emitted: seq<Entry>, pending: seq<PendingCall>)

  function Synthetics(pending: seq<PendingCall>): seq<Entry> {
    seq(|pending|, i requires 0 <= i < |pending| => Inserted(SyntheticToolResult(pending[i])))
  }

  function IndexOfCall(pending: seq<PendingCall>, callId: string): (index: nat)
    ensures index <= |pending|
    ensures index < |pending| ==> pending[index].callId == callId
    ensures forall i | 0 <= i < index :: pending[i].callId != callId
  {
    if pending == [] || pending[0].callId == callId then 0 else 1 + IndexOfCall(pending[1..], callId)
  }

  /** A tool result answers the pending call with its id, and must be of that call's kind. */
  function Answer(pending: seq<PendingCall>, m: Message): Result<seq<PendingCall>, NormalizationError> {
    if !IsToolResult(m) || m.toolCallId.None? then Ok(pending) else
    var index := IndexOfCall(pending, m.toolCallId.value);
    if index == |pending| then Ok(pending)
    else if ResultKind(m) != pending[index].outputKind then Err(InvalidHistory)
    else Ok(pending[..index] + pending[index + 1..])
  }

  /** What one message does to the calls still pending once a boundary has flushed them. */
  function NextPending(pending: seq<PendingCall>, m: Message): Result<seq<PendingCall>, NormalizationError> {
    if !HasRole(m) then Ok(pending)
    else if IsFailed(m) then Ok([])
    else if IsAssistant(m) then CollectToolCalls(m)
    else if IsBoundary(m) then Ok([])
    else Answer(pending, m)
  }

  function Advance(pending: seq<PendingCall>, m: Message): Result<Progress, NormalizationError> {
    var flushed := if IsBoundary(m) then Synthetics(pending) else [];
    match NextPending(pending, m)
    case Err(e) => Err(e)
    case Ok(next) => Ok(Progress(flushed + (if IsFailed(m) then [] else [Kept(m)]), next))
  }

  function After(emitted: seq<Entry>, rest: Result<Progress, NormalizationError>): Result<Progress, NormalizationError> {
    if rest.Ok? then Ok(rest.value.(emitted := emitted + rest.value.emitted)) else rest
  }

  function Walk(pending: seq<PendingCall>, messages: seq<Message>): Result<Progress, NormalizationError>
    decreases |messages|
  {
    if messages == [] then Ok(Progress([], pending)) else
    match Advance(pending, messages[0])
    case Err(e) => Err(e)
    case Ok(p) => After(p.emitted, Walk(p.pending, messages[1..]))
  }

  /** The end of the history flushes like a boundary. */
  function Flushed(p: Progress): seq<Entry> {
    p.emitted + Synthetics(p.pending)
  }

  function NormalizeEntries(messages: seq<Message>): Result<seq<Entry>, NormalizationError> {
    match Walk([], messages)
    case Err(e) => Err(e)
    case Ok(p) => Ok(Flushed(p))
  }

  function MessagesOf(entries: seq<Entry>): seq<Message> {
    seq(|entries|, i requires 0 <= i < |entries| => entries[i].message)
  }

  function Normalize(messages: seq<Message>): Result<seq<Message>, NormalizationError> {
    match NormalizeEntries(messages)
    case Err(e) => Err(e)
    case Ok(entries) => Ok(MessagesOf(entries))
  }

  // ---------------------------------------------------------------- the source's loops

  method CollectCalls(m: Message) returns (result: Result<seq<PendingCall>, NormalizationError>)
    requires m.Record?
    ensures result == CollectToolCalls(m)
  {
    if m.content.None? {
      return Ok([]);
    }
    var blocks := m.content.value;
    var calls: seq<PendingCall> := [];
    assert blocks[0..] == blocks;
    for i := 0 to |blocks|
      invariant CollectToolCalls(m) == CollectBlocks(blocks[i..], calls)
    {
      var collected := CollectBlock(blocks[i], calls);
      assert blocks[i..][1..] == blocks[i + 1..];
      if collected.Err? {
        return Err(collected.error);
      }
      calls := collected.value;
    }
    return Ok(calls);
  }

  method FlushPending(normalized: seq<Message>, pending: seq<PendingCall>) returns (flushed: seq<Message>)
    ensures flushed == normalized + MessagesOf(Synthetics(pending))
  {
    flushed := normalized;
    for i := 0 to |pending|
      invariant flushed == normalized + MessagesOf(Synthetics(pending))[..i]
    {
      flushed := flushed + [SyntheticToolResult(pending[i])];
    }
  }

  /** The body of the source's loop: one message, the output so far and the pending calls. */
  method AdvanceOver(normalized: seq<Message>, pending: seq<PendingCall>, message: Message)
    returns (result: Result<(seq<Message>, seq<PendingCall>), NormalizationError>)
    ensures match Advance(pending, message)
            case Err(e) => result == Err(e)
            case Ok(p) => result == Ok((normalized + MessagesOf(p.emitted), p.pending))
  {
    if !HasRole(message) {
      assert MessagesOf([] + [Kept(message)]) == [message];
      return Ok((normalized + [message], pending));
    }
    var output, remaining := normalized, pending;
    if IsBoundary(message) {
      output := FlushPending(output, remaining);
      remaining := [];
    }
    ghost var flushed := if IsBoundary(message) then Synthetics(pending) else [];
    MessagesOfAppend(flushed, if IsFailed(message) then [] else [Kept(message)]);
    assert MessagesOf([Kept(message)]) == [message];
    assert output == normalized + MessagesOf(flushed);
    if IsAssistant(message) {
      if IsFailed(message) {
        assert flushed + [] == flushed;
        return Ok((output, remaining));
      }
      var calls := CollectCalls(message);
      if calls.Err? {
        return Err(calls.error);
      }
      assert output + [message] == normalized + (MessagesOf(flushed) + [message]);
      return Ok((output + [message], calls.value));
    }
    if IsToolResult(message) && message.toolCallId.Some? {
      var index := IndexOfCall(remaining, message.toolCallId.value);
      if index < |remaining| {
        if ResultKind(message) != remaining[index].outputKind {
          return Err(InvalidHistory);
        }
        remaining := remaining[..index] + remaining[index + 1..];
      }
    }
    assert output + [message] == normalized + (MessagesOf(flushed) + [message]);
    return Ok((output + [message], remaining));
  }

  method NormalizeCodexContextMessages(messages: seq<Message>) returns (result: Result<seq<Message>, NormalizationError>)
    ensures result == Normalize(messages)
  {
    var normalized: seq<Message> := [];
    var pending: seq<PendingCall> := [];
    ghost var entries: seq<Entry> := [];
    assert messages[0..] == messages;
    AfterTwice([], [], Walk([], messages));
    for i := 0 to |messages|
      invariant normalized == MessagesOf(entries)
      invariant Walk([], messages) == After(entries, Walk(pending, messages[i..]))
    {
      ghost var rest, advanced := messages[i + 1..], Advance(pending, messages[i]);
      assert messages[i..][1..] == rest;
      if advanced.Ok? {
        AfterTwice(entries, advanced.value.emitted, Walk(advanced.value.pending, rest));
        MessagesOfAppend(entries, advanced.value.emitted);
      }
      var step := AdvanceOver(normalized, pending, messages[i]);
      if step.Err? {
        return Err(step.error);
      }
      normalized, pending := step.value.0, step.value.1;
      entries := entries + advanced.value.emitted;
    }
    MessagesOfAppend(entries, Synthetics(pending));
    assert entries + [] == entries;
    normalized := FlushPending(normalized, pending);
    return Ok(if messages == normalized then messages else normalized);
  }

  lemma AfterTwice(first: seq<Entry>, second: seq<Entry>, rest: Result<Progress, NormalizationError>)
    ensures After(first, After(second, rest)) == After(first + second, rest)
    ensures After([], rest) == rest
  {
    if rest.Ok? {
      assert first + (second + rest.value.emitted) == first + second + rest.value.emitted;
      assert [] + rest.value.emitted == rest.value.emitted;
    }
  }

  lemma MessagesOfAppend(a: seq<Entry>, b: seq<Entry>)
    ensures MessagesOf(a + b) == MessagesOf(a) + MessagesOf(b)
  {
  }

  // ---------------------------------------------------------------- splitting at boundaries

  lemma {:induction false} WalkAppend(pending: seq<PendingCall>, a: seq<Message>, b: seq<Message>)
    ensures Walk(pending, a + b) ==
            if Walk(pending, a).Ok?
            then After(Walk(pending, a).value.emitted, Walk(Walk(pending, a).value.pending, b))
            else Walk(pending, a)
    decreases |a|
  {
    if a == [] {
      assert a + b == b;
      AfterTwice([], [], Walk(pending, b));
    } else {
      assert (a + b)[1..] == a[1..] + b;
      var first := Advance(pending, a[0]);
      if first.Ok? {
        WalkAppend(first.value.pending, a[1..], b);
        var rest := Walk(first.value.pending, a[1..]);
        if rest.Ok? {
          AfterTwice(first.value.emitted, rest.value.emitted, Walk(rest.value.pending, b));
        }
      }
    }
  }

  /** A boundary first flushes; after that it no longer matters what was pending. */
  lemma WalkFromBoundary(pending: seq<PendingCall>, messages: seq<Message>)
    requires messages != [] && IsBoundary(messages[0])
    ensures Walk(pending, messages) == After(Synthetics(pending), Walk([], messages))
  {
    var m, rest := messages[0], messages[1..];
    var kept := if IsFailed(m) then [] else [Kept(m)];
    var next := NextPending([], m);
    assert NextPending(pending, m) == next;
    if next.Ok? {
      assert Synthetics([]) + kept == kept;
      assert Walk([], messages) == After(kept, Walk(next.value, rest));
      AfterTwice(Synthetics(pending), kept, Walk(next.value, rest));
      assert Walk(pending, messages) == After(Synthetics(pending) + kept, Walk(next.value, rest));
    }
  }

  function Concat(a: Result<seq<Message>, NormalizationError>, b: Result<seq<Message>, NormalizationError>)
    : Result<seq<Message>, NormalizationError>
  {
    if a.Err? then a else if b.Err? then b else Ok(a.value + b.value)
  }

  /** Normalising splits at every turn boundary, and fails exactly when a part fails. */
  lemma SplitsAtBoundary(a: seq<Message>, b: seq<Message>)
    requires b != [] && IsBoundary(b[0])
    ensures Normalize(a + b) == Concat(Normalize(a), Normalize(b))
  {
    WalkAppend([], a, b);
    if Walk([], a).Ok? {
      var first := Walk([], a).value;
      WalkFromBoundary(first.pending, b);
      if Walk([], b).Ok? {
        var second := Walk([], b).value;
        var all := first.emitted + (Synthetics(first.pending) + second.emitted);
        assert Walk([], a + b) == Ok(Progress(all, second.pending));
        assert all + Synthetics(second.pending) == Flushed(first) + Flushed(second);
        MessagesOfAppend(Flushed(first), Flushed(second));
      }
    }
  }

  function OutputLength(p: Progress): nat { |p.emitted| + |p.pending| }

  /** Starting with calls pending inserts at most one result more for each of them. */
  lemma {:induction false} PendingCostsAtMostItself(pending: seq<PendingCall>, messages: seq<Message>)
    requires Walk(pending, messages).Ok? && Walk([], messages).Ok?
    ensures OutputLength(Walk(pending, messages).value) <= |pending| + OutputLength(Walk([], messages).value)
    decreases |messages|
  {
    if messages != [] {
      var m := messages[0];
      if IsBoundary(m) {
        WalkFromBoundary(pending, messages);
      } else {
        assert NextPending([], m) == Ok([]);
        PendingCostsAtMostItself(NextPending(pending, m).value, messages[1..]);
      }
    }
  }

  /** Without a boundary, calls left pending are treated differently by what follows. */
  lemma PendingShowsAcross(pending: seq<PendingCall>, messages: seq<Message>)
    requires pending != [] && messages != [] && !IsBoundary(messages[0])
    requires Walk(pending, messages).Ok? && Walk([], messages).Ok?
    ensures MessagesOf(Flushed(Walk(pending, messages).value)) !=
            MessagesOf(Synthetics(pending)) + MessagesOf(Flushed(Walk([], messages).value))
  {
    var m, rest := messages[0], messages[1..];
    var next := NextPending(pending, m).value;
    assert NextPending([], m) == Ok([]);
    var together, apart := Flushed(Walk(pending, messages).value), Flushed(Walk([], messages).value);
    assert together[0] == Kept(m);
    if m == SyntheticToolResult(pending[0]) {
      assert pending[..0] + pending[1..] == pending[1..];
      assert next == pending[1..];
      PendingCostsAtMostItself(next, rest);
      assert |together| < |Synthetics(pending)| + |apart|;
    } else {
      assert MessagesOf(together)[0] == m;
      assert (MessagesOf(Synthetics(pending)) + MessagesOf(apart))[0] == SyntheticToolResult(pending[0]);
    }
  }

  /** Nothing crosses the cut: no call is open there, or nothing follows, or what follows starts with a boundary. */
  predicate CutsCleanly(a: seq<Message>, b: seq<Message>) {
    b == [] || IsBoundary(b[0]) || (Walk([], a).Ok? && Walk([], a).value.pending == [])
  }

  /** What fails on its own also fails behind other messages, whatever calls are pending. */
  lemma {:induction false} FailureSpreads(pending: seq<PendingCall>, messages: seq<Message>)
    requires Walk([], messages).Err?
    ensures Walk(pending, messages).Err?
    decreases |messages|
  {
    var m := messages[0];
    if IsBoundary(m) {
      WalkFromBoundary(pending, messages);
    } else {
      assert NextPending([], m) == Ok([]);
      if NextPending(pending, m).Ok? {
        FailureSpreads(NextPending(pending, m).value, messages[1..]);
      }
    }
  }

  /**
   Normalising a whole is normalising its parts exactly if a part fails, or no call is open at the cut,
   or nothing follows, or what follows starts with a boundary. In every other case the whole fails or
   differs.
   */
  lemma SplitsExactlyWhen(a: seq<Message>, b: seq<Message>)
    ensures Normalize(a + b) == Concat(Normalize(a), Normalize(b)) <==>
            Normalize(a).Err? || Normalize(b).Err? || CutsCleanly(a, b)
  {
    WalkAppend([], a, b);
    if Normalize(a).Err? {
      assert Normalize(a + b).Err?;
    } else if Normalize(b).Err? {
      FailureSpreads(Walk([], a).value.pending, b);
      assert Normalize(a + b).error == InvalidHistory == Normalize(b).error;
    } else if Normalize(a + b).Ok? {
      SplitsWhenAllNormalize(a, b);
    } else {
      assert Walk(Walk([], a).value.pending, b).Err?;
      assert !CutsCleanly(a, b) by {
        if b != [] && IsBoundary(b[0]) {
          SplitsAtBoundary(a, b);
        }
      }
    }
  }

  lemma FlushedBehind(emitted: seq<Entry>, p: Progress)
    ensures MessagesOf(Flushed(Progress(emitted + p.emitted, p.pending))) == MessagesOf(emitted) + MessagesOf(Flushed(p))
  {
    assert emitted + p.emitted + Synthetics(p.pending) == emitted + Flushed(p);
    MessagesOfAppend(emitted, Flushed(p));
  }

  lemma NormalizedParts(a: seq<Message>, b: seq<Message>)
    requires Normalize(a).Ok? && Normalize(b).Ok? && Normalize(a + b).Ok?
    ensures var first := Walk([], a).value;
      && Walk(first.pending, b).Ok?
      && Normalize(a + b) == Ok(MessagesOf(first.emitted) + MessagesOf(Flushed(Walk(first.pending, b).value)))
      && Normalize(a) == Ok(MessagesOf(first.emitted) + MessagesOf(Synthetics(first.pending)))
      && Normalize(b) == Ok(MessagesOf(Flushed(Walk([], b).value)))
  {
    WalkAppend([], a, b);
    var first := Walk([], a).value;
    var second := Walk(first.pending, b).value;
    FlushedBehind(first.emitted, second);
    FlushedBehind(first.emitted, Progress([], first.pending));
    assert [] + Synthetics(first.pending) == Synthetics(first.pending) && first.emitted + [] == first.emitted;
  }

  lemma SplitsWhenAllNormalize(a: seq<Message>, b: seq<Message>)
    requires Normalize(a).Ok? && Normalize(b).Ok? && Normalize(a + b).Ok?
    ensures Normalize(a + b) == Concat(Normalize(a), Normalize(b)) <==> CutsCleanly(a, b)
  {
    NormalizedParts(a, b);
    var first := Walk([], a).value;
    var pending := first.pending;
    var together, apart := Flushed(Walk(pending, b).value), Flushed(Walk([], b).value);
    var head, results := MessagesOf(first.emitted), MessagesOf(Synthetics(pending));
    SameTail(head, MessagesOf(together), results, MessagesOf(apart));
    if b != [] && IsBoundary(b[0]) {
      SplitsAtBoundary(a, b);
    } else if pending == [] {
      assert results + MessagesOf(apart) == MessagesOf(together);
    } else if b == [] {
      assert together == [] + Synthetics(pending) == Synthetics(pending) && apart == [];
    } else {
      PendingShowsAcross(pending, b);
    }
  }

  lemma SameTail(head: seq<Message>, tail: seq<Message>, middle: seq<Message>, end: seq<Message>)
    ensures head + tail == head + middle + end <==> tail == middle + end
  {
    assert head + middle + end == head + (middle + end);
    assert (head + tail)[|head|..] == tail && (head + (middle + end))[|head|..] == middle + end;
  }

  // ---------------------------------------------------------------- what is kept

  function KeptMessages(entries: seq<Entry>): seq<Message> {
    if entries == [] then []
    else (if entries[0].Kept? then [entries[0].message] else []) + KeptMessages(entries[1..])
  }

  function WithoutFailed(messages: seq<Message>): seq<Message> {
    if messages == [] then []
    else (if IsFailed(messages[0]) then [] else [messages[0]]) + WithoutFailed(messages[1..])
  }

  lemma {:induction false} KeptAppend(a: seq<Entry>, b: seq<Entry>)
    ensures KeptMessages(a + b) == KeptMessages(a) + KeptMessages(b)
  {
    if a == [] {
      assert a + b == b;
    } else {
      assert (a + b)[1..] == a[1..] + b;
      KeptAppend(a[1..], b);
      var head := if a[0].Kept? then [a[0].message] else [];
      assert head + (KeptMessages(a[1..]) + KeptMessages(b)) == head + KeptMessages(a[1..]) + KeptMessages(b);
    }
  }

  lemma {:induction false} SyntheticsKeepNothing(pending: seq<PendingCall>)
    ensures KeptMessages(Synthetics(pending)) == []
  {
    if pending != [] {
      SyntheticsKeepNothing(pending[1..]);
      assert Synthetics(pending)[1..] == Synthetics(pending[1..]);
    }
  }

  lemma {:induction false} WalkKeeps(pending: seq<PendingCall>, messages: seq<Message>)
    requires Walk(pending, messages).Ok?
    ensures KeptMessages(Walk(pending, messages).value.emitted) == WithoutFailed(messages)
    decreases |messages|
  {
    if messages != [] {
      var m := messages[0];
      var p := Advance(pending, m).value;
      WalkKeeps(p.pending, messages[1..]);
      KeptAppend(p.emitted, Walk(p.pending, messages[1..]).value.emitted);
      SyntheticsKeepNothing(pending);
      var kept := if IsFailed(m) then [] else [Kept(m)];
      KeptAppend(if IsBoundary(m) then Synthetics(pending) else [], kept);
      assert KeptMessages(kept) == if IsFailed(m) then [] else [m];
    }
  }

  /** Erasing the inserted results gives back the history without its failed assistant messages. */
  lemma ErasureGivesInput(messages: seq<Message>)
    requires NormalizeEntries(messages).Ok?
    ensures KeptMessages(NormalizeEntries(messages).value) == WithoutFailed(messages)
  {
    var p := Walk([], messages).value;
    WalkKeeps([], messages);
    KeptAppend(p.emitted, Synthetics(p.pending));
    SyntheticsKeepNothing(p.pending);
  }

  // ---------------------------------------------------------------- idempotence

  /** The kind a call waits for is the one its tool's name shows. */
  ghost predicate KindsVisible(pending: seq<PendingCall>) {
    forall c | c in pending :: c.outputKind == KindForToolName(c.toolName)
  }

  ghost predicate IdsDistinct(pending: seq<PendingCall>) {
    forall i, j | 0 <= i < j < |pending| :: pending[i].callId != pending[j].callId
  }

  lemma {:induction false} CollectedCallsWellFormed(blocks: seq<Block>, seen: seq<PendingCall>)
    requires KindsVisible(seen) && IdsDistinct(seen)
    requires CollectBlocks(blocks, seen).Ok?
    ensures KindsVisible(CollectBlocks(blocks, seen).value) && IdsDistinct(CollectBlocks(blocks, seen).value)
    decreases |blocks|
  {
    if blocks != [] {
      CollectedCallsWellFormed(blocks[1..], CollectBlock(blocks[0], seen).value);
    }
  }

  lemma NextPendingWellFormed(pending: seq<PendingCall>, m: Message)
    requires KindsVisible(pending) && IdsDistinct(pending)
    requires NextPending(pending, m).Ok?
    ensures KindsVisible(NextPending(pending, m).value) && IdsDistinct(NextPending(pending, m).value)
  {
    if IsAssistant(m) && !IsFailed(m) && m.content.Some? {
      CollectedCallsWellFormed(m.content.value, []);
    }
  }

  function AllKept(messages: seq<Message>): seq<Entry> {
    seq(|messages|, i requires 0 <= i < |messages| => Kept(messages[i]))
  }

  /** Walking over the messages emits them unchanged, inserts nothing, and leaves `next` pending. */
  ghost predicate Replays(pending: seq<PendingCall>, messages: seq<Message>, next: seq<PendingCall>) {
    Walk(pending, messages) == Ok(Progress(AllKept(messages), next))
  }

  lemma ReplaysAppend(
      pending: seq<PendingCall>, a: seq<Message>, middle: seq<PendingCall>, b: seq<Message>, next: seq<PendingCall>)
    requires Replays(pending, a, middle) && Replays(middle, b, next)
    ensures Replays(pending, a + b, next)
  {
    WalkAppend(pending, a, b);
    assert AllKept(a) + AllKept(b) == AllKept(a + b);
  }

  lemma ReplaysOne(pending: seq<PendingCall>, m: Message, next: seq<PendingCall>)
    requires !IsFailed(m) && (IsBoundary(m) ==> pending == []) && NextPending(pending, m) == Ok(next)
    ensures Replays(pending, [m], next)
  {
    assert Synthetics([]) == [] && [] + [Kept(m)] == [Kept(m)];
    assert Advance(pending, m) == Ok(Progress([Kept(m)], next));
    assert [m][1..] == [] && [Kept(m)] + [] == AllKept([m]);
  }

  lemma SyntheticsCons(pending: seq<PendingCall>)
    requires pending != []
    ensures MessagesOf(Synthetics(pending)) == [SyntheticToolResult(pending[0])] + MessagesOf(Synthetics(pending[1..]))
  {
  }

  lemma FirstSyntheticAnswers(pending: seq<PendingCall>)
    requires pending != [] && KindsVisible(pending)
    ensures NextPending(pending, SyntheticToolResult(pending[0])) == Ok(pending[1..])
  {
    assert pending[0] in pending;
    assert pending[..0] + pending[1..] == pending[1..];
  }

  /** The inserted results answer exactly the calls they were inserted for. */
  lemma {:induction false} SyntheticsAnswerAll(pending: seq<PendingCall>)
    requires KindsVisible(pending)
    ensures Replays(pending, MessagesOf(Synthetics(pending)), [])
  {
    if pending == [] {
      assert MessagesOf(Synthetics(pending)) == [] && AllKept([]) == [];
    } else {
      var first, rest := SyntheticToolResult(pending[0]), pending[1..];
      SyntheticsCons(pending);
      FirstSyntheticAnswers(pending);
      ReplaysOne(pending, first, rest);
      SyntheticsAnswerAll(rest);
      ReplaysAppend(pending, [first], rest, MessagesOf(Synthetics(rest)), []);
    }
  }

  /** Walking again over what one message emitted emits the same and leaves the same calls pending. */
  lemma ReadvanceReplays(pending: seq<PendingCall>, m: Message)
    requires KindsVisible(pending)
    requires Advance(pending, m).Ok?
    ensures Replays(pending, MessagesOf(Advance(pending, m).value.emitted), Advance(pending, m).value.pending)
  {
    var p := Advance(pending, m).value;
    assert MessagesOf([Kept(m)]) == [m];
    if IsFailed(m) {
      SyntheticsAnswerAll(pending);
      assert p.emitted == Synthetics(pending);
    } else if IsBoundary(m) {
      SyntheticsAnswerAll(pending);
      assert NextPending([], m) == Ok(p.pending);
      ReplaysOne([], m, p.pending);
      ReplaysAppend(pending, MessagesOf(Synthetics(pending)), [], [m], p.pending);
      MessagesOfAppend(Synthetics(pending), [Kept(m)]);
    } else {
      ReplaysOne(pending, m, p.pending);
      assert p.emitted == [Kept(m)];
    }
  }

  lemma {:induction false} RewalkReplays(pending: seq<PendingCall>, messages: seq<Message>)
    requires KindsVisible(pending) && IdsDistinct(pending)
    requires Walk(pending, messages).Ok?
    ensures var p := Walk(pending, messages).value;
            KindsVisible(p.pending) && IdsDistinct(p.pending) && Replays(pending, MessagesOf(p.emitted), p.pending)
    decreases |messages|
  {
    if messages == [] {
      assert MessagesOf([]) == [] && AllKept([]) == [];
    } else {
      var first := Advance(pending, messages[0]).value;
      var rest := Walk(first.pending, messages[1..]).value;
      NextPendingWellFormed(pending, messages[0]);
      ReadvanceReplays(pending, messages[0]);
      RewalkReplays(first.pending, messages[1..]);
      ReplaysAppend(pending, MessagesOf(first.emitted), first.pending, MessagesOf(rest.emitted), rest.pending);
      MessagesOfAppend(first.emitted, rest.emitted);
    }
  }

  /** Normalising twice is normalising once. */
  lemma NormalizeIdempotent(messages: seq<Message>)
    requires Normalize(messages).Ok?
    ensures Normalize(Normalize(messages).value) == Normalize(messages)
  {
    var p := Walk([], messages).value;
    RewalkReplays([], messages);
    SyntheticsAnswerAll(p.pending);
    var a, b := MessagesOf(p.emitted), MessagesOf(Synthetics(p.pending));
    MessagesOfAppend(p.emitted, Synthetics(p.pending));
    ReplaysAppend([], a, p.pending, b, []);
    assert MessagesOf(AllKept(a + b) + Synthetics([])) == a + b;
  }

  // ---------------------------------------------------------------- pairing

  ghost predicate IsResultFor(m: Message, c: PendingCall) {
    IsToolResult(m) && m.toolCallId == Some(c.callId) && ResultKind(m) == c.outputKind
  }

  ghost predicate NoBoundary(output: seq<Message>, from: int, to: int) {
    forall k | from < k < to && 0 <= k < |output| :: !IsBoundary(output[k])
  }

  /** The call at position `i` has a result after it and before the next boundary. */
  ghost predicate Answered(output: seq<Message>, i: nat, c: PendingCall) {
    exists j :: i < j < |output| && IsResultFor(output[j], c) && NoBoundary(output, i, j)
  }

  ghost predicate CallsAnswered(output: seq<Message>, i: nat, pending: seq<PendingCall>)
    requires i < |output| && output[i].Record?
  {
    && CollectToolCalls(output[i]).Ok?
    && forall c | c in CollectToolCalls(output[i]).value ::
         Answered(output, i, c) || (c in pending && NoBoundary(output, i, |output|))
  }

  /** Every assistant message's calls have been answered or are still pending. */
  ghost predicate Paired(output: seq<Message>, pending: seq<PendingCall>) {
    forall i {:trigger CallsAnswered(output, i, pending)} | 0 <= i < |output| && IsAssistant(output[i]) ::
      CallsAnswered(output, i, pending)
  }

  lemma AnsweredExtends(output: seq<Message>, m: Message, i: nat, c: PendingCall)
    requires Answered(output, i, c)
    ensures Answered(output + [m], i, c)
  {
    var j :| i < j < |output| && IsResultFor(output[j], c) && NoBoundary(output, i, j);
    assert (output + [m])[j] == output[j];
    assert forall k | 0 <= k < j :: (output + [m])[k] == output[k];
  }

  lemma NoBoundaryExtends(output: seq<Message>, m: Message, i: nat)
    requires NoBoundary(output, i, |output|)
    ensures NoBoundary(output + [m], i, |output|)
    ensures !IsBoundary(m) ==> NoBoundary(output + [m], i, |output| + 1)
  {
    assert forall k | 0 <= k < |output| :: (output + [m])[k] == output[k];
  }

  /** A message that is not a boundary is appended; the call it answers, if any, leaves the pending list. */
  lemma PairedAfterPlain(output: seq<Message>, pending: seq<PendingCall>, m: Message)
    requires Paired(output, pending) && IdsDistinct(pending)
    requires !IsBoundary(m) && NextPending(pending, m).Ok?
    ensures Paired(output + [m], NextPending(pending, m).value)
  {
    var longer, next := output + [m], NextPending(pending, m).value;
    forall i | 0 <= i < |longer| && IsAssistant(longer[i]) ensures CallsAnswered(longer, i, next) {
      assert longer[i] == output[i] && CallsAnswered(output, i, pending);
      forall c | c in CollectToolCalls(longer[i]).value
        ensures Answered(longer, i, c) || (c in next && NoBoundary(longer, i, |longer|))
      {
        if Answered(output, i, c) {
          AnsweredExtends(output, m, i, c);
        } else {
          NoBoundaryExtends(output, m, i);
          if c !in next {
            AnsweredByRemoval(pending, m, c);
            assert IsResultFor(longer[|output|], c);
          }
        }
      }
    }
  }

  lemma AnsweredByRemoval(pending: seq<PendingCall>, m: Message, c: PendingCall)
    requires IdsDistinct(pending) && !IsBoundary(m) && NextPending(pending, m).Ok?
    requires c in pending && c !in NextPending(pending, m).value
    ensures IsResultFor(m, c)
  {
    var next := NextPending(pending, m).value;
    var index := IndexOfCall(pending, m.toolCallId.value);
    var k :| 0 <= k < |pending| && pending[k] == c;
    assert k == index;
  }

  lemma {:induction false} PairedAfterFlush(output: seq<Message>, pending: seq<PendingCall>)
    requires Paired(output, pending) && IdsDistinct(pending) && KindsVisible(pending)
    ensures Paired(output + MessagesOf(Synthetics(pending)), [])
    decreases |pending|
  {
    if pending == [] {
      assert output + MessagesOf(Synthetics(pending)) == output;
    } else {
      var result, rest := SyntheticToolResult(pending[0]), pending[1..];
      var results := MessagesOf(Synthetics(rest));
      FirstSyntheticAnswers(pending);
      PairedAfterPlain(output, pending, result);
      PairedAfterFlush(output + [result], rest);
      SyntheticsCons(pending);
      assert output + [result] + results == output + ([result] + results);
    }
  }

  lemma PairedAfterBoundary(output: seq<Message>, m: Message)
    requires Paired(output, []) && IsBoundary(m) && !IsFailed(m) && NextPending([], m).Ok?
    ensures Paired(output + [m], NextPending([], m).value)
  {
    var longer, next := output + [m], NextPending([], m).value;
    forall i | 0 <= i < |longer| && IsAssistant(longer[i]) ensures CallsAnswered(longer, i, next) {
      if i < |output| {
        assert longer[i] == output[i] && CallsAnswered(output, i, []);
        forall c | c in CollectToolCalls(longer[i]).value ensures Answered(longer, i, c) {
          AnsweredExtends(output, m, i, c);
        }
      }
    }
  }

  lemma {:induction false} WalkPairs(output: seq<Message>, pending: seq<PendingCall>, messages: seq<Message>)
    requires Paired(output, pending) && IdsDistinct(pending) && KindsVisible(pending)
    requires Walk(pending, messages).Ok?
    ensures var p := Walk(pending, messages).value;
            && IdsDistinct(p.pending) && KindsVisible(p.pending)
            && Paired(output + MessagesOf(p.emitted), p.pending)
    decreases |messages|
  {
    if messages == [] {
      assert output + [] == output;
    } else {
      var m := messages[0];
      var p := Advance(pending, m).value;
      NextPendingWellFormed(pending, m);
      var flushed := output + MessagesOf(Synthetics(pending));
      if IsBoundary(m) {
        PairedAfterFlush(output, pending);
        MessagesOfAppend(Synthetics(pending), if IsFailed(m) then [] else [Kept(m)]);
        if IsFailed(m) {
          assert output + MessagesOf(p.emitted) == flushed;
        } else {
          PairedAfterBoundary(flushed, m);
          assert output + MessagesOf(p.emitted) == flushed + [m];
        }
      } else {
        PairedAfterPlain(output, pending, m);
        assert MessagesOf(p.emitted) == [m];
      }
      WalkPairs(output + MessagesOf(p.emitted), p.pending, messages[1..]);
      var rest := Walk(p.pending, messages[1..]).value;
      MessagesOfAppend(p.emitted, rest.emitted);
      assert output + MessagesOf(p.emitted) + MessagesOf(rest.emitted) == output + MessagesOf(p.emitted + rest.emitted);
    }
  }

  /**
   In a normalised history every assistant message's calls are valid, and each of them has a result
   of its kind after it and before the next turn boundary.
   */
  lemma EveryCallAnswered(messages: seq<Message>, i: nat, c: PendingCall)
    requires Normalize(messages).Ok?
    requires i < |Normalize(messages).value| && IsAssistant(Normalize(messages).value[i])
    ensures var output := Normalize(messages).value;
            && CollectToolCalls(output[i]).Ok?
            && (c in CollectToolCalls(output[i]).value ==> Answered(output, i, c))
  {
    var p := Walk([], messages).value;
    assert Paired([], []);
    WalkPairs([], [], messages);
    assert [] + MessagesOf(p.emitted) == MessagesOf(p.emitted);
    PairedAfterFlush(MessagesOf(p.emitted), p.pending);
    MessagesOfAppend(p.emitted, Synthetics(p.pending));
    assert CallsAnswered(Normalize(messages).value, i, []);
  }
}
