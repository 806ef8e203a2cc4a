/**
 The response state: it turns the bridge's response events into an assistant message and, at the
 same time, into a stream of block events. Replaying that stream must give the message back.
 */
module ResponseStream {
  import opened Outcomes

  /** A stored content block; text and thinking blocks may carry a signature. */
  datatype Content =
    | Text(text: string, signature: Option<string>)
    | Thinking(thinking: string, signature: Option<string>)
    | ToolCall(call: string)

  datatype Kind = TextKind | ThinkingKind

  datatype Emitted =
    | Start(kind: Kind, index: nat)
    | Delta(kind: Kind, index: nat, delta: string)
    | End(kind: Kind, index: nat, content: string)
    | ToolStart(index: nat)
    | ToolEnd(index: nat, call: string)

  /** A finished tool call: not usable, not encodable (which throws), or complete. */
  datatype Called = Malformed | Unencodable | Callable(call: string)

  /**
   What a bridge event amounts to. `completed` is the joined text of a finished item, `None` when the
   item has no list of parts; a missing `encoded` means that encoding the item throws.
   */
  datatype Incoming =
    | TextArrived(delta: string)
    | ThinkingArrived(delta: string)
    | MessageDone(completed: Option<string>, encoded: Option<string>)
    | ReasoningDone(completed: Option<string>, encoded: Option<string>)
    | ToolCallDone(called: Called)
    | WebSearchDone(summary: string, encoded: Option<string>)
    | OpaqueDone(encoded: Option<string>)
    | Unrelated

  datatype StopReason = NotStopped | Stop | Length | ToolUse

  datatype State = State(
    content: seq<Content>, textIndex: Option<nat>, thinkingIndex: Option<nat>, hasToolCall: bool,
    stopReason: StopReason, trace: seq<Emitted>)

  const INITIAL := State([], None, None, false, NotStopped, [])

  // ---------------------------------------------------------------- opening and closing blocks

  predicate IsText(s: State, index: nat) { index < |s.content| && s.content[index].Text? }

  predicate IsThinking(s: State, index: nat) { index < |s.content| && s.content[index].Thinking? }

  function Emit(s: State, event: Emitted): State {
    s.(trace := s.trace + [event])
  }

  function EndText(s: State): State {
    match s.textIndex
    case None => s
    case Some(index) =>
      (if IsText(s, index) then Emit(s, End(TextKind, index, s.content[index].text)) else s).(textIndex := None)
  }

  function EndThinking(s: State): State {
    match s.thinkingIndex
    case None => s
    case Some(index) =>
      (if IsThinking(s, index) then Emit(s, End(ThinkingKind, index, s.content[index].thinking)) else s).(thinkingIndex := None)
  }

  function EndOpenBlocks(s: State): State { EndThinking(EndText(s)) }

  function EnsureText(s: State): (t: State)
    ensures t.textIndex.Some?
  {
    if s.textIndex.Some? then s else
    var ended := EndThinking(s);
    Emit(ended.(content := ended.content + [Text("", None)], textIndex := Some(|ended.content|)),
         Start(TextKind, |ended.content|))
  }

  function EnsureThinking(s: State): (t: State)
    ensures t.thinkingIndex.Some?
  {
    if s.thinkingIndex.Some? then s else
    var ended := EndText(s);
    Emit(ended.(content := ended.content + [Thinking("", None)], thinkingIndex := Some(|ended.content|)),
         Start(ThinkingKind, |ended.content|))
  }

  function AppendText(s: State, delta: string): State {
    var t := EnsureText(s);
    var index := t.textIndex.value;
    if !IsText(t, index) then t else
    var block := t.content[index];
    Emit(t.(content := t.content[index := Text(block.text + delta, block.signature)]), Delta(TextKind, index, delta))
  }

  function AppendThinking(s: State, delta: string): State {
    var t := EnsureThinking(s);
    var index := t.thinkingIndex.value;
    if !IsThinking(t, index) then t else
    var block := t.content[index];
    Emit(t.(content := t.content[index := Thinking(block.thinking + delta, block.signature)]), Delta(ThinkingKind, index, delta))
  }

  // ---------------------------------------------------------------- finished items

  /** What is still missing of a completed text, if what arrived is a prefix of it; otherwise all of it. */
  function Missing(arrived: string, completed: string): string {
    if completed == arrived then "" else if arrived <= completed then completed[|arrived|..] else completed
  }

  function ApplyCompletedText(s: State, completed: Option<string>): State {
    if completed.None? || completed.value == "" then s else
    var t := EnsureText(s);
    if !IsText(t, t.textIndex.value) then t else
    var delta := Missing(t.content[t.textIndex.value].text, completed.value);
    if delta == "" then t else AppendText(t, delta)
  }

  function ApplyCompletedThinking(s: State, completed: Option<string>): State {
    if completed.None? || completed.value == "" then s else
    var t := EnsureThinking(s);
    if !IsThinking(t, t.thinkingIndex.value) then t else
    var delta := Missing(t.content[t.thinkingIndex.value].thinking, completed.value);
    if delta == "" then t else AppendThinking(t, delta)
  }

  function SignText(s: State, encoded: Option<string>): State {
    var t := EnsureText(s);
    var index := t.textIndex.value;
    if encoded.None? || !IsText(t, index) then t
    else t.(content := t.content[index := Text(t.content[index].text, encoded)])
  }

  function SignThinking(s: State, encoded: Option<string>): State {
    if encoded.None? then s else
    var t := EnsureThinking(s);
    var index := t.thinkingIndex.value;
    if !IsThinking(t, index) then t
    else t.(content := t.content[index := Thinking(t.content[index].thinking, encoded)])
  }

  function AddToolCall(s: State, call: string): State {
    var t := EndOpenBlocks(s);
    var index := |t.content|;
    Emit(Emit(t.(content := t.content + [ToolCall(call)], hasToolCall := true), ToolStart(index)), ToolEnd(index, call))
  }

  /** A whole text block at once: opaque items leave it empty, a hosted web search says what it did. */
  function AddClosedText(s: State, deltas: seq<string>, text: string, encoded: Option<string>): State
    requires |deltas| <= 1
  {
    var t := EndOpenBlocks(s);
    if encoded.None? then t else
    var index := |t.content|;
    var u := Emit(t.(content := t.content + [Text(text, encoded)]), Start(TextKind, index));
    var v := if deltas == [] then u else Emit(u, Delta(TextKind, index, deltas[0]));
    Emit(v, End(TextKind, index, text))
  }

  /** An event that throws still leaves whatever it did before throwing. */
  predicate Throws(event: Incoming) {
    match event
    case MessageDone(_, encoded) => encoded.None?
    case ReasoningDone(_, encoded) => encoded.None?
    case ToolCallDone(called) => called.Unencodable?
    case WebSearchDone(_, encoded) => encoded.None?
    case OpaqueDone(encoded) => encoded.None?
    case _ => false
  }

  function Accepted(s: State, event: Incoming): State {
    match event
    case TextArrived(delta) => AppendText(s, delta)
    case ThinkingArrived(delta) => AppendThinking(s, delta)
    case MessageDone(completed, encoded) => SignText(ApplyCompletedText(s, completed), encoded)
    case ReasoningDone(completed, encoded) => SignThinking(ApplyCompletedThinking(s, completed), encoded)
    case ToolCallDone(called) => if called.Callable? then AddToolCall(s, called.call) else s
    case WebSearchDone(summary, encoded) => AddClosedText(s, [summary], summary, encoded)
    case OpaqueDone(encoded) => AddClosedText(s, [], "", encoded)
    case Unrelated => s
  }

  function Completed(s: State, lengthLimit: bool): State {
    var t := EndOpenBlocks(s);
    t.(stopReason := if lengthLimit then Length else if t.hasToolCall then ToolUse else Stop)
  }

  function AcceptedAll(s: State, events: seq<Incoming>): State
    decreases |events|
  {
    if events == [] then s else Accepted(AcceptedAll(s, events[..|events| - 1]), events[|events| - 1])
  }

  // ---------------------------------------------------------------- replaying the stream

  /** What a consumer of the stream can build: one piece per block, the last of which may be open. */
  datatype Piece = TextPiece(text: string) | ThinkingPiece(text: string) | UnknownTool | ToolPiece(call: string)

  datatype Consumer = Consumer(pieces: seq<Piece>, open: bool)

  predicate IsOpen(c: Consumer, kind: Kind, index: nat) {
    && c.open && |c.pieces| == index + 1
    && (if kind.TextKind? then c.pieces[index].TextPiece? else c.pieces[index].ThinkingPiece?)
  }

  function Grown(piece: Piece, delta: string): Piece
    requires piece.TextPiece? || piece.ThinkingPiece?
  {
    piece.(text := piece.text + delta)
  }

  /** `None` when the stream breaks its grammar. */
  function Consume(c: Consumer, event: Emitted): Option<Consumer> {
    match event
    case Start(kind, index) =>
      if c.open || index != |c.pieces| then None
      else Some(Consumer(c.pieces + [if kind.TextKind? then TextPiece("") else ThinkingPiece("")], true))
    case Delta(kind, index, delta) =>
      if IsOpen(c, kind, index) then Some(c.(pieces := c.pieces[index := Grown(c.pieces[index], delta)])) else None
    case End(kind, index, content) =>
      if IsOpen(c, kind, index) && c.pieces[index].text == content then Some(c.(open := false)) else None
    case ToolStart(index) =>
      if c.open || index != |c.pieces| then None else Some(Consumer(c.pieces + [UnknownTool], true))
    case ToolEnd(index, call) =>
      if c.open && |c.pieces| == index + 1 && c.pieces[index].UnknownTool?
      then Some(Consumer(c.pieces[index := ToolPiece(call)], false)) else None
  }

  function Replay(trace: seq<Emitted>): Option<Consumer> {
    if trace == [] then Some(Consumer([], false)) else
    match Replay(trace[..|trace| - 1])
    case None => None
    case Some(c) => Consume(c, trace[|trace| - 1])
  }

  function Shape(content: Content): Piece {
    match content
    case Text(text, _) => TextPiece(text)
    case Thinking(thinking, _) => ThinkingPiece(thinking)
    case ToolCall(call) => ToolPiece(call)
  }

  function Shapes(content: seq<Content>): seq<Piece> {
    seq(|content|, i requires 0 <= i < |content| => Shape(content[i]))
  }

  /** The open block, if any, is the last one and of the right kind. */
  predicate OpenIsLast(s: State) {
    && (s.textIndex.Some? ==> s.thinkingIndex.None? && s.textIndex.value == |s.content| - 1 && IsText(s, s.textIndex.value))
    && (s.thinkingIndex.Some? ==> s.thinkingIndex.value == |s.content| - 1 && IsThinking(s, s.thinkingIndex.value))
  }

  predicate HasOpen(s: State) { s.textIndex.Some? || s.thinkingIndex.Some? }

  /** The stream so far replays to exactly the stored message. */
  predicate Streamed(s: State) {
    && OpenIsLast(s)
    && Replay(s.trace) == Some(Consumer(Shapes(s.content), HasOpen(s)))
    && (s.hasToolCall <==> exists i :: 0 <= i < |s.content| && s.content[i].ToolCall?)
  }

  lemma ReplayEmit(s: State, event: Emitted)
    ensures Replay(Emit(s, event).trace) == (match Replay(s.trace) case None => None case Some(c) => Consume(c, event))
  {
    assert Emit(s, event).trace[..|s.trace|] == s.trace;
  }

  lemma EndOpenBlocksStreamed(s: State)
    requires Streamed(s)
    ensures Streamed(EndText(s)) && Streamed(EndThinking(s)) && Streamed(EndOpenBlocks(s)) && !HasOpen(EndOpenBlocks(s))
    ensures EndText(s).textIndex.None? && EndThinking(s).thinkingIndex.None?
  {
    if s.textIndex.Some? {
      var index := s.textIndex.value;
      ReplayEmit(s, End(TextKind, index, s.content[index].text));
    } else if s.thinkingIndex.Some? {
      var index := s.thinkingIndex.value;
      ReplayEmit(s, End(ThinkingKind, index, s.content[index].thinking));
    }
  }

  lemma OpenedStreamed(s: State, block: Content, event: Emitted, t: State)
    requires Streamed(s) && !HasOpen(s)
    requires (block == Text("", None) && event == Start(TextKind, |s.content|)
              && t == Emit(s.(content := s.content + [block], textIndex := Some(|s.content|)), event))
          || (block == Thinking("", None) && event == Start(ThinkingKind, |s.content|)
              && t == Emit(s.(content := s.content + [block], thinkingIndex := Some(|s.content|)), event))
    ensures Streamed(t)
  {
    ReplayEmit(s, event);
    assert Shapes(s.content + [block]) == Shapes(s.content) + [Shape(block)];
    ToolsAfterAppend(s.content, block);
  }

  lemma ToolsAfterAppend(content: seq<Content>, block: Content)
    ensures (exists i :: 0 <= i < |content + [block]| && (content + [block])[i].ToolCall?)
       <==> (exists i :: 0 <= i < |content| && content[i].ToolCall?) || block.ToolCall?
  {
    if block.ToolCall? {
      assert (content + [block])[|content|].ToolCall?;
    }
    if i :| 0 <= i < |content| && content[i].ToolCall? {
      assert (content + [block])[i].ToolCall?;
    }
  }

  lemma EnsureTextStreamed(s: State)
    requires Streamed(s)
    ensures Streamed(EnsureText(s))
  {
    if s.textIndex.None? {
      EndOpenBlocksStreamed(s);
      var ended := EndThinking(s);
      OpenedStreamed(ended, Text("", None), Start(TextKind, |ended.content|), EnsureText(s));
    }
  }

  lemma EnsureThinkingStreamed(s: State)
    requires Streamed(s)
    ensures Streamed(EnsureThinking(s))
  {
    if s.thinkingIndex.None? {
      EndOpenBlocksStreamed(s);
      var ended := EndText(s);
      OpenedStreamed(ended, Thinking("", None), Start(ThinkingKind, |ended.content|), EnsureThinking(s));
    }
  }

  /** Changing the last block to one of the same kind, with a delta or without one. */
  lemma ChangedStreamed(s: State, block: Content)
    requires Streamed(s) && HasOpen(s) && Shape(block) == Shape(s.content[|s.content| - 1])
    ensures Streamed(s.(content := s.content[|s.content| - 1 := block]))
  {
    assert Shapes(s.content[|s.content| - 1 := block]) == Shapes(s.content);
    ToolsAfterAppend(s.content[..|s.content| - 1], block);
    ToolsAfterAppend(s.content[..|s.content| - 1], s.content[|s.content| - 1]);
    assert s.content == s.content[..|s.content| - 1] + [s.content[|s.content| - 1]];
    assert s.content[|s.content| - 1 := block] == s.content[..|s.content| - 1] + [block];
  }

  lemma GrownStreamed(s: State, kind: Kind, delta: string, block: Content)
    requires Streamed(s) && HasOpen(s) && (kind.TextKind? <==> s.textIndex.Some?)
    requires var last := s.content[|s.content| - 1];
      block == if kind.TextKind? then Text(last.text + delta, last.signature)
               else Thinking(last.thinking + delta, last.signature)
    ensures Streamed(Emit(s.(content := s.content[|s.content| - 1 := block]), Delta(kind, |s.content| - 1, delta)))
  {
    var last := |s.content| - 1;
    ReplayEmit(s, Delta(kind, last, delta));
    assert Shapes(s.content[last := block]) == Shapes(s.content)[last := Shape(block)];
    ToolsAfterAppend(s.content[..last], block);
    ToolsAfterAppend(s.content[..last], s.content[last]);
    assert s.content == s.content[..last] + [s.content[last]];
    assert s.content[last := block] == s.content[..last] + [block];
  }

  lemma OpenedText(s: State) returns (t: State, last: nat)
    requires Streamed(s)
    ensures t == EnsureText(s) && Streamed(t) && HasOpen(t)
    ensures t.textIndex == Some(last) && last == |t.content| - 1 && t.content[last].Text?
  {
    EnsureTextStreamed(s);
    t := EnsureText(s);
    last := t.textIndex.value;
  }

  /** Appending a delta rewrites the last block, which is the open one, and nothing else. */
  lemma AppendedText(s: State, delta: string) returns (t: State, last: nat, grown: Content)
    requires Streamed(s)
    ensures t == EnsureText(s) && Streamed(t) && HasOpen(t)
    ensures t.textIndex == Some(last) && last == |t.content| - 1 && t.content[last].Text?
    ensures grown == Text(t.content[last].text + delta, t.content[last].signature)
    ensures AppendText(s, delta) == Emit(t.(content := t.content[last := grown]), Delta(TextKind, last, delta))
  {
    t, last := OpenedText(s);
    grown := Text(t.content[last].text + delta, t.content[last].signature);
  }

  lemma AppendTextStreamed(s: State, delta: string)
    requires Streamed(s)
    ensures Streamed(AppendText(s, delta))
  {
    var t, last, grown := AppendedText(s, delta);
    GrownStreamed(t, TextKind, delta, grown);
  }

  lemma OpenedThinking(s: State) returns (t: State, last: nat)
    requires Streamed(s)
    ensures t == EnsureThinking(s) && Streamed(t) && HasOpen(t)
    ensures t.thinkingIndex == Some(last) && last == |t.content| - 1 && t.content[last].Thinking?
  {
    EnsureThinkingStreamed(s);
    t := EnsureThinking(s);
    last := t.thinkingIndex.value;
  }

  /** Appending a delta rewrites the last block, which is the open one, and nothing else. */
  lemma AppendedThinking(s: State, delta: string) returns (t: State, last: nat, grown: Content)
    requires Streamed(s)
    ensures t == EnsureThinking(s) && Streamed(t) && HasOpen(t)
    ensures t.thinkingIndex == Some(last) && last == |t.content| - 1 && t.content[last].Thinking?
    ensures grown == Thinking(t.content[last].thinking + delta, t.content[last].signature)
    ensures AppendThinking(s, delta) == Emit(t.(content := t.content[last := grown]), Delta(ThinkingKind, last, delta))
  {
    t, last := OpenedThinking(s);
    grown := Thinking(t.content[last].thinking + delta, t.content[last].signature);
  }

  lemma AppendThinkingStreamed(s: State, delta: string)
    requires Streamed(s)
    ensures Streamed(AppendThinking(s, delta))
  {
    var t, last, grown := AppendedThinking(s, delta);
    GrownStreamed(t, ThinkingKind, delta, grown);
  }

  lemma CompletedTextStreamed(s: State, completed: Option<string>)
    requires Streamed(s)
    ensures Streamed(ApplyCompletedText(s, completed))
  {
    if completed.Some? && completed.value != "" {
      EnsureTextStreamed(s);
      var t := EnsureText(s);
      AppendTextStreamed(t, Missing(t.content[t.textIndex.value].text, completed.value));
    }
  }

  lemma CompletedThinkingStreamed(s: State, completed: Option<string>)
    requires Streamed(s)
    ensures Streamed(ApplyCompletedThinking(s, completed))
  {
    if completed.Some? && completed.value != "" {
      EnsureThinkingStreamed(s);
      var t := EnsureThinking(s);
      AppendThinkingStreamed(t, Missing(t.content[t.thinkingIndex.value].thinking, completed.value));
    }
  }

  /** Signing rewrites the last block, which is the open one, and nothing else. */
  lemma SignedText(s: State, encoded: Option<string>) returns (t: State, last: nat)
    requires Streamed(s) && encoded.Some?
    ensures t == EnsureText(s) && Streamed(t) && HasOpen(t)
    ensures t.textIndex == Some(last) && last == |t.content| - 1 && t.content[last].Text?
    ensures SignText(s, encoded) == t.(content := t.content[last := Text(t.content[last].text, encoded)])
  {
    t, last := OpenedText(s);
  }

  lemma SignedThinking(s: State, encoded: Option<string>) returns (t: State, last: nat)
    requires Streamed(s) && encoded.Some?
    ensures t == EnsureThinking(s) && Streamed(t) && HasOpen(t)
    ensures t.thinkingIndex == Some(last) && last == |t.content| - 1 && t.content[last].Thinking?
    ensures SignThinking(s, encoded) == t.(content := t.content[last := Thinking(t.content[last].thinking, encoded)])
  {
    t, last := OpenedThinking(s);
  }

  lemma SignedTextStreamed(s: State, encoded: Option<string>)
    requires Streamed(s)
    ensures Streamed(SignText(s, encoded))
  {
    if encoded.None? {
      EnsureTextStreamed(s);
    } else {
      var t, last := SignedText(s, encoded);
      ChangedStreamed(t, Text(t.content[last].text, encoded));
    }
  }

  lemma SignedThinkingStreamed(s: State, encoded: Option<string>)
    requires Streamed(s)
    ensures Streamed(SignThinking(s, encoded))
  {
    if encoded.Some? {
      var t, last := SignedThinking(s, encoded);
      ChangedStreamed(t, Thinking(t.content[last].thinking, encoded));
    }
  }

  lemma ReplayStep(trace: seq<Emitted>, c: Consumer, event: Emitted)
    requires Replay(trace) == Some(c)
    ensures Replay(trace + [event]) == Consume(c, event)
  {
    assert (trace + [event])[..|trace|] == trace;
  }

  lemma ToolReplays(trace: seq<Emitted>, pieces: seq<Piece>, call: string)
    requires Replay(trace) == Some(Consumer(pieces, false))
    ensures Replay(trace + [ToolStart(|pieces|)] + [ToolEnd(|pieces|, call)]) == Some(Consumer(pieces + [ToolPiece(call)], false))
  {
    var started := trace + [ToolStart(|pieces|)];
    ReplayStep(trace, Consumer(pieces, false), ToolStart(|pieces|));
    ReplayStep(started, Consumer(pieces + [UnknownTool], true), ToolEnd(|pieces|, call));
    assert (pieces + [UnknownTool])[|pieces| := ToolPiece(call)] == pieces + [ToolPiece(call)];
  }

  lemma TextReplays(trace: seq<Emitted>, pieces: seq<Piece>, text: string)
    requires Replay(trace) == Some(Consumer(pieces, false))
    ensures Replay(trace + [Start(TextKind, |pieces|)] + [Delta(TextKind, |pieces|, text)] + [End(TextKind, |pieces|, text)])
         == Some(Consumer(pieces + [TextPiece(text)], false))
    ensures Replay(trace + [Start(TextKind, |pieces|)] + [End(TextKind, |pieces|, "")])
         == Some(Consumer(pieces + [TextPiece("")], false))
  {
    var index, begun, grown := |pieces|, Consumer(pieces + [TextPiece("")], true), Consumer(pieces + [TextPiece(text)], true);
    var started := trace + [Start(TextKind, index)];
    ReplayStep(trace, Consumer(pieces, false), Start(TextKind, index));
    ReplayStep(started, begun, End(TextKind, index, ""));
    ReplayStep(started, begun, Delta(TextKind, index, text));
    assert "" + text == text;
    assert (pieces + [TextPiece("")])[index := TextPiece(text)] == pieces + [TextPiece(text)];
    ReplayStep(started + [Delta(TextKind, index, text)], grown, End(TextKind, index, text));
  }

  lemma AppendedStreamed(s: State, block: Content, t: State)
    requires Streamed(s) && !HasOpen(s) && !HasOpen(t) && t.content == s.content + [block]
    requires Replay(t.trace) == Some(Consumer(Shapes(s.content) + [Shape(block)], false))
    requires t.hasToolCall <==> s.hasToolCall || block.ToolCall?
    ensures Streamed(t)
  {
    assert Shapes(t.content) == Shapes(s.content) + [Shape(block)];
    ToolsAfterAppend(s.content, block);
  }

  lemma ToolCallStreamed(s: State, call: string)
    requires Streamed(s)
    ensures Streamed(AddToolCall(s, call))
  {
    EndOpenBlocksStreamed(s);
    var t := EndOpenBlocks(s);
    ToolReplays(t.trace, Shapes(t.content), call);
    AppendedStreamed(t, ToolCall(call), AddToolCall(s, call));
  }

  lemma ClosedTextStreamed(s: State, deltas: seq<string>, text: string, encoded: Option<string>)
    requires Streamed(s) && |deltas| <= 1 && text == if deltas == [] then "" else deltas[0]
    ensures Streamed(AddClosedText(s, deltas, text, encoded))
  {
    EndOpenBlocksStreamed(s);
    var t := EndOpenBlocks(s);
    if encoded.Some? {
      TextReplays(t.trace, Shapes(t.content), text);
      AppendedStreamed(t, Text(text, encoded), AddClosedText(s, deltas, text, encoded));
    }
  }

  lemma AcceptedStreamed(s: State, event: Incoming)
    requires Streamed(s)
    ensures Streamed(Accepted(s, event))
  {
    match event
    case TextArrived(delta) => AppendTextStreamed(s, delta);
    case ThinkingArrived(delta) => AppendThinkingStreamed(s, delta);
    case MessageDone(completed, encoded) =>
      CompletedTextStreamed(s, completed);
      SignedTextStreamed(ApplyCompletedText(s, completed), encoded);
    case ReasoningDone(completed, encoded) =>
      CompletedThinkingStreamed(s, completed);
      SignedThinkingStreamed(ApplyCompletedThinking(s, completed), encoded);
    case ToolCallDone(called) => if called.Callable? { ToolCallStreamed(s, called.call); }
    case WebSearchDone(summary, encoded) => ClosedTextStreamed(s, [summary], summary, encoded);
    case OpaqueDone(encoded) => ClosedTextStreamed(s, [], "", encoded);
    case Unrelated =>
  }

  lemma {:induction false} AcceptedAllStreamed(events: seq<Incoming>)
    ensures Streamed(AcceptedAll(INITIAL, events))
    decreases |events|
  {
    if events != [] {
      AcceptedAllStreamed(events[..|events| - 1]);
      AcceptedStreamed(AcceptedAll(INITIAL, events[..|events| - 1]), events[|events| - 1]);
    } else {
      assert Shapes([]) == [];
    }
  }

  /**
   For every sequence of events, also one in which some event throws: once the response completes,
   the stream obeys its grammar, every block is closed, and replaying it gives the stored message.
   */
  lemma CompleteStreamReplays(events: seq<Incoming>, lengthLimit: bool)
    ensures var s := Completed(AcceptedAll(INITIAL, events), lengthLimit);
      && Replay(s.trace) == Some(Consumer(Shapes(s.content), false))
      && s.stopReason == (if lengthLimit then Length
                          else if exists i :: 0 <= i < |s.content| && s.content[i].ToolCall? then ToolUse else Stop)
  {
    AcceptedAllStreamed(events);
    EndOpenBlocksStreamed(AcceptedAll(INITIAL, events));
  }

  // ---------------------------------------------------------------- what each event adds

  predicate Has(block: Content, kind: Kind) {
    if kind.TextKind? then block.Text? else block.Thinking?
  }

  function StringOf(block: Content, kind: Kind): string
    requires Has(block, kind)
  {
    if kind.TextKind? then block.text else block.thinking
  }

  /** All the text, or all the thinking, of a message. */
  function AllOf(content: seq<Content>, kind: Kind): string {
    if content == [] then "" else
    var front, last := AllOf(content[..|content| - 1], kind), content[|content| - 1];
    if Has(last, kind) then front + StringOf(last, kind) else front
  }

  function CallsOf(content: seq<Content>): seq<string> {
    if content == [] then [] else
    var front, last := CallsOf(content[..|content| - 1]), content[|content| - 1];
    if last.ToolCall? then front + [last.call] else front
  }

  /** What has arrived of the open block of a kind. */
  function ArrivedOf(s: State, kind: Kind): string {
    var index := if kind.TextKind? then s.textIndex else s.thinkingIndex;
    if index.Some? && index.value < |s.content| && Has(s.content[index.value], kind)
    then StringOf(s.content[index.value], kind) else ""
  }

  function SomeText(text: string): Option<string> { if text == "" then None else Some(text) }

  /** The text a finished item of a kind was completed with, if any. */
  function FinishedWith(event: Incoming, kind: Kind): Option<string> {
    match event
    case MessageDone(completed, _) => if kind.TextKind? && completed.Some? then SomeText(completed.value) else None
    case ReasoningDone(completed, _) => if kind.ThinkingKind? && completed.Some? then SomeText(completed.value) else None
    case _ => None
  }

  /** What an event adds to the text or thinking: its delta, the missing part of a finished item, a search's summary. */
  function AddedTo(arrived: string, event: Incoming, kind: Kind): Option<string> {
    match event
    case TextArrived(delta) => if kind.TextKind? then Some(delta) else None
    case ThinkingArrived(delta) => if kind.TextKind? then None else Some(delta)
    case WebSearchDone(summary, encoded) => if kind.TextKind? && encoded.Some? then Some(summary) else None
    case _ =>
      if FinishedWith(event, kind).Some? then SomeText(Missing(arrived, FinishedWith(event, kind).value)) else None
  }

  function AddedBy(s: State, event: Incoming, kind: Kind): Option<string> {
    AddedTo(ArrivedOf(s, kind), event, kind)
  }

  function Plus(text: string, more: Option<string>): string {
    if more.Some? then text + more.value else text
  }

  function CallsPlus(calls: seq<string>, event: Incoming): seq<string> {
    if event.ToolCallDone? && event.called.Callable? then calls + [event.called.call] else calls
  }

  lemma AppendedParts(content: seq<Content>, block: Content, kind: Kind)
    ensures AllOf(content + [block], kind)
         == if Has(block, kind) then AllOf(content, kind) + StringOf(block, kind) else AllOf(content, kind)
    ensures CallsOf(content + [block]) == if block.ToolCall? then CallsOf(content) + [block.call] else CallsOf(content)
  {
    assert (content + [block])[..|content|] == content;
  }

  /** An empty block adds nothing. */
  lemma EmptyPart(content: seq<Content>, block: Content, kind: Kind)
    requires Has(block, TextKind) || Has(block, ThinkingKind)
    requires Has(block, kind) ==> StringOf(block, kind) == ""
    ensures AllOf(content + [block], kind) == AllOf(content, kind)
    ensures CallsOf(content + [block]) == CallsOf(content)
  {
    AppendedParts(content, block, kind);
    NothingAdded(AllOf(content, kind));
  }

  lemma NothingAdded(a: string)
    ensures a + "" == a
  {
  }

  lemma ConcatAssociates(a: string, b: string, c: string)
    ensures a + (b + c) == a + b + c
  {
  }

  lemma SplitLast(content: seq<Content>, block: Content)
    requires content != []
    ensures content == content[..|content| - 1] + [content[|content| - 1]]
    ensures content[|content| - 1 := block] == content[..|content| - 1] + [block]
  {
  }

  /** Replacing the last block by one of its kind with `delta` more adds just that to the kind, and nothing else. */
  lemma GrownParts(content: seq<Content>, block: Content, grown: Kind, delta: string, kind: Kind)
    requires content != [] && Has(content[|content| - 1], grown) && Has(block, grown)
    requires StringOf(block, grown) == StringOf(content[|content| - 1], grown) + delta
    ensures AllOf(content[|content| - 1 := block], kind)
         == if kind == grown then AllOf(content, kind) + delta else AllOf(content, kind)
    ensures CallsOf(content[|content| - 1 := block]) == CallsOf(content)
  {
    var front, last := content[..|content| - 1], content[|content| - 1];
    SplitLast(content, block);
    AppendedParts(front, last, kind);
    AppendedParts(front, block, kind);
    if kind == grown {
      ConcatAssociates(AllOf(front, kind), StringOf(last, kind), delta);
    }
  }

  /** Replacing the last block by one that says the same changes nothing. */
  lemma SameParts(content: seq<Content>, block: Content, kind: Kind)
    requires content != [] && Shape(block) == Shape(content[|content| - 1])
    ensures AllOf(content[|content| - 1 := block], kind) == AllOf(content, kind)
    ensures CallsOf(content[|content| - 1 := block]) == CallsOf(content)
  {
    SplitLast(content, block);
    AppendedParts(content[..|content| - 1], content[|content| - 1], kind);
    AppendedParts(content[..|content| - 1], block, kind);
  }

  lemma EnsuredTextParts(s: State, kind: Kind)
    ensures AllOf(EnsureText(s).content, kind) == AllOf(s.content, kind) && CallsOf(EnsureText(s).content) == CallsOf(s.content)
  {
    EmptyPart(s.content, Text("", None), kind);
  }

  lemma EnsuredThinkingParts(s: State, kind: Kind)
    ensures AllOf(EnsureThinking(s).content, kind) == AllOf(s.content, kind)
    ensures CallsOf(EnsureThinking(s).content) == CallsOf(s.content)
  {
    EmptyPart(s.content, Thinking("", None), kind);
  }

  lemma AppendTextParts(s: State, delta: string, kind: Kind)
    requires Streamed(s)
    ensures AllOf(AppendText(s, delta).content, kind)
         == if kind.TextKind? then AllOf(s.content, kind) + delta else AllOf(s.content, kind)
    ensures CallsOf(AppendText(s, delta).content) == CallsOf(s.content)
  {
    EnsuredTextParts(s, kind);
    var t, last, grown := AppendedText(s, delta);
    GrownParts(t.content, grown, TextKind, delta, kind);
  }

  lemma AppendThinkingParts(s: State, delta: string, kind: Kind)
    requires Streamed(s)
    ensures AllOf(AppendThinking(s, delta).content, kind)
         == if kind.ThinkingKind? then AllOf(s.content, kind) + delta else AllOf(s.content, kind)
    ensures CallsOf(AppendThinking(s, delta).content) == CallsOf(s.content)
  {
    EnsuredThinkingParts(s, kind);
    var t, last, grown := AppendedThinking(s, delta);
    GrownParts(t.content, grown, ThinkingKind, delta, kind);
  }

  lemma SignedTextParts(s: State, encoded: Option<string>, kind: Kind)
    requires Streamed(s)
    ensures AllOf(SignText(s, encoded).content, kind) == AllOf(s.content, kind)
    ensures CallsOf(SignText(s, encoded).content) == CallsOf(s.content)
  {
    EnsuredTextParts(s, kind);
    if encoded.Some? {
      var t, last := SignedText(s, encoded);
      SameParts(t.content, Text(t.content[last].text, encoded), kind);
    }
  }

  lemma SignedThinkingParts(s: State, encoded: Option<string>, kind: Kind)
    requires Streamed(s)
    ensures AllOf(SignThinking(s, encoded).content, kind) == AllOf(s.content, kind)
    ensures CallsOf(SignThinking(s, encoded).content) == CallsOf(s.content)
  {
    EnsuredThinkingParts(s, kind);
    if encoded.Some? {
      var t, last := SignedThinking(s, encoded);
      SameParts(t.content, Thinking(t.content[last].thinking, encoded), kind);
    }
  }

  lemma EnsuredArrived(s: State)
    requires Streamed(s)
    ensures Streamed(EnsureText(s)) && ArrivedOf(EnsureText(s), TextKind) == ArrivedOf(s, TextKind)
    ensures Streamed(EnsureThinking(s)) && ArrivedOf(EnsureThinking(s), ThinkingKind) == ArrivedOf(s, ThinkingKind)
  {
    EnsureTextStreamed(s);
    EnsureThinkingStreamed(s);
  }

  /** A completed text opens its block and appends what is missing, if anything is. */
  lemma AppliedText(s: State, completed: string)
    requires Streamed(s) && completed != ""
    ensures var delta := Missing(ArrivedOf(s, TextKind), completed);
      ApplyCompletedText(s, Some(completed)) == if delta == "" then EnsureText(s) else AppendText(EnsureText(s), delta)
  {
    EnsuredArrived(s);
  }

  lemma AppliedThinking(s: State, completed: string)
    requires Streamed(s) && completed != ""
    ensures var delta := Missing(ArrivedOf(s, ThinkingKind), completed);
      ApplyCompletedThinking(s, Some(completed))
      == if delta == "" then EnsureThinking(s) else AppendThinking(EnsureThinking(s), delta)
  {
    EnsuredArrived(s);
  }

  lemma CompletedTextParts(s: State, completed: Option<string>, kind: Kind)
    requires Streamed(s)
    ensures AllOf(ApplyCompletedText(s, completed).content, kind)
         == Plus(AllOf(s.content, kind), AddedBy(s, MessageDone(completed, None), kind))
    ensures CallsOf(ApplyCompletedText(s, completed).content) == CallsOf(s.content)
  {
    if completed.Some? && completed.value != "" {
      AppliedText(s, completed.value);
      EnsureTextStreamed(s);
      EnsuredTextParts(s, kind);
      var delta := Missing(ArrivedOf(s, TextKind), completed.value);
      if delta != "" {
        AppendTextParts(EnsureText(s), delta, kind);
      }
    }
  }

  lemma CompletedThinkingParts(s: State, completed: Option<string>, kind: Kind)
    requires Streamed(s)
    ensures AllOf(ApplyCompletedThinking(s, completed).content, kind)
         == Plus(AllOf(s.content, kind), AddedBy(s, ReasoningDone(completed, None), kind))
    ensures CallsOf(ApplyCompletedThinking(s, completed).content) == CallsOf(s.content)
  {
    if completed.Some? && completed.value != "" {
      AppliedThinking(s, completed.value);
      EnsureThinkingStreamed(s);
      EnsuredThinkingParts(s, kind);
      var delta := Missing(ArrivedOf(s, ThinkingKind), completed.value);
      if delta != "" {
        AppendThinkingParts(EnsureThinking(s), delta, kind);
      }
    }
  }

  lemma MessageAddsUp(s: State, completed: Option<string>, encoded: Option<string>, kind: Kind)
    requires Streamed(s)
    ensures var t := SignText(ApplyCompletedText(s, completed), encoded);
      && AllOf(t.content, kind) == Plus(AllOf(s.content, kind), AddedBy(s, MessageDone(completed, encoded), kind))
      && CallsOf(t.content) == CallsOf(s.content)
  {
    var applied := ApplyCompletedText(s, completed);
    CompletedTextParts(s, completed, kind);
    CompletedTextStreamed(s, completed);
    SignedTextParts(applied, encoded, kind);
    assert AddedBy(s, MessageDone(completed, encoded), kind) == AddedBy(s, MessageDone(completed, None), kind);
  }

  lemma ReasoningAddsUp(s: State, completed: Option<string>, encoded: Option<string>, kind: Kind)
    requires Streamed(s)
    ensures var t := SignThinking(ApplyCompletedThinking(s, completed), encoded);
      && AllOf(t.content, kind) == Plus(AllOf(s.content, kind), AddedBy(s, ReasoningDone(completed, encoded), kind))
      && CallsOf(t.content) == CallsOf(s.content)
  {
    var applied := ApplyCompletedThinking(s, completed);
    CompletedThinkingParts(s, completed, kind);
    CompletedThinkingStreamed(s, completed);
    SignedThinkingParts(applied, encoded, kind);
    assert AddedBy(s, ReasoningDone(completed, encoded), kind) == AddedBy(s, ReasoningDone(completed, None), kind);
  }

  lemma EndedKeepsContent(s: State)
    ensures EndOpenBlocks(s).content == s.content
  {
  }

  lemma BlockAddsUp(s: State, event: Incoming, kind: Kind)
    requires event.ToolCallDone? || event.WebSearchDone? || event.OpaqueDone?
    ensures AllOf(Accepted(s, event).content, kind) == Plus(AllOf(s.content, kind), AddedBy(s, event, kind))
    ensures CallsOf(Accepted(s, event).content) == CallsPlus(CallsOf(s.content), event)
  {
    EndedKeepsContent(s);
    match event
    case ToolCallDone(called) => if called.Callable? { AppendedParts(s.content, ToolCall(called.call), kind); }
    case WebSearchDone(summary, encoded) => if encoded.Some? { AppendedParts(s.content, Text(summary, encoded), kind); }
    case OpaqueDone(encoded) => if encoded.Some? { EmptyPart(s.content, Text("", encoded), kind); }
  }

  /** Every event adds its own text, thinking and call at the end, and takes nothing away. */
  lemma EventsAddUp(s: State, event: Incoming, kind: Kind)
    requires Streamed(s)
    ensures AllOf(Accepted(s, event).content, kind) == Plus(AllOf(s.content, kind), AddedBy(s, event, kind))
    ensures CallsOf(Accepted(s, event).content) == CallsPlus(CallsOf(s.content), event)
  {
    if event.TextArrived? {
      AppendTextParts(s, event.delta, kind);
    } else if event.ThinkingArrived? {
      AppendThinkingParts(s, event.delta, kind);
    } else if event.MessageDone? {
      MessageAddsUp(s, event.completed, event.encoded, kind);
    } else if event.ReasoningDone? {
      ReasoningAddsUp(s, event.completed, event.encoded, kind);
    } else if !event.Unrelated? {
      BlockAddsUp(s, event, kind);
    }
  }

  // ---------------------------------------------------------------- the class

  class ResponseState {
    var output: seq<Content>
    var textIndex: Option<nat>
    var thinkingIndex: Option<nat>
    var hasToolCall: bool
    var stopReason: StopReason
    var stream: seq<Emitted>

    function View(): State
      reads this
    {
      State(output, textIndex, thinkingIndex, hasToolCall, stopReason, stream)
    }

    constructor ()
      ensures View() == INITIAL
    {
      output, textIndex, thinkingIndex, hasToolCall, stopReason, stream := [], None, None, false, NotStopped, [];
    }

    method EndTextBlock()
      modifies this`textIndex, this`stream
      ensures View() == EndText(old(View()))
    {
      if textIndex.None? {
        return;
      }
      var index := textIndex.value;
      if index < |output| && output[index].Text? {
        stream := stream + [End(TextKind, index, output[index].text)];
      }
      textIndex := None;
    }

    method EndThinkingBlock()
      modifies this`thinkingIndex, this`stream
      ensures View() == EndThinking(old(View()))
    {
      if thinkingIndex.None? {
        return;
      }
      var index := thinkingIndex.value;
      if index < |output| && output[index].Thinking? {
        stream := stream + [End(ThinkingKind, index, output[index].thinking)];
      }
      thinkingIndex := None;
    }

    method EnsureTextBlock() returns (index: nat)
      modifies this
      ensures View() == EnsureText(old(View())) && textIndex == Some(index)
    {
      if textIndex.Some? {
        return textIndex.value;
      }
      EndThinkingBlock();
      index := |output|;
      output := output + [Text("", None)];
      textIndex := Some(index);
      stream := stream + [Start(TextKind, index)];
    }

    method EnsureThinkingBlock() returns (index: nat)
      modifies this
      ensures View() == EnsureThinking(old(View())) && thinkingIndex == Some(index)
    {
      if thinkingIndex.Some? {
        return thinkingIndex.value;
      }
      EndTextBlock();
      index := |output|;
      output := output + [Thinking("", None)];
      thinkingIndex := Some(index);
      stream := stream + [Start(ThinkingKind, index)];
    }

    method AddText(delta: string)
      modifies this
      ensures View() == AppendText(old(View()), delta)
    {
      var index := EnsureTextBlock();
      if index < |output| && output[index].Text? {
        output := output[index := Text(output[index].text + delta, output[index].signature)];
        stream := stream + [Delta(TextKind, index, delta)];
      }
    }

    method AddThinking(delta: string)
      modifies this
      ensures View() == AppendThinking(old(View()), delta)
    {
      var index := EnsureThinkingBlock();
      if index < |output| && output[index].Thinking? {
        output := output[index := Thinking(output[index].thinking + delta, output[index].signature)];
        stream := stream + [Delta(ThinkingKind, index, delta)];
      }
    }

    method FinishText(completed: Option<string>)
      modifies this
      ensures View() == ApplyCompletedText(old(View()), completed)
    {
      if completed.None? || completed.value == "" {
        return;
      }
      var index := EnsureTextBlock();
      if index < |output| && output[index].Text? && completed.value != output[index].text {
        var arrived := output[index].text;
        var delta := if arrived <= completed.value then completed.value[|arrived|..] else completed.value;
        if delta != "" {
          AddText(delta);
        }
      }
    }

    method FinishThinking(completed: Option<string>)
      modifies this
      ensures View() == ApplyCompletedThinking(old(View()), completed)
    {
      if completed.None? || completed.value == "" {
        return;
      }
      var index := EnsureThinkingBlock();
      if index < |output| && output[index].Thinking? && completed.value != output[index].thinking {
        var arrived := output[index].thinking;
        var delta := if arrived <= completed.value then completed.value[|arrived|..] else completed.value;
        if delta != "" {
          AddThinking(delta);
        }
      }
    }

    method SignTextBlock(encoded: Option<string>)
      modifies this
      ensures View() == SignText(old(View()), encoded)
    {
      var index := EnsureTextBlock();
      if encoded.Some? && index < |output| && output[index].Text? {
        output := output[index := Text(output[index].text, encoded)];
      }
    }

    method SignThinkingBlock(encoded: string)
      modifies this
      ensures View() == SignThinking(old(View()), Some(encoded))
    {
      var index := EnsureThinkingBlock();
      if index < |output| && output[index].Thinking? {
        output := output[index := Thinking(output[index].thinking, Some(encoded))];
      }
    }

    method AddTool(call: string)
      modifies this
      ensures View() == AddToolCall(old(View()), call)
    {
      EndTextBlock();
      EndThinkingBlock();
      var index := |output|;
      output := output + [ToolCall(call)];
      hasToolCall := true;
      stream := stream + [ToolStart(index)];
      stream := stream + [ToolEnd(index, call)];
    }

    method AddWholeText(deltas: seq<string>, text: string, encoded: Option<string>)
      requires |deltas| <= 1
      modifies this
      ensures View() == AddClosedText(old(View()), deltas, text, encoded)
    {
      EndTextBlock();
      EndThinkingBlock();
      if encoded.None? {
        return;
      }
      var index := |output|;
      output := output + [Text(text, encoded)];
      stream := stream + [Start(TextKind, index)];
      if deltas != [] {
        stream := stream + [Delta(TextKind, index, deltas[0])];
      }
      stream := stream + [End(TextKind, index, text)];
    }

    /** Reports whether the event was taken; encoding its item may throw halfway. */
    method Accept(event: Incoming) returns (accepted: bool)
      modifies this
      ensures View() == Accepted(old(View()), event) && accepted == !Throws(event)
    {
      match event {
        case TextArrived(delta) => AddText(delta);
        case ThinkingArrived(delta) => AddThinking(delta);
        case MessageDone(completed, encoded) =>
          FinishText(completed);
          SignTextBlock(encoded);
        case ReasoningDone(completed, encoded) =>
          FinishThinking(completed);
          if encoded.Some? {
            SignThinkingBlock(encoded.value);
          }
        case ToolCallDone(called) =>
          if called.Callable? {
            AddTool(called.call);
          }
        case WebSearchDone(summary, encoded) => AddWholeText([summary], summary, encoded);
        case OpaqueDone(encoded) => AddWholeText([], "", encoded);
        case Unrelated =>
      }
      accepted := !Throws(event);
    }

    method Complete(lengthLimit: bool)
      modifies this
      ensures View() == Completed(old(View()), lengthLimit)
    {
      EndTextBlock();
      EndThinkingBlock();
      stopReason := if lengthLimit then Length else if hasToolCall then ToolUse else Stop;
    }
  }
}
