/**
 Replaying a session from its latest compaction checkpoint: the checkpoint's opaque output followed
 by the canonical projection of the entries the checkpoint does not cover.
 */
module CheckpointReplay {
  import opened Outcomes
  import opened MessageNormalization

  /** A response item, as its canonical JSON text. */
  type Item = string

  /** The seven identity fields, compared as a whole. */
  type Identity = string

  datatype Checkpoint = Checkpoint(identity: Identity, coveredEntryId: string, output: seq<Item>)

  /** A custom entry carries a checkpoint when its type says so and its data is well formed. */
  datatype SessionEntry =
    | CustomEntry(id: string, checkpoint: Option<Checkpoint>)
    | OrdinaryEntry(id: string, tag: nat)

  /** The host's element-wise conversions and the provider's item conversion; any functions will do. */
  datatype Host = Host(
    entryMessages: SessionEntry -> seq<Message>,
    messageItems: Message -> seq<Item>,
    supported: Item -> bool)

  datatype ReplayError = ReplayFailed

  datatype Selection = Selection(checkpoint: Checkpoint, coveredIndex: nat, entryIndex: nat)

  datatype Scan = Scan(matching: Option<Selection>, hasIdentityMismatch: bool)

  // ---------------------------------------------------------------- canonical projection

  function ContextMessages(host: Host, entries: seq<SessionEntry>): seq<Message> {
    if entries == [] then []
    else (if entries[0].CustomEntry? then [] else host.entryMessages(entries[0])) + ContextMessages(host, entries[1..])
  }

  function ItemsOf(host: Host, messages: seq<Message>): seq<Item> {
    if messages == [] then [] else host.messageItems(messages[0]) + ItemsOf(host, messages[1..])
  }

  predicate AllSupported(host: Host, items: seq<Item>) {
    forall item | item in items :: host.supported(item)
  }

  function ProjectMessages(host: Host, messages: seq<Message>): Result<seq<Item>, ReplayError> {
    match Normalize(messages)
    case Err(_) => Err(ReplayFailed)
    case Ok(normalized) =>
      var items := ItemsOf(host, normalized);
      if AllSupported(host, items) then Ok(items) else Err(ReplayFailed)
  }

  function ProjectCanonicalEntries(host: Host, entries: seq<SessionEntry>): Result<seq<Item>, ReplayError> {
    ProjectMessages(host, ContextMessages(host, entries))
  }

  function CheckpointPayload(host: Host, selection: Selection, branch: seq<SessionEntry>, endExclusive: int)
    : Result<seq<Item>, ReplayError>
  {
    if endExclusive <= selection.coveredIndex || endExclusive > |branch| then Err(ReplayFailed)
    else match ProjectCanonicalEntries(host, branch[selection.coveredIndex + 1..endExclusive])
      case Err(e) => Err(e)
      case Ok(suffix) => Ok(selection.checkpoint.output + suffix)
  }

  lemma {:induction false} ContextMessagesAppend(host: Host, a: seq<SessionEntry>, b: seq<SessionEntry>)
    ensures ContextMessages(host, a + b) == ContextMessages(host, a) + ContextMessages(host, b)
  {
    if a == [] {
      assert a + b == b;
    } else {
      assert (a + b)[1..] == a[1..] + b;
      ContextMessagesAppend(host, a[1..], b);
      var head := if a[0].CustomEntry? then [] else host.entryMessages(a[0]);
      assert head + (ContextMessages(host, a[1..]) + ContextMessages(host, b))
          == head + ContextMessages(host, a[1..]) + ContextMessages(host, b);
    }
  }

  lemma {:induction false} ItemsOfAppend(host: Host, a: seq<Message>, b: seq<Message>)
    ensures ItemsOf(host, a + b) == ItemsOf(host, a) + ItemsOf(host, b)
  {
    if a == [] {
      assert a + b == b;
    } else {
      assert (a + b)[1..] == a[1..] + b;
      ItemsOfAppend(host, a[1..], b);
      assert host.messageItems(a[0]) + (ItemsOf(host, a[1..]) + ItemsOf(host, b))
          == host.messageItems(a[0]) + ItemsOf(host, a[1..]) + ItemsOf(host, b);
    }
  }

  /** The projection splits, in its items and its failures, wherever normalisation does. */
  lemma ProjectionSplits(host: Host, a: seq<Message>, b: seq<Message>)
    requires Normalize(a).Err? || Normalize(b).Err? || CutsCleanly(a, b)
    ensures ProjectMessages(host, a + b) ==
            if ProjectMessages(host, a).Ok? && ProjectMessages(host, b).Ok?
            then Ok(ProjectMessages(host, a).value + ProjectMessages(host, b).value)
            else Err(ReplayFailed)
  {
    SplitsExactlyWhen(a, b);
    if Normalize(a).Ok? && Normalize(b).Ok? {
      ItemsOfAppend(host, Normalize(a).value, Normalize(b).value);
    }
  }

  function CoveredMessages(host: Host, selection: Selection, branch: seq<SessionEntry>): seq<Message>
    requires selection.coveredIndex < |branch|
  {
    ContextMessages(host, branch[..selection.coveredIndex + 1])
  }

  function SuffixMessages(host: Host, selection: Selection, branch: seq<SessionEntry>, endExclusive: nat): seq<Message>
    requires selection.coveredIndex < endExclusive <= |branch|
  {
    ContextMessages(host, branch[selection.coveredIndex + 1..endExclusive])
  }

  /** The replay is the checkpoint output and the tail of the full projection, or fails together with it. */
  ghost predicate ReplaysTail(host: Host, selection: Selection, branch: seq<SessionEntry>, endExclusive: nat)
    requires selection.coveredIndex < endExclusive <= |branch|
    requires ProjectMessages(host, CoveredMessages(host, selection, branch)).Ok?
  {
    var covered := ProjectMessages(host, CoveredMessages(host, selection, branch)).value;
    var payload := CheckpointPayload(host, selection, branch, endExclusive);
    match ProjectCanonicalEntries(host, branch[..endExclusive])
    case Err(_) => payload == Err(ReplayFailed)
    case Ok(full) => covered <= full && payload == Ok(selection.checkpoint.output + full[|covered|..])
  }

  lemma BranchMessages(host: Host, selection: Selection, branch: seq<SessionEntry>, endExclusive: nat)
    requires selection.coveredIndex < endExclusive <= |branch|
    ensures ContextMessages(host, branch[..endExclusive])
         == CoveredMessages(host, selection, branch) + SuffixMessages(host, selection, branch, endExclusive)
  {
    var prefix, suffix := branch[..selection.coveredIndex + 1], branch[selection.coveredIndex + 1..endExclusive];
    assert branch[..endExclusive] == prefix + suffix;
    ContextMessagesAppend(host, prefix, suffix);
  }

  // ---------------------------------------------------------------- behind open calls

  /**
   What the provider's conversion does: a tool result is one item, which names its call, and no other
   message has items unless it is a turn boundary.
   */
  ghost predicate Converts(host: Host) {
    && (forall m: Message :: IsToolResult(m) ==> |host.messageItems(m)| == 1)
    && (forall m: Message :: !IsToolResult(m) && !IsBoundary(m) ==> host.messageItems(m) == [])
    && (forall m: Message, n: Message {:trigger host.messageItems(m), host.messageItems(n)} ::
          IsToolResult(m) && IsToolResult(n) && host.messageItems(m) == host.messageItems(n) ==> m.toolCallId == n.toolCallId)
  }

  /** The messages before the first turn boundary. */
  function Head(messages: seq<Message>): (head: seq<Message>)
    ensures head <= messages
    ensures |head| < |messages| ==> IsBoundary(messages[|head|])
  {
    if messages == [] || IsBoundary(messages[0]) then [] else [messages[0]] + Head(messages[1..])
  }

  ghost predicate NoBoundary(messages: seq<Message>) {
    forall i :: 0 <= i < |messages| ==> !IsBoundary(messages[i])
  }

  lemma {:induction false} HeadHasNoBoundary(messages: seq<Message>)
    ensures NoBoundary(Head(messages))
  {
    if messages != [] && !IsBoundary(messages[0]) {
      HeadHasNoBoundary(messages[1..]);
    }
  }

  function ResultMessages(pending: seq<PendingCall>): seq<Message> { MessagesOf(Synthetics(pending)) }

  /** Without a boundary everything is kept, and calls are only answered. */
  lemma {:induction false} WalkWithoutBoundary(pending: seq<PendingCall>, head: seq<Message>)
    requires NoBoundary(head) && Walk(pending, head).Ok?
    ensures MessagesOf(Walk(pending, head).value.emitted) == head
    ensures |Walk(pending, head).value.pending| <= |pending|
    decreases |head|
  {
    if head != [] {
      var next := NextPending(pending, head[0]).value;
      assert Advance(pending, head[0]) == Ok(Progress([] + [Kept(head[0])], next));
      WalkWithoutBoundary(next, head[1..]);
      MessagesOfAppend([] + [Kept(head[0])], Walk(next, head[1..]).value.emitted);
      assert MessagesOf([] + [Kept(head[0])]) == [head[0]];
    }
  }

  lemma {:induction false} NothingOpenWalks(head: seq<Message>)
    requires NoBoundary(head)
    ensures Walk([], head).Ok? && Walk([], head).value.pending == []
    decreases |head|
  {
    if head != [] {
      assert NextPending([], head[0]) == Ok([]);
      NothingOpenWalks(head[1..]);
    }
  }

  /** Messages without items answer no call. */
  lemma {:induction false} SilentWalks(host: Host, pending: seq<PendingCall>, head: seq<Message>)
    requires Converts(host) && NoBoundary(head) && ItemsOf(host, head) == []
    ensures Walk(pending, head).Ok? && Walk(pending, head).value.pending == pending
    decreases |head|
  {
    if head != [] {
      assert |host.messageItems(head[0])| == 0 && !IsToolResult(head[0]);
      assert NextPending(pending, head[0]) == Ok(pending);
      SilentWalks(host, pending, head[1..]);
    }
  }

  /** If the first item is that of the first open call's result, a call is answered. */
  lemma {:induction false} FirstItemAnswers(host: Host, pending: seq<PendingCall>, head: seq<Message>)
    requires Converts(host) && pending != [] && NoBoundary(head) && Walk(pending, head).Ok?
    requires ItemsOf(host, head) != []
    requires [ItemsOf(host, head)[0]] == host.messageItems(SyntheticToolResult(pending[0]))
    ensures |Walk(pending, head).value.pending| < |pending|
    decreases |head|
  {
    var m, next := head[0], NextPending(pending, head[0]).value;
    if IsToolResult(m) {
      assert host.messageItems(m) == [ItemsOf(host, head)[0]];
      assert m.toolCallId == SyntheticToolResult(pending[0]).toolCallId;
      assert IndexOfCall(pending, pending[0].callId) == 0;
      assert |next| < |pending|;
      WalkWithoutBoundary(next, head[1..]);
    } else {
      assert next == pending;
      FirstItemAnswers(host, pending, head[1..]);
    }
  }

  lemma {:induction false} OneItemEach(host: Host, pending: seq<PendingCall>)
    requires Converts(host)
    ensures |ItemsOf(host, ResultMessages(pending))| == |pending|
    ensures pending != [] ==> [ItemsOf(host, ResultMessages(pending))[0]] == host.messageItems(SyntheticToolResult(pending[0]))
  {
    if pending != [] {
      OneItemEach(host, pending[1..]);
      assert ResultMessages(pending)[0] == SyntheticToolResult(pending[0]);
      assert ResultMessages(pending)[1..] == ResultMessages(pending[1..]);
    }
  }

  /** Results that arrive late and those invented in their place agree only if no result arrives. */
  lemma LateResultsDiffer(host: Host, pending: seq<PendingCall>, head: seq<Message>)
    requires Converts(host) && pending != [] && NoBoundary(head) && Walk(pending, head).Ok?
    ensures var left := Walk(pending, head).value.pending;
      ItemsOf(host, head) + ItemsOf(host, ResultMessages(left)) == ItemsOf(host, ResultMessages(pending)) + ItemsOf(host, head)
      <==> ItemsOf(host, head) == []
  {
    var left := Walk(pending, head).value.pending;
    var late, open := ItemsOf(host, head), ItemsOf(host, ResultMessages(pending));
    var remaining := ItemsOf(host, ResultMessages(left));
    OneItemEach(host, pending);
    OneItemEach(host, left);
    if late == [] {
      SilentWalks(host, pending, head);
      assert [] + open == open + [];
    } else if late + remaining == open + late {
      assert |remaining| == |open|;
      assert late[0] == (late + remaining)[0] == (open + late)[0] == open[0];
      FirstItemAnswers(host, pending, head);
    }
  }

  // ---------------------------------------------------------------- the projections around an open call

  /** What normalising gives in front of a turn boundary or the end. */
  lemma RestNormalizes(messages: seq<Message>, rest: seq<Message>)
    requires rest != [] ==> IsBoundary(rest[0])
    ensures Normalize(messages + rest) == Concat(Normalize(messages), Normalize(rest))
  {
    if rest == [] {
      assert messages + rest == messages;
      assert Walk([], rest) == Ok(Progress([], [])) && [] + Synthetics([]) == [];
      assert Normalize(rest) == Ok(MessagesOf([])) && MessagesOf([]) == [];
      if Normalize(messages).Ok? {
        assert Normalize(messages).value + [] == Normalize(messages).value;
      }
    } else {
      SplitsAtBoundary(messages, rest);
    }
  }

  lemma HeadNormalizes(head: seq<Message>)
    requires NoBoundary(head)
    ensures Normalize(head) == Ok(head)
  {
    NothingOpenWalks(head);
    WalkWithoutBoundary([], head);
    assert Walk([], head).value.emitted + Synthetics([]) == Walk([], head).value.emitted;
  }

  lemma FlushedParts(first: seq<Entry>, second: seq<Entry>, pending: seq<PendingCall>)
    ensures MessagesOf(first + second + Synthetics(pending)) == MessagesOf(first) + (MessagesOf(second) + ResultMessages(pending))
    ensures MessagesOf(first + Synthetics(pending)) == MessagesOf(first) + ResultMessages(pending)
  {
    assert first + second + Synthetics(pending) == first + (second + Synthetics(pending));
    MessagesOfAppend(first, second + Synthetics(pending));
    MessagesOfAppend(second, Synthetics(pending));
    MessagesOfAppend(first, Synthetics(pending));
  }

  /** Behind open calls, the head comes before the results that are still missing. */
  lemma HeadBehindOpenCalls(before: seq<Message>, head: seq<Message>)
    requires NoBoundary(head) && Normalize(before).Ok?
    ensures var p := Walk([], before).value;
      && Normalize(before) == Ok(MessagesOf(p.emitted) + ResultMessages(p.pending))
      && Normalize(before + head) ==
           if Walk(p.pending, head).Ok?
           then Ok(MessagesOf(p.emitted) + (head + ResultMessages(Walk(p.pending, head).value.pending)))
           else Err(InvalidHistory)
  {
    var p := Walk([], before).value;
    WalkAppend([], before, head);
    FlushedParts(p.emitted, [], p.pending);
    if Walk(p.pending, head).Ok? {
      var q := Walk(p.pending, head).value;
      WalkWithoutBoundary(p.pending, head);
      FlushedParts(p.emitted, q.emitted, q.pending);
      assert Walk([], before + head) == Ok(Progress(p.emitted + q.emitted, q.pending));
    } else {
      assert Walk(p.pending, head).error == InvalidHistory;
    }
  }

  /** The four parts from which the three projections are made. */
  datatype Parts = Parts(covered: seq<Item>, open: seq<Item>, late: seq<Item>, remaining: seq<Item>, rest: seq<Item>) {
    function Covered(): seq<Item> { covered + open }
    function Suffix(): seq<Item> { late + rest }
    function Full(): seq<Item> { covered + (late + remaining) + rest }
  }

  lemma PartsTell(p: Parts)
    ensures p.Full() == p.Covered() + p.Suffix() <==> p.late + p.remaining == p.open + p.late
  {
    var whole, cut := p.late + p.remaining, p.open + p.late;
    assert p.Covered() + p.Suffix() == p.covered + cut + p.rest;
    if p.Full() == p.covered + cut + p.rest {
      assert |whole| == |cut|;
      assert whole == p.Full()[|p.covered|..|p.covered| + |whole|];
      assert cut == (p.covered + cut + p.rest)[|p.covered|..|p.covered| + |cut|];
    }
  }

  function PartsOf(host: Host, before: seq<Message>, head: seq<Message>, rest: seq<Message>): Parts
    requires Walk([], before).Ok? && Walk(Walk([], before).value.pending, head).Ok?
  {
    var p := Walk([], before).value;
    Parts(ItemsOf(host, MessagesOf(p.emitted)), ItemsOf(host, ResultMessages(p.pending)), ItemsOf(host, head),
          ItemsOf(host, ResultMessages(Walk(p.pending, head).value.pending)), ItemsOf(host, rest))
  }

  lemma PartsProject(host: Host, before: seq<Message>, head: seq<Message>, rest: seq<Message>)
    requires NoBoundary(head) && (rest != [] ==> IsBoundary(rest[0]))
    requires Normalize(before).Ok? && Normalize(rest).Ok? && Walk(Walk([], before).value.pending, head).Ok?
    ensures var parts := PartsOf(host, before, head, Normalize(rest).value);
      && ItemsOf(host, Normalize(before).value) == parts.Covered()
      && Normalize(head + rest).Ok? && ItemsOf(host, Normalize(head + rest).value) == parts.Suffix()
      && Normalize(before + head + rest).Ok? && ItemsOf(host, Normalize(before + head + rest).value) == parts.Full()
  {
    var p := Walk([], before).value;
    var left := ResultMessages(Walk(p.pending, head).value.pending);
    HeadBehindOpenCalls(before, head);
    HeadNormalizes(head);
    RestNormalizes(head, rest);
    RestNormalizes(before + head, rest);
    ItemsOfAppend(host, MessagesOf(p.emitted), ResultMessages(p.pending));
    ItemsOfAppend(host, head, Normalize(rest).value);
    ItemsOfAppend(host, head, left);
    ItemsOfAppend(host, MessagesOf(p.emitted), head + left);
    ItemsOfAppend(host, MessagesOf(p.emitted) + (head + left), Normalize(rest).value);
  }

  /** With a call open at the cut, the replay is the tail exactly if no result comes before the next boundary. */
  lemma OpenCallTail(host: Host, before: seq<Message>, suffix: seq<Message>)
    requires Converts(host) && ProjectMessages(host, before).Ok? && ProjectMessages(host, suffix).Ok?
    requires Walk([], before).value.pending != []
    ensures ProjectMessages(host, before + suffix)
         == Ok(ProjectMessages(host, before).value + ProjectMessages(host, suffix).value)
      <==> ItemsOf(host, Head(suffix)) == []
  {
    var head := Head(suffix);
    var rest := suffix[|head|..];
    assert suffix == head + rest && before + suffix == before + head + rest;
    HeadHasNoBoundary(suffix);
    OpenCallCut(host, before, head, rest);
  }

  lemma OpenCallCut(host: Host, before: seq<Message>, head: seq<Message>, rest: seq<Message>)
    requires NoBoundary(head) && (rest != [] ==> IsBoundary(rest[0]))
    requires Converts(host) && ProjectMessages(host, before).Ok? && ProjectMessages(host, head + rest).Ok?
    requires Walk([], before).value.pending != []
    ensures ProjectMessages(host, before + head + rest)
         == Ok(ProjectMessages(host, before).value + ProjectMessages(host, head + rest).value)
      <==> ItemsOf(host, head) == []
  {
    var pending := Walk([], before).value.pending;
    HeadNormalizes(head);
    RestNormalizes(head, rest);
    if Walk(pending, head).Ok? {
      PartsProject(host, before, head, rest);
      PartsAddUp(host, before, head, rest);
      LateResultsDiffer(host, pending, head);
    } else {
      HeadBehindOpenCalls(before, head);
      RestNormalizes(before + head, rest);
      if ItemsOf(host, head) == [] {
        SilentWalks(host, pending, head);
      }
    }
  }

  /** When the head can be walked, the projections add up exactly if the late results do. */
  lemma PartsAddUp(host: Host, before: seq<Message>, head: seq<Message>, rest: seq<Message>)
    requires NoBoundary(head) && (rest != [] ==> IsBoundary(rest[0]))
    requires ProjectMessages(host, before).Ok? && ProjectMessages(host, head + rest).Ok? && Normalize(rest).Ok?
    requires Walk(Walk([], before).value.pending, head).Ok?
    ensures var parts := PartsOf(host, before, head, Normalize(rest).value);
      ProjectMessages(host, before + head + rest)
      == Ok(ProjectMessages(host, before).value + ProjectMessages(host, head + rest).value)
      <==> parts.late + parts.remaining == parts.open + parts.late
  {
    var parts := PartsOf(host, before, head, Normalize(rest).value);
    PartsProject(host, before, head, rest);
    PartsTell(parts);
    if parts.Full() == parts.Covered() + parts.Suffix() {
      assert forall item | item in parts.Full() :: item in parts.Covered() || item in parts.Suffix();
    }
  }

  /** For any host: if what follows the cut fails by itself, the whole fails. */
  lemma SuffixFailureSpreads(host: Host, before: seq<Message>, suffix: seq<Message>)
    requires ProjectMessages(host, before).Ok? && ProjectMessages(host, suffix).Err?
    ensures ProjectMessages(host, before + suffix).Err?
  {
    var head := Head(suffix);
    var rest := suffix[|head|..];
    assert suffix == head + rest && before + suffix == before + head + rest;
    HeadHasNoBoundary(suffix);
    FailureBehind(host, before, head, rest);
  }

  lemma FailureBehind(host: Host, before: seq<Message>, head: seq<Message>, rest: seq<Message>)
    requires NoBoundary(head) && (rest != [] ==> IsBoundary(rest[0]))
    requires ProjectMessages(host, before).Ok? && ProjectMessages(host, head + rest).Err?
    ensures ProjectMessages(host, before + head + rest).Err?
  {
    var pending := Walk([], before).value.pending;
    HeadNormalizes(head);
    RestNormalizes(head, rest);
    RestNormalizes(before + head, rest);
    HeadBehindOpenCalls(before, head);
    if Walk(pending, head).Ok? && Normalize(rest).Ok? {
      var parts := PartsOf(host, before, head, Normalize(rest).value);
      PartsProject(host, before, head, rest);
      assert forall item | item in parts.Suffix() :: item in parts.Full();
    }
  }

  // ---------------------------------------------------------------- when the replay is the tail

  /**
   For any host: when no call is open behind the covered entries, or what follows them starts with a
   turn boundary, projects to nothing or fails by itself, a replay is the checkpoint's output followed
   by exactly the tail of the full canonical projection that the covered entries do not account for,
   and it fails exactly when the full projection fails.
   */
  lemma ReplayIsTailOfProjection(host: Host, selection: Selection, branch: seq<SessionEntry>, endExclusive: nat)
    requires selection.coveredIndex < endExclusive <= |branch|
    requires ProjectMessages(host, CoveredMessages(host, selection, branch)).Ok?
    requires var suffix := SuffixMessages(host, selection, branch, endExclusive);
             ProjectMessages(host, suffix).Err? || CutsCleanly(CoveredMessages(host, selection, branch), suffix)
    ensures ReplaysTail(host, selection, branch, endExclusive)
  {
    var before, suffix := CoveredMessages(host, selection, branch), SuffixMessages(host, selection, branch, endExclusive);
    BranchMessages(host, selection, branch, endExclusive);
    if ProjectMessages(host, suffix).Err? {
      SuffixFailureSpreads(host, before, suffix);
    } else {
      ProjectionSplits(host, before, suffix);
      TailBehind(ProjectMessages(host, before).value, ProjectMessages(host, suffix).value);
    }
  }

  lemma TailBehind(covered: seq<Item>, tail: seq<Item>)
    ensures covered <= covered + tail && (covered + tail)[|covered|..] == tail
  {
  }

  /** A replay that does not fail by itself is the tail exactly if the projections add up. */
  lemma TailAddsUp(host: Host, selection: Selection, branch: seq<SessionEntry>, endExclusive: nat)
    requires selection.coveredIndex < endExclusive <= |branch|
    requires ProjectMessages(host, CoveredMessages(host, selection, branch)).Ok?
    requires ProjectMessages(host, SuffixMessages(host, selection, branch, endExclusive)).Ok?
    ensures var before, suffix := CoveredMessages(host, selection, branch), SuffixMessages(host, selection, branch, endExclusive);
      ReplaysTail(host, selection, branch, endExclusive) <==>
      ProjectMessages(host, before + suffix) == Ok(ProjectMessages(host, before).value + ProjectMessages(host, suffix).value)
  {
    var before, suffix := CoveredMessages(host, selection, branch), SuffixMessages(host, selection, branch, endExclusive);
    var covered, tail := ProjectMessages(host, before).value, ProjectMessages(host, suffix).value;
    BranchMessages(host, selection, branch, endExclusive);
    TailBehind(covered, tail);
    if ReplaysTail(host, selection, branch, endExclusive) {
      TailDeterminesItems(selection.checkpoint.output, covered, tail, ProjectMessages(host, before + suffix).value);
    }
  }

  lemma TailDeterminesItems(output: seq<Item>, covered: seq<Item>, tail: seq<Item>, full: seq<Item>)
    requires covered <= full && output + tail == output + full[|covered|..]
    ensures full == covered + tail
  {
    assert tail == (output + tail)[|output|..] == full[|covered|..];
  }

  /**
   With the provider's conversion the replay is the tail of the full projection if and only if what
   follows the cut fails by itself, no call is open at the cut, or nothing that gives an item (so, no
   tool result) comes before the first turn boundary behind it.
   */
  lemma ReplayIsTailExactlyWhen(host: Host, selection: Selection, branch: seq<SessionEntry>, endExclusive: nat)
    requires Converts(host) && selection.coveredIndex < endExclusive <= |branch|
    requires ProjectMessages(host, CoveredMessages(host, selection, branch)).Ok?
    ensures var before, suffix := CoveredMessages(host, selection, branch), SuffixMessages(host, selection, branch, endExclusive);
      ReplaysTail(host, selection, branch, endExclusive) <==>
        || ProjectMessages(host, suffix).Err?
        || Walk([], before).value.pending == []
        || ItemsOf(host, Head(suffix)) == []
  {
    var before, suffix := CoveredMessages(host, selection, branch), SuffixMessages(host, selection, branch, endExclusive);
    if ProjectMessages(host, suffix).Err? || Walk([], before).value.pending == [] {
      ReplayIsTailOfProjection(host, selection, branch, endExclusive);
    } else {
      TailAddsUp(host, selection, branch, endExclusive);
      OpenCallTail(host, before, suffix);
    }
  }

  /** In the messages before a boundary only tool results give items. */
  lemma {:induction false} HeadIsSilentExactlyWhen(host: Host, messages: seq<Message>)
    requires Converts(host)
    ensures ItemsOf(host, Head(messages)) == [] <==> forall m | m in Head(messages) :: !IsToolResult(m)
  {
    if messages != [] && !IsBoundary(messages[0]) {
      HeadIsSilentExactlyWhen(host, messages[1..]);
      assert |host.messageItems(messages[0])| == if IsToolResult(messages[0]) then 1 else 0;
      assert messages[0] in Head(messages);
      assert forall m | m in Head(messages) :: m == messages[0] || m in Head(messages[1..]);
      assert forall m | m in Head(messages[1..]) :: m in Head(messages);
    }
  }

  // ---------------------------------------------------------------- a call left open

  const OPEN_CALL: Message :=
    Record(Some(AssistantRole), None, Some([ToolCallBlock(Some("c"), Some("t"), Unsigned)]), false, None, None, Recorded(0))

  const LATE_RESULT: Message := Record(Some(ToolResultRole), None, None, false, Some("c"), Some("t"), Recorded(1))

  /** A result's item: whether it was invented, and its call. */
  function ResultItem(m: Message): Item
    requires m.Record?
  {
    (if m.body.Interrupted? then "invented" else "recorded") + if m.toolCallId.Some? then ":" + m.toolCallId.value else ""
  }

  function ExampleHost(): Host {
    Host((entry: SessionEntry) => if entry.id == "call" then [OPEN_CALL] else [LATE_RESULT],
         (m: Message) => if IsToolResult(m) then [ResultItem(m)] else if m == OPEN_CALL then ["call"] else [],
         (item: Item) => true)
  }

  lemma ResultItemNamesCall(m: Message, n: Message)
    requires m.Record? && n.Record? && ResultItem(m) == ResultItem(n)
    ensures m.toolCallId == n.toolCallId
  {
    var x, y := ResultItem(m), ResultItem(n);
    assert m.toolCallId.Some? ==> x[8..] == ":" + m.toolCallId.value && x[8..][1..] == m.toolCallId.value;
    assert n.toolCallId.Some? ==> y[8..] == ":" + n.toolCallId.value && y[8..][1..] == n.toolCallId.value;
  }

  /** The host of the example converts as the provider does. */
  lemma ExampleHostConverts()
    ensures Converts(ExampleHost())
  {
    var host := ExampleHost();
    forall m: Message, n: Message {:trigger host.messageItems(m), host.messageItems(n)}
        | IsToolResult(m) && IsToolResult(n) && host.messageItems(m) == host.messageItems(n)
      ensures m.toolCallId == n.toolCallId
    {
      assert [ResultItem(m)][0] == [ResultItem(n)][0];
      ResultItemNamesCall(m, n);
    }
  }

  /**
   A call left open by the covered entries: the covered history has answered it with an invented
   result, the full history answers it with the real one, and the replay sends the real result once
   more behind the checkpoint. The full projection does not begin with the covered one, and has no
   tail left.
   */
  lemma ReplayAcrossOpenCallDiffers(output: seq<Item>)
    ensures var host, branch := ExampleHost(), [OrdinaryEntry("call", 0), OrdinaryEntry("result", 1)];
            var selection := Selection(Checkpoint("identity", "call", output), 0, 0);
            && Converts(host)
            && ProjectCanonicalEntries(host, branch[..1]) == Ok(["call", "invented:c"])
            && ProjectCanonicalEntries(host, branch) == Ok(["call", "recorded:c"])
            && CheckpointPayload(host, selection, branch, 2) == Ok(output + ["recorded:c"])
  {
    var host, first, second := ExampleHost(), OrdinaryEntry("call", 0), OrdinaryEntry("result", 1);
    var pending := PendingCall("c", "t", FunctionOutput);
    OpenCallIsCollected(pending);
    assert ContextMessages(host, [second]) == [LATE_RESULT] by { assert [second][1..] == []; }
    assert ContextMessages(host, [first]) == [OPEN_CALL] by { assert [first][1..] == []; }
    assert ContextMessages(host, [first, second]) == [OPEN_CALL, LATE_RESULT] by {
      ContextMessagesAppend(host, [first], [second]);
      assert [first] + [second] == [first, second] && [OPEN_CALL] + [LATE_RESULT] == [OPEN_CALL, LATE_RESULT];
    }
    OpenCallNormalizes(pending);
    ExampleHostConverts();
    ExampleItems(host, SyntheticToolResult(pending));
    assert [first, second][..1] == [first] && [first, second][..2] == [first, second] && [first, second][1..2] == [second];
  }

  lemma OpenCallIsCollected(pending: PendingCall)
    requires pending == PendingCall("c", "t", FunctionOutput)
    ensures CollectToolCalls(OPEN_CALL) == Ok([pending]) && ResultKind(LATE_RESULT) == FunctionOutput
  {
    assert |"t"| != |"apply_patch"| && |"c"| == 1;
    assert KindForToolName("t") == FunctionOutput;
    assert NonEmpty(Some("c")) == Some("c") && NonEmpty(Some("t")) == Some("t");
    var block := ToolCallBlock(Some("c"), Some("t"), Unsigned);
    assert [] + [pending] == [pending] && [block][1..] == [];
    assert CollectBlock(block, []) == Ok([pending]);
    assert CollectBlocks([], [pending]) == Ok([pending]);
  }

  lemma OpenCallNormalizes(pending: PendingCall)
    requires pending == PendingCall("c", "t", FunctionOutput) && CollectToolCalls(OPEN_CALL) == Ok([pending])
    ensures Normalize([OPEN_CALL]) == Ok([OPEN_CALL, SyntheticToolResult(pending)])
    ensures Normalize([OPEN_CALL, LATE_RESULT]) == Ok([OPEN_CALL, LATE_RESULT])
    ensures Normalize([LATE_RESULT]) == Ok([LATE_RESULT])
  {
    OpenCallIsCollected(pending);
    assert Synthetics([]) == [] && Synthetics([pending]) == [Inserted(SyntheticToolResult(pending))];
    assert IndexOfCall([pending], "c") == 0 && [pending][..0] + [pending][1..] == [];
    assert NextPending([pending], LATE_RESULT) == Ok([]) && NextPending([], LATE_RESULT) == Ok([]);
    ReplaysOne([], OPEN_CALL, [pending]);
    ReplaysOne([pending], LATE_RESULT, []);
    ReplaysOne([], LATE_RESULT, []);
    ReplaysAppend([], [OPEN_CALL], [pending], [LATE_RESULT], []);
    assert [OPEN_CALL] + [LATE_RESULT] == [OPEN_CALL, LATE_RESULT];
    assert AllKept([OPEN_CALL]) == [Kept(OPEN_CALL)] && AllKept([LATE_RESULT]) + [] == [Kept(LATE_RESULT)];
    assert AllKept([OPEN_CALL, LATE_RESULT]) + [] == [Kept(OPEN_CALL), Kept(LATE_RESULT)];
    assert MessagesOf([Kept(OPEN_CALL)] + Synthetics([pending])) == [OPEN_CALL, SyntheticToolResult(pending)];
    assert MessagesOf([Kept(OPEN_CALL), Kept(LATE_RESULT)]) == [OPEN_CALL, LATE_RESULT];
    assert MessagesOf([Kept(LATE_RESULT)]) == [LATE_RESULT];
  }

  lemma ExampleItems(host: Host, synthetic: Message)
    requires host == ExampleHost() && synthetic == SyntheticToolResult(PendingCall("c", "t", FunctionOutput))
    ensures ItemsOf(host, [LATE_RESULT]) == ["recorded:c"]
    ensures ItemsOf(host, [OPEN_CALL, synthetic]) == ["call", "invented:c"]
    ensures ItemsOf(host, [OPEN_CALL, LATE_RESULT]) == ["call", "recorded:c"]
  {
    assert ":" + "c" == ":c" && "recorded" + ":c" == "recorded:c" && "invented" + ":c" == "invented:c";
    assert [LATE_RESULT][1..] == [] && [synthetic][1..] == [];
    assert [OPEN_CALL, synthetic][1..] == [synthetic] && [OPEN_CALL, LATE_RESULT][1..] == [LATE_RESULT];
    assert ItemsOf(host, [synthetic]) == ["invented:c"];
  }

  // ---------------------------------------------------------------- finding the checkpoint

  function FindEntry(branch: seq<SessionEntry>, id: string): (index: Option<nat>)
    ensures index.Some? ==>
              && index.value < |branch| && branch[index.value].id == id
              && forall i | 0 <= i < index.value :: branch[i].id != id
    ensures index.None? ==> forall i | 0 <= i < |branch| :: branch[i].id != id
  {
    if branch == [] then None
    else if branch[0].id == id then Some(0)
    else match FindEntry(branch[1..], id)
      case None => None
      case Some(i) => Some(i + 1)
  }

  predicate HoldsCheckpoint(entry: SessionEntry) { entry.CustomEntry? && entry.checkpoint.Some? }

  /** The entry holds a checkpoint of this identity that covers an entry before itself and before the bound. */
  predicate Usable(branch: seq<SessionEntry>, identity: Identity, index: nat, coveredBefore: nat)
    requires index < |branch|
  {
    && HoldsCheckpoint(branch[index])
    && branch[index].checkpoint.value.identity == identity
    && var covered := FindEntry(branch, branch[index].checkpoint.value.coveredEntryId);
       covered.Some? && covered.value < index && covered.value < coveredBefore
  }

  predicate Foreign(branch: seq<SessionEntry>, identity: Identity, index: nat)
    requires index < |branch|
  {
    HoldsCheckpoint(branch[index]) && branch[index].checkpoint.value.identity != identity
  }

  /** The backward scan selects the last usable checkpoint, and reports foreign ones only after it. */
  method ScanRemoteCompactionCheckpoints(branch: seq<SessionEntry>, identity: Identity, coveredBefore: nat)
    returns (scan: Scan)
    ensures scan.matching.Some? ==>
              var chosen := scan.matching.value;
              && chosen.coveredIndex < chosen.entryIndex < |branch|
              && Usable(branch, identity, chosen.entryIndex, coveredBefore)
              && branch[chosen.entryIndex].checkpoint == Some(chosen.checkpoint)
              && FindEntry(branch, chosen.checkpoint.coveredEntryId) == Some(chosen.coveredIndex)
    ensures var from := if scan.matching.Some? then scan.matching.value.entryIndex + 1 else 0;
            && (forall i | from <= i < |branch| :: !Usable(branch, identity, i, coveredBefore))
            && (scan.hasIdentityMismatch <==> exists i :: from <= i < |branch| && Foreign(branch, identity, i))
  {
    var hasIdentityMismatch := false;
    var index := |branch|;
    while index > 0
      invariant 0 <= index <= |branch|
      invariant forall i | index <= i < |branch| :: !Usable(branch, identity, i, coveredBefore)
      invariant hasIdentityMismatch <==> exists i :: index <= i < |branch| && Foreign(branch, identity, i)
    {
      index := index - 1;
      var entry := branch[index];
      if !HoldsCheckpoint(entry) {
        continue;
      }
      var checkpoint := entry.checkpoint.value;
      if checkpoint.identity != identity {
        hasIdentityMismatch := true;
        assert Foreign(branch, identity, index);
        continue;
      }
      var covered := FindEntry(branch, checkpoint.coveredEntryId);
      if covered.None? || covered.value >= index || covered.value >= coveredBefore {
        continue;
      }
      return Scan(Some(Selection(checkpoint, covered.value, index)), hasIdentityMismatch);
    }
    return Scan(None, hasIdentityMismatch);
  }
}
