/**
 The bridge client's request table as a state machine. Every entry point of the client and every
 continuation of its promises is one atomic step: the event loop never interrupts one. The user's
 handlers, the transport's write completions, aborts, timeouts and incoming messages may happen in
 any order, so every interleaving is a sequence of steps.
 */
module BridgeRequests {
  import opened Outcomes

  /** Request ids are random UUIDs; all that matters is that a new one has never been used. */
  type RequestId = nat

  const MAXIMUM_IGNORED_REQUEST_IDS: nat := 65_536

  datatype Kind = Regular | Control

  /** A pending request: control requests have a timeout, and a request with a signal can be aborted. */
  datatype Request = Request(kind: Kind, abortable: bool)

  datatype Message =
    | HandshakeMessage(id: RequestId, accepted: bool)
    | ErrorMessage(of: Option<RequestId>)
    | EventMessage(id: RequestId)
    | ApprovalMessage(id: RequestId)
    | BackpressureMessage(of: Option<RequestId>)
    | ResultMessage(id: RequestId)
  {
    function RequestIdOf(): Option<RequestId> {
      match this
      case ErrorMessage(of) => of
      case BackpressureMessage(of) => of
      case HandshakeMessage(id, _) => Some(id)
      case EventMessage(id) => Some(id)
      case ApprovalMessage(id) => Some(id)
      case ResultMessage(id) => Some(id)
    }

    predicate IsTerminal() { ResultMessage? || ErrorMessage? }
  }

  /** What a message puts on its request's promise chain. */
  datatype Task = HandleEvent | HandleOther | DeliverResult

  /** A request's promise chain: everything that arrived, how much of it ran, and whether the head awaits its acknowledgement. */
  datatype Chain = Chain(arrived: seq<Task>, done: nat, acking: bool) {
    predicate HasHead() { done < |arrived| }

    ghost predicate WellFormed() {
      done <= |arrived| && (acking ==> done < |arrived| && arrived[done].HandleEvent?)
    }
  }

  datatype Handshake = Absent | Waiting(id: RequestId) | Accepted(id: RequestId) | Refused(id: RequestId)

  /** What observers see happen, in order. Indices count a request's arrivals. */
  datatype Entry =
    | Handled(id: RequestId, index: nat)
    | Acknowledged(id: RequestId, index: nat)
    | HandlerFailed(id: RequestId, index: nat)
    | Resolved(id: RequestId, index: nat)

  datatype State = State(
    ready: bool, closing: bool, closed: bool, handshake: Handshake,
    pending: map<RequestId, Request>, ignored: set<RequestId>, chains: map<RequestId, Chain>,
    settled: multiset<RequestId>, log: seq<Entry>, shutdownStarted: bool)

  function Initial(handshakeId: RequestId): State {
    State(false, false, false, Waiting(handshakeId), map[], {}, map[], multiset{}, [], false)
  }

  // ---------------------------------------------------------------- settling requests

  function Settle(s: State, id: RequestId): State {
    if id in s.pending then s.(pending := s.pending - {id}, settled := s.settled + multiset{id}) else s
  }

  function RejectAll(s: State): State {
    s.(handshake := if s.handshake.Waiting? then Refused(s.handshake.id) else s.handshake,
       pending := map[], settled := s.settled + multiset(s.pending.Keys))
  }

  function Fail(s: State): State {
    if s.closed then s else RejectAll(s.(closed := true, ready := false))
  }

  function Close(s: State): State {
    if s.closed then s else RejectAll(s.(closing := true, closed := true, ready := false))
  }

  function IgnoreLateMessages(s: State, id: RequestId): State {
    if id !in s.ignored && |s.ignored| >= MAXIMUM_IGNORED_REQUEST_IDS then Fail(s)
    else s.(ignored := s.ignored + {id})
  }

  // ---------------------------------------------------------------- opening requests

  predicate IsReady(s: State) { s.ready && !s.closed && !s.closing }

  predicate IsReadyOrClosing(s: State) { (s.ready || s.closing) && !s.closed }

  function Open(s: State, id: RequestId, request: Request): State {
    s.(pending := s.pending[id := request], chains := s.chains[id := Chain([], 0, false)])
  }

  function BeginRequest(s: State, id: RequestId, abortable: bool): State {
    if IsReady(s) then Open(s, id, Request(Regular, abortable)) else s
  }

  function BeginControl(s: State, id: RequestId, abortable: bool, allowClosing: bool): State {
    if IsReady(s) || (allowClosing && IsReadyOrClosing(s)) then Open(s, id, Request(Control, abortable)) else s
  }

  /** Shutting down a closed client does nothing; otherwise it starts once, and later callers share its promise. */
  function BeginShutdown(s: State, id: RequestId, abortable: bool): State {
    if s.closed || s.shutdownStarted then s
    else BeginControl(s.(closing := true, shutdownStarted := true), id, abortable, true)
  }

  /** The abort listener exists while the request is pending; a regular request also sends a cancel. */
  function Abort(s: State, id: RequestId, cancelId: RequestId): State {
    if id !in s.pending || !s.pending[id].abortable then s else
    var ignoring := IgnoreLateMessages(Settle(s, id), id);
    if s.pending[id].kind.Regular? then BeginControl(ignoring, cancelId, false, false) else ignoring
  }

  function Timeout(s: State, id: RequestId): State {
    if id !in s.pending || !s.pending[id].kind.Control? then s
    else IgnoreLateMessages(Settle(s, id), id)
  }

  // ---------------------------------------------------------------- incoming messages

  function RouteHandshake(s: State, m: Message): State {
    match s.handshake
    case Absent => Fail(s)
    case Waiting(id) =>
      s.(handshake := if m.HandshakeMessage? && m.id == id && m.accepted then Accepted(id) else Refused(id))
    case _ => s
  }

  function TaskOf(m: Message): Task {
    match m
    case EventMessage(_) => HandleEvent
    case ResultMessage(_) => DeliverResult
    case _ => HandleOther
  }

  function Enqueue(s: State, id: RequestId, task: Task): State {
    if id !in s.chains then s else
    var chain := s.chains[id];
    s.(chains := s.chains[id := chain.(arrived := chain.arrived + [task])])
  }

  function Route(s: State, m: Message): State {
    if !s.ready then RouteHandshake(s, m)
    else if m.HandshakeMessage? then Fail(s)
    else
      match m.RequestIdOf()
      case None => Fail(s)
      case Some(id) =>
        if id in s.ignored then (if m.IsTerminal() then s.(ignored := s.ignored - {id}) else s)
        else if m.ErrorMessage? then Settle(s, id)
        else if id !in s.pending then Fail(s)
        else Enqueue(s, id, TaskOf(m))
  }

  // ---------------------------------------------------------------- running a chain

  function FinishHead(s: State, id: RequestId, entries: seq<Entry>): State
    requires id in s.chains
  {
    var chain := s.chains[id];
    s.(chains := s.chains[id := chain.(done := chain.done + 1, acking := false)], log := s.log + entries)
  }

  /** A rejected handler or acknowledgement is caught, fails the connection, and the chain goes on. */
  function HeadFailed(s: State, id: RequestId): State
    requires id in s.chains
  {
    Fail(FinishHead(s, id, [HandlerFailed(id, s.chains[id].done)]))
  }

  /** The head's user handler returned (`ok`) or threw. Writing an acknowledgement throws once closed. */
  function HandlerReturns(s: State, id: RequestId, ok: bool): State {
    if id !in s.chains || !s.chains[id].HasHead() || s.chains[id].acking then s else
    var chain := s.chains[id];
    match chain.arrived[chain.done]
    case DeliverResult => s
    case HandleOther => if ok then FinishHead(s, id, [Handled(id, chain.done)]) else HeadFailed(s, id)
    case HandleEvent =>
      if ok && !s.closed then
        s.(chains := s.chains[id := chain.(acking := true)], log := s.log + [Handled(id, chain.done)])
      else HeadFailed(s, id)
  }

  function AcknowledgementWritten(s: State, id: RequestId, ok: bool): State {
    if id !in s.chains || !s.chains[id].HasHead() || !s.chains[id].acking then s
    else if ok then FinishHead(s, id, [Acknowledged(id, s.chains[id].done)])
    else HeadFailed(s, id)
  }

  function ResultReached(s: State, id: RequestId): State {
    if id !in s.chains || !s.chains[id].HasHead() || s.chains[id].acking then s else
    var chain := s.chains[id];
    if !chain.arrived[chain.done].DeliverResult? then s
    else if id in s.pending then Settle(FinishHead(s, id, [Resolved(id, chain.done)]), id)
    else FinishHead(s, id, [])
  }

  // ---------------------------------------------------------------- runs

  datatype Step =
    | RequestStep(id: RequestId, abortable: bool)
    | ControlStep(id: RequestId, abortable: bool)
    | ShutdownStep(id: RequestId, abortable: bool)
    | AbortStep(target: RequestId, id: RequestId)
    | TimeoutStep(target: RequestId)
    | WriteFailedStep(target: RequestId)
    | MessageStep(message: Message)
    | HandlerStep(target: RequestId, ok: bool)
    | AcknowledgeStep(target: RequestId, ok: bool)
    | ResultStep(target: RequestId)
    | HandshakeTimeoutStep
    | InitializedStep
    | InitializeFailedStep
    | FailStep
    | CloseStep

  function Apply(s: State, step: Step): State {
    match step
    case RequestStep(id, abortable) => BeginRequest(s, id, abortable)
    case ControlStep(id, abortable) => BeginControl(s, id, abortable, false)
    case ShutdownStep(id, abortable) => BeginShutdown(s, id, abortable)
    case AbortStep(target, id) => Abort(s, target, id)
    case TimeoutStep(target) => Timeout(s, target)
    case WriteFailedStep(target) => Settle(s, target)
    case MessageStep(m) => Route(s, m)
    case HandlerStep(target, ok) => HandlerReturns(s, target, ok)
    case AcknowledgeStep(target, ok) => AcknowledgementWritten(s, target, ok)
    case ResultStep(target) => ResultReached(s, target)
    case HandshakeTimeoutStep => if s.handshake.Waiting? then s.(handshake := Refused(s.handshake.id)) else s
    case InitializedStep => if s.handshake.Accepted? then s.(ready := true, handshake := Absent) else s
    case InitializeFailedStep => if s.handshake.Absent? then s else Fail(s).(handshake := Absent)
    case FailStep => Fail(s)
    case CloseStep => Close(s)
  }

  predicate Fresh(s: State, step: Step) {
    match step
    case RequestStep(id, _) => id !in s.chains
    case ControlStep(id, _) => id !in s.chains
    case ShutdownStep(id, _) => id !in s.chains
    case AbortStep(_, id) => id !in s.chains
    case _ => true
  }

  function Run(s: State, steps: seq<Step>): State
    decreases |steps|
  {
    if steps == [] then s else Run(Apply(s, steps[0]), steps[1..])
  }

  predicate FreshRun(s: State, steps: seq<Step>)
    decreases |steps|
  {
    steps == [] || (Fresh(s, steps[0]) && FreshRun(Apply(s, steps[0]), steps[1..]))
  }

  // ---------------------------------------------------------------- the request table

  /** Every request ever opened is a key of `chains`; it is pending, or has settled exactly once. */
  ghost predicate TableInv(s: State) {
    && s.pending.Keys <= s.chains.Keys
    && s.ignored <= s.chains.Keys
    && s.pending.Keys !! s.ignored
    && |s.ignored| <= MAXIMUM_IGNORED_REQUEST_IDS
    && (s.closed ==> s.pending == map[])
    && forall id :: s.settled[id] == if id in s.chains && id !in s.pending then 1 else 0
  }

  lemma SettleKeepsTable(s: State, id: RequestId)
    requires TableInv(s)
    ensures TableInv(Settle(s, id))
    ensures id !in Settle(s, id).pending && Settle(s, id).chains == s.chains
  {
  }

  lemma FailKeepsTable(s: State)
    requires TableInv(s)
    ensures TableInv(Fail(s)) && Fail(s).closed
    ensures TableInv(Close(s)) && Close(s).closed
  {
  }

  lemma OpenKeepsTable(s: State, id: RequestId, request: Request)
    requires TableInv(s) && !s.closed && id !in s.chains
    ensures TableInv(Open(s, id, request))
  {
  }

  lemma IgnoreKeepsTable(s: State, id: RequestId)
    requires TableInv(s) && id in s.chains && id !in s.pending
    ensures TableInv(IgnoreLateMessages(s, id))
    ensures IgnoreLateMessages(s, id).chains == s.chains
  {
    if id in s.ignored {
      assert s.ignored + {id} == s.ignored;
    } else if |s.ignored| >= MAXIMUM_IGNORED_REQUEST_IDS {
      FailKeepsTable(s);
    }
  }

  lemma UnignoreKeepsTable(s: State, id: RequestId)
    requires TableInv(s)
    ensures TableInv(s.(ignored := s.ignored - {id}))
  {
    SubsetCard(s.ignored - {id}, s.ignored);
  }

  lemma EnqueueKeepsTable(s: State, id: RequestId, task: Task)
    requires TableInv(s)
    ensures TableInv(Enqueue(s, id, task))
  {
    assert Enqueue(s, id, task).chains.Keys == s.chains.Keys;
  }

  lemma HandshakeKeepsTable(s: State, ready: bool, handshake: Handshake)
    requires TableInv(s)
    ensures TableInv(s.(ready := ready, handshake := handshake))
  {
  }

  lemma RouteKeepsTable(s: State, m: Message)
    requires TableInv(s)
    ensures TableInv(Route(s, m))
  {
    var t := Route(s, m);
    var of := m.RequestIdOf();
    if t == Fail(s) {
      FailKeepsTable(s);
    } else if !s.ready {
      HandshakeKeepsTable(s, s.ready, t.handshake);
    } else if of.value in s.ignored {
      UnignoreKeepsTable(s, of.value);
    } else if m.ErrorMessage? {
      SettleKeepsTable(s, of.value);
    } else {
      EnqueueKeepsTable(s, of.value, TaskOf(m));
    }
  }

  lemma {:induction false} SubsetCard(a: set<RequestId>, b: set<RequestId>)
    requires a <= b
    ensures |a| <= |b|
  {
    if a != {} {
      var x :| x in a;
      SubsetCard(a - {x}, b - {x});
    }
  }

  lemma FinishKeepsTable(s: State, id: RequestId, entries: seq<Entry>)
    requires TableInv(s) && id in s.chains
    ensures TableInv(FinishHead(s, id, entries))
  {
    assert FinishHead(s, id, entries).chains.Keys == s.chains.Keys;
  }

  lemma HeadFailedKeepsTable(s: State, id: RequestId)
    requires TableInv(s) && id in s.chains
    ensures TableInv(HeadFailed(s, id))
  {
    var entries := [HandlerFailed(id, s.chains[id].done)];
    FinishKeepsTable(s, id, entries);
    FailKeepsTable(FinishHead(s, id, entries));
  }

  lemma HandlerKeepsTable(s: State, id: RequestId, ok: bool)
    requires TableInv(s)
    ensures TableInv(HandlerReturns(s, id, ok))
  {
    var t := HandlerReturns(s, id, ok);
    if t != s {
      var chain := s.chains[id];
      if t == HeadFailed(s, id) {
        HeadFailedKeepsTable(s, id);
      } else if chain.arrived[chain.done].HandleOther? {
        FinishKeepsTable(s, id, [Handled(id, chain.done)]);
      } else {
        assert t.chains.Keys == s.chains.Keys;
      }
    }
  }

  lemma AcknowledgeKeepsTable(s: State, id: RequestId, ok: bool)
    requires TableInv(s)
    ensures TableInv(AcknowledgementWritten(s, id, ok))
  {
    if AcknowledgementWritten(s, id, ok) != s {
      if ok {
        FinishKeepsTable(s, id, [Acknowledged(id, s.chains[id].done)]);
      } else {
        HeadFailedKeepsTable(s, id);
      }
    }
  }

  lemma ResultKeepsTable(s: State, id: RequestId)
    requires TableInv(s)
    ensures TableInv(ResultReached(s, id))
  {
    if ResultReached(s, id) != s {
      var entries := if id in s.pending then [Resolved(id, s.chains[id].done)] else [];
      FinishKeepsTable(s, id, entries);
      SettleKeepsTable(FinishHead(s, id, entries), id);
    }
  }

  lemma BeginControlKeepsTable(s: State, id: RequestId, abortable: bool, allowClosing: bool)
    requires TableInv(s) && id !in s.chains
    ensures TableInv(BeginControl(s, id, abortable, allowClosing))
  {
    if BeginControl(s, id, abortable, allowClosing) != s {
      OpenKeepsTable(s, id, Request(Control, abortable));
    }
  }

  lemma AbortKeepsTable(s: State, target: RequestId, id: RequestId)
    requires TableInv(s) && id !in s.chains
    ensures TableInv(Abort(s, target, id))
  {
    if Abort(s, target, id) != s {
      var settled := Settle(s, target);
      SettleKeepsTable(s, target);
      IgnoreKeepsTable(settled, target);
      BeginControlKeepsTable(IgnoreLateMessages(settled, target), id, false, false);
    }
  }

  lemma TimeoutKeepsTable(s: State, target: RequestId)
    requires TableInv(s)
    ensures TableInv(Timeout(s, target))
  {
    if Timeout(s, target) != s {
      SettleKeepsTable(s, target);
      IgnoreKeepsTable(Settle(s, target), target);
    }
  }

  lemma StepKeepsTable(s: State, step: Step)
    requires TableInv(s) && Fresh(s, step)
    ensures TableInv(Apply(s, step))
  {
    match step
    case RequestStep(id, abortable) =>
      if IsReady(s) { OpenKeepsTable(s, id, Request(Regular, abortable)); }
    case ControlStep(id, abortable) => BeginControlKeepsTable(s, id, abortable, false);
    case ShutdownStep(id, abortable) =>
      var closing := s.(closing := true, shutdownStarted := true);
      assert TableInv(closing);
      BeginControlKeepsTable(closing, id, abortable, true);
    case AbortStep(target, id) => AbortKeepsTable(s, target, id);
    case TimeoutStep(target) => TimeoutKeepsTable(s, target);
    case WriteFailedStep(target) => SettleKeepsTable(s, target);
    case MessageStep(m) => RouteKeepsTable(s, m);
    case HandlerStep(target, ok) => HandlerKeepsTable(s, target, ok);
    case AcknowledgeStep(target, ok) => AcknowledgeKeepsTable(s, target, ok);
    case ResultStep(target) => ResultKeepsTable(s, target);
    case InitializeFailedStep =>
      FailKeepsTable(s);
      HandshakeKeepsTable(Fail(s), Fail(s).ready, Absent);
    case FailStep => FailKeepsTable(s);
    case CloseStep => FailKeepsTable(s);
    case _ => HandshakeKeepsTable(s, Apply(s, step).ready, Apply(s, step).handshake);
  }

  /**
   In every run with fresh ids: no request settles twice, pending and ignored ids are disjoint, the
   ignored set is bounded, and a closed client has settled every request it ever opened.
   */
  lemma {:induction false} RunKeepsTable(s: State, steps: seq<Step>)
    requires TableInv(s) && FreshRun(s, steps)
    ensures var end := Run(s, steps);
            && TableInv(end)
            && (forall id :: end.settled[id] <= 1)
            && end.pending.Keys !! end.ignored
            && |end.ignored| <= MAXIMUM_IGNORED_REQUEST_IDS
            && (end.closed ==> end.pending == map[] && forall id | id in end.chains :: end.settled[id] == 1)
    decreases |steps|
  {
    if steps != [] {
      StepKeepsTable(s, steps[0]);
      RunKeepsTable(Apply(s, steps[0]), steps[1..]);
    }
  }

  // ---------------------------------------------------------------- handlers before results

  /** The log entries of one request's handlers. */
  function HandlerEntries(log: seq<Entry>, id: RequestId): seq<Entry> {
    if log == [] then [] else
    var last := log[|log| - 1];
    HandlerEntries(log[..|log| - 1], id) + (if last.id == id && !last.Resolved? then [last] else [])
  }

  /** What running the first `n` tasks to completion, in arrival order, logs. */
  function CompletedTrace(arrived: seq<Task>, n: nat, id: RequestId): seq<Entry>
    requires n <= |arrived|
  {
    if n == 0 then [] else
    CompletedTrace(arrived, n - 1, id) +
    match arrived[n - 1]
    case HandleEvent => [Handled(id, n - 1), Acknowledged(id, n - 1)]
    case HandleOther => [Handled(id, n - 1)]
    case DeliverResult => []
  }

  function ChainTrace(chain: Chain, id: RequestId): seq<Entry>
    requires chain.done <= |chain.arrived|
  {
    CompletedTrace(chain.arrived, chain.done, id) + (if chain.acking then [Handled(id, chain.done)] else [])
  }

  ghost predicate NoFailure(log: seq<Entry>) {
    forall p | 0 <= p < |log| :: !log[p].HandlerFailed?
  }

  type Chains = map<RequestId, Chain>

  /** At position `p` a result was delivered, and before it exactly the tasks that arrived earlier had completed. */
  ghost predicate ResolvedInOrder(chains: Chains, log: seq<Entry>, p: nat)
    requires p < |log| && log[p].Resolved?
  {
    var id, index := log[p].id, log[p].index;
    && id in chains
    && index < |chains[id].arrived|
    && chains[id].arrived[index].DeliverResult?
    && HandlerEntries(log[..p], id) == CompletedTrace(chains[id].arrived, index, id)
    && NoFailure(log[..p])
  }

  /** A chain has logged exactly what it has run. */
  ghost predicate ChainLogged(chains: Chains, log: seq<Entry>, id: RequestId)
    requires id in chains
  {
    chains[id].WellFormed() && (NoFailure(log) ==> HandlerEntries(log, id) == ChainTrace(chains[id], id))
  }

  ghost predicate LogInv(chains: Chains, log: seq<Entry>) {
    && (forall id {:trigger ChainLogged(chains, log, id)} | id in chains :: ChainLogged(chains, log, id))
    && (forall p | 0 <= p < |log| :: log[p].id in chains)
    && (forall p {:trigger ResolvedInOrder(chains, log, p)} | 0 <= p < |log| && log[p].Resolved? ::
          ResolvedInOrder(chains, log, p))
  }

  ghost predicate OrderInv(s: State) {
    LogInv(s.chains, s.log) && (NoFailure(s.log) || s.closed)
  }

  lemma AppendedEntry(log: seq<Entry>, entry: Entry, id: RequestId)
    ensures HandlerEntries(log + [entry], id) ==
            HandlerEntries(log, id) + (if entry.id == id && !entry.Resolved? then [entry] else [])
  {
    assert (log + [entry])[..|log|] == log;
  }

  lemma {:induction false} UnknownIdHasNoEntries(log: seq<Entry>, id: RequestId)
    requires forall p | 0 <= p < |log| :: log[p].id != id
    ensures HandlerEntries(log, id) == []
  {
    if log != [] {
      UnknownIdHasNoEntries(log[..|log| - 1], id);
    }
  }

  lemma {:induction false} TraceOfPrefix(first: seq<Task>, more: seq<Task>, n: nat, id: RequestId)
    requires n <= |first|
    ensures CompletedTrace(first + more, n, id) == CompletedTrace(first, n, id)
  {
    if n > 0 {
      TraceOfPrefix(first, more, n - 1, id);
      assert (first + more)[n - 1] == first[n - 1];
    }
  }

  lemma OpenKeepsLog(chains: Chains, log: seq<Entry>, id: RequestId)
    requires LogInv(chains, log) && id !in chains
    ensures LogInv(chains[id := Chain([], 0, false)], log)
  {
    var grown := chains[id := Chain([], 0, false)];
    UnknownIdHasNoEntries(log, id);
    forall k | k in grown ensures ChainLogged(grown, log, k) {
      assert k != id ==> ChainLogged(chains, log, k);
    }
    forall p | 0 <= p < |log| && log[p].Resolved? ensures ResolvedInOrder(grown, log, p) {
      assert ResolvedInOrder(chains, log, p);
    }
  }

  lemma EnqueueKeepsLog(chains: Chains, log: seq<Entry>, id: RequestId, task: Task)
    requires LogInv(chains, log) && id in chains
    ensures LogInv(chains[id := chains[id].(arrived := chains[id].arrived + [task])], log)
  {
    var chain := chains[id];
    var longer := chain.(arrived := chain.arrived + [task]);
    assert ChainLogged(chains, log, id);
    TraceOfPrefix(chain.arrived, [task], chain.done, id);
    assert ChainTrace(longer, id) == ChainTrace(chain, id);
    forall k | k in chains ensures ChainLogged(chains[id := longer], log, k) {
      assert ChainLogged(chains, log, k);
    }
    forall p | 0 <= p < |log| && log[p].Resolved? ensures ResolvedInOrder(chains[id := longer], log, p) {
      assert ResolvedInOrder(chains, log, p);
      if log[p].id == id {
        TraceOfPrefix(chain.arrived, [task], log[p].index, id);
      }
    }
  }

  /** The head of one chain moves on and logs one entry. */
  lemma LoggedStepKeepsLog(chains: Chains, log: seq<Entry>, id: RequestId, chain: Chain, entry: Entry)
    requires LogInv(chains, log) && id in chains && entry.id == id
    requires chain.arrived == chains[id].arrived && chain.WellFormed()
    requires chains[id].WellFormed() && !entry.HandlerFailed? && NoFailure(log) ==>
               ChainTrace(chain, id) == ChainTrace(chains[id], id) + (if entry.Resolved? then [] else [entry])
    requires entry.Resolved? ==>
               && NoFailure(log) && !chains[id].acking && chains[id].HasHead()
               && entry.index == chains[id].done && chain.arrived[entry.index].DeliverResult?
    ensures LogInv(chains[id := chain], log + [entry])
    ensures NoFailure(log + [entry]) <==> NoFailure(log) && !entry.HandlerFailed?
  {
    assert ChainLogged(chains, log, id);
    var last, longer, moved := |log|, log + [entry], chains[id := chain];
    assert longer[..last] == log;
    assert NoFailure(longer) <==> NoFailure(log) && !entry.HandlerFailed? by {
      assert forall p | 0 <= p < last :: longer[p] == log[p];
      assert longer[last] == entry;
    }
    forall k | k in moved ensures ChainLogged(moved, longer, k) {
      AppendedEntry(log, entry, k);
      assert ChainLogged(chains, log, k);
    }
    forall p | 0 <= p < |longer| && longer[p].Resolved? ensures ResolvedInOrder(moved, longer, p) {
      if p < last {
        assert ResolvedInOrder(chains, log, p);
        assert longer[..p] == log[..p];
      } else {
        assert ChainLogged(chains, log, id);
      }
    }
  }

  lemma FailedHeadKeepsOrder(s: State, id: RequestId)
    requires OrderInv(s) && id in s.chains && s.chains[id].HasHead()
    ensures OrderInv(HeadFailed(s, id))
  {
    var chain := s.chains[id];
    assert ChainLogged(s.chains, s.log, id);
    LoggedStepKeepsLog(s.chains, s.log, id, chain.(done := chain.done + 1, acking := false), HandlerFailed(id, chain.done));
  }

  lemma HandlerKeepsOrder(s: State, id: RequestId, ok: bool)
    requires OrderInv(s)
    ensures OrderInv(HandlerReturns(s, id, ok))
  {
    var t := HandlerReturns(s, id, ok);
    if t != s {
      if t == HeadFailed(s, id) {
        FailedHeadKeepsOrder(s, id);
      } else {
        assert ChainLogged(s.chains, s.log, id);
        LoggedStepKeepsLog(s.chains, s.log, id, t.chains[id], Handled(id, s.chains[id].done));
      }
    }
  }

  lemma AcknowledgeKeepsOrder(s: State, id: RequestId, ok: bool)
    requires OrderInv(s)
    ensures OrderInv(AcknowledgementWritten(s, id, ok))
  {
    var t := AcknowledgementWritten(s, id, ok);
    if t != s {
      if ok {
        assert ChainLogged(s.chains, s.log, id);
        LoggedStepKeepsLog(s.chains, s.log, id, t.chains[id], Acknowledged(id, s.chains[id].done));
      } else {
        FailedHeadKeepsOrder(s, id);
      }
    }
  }

  /** A chain passes a result whose request has already settled. */
  lemma SkippedResultKeepsLog(chains: Chains, log: seq<Entry>, id: RequestId)
    requires LogInv(chains, log) && id in chains && chains[id].HasHead() && !chains[id].acking
    requires chains[id].arrived[chains[id].done].DeliverResult?
    ensures LogInv(chains[id := chains[id].(done := chains[id].done + 1, acking := false)], log)
  {
    var moved := chains[id := chains[id].(done := chains[id].done + 1, acking := false)];
    forall k | k in moved ensures ChainLogged(moved, log, k) {
      assert ChainLogged(chains, log, k);
    }
    forall p | 0 <= p < |log| && log[p].Resolved? ensures ResolvedInOrder(moved, log, p) {
      assert ResolvedInOrder(chains, log, p);
    }
  }

  lemma ResultKeepsOrder(s: State, id: RequestId)
    requires OrderInv(s) && (s.closed ==> s.pending == map[])
    ensures OrderInv(ResultReached(s, id))
  {
    var t := ResultReached(s, id);
    if t != s {
      if id in s.pending {
        assert ChainLogged(s.chains, s.log, id);
        LoggedStepKeepsLog(s.chains, s.log, id, t.chains[id], Resolved(id, s.chains[id].done));
      } else {
        assert s.log + [] == s.log;
        SkippedResultKeepsLog(s.chains, s.log, id);
      }
    }
  }

  lemma BeginKeepsOrder(s: State, id: RequestId, request: Request, ready: bool)
    requires OrderInv(s) && id !in s.chains
    ensures OrderInv(if ready then Open(s, id, request) else s)
  {
    OpenKeepsLog(s.chains, s.log, id);
  }

  lemma AbortKeepsOrder(s: State, target: RequestId, id: RequestId)
    requires OrderInv(s) && id !in s.chains
    ensures OrderInv(Abort(s, target, id))
  {
    var ignoring := IgnoreLateMessages(Settle(s, target), target);
    assert OrderInv(ignoring);
    BeginKeepsOrder(ignoring, id, Request(Control, false), IsReady(ignoring));
  }

  lemma RouteKeepsOrder(s: State, m: Message)
    requires OrderInv(s)
    ensures OrderInv(Route(s, m))
  {
    var t := Route(s, m);
    if t.chains != s.chains {
      EnqueueKeepsLog(s.chains, s.log, m.RequestIdOf().value, TaskOf(m));
    }
  }

  lemma StepKeepsOrder(s: State, step: Step)
    requires OrderInv(s) && TableInv(s) && Fresh(s, step)
    ensures OrderInv(Apply(s, step))
  {
    match step
    case RequestStep(id, abortable) => BeginKeepsOrder(s, id, Request(Regular, abortable), IsReady(s));
    case ControlStep(id, abortable) => BeginKeepsOrder(s, id, Request(Control, abortable), IsReady(s));
    case ShutdownStep(id, abortable) =>
      var closing := s.(closing := true, shutdownStarted := true);
      BeginKeepsOrder(closing, id, Request(Control, abortable), IsReadyOrClosing(closing));
    case AbortStep(target, id) => AbortKeepsOrder(s, target, id);
    case MessageStep(m) => RouteKeepsOrder(s, m);
    case HandlerStep(target, ok) => HandlerKeepsOrder(s, target, ok);
    case AcknowledgeStep(target, ok) => AcknowledgeKeepsOrder(s, target, ok);
    case ResultStep(target) => ResultKeepsOrder(s, target);
    case _ =>
  }

  lemma {:induction false} RunKeepsOrder(s: State, steps: seq<Step>)
    requires OrderInv(s) && TableInv(s) && FreshRun(s, steps)
    ensures OrderInv(Run(s, steps))
    decreases |steps|
  {
    if steps != [] {
      StepKeepsTable(s, steps[0]);
      StepKeepsOrder(s, steps[0]);
      RunKeepsOrder(Apply(s, steps[0]), steps[1..]);
    }
  }

  /**
   In every run of a new client: when a request resolves with a result, the log before that point
   holds, for this request, exactly the completions of everything that arrived before the result,
   in arrival order and each event with its acknowledgement; and no handler of any request has failed.
   */
  lemma ResultsFollowHandlers(handshakeId: RequestId, steps: seq<Step>, p: nat)
    requires FreshRun(Initial(handshakeId), steps)
    requires var log := Run(Initial(handshakeId), steps).log; p < |log| && log[p].Resolved?
    ensures var end := Run(Initial(handshakeId), steps);
            var id, index := end.log[p].id, end.log[p].index;
            && id in end.chains && index < |end.chains[id].arrived|
            && end.chains[id].arrived[index].DeliverResult?
            && HandlerEntries(end.log[..p], id) == CompletedTrace(end.chains[id].arrived, index, id)
            && forall q | 0 <= q < p :: !end.log[q].HandlerFailed?
  {
    var end := Run(Initial(handshakeId), steps);
    RunKeepsOrder(Initial(handshakeId), steps);
    assert ResolvedInOrder(end.chains, end.log, p);
    assert forall q | 0 <= q < p :: end.log[..p][q] == end.log[q];
  }

  /** Read per event: its handler's completion and its acknowledgement both precede the result, and in that order. */
  lemma {:induction false} CompletedTraceHolds(arrived: seq<Task>, n: nat, id: RequestId, j: nat) returns (q: nat)
    requires j < n <= |arrived| && !arrived[j].DeliverResult?
    ensures q < |CompletedTrace(arrived, n, id)| && CompletedTrace(arrived, n, id)[q] == Handled(id, j)
    ensures arrived[j].HandleEvent? ==>
              q + 1 < |CompletedTrace(arrived, n, id)| && CompletedTrace(arrived, n, id)[q + 1] == Acknowledged(id, j)
    ensures q >= |CompletedTrace(arrived, j, id)|
  {
    if j == n - 1 {
      q := |CompletedTrace(arrived, n - 1, id)|;
    } else {
      q := CompletedTraceHolds(arrived, n - 1, id, j);
    }
  }

  // ---------------------------------------------------------------- shutting down

  lemma StepKeepsShutdown(s: State, step: Step)
    requires s.shutdownStarted
    ensures Apply(s, step).shutdownStarted
  {
    match step
    case AbortStep(target, id) => AbortKeepsShutdown(s, target, id);
    case _ =>
  }

  lemma AbortKeepsShutdown(s: State, target: RequestId, id: RequestId)
    ensures Abort(s, target, id).shutdownStarted == s.shutdownStarted
  {
  }

  /** Whatever happens after a shutdown has started, starting it again does nothing. */
  lemma {:induction false} ShutdownStartsOnce(s: State, steps: seq<Step>, id: RequestId, abortable: bool)
    requires s.shutdownStarted
    ensures Apply(Run(s, steps), ShutdownStep(id, abortable)) == Run(s, steps)
    decreases |steps|
  {
    if steps != [] {
      StepKeepsShutdown(s, steps[0]);
      ShutdownStartsOnce(Apply(s, steps[0]), steps[1..], id, abortable);
    }
  }

  // ---------------------------------------------------------------- late messages

  /** An abort settles the request once and either ignores what still arrives for it or has failed the client. */
  lemma AbortedRequestIsIgnored(s: State, id: RequestId, cancelId: RequestId)
    requires TableInv(s) && id in s.pending && s.pending[id].abortable && cancelId !in s.chains
    ensures var t := Abort(s, id, cancelId);
            && id !in t.pending && t.settled[id] == 1 && (id in t.ignored || t.closed)
            && (s.pending[id].kind.Regular? && IsReady(t) ==> cancelId in t.pending && t.pending[cancelId].kind.Control?)
  {
    SettleKeepsTable(s, id);
    IgnoreKeepsTable(Settle(s, id), id);
    AbortKeepsTable(s, id, cancelId);
  }

  predicate EndsIgnoring(step: Step, id: RequestId) {
    step.MessageStep? && step.message.IsTerminal() && step.message.RequestIdOf() == Some(id)
  }

  lemma StepKeepsIgnored(s: State, step: Step, id: RequestId)
    requires id in s.ignored && !EndsIgnoring(step, id)
    ensures id in Apply(s, step).ignored
  {
    match step
    case AbortStep(target, cancelId) => AbortKeepsIgnored(s, target, cancelId, id);
    case MessageStep(m) => RouteKeepsIgnored(s, m, id);
    case HandlerStep(target, ok) => HandlerKeepsIgnored(s, target, ok, id);
    case _ =>
  }

  lemma AbortKeepsIgnored(s: State, target: RequestId, cancelId: RequestId, id: RequestId)
    requires id in s.ignored
    ensures id in Abort(s, target, cancelId).ignored
  {
  }

  lemma RouteKeepsIgnored(s: State, m: Message, id: RequestId)
    requires id in s.ignored && !(m.IsTerminal() && m.RequestIdOf() == Some(id))
    ensures id in Route(s, m).ignored
  {
  }

  lemma HandlerKeepsIgnored(s: State, target: RequestId, ok: bool, id: RequestId)
    requires id in s.ignored
    ensures id in HandlerReturns(s, target, ok).ignored
  {
  }

  /** Ignoring lasts until the request's terminal message arrives. */
  lemma {:induction false} IgnoredUntilTerminal(s: State, steps: seq<Step>, id: RequestId)
    requires id in s.ignored && forall step | step in steps :: !EndsIgnoring(step, id)
    ensures id in Run(s, steps).ignored
    decreases |steps|
  {
    if steps != [] {
      StepKeepsIgnored(s, steps[0], id);
      IgnoredUntilTerminal(Apply(s, steps[0]), steps[1..], id);
    }
  }

  /** A late message of an ignored request changes nothing; its terminal message only ends the ignoring. */
  lemma LateMessagesAreHarmless(s: State, steps: seq<Step>, id: RequestId, m: Message)
    requires id in s.ignored && forall step | step in steps :: !EndsIgnoring(step, id)
    requires m.RequestIdOf() == Some(id) && !m.HandshakeMessage?
    ensures var t := Run(s, steps);
            t.ready ==> Route(t, m) == if m.IsTerminal() then t.(ignored := t.ignored - {id}) else t
  {
    IgnoredUntilTerminal(s, steps, id);
  }

  lemma MultisetOfRemoved(ids: set<RequestId>, id: RequestId)
    requires id in ids
    ensures multiset(ids - {id}) + multiset{id} == multiset(ids)
  {
  }

  /** Settling a pending request moves it from one side to the other. */
  lemma SettleMoves(s: State, id: RequestId)
    requires id in s.pending
    ensures var t := Settle(s, id);
      && |t.pending| < |s.pending| && t == s.(pending := t.pending, settled := t.settled)
      && t.settled + multiset(t.pending.Keys) == s.settled + multiset(s.pending.Keys)
  {
    MultisetOfRemoved(s.pending.Keys, id);
    assert Settle(s, id).pending.Keys == s.pending.Keys - {id};
  }

  // ---------------------------------------------------------------- the client object

  class BridgeClient {
    var ready: bool
    var closing: bool
    var shutdownStarted: bool
    var closed: bool
    var handshake: Handshake
    var pending: map<RequestId, Request>
    var ignoredRequestIds: set<RequestId>
    var chains: map<RequestId, Chain>
    ghost var settled: multiset<RequestId>
    ghost var log: seq<Entry>

    ghost function Abs(): State
      reads this
    {
      State(ready, closing, closed, handshake, pending, ignoredRequestIds, chains, settled, log, shutdownStarted)
    }

    constructor (handshakeId: RequestId)
      ensures Abs() == Initial(handshakeId)
    {
      ready, closing, closed, shutdownStarted := false, false, false, false;
      handshake := Waiting(handshakeId);
      pending, ignoredRequestIds, chains := map[], {}, map[];
      settled, log := multiset{}, [];
    }

    method StartRequest(id: RequestId, abortable: bool)
      modifies this
      ensures Abs() == Apply(old(Abs()), RequestStep(id, abortable))
    {
      if !(ready && !closed) || closing {
        return;
      }
      OpenPending(id, Request(Regular, abortable));
    }

    method StartControl(id: RequestId, abortable: bool, allowClosing: bool)
      modifies this
      ensures Abs() == BeginControl(old(Abs()), id, abortable, allowClosing)
    {
      if allowClosing {
        if (!ready && !closing) || closed {
          return;
        }
      } else if !(ready && !closed) || closing {
        return;
      }
      OpenPending(id, Request(Control, abortable));
    }

    method OpenPending(id: RequestId, request: Request)
      modifies this
      ensures Abs() == Open(old(Abs()), id, request)
    {
      pending := pending[id := request];
      chains := chains[id := Chain([], 0, false)];
    }

    method StartShutdown(id: RequestId, abortable: bool)
      modifies this
      ensures Abs() == Apply(old(Abs()), ShutdownStep(id, abortable))
      ensures old(closed) || old(shutdownStarted) ==> Abs() == old(Abs())
    {
      if closed || shutdownStarted {
        return;
      }
      shutdownStarted := true;
      closing := true;
      StartControl(id, abortable, true);
    }

    method AbortSignalled(target: RequestId, cancelId: RequestId)
      modifies this
      ensures Abs() == Apply(old(Abs()), AbortStep(target, cancelId))
    {
      if target in pending && pending[target].abortable {
        var regular := pending[target].kind.Regular?;
        SettlePending(target);
        IgnoreLate(target);
        if regular {
          StartControl(cancelId, false, false);
        }
      }
    }

    method TimeoutExpired(target: RequestId)
      modifies this
      ensures Abs() == Apply(old(Abs()), TimeoutStep(target))
    {
      if target in pending && pending[target].kind.Control? {
        SettlePending(target);
        IgnoreLate(target);
      }
    }

    /** Both ways of settling a request: it leaves the table, and its promise resolves or rejects. */
    method SettlePending(id: RequestId)
      modifies this
      ensures Abs() == Settle(old(Abs()), id)
    {
      if id !in pending {
        return;
      }
      pending := pending - {id};
      settled := settled + multiset{id};
    }

    method IgnoreLate(id: RequestId)
      modifies this
      ensures Abs() == IgnoreLateMessages(old(Abs()), id)
    {
      if id !in ignoredRequestIds && |ignoredRequestIds| >= MAXIMUM_IGNORED_REQUEST_IDS {
        FailConnection();
        return;
      }
      ignoredRequestIds := ignoredRequestIds + {id};
    }

    method RejectAllPending()
      modifies this
      ensures Abs() == RejectAll(old(Abs()))
    {
      if handshake.Waiting? {
        handshake := Refused(handshake.id);
      }
      ghost var start := Abs();
      while pending != map[]
        invariant Abs() == start.(pending := pending, settled := settled)
        invariant settled + multiset(pending.Keys) == start.settled + multiset(start.pending.Keys)
        decreases |pending|
      {
        var id :| id in pending;
        SettleMoves(Abs(), id);
        SettlePending(id);
      }
    }

    method FailConnection()
      modifies this
      ensures Abs() == Fail(old(Abs()))
    {
      if closed {
        return;
      }
      closed, ready := true, false;
      RejectAllPending();
    }

    method CloseConnection()
      modifies this
      ensures Abs() == Close(old(Abs()))
    {
      if closed {
        return;
      }
      closing, closed, ready := true, true, false;
      RejectAllPending();
    }

    method RouteMessage(m: Message)
      modifies this
      ensures Abs() == Apply(old(Abs()), MessageStep(m))
    {
      if !ready {
        RouteHandshakeMessage(m);
        return;
      }
      if m.HandshakeMessage? {
        FailConnection();
        return;
      }
      var of := m.RequestIdOf();
      if of.Some? && of.value in ignoredRequestIds {
        if m.IsTerminal() {
          ignoredRequestIds := ignoredRequestIds - {of.value};
        }
        return;
      }
      if m.ErrorMessage? {
        if of.None? {
          FailConnection();
        } else {
          SettlePending(of.value);
        }
        return;
      }
      if of.None? || of.value !in pending {
        FailConnection();
        return;
      }
      EnqueueTask(of.value, TaskOf(m));
    }

    method RouteHandshakeMessage(m: Message)
      modifies this
      ensures Abs() == RouteHandshake(old(Abs()), m)
    {
      match handshake {
        case Absent => FailConnection();
        case Waiting(id) =>
          if m.HandshakeMessage? && m.id == id && m.accepted {
            handshake := Accepted(id);
          } else {
            handshake := Refused(id);
          }
        case _ =>
      }
    }

    method HandshakeTimedOut()
      modifies this
      ensures Abs() == Apply(old(Abs()), HandshakeTimeoutStep)
    {
      if handshake.Waiting? {
        handshake := Refused(handshake.id);
      }
    }

    /** The awaited handshake was accepted; the client becomes ready even if it was closed meanwhile. */
    method Initialized()
      modifies this
      ensures Abs() == Apply(old(Abs()), InitializedStep)
    {
      if handshake.Accepted? {
        ready, handshake := true, Absent;
      }
    }

    method InitializeFailed()
      modifies this
      ensures Abs() == Apply(old(Abs()), InitializeFailedStep)
    {
      if !handshake.Absent? {
        FailConnection();
        handshake := Absent;
      }
    }

    method EnqueueTask(id: RequestId, task: Task)
      modifies this
      ensures Abs() == Enqueue(old(Abs()), id, task)
    {
      if id in chains {
        chains := chains[id := chains[id].(arrived := chains[id].arrived + [task])];
      }
    }

    method CompleteHead(id: RequestId, ghost entries: seq<Entry>)
      requires id in chains
      modifies this
      ensures Abs() == FinishHead(old(Abs()), id, entries)
    {
      chains := chains[id := chains[id].(done := chains[id].done + 1, acking := false)];
      log := log + entries;
    }

    method HandlerReturned(id: RequestId, ok: bool)
      modifies this
      ensures Abs() == Apply(old(Abs()), HandlerStep(id, ok))
    {
      if id !in chains || !chains[id].HasHead() || chains[id].acking {
        return;
      }
      ghost var index := chains[id].done;
      var task := chains[id].arrived[chains[id].done];
      if task.DeliverResult? {
        return;
      }
      if !ok || (task.HandleEvent? && closed) {
        CompleteHead(id, [HandlerFailed(id, index)]);
        FailConnection();
      } else if task.HandleOther? {
        CompleteHead(id, [Handled(id, index)]);
      } else {
        chains := chains[id := chains[id].(acking := true)];
        log := log + [Handled(id, index)];
      }
    }

    method AcknowledgementSent(id: RequestId, ok: bool)
      modifies this
      ensures Abs() == Apply(old(Abs()), AcknowledgeStep(id, ok))
    {
      if id !in chains || !chains[id].HasHead() || !chains[id].acking {
        return;
      }
      ghost var index := chains[id].done;
      if ok {
        CompleteHead(id, [Acknowledged(id, index)]);
      } else {
        CompleteHead(id, [HandlerFailed(id, index)]);
        FailConnection();
      }
    }

    method ResultReachedHead(id: RequestId)
      modifies this
      ensures Abs() == Apply(old(Abs()), ResultStep(id))
    {
      if id !in chains || !chains[id].HasHead() || chains[id].acking {
        return;
      }
      ghost var index := chains[id].done;
      if !chains[id].arrived[chains[id].done].DeliverResult? {
        return;
      }
      CompleteHead(id, if id in pending then [Resolved(id, index)] else []);
      SettlePending(id);
    }
  }
}
