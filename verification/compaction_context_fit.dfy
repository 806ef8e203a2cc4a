/**
 Fitting a compaction request into the model's context window: the newest tool outputs are replaced
 one by one, from the end, until either estimate of the request fits. The estimators are parameters;
 they need not shrink when an output is replaced.
 */
module CompactionContextFit {
  import opened Outcomes

  const CONTEXT_WINDOW_TRUNCATED_OUTPUT_MESSAGE := "Output exceeded the available model context and was truncated"

  datatype Body = Text(content: string) | ContentItems(items: seq<string>)

  datatype Payload = Payload(body: Body, success: Option<bool>)

  /** Identifier and metadata travel together as `rest`. */
  datatype ResponseItem =
    | FunctionCallOutput(callId: string, output: Payload, rest: string)
    | CustomToolCallOutput(callId: string, name: Option<string>, output: Payload, rest: string)
    | ToolSearchOutput(searchCallId: Option<string>, status: string, execution: string, tools: seq<string>, rest: string)
    | OtherItem(rest: string)

  datatype Estimates = Estimates(utf8Bytes: nat, utf16CodeUnits: nat) {
    predicate Fits(limit: nat) { utf8Bytes <= limit || utf16CodeUnits <= limit }
  }

  /** The estimates of a request as a function of its input; the instructions do not change. */
  type Estimator = seq<ResponseItem> -> Estimates

  datatype Error = ContextLimitExceeded

  // ---------------------------------------------------------------- rewriting outputs

  function TruncatedOutput(output: Payload): Payload {
    output.(body := Text(CONTEXT_WINDOW_TRUNCATED_OUTPUT_MESSAGE))
  }

  function Rewritten(item: ResponseItem): Option<ResponseItem> {
    match item
    case FunctionCallOutput(callId, output, rest) => Some(FunctionCallOutput(callId, TruncatedOutput(output), rest))
    case CustomToolCallOutput(callId, name, output, rest) =>
      Some(CustomToolCallOutput(callId, name, TruncatedOutput(output), rest))
    case ToolSearchOutput(callId, status, execution, _, rest) => Some(ToolSearchOutput(callId, status, execution, [], rest))
    case OtherItem(_) => None
  }

  predicate Eligible(item: ResponseItem) { Rewritten(item).Some? }

  /** How many items at the end can be rewritten before the first that cannot. */
  function EligibleRun(items: seq<ResponseItem>): (run: nat)
    ensures run <= |items|
    ensures forall i :: |items| - run <= i < |items| ==> Eligible(items[i])
    ensures run < |items| ==> !Eligible(items[|items| - run - 1])
  {
    if items == [] || !Eligible(items[|items| - 1]) then 0 else 1 + EligibleRun(items[..|items| - 1])
  }

  /** The list with its last `k` items rewritten. */
  function RewriteLast(items: seq<ResponseItem>, k: nat): (rewritten: seq<ResponseItem>)
    requires k <= EligibleRun(items)
    ensures |rewritten| == |items|
  {
    if k == 0 then items else RewriteLast(items, k - 1)[|items| - k := Rewritten(items[|items| - k]).value]
  }

  /** Rewriting keeps an item's kind, its call, its success flag and its metadata. */
  predicate SameCall(before: ResponseItem, after: ResponseItem) {
    match before
    case FunctionCallOutput(callId, output, rest) =>
      after.FunctionCallOutput? && after.callId == callId && after.output.success == output.success && after.rest == rest
    case CustomToolCallOutput(callId, name, output, rest) =>
      after.CustomToolCallOutput? && after.callId == callId && after.name == name
      && after.output.success == output.success && after.rest == rest
    case ToolSearchOutput(callId, status, execution, _, rest) =>
      after == ToolSearchOutput(callId, status, execution, [], rest)
    case OtherItem(_) => false
  }

  lemma {:induction false} RewrittenAt(items: seq<ResponseItem>, k: nat, i: nat)
    requires k <= EligibleRun(items) && i < |items|
    ensures RewriteLast(items, k)[i] == if i < |items| - k then items[i] else Rewritten(items[i]).value
  {
    if k > 0 {
      RewrittenAt(items, k - 1, i);
    }
  }

  lemma RewritingKeepsCalls(items: seq<ResponseItem>, k: nat, i: nat)
    requires k <= EligibleRun(items) && i < |items|
    ensures i < |items| - k ==> RewriteLast(items, k)[i] == items[i]
    ensures i >= |items| - k ==> SameCall(items[i], RewriteLast(items, k)[i])
  {
    RewrittenAt(items, k, i);
  }

  // ---------------------------------------------------------------- fitting

  predicate FitsAfter(items: seq<ResponseItem>, k: nat, limit: nat, estimate: Estimator)
    requires k <= EligibleRun(items)
  {
    estimate(RewriteLast(items, k)).Fits(limit)
  }

  /** The rewriting that ends the search started at `k`: the first that fits, or the whole run. */
  function Stop(items: seq<ResponseItem>, k: nat, limit: nat, estimate: Estimator): (stop: nat)
    requires k <= EligibleRun(items)
    ensures k <= stop <= EligibleRun(items)
    decreases EligibleRun(items) - k
  {
    if k == EligibleRun(items) || FitsAfter(items, k, limit, estimate) then k else Stop(items, k + 1, limit, estimate)
  }

  lemma {:induction false} StopIsLeast(items: seq<ResponseItem>, k: nat, limit: nat, estimate: Estimator)
    requires k <= EligibleRun(items)
    ensures forall j :: k <= j < Stop(items, k, limit, estimate) ==> !FitsAfter(items, j, limit, estimate)
    ensures FitsAfter(items, Stop(items, k, limit, estimate), limit, estimate)
      || Stop(items, k, limit, estimate) == EligibleRun(items)
    decreases EligibleRun(items) - k
  {
    if k < EligibleRun(items) && !FitsAfter(items, k, limit, estimate) {
      StopIsLeast(items, k + 1, limit, estimate);
    }
  }

  ghost predicate IsLeastFit(items: seq<ResponseItem>, k: nat, limit: nat, estimate: Estimator) {
    && k <= EligibleRun(items) && FitsAfter(items, k, limit, estimate)
    && forall j: nat :: j < k ==> !FitsAfter(items, j, limit, estimate)
  }

  /** What fitting leaves in the request, and whether it succeeds. */
  function Fitted(items: seq<ResponseItem>, limit: Option<nat>, estimate: Estimator): (seq<ResponseItem>, bool) {
    match limit
    case None => (items, true)
    case Some(limit) =>
      var stop := Stop(items, 0, limit, estimate);
      (RewriteLast(items, stop), FitsAfter(items, stop, limit, estimate))
  }

  /**
   With a known limit, fitting succeeds exactly when rewriting some number of items at the end fits;
   it then rewrites the least such number, and it never goes beyond the eligible run.
   */
  lemma FittingIsLeast(items: seq<ResponseItem>, limit: nat, estimate: Estimator)
    ensures var (result, fits) := Fitted(items, Some(limit), estimate);
      && (fits <==> exists k: nat :: k <= EligibleRun(items) && FitsAfter(items, k, limit, estimate))
      && (fits ==> exists k: nat :: IsLeastFit(items, k, limit, estimate) && result == RewriteLast(items, k))
      && (!fits ==> result == RewriteLast(items, EligibleRun(items)))
  {
    StopIsLeast(items, 0, limit, estimate);
  }

  /** One turn of the loop: rewrite the next item from the end, if it can be rewritten. */
  method RewriteAt(input: array<ResponseItem>, ghost items: seq<ResponseItem>, k: nat) returns (rewritten: bool)
    requires k < input.Length && k <= EligibleRun(items) && input[..] == RewriteLast(items, k)
    modifies input
    ensures rewritten <==> k < EligibleRun(items)
    ensures input[..] == RewriteLast(items, if rewritten then k + 1 else k)
  {
    var index := input.Length - 1 - k;
    RewrittenAt(items, k, index);
    ghost var before := input[..];
    assert input[index] == before[index] == items[index];
    var replacement := Rewritten(input[index]);
    rewritten := replacement.Some?;
    if rewritten {
      input[index] := replacement.value;
      assert input[..] == before[index := replacement.value];
    }
  }

  method FitCompactionInput(input: array<ResponseItem>, limit: Option<nat>, estimate: Estimator) returns (result: Result<(), Error>)
    modifies input
    ensures input[..] == Fitted(old(input[..]), limit, estimate).0
    ensures result == if Fitted(old(input[..]), limit, estimate).1 then Ok(()) else Err(ContextLimitExceeded)
  {
    if limit.None? {
      return Ok(());
    }
    ghost var items := input[..];
    assert RewriteLast(items, 0) == items;
    var estimates := estimate(input[..]);
    if estimates.Fits(limit.value) {
      return Ok(());
    }
    ghost var stop := Stop(items, 0, limit.value, estimate);
    var k := 0;
    while k < input.Length
      invariant k <= EligibleRun(items) && input.Length == |items|
      invariant input[..] == RewriteLast(items, k) && estimates == estimate(input[..])
      invariant stop == Stop(items, k, limit.value, estimate)
    {
      if estimates.Fits(limit.value) {
        break;
      }
      var rewritten := RewriteAt(input, items, k);
      if !rewritten {
        break;
      }
      StopMoves(items, k, limit.value, estimate);
      k := k + 1;
      estimates := estimate(input[..]);
    }
    assert stop == k;
    result := if estimates.Fits(limit.value) then Ok(()) else Err(ContextLimitExceeded);
  }

  lemma StopMoves(items: seq<ResponseItem>, k: nat, limit: nat, estimate: Estimator)
    requires k < EligibleRun(items) && !FitsAfter(items, k, limit, estimate)
    ensures Stop(items, k, limit, estimate) == Stop(items, k + 1, limit, estimate)
  {
  }
}
