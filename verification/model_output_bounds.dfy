/**
 Bounding the tool outputs a model may see: every output on its own, then the latest batch of outputs
 together. The vendored truncators are parameters; nothing is assumed about what they return.
 */
module ModelOutputBounds {
  import opened Outcomes
  import opened OutputBatches
  import opened TextTruncation

  const OUTPUT_MARKER_RESERVE: nat := 128

  datatype Policy = Bytes(limit: nat) | Tokens(limit: nat)

  datatype ContentItem =
    | InputText(text: string)
    | InputAudio(audioUrl: string)
    | InputImage(imageUrl: string)
    | EncryptedContent(encrypted: string)

  datatype Body = Text(content: string) | ContentItems(items: seq<ContentItem>)

  datatype Payload = Payload(body: Body, success: Option<bool>)

  /** Which kind of call an output answers; identifier and metadata travel together as `rest`. */
  datatype CallKind =
    | FunctionCall(callId: string, rest: string)
    | CustomToolCall(callId: string, name: Option<string>, rest: string)

  type ResponseItem = Item<CallKind, Payload, string>

  /** The vendored truncation functions. */
  datatype Truncators = Truncators(text: (string, Policy) -> string, items: (seq<ContentItem>, Policy) -> seq<ContentItem>)

  // ---------------------------------------------------------------- costs

  function ContentCost(content: string, policy: Policy): nat {
    if policy.Bytes? then ByteLength(content) else ApproxTokenCount(content)
  }

  function ItemCost(item: ContentItem, policy: Policy): nat {
    match item
    case InputText(text) => ContentCost(text, policy)
    case InputAudio(audioUrl) => ContentCost(audioUrl, policy)
    case InputImage(_) => 0
    case EncryptedContent(_) => 0
  }

  function ItemsCost(items: seq<ContentItem>, policy: Policy): nat {
    if items == [] then 0 else SaturatingAdd(ItemsCost(items[..|items| - 1], policy), ItemCost(items[|items| - 1], policy))
  }

  function Cost(output: Payload, policy: Policy): nat {
    match output.body
    case Text(content) => ContentCost(content, policy)
    case ContentItems(items) => ItemsCost(items, policy)
  }

  function WithLimit(policy: Policy, limit: nat): Policy {
    if policy.Bytes? then Bytes(limit) else Tokens(limit)
  }

  lemma {:induction false} CostIgnoresLimit(output: Payload, policy: Policy, limit: nat)
    ensures Cost(output, WithLimit(policy, limit)) == Cost(output, policy)
  {
    if output.body.ContentItems? {
      ItemsCostIgnoresLimit(output.body.items, policy, limit);
    }
  }

  lemma {:induction false} ItemsCostIgnoresLimit(items: seq<ContentItem>, policy: Policy, limit: nat)
    ensures ItemsCost(items, WithLimit(policy, limit)) == ItemsCost(items, policy)
  {
    if items != [] {
      ItemsCostIgnoresLimit(items[..|items| - 1], policy, limit);
    }
  }

  // ---------------------------------------------------------------- one output

  predicate IsFree(item: ContentItem) { item.InputImage? || item.EncryptedContent? }

  function FreeItems(items: seq<ContentItem>): seq<ContentItem> {
    if items == [] then [] else
    FreeItems(items[..|items| - 1]) + if IsFree(items[|items| - 1]) then [items[|items| - 1]] else []
  }

  lemma {:induction false} FreeItemsCostNothing(items: seq<ContentItem>, policy: Policy)
    ensures ItemsCost(FreeItems(items), policy) == 0
  {
    if items != [] {
      var front, last := FreeItems(items[..|items| - 1]), items[|items| - 1];
      FreeItemsCostNothing(items[..|items| - 1], policy);
      if IsFree(last) {
        assert (front + [last])[..|front|] == front;
      } else {
        assert front + [] == front;
      }
    }
  }

  /** Everything that costs is removed, everything free is kept. */
  function WithoutBudgeted(output: Payload): Payload {
    match output.body
    case Text(_) => output.(body := Text(""))
    case ContentItems(items) => output.(body := ContentItems(FreeItems(items)))
  }

  lemma WithoutBudgetedCostsNothing(output: Payload, policy: Policy)
    ensures Cost(WithoutBudgeted(output), policy) == 0
  {
    if output.body.ContentItems? {
      FreeItemsCostNothing(output.body.items, policy);
    }
  }

  function Truncated(output: Payload, policy: Policy, cut: Truncators): (bounded: Payload)
    ensures Cost(bounded, policy) <= policy.limit
    ensures bounded.success == output.success && bounded.body.Text? == output.body.Text?
    ensures Cost(output, policy) <= policy.limit ==> bounded == output
  {
    if Cost(output, policy) <= policy.limit then output else
    var inner := WithLimit(policy, SaturatingSub(policy.limit, OUTPUT_MARKER_RESERVE));
    var body := if output.body.Text? then Text(cut.text(output.body.content, inner))
                else ContentItems(cut.items(output.body.items, inner));
    var bounded := Payload(body, output.success);
    WithoutBudgetedCostsNothing(bounded, policy);
    if Cost(bounded, policy) > policy.limit then WithoutBudgeted(bounded) else bounded
  }

  // ---------------------------------------------------------------- the whole list

  /** The budget of the generic batch, for these truncators. */
  function BudgetOf(policy: Policy, cut: Truncators): Budget<Payload> {
    Budget(policy.limit, CostUnder(policy), CutUnder(policy, cut), WithoutBudgeted)
  }

  function CostUnder(policy: Policy): Payload -> nat { output => Cost(output, policy) }

  function CutUnder(policy: Policy, cut: Truncators): (Payload, nat) -> Payload {
    (output: Payload, limit: nat) => Truncated(output, WithLimit(policy, limit), cut)
  }

  lemma TruncatingIsSound(policy: Policy, cut: Truncators)
    ensures Sound(BudgetOf(policy, cut))
  {
    var b := BudgetOf(policy, cut);
    forall output: Payload, limit: nat
      ensures b.cost(b.cut(output, limit)) <= limit && (b.cost(output) <= limit ==> b.cut(output, limit) == output)
    {
      CostIgnoresLimit(output, policy, limit);
      CostIgnoresLimit(b.cut(output, limit), policy, limit);
    }
  }

  function BoundedOutputs(items: seq<ResponseItem>, policy: Policy, cut: Truncators): seq<ResponseItem> {
    TruncatingIsSound(policy, cut);
    Bounded(items, BudgetOf(policy, cut))
  }

  function BoundAlone(item: ResponseItem, policy: Policy, cut: Truncators): ResponseItem {
    if item.OtherItem? then item else item.(output := Truncated(item.output, policy, cut))
  }

  /** Nothing but the content of a tool output changes. */
  predicate SameFrame(before: ResponseItem, after: ResponseItem) {
    if before.OtherItem? then after == before else
    && after.ToolOutput? && after.call == before.call
    && after.output.success == before.output.success && after.output.body.Text? == before.output.body.Text?
  }

  /** Bounding keeps every item's frame, and before the latest batch it bounds outputs one by one only. */
  lemma BoundingKeepsFrames(items: seq<ResponseItem>, policy: Policy, cut: Truncators, i: nat)
    requires i < |items|
    ensures |BoundedOutputs(items, policy, cut)| == |items|
    ensures SameFrame(items[i], BoundedOutputs(items, policy, cut)[i])
    ensures i < TrailingStart(items) ==> BoundedOutputs(items, policy, cut)[i] == BoundAlone(items[i], policy, cut)
  {
    TruncatingIsSound(policy, cut);
    var share := BoundedAt(items, BudgetOf(policy, cut), i);
    assert WithLimit(policy, policy.limit) == policy;
  }

  /**
   Whatever the truncators return: every output costs at most the limit, and the outputs of the
   latest batch cost at most the limit together.
   */
  lemma BoundingMeetsBothLimits(items: seq<ResponseItem>, policy: Policy, cut: Truncators)
    ensures var result := BoundedOutputs(items, policy, cut);
      && (forall i :: 0 <= i < |result| && result[i].ToolOutput? ==> Cost(result[i].output, policy) <= policy.limit)
      && AllOutputs(result[TrailingStart(result)..])
      && BatchCost(result[TrailingStart(result)..], policy) <= policy.limit
  {
    var b, result := BudgetOf(policy, cut), BoundedOutputs(items, policy, cut);
    TruncatingIsSound(policy, cut);
    BoundingMeetsLimits(items, b);
    TrailingAreOutputs(result);
    BatchCostIsTotal(result[TrailingStart(result)..], policy, cut);
    assert forall i :: 0 <= i < |result| && result[i].ToolOutput? ==> b.cost(result[i].output) <= b.limit;
  }

  function BatchCost(items: seq<ResponseItem>, policy: Policy): nat
    requires AllOutputs(items)
  {
    if items == [] then 0 else Cost(items[0].output, policy) + BatchCost(items[1..], policy)
  }

  lemma {:induction false} BatchCostIsTotal(items: seq<ResponseItem>, policy: Policy, cut: Truncators)
    requires AllOutputs(items)
    ensures BatchCost(items, policy) == TotalCost(items, BudgetOf(policy, cut))
  {
    if items != [] {
      BatchCostIsTotal(items[1..], policy, cut);
    }
  }

  /** Bounding leaves a list alone exactly when it is within both limits already. */
  lemma FixedWithinLimits(items: seq<ResponseItem>, policy: Policy, cut: Truncators)
    ensures BoundedOutputs(items, policy, cut) == items <==> WithinLimits(items, BudgetOf(policy, cut))
  {
    var b := BudgetOf(policy, cut);
    TruncatingIsSound(policy, cut);
    BoundingMeetsLimits(items, b);
    if WithinLimits(items, b) {
      NothingToBound(items, b);
    }
  }

  lemma BoundingIsIdempotent(items: seq<ResponseItem>, policy: Policy, cut: Truncators)
    ensures BoundedOutputs(BoundedOutputs(items, policy, cut), policy, cut) == BoundedOutputs(items, policy, cut)
  {
    var b := BudgetOf(policy, cut);
    TruncatingIsSound(policy, cut);
    BoundingMeetsLimits(items, b);
    NothingToBound(Bounded(items, b), b);
  }

  method BoundModelOutputItems(input: array<ResponseItem>, policy: Policy, cut: Truncators)
    modifies input
    ensures input[..] == BoundedOutputs(old(input[..]), policy, cut)
  {
    TruncatingIsSound(policy, cut);
    BoundItems(input, BudgetOf(policy, cut));
  }
}
