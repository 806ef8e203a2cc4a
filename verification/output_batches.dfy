/**
 Budgets over lists that mix tool outputs with other items, for any notion of cost and any way of
 cutting an output down to a limit.
 */
module OutputBatches {
  datatype Item<C, P, O> = ToolOutput(call: C, output: P) | OtherItem(content: O)

  /** What an output costs, how to cut it down to a limit, and how to strip what costs altogether. */
  datatype Budget<!P> = Budget(limit: nat, cost: P -> nat, cut: (P, nat) -> P, strip: P -> P)

  /** Cutting meets its limit and leaves alone what meets it already. */
  ghost predicate Sound<P(!new)>(b: Budget<P>) {
    forall p: P, r: nat :: b.cost(b.cut(p, r)) <= r && (b.cost(p) <= r ==> b.cut(p, r) == p)
  }

  predicate AllOutputs<C, P, O>(items: seq<Item<C, P, O>>) {
    forall i :: 0 <= i < |items| ==> items[i].ToolOutput?
  }

  /** Where the run of outputs at the end begins. */
  function TrailingStart<C, P, O>(items: seq<Item<C, P, O>>): (start: nat)
    ensures start <= |items|
  {
    if items == [] || items[|items| - 1].OtherItem? then |items| else TrailingStart(items[..|items| - 1])
  }

  function BoundItem<C, P, O>(item: Item<C, P, O>, b: Budget<P>): Item<C, P, O> {
    if item.OtherItem? then item else item.(output := b.cut(item.output, b.limit))
  }

  function BoundEach<C, P, O>(items: seq<Item<C, P, O>>, b: Budget<P>): (bounded: seq<Item<C, P, O>>)
    ensures |bounded| == |items|
  {
    seq(|items|, i requires 0 <= i < |items| => BoundItem(items[i], b))
  }

  /** The outputs fitted one after the other into what is left of the limit. */
  function Batch<C, P(!new), O>(items: seq<Item<C, P, O>>, remaining: nat, b: Budget<P>): seq<Item<C, P, O>>
    requires AllOutputs(items) && Sound(b)
  {
    if items == [] then [] else
    var fitted := b.cut(items[0].output, remaining);
    [items[0].(output := fitted)] + Batch(items[1..], remaining - b.cost(fitted), b)
  }

  function TotalCost<C, P, O>(items: seq<Item<C, P, O>>, b: Budget<P>): nat
    requires AllOutputs(items)
  {
    if items == [] then 0 else b.cost(items[0].output) + TotalCost(items[1..], b)
  }

  lemma {:induction false} TrailingAreOutputs<C, P(!new), O>(items: seq<Item<C, P, O>>)
    ensures AllOutputs(items[TrailingStart(items)..])
    ensures TrailingStart(items) > 0 ==> items[TrailingStart(items) - 1].OtherItem?
  {
    if items != [] && items[|items| - 1].ToolOutput? {
      var front := items[..|items| - 1];
      TrailingAreOutputs(front);
      assert items[TrailingStart(items)..] == front[TrailingStart(front)..] + [items[|items| - 1]];
    }
  }

  /** Only the kinds of the items decide where the batch begins. */
  lemma {:induction false} TrailingStartByKind<C, P(!new), O>(a: seq<Item<C, P, O>>, b: seq<Item<C, P, O>>)
    requires |a| == |b| && forall i :: 0 <= i < |a| ==> (a[i].OtherItem? <==> b[i].OtherItem?)
    ensures TrailingStart(a) == TrailingStart(b)
  {
    if a != [] && a[|a| - 1].ToolOutput? {
      TrailingStartByKind(a[..|a| - 1], b[..|b| - 1]);
    }
  }

  function Bounded<C, P(!new), O>(items: seq<Item<C, P, O>>, b: Budget<P>): seq<Item<C, P, O>>
    requires Sound(b)
  {
    var each, start := BoundEach(items, b), TrailingStart(items);
    TrailingAreOutputs(items);
    each[..start] + Batch(each[start..], b.limit, b)
  }

  // ---------------------------------------------------------------- the batch

  lemma {:induction false} BatchFits<C, P(!new), O>(items: seq<Item<C, P, O>>, remaining: nat, b: Budget<P>)
    requires AllOutputs(items) && Sound(b)
    ensures |Batch(items, remaining, b)| == |items| && AllOutputs(Batch(items, remaining, b))
    ensures TotalCost(Batch(items, remaining, b), b) <= remaining
  {
    if items != [] {
      var fitted := b.cut(items[0].output, remaining);
      var rest := Batch(items[1..], remaining - b.cost(fitted), b);
      BatchFits(items[1..], remaining - b.cost(fitted), b);
      assert Batch(items, remaining, b)[1..] == rest;
    }
  }

  /** Every output of the batch is its original cut to some share of the budget, under the same call. */
  lemma {:induction false} BatchCuts<C, P(!new), O>(items: seq<Item<C, P, O>>, remaining: nat, b: Budget<P>, i: nat) returns (share: nat)
    requires AllOutputs(items) && Sound(b) && i < |items|
    ensures share <= remaining && |Batch(items, remaining, b)| == |items|
    ensures Batch(items, remaining, b)[i] == items[i].(output := b.cut(items[i].output, share))
  {
    BatchFits(items, remaining, b);
    if i == 0 {
      share := remaining;
    } else {
      share := BatchCuts(items[1..], remaining - b.cost(b.cut(items[0].output, remaining)), b, i - 1);
    }
  }

  /** The outputs at the front of the batch that fit together are not touched. */
  lemma {:induction false} BatchKeepsWhatFits<C, P(!new), O>(items: seq<Item<C, P, O>>, k: nat, remaining: nat, b: Budget<P>)
    requires AllOutputs(items) && Sound(b) && k <= |items| && TotalCost(items[..k], b) <= remaining
    ensures |Batch(items, remaining, b)| == |items| && Batch(items, remaining, b)[..k] == items[..k]
  {
    BatchFits(items, remaining, b);
    if k > 0 {
      var left := remaining - b.cost(items[0].output);
      assert items[..k][1..] == items[1..][..k - 1];
      assert b.cut(items[0].output, remaining) == items[0].output;
      BatchKeepsWhatFits(items[1..], k - 1, left, b);
      assert Batch(items, remaining, b)[..k] == [items[0]] + Batch(items[1..], left, b)[..k - 1];
    }
  }

  // ---------------------------------------------------------------- the whole list

  lemma BoundedShape<C, P(!new), O>(items: seq<Item<C, P, O>>, b: Budget<P>)
    requires Sound(b)
    ensures var result, start, each := Bounded(items, b), TrailingStart(items), BoundEach(items, b);
      && AllOutputs(each[start..]) && |result| == |items|
      && result[..start] == each[..start] && result[start..] == Batch(each[start..], b.limit, b)
  {
    TrailingAreOutputs(items);
    BatchFits(BoundEach(items, b)[TrailingStart(items)..], b.limit, b);
  }

  /** An item of the result: untouched, cut to the limit, or cut to the limit and then to its share. */
  lemma BoundedAt<C, P(!new), O>(items: seq<Item<C, P, O>>, b: Budget<P>, i: nat) returns (share: nat)
    requires Sound(b) && i < |items|
    ensures |Bounded(items, b)| == |items| && share <= b.limit
    ensures i < TrailingStart(items) ==> Bounded(items, b)[i] == BoundItem(items[i], b)
    ensures i >= TrailingStart(items) ==>
      (items[i].ToolOutput?
      && Bounded(items, b)[i] == items[i].(output := b.cut(b.cut(items[i].output, b.limit), share)))
  {
    var result, start, each := Bounded(items, b), TrailingStart(items), BoundEach(items, b);
    BoundedShape(items, b);
    share := 0;
    if i < start {
      assert result[i] == result[..start][i] == each[i];
    } else {
      share := BatchCuts(each[start..], b.limit, b, i - start);
      assert result[start..][i - start] == result[i] && each[start..][i - start] == each[i] == BoundItem(items[i], b);
    }
  }

  predicate WithinLimits<C, P(!new), O>(items: seq<Item<C, P, O>>, b: Budget<P>) {
    && (forall i :: 0 <= i < |items| && items[i].ToolOutput? ==> b.cost(items[i].output) <= b.limit)
    && (TrailingAreOutputs(items); TotalCost(items[TrailingStart(items)..], b) <= b.limit)
  }

  /** Every output and the latest batch as a whole end within the limit. */
  lemma BoundingMeetsLimits<C, P(!new), O>(items: seq<Item<C, P, O>>, b: Budget<P>)
    requires Sound(b)
    ensures |Bounded(items, b)| == |items| && TrailingStart(Bounded(items, b)) == TrailingStart(items)
    ensures WithinLimits(Bounded(items, b), b)
  {
    var result, start, each := Bounded(items, b), TrailingStart(items), BoundEach(items, b);
    BoundedShape(items, b);
    BatchFits(each[start..], b.limit, b);
    forall i | 0 <= i < |items|
      ensures items[i].OtherItem? <==> result[i].OtherItem?
      ensures result[i].ToolOutput? ==> b.cost(result[i].output) <= b.limit
    {
      var share := BoundedAt(items, b, i);
    }
    TrailingStartByKind(items, result);
  }

  lemma NothingToBound<C, P(!new), O>(items: seq<Item<C, P, O>>, b: Budget<P>)
    requires Sound(b) && WithinLimits(items, b)
    ensures Bounded(items, b) == items
  {
    var start, result := TrailingStart(items), Bounded(items, b);
    assert BoundEach(items, b) == items;
    BoundedShape(items, b);
    var batch := items[start..];
    assert batch[..|batch|] == batch;
    BatchKeepsWhatFits(batch, |batch|, b.limit, b);
    assert result[start..][..|batch|] == result[start..];
    assert items[..start] + batch == items && result[..start] + result[start..] == result;
  }

  // ---------------------------------------------------------------- in place

  method FindTrailingStart<C, P, O>(input: array<Item<C, P, O>>) returns (start: nat)
    ensures start == TrailingStart(input[..])
  {
    start := input.Length;
    assert input[..start] == input[..];
    while start > 0 && input[start - 1].ToolOutput?
      invariant start <= input.Length && TrailingStart(input[..start]) == TrailingStart(input[..])
    {
      assert input[..start][..start - 1] == input[..start - 1];
      start := start - 1;
    }
  }

  method BoundItems<C, P(!new), O>(input: array<Item<C, P, O>>, b: Budget<P>)
    requires Sound(b)
    modifies input
    ensures input[..] == Bounded(old(input[..]), b)
  {
    ghost var original := input[..];
    for i := 0 to input.Length
      invariant forall j :: 0 <= j < i ==> input[j] == BoundItem(original[j], b)
      invariant forall j :: i <= j < input.Length ==> input[j] == original[j]
    {
      if input[i].ToolOutput? {
        input[i] := input[i].(output := b.cut(input[i].output, b.limit));
      }
    }
    ghost var each := BoundEach(original, b);
    assert input[..] == each;
    var start := FindTrailingStart(input);
    TrailingStartByKind(original, each);
    TrailingAreOutputs(each);
    BoundBatch(input, start, b);
  }

  function SaturatingSub(a: nat, b: nat): nat { if a < b then 0 else a - b }

  method FitOutput<P(!new)>(output: P, remaining: nat, b: Budget<P>) returns (bounded: P, left: nat)
    requires Sound(b)
    ensures bounded == b.cut(output, remaining) && left == remaining - b.cost(bounded)
  {
    var cost := b.cost(output);
    if cost <= remaining {
      return output, SaturatingSub(remaining, cost);
    }
    bounded := b.cut(output, remaining);
    if b.cost(bounded) > remaining {
      bounded := b.strip(bounded);
    }
    left := SaturatingSub(remaining, b.cost(bounded));
  }

  /** The list once the batch has been fitted up to position `i`, with `remaining` left for the rest. */
  ghost predicate FittedUpTo<C, P(!new), O>(
    items: seq<Item<C, P, O>>, now: seq<Item<C, P, O>>, i: nat, remaining: nat, b: Budget<P>, wanted: seq<Item<C, P, O>>)
    requires Sound(b)
  {
    && i <= |items| == |now| && AllOutputs(items[i..]) && now[i..] == items[i..]
    && now[..i] + Batch(items[i..], remaining, b) == wanted
  }

  lemma FittedOneMore<C, P(!new), O>(
    items: seq<Item<C, P, O>>, now: seq<Item<C, P, O>>, i: nat, remaining: nat, b: Budget<P>, wanted: seq<Item<C, P, O>>)
    requires Sound(b) && FittedUpTo(items, now, i, remaining, b, wanted) && i < |items|
    ensures now[i].ToolOutput?
    ensures var fitted := b.cut(now[i].output, remaining);
      FittedUpTo(items, now[i := now[i].(output := fitted)], i + 1, remaining - b.cost(fitted), b, wanted)
  {
    assert now[i..][0] == items[i..][0] == items[i] == now[i];
    assert items[i..][1..] == items[i + 1..] == now[i + 1..];
    var fitted := b.cut(now[i].output, remaining);
    var first := now[i].(output := fitted);
    var next, rest := now[i := first], Batch(items[i + 1..], remaining - b.cost(fitted), b);
    assert next[..i + 1] == now[..i] + [first] && next[i + 1..] == now[i + 1..];
    assert now[..i] + ([first] + rest) == now[..i] + [first] + rest;
  }

  method BoundBatch<C, P(!new), O>(input: array<Item<C, P, O>>, start: nat, b: Budget<P>)
    requires start <= input.Length && AllOutputs(input[start..]) && Sound(b)
    modifies input
    ensures input[..] == old(input[..start]) + Batch(old(input[start..]), b.limit, b)
  {
    ghost var items := input[..];
    ghost var wanted := items[..start] + Batch(items[start..], b.limit, b);
    var remaining := b.limit;
    for i := start to input.Length
      invariant FittedUpTo(items, input[..], i, remaining, b, wanted)
    {
      FittedOneMore(items, input[..], i, remaining, b, wanted);
      ghost var now := input[..];
      var bounded, left := FitOutput(input[i].output, remaining, b);
      input[i] := input[i].(output := bounded);
      remaining := left;
      assert input[..] == now[i := now[i].(output := bounded)];
    }
  }
}
