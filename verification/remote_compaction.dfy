/**
 The history that replaces a compacted one: the newest user, developer and system messages that a
 token budget allows, then the compaction item. Token counting and text truncation are parameters.
 */
module RemoteCompaction {
  import opened Outcomes
  import opened TextTruncation

  const RETAINED_MESSAGE_TOKEN_BUDGET: nat := 64_000

  datatype Role = User | Developer | System | OtherRole(name: string)

  datatype ContentItem = InputText(text: string) | OutputText(text: string) | InputImage(url: string) | InputAudio(url: string)

  /** Identifier, phase and metadata travel together as `rest`. */
  datatype ResponseItem = Message(role: Role, content: seq<ContentItem>, rest: string) | OtherItem(rest: string)

  /** How text is measured, and how it is truncated to a positive number of tokens. */
  datatype Meter = Meter(tokens: string -> nat, truncate: (string, nat) -> string)

  predicate IsRetained(item: ResponseItem) { item.Message? && !item.role.OtherRole? }

  function Retained(items: seq<ResponseItem>): seq<ResponseItem> {
    if items == [] then [] else
    Retained(items[..|items| - 1]) + (if IsRetained(items[|items| - 1]) then [items[|items| - 1]] else [])
  }

  predicate IsText(item: ContentItem) { item.InputText? || item.OutputText? }

  function TokensOf(item: ContentItem, meter: Meter): nat {
    if IsText(item) then meter.tokens(item.text) else 0
  }

  function ContentTokens(content: seq<ContentItem>, meter: Meter): nat {
    if content == [] then 0 else TokensOf(content[0], meter) + ContentTokens(content[1..], meter)
  }

  function TokenCount(item: ResponseItem, meter: Meter): nat {
    if item.Message? then ContentTokens(item.content, meter) else 0
  }

  /** What a message is charged: at least one token. */
  function Charge(item: ResponseItem, meter: Meter): nat {
    if TokenCount(item, meter) == 0 then 1 else TokenCount(item, meter)
  }

  // ---------------------------------------------------------------- shortening one message

  /** A text within the budget, with what it leaves of the budget. */
  function FitText(text: string, remaining: nat, meter: Meter): (string, nat) {
    if meter.tokens(text) <= remaining then (text, remaining - meter.tokens(text)) else (meter.truncate(text, remaining), 0)
  }

  function WithText(item: ContentItem, text: string): ContentItem
    requires IsText(item)
  {
    if item.InputText? then InputText(text) else OutputText(text)
  }

  /** What a part of the content becomes, and what it leaves: media cost nothing, empty texts go. */
  function FitPart(part: ContentItem, remaining: nat, meter: Meter): (seq<ContentItem>, nat) {
    if !IsText(part) then ([part], remaining) else
    if remaining == 0 then ([], 0) else
    var (text, left) := FitText(part.text, remaining, meter);
    (if text == "" then [] else [WithText(part, text)], left)
  }

  /** The content that fits: its parts share the budget in order. */
  function FitContent(content: seq<ContentItem>, remaining: nat, meter: Meter): seq<ContentItem> {
    if content == [] then [] else
    var (fitted, left) := FitPart(content[0], remaining, meter);
    fitted + FitContent(content[1..], left, meter)
  }

  function Shorten(item: ResponseItem, budget: nat, meter: Meter): Option<ResponseItem> {
    if item.OtherItem? then Some(item) else
    var content := FitContent(item.content, budget, meter);
    if content == [] then None else Some(item.(content := content))
  }

  /** A truncator that never empties a text while there is budget, over a count that finds nothing in nothing. */
  ghost predicate Gentle(meter: Meter) {
    && meter.tokens("") == 0
    && forall text: string, budget: nat :: text != "" && budget > 0 ==> meter.truncate(text, budget) != ""
  }

  /** Then shortening a message that is over budget always leaves something. */
  lemma {:induction false} GentleLeavesContent(content: seq<ContentItem>, budget: nat, meter: Meter)
    requires Gentle(meter) && 0 < budget < ContentTokens(content, meter)
    ensures FitContent(content, budget, meter) != []
  {
    if IsText(content[0]) {
      var (text, left) := FitText(content[0].text, budget, meter);
      if text == "" {
        assert content[0].text == "";
        GentleLeavesContent(content[1..], budget, meter);
      }
    }
  }

  method ShortenMessage(item: ResponseItem, budget: nat, meter: Meter) returns (shortened: Option<ResponseItem>)
    ensures shortened == Shorten(item, budget, meter)
  {
    if item.OtherItem? {
      return Some(item);
    }
    var remaining, content := budget, [];
    assert item.content[0..] == item.content;
    for i := 0 to |item.content|
      invariant content + FitContent(item.content[i..], remaining, meter) == FitContent(item.content, budget, meter)
    {
      var part := item.content[i];
      FitContentAt(item.content, i, remaining, content, meter);
      if !IsText(part) {
        content := content + [part];
      } else if remaining > 0 {
        var (text, left) := FitText(part.text, remaining, meter);
        remaining := left;
        if text != "" {
          content := content + [WithText(part, text)];
        }
      }
    }
    assert item.content[|item.content|..] == [] && content + [] == content;
    shortened := if content == [] then None else Some(item.(content := content));
  }

  lemma FitContentAt(content: seq<ContentItem>, i: nat, remaining: nat, done: seq<ContentItem>, meter: Meter)
    requires i < |content|
    ensures var (fitted, left) := FitPart(content[i], remaining, meter);
      && done + FitContent(content[i..], remaining, meter) == (done + fitted) + FitContent(content[i + 1..], left, meter)
      && done + [] == done
  {
    assert content[i..][0] == content[i] && content[i..][1..] == content[i + 1..];
  }

  // ---------------------------------------------------------------- what happens to every message

  datatype Mark = Dropped | Whole | Shortened(item: ResponseItem)

  /** The fate of each message, decided from the newest to the oldest. */
  function Marks(items: seq<ResponseItem>, remaining: nat, meter: Meter): (marks: seq<Mark>)
    ensures |marks| == |items|
  {
    if items == [] then [] else
    var front, last := items[..|items| - 1], items[|items| - 1];
    if remaining == 0 then Marks(front, 0, meter) + [Dropped] else
    if Charge(last, meter) <= remaining then Marks(front, remaining - Charge(last, meter), meter) + [Whole] else
    match Shorten(last, remaining, meter)
    case Some(shortened) => Marks(front, 0, meter) + [Shortened(shortened)]
    case None => Marks(front, remaining, meter) + [Dropped]
  }

  function Result(item: ResponseItem, mark: Mark): seq<ResponseItem> {
    match mark
    case Dropped => []
    case Whole => [item]
    case Shortened(shortened) => [shortened]
  }

  /** The marked messages in their order. */
  function Selected(items: seq<ResponseItem>, marks: seq<Mark>): seq<ResponseItem>
    requires |items| == |marks|
  {
    if items == [] then [] else
    Selected(items[..|items| - 1], marks[..|marks| - 1]) + Result(items[|items| - 1], marks[|marks| - 1])
  }

  function WholeCharge(items: seq<ResponseItem>, marks: seq<Mark>, meter: Meter): nat
    requires |items| == |marks|
  {
    if items == [] then 0 else
    WholeCharge(items[..|items| - 1], marks[..|marks| - 1], meter)
    + (if marks[|marks| - 1].Whole? then Charge(items[|items| - 1], meter) else 0)
  }

  function Kept(items: seq<ResponseItem>, budget: nat, meter: Meter): seq<ResponseItem> {
    Selected(items, Marks(items, budget, meter))
  }

  function CompactedHistory(items: seq<ResponseItem>, compaction: ResponseItem, meter: Meter): seq<ResponseItem> {
    Kept(Retained(items), RETAINED_MESSAGE_TOKEN_BUDGET, meter) + [compaction]
  }

  // ---------------------------------------------------------------- the budget and the oldest message

  lemma {:induction false} WholeWithinBudget(items: seq<ResponseItem>, remaining: nat, meter: Meter)
    ensures WholeCharge(items, Marks(items, remaining, meter), meter) <= remaining
  {
    if items != [] {
      var front, last, marks := items[..|items| - 1], items[|items| - 1], Marks(items, remaining, meter);
      var left := if remaining == 0 || marks[|front|].Shortened? then 0
                  else if marks[|front|].Whole? then remaining - Charge(last, meter) else remaining;
      assert marks[..|front|] == Marks(front, left, meter);
      WholeWithinBudget(front, left, meter);
    }
  }

  lemma {:induction false} NothingWithoutBudget(items: seq<ResponseItem>, meter: Meter, i: nat)
    requires i < |items|
    ensures Marks(items, 0, meter)[i] == Dropped
  {
    if i < |items| - 1 {
      NothingWithoutBudget(items[..|items| - 1], meter, i);
    }
  }

  /** A shortened message is the oldest one kept. */
  lemma {:induction false} ShortenedIsOldest(items: seq<ResponseItem>, remaining: nat, meter: Meter, i: nat, j: nat)
    requires i < j < |items| && Marks(items, remaining, meter)[j].Shortened?
    ensures Marks(items, remaining, meter)[i] == Dropped
  {
    var front, last, marks := items[..|items| - 1], items[|items| - 1], Marks(items, remaining, meter);
    if j == |front| {
      NothingWithoutBudget(front, meter, i);
    } else {
      var left := if remaining == 0 || marks[|front|].Shortened? then 0
                  else if marks[|front|].Whole? then remaining - Charge(last, meter) else remaining;
      assert marks[..|front|] == Marks(front, left, meter);
      ShortenedIsOldest(front, left, meter, i, j);
    }
  }

  /** What is shortened is the message at that place, cut to a budget smaller than its charge. */
  lemma {:induction false} ShortenedFrom(items: seq<ResponseItem>, remaining: nat, meter: Meter, j: nat) returns (budget: nat)
    requires j < |items| && Marks(items, remaining, meter)[j].Shortened?
    ensures 0 < budget <= remaining && budget < Charge(items[j], meter)
    ensures Shorten(items[j], budget, meter) == Some(Marks(items, remaining, meter)[j].item)
  {
    var front, last, marks := items[..|items| - 1], items[|items| - 1], Marks(items, remaining, meter);
    if j == |front| {
      budget := remaining;
    } else {
      if remaining == 0 || marks[|front|].Shortened? {
        NothingWithoutBudget(front, meter, j);
      }
      var left := if remaining == 0 || marks[|front|].Shortened? then 0
                  else if marks[|front|].Whole? then remaining - Charge(last, meter) else remaining;
      assert marks[..|front|] == Marks(front, left, meter);
      budget := ShortenedFrom(front, left, meter, j);
    }
  }

  /** Everything from `start` on is kept whole; before it at most the next message survives, shortened. */
  ghost predicate GaplessFrom(marks: seq<Mark>, start: nat) {
    && start <= |marks|
    && (forall i :: start <= i < |marks| ==> marks[i].Whole?)
    && (forall i :: 0 <= i < start - 1 ==> marks[i].Dropped?)
    && (start > 0 ==> !marks[start - 1].Whole?)
  }

  ghost predicate AllDropped(marks: seq<Mark>) {
    forall i :: 0 <= i < |marks| ==> marks[i].Dropped?
  }

  lemma NothingKeptIsGapless(items: seq<ResponseItem>, meter: Meter)
    ensures AllDropped(Marks(items, 0, meter)) && GaplessFrom(Marks(items, 0, meter), |items|)
  {
    forall i | 0 <= i < |items|
      ensures Marks(items, 0, meter)[i].Dropped?
    {
      NothingWithoutBudget(items, meter, i);
    }
  }

  lemma GaplessGrows(older: seq<Mark>, start: nat)
    requires GaplessFrom(older, start)
    ensures GaplessFrom(older + [Whole], start)
  {
  }

  lemma WholeChargeGrows(items: seq<ResponseItem>, marks: seq<Mark>, item: ResponseItem, mark: Mark, meter: Meter)
    requires |items| == |marks|
    ensures WholeCharge(items + [item], marks + [mark], meter)
         == WholeCharge(items, marks, meter) + if mark.Whole? then Charge(item, meter) else 0
  {
    assert (items + [item])[..|items|] == items && (marks + [mark])[..|marks|] == marks;
  }

  lemma {:induction false} NothingWhole(items: seq<ResponseItem>, marks: seq<Mark>, meter: Meter)
    requires |items| == |marks| && AllDropped(marks)
    ensures WholeCharge(items, marks, meter) == 0
  {
    if items != [] {
      NothingWhole(items[..|items| - 1], marks[..|marks| - 1], meter);
    }
  }

  /** The messages kept whole are the newest ones, without a gap, and one more would not fit. */
  ghost predicate NewestWhole(items: seq<ResponseItem>, marks: seq<Mark>, remaining: nat, meter: Meter, start: nat) {
    && |items| == |marks| && GaplessFrom(marks, start)
    && (start > 0 ==> remaining < WholeCharge(items, marks, meter) + Charge(items[start - 1], meter))
  }

  /** A message over budget that cannot be kept whole ends the selection. */
  lemma NothingOlderKept(front: seq<ResponseItem>, last: ResponseItem, mark: Mark, remaining: nat, meter: Meter)
    requires !mark.Whole? && remaining < Charge(last, meter)
    ensures NewestWhole(front + [last], Marks(front, 0, meter) + [mark], remaining, meter, |front| + 1)
  {
    NothingKeptIsGapless(front, meter);
    NothingWhole(front, Marks(front, 0, meter), meter);
    WholeChargeGrows(front, Marks(front, 0, meter), last, mark, meter);
  }

  lemma OneMoreKept(front: seq<ResponseItem>, last: ResponseItem, older: seq<Mark>, left: nat, meter: Meter, start: nat)
    requires NewestWhole(front, older, left, meter, start)
    ensures NewestWhole(front + [last], older + [Whole], left + Charge(last, meter), meter, start)
  {
    GaplessGrows(older, start);
    WholeChargeGrows(front, older, last, Whole, meter);
  }

  /** With a gentle truncator a message over budget uses it up. */
  lemma MarksWhenOver(front: seq<ResponseItem>, last: ResponseItem, remaining: nat, meter: Meter) returns (mark: Mark)
    requires Gentle(meter) && last.Message? && remaining < Charge(last, meter)
    ensures !mark.Whole? && Marks(front + [last], remaining, meter) == Marks(front, 0, meter) + [mark]
  {
    assert (front + [last])[..|front|] == front;
    mark := Marks(front + [last], remaining, meter)[|front|];
    if remaining > 0 {
      GentleLeavesContent(last.content, remaining, meter);
    }
  }

  lemma MarksWhenWhole(front: seq<ResponseItem>, last: ResponseItem, remaining: nat, meter: Meter)
    requires Charge(last, meter) <= remaining
    ensures Marks(front + [last], remaining, meter) == Marks(front, remaining - Charge(last, meter), meter) + [Whole]
  {
    assert (front + [last])[..|front|] == front;
  }

  /** With a gentle truncator the messages kept whole are the newest ones, without a gap, and one more would not fit. */
  lemma {:induction false} WholeMessagesAreNewest(items: seq<ResponseItem>, remaining: nat, meter: Meter) returns (start: nat)
    requires Gentle(meter) && forall i :: 0 <= i < |items| ==> items[i].Message?
    ensures NewestWhole(items, Marks(items, remaining, meter), remaining, meter, start)
  {
    if items == [] {
      start := 0;
    } else {
      var front, last := items[..|items| - 1], items[|items| - 1];
      assert items == front + [last];
      if Charge(last, meter) > remaining {
        start := |items|;
        var mark := MarksWhenOver(front, last, remaining, meter);
        NothingOlderKept(front, last, mark, remaining, meter);
      } else {
        start := WholeMessagesAreNewest(front, remaining - Charge(last, meter), meter);
        MarksWhenWhole(front, last, remaining, meter);
        OneMoreKept(front, last, Marks(front, remaining - Charge(last, meter), meter), remaining - Charge(last, meter), meter, start);
      }
    }
  }

  /** The newest message that is over what the newer ones leave of the budget, and what they leave. */
  function FirstOver(items: seq<ResponseItem>, remaining: nat, meter: Meter): (over: Option<(nat, nat)>)
    ensures over.Some? ==> over.value.0 < |items|
  {
    if items == [] || remaining == 0 then None else
    var last := items[|items| - 1];
    if Charge(last, meter) <= remaining then FirstOver(items[..|items| - 1], remaining - Charge(last, meter), meter)
    else Some((|items| - 1, remaining))
  }

  /** Whether the messages kept whole are the newest, with at most a shortened one before them. */
  ghost predicate IsGapless(marks: seq<Mark>) {
    exists start: nat :: GaplessFrom(marks, start)
  }

  function Wholes(count: nat): seq<Mark> { seq(count, _ => Whole) }

  function MarkOver(item: ResponseItem, left: nat, meter: Meter): Mark {
    match Shorten(item, left, meter)
    case Some(shortened) => Shortened(shortened)
    case None => Dropped
  }

  lemma OneMoreWhole(marks: seq<Mark>, count: nat)
    ensures marks + Wholes(count) + [Whole] == marks + Wholes(count + 1)
  {
  }

  lemma {:induction false} NoneOverIsGapless(items: seq<ResponseItem>, remaining: nat, meter: Meter)
    requires FirstOver(items, remaining, meter).None?
    ensures IsGapless(Marks(items, remaining, meter))
  {
    var marks := Marks(items, remaining, meter);
    if items == [] {
      assert GaplessFrom(marks, 0);
    } else if remaining == 0 {
      NothingKeptIsGapless(items, meter);
    } else {
      var older := Marks(items[..|items| - 1], remaining - Charge(items[|items| - 1], meter), meter);
      NoneOverIsGapless(items[..|items| - 1], remaining - Charge(items[|items| - 1], meter), meter);
      var start: nat :| GaplessFrom(older, start);
      assert marks == older + [Whole] && GaplessFrom(marks, start);
    }
  }

  /** The marks before the message over budget, and its own; what is older depends on whether it was shortened. */
  function MarksUpTo(items: seq<ResponseItem>, at: nat, left: nat, meter: Meter): seq<Mark>
    requires at < |items|
  {
    var mark := MarkOver(items[at], left, meter);
    Marks(items[..at], if mark.Shortened? then 0 else left, meter) + [mark]
  }

  lemma MarksUpToFront(items: seq<ResponseItem>, at: nat, left: nat, meter: Meter)
    requires at < |items| - 1
    ensures MarksUpTo(items[..|items| - 1], at, left, meter) == MarksUpTo(items, at, left, meter)
  {
    assert items[..|items| - 1][..at] == items[..at];
  }

  /** Behind the newest message over budget everything is whole. */
  lemma {:induction false} MarksAroundFirstOver(items: seq<ResponseItem>, remaining: nat, meter: Meter, at: nat, left: nat)
    requires FirstOver(items, remaining, meter) == Some((at, left))
    ensures Marks(items, remaining, meter) == MarksUpTo(items, at, left, meter) + Wholes(|items| - at - 1)
  {
    var front, last := items[..|items| - 1], items[|items| - 1];
    if Charge(last, meter) <= remaining {
      var older := Marks(front, remaining - Charge(last, meter), meter);
      MarksAroundFirstOver(front, remaining - Charge(last, meter), meter, at, left);
      MarksUpToFront(items, at, left, meter);
      OneMoreWhole(MarksUpTo(front, at, left, meter), |front| - at - 1);
      assert Marks(items, remaining, meter) == older + [Whole];
    } else {
      assert Wholes(0) == [] && MarksUpTo(items, at, left, meter) + [] == MarksUpTo(items, at, left, meter);
    }
  }

  /**
   For any meter, nothing is skipped exactly if the newest message over budget can be shortened, or
   no older message is kept.
   */
  lemma GaplessExactlyWhen(items: seq<ResponseItem>, budget: nat, meter: Meter)
    ensures IsGapless(Marks(items, budget, meter)) <==>
      match FirstOver(items, budget, meter)
      case None => true
      case Some((at, left)) =>
        Shorten(items[at], left, meter).Some? || AllDropped(Marks(items[..at], left, meter))
  {
    match FirstOver(items, budget, meter)
    case None => NoneOverIsGapless(items, budget, meter);
    case Some((at, left)) =>
      MarksAroundFirstOver(items, budget, meter, at, left);
      var mark := MarkOver(items[at], left, meter);
      var older := Marks(items[..at], if mark.Shortened? then 0 else left, meter);
      assert MarksUpTo(items, at, left, meter) == older + [mark];
      GaplessAround(older, mark, |items| - at - 1);
      NothingKeptIsGapless(items[..at], meter);
  }

  lemma GaplessAround(older: seq<Mark>, mark: Mark, count: nat)
    requires !mark.Whole?
    ensures IsGapless(older + [mark] + Wholes(count)) <==> AllDropped(older)
  {
    var marks := older + [mark] + Wholes(count);
    if AllDropped(older) {
      assert GaplessFrom(marks, |older| + 1);
    }
    if IsGapless(marks) {
      var start: nat :| GaplessFrom(marks, start);
      assert marks[|older|] == mark && forall k :: |older| < k < |marks| ==> marks[k].Whole?;
      assert forall i :: 0 <= i < |older| ==> marks[i] == older[i];
    }
  }

  /** The token count and the truncator that are linked into the bridge. */
  function LinkedMeter(): Meter {
    Meter((text: string) => ApproxTokenCount(text), (text: string, budget: nat) => TruncateToTokens(text, budget))
  }

  lemma LinkedMeterIsGentle()
    ensures Gentle(LinkedMeter())
  {
    forall text: string, budget: nat | text != ""
      ensures LinkedMeter().truncate(text, budget) != ""
    {
      TruncationLeavesText(text, budget);
    }
  }

  // ---------------------------------------------------------------- the whole history

  /** Where the retained messages are. */
  function RetainedAt(items: seq<ResponseItem>): seq<nat> {
    if items == [] then [] else
    RetainedAt(items[..|items| - 1]) + (if IsRetained(items[|items| - 1]) then [|items| - 1] else [])
  }

  /** The retained messages are taken from increasing positions, all of them user, developer or system messages. */
  lemma {:induction false} RetainedInOrder(items: seq<ResponseItem>)
    ensures var at := RetainedAt(items);
      && |at| == |Retained(items)|
      && (forall i :: 0 <= i < |at| ==> at[i] < |items| && IsRetained(items[at[i]]) && Retained(items)[i] == items[at[i]])
      && (forall i, j :: 0 <= i < j < |at| ==> at[i] < at[j])
  {
    if items != [] {
      RetainedInOrder(items[..|items| - 1]);
    }
  }

  /** And none of those is left out. */
  lemma {:induction false} EveryRetainedIsTaken(items: seq<ResponseItem>, k: nat)
    requires k < |items| && IsRetained(items[k])
    ensures k in RetainedAt(items)
  {
    var front := RetainedAt(items[..|items| - 1]);
    if k < |items| - 1 {
      EveryRetainedIsTaken(items[..|items| - 1], k);
      assert k in front;
    } else {
      assert (front + [k])[|front|] == k;
    }
  }

  /**
   For any meter: the compacted history is an in-order selection of retained messages followed by the
   compaction item; the messages kept whole are charged at most the budget, at most one message is
   shortened, and nothing older than it is kept.
   */
  lemma CompactedHistoryShape(items: seq<ResponseItem>, compaction: ResponseItem, meter: Meter)
    ensures var retained := Retained(items);
      var marks, history := Marks(retained, RETAINED_MESSAGE_TOKEN_BUDGET, meter), CompactedHistory(items, compaction, meter);
      && history == Selected(retained, marks) + [compaction]
      && WholeCharge(retained, marks, meter) <= RETAINED_MESSAGE_TOKEN_BUDGET
      && (forall i, j :: 0 <= i < j < |marks| && marks[j].Shortened? ==> marks[i].Dropped?)
  {
    var retained := Retained(items);
    var marks := Marks(retained, RETAINED_MESSAGE_TOKEN_BUDGET, meter);
    WholeWithinBudget(retained, RETAINED_MESSAGE_TOKEN_BUDGET, meter);
    forall i, j | 0 <= i < j < |marks| && marks[j].Shortened?
      ensures marks[i].Dropped?
    {
      ShortenedIsOldest(retained, RETAINED_MESSAGE_TOKEN_BUDGET, meter, i, j);
    }
  }

  lemma GentleHistoryIsGapless(items: seq<ResponseItem>, meter: Meter) returns (start: nat)
    requires Gentle(meter)
    ensures GaplessFrom(Marks(Retained(items), RETAINED_MESSAGE_TOKEN_BUDGET, meter), start)
    ensures var retained, marks := Retained(items), Marks(Retained(items), RETAINED_MESSAGE_TOKEN_BUDGET, meter);
      start > 0 ==> RETAINED_MESSAGE_TOKEN_BUDGET < WholeCharge(retained, marks, meter) + Charge(retained[start - 1], meter)
  {
    RetainedInOrder(items);
    start := WholeMessagesAreNewest(Retained(items), RETAINED_MESSAGE_TOKEN_BUDGET, meter);
  }

  /**
   As linked, for every input: the messages kept whole are the newest of the retained ones without a
   gap, the next one would not fit, and it is the only one that may appear shortened.
   */
  lemma CompactedHistoryIsGapless(items: seq<ResponseItem>) returns (start: nat)
    ensures var retained, meter := Retained(items), LinkedMeter();
      var marks := Marks(retained, RETAINED_MESSAGE_TOKEN_BUDGET, meter);
      && GaplessFrom(marks, start)
      && (start > 0 ==>
          RETAINED_MESSAGE_TOKEN_BUDGET < WholeCharge(retained, marks, meter) + Charge(retained[start - 1], meter))
  {
    LinkedMeterIsGentle();
    start := GentleHistoryIsGapless(items, LinkedMeter());
  }

  // ---------------------------------------------------------------- the loops

  function Reverse(items: seq<ResponseItem>): seq<ResponseItem> {
    if items == [] then [] else [items[|items| - 1]] + Reverse(items[..|items| - 1])
  }

  lemma ReverseAppend(items: seq<ResponseItem>, more: seq<ResponseItem>)
    requires |more| <= 1
    ensures Reverse(items + more) == more + Reverse(items)
  {
    if more == [] {
      assert items + more == items;
    } else {
      assert (items + more)[..|items|] == items;
    }
  }

  /** What a message contributes, seen from the newest one, and what it leaves of the budget. */
  function Contribution(item: ResponseItem, remaining: nat, meter: Meter): (seq<ResponseItem>, nat) {
    if remaining == 0 then ([], 0) else
    if Charge(item, meter) <= remaining then ([item], remaining - Charge(item, meter)) else
    match Shorten(item, remaining, meter)
    case Some(shortened) => ([shortened], 0)
    case None => ([], remaining)
  }

  lemma KeptAt(items: seq<ResponseItem>, i: nat, remaining: nat, meter: Meter)
    requires i < |items|
    ensures var (part, left) := Contribution(items[i], remaining, meter);
      Kept(items[..i + 1], remaining, meter) == Kept(items[..i], left, meter) + part
  {
    var front, last, marks := items[..i], items[i], Marks(items[..i + 1], remaining, meter);
    var (part, left) := Contribution(last, remaining, meter);
    assert items[..i + 1][..i] == front;
    assert marks[..i] == Marks(front, left, meter);
    assert Result(last, marks[i]) == part;
  }

  lemma ConcatAssociates(a: seq<ResponseItem>, b: seq<ResponseItem>, c: seq<ResponseItem>)
    ensures a + b + c == a + (b + c)
  {
  }

  lemma KeptWithReversed(items: seq<ResponseItem>, i: nat, remaining: nat, reversed: seq<ResponseItem>, meter: Meter)
    requires i < |items|
    ensures var (part, left) := Contribution(items[i], remaining, meter);
      Kept(items[..i + 1], remaining, meter) + Reverse(reversed) == Kept(items[..i], left, meter) + Reverse(reversed + part)
  {
    var (part, left) := Contribution(items[i], remaining, meter);
    KeptAt(items, i, remaining, meter);
    ReverseAppend(reversed, part);
    ConcatAssociates(Kept(items[..i], left, meter), part, Reverse(reversed));
  }

  method TruncateRetained(items: seq<ResponseItem>, maxTokens: nat, meter: Meter) returns (kept: seq<ResponseItem>)
    ensures kept == Kept(items, maxTokens, meter)
  {
    var remaining, reversed := maxTokens, [];
    assert items[..|items|] == items;
    for i := |items| downto 0
      invariant Kept(items[..i], remaining, meter) + Reverse(reversed) == Kept(items, maxTokens, meter)
    {
      KeptWithReversed(items, i, remaining, reversed, meter);
      var part, left := KeepMessage(items[i], remaining, meter);
      reversed := reversed + part;
      remaining := left;
    }
    kept := Reverse(reversed);
  }

  /** One turn of the loop: what is pushed for a message, if anything, and the budget after it. */
  method KeepMessage(item: ResponseItem, remaining: nat, meter: Meter) returns (part: seq<ResponseItem>, left: nat)
    ensures (part, left) == Contribution(item, remaining, meter) && |part| <= 1
  {
    if remaining == 0 {
      return [], 0;
    }
    var charge := Charge(item, meter);
    if charge <= remaining {
      return [item], remaining - charge;
    }
    var shortened := ShortenMessage(item, remaining, meter);
    if shortened.Some? {
      return [shortened.value], 0;
    }
    return [], remaining;
  }

  method BuildCompactedHistory(items: seq<ResponseItem>, compaction: ResponseItem, meter: Meter) returns (history: seq<ResponseItem>)
    ensures history == CompactedHistory(items, compaction, meter)
  {
    var retained := [];
    for i := 0 to |items|
      invariant retained == Retained(items[..i])
    {
      assert items[..i + 1][..i] == items[..i];
      if IsRetained(items[i]) {
        retained := retained + [items[i]];
      }
    }
    assert items[..|items|] == items;
    var kept := TruncateRetained(retained, RETAINED_MESSAGE_TOKEN_BUDGET, meter);
    history := kept + [compaction];
  }
}
