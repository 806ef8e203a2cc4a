/**
 From a measured response back to the estimate of a later request: what the provider records when
 a request completes, and when the hook that prepares the next request may rely on it.
 */
module BaselineAlignment {
  import opened Outcomes
  import opened ContextAccounting

  type Item = string

  /** The two kinds of values that are digested: a list of input items, and the instructions. */
  datatype Json = Items(items: seq<Item>) | Text(text: string)

  ghost predicate Injective(digest: Json -> string) {
    forall a, b {:trigger digest(a), digest(b)} :: digest(a) == digest(b) ==> a == b
  }

  /** What a request remembers between its preparation and its completion. */
  datatype Attachment = Attachment(
    session: string, identity: Identity, generation: nat, inputItemCount: nat, inputDigest: string, instructionsDigest: string)

  function Attach(session: string, identity: Identity, generation: nat, input: seq<Item>, instructions: string, digest: Json -> string)
    : Attachment
  {
    Attachment(session, identity, generation, |input|, digest(Items(input)), digest(Text(instructions)))
  }

  /** A completed request whose response reported a total. */
  datatype Measurement = Measurement(
    request: nat, session: string, identity: Identity, input: seq<Item>, instructions: string, totalTokens: Number)

  datatype Baseline = Baseline(totalTokens: Number, minimumModelGeneratedIndex: nat)

  /** The stored usage is used only if it covers a prefix of this input under these instructions. */
  function Aligned(stored: Option<Usage>, input: seq<Item>, instructions: string, digest: Json -> string): Option<Baseline> {
    match stored
    case None => None
    case Some(usage) =>
      if && usage.instructionsDigest == digest(Text(instructions))
         && usage.inputItemCount.IsCount() && usage.inputItemCount.value <= |input|
         && digest(Items(input[..usage.inputItemCount.value])) == usage.inputDigest
      then Some(Baseline(usage.totalTokens, usage.inputItemCount.value)) else None
  }

  predicate Confirms(attachment: Attachment, input: seq<Item>, instructions: string, digest: Json -> string) {
    && |input| == attachment.inputItemCount && digest(Items(input)) == attachment.inputDigest
    && digest(Text(instructions)) == attachment.instructionsDigest
  }

  function Recording(attachment: Attachment, request: nat, totalTokens: Number): Event {
    Record(attachment.session, attachment.identity, attachment.generation, request,
           Usage(totalTokens, Integral(attachment.inputItemCount), attachment.inputDigest, attachment.instructionsDigest))
  }

  // ---------------------------------------------------------------- all interleavings of requests

  /** Requests in flight over one store; `measured` tells which completed request each recording came from. */
  datatype Provider = Provider(
    history: seq<Event>, prepared: map<nat, Attachment>, attached: map<nat, Attachment>, measured: map<nat, Measurement>)

  const START := Provider([], map[], map[], map[])

  datatype Step =
    | Prepare(request: nat, session: string, identity: Identity, input: seq<Item>, instructions: string)
    | Approve(request: nat)
    | Compact(request: nat, rewritten: seq<Item>, instructions: string)
    | Complete(request: nat, input: seq<Item>, instructions: string, totalTokens: Option<Number>)
    | Forget(event: Event)

  function Advance(p: Provider, step: Step, digest: Json -> string): Provider {
    match step
    case Prepare(request, session, identity, input, instructions) =>
      var h := p.history + [Snapshot(session, identity)];
      p.(history := h,
         prepared := p.prepared[request := Attach(session, identity, Generation(h, session), input, instructions, digest)])
    case Approve(request) =>
      if request in p.prepared then p.(attached := p.attached[request := p.prepared[request]]) else p
    case Compact(request, rewritten, instructions) =>
      if request !in p.prepared then p else
      var was := p.prepared[request];
      var h := p.history + [Invalidate(was.session)] + [Snapshot(was.session, was.identity)];
      p.(history := h,
         attached := p.attached[request :=
           Attach(was.session, was.identity, Generation(h, was.session), rewritten, instructions, digest)])
    case Complete(request, input, instructions, total) =>
      if request !in p.attached || total.None? || !Confirms(p.attached[request], input, instructions, digest) then p else
      var a := p.attached[request];
      p.(history := p.history + [Recording(a, request, total.value)],
         attached := p.attached - {request},
         measured := p.measured[|p.history| := Measurement(request, a.session, a.identity, input, instructions, total.value)])
    case Forget(event) =>
      if event.Invalidate? || event.Dispose? || event.DisposeAll? then p.(history := p.history + [event]) else p
  }

  function Progress(p: Provider, steps: seq<Step>, digest: Json -> string): Provider
    decreases |steps|
  {
    if steps == [] then p else Advance(Progress(p, steps[..|steps| - 1], digest), steps[|steps| - 1], digest)
  }

  /** A recording says what its request measured. */
  predicate Attests(event: Event, m: Measurement, digest: Json -> string) {
    && event.Record? && event.session == m.session && event.identity == m.identity && event.requestGeneration == m.request
    && event.usage == Usage(m.totalTokens, Integral(|m.input|), digest(Items(m.input)), digest(Text(m.instructions)))
  }

  ghost predicate Traced(p: Provider, digest: Json -> string) {
    && (forall i :: 0 <= i < |p.history| && p.history[i].Record? ==>
          i in p.measured && Attests(p.history[i], p.measured[i], digest))
    && (forall i :: i in p.measured ==> i < |p.history|)
  }

  lemma AdvanceTraced(p: Provider, step: Step, digest: Json -> string)
    requires Traced(p, digest)
    ensures Traced(Advance(p, step, digest), digest)
  {
  }

  lemma {:induction false} ProgressTraced(p: Provider, steps: seq<Step>, digest: Json -> string)
    requires Traced(p, digest)
    ensures Traced(Progress(p, steps, digest), digest)
    decreases |steps|
  {
    if steps != [] {
      ProgressTraced(p, steps[..|steps| - 1], digest);
      AdvanceTraced(Progress(p, steps[..|steps| - 1], digest), steps[|steps| - 1], digest);
    }
  }

  /** The measurement behind a baseline: the best one that still counts, and it covers a prefix of the input. */
  ghost predicate MeasuredFor(
    p: Provider, i: nat, baseline: Baseline, session: string, identity: Identity, input: seq<Item>, instructions: string)
  {
    && IsBest(p.history, session, identity, i) && i in p.measured
    && var m := p.measured[i];
       && m.session == session && m.identity == identity && m.instructions == instructions
       && m.totalTokens == baseline.totalTokens && m.input <= input
       && |m.input| == baseline.minimumModelGeneratedIndex
  }

  /**
   In every interleaving of requests, compactions and invalidations: a baseline is handed to the
   estimator exactly when the best recording that still counts for the session and identity was
   measured for a completed request under the same instructions whose whole input is a prefix of the
   input now estimated. The baseline is then that request's measurement.
   */
  lemma BaselineWasMeasured(steps: seq<Step>, prepare: Step, digest: Json -> string)
    requires prepare.Prepare? && Injective(digest)
    ensures var p := Advance(Progress(START, steps, digest), prepare, digest);
      var baseline := Aligned(UsageKept(p.history, prepare.session, prepare.identity), prepare.input, prepare.instructions, digest);
      && (baseline.Some? ==> exists i: nat ::
            MeasuredFor(p, i, baseline.value, prepare.session, prepare.identity, prepare.input, prepare.instructions))
      && ((exists i: nat, candidate ::
            MeasuredFor(p, i, candidate, prepare.session, prepare.identity, prepare.input, prepare.instructions)) ==> baseline.Some?)
  {
    var p := Advance(Progress(START, steps, digest), prepare, digest);
    ProgressTraced(START, steps, digest);
    AdvanceTraced(Progress(START, steps, digest), prepare, digest);
    KeptIsBest(p.history, prepare.session, prepare.identity);
    match Kept(p.history, prepare.session, prepare.identity)
    case None =>
    case Some(i) =>
      var m := p.measured[i];
      var baseline := Aligned(Some(p.history[i].usage), prepare.input, prepare.instructions, digest);
      if baseline.Some? {
        assert digest(Items(prepare.input[..|m.input|])) == digest(Items(m.input));
        assert digest(Text(prepare.instructions)) == digest(Text(m.instructions));
        assert MeasuredFor(p, i, baseline.value, prepare.session, prepare.identity, prepare.input, prepare.instructions);
      }
      forall j: nat, candidate |
        MeasuredFor(p, j, candidate, prepare.session, prepare.identity, prepare.input, prepare.instructions)
        ensures baseline.Some?
      {
        BestIsUnique(p.history, prepare.session, prepare.identity, i, j);
        assert prepare.input[..|m.input|] == m.input;
      }
  }

  // ---------------------------------------------------------------- over the store itself

  /** What the hook does before it asks for an estimate. */
  method PrepareRequest(
    store: CodexCompactionStore, session: string, identity: Identity, input: seq<Item>, instructions: string, digest: Json -> string)
    returns (attachment: Attachment, baseline: Option<Baseline>)
    requires store.Valid()
    modifies store
    ensures store.Valid() && store.history == old(store.history) + [Snapshot(session, identity)]
    ensures AllWellNamed(store.history) ==>
      && attachment == Attach(session, identity, Generation(store.history, session), input, instructions, digest)
      && baseline == Aligned(UsageKept(store.history, session, identity), input, instructions, digest)
  {
    var generation, stored := store.Account(session, identity);
    attachment := Attachment(session, identity, generation, |input|, digest(Items(input)), digest(Text(instructions)));
    baseline := None;
    if stored.Some? {
      var usage := stored.value;
      if usage.instructionsDigest == attachment.instructionsDigest && usage.inputItemCount.IsCount() {
        var count := usage.inputItemCount.value;
        if count <= |input| && digest(Items(input[..count])) == usage.inputDigest {
          baseline := Some(Baseline(usage.totalTokens, count));
        }
      }
    }
  }

  /** What the provider does once the response has completed. */
  method CompleteRequest(
    store: CodexCompactionStore, attachment: Attachment, request: nat, input: seq<Item>, instructions: string,
    totalTokens: Option<Number>, digest: Json -> string)
    returns (recorded: bool)
    requires store.Valid()
    modifies store
    ensures store.Valid()
    ensures store.history == old(store.history)
      + if totalTokens.Some? && Confirms(attachment, input, instructions, digest)
        then [Recording(attachment, request, totalTokens.value)] else []
    ensures recorded ==> totalTokens.Some?
    ensures recorded && AllWellNamed(store.history) ==>
      UsageKept(store.history, attachment.session, attachment.identity) == Some(Recording(attachment, request, totalTokens.value).usage)
  {
    if totalTokens.None? || |input| != attachment.inputItemCount || digest(Items(input)) != attachment.inputDigest
       || digest(Text(instructions)) != attachment.instructionsDigest {
      return false;
    }
    recorded := store.RecordUsage(
      attachment.session, attachment.identity, attachment.generation, request,
      Usage(totalTokens.value, Integral(attachment.inputItemCount), attachment.inputDigest, attachment.instructionsDigest));
  }
}
