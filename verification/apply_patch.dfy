/**
 Applying an update hunk to a file: locating every chunk with a moving cursor, sorting the
 replacements by position, and splicing them into the line list from last to first.
 */
module ApplyPatch {
  import opened Outcomes

  type Line = string

  /** The four comparison passes of the line search, from strict to lenient. */
  datatype Pass = Exact | TrimEnd | Trim | Normalised

  /** What a lenient pass compares instead of the line itself. Any function will do. */
  type Canon = (Pass, Line) -> Line

  datatype Chunk = Chunk(changeContext: Option<Line>, oldLines: seq<Line>, newLines: seq<Line>, isEndOfFile: bool)

  datatype PatchError = ContextNotFound(context: Line) | LinesNotFound(lines: seq<Line>) | SpliceOutOfRange

  datatype Replacement = Replacement(start: nat, oldLen: nat, newLines: seq<Line>) {
    function End(): nat { start + oldLen }
  }

  // ---------------------------------------------------------------- searching

  function Key(canon: Canon, pass: Pass, line: Line): Line {
    if pass.Exact? then line else canon(pass, line)
  }

  predicate MatchesAt(canon: Canon, pass: Pass, lines: seq<Line>, pattern: seq<Line>, at: nat)
    requires at + |pattern| <= |lines|
  {
    forall k | 0 <= k < |pattern| :: Key(canon, pass, lines[at + k]) == Key(canon, pass, pattern[k])
  }

  function FirstMatch(canon: Canon, pass: Pass, lines: seq<Line>, pattern: seq<Line>, from: nat): (hit: Option<nat>)
    ensures hit.Some? ==> from <= hit.value && hit.value + |pattern| <= |lines|
    decreases |lines| - from
  {
    if from + |pattern| > |lines| then None
    else if MatchesAt(canon, pass, lines, pattern, from) then Some(from)
    else if from == |lines| then None
    else FirstMatch(canon, pass, lines, pattern, from + 1)
  }

  /** The search finds the first matching position at or after `from`, or there is none. */
  lemma {:induction false} FirstMatchIsLeast(
      canon: Canon, pass: Pass, lines: seq<Line>, pattern: seq<Line>, from: nat, at: nat)
    requires from <= at && at + |pattern| <= |lines| && MatchesAt(canon, pass, lines, pattern, at)
    ensures var hit := FirstMatch(canon, pass, lines, pattern, from);
            hit.Some? && hit.value <= at && MatchesAt(canon, pass, lines, pattern, hit.value)
    decreases at - from
  {
    if !MatchesAt(canon, pass, lines, pattern, from) {
      FirstMatchIsLeast(canon, pass, lines, pattern, from + 1, at);
    }
  }

  /** The search of one pass, told without recursion. */
  ghost predicate IsFirstIn(canon: Canon, pass: Pass, lines: seq<Line>, pattern: seq<Line>, from: nat, at: nat) {
    && from <= at && at + |pattern| <= |lines| && MatchesAt(canon, pass, lines, pattern, at)
    && MatchesNowhere(canon, pass, lines, pattern, from, at)
  }

  ghost predicate MatchesNowhere(canon: Canon, pass: Pass, lines: seq<Line>, pattern: seq<Line>, from: nat, to: nat) {
    forall k | from <= k < to && k + |pattern| <= |lines| :: !MatchesAt(canon, pass, lines, pattern, k)
  }

  lemma {:induction false} FirstMatchIsFirst(canon: Canon, pass: Pass, lines: seq<Line>, pattern: seq<Line>, from: nat)
    ensures match FirstMatch(canon, pass, lines, pattern, from)
            case Some(at) => IsFirstIn(canon, pass, lines, pattern, from, at)
            case None => NoMatch(canon, pass, lines, pattern, from)
    decreases |lines| - from
  {
    if from + |pattern| <= |lines| && !MatchesAt(canon, pass, lines, pattern, from) && from < |lines| {
      FirstMatchIsFirst(canon, pass, lines, pattern, from + 1);
    }
  }

  ghost predicate NoMatch(canon: Canon, pass: Pass, lines: seq<Line>, pattern: seq<Line>, from: nat) {
    MatchesNowhere(canon, pass, lines, pattern, from, |lines| + 1)
  }

  predicate Stricter(a: Pass, b: Pass) {
    (a.Exact? && !b.Exact?) || (a.TrimEnd? && (b.Trim? || b.Normalised?)) || (a.Trim? && b.Normalised?)
  }

  ghost predicate IsBestIn(canon: Canon, pass: Pass, lines: seq<Line>, pattern: seq<Line>, from: nat, at: nat) {
    && IsFirstIn(canon, pass, lines, pattern, from, at)
    && forall other | Stricter(other, pass) :: NoMatch(canon, other, lines, pattern, from)
  }

  /** The first match of the strictest pass that matches anywhere; no hit means that no pass matches anywhere. */
  ghost predicate IsBestHit(canon: Canon, lines: seq<Line>, pattern: seq<Line>, from: nat, hit: Option<nat>) {
    match hit
    case None => forall pass :: NoMatch(canon, pass, lines, pattern, from)
    case Some(at) => exists pass :: IsBestIn(canon, pass, lines, pattern, from, at)
  }

  lemma AnyPassIsBestHit(canon: Canon, lines: seq<Line>, pattern: seq<Line>, from: nat)
    ensures IsBestHit(canon, lines, pattern, from, FirstMatchAnyPass(canon, lines, pattern, from))
  {
    var hit := FirstMatchAnyPass(canon, lines, pattern, from);
    FirstMatchIsFirst(canon, Exact, lines, pattern, from);
    if FirstMatch(canon, Exact, lines, pattern, from).Some? {
      assert IsBestIn(canon, Exact, lines, pattern, from, hit.value);
      return;
    }
    FirstMatchIsFirst(canon, TrimEnd, lines, pattern, from);
    if FirstMatch(canon, TrimEnd, lines, pattern, from).Some? {
      assert IsBestIn(canon, TrimEnd, lines, pattern, from, hit.value);
      return;
    }
    FirstMatchIsFirst(canon, Trim, lines, pattern, from);
    if FirstMatch(canon, Trim, lines, pattern, from).Some? {
      assert IsBestIn(canon, Trim, lines, pattern, from, hit.value);
      return;
    }
    FirstMatchIsFirst(canon, Normalised, lines, pattern, from);
    if hit.Some? {
      assert IsBestIn(canon, Normalised, lines, pattern, from, hit.value);
    } else {
      forall pass: Pass
        ensures NoMatch(canon, pass, lines, pattern, from)
      {
        match pass
        case Exact =>
        case TrimEnd =>
        case Trim =>
        case Normalised =>
      }
    }
  }

  function FirstMatchAnyPass(canon: Canon, lines: seq<Line>, pattern: seq<Line>, from: nat): Option<nat> {
    var exact := FirstMatch(canon, Exact, lines, pattern, from);
    if exact.Some? then exact else
    var trimEnd := FirstMatch(canon, TrimEnd, lines, pattern, from);
    if trimEnd.Some? then trimEnd else
    var trim := FirstMatch(canon, Trim, lines, pattern, from);
    if trim.Some? then trim else
    FirstMatch(canon, Normalised, lines, pattern, from)
  }

  /** An end-of-file search starts at the last position the pattern fits, wherever the cursor is. */
  function SeekSequence(canon: Canon, lines: seq<Line>, pattern: seq<Line>, start: nat, eof: bool): Option<nat>
    decreases eof
  {
    if pattern == [] then Some(start)
    else if |pattern| > |lines| then None
    else
      var hit := FirstMatchAnyPass(canon, lines, pattern, if eof then |lines| - |pattern| else start);
      if hit.Some? then hit
      else if eof then SeekSequence(canon, lines, pattern, start, false)
      else None
  }

  /** Exactly which end-of-file hits fall before the cursor: those whose pattern no longer fits after it. */
  lemma SeekHitPosition(canon: Canon, lines: seq<Line>, pattern: seq<Line>, start: nat, eof: bool)
    requires start <= |lines|
    requires SeekSequence(canon, lines, pattern, start, eof).Some?
    ensures var hit := SeekSequence(canon, lines, pattern, start, eof).value;
            && hit + |pattern| <= |lines|
            && (hit < start <==> eof && start + |pattern| > |lines|)
            && (hit < start ==> hit == |lines| - |pattern|)
  {
    if pattern != [] && |pattern| <= |lines| {
      var from := if eof then |lines| - |pattern| else start;
      var hit := FirstMatchAnyPass(canon, lines, pattern, from);
      if hit.None? && eof {
        SeekHitPosition(canon, lines, pattern, start, false);
      }
    }
  }

  // ---------------------------------------------------------------- computing replacements

  function SkipContext(canon: Canon, lines: seq<Line>, chunk: Chunk, cursor: nat): Option<nat> {
    match chunk.changeContext
    case None => Some(cursor)
    case Some(context) =>
      match SeekSequence(canon, lines, [context], cursor, false)
      case None => None
      case Some(index) => Some(index + 1)
  }

  function DropBlankTail(lines: seq<Line>): seq<Line> {
    if lines != [] && lines[|lines| - 1] == "" then lines[..|lines| - 1] else lines
  }

  /** The chunk's old lines, retried without a trailing blank line when they are not found as given. */
  function Locate(canon: Canon, lines: seq<Line>, chunk: Chunk, cursor: nat): Option<Replacement> {
    match SeekSequence(canon, lines, chunk.oldLines, cursor, chunk.isEndOfFile)
    case Some(start) => Some(Replacement(start, |chunk.oldLines|, chunk.newLines))
    case None =>
      var pattern := DropBlankTail(chunk.oldLines);
      if pattern == chunk.oldLines then None else
      match SeekSequence(canon, lines, pattern, cursor, chunk.isEndOfFile)
      case None => None
      case Some(start) => Some(Replacement(start, |pattern|, DropBlankTail(chunk.newLines)))
  }

  lemma {:induction false} FirstMatchMatches(canon: Canon, pass: Pass, lines: seq<Line>, pattern: seq<Line>, from: nat)
    requires FirstMatch(canon, pass, lines, pattern, from).Some?
    ensures MatchesAt(canon, pass, lines, pattern, FirstMatch(canon, pass, lines, pattern, from).value)
    decreases |lines| - from
  {
    if !MatchesAt(canon, pass, lines, pattern, from) {
      FirstMatchMatches(canon, pass, lines, pattern, from + 1);
    }
  }

  ghost predicate MatchesSomehow(canon: Canon, lines: seq<Line>, pattern: seq<Line>, at: nat) {
    at + |pattern| <= |lines| && exists pass :: MatchesAt(canon, pass, lines, pattern, at)
  }

  lemma {:induction false} SeekHitMatches(canon: Canon, lines: seq<Line>, pattern: seq<Line>, start: nat, eof: bool)
    requires start <= |lines| && SeekSequence(canon, lines, pattern, start, eof).Some?
    ensures MatchesSomehow(canon, lines, pattern, SeekSequence(canon, lines, pattern, start, eof).value)
    decreases eof
  {
    if pattern == [] {
      assert MatchesAt(canon, Exact, lines, pattern, start);
    } else {
      var from := if eof then |lines| - |pattern| else start;
      var hit := FirstMatchAnyPass(canon, lines, pattern, from);
      if hit.Some? {
        var pass :| FirstMatch(canon, pass, lines, pattern, from) == hit;
        FirstMatchMatches(canon, pass, lines, pattern, from);
      } else {
        SeekHitMatches(canon, lines, pattern, start, false);
      }
    }
  }

  /** What a replacement owes its chunk: lines that match the old ones, and the new ones; or both without a blank last line. */
  ghost predicate Serves(canon: Canon, lines: seq<Line>, chunk: Chunk, r: Replacement) {
    if chunk.oldLines == [] then r == Replacement(|lines|, 0, chunk.newLines) else
    || (r.oldLen == |chunk.oldLines| && r.newLines == chunk.newLines
        && MatchesSomehow(canon, lines, chunk.oldLines, r.start))
    || (chunk.oldLines[|chunk.oldLines| - 1] == "" && r.oldLen == |chunk.oldLines| - 1
        && r.newLines == DropBlankTail(chunk.newLines)
        && MatchesSomehow(canon, lines, chunk.oldLines[..|chunk.oldLines| - 1], r.start))
  }

  lemma LocatedLinesServe(canon: Canon, lines: seq<Line>, chunk: Chunk, cursor: nat)
    requires cursor <= |lines| && chunk.oldLines != [] && Locate(canon, lines, chunk, cursor).Some?
    ensures Serves(canon, lines, chunk, Locate(canon, lines, chunk, cursor).value)
  {
    if SeekSequence(canon, lines, chunk.oldLines, cursor, chunk.isEndOfFile).Some? {
      SeekHitMatches(canon, lines, chunk.oldLines, cursor, chunk.isEndOfFile);
    } else {
      SeekHitMatches(canon, lines, DropBlankTail(chunk.oldLines), cursor, chunk.isEndOfFile);
    }
  }

  /** The replacements in chunk order, before they are sorted. */
  function Walk(canon: Canon, lines: seq<Line>, chunks: seq<Chunk>, cursor: nat): Result<seq<Replacement>, PatchError> {
    if chunks == [] then Ok([]) else
    var chunk := chunks[0];
    match SkipContext(canon, lines, chunk, cursor)
    case None => Err(ContextNotFound(chunk.changeContext.value))
    case Some(index) =>
      if chunk.oldLines == [] then
        Prepend(Replacement(|lines|, 0, chunk.newLines), Walk(canon, lines, chunks[1..], index))
      else
        match Locate(canon, lines, chunk, index)
        case None => Err(LinesNotFound(chunk.oldLines))
        case Some(r) => Prepend(r, Walk(canon, lines, chunks[1..], r.End()))
  }

  function Prepend(r: Replacement, rest: Result<seq<Replacement>, PatchError>): Result<seq<Replacement>, PatchError> {
    if rest.Ok? then Ok([r] + rest.value) else rest
  }

  function InsertByStart(r: Replacement, sorted: seq<Replacement>): seq<Replacement> {
    if sorted == [] || r.start <= sorted[0].start then [r] + sorted
    else [sorted[0]] + InsertByStart(r, sorted[1..])
  }

  /** The library's stable sort by start position. */
  function StableSort(rs: seq<Replacement>): seq<Replacement> {
    if rs == [] then [] else InsertByStart(rs[0], StableSort(rs[1..]))
  }

  function ComputeReplacementsSpec(canon: Canon, lines: seq<Line>, chunks: seq<Chunk>)
    : Result<seq<Replacement>, PatchError>
  {
    var walked := Walk(canon, lines, chunks, 0);
    if walked.Ok? then Ok(StableSort(walked.value)) else walked
  }

  /** Without a context the cursor stays; otherwise it moves just past the best hit at or after it, if there is one. */
  method SkipToContext(canon: Canon, lines: seq<Line>, chunk: Chunk, cursor: nat) returns (index: Option<nat>)
    ensures index == SkipContext(canon, lines, chunk, cursor)
    ensures chunk.changeContext.None? ==> index == Some(cursor)
    ensures chunk.changeContext.Some? ==>
              && (index.Some? ==> index.value > cursor)
              && IsBestHit(canon, lines, [chunk.changeContext.value], cursor,
                           if index.Some? then Some(index.value - 1) else None)
  {
    if chunk.changeContext.Some? {
      AnyPassIsBestHit(canon, lines, [chunk.changeContext.value], cursor);
      var hit := SeekSequence(canon, lines, [chunk.changeContext.value], cursor, false);
      return if hit.Some? then Some(hit.value + 1) else None;
    }
    return Some(cursor);
  }

  method LocateOldLines(canon: Canon, lines: seq<Line>, chunk: Chunk, cursor: nat) returns (r: Option<Replacement>)
    requires chunk.oldLines != []
    ensures r == Locate(canon, lines, chunk, cursor)
  {
    var pattern, replacement := chunk.oldLines, chunk.newLines;
    var found := SeekSequence(canon, lines, pattern, cursor, chunk.isEndOfFile);
    if found.None? && pattern[|pattern| - 1] == "" {
      assert |DropBlankTail(chunk.oldLines)| < |chunk.oldLines|;
      pattern := pattern[..|pattern| - 1];
      if replacement != [] && replacement[|replacement| - 1] == "" {
        replacement := replacement[..|replacement| - 1];
      }
      found := SeekSequence(canon, lines, pattern, cursor, chunk.isEndOfFile);
    }
    return if found.Some? then Some(Replacement(found.value, |pattern|, replacement)) else None;
  }

  /** The source's loop: a cursor over the lines and a growing list of replacements. */
  method ComputeReplacements(canon: Canon, lines: seq<Line>, chunks: seq<Chunk>)
    returns (result: Result<seq<Replacement>, PatchError>)
    ensures result == ComputeReplacementsSpec(canon, lines, chunks)
  {
    var replacements: seq<Replacement> := [];
    var lineIndex: nat := 0;
    assert chunks[0..] == chunks;
    for i := 0 to |chunks|
      invariant Walk(canon, lines, chunks, 0) == PrependAll(replacements, Walk(canon, lines, chunks[i..], lineIndex))
    {
      var chunk := chunks[i];
      assert chunks[i..][0] == chunk && chunks[i..][1..] == chunks[i + 1..];
      WalkCases(canon, lines, chunks[i..], lineIndex, replacements);
      var index := SkipToContext(canon, lines, chunk, lineIndex);
      if index.None? {
        return Err(ContextNotFound(chunk.changeContext.value));
      }
      lineIndex := index.value;
      if chunk.oldLines == [] {
        replacements := replacements + [Replacement(|lines|, 0, chunk.newLines)];
        continue;
      }
      var found := LocateOldLines(canon, lines, chunk, lineIndex);
      if found.None? {
        return Err(LinesNotFound(chunk.oldLines));
      }
      replacements := replacements + [found.value];
      lineIndex := found.value.End();
    }
    assert replacements + [] == replacements;
    result := Ok(StableSort(replacements));
  }

  ghost function PrependAll(done: seq<Replacement>, rest: Result<seq<Replacement>, PatchError>)
    : (all: Result<seq<Replacement>, PatchError>)
    ensures done == [] ==> all == rest
  {
    assert rest.Ok? ==> [] + rest.value == rest.value;
    if rest.Ok? then Ok(done + rest.value) else rest
  }

  /** The walk from a chunk on, with the replacements found before it in front. */
  lemma WalkCases(canon: Canon, lines: seq<Line>, chunks: seq<Chunk>, cursor: nat, done: seq<Replacement>)
    requires chunks != []
    ensures var chunk, index := chunks[0], SkipContext(canon, lines, chunks[0], cursor);
            PrependAll(done, Walk(canon, lines, chunks, cursor)) ==
            if index.None? then Err(ContextNotFound(chunk.changeContext.value))
            else if chunk.oldLines == [] then
              PrependAll(done + [Replacement(|lines|, 0, chunk.newLines)], Walk(canon, lines, chunks[1..], index.value))
            else match Locate(canon, lines, chunk, index.value)
              case None => Err(LinesNotFound(chunk.oldLines))
              case Some(r) => PrependAll(done + [r], Walk(canon, lines, chunks[1..], r.End()))
  {
    var chunk, index := chunks[0], SkipContext(canon, lines, chunks[0], cursor);
    if index.Some? {
      if chunk.oldLines == [] {
        PrependStep(done, Replacement(|lines|, 0, chunk.newLines), Walk(canon, lines, chunks[1..], index.value));
      } else {
        var r := Locate(canon, lines, chunk, index.value);
        if r.Some? {
          PrependStep(done, r.value, Walk(canon, lines, chunks[1..], r.value.End()));
        }
      }
    }
  }

  lemma PrependStep(done: seq<Replacement>, r: Replacement, rest: Result<seq<Replacement>, PatchError>)
    ensures PrependAll(done, Prepend(r, rest)) == PrependAll(done + [r], rest)
  {
    if rest.Ok? {
      assert done + ([r] + rest.value) == done + [r] + rest.value;
    }
  }

  // ---------------------------------------------------------------- order and overlap

  ghost predicate SortedByStart(rs: seq<Replacement>) {
    forall i, j | 0 <= i < j < |rs| :: rs[i].start <= rs[j].start
  }

  /** Every replaced range ends before the next one begins. */
  ghost predicate NonOverlapping(rs: seq<Replacement>) {
    forall i, j | 0 <= i < j < |rs| :: rs[i].End() <= rs[j].start
  }

  ghost predicate InBounds(rs: seq<Replacement>, n: nat) {
    forall i | 0 <= i < |rs| :: rs[i].End() <= n
  }

  function WithStart(rs: seq<Replacement>, key: nat): seq<Replacement> {
    if rs == [] then []
    else (if rs[0].start == key then [rs[0]] else []) + WithStart(rs[1..], key)
  }

  lemma {:induction false} InsertKeepsOrder(r: Replacement, sorted: seq<Replacement>)
    requires SortedByStart(sorted)
    ensures SortedByStart(InsertByStart(r, sorted))
  {
    if sorted != [] && r.start > sorted[0].start {
      var rest := sorted[1..];
      SortedTail(sorted[0], rest);
      InsertKeepsOrder(r, rest);
      InsertKeepsMembers(r, rest);
      SortedCons(sorted[0], InsertByStart(r, rest));
    } else if sorted != [] {
      SortedTail(sorted[0], sorted[1..]);
      assert sorted == [sorted[0]] + sorted[1..];
      SortedCons(r, sorted);
    }
  }

  lemma SortedCons(r: Replacement, s: seq<Replacement>)
    requires SortedByStart(s) && forall x | x in s :: r.start <= x.start
    ensures SortedByStart([r] + s)
  {
  }

  lemma {:induction false} InsertKeepsGroups(r: Replacement, sorted: seq<Replacement>, key: nat)
    ensures WithStart(InsertByStart(r, sorted), key) == WithStart([r] + sorted, key)
  {
    assert ([r] + sorted)[1..] == sorted;
    if sorted != [] && r.start > sorted[0].start {
      var rest := sorted[1..];
      InsertKeepsGroups(r, rest, key);
      assert ([r] + rest)[1..] == rest;
      assert ([sorted[0]] + InsertByStart(r, rest))[1..] == InsertByStart(r, rest);
    }
  }

  /** The sort orders by start and, for every start, keeps the equal ones in their original order. */
  lemma {:induction false} StableSortCorrect(rs: seq<Replacement>, key: nat)
    ensures SortedByStart(StableSort(rs))
    ensures WithStart(StableSort(rs), key) == WithStart(rs, key)
  {
    if rs != [] {
      StableSortCorrect(rs[1..], key);
      InsertKeepsOrder(rs[0], StableSort(rs[1..]));
      InsertKeepsGroups(rs[0], StableSort(rs[1..]), key);
      assert ([rs[0]] + StableSort(rs[1..]))[1..] == StableSort(rs[1..]);
    }
  }

  /** The replacements that start before the end of the file; the others are insertions at its end. */
  function Inner(rs: seq<Replacement>, n: nat): seq<Replacement> {
    if rs == [] then []
    else (if rs[0].start < n then [rs[0]] else []) + Inner(rs[1..], n)
  }

  /** The replaced ranges lie between `from` and `n`, each after the one before. */
  ghost predicate Chain(rs: seq<Replacement>, from: nat, n: nat) {
    if rs == [] then from <= n
    else from <= rs[0].start && rs[0].End() <= n && Chain(rs[1..], rs[0].End(), n)
  }

  lemma {:induction false} ChainIsPairwise(rs: seq<Replacement>, from: nat, n: nat)
    requires Chain(rs, from, n)
    ensures from <= n && NonOverlapping(rs) && InBounds(rs, n) && forall i | 0 <= i < |rs| :: from <= rs[i].start
  {
    if rs != [] {
      ChainIsPairwise(rs[1..], rs[0].End(), n);
      assert forall i | 0 < i < |rs| :: rs[i] == rs[1..][i - 1];
    }
  }

  lemma {:induction false} PairwiseIsChain(rs: seq<Replacement>, from: nat, n: nat)
    requires from <= n && NonOverlapping(rs) && InBounds(rs, n) && (rs != [] ==> from <= rs[0].start)
    ensures Chain(rs, from, n)
  {
    if rs != [] {
      var rest := rs[1..];
      assert forall i | 0 <= i < |rest| :: rest[i] == rs[i + 1];
      PairwiseIsChain(rest, rs[0].End(), n);
    }
  }

  /**
   At every end-of-file chunk the pattern still fits between the last range already replaced
   (`barrier`) and the end of the file.
   */
  ghost predicate EofHitsClear(canon: Canon, lines: seq<Line>, chunks: seq<Chunk>, cursor: nat, barrier: nat) {
    chunks == [] ||
    var chunk, rest := chunks[0], chunks[1..];
    match SkipContext(canon, lines, chunk, cursor)
    case None => true
    case Some(index) =>
      if chunk.oldLines == [] then EofHitsClear(canon, lines, rest, index, barrier) else
      match Locate(canon, lines, chunk, index)
      case None => true
      case Some(r) =>
        && (chunk.isEndOfFile ==> barrier + r.oldLen <= |lines|)
        && EofHitsClear(canon, lines, rest, r.End(), if r.start < |lines| then r.End() else barrier)
  }

  lemma SkipContextBounds(canon: Canon, lines: seq<Line>, chunk: Chunk, cursor: nat)
    requires cursor <= |lines|
    ensures var c := SkipContext(canon, lines, chunk, cursor); c.Some? ==> cursor <= c.value <= |lines|
  {
    if chunk.changeContext.Some? {
      var context := [chunk.changeContext.value];
      if SeekSequence(canon, lines, context, cursor, false).Some? {
        SeekHitPosition(canon, lines, context, cursor, false);
      }
    }
  }

  /** An accepted chunk list yields one replacement a chunk, in chunk order, each of lines that match its chunk. */
  lemma {:induction false} EveryChunkIsServed(canon: Canon, lines: seq<Line>, chunks: seq<Chunk>, cursor: nat, i: nat)
    requires cursor <= |lines| && Walk(canon, lines, chunks, cursor).Ok? && i < |chunks|
    ensures |Walk(canon, lines, chunks, cursor).value| == |chunks|
    ensures Serves(canon, lines, chunks[i], Walk(canon, lines, chunks, cursor).value[i])
    decreases |chunks|
  {
    var chunk := chunks[0];
    SkipContextBounds(canon, lines, chunk, cursor);
    var index := SkipContext(canon, lines, chunk, cursor).value;
    var next := index;
    if chunk.oldLines != [] {
      LocateBounds(canon, lines, chunk, index);
      LocatedLinesServe(canon, lines, chunk, index);
      next := Locate(canon, lines, chunk, index).value.End();
    }
    if |chunks| > 1 {
      EveryChunkIsServed(canon, lines, chunks[1..], next, if i == 0 then 0 else i - 1);
    }
  }

  lemma LocateBounds(canon: Canon, lines: seq<Line>, chunk: Chunk, cursor: nat)
    requires cursor <= |lines|
    requires Locate(canon, lines, chunk, cursor).Some?
    ensures var r := Locate(canon, lines, chunk, cursor).value;
            && r.End() <= |lines|
            && (r.start < cursor ==> chunk.isEndOfFile && r.End() == |lines|)
  {
    if SeekSequence(canon, lines, chunk.oldLines, cursor, chunk.isEndOfFile).Some? {
      SeekHitPosition(canon, lines, chunk.oldLines, cursor, chunk.isEndOfFile);
    } else {
      SeekHitPosition(canon, lines, DropBlankTail(chunk.oldLines), cursor, chunk.isEndOfFile);
    }
  }

  /** One step of the walk: the replacement it emits, where it leaves the cursor, what it asks of the barrier. */
  lemma WalkStep(canon: Canon, lines: seq<Line>, chunks: seq<Chunk>, cursor: nat)
    returns (index: nat, r: Replacement, next: nat)
    requires cursor <= |lines| && chunks != []
    requires Walk(canon, lines, chunks, cursor).Ok?
    ensures cursor <= index <= next && r.End() <= |lines| && next <= |lines|
    ensures Walk(canon, lines, chunks[1..], next).Ok?
    ensures Walk(canon, lines, chunks, cursor).value == [r] + Walk(canon, lines, chunks[1..], next).value
    ensures chunks[0].oldLines == [] ==> next == index && r.start == |lines| && r.oldLen == 0
    ensures chunks[0].oldLines != [] ==> next == r.End()
    ensures chunks[0].oldLines != [] && r.start < index ==> chunks[0].isEndOfFile && r.End() == |lines|
    ensures forall barrier: nat :: EofHitsClear(canon, lines, chunks, cursor, barrier) <==>
              && (chunks[0].oldLines != [] && chunks[0].isEndOfFile ==> barrier + r.oldLen <= |lines|)
              && EofHitsClear(canon, lines, chunks[1..], next, if r.start < |lines| then r.End() else barrier)
  {
    var chunk := chunks[0];
    SkipContextBounds(canon, lines, chunk, cursor);
    index := SkipContext(canon, lines, chunk, cursor).value;
    if chunk.oldLines == [] {
      r, next := Replacement(|lines|, 0, chunk.newLines), index;
    } else {
      LocateBounds(canon, lines, chunk, index);
      r := Locate(canon, lines, chunk, index).value;
      next := r.End();
    }
  }

  lemma {:induction false} WalkInBounds(canon: Canon, lines: seq<Line>, chunks: seq<Chunk>, cursor: nat)
    requires cursor <= |lines|
    requires Walk(canon, lines, chunks, cursor).Ok?
    ensures InBounds(Walk(canon, lines, chunks, cursor).value, |lines|)
  {
    if chunks != [] {
      var _, _, next := WalkStep(canon, lines, chunks, cursor);
      WalkInBounds(canon, lines, chunks[1..], next);
    }
  }

  /** With clear end-of-file hits the walk's inner replacements form a chain. */
  lemma {:induction false} WalkChains(canon: Canon, lines: seq<Line>, chunks: seq<Chunk>, cursor: nat, barrier: nat)
    requires barrier <= cursor <= |lines|
    requires Walk(canon, lines, chunks, cursor).Ok?
    requires EofHitsClear(canon, lines, chunks, cursor, barrier)
    ensures Chain(Inner(Walk(canon, lines, chunks, cursor).value, |lines|), barrier, |lines|)
  {
    if chunks != [] {
      var index, r, next := WalkStep(canon, lines, chunks, cursor);
      assert barrier <= r.start;
      WalkChains(canon, lines, chunks[1..], next, if r.start < |lines| then r.End() else barrier);
      var rest := Walk(canon, lines, chunks[1..], next).value;
      InnerOfPrepend(r, rest, |lines|);
      if r.start < |lines| {
        ChainOfPrepend(r, Inner(rest, |lines|), barrier, |lines|);
      } else {
        assert [] + Inner(rest, |lines|) == Inner(rest, |lines|);
      }
    }
  }

  lemma InnerOfPrepend(r: Replacement, rs: seq<Replacement>, n: nat)
    ensures Inner([r] + rs, n) == (if r.start < n then [r] else []) + Inner(rs, n)
  {
    assert ([r] + rs)[1..] == rs;
  }

  lemma ChainOfPrepend(r: Replacement, rs: seq<Replacement>, from: nat, n: nat)
    requires from <= r.start && r.End() <= n && Chain(rs, r.End(), n)
    ensures Chain([r] + rs, from, n)
  {
    assert ([r] + rs)[1..] == rs;
  }

  /** Two ranges conflict when neither lies before the other, whichever way round they are sorted. */
  ghost predicate Conflict(a: Replacement, b: Replacement) {
    a.End() > b.start && b.End() > a.start
  }

  ghost predicate Conflicted(rs: seq<Replacement>) {
    exists i, j :: 0 <= i < j < |rs| && Conflict(rs[i], rs[j])
  }

  lemma {:induction false} InsertKeepsMembers(r: Replacement, s: seq<Replacement>)
    ensures forall x :: x in InsertByStart(r, s) <==> x == r || x in s
  {
    if s != [] && r.start > s[0].start {
      InsertKeepsMembers(r, s[1..]);
      assert s == [s[0]] + s[1..];
    }
  }

  lemma ConflictAtHead(r: Replacement, s: seq<Replacement>, x: Replacement)
    requires x in s && Conflict(r, x)
    ensures Conflicted([r] + s)
  {
    var k :| 0 <= k < |s| && s[k] == x;
    assert ([r] + s)[0] == r && ([r] + s)[k + 1] == x;
  }

  lemma ConflictInTail(r: Replacement, s: seq<Replacement>)
    requires Conflicted(s)
    ensures Conflicted([r] + s)
  {
    var i, j :| 0 <= i < j < |s| && Conflict(s[i], s[j]);
    assert ([r] + s)[i + 1] == s[i] && ([r] + s)[j + 1] == s[j];
  }

  lemma {:induction false} InsertKeepsConflict(r: Replacement, s: seq<Replacement>)
    requires Conflicted([r] + s)
    ensures Conflicted(InsertByStart(r, s))
  {
    if s != [] && r.start > s[0].start {
      var rest := s[1..];
      var all := [r] + s;
      var i, j :| 0 <= i < j < |all| && Conflict(all[i], all[j]);
      InsertKeepsMembers(r, rest);
      if i == 1 || j == 1 {
        var x := if i == 1 then all[j] else all[i];
        assert x in InsertByStart(r, rest);
        ConflictAtHead(s[0], InsertByStart(r, rest), x);
      } else {
        var tail := [r] + rest;
        assert forall k | 1 < k < |all| :: all[k] == tail[k - 1];
        assert Conflict(tail[if i == 0 then 0 else i - 1], tail[j - 1]);
        InsertKeepsConflict(r, rest);
        ConflictInTail(s[0], InsertByStart(r, rest));
      }
    }
  }

  lemma {:induction false} SortKeepsConflict(rs: seq<Replacement>)
    requires Conflicted(rs)
    ensures Conflicted(StableSort(rs))
  {
    var rest := rs[1..];
    var sorted := StableSort(rest);
    var i, j :| 0 <= i < j < |rs| && Conflict(rs[i], rs[j]);
    assert forall k | 0 < k < |rs| :: rs[k] == rest[k - 1];
    if i == 0 {
      SortKeepsMembers(rest);
      assert rs[j] in rest;
      ConflictAtHead(rs[0], sorted, rs[j]);
    } else {
      assert Conflict(rest[i - 1], rest[j - 1]);
      SortKeepsConflict(rest);
      ConflictInTail(rs[0], sorted);
    }
    InsertKeepsConflict(rs[0], sorted);
  }

  lemma {:induction false} SortKeepsMembers(rs: seq<Replacement>)
    ensures forall x :: x in StableSort(rs) <==> x in rs
  {
    if rs != [] {
      SortKeepsMembers(rs[1..]);
      InsertKeepsMembers(rs[0], StableSort(rs[1..]));
      assert rs == [rs[0]] + rs[1..];
    }
  }

  /** An end-of-file hit below the barrier conflicts with the range that set the barrier. */
  lemma {:induction false} UnclearWalkConflicts(
      canon: Canon, lines: seq<Line>, chunks: seq<Chunk>, cursor: nat, last: Option<Replacement>)
    requires cursor <= |lines|
    requires last.Some? ==> last.value.start < |lines| && last.value.End() <= cursor
    requires Walk(canon, lines, chunks, cursor).Ok?
    requires !EofHitsClear(canon, lines, chunks, cursor, if last.Some? then last.value.End() else 0)
    ensures var rs := Walk(canon, lines, chunks, cursor).value;
            Conflicted(if last.Some? then [last.value] + rs else rs)
  {
    var index, r, next := WalkStep(canon, lines, chunks, cursor);
    var tail := Walk(canon, lines, chunks[1..], next).value;
    var rs := [r] + tail;
    if chunks[0].oldLines != [] && chunks[0].isEndOfFile && last.Some? && last.value.End() + r.oldLen > |lines| {
      assert Conflict(last.value, r);
      ConflictAtHead(last.value, rs, r);
    } else if r.start < |lines| {
      UnclearWalkConflicts(canon, lines, chunks[1..], next, Some(r));
      if last.Some? {
        ConflictInTail(last.value, rs);
      }
    } else {
      UnclearWalkConflicts(canon, lines, chunks[1..], next, last);
      if last.Some? {
        WidenConflict(last.value, r, tail);
      } else {
        ConflictInTail(r, tail);
      }
    }
  }

  lemma WidenConflict(head: Replacement, r: Replacement, tail: seq<Replacement>)
    requires Conflicted([head] + tail)
    ensures Conflicted([head] + ([r] + tail))
  {
    var before := [head] + tail;
    var i, j :| 0 <= i < j < |before| && Conflict(before[i], before[j]);
    if i == 0 {
      assert tail[j - 1] in [r] + tail;
      ConflictAtHead(head, [r] + tail, tail[j - 1]);
    } else {
      ConflictAt(tail, i - 1, j - 1);
      ConflictInTail(r, tail);
      ConflictInTail(head, [r] + tail);
    }
  }

  lemma ConflictAt(rs: seq<Replacement>, i: nat, j: nat)
    requires i < j < |rs| && Conflict(rs[i], rs[j])
    ensures Conflicted(rs)
  {
  }

  /** The stable sort only has to move the insertions at the end of the file behind the rest. */
  lemma {:induction false} SortMovesEndInsertionsLast(rs: seq<Replacement>, from: nat, n: nat)
    requires InBounds(rs, n)
    requires Chain(Inner(rs, n), from, n)
    ensures StableSort(rs) == Inner(rs, n) + WithStart(rs, n)
  {
    if rs != [] {
      var r, rest := rs[0], rs[1..];
      assert r.End() <= n;
      assert InBounds(rest, n) by {
        assert forall i | 0 <= i < |rest| :: rest[i] == rs[i + 1];
      }
      if r.start < n {
        assert Inner(rs, n)[1..] == Inner(rest, n);
        SortMovesEndInsertionsLast(rest, r.End(), n);
      } else {
        assert [] + Inner(rest, n) == Inner(rest, n);
        SortMovesEndInsertionsLast(rest, from, n);
      }
      StartsAt(rest, n);
      if r.start < n {
        ChainIsSorted(Inner(rest, n), r.End(), n);
      }
      SortMovesStep(r, Inner(rest, n), WithStart(rest, n), n);
    }
  }

  lemma SortMovesStep(r: Replacement, front: seq<Replacement>, back: seq<Replacement>, n: nat)
    requires forall x | x in front :: x.start < n && (r.start < n ==> r.start <= x.start)
    requires forall x | x in back :: x.start == n
    requires r.start <= n
    ensures InsertByStart(r, front + back) ==
            (if r.start < n then [r] else []) + front + ((if r.start == n then [r] else []) + back)
  {
    if r.start < n {
      InsertInFront(r, front + back);
      assert [r] + (front + back) == [r] + front + ([] + back);
    } else {
      InsertBehind(r, front, back);
      assert front + [r] + back == [] + front + ([r] + back);
    }
  }

  lemma SortedTail(r: Replacement, front: seq<Replacement>)
    requires SortedByStart([r] + front)
    ensures SortedByStart(front) && forall x | x in front :: r.start <= x.start
  {
    var all := [r] + front;
    assert forall i | 0 <= i < |front| :: front[i] == all[i + 1];
    forall x | x in front ensures r.start <= x.start {
      var i :| 0 <= i < |front| && front[i] == x;
      assert all[0].start <= all[i + 1].start;
    }
  }

  lemma InsertInFront(r: Replacement, s: seq<Replacement>)
    requires forall x | x in s :: r.start <= x.start
    ensures InsertByStart(r, s) == [r] + s
  {
    if s != [] {
      assert s[0] in s;
    }
  }

  lemma StartsAt(rs: seq<Replacement>, n: nat)
    ensures forall x | x in WithStart(rs, n) :: x.start == n
    ensures forall x | x in Inner(rs, n) :: x.start < n
  {
  }

  lemma {:induction false} InsertBehind(r: Replacement, front: seq<Replacement>, back: seq<Replacement>)
    requires forall x | x in front :: x.start < r.start
    requires forall x | x in back :: x.start == r.start
    ensures InsertByStart(r, front + back) == front + [r] + back
  {
    if front == [] {
      assert front + back == back;
    } else {
      assert (front + back)[1..] == front[1..] + back;
      InsertBehind(r, front[1..], back);
      assert front == [front[0]] + front[1..];
    }
  }

  lemma {:induction false} ChainIsSorted(rs: seq<Replacement>, from: nat, n: nat)
    requires Chain(rs, from, n)
    ensures SortedByStart(rs)
    ensures forall x | x in rs :: from <= x.start
  {
    if rs != [] {
      ChainIsSorted(rs[1..], rs[0].End(), n);
      assert rs == [rs[0]] + rs[1..];
    }
  }

  lemma {:induction false} ChainAppendsEndInsertions(rs: seq<Replacement>, ends: seq<Replacement>, from: nat, n: nat)
    requires Chain(rs, from, n)
    requires forall x | x in ends :: x.start == n && x.oldLen == 0
    ensures Chain(rs + ends, from, n)
  {
    if rs != [] {
      ChainAppendsEndInsertions(rs[1..], ends, rs[0].End(), n);
      assert (rs + ends)[1..] == rs[1..] + ends;
    } else if ends != [] {
      ChainAppendsEndInsertions([], ends[1..], n, n);
      assert [] + ends == ends && [] + ends[1..] == ends[1..];
    }
  }

  /**
   Ordering theorem. Accepted replacements are always in bounds and sorted. They are pairwise
   non-overlapping exactly when every end-of-file chunk is clear of the ranges before it, and then
   the sorted list is the inner replacements in chunk order followed by the end-of-file insertions
   in chunk order.
   */
  lemma ReplacementsOrdered(canon: Canon, lines: seq<Line>, chunks: seq<Chunk>)
    requires ComputeReplacementsSpec(canon, lines, chunks).Ok?
    ensures var walked, sorted := Walk(canon, lines, chunks, 0).value, ComputeReplacementsSpec(canon, lines, chunks).value;
            && SortedByStart(sorted)
            && InBounds(sorted, |lines|)
            && (NonOverlapping(sorted) <==> EofHitsClear(canon, lines, chunks, 0, 0))
            && (NonOverlapping(sorted) <==> Chain(sorted, 0, |lines|))
            && (NonOverlapping(sorted) ==> sorted == Inner(walked, |lines|) + WithStart(walked, |lines|))
  {
    var n := |lines|;
    var walked := Walk(canon, lines, chunks, 0).value;
    var sorted := StableSort(walked);
    WalkInBounds(canon, lines, chunks, 0);
    StableSortCorrect(walked, 0);
    SortKeepsMembers(walked);
    forall i | 0 <= i < |sorted| ensures sorted[i].End() <= n {
      assert sorted[i] in walked;
    }
    if EofHitsClear(canon, lines, chunks, 0, 0) {
      WalkChains(canon, lines, chunks, 0, 0);
      SortMovesEndInsertionsLast(walked, 0, n);
      StartsAt(walked, n);
      forall x | x in WithStart(walked, n) ensures x.oldLen == 0 {
        WithStartMembers(walked, n);
      }
      ChainAppendsEndInsertions(Inner(walked, n), WithStart(walked, n), 0, n);
    } else {
      UnclearWalkConflicts(canon, lines, chunks, 0, None);
      SortKeepsConflict(walked);
    }
    if Chain(sorted, 0, n) {
      ChainIsPairwise(sorted, 0, n);
    }
    if NonOverlapping(sorted) {
      PairwiseIsChain(sorted, 0, n);
    }
  }

  lemma WithStartMembers(rs: seq<Replacement>, key: nat)
    ensures forall x | x in WithStart(rs, key) :: x in rs
  {
  }

  // ---------------------------------------------------------------- applying replacements

  function Splice(lines: seq<Line>, r: Replacement): Result<seq<Line>, PatchError> {
    if r.End() <= |lines| then Ok(lines[..r.start] + r.newLines + lines[r.End()..]) else Err(SpliceOutOfRange)
  }

  function SpliceReverse(lines: seq<Line>, rs: seq<Replacement>): Result<seq<Line>, PatchError> {
    if rs == [] then Ok(lines) else
    var later := SpliceReverse(lines, rs[1..]);
    if later.Ok? then Splice(later.value, rs[0]) else later
  }

  /** In place, from the last replacement to the first; a range past the end of the list panics. */
  method ApplyReplacements(original: seq<Line>, replacements: seq<Replacement>)
    returns (result: Result<seq<Line>, PatchError>)
    ensures result == SpliceReverse(original, replacements)
    ensures Chain(replacements, 0, |original|) ==> result == Ok(ForwardRebuild(original, replacements, 0))
  {
    ghost var n := |original|;
    if Chain(replacements, 0, n) {
      SpliceReverseRebuilds(original, replacements, 0);
    }
    var lines := original;
    var i := |replacements|;
    while i > 0
      invariant 0 <= i <= |replacements|
      invariant SpliceReverse(original, replacements[i..]) == Ok(lines)
    {
      i := i - 1;
      assert replacements[i..][1..] == replacements[i + 1..];
      var r := replacements[i];
      if r.End() > |lines| {
        SpliceFailureSpreads(original, replacements, i);
        return Err(SpliceOutOfRange);
      }
      lines := lines[..r.start] + r.newLines + lines[r.start + r.oldLen..];
    }
    assert replacements[0..] == replacements;
    result := Ok(lines);
  }

  /**
   Splicing from last to first runs out of range exactly if some range ends behind the lines that are
   there when its turn comes: the original ones and what the later replacements added or took away.
   */
  lemma {:induction false} SpliceFitsExactlyWhen(lines: seq<Line>, rs: seq<Replacement>)
    ensures SpliceReverse(lines, rs).Ok? <==> forall i | 0 <= i < |rs| :: rs[i].End() <= |lines| + Growth(rs[i + 1..])
    ensures SpliceReverse(lines, rs).Ok? ==> |SpliceReverse(lines, rs).value| == |lines| + Growth(rs)
    ensures SpliceReverse(lines, rs).Err? ==> SpliceReverse(lines, rs) == Err(SpliceOutOfRange)
  {
    if rs != [] {
      SpliceFitsExactlyWhen(lines, rs[1..]);
      assert forall i | 0 < i < |rs| :: rs[i] == rs[1..][i - 1] && rs[i + 1..] == rs[1..][i..];
      assert rs[0 + 1..] == rs[1..];
      if SpliceReverse(lines, rs[1..]).Err? {
        var i :| 0 <= i < |rs| - 1 && rs[1..][i].End() > |lines| + Growth(rs[1..][i + 1..]);
        assert rs[i + 1].End() > |lines| + Growth(rs[i + 1 + 1..]);
      } else {
        assert forall i | 0 < i < |rs| :: rs[i].End() <= |lines| + Growth(rs[i + 1..]) by {
          forall i | 0 < i < |rs|
            ensures rs[i].End() <= |lines| + Growth(rs[i + 1..])
          {
            assert rs[1..][i - 1].End() <= |lines| + Growth(rs[1..][i - 1 + 1..]);
          }
        }
      }
    }
  }

  lemma {:induction false} SpliceFailureSpreads(lines: seq<Line>, rs: seq<Replacement>, i: nat)
    requires i <= |rs|
    requires SpliceReverse(lines, rs[i..]) == Err(SpliceOutOfRange)
    ensures SpliceReverse(lines, rs) == Err(SpliceOutOfRange)
    decreases i
  {
    if i == 0 {
      assert rs[0..] == rs;
    } else {
      assert rs[i - 1..][1..] == rs[i..];
      SpliceFailureSpreads(lines, rs, i - 1);
    }
  }

  /** All replacements at once, read off the original lines from left to right. */
  function ForwardRebuild(lines: seq<Line>, rs: seq<Replacement>, from: nat): seq<Line>
    requires Chain(rs, from, |lines|)
  {
    if rs == [] then lines[from..]
    else lines[from..rs[0].start] + rs[0].newLines + ForwardRebuild(lines, rs[1..], rs[0].End())
  }

  lemma {:induction false} SpliceReverseRebuilds(lines: seq<Line>, rs: seq<Replacement>, from: nat)
    requires Chain(rs, from, |lines|)
    ensures from <= |lines|
    ensures SpliceReverse(lines, rs) == Ok(lines[..from] + ForwardRebuild(lines, rs, from))
    ensures from == 0 ==> SpliceReverse(lines, rs) == Ok(ForwardRebuild(lines, rs, 0))
  {
    if rs == [] {
      assert lines == lines[..from] + lines[from..];
    } else {
      var r := rs[0];
      SpliceReverseRebuilds(lines, rs[1..], r.End());
      var later := ForwardRebuild(lines, rs[1..], r.End());
      var spliced := lines[..r.End()] + later;
      assert spliced[..r.start] == lines[..from] + lines[from..r.start];
      assert spliced[r.End()..] == later;
      assert lines[..from] + lines[from..r.start] + r.newLines + later
          == lines[..from] + (lines[from..r.start] + r.newLines + later);
    }
    assert from == 0 ==> lines[..from] + ForwardRebuild(lines, rs, from) == ForwardRebuild(lines, rs, 0);
  }

  /** How far a line at position `at` moves: what the ranges ending at or before it grow or shrink by. */
  function Shift(rs: seq<Replacement>, at: nat): int {
    if rs == [] then 0
    else (if rs[0].End() <= at then |rs[0].newLines| - rs[0].oldLen else 0) + Shift(rs[1..], at)
  }

  ghost predicate Outside(rs: seq<Replacement>, at: nat) {
    forall i | 0 <= i < |rs| :: at < rs[i].start || rs[i].End() <= at
  }

  lemma {:induction false} ShiftBefore(rs: seq<Replacement>, from: nat, n: nat, at: nat)
    requires Chain(rs, from, n) && at < from
    ensures Shift(rs, at) == 0
  {
    if rs != [] {
      ShiftBefore(rs[1..], rs[0].End(), n, at);
    }
  }

  /** Every line outside the replaced ranges is in the result, moved by exactly its shift. */
  lemma {:induction false} KeptLineLands(lines: seq<Line>, rs: seq<Replacement>, from: nat, at: nat)
    requires Chain(rs, from, |lines|)
    requires from <= at < |lines| && Outside(rs, at)
    ensures 0 <= at - from + Shift(rs, at) < |ForwardRebuild(lines, rs, from)|
    ensures ForwardRebuild(lines, rs, from)[at - from + Shift(rs, at)] == lines[at]
  {
    if rs != [] {
      var r, rest := rs[0], rs[1..];
      var kept, later := lines[from..r.start], ForwardRebuild(lines, rest, r.End());
      assert ForwardRebuild(lines, rs, from) == kept + r.newLines + later;
      if at < r.start {
        ShiftBefore(rest, r.End(), |lines|, at);
        IndexWithin(kept, r.newLines, later, at - from);
      } else {
        assert r.End() <= at;
        OutsideTail(rs, at);
        KeptLineLands(lines, rest, r.End(), at);
        IndexPast(kept + r.newLines, later, at - r.End() + Shift(rest, at));
      }
    }
  }

  lemma OutsideTail(rs: seq<Replacement>, at: nat)
    requires rs != [] && Outside(rs, at)
    ensures Outside(rs[1..], at)
  {
    assert forall i | 0 <= i < |rs[1..]| :: rs[1..][i] == rs[i + 1];
  }

  lemma IndexWithin(head: seq<Line>, middle: seq<Line>, tail: seq<Line>, k: int)
    requires 0 <= k < |head|
    ensures (head + middle + tail)[k] == head[k]
  {
  }

  lemma IndexPast(head: seq<Line>, tail: seq<Line>, k: int)
    requires 0 <= k < |tail|
    ensures (head + tail)[|head| + k] == tail[k]
  {
  }

  function Growth(rs: seq<Replacement>): int {
    if rs == [] then 0 else |rs[0].newLines| - rs[0].oldLen + Growth(rs[1..])
  }

  /** The i-th replacement's lines are in the result as one block, after the growth of those before it. */
  lemma {:induction false} ReplacementLands(lines: seq<Line>, rs: seq<Replacement>, from: nat, i: nat)
    requires Chain(rs, from, |lines|)
    requires i < |rs|
    ensures var at := rs[i].start - from + Growth(rs[..i]);
            && 0 <= at <= at + |rs[i].newLines| <= |ForwardRebuild(lines, rs, from)|
            && ForwardRebuild(lines, rs, from)[at..at + |rs[i].newLines|] == rs[i].newLines
  {
    var r, rest := rs[0], rs[1..];
    var head, later := lines[from..r.start] + r.newLines, ForwardRebuild(lines, rest, r.End());
    if i == 0 {
      assert Growth(rs[..0]) == 0;
      SliceOfMiddle(lines[from..r.start], r.newLines, later);
    } else {
      ReplacementLands(lines, rest, r.End(), i - 1);
      assert rs[..i][1..] == rest[..i - 1];
      SliceOfTail(head, later, rest[i - 1].start - r.End() + Growth(rest[..i - 1]), |rs[i].newLines|);
    }
  }

  lemma SliceOfMiddle(head: seq<Line>, middle: seq<Line>, tail: seq<Line>)
    ensures (head + middle + tail)[|head|..|head| + |middle|] == middle
  {
  }

  lemma SliceOfTail(head: seq<Line>, tail: seq<Line>, at: nat, len: nat)
    requires at + len <= |tail|
    ensures (head + tail)[|head| + at..|head| + at + len] == tail[at..at + len]
  {
  }

  lemma {:induction false} RebuiltLength(lines: seq<Line>, rs: seq<Replacement>, from: nat)
    requires Chain(rs, from, |lines|)
    ensures |ForwardRebuild(lines, rs, from)| == |lines| - from + Growth(rs)
  {
    if rs != [] {
      RebuiltLength(lines, rs[1..], rs[0].End());
    }
  }

  /**
   End to end: unless an end-of-file chunk reaches back into an earlier range, splicing in reverse
   gives the simultaneous rebuild.
   */
  lemma PatchedLines(canon: Canon, lines: seq<Line>, chunks: seq<Chunk>)
    requires ComputeReplacementsSpec(canon, lines, chunks).Ok?
    requires EofHitsClear(canon, lines, chunks, 0, 0)
    ensures var rs := ComputeReplacementsSpec(canon, lines, chunks).value;
            Chain(rs, 0, |lines|) && SpliceReverse(lines, rs) == Ok(ForwardRebuild(lines, rs, 0))
  {
    ReplacementsOrdered(canon, lines, chunks);
    var rs := ComputeReplacementsSpec(canon, lines, chunks).value;
    SpliceReverseRebuilds(lines, rs, 0);
  }

  /**
   The end-of-file condition is needed: a chunk that deletes the last line after another chunk has
   replaced it is accepted, overlaps, and splices out of range.
   */
  lemma EofHitCanOverlap(canon: Canon)
    ensures var lines := ["a", "b"];
            var chunks := [Chunk(None, ["a", "b"], ["x"], false), Chunk(None, ["b"], [], true)];
            var computed := ComputeReplacementsSpec(canon, lines, chunks);
            && computed == Ok([Replacement(0, 2, ["x"]), Replacement(1, 1, [])])
            && !NonOverlapping(computed.value)
            && SpliceReverse(lines, computed.value) == Err(SpliceOutOfRange)
  {
    var lines := ["a", "b"];
    var first, second := Chunk(None, ["a", "b"], ["x"], false), Chunk(None, ["b"], [], true);
    var r0, r1 := Replacement(0, 2, ["x"]), Replacement(1, 1, []);
    assert MatchesAt(canon, Exact, lines, ["a", "b"], 0);
    assert Locate(canon, lines, first, 0) == Some(r0);
    assert MatchesAt(canon, Exact, lines, ["b"], 1);
    assert FirstMatch(canon, Exact, lines, ["b"], 1) == Some(1);
    assert Locate(canon, lines, second, 2) == Some(r1);
    assert [second][1..] == [] && [first, second][1..] == [second];
    calc {
      Walk(canon, lines, [second], 2);
      Prepend(r1, Walk(canon, lines, [], 2));
      { assert [r1] + [] == [r1]; }
      Ok([r1]);
    }
    calc {
      Walk(canon, lines, [first, second], 0);
      Prepend(r0, Walk(canon, lines, [second], 2));
      { assert [r0] + [r1] == [r0, r1]; }
      Ok([r0, r1]);
    }
    assert [r0, r1][1..] == [r1] && [r1][1..] == [];
    assert StableSort([r1]) == [r1];
    assert !(r0.End() <= [r0, r1][1].start);
    assert SpliceReverse(lines, []) == Ok(lines);
    assert Splice(lines, r1) == Ok(["a"]) by {
      assert lines[..1] + [] + lines[2..] == ["a"];
    }
    assert SpliceReverse(lines, [r1]) == Ok(["a"]);
  }

  // ---------------------------------------------------------------- whole files

  function Split(text: string): (lines: seq<Line>)
    ensures |lines| >= 1
  {
    if text == "" then [""]
    else if text[0] == '\n' then [""] + Split(text[1..])
    else var rest := Split(text[1..]); [[text[0]] + rest[0]] + rest[1..]
  }

  function Join(lines: seq<Line>): string {
    if lines == [] then ""
    else if |lines| == 1 then lines[0]
    else lines[0] + "\n" + Join(lines[1..])
  }

  function EndWithBlank(lines: seq<Line>): seq<Line> {
    if lines != [] && lines[|lines| - 1] == "" then lines else lines + [""]
  }

  function DeriveNewContents(canon: Canon, original: string, chunks: seq<Chunk>): Result<string, PatchError> {
    var lines := DropBlankTail(Split(original));
    match ComputeReplacementsSpec(canon, lines, chunks)
    case Err(e) => Err(e)
    case Ok(rs) =>
      match SpliceReverse(lines, rs)
      case Err(e) => Err(e)
      case Ok(patched) => Ok(Join(EndWithBlank(patched)))
  }

  lemma {:induction false} JoinSplit(text: string)
    ensures Join(Split(text)) == text
  {
    if text != "" {
      JoinSplit(text[1..]);
      var rest := Split(text[1..]);
      if text[0] == '\n' {
        assert ([""] + rest)[1..] == rest;
      } else {
        var head := [[text[0]] + rest[0]];
        assert (head + rest[1..])[1..] == rest[1..];
      }
    }
  }

  lemma {:induction false} SplitNewlineTail(text: string)
    ensures Split(text + "\n") == Split(text) + [""]
  {
    if text == "" {
      assert ("" + "\n")[1..] == "";
    } else {
      assert (text + "\n")[1..] == text[1..] + "\n";
      SplitNewlineTail(text[1..]);
    }
  }

  lemma {:induction false} SplitLastLine(text: string)
    ensures Split(text)[|Split(text)| - 1] == "" <==> text == "" || text[|text| - 1] == '\n'
  {
    if text != "" {
      SplitLastLine(text[1..]);
    }
  }

  lemma {:induction false} JoinBlankTail(lines: seq<Line>)
    requires lines != []
    ensures Join(lines + [""]) == Join(lines) + "\n"
  {
    if |lines| > 1 {
      assert (lines + [""])[1..] == lines[1..] + [""];
      JoinBlankTail(lines[1..]);
    } else {
      assert (lines + [""])[1..] == [""];
    }
  }

  lemma JoinWithBlankTail(lines: seq<Line>)
    requires lines != [] && lines[|lines| - 1] == ""
    ensures Join(lines) == "" || Join(lines)[|Join(lines)| - 1] == '\n'
  {
    var front := lines[..|lines| - 1];
    assert lines == front + [""];
    if front != [] {
      JoinBlankTail(front);
    }
  }

  /** A patched file is empty or ends in a newline. */
  lemma PatchedFileEndsInNewline(canon: Canon, original: string, chunks: seq<Chunk>)
    requires DeriveNewContents(canon, original, chunks).Ok?
    ensures var text := DeriveNewContents(canon, original, chunks).value;
            text == "" || text[|text| - 1] == '\n'
  {
    var lines := DropBlankTail(Split(original));
    var rs := ComputeReplacementsSpec(canon, lines, chunks).value;
    var patched := EndWithBlank(SpliceReverse(lines, rs).value);
    assert DeriveNewContents(canon, original, chunks) == Ok(Join(patched));
    JoinWithBlankTail(patched);
  }

  /** An edit without chunks keeps the file exactly when it is empty or ends in one newline after a non-empty line. */
  lemma EmptyEditKeepsFile(canon: Canon, original: string)
    ensures DeriveNewContents(canon, original, []) == Ok(original) <==>
            original == "" || (|original| >= 2 && original[|original| - 1] == '\n' && original[|original| - 2] != '\n')
  {
    var split := Split(original);
    JoinSplit(original);
    SplitLastLine(original);
    assert DeriveNewContents(canon, original, []) == Ok(Join(EndWithBlank(DropBlankTail(split))));
    if original == "" {
      assert DropBlankTail([""]) == [];
    } else if original[|original| - 1] == '\n' {
      var text := original[..|original| - 1];
      assert original == text + "\n";
      SplitNewlineTail(text);
      assert DropBlankTail(split) == Split(text);
      JoinSplit(text);
      SplitLastLine(text);
    } else {
      JoinBlankTail(split);
    }
  }
}
