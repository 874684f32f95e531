/** Reading the capture index: the bounded tail, its lines, List and Stats (networkcapture/query.go). */
module CaptureQuery {
  import opened Text
  import opened CaptureDisk
  import opened CaptureLines
  import opened Sequences

  const MAXIMUM_LINE: nat := 0x40_0000       // 4 MiB
  const MAXIMUM_TAIL: nat := 0x400_0000      // 64 MiB
  const DEFAULT_LIMIT: nat := 100
  const MAXIMUM_LIMIT: nat := 500

  function TailOffset(size: nat): nat {
    if size > MAXIMUM_TAIL then size - MAXIMUM_TAIL else 0
  }

  /** The lines List and Stats look at. */
  function TailLines(b: Bytes): seq<Bytes> {
    var offset := TailOffset(|b|);
    var lines := Lines(b[offset..]);
    if offset > 0 then WithoutFirst(lines) else lines
  }

  /** They are trailing lines of the index, and all of them when the index is small enough. */
  lemma TailLinesAreSuffix(b: Bytes)
    ensures IsSuffix(TailLines(b), Lines(b))
    ensures |b| <= MAXIMUM_TAIL ==> TailLines(b) == Lines(b)
  {
    hide Lines;
    SeekThenSkipIsSuffix(b, TailOffset(|b|));
    assert b[0..] == b;
  }

  predicate Fits(lines: seq<Bytes>) {
    forall line :: line in lines ==> |line| < MAXIMUM_LINE
  }

  /** The scanner gives up on a line that does not fit its buffer, skipped or not. */
  predicate Scannable(b: Bytes) {
    Fits(Lines(b[TailOffset(|b|)..]))
  }

  // ---------------------------------------------------------------- matching

  /** A completedAfter of 0 is the zero time. */
  datatype Query = Query(limit: int, minimumStatus: int, status: int, outcome: string, urlContains: string,
                         completedAfter: int)

  predicate Matches(e: Summary, q: Query) {
    && !(q.completedAfter != 0 && e.completedAt < q.completedAfter)
    && !(q.status > 0 && e.status != q.status)
    && !(q.minimumStatus > 0 && e.status < q.minimumStatus)
    && (Trim(q.outcome) == "" || EqualFold(e.outcome, Trim(q.outcome)))
    && (Lower(Trim(q.urlContains)) == "" || Contains(Lower(e.url), Lower(Trim(q.urlContains))))
  }

  /** The matching entries, oldest first. */
  function Selected(es: seq<Summary>, q: Query): seq<Summary> {
    if es == [] then []
    else
      var before := Selected(es[..|es| - 1], q);
      if Matches(es[|es| - 1], q) then before + [es[|es| - 1]] else before
  }

  function Matching(lines: seq<Bytes>, q: Query, decode: Bytes -> Option<Summary>): seq<Summary> {
    Selected(Decoded(lines, decode), q)
  }

  lemma MatchingOneMore(lines: seq<Bytes>, line: Bytes, q: Query, decode: Bytes -> Option<Summary>)
    ensures Matching(lines + [line], q, decode) ==
            var entry := decode(line);
            if entry.Some? && Matches(entry.value, q) then Matching(lines, q, decode) + [entry.value]
            else Matching(lines, q, decode)
  {
    hide Matches;
    DecodedOneMore(lines, line, decode);
    var es := Decoded(lines, decode);
    if decode(line).Some? {
      assert (es + [decode(line).value])[..|es|] == es;
    } else {
      assert es + [] == es;
    }
  }

  function Last(es: seq<Summary>, n: nat): seq<Summary> {
    es[|es| - Min(n, |es|)..]
  }

  function EffectiveLimit(limit: int): (r: nat)
    ensures 1 <= r <= MAXIMUM_LIMIT
  {
    if limit <= 0 then DEFAULT_LIMIT else if limit > MAXIMUM_LIMIT then MAXIMUM_LIMIT else limit
  }

  predicate Newer(a: Summary, b: Summary) {
    a.completedAt >= b.completedAt
  }

  lemma NewerOrders()
    ensures TotalPreorder(Newer)
  {
  }

  ghost predicate NewestFirst(es: seq<Summary>) {
    Sorted(Newer, es)
  }

  /** A full window moves on by one, a window with room grows. */
  lemma LastOneMore(es: seq<Summary>, e: Summary, n: nat)
    requires n >= 1
    ensures Last(es + [e], n) == if |Last(es, n)| == n then Last(es, n)[1..] + [e] else Last(es, n) + [e]
  {
  }

  lemma WindowOneMore(lines: seq<Bytes>, line: Bytes, q: Query, decode: Bytes -> Option<Summary>, n: nat)
    requires n >= 1
    ensures var window := Last(Matching(lines, q, decode), n);
            var entry := decode(line);
            Last(Matching(lines + [line], q, decode), n) ==
            if entry.None? || !Matches(entry.value, q) then window
            else if |window| == n then window[1..] + [entry.value]
            else window + [entry.value]
  {
    hide Matches, Matching, Last;
    MatchingOneMore(lines, line, q, decode);
    if decode(line).Some? {
      LastOneMore(Matching(lines, q, decode), decode(line).value, n);
    }
  }

  lemma LastOfNone(q: Query, decode: Bytes -> Option<Summary>, n: nat)
    ensures Last(Matching([], q, decode), n) == []
  {
  }

  lemma LastLength(es: seq<Summary>, n: nat)
    ensures |Last(es, n)| == Min(n, |es|)
  {
  }

  lemma EmptyPage(n: nat)
    ensures Last([], n) == [] && Min(n, 0) == 0 && NewestFirst([])
  {
  }

  // -------------------------------------------------------------- operations

  datatype QueryError = LineTooLong

  /** Takes the next line off what is left of a file. */
  method ScanLine(rest: Bytes) returns (line: Bytes, tail: Bytes)
    requires rest != []
    ensures Lines(rest) == [line] + Lines(tail)
    ensures |tail| < |rest|
  {
    var n := 0;
    while n < |rest| && rest[n] != NEWLINE
      invariant 0 <= n <= |rest|
      invariant forall i :: 0 <= i < n ==> rest[i] != NEWLINE
    {
      n := n + 1;
    }
    LineEndUnique(rest, n);
    if n == |rest| {
      return rest, [];
    }
    return rest[..n], rest[n + 1..];
  }

  /** Seeks to the bounded tail and skips its first, possibly cut line; absent when that line is too long. */
  method SeekTail(b: Bytes) returns (r: Option<Bytes>)
    ensures r.Some? ==> Lines(r.value) == TailLines(b) && (Scannable(b) <==> Fits(TailLines(b)))
    ensures r.None? ==> !Scannable(b)
  {
    var offset := 0;
    if |b| > MAXIMUM_TAIL {
      offset := |b| - MAXIMUM_TAIL;
    }
    var rest := b[offset..];
    if offset == 0 {
      return Some(rest);
    }
    hide Lines;
    var line, tail := ScanLine(rest);
    assert WithoutFirst(Lines(rest)) == Lines(tail);
    assert line in Lines(rest);
    if |line| >= MAXIMUM_LINE {
      return None;
    }
    return Some(tail);
  }

  /** A line of the tail that is too long. */
  lemma TooLong(seen: seq<Bytes>, line: Bytes, left: seq<Bytes>)
    requires |line| >= MAXIMUM_LINE
    ensures !Fits(seen + ([line] + left))
  {
    assert line in seen + ([line] + left);
  }

  lemma SeenOneMore(seen: seq<Bytes>, line: Bytes, left: seq<Bytes>)
    ensures seen + ([line] + left) == (seen + [line]) + left
    ensures Fits(seen) && |line| < MAXIMUM_LINE ==> Fits(seen + [line])
  {
  }

  lemma AllSeen(seen: seq<Bytes>)
    ensures seen + Lines([]) == seen && Fits([])
  {
  }

  /** The page of newest matching entries; an absent index is an empty page. */
  method List(index: Option<Bytes>, q: Query, decode: Bytes -> Option<Summary>)
    returns (r: Result<seq<Summary>, QueryError>)
    ensures r.Ok? <==> index.None? || Scannable(index.value)
    ensures r.Ok? ==>
              var matching := if index.None? then [] else Matching(TailLines(index.value), q, decode);
              && multiset(r.value) == multiset(Last(matching, EffectiveLimit(q.limit)))
              && |r.value| == Min(EffectiveLimit(q.limit), |matching|)
              && NewestFirst(r.value)
  {
    hide *;
    if index.None? {
      EmptyPage(EffectiveLimit(q.limit));
      return Ok([]);
    }
    var sought := SeekTail(index.value);
    if sought.None? {
      return Err(LineTooLong);
    }
    var rest := sought.value;
    var limit := EffectiveLimit(q.limit);
    var result: seq<Summary> := [];
    ghost var seen: seq<Bytes> := [];
    LastOfNone(q, decode, limit);
    AllSeen([]);
    assert [] + Lines(rest) == Lines(rest);
    while rest != []
      invariant TailLines(index.value) == seen + Lines(rest)
      invariant Fits(seen)
      invariant result == Last(Matching(seen, q, decode), limit)
      decreases |rest|
    {
      var line;
      line, rest := ScanLine(rest);
      if |line| >= MAXIMUM_LINE {
        TooLong(seen, line, Lines(rest));
        return Err(LineTooLong);
      }
      WindowOneMore(seen, line, q, decode, limit);
      SeenOneMore(seen, line, Lines(rest));
      seen := seen + [line];
      var summary := decode(line);
      if summary.None? || !Matches(summary.value, q) {
        continue;
      }
      if |result| == limit {
        result := result[1..] + [summary.value];
      } else {
        result := result + [summary.value];
      }
    }
    AllSeen(seen);
    PageIsSorted(Matching(seen, q, decode), limit);
    result := SortBy(Newer, result);
    return Ok(result);
  }

  /** Sorting the window permutes it, newest first. */
  lemma PageIsSorted(matching: seq<Summary>, limit: nat)
    ensures multiset(SortBy(Newer, Last(matching, limit))) == multiset(Last(matching, limit))
    ensures |SortBy(Newer, Last(matching, limit))| == Min(limit, |matching|)
    ensures NewestFirst(SortBy(Newer, Last(matching, limit)))
  {
    hide SortBy, Sorted, TotalPreorder;
    var window := Last(matching, limit);
    NewerOrders();
    SortBySorts(Newer, window);
    SameElements(SortBy(Newer, window), window);
    LastLength(matching, limit);
  }

  datatype Statistics = Statistics(
    captured: nat, providerSent: nat, blocked: nat, failed: nat, status429: nat, truncated: bool)

  predicate CountsBlocked(e: Summary) {
    EqualFold(e.outcome, "blocked") || EqualFold(e.outcome, "canceled")
  }

  predicate CountsFailed(e: Summary) {
    EqualFold(e.outcome, "failed") || e.status >= 400
  }

  function CountIf(es: seq<Summary>, p: Summary -> bool): (n: nat)
    ensures n <= |es|
  {
    if es == [] then 0 else CountIf(es[..|es| - 1], p) + if p(es[|es| - 1]) then 1 else 0
  }

  lemma CountOneMore(es: seq<Summary>, e: Summary, p: Summary -> bool)
    ensures CountIf(es + [e], p) == CountIf(es, p) + if p(e) then 1 else 0
  {
    assert (es + [e])[..|es|] == es;
  }

  /** A weaker condition counts at least as often, and disjoint conditions never more than everything. */
  lemma {:induction false} CountsCompare(es: seq<Summary>, p: Summary -> bool, q: Summary -> bool)
    ensures (forall e :: p(e) ==> q(e)) ==> CountIf(es, p) <= CountIf(es, q)
    ensures (forall e :: !(p(e) && q(e))) ==> CountIf(es, p) + CountIf(es, q) <= |es|
  {
    if es != [] {
      CountsCompare(es[..|es| - 1], p, q);
    }
  }

  predicate CountsSent(e: Summary, isCgv: string -> bool) {
    !CountsBlocked(e) && isCgv(e.url)
  }

  /** The statistics of some matching entries, each entry judged on its own. */
  ghost predicate Tallies(s: Statistics, es: seq<Summary>, isCgv: string -> bool) {
    && s.captured == |es|
    && s.blocked == CountIf(es, CountsBlocked)
    && s.providerSent == CountIf(es, (e: Summary) => CountsSent(e, isCgv))
    && s.failed == CountIf(es, CountsFailed)
    && s.status429 == CountIf(es, (e: Summary) => e.status == 429)
  }

  /** Counts one more entry; `es` are the entries counted so far. */
  method AddSummaryStats(s: Statistics, e: Summary, isCgv: string -> bool, ghost es: seq<Summary>)
    returns (r: Statistics)
    requires Tallies(s, es, isCgv)
    ensures Tallies(r, es + [e], isCgv)
    ensures r.truncated == s.truncated
  {
    hide EqualFold, CountIf;
    CountOneMore(es, e, CountsBlocked);
    CountOneMore(es, e, (x: Summary) => CountsSent(x, isCgv));
    CountOneMore(es, e, CountsFailed);
    CountOneMore(es, e, (x: Summary) => x.status == 429);
    r := s.(captured := s.captured + 1);
    if EqualFold(e.outcome, "blocked") || EqualFold(e.outcome, "canceled") {
      r := r.(blocked := r.blocked + 1);
    } else if isCgv(e.url) {
      r := r.(providerSent := r.providerSent + 1);
    }
    if EqualFold(e.outcome, "failed") || e.status >= 400 {
      r := r.(failed := r.failed + 1);
    }
    if e.status == 429 {
      r := r.(status429 := r.status429 + 1);
    }
  }

  /** However entries are mixed: nothing is counted both blocked and sent, and every 429 is a failure. */
  lemma TalliesCompare(s: Statistics, es: seq<Summary>, isCgv: string -> bool)
    requires Tallies(s, es, isCgv)
    ensures s.blocked + s.providerSent <= s.captured
    ensures s.status429 <= s.failed <= s.captured
  {
    hide EqualFold, CountIf;
    CountsCompare(es, CountsBlocked, (e: Summary) => CountsSent(e, isCgv));
    CountsCompare(es, (e: Summary) => e.status == 429, CountsFailed);
  }

  /** Counts every matching entry of the tail; `isCgv` recognises the provider's own hosts. */
  method Stats(index: Option<Bytes>, q: Query, decode: Bytes -> Option<Summary>, isCgv: string -> bool)
    returns (r: Result<Statistics, QueryError>)
    ensures r.Ok? <==> index.None? || Scannable(index.value)
    ensures r.Ok? ==>
              var matching := if index.None? then [] else Matching(TailLines(index.value), q, decode);
              && Tallies(r.value, matching, isCgv)
              && r.value.truncated == (index.Some? && |index.value| > MAXIMUM_TAIL)
    ensures r.Ok? ==>
              && r.value.blocked + r.value.providerSent <= r.value.captured
              && r.value.status429 <= r.value.failed <= r.value.captured
  {
    hide *;
    if index.None? {
      NothingTallied(Statistics(0, 0, 0, 0, 0, false), q, decode, isCgv);
      return Ok(Statistics(0, 0, 0, 0, 0, false));
    }
    var b := index.value;
    var sought := SeekTail(b);
    if sought.None? {
      return Err(LineTooLong);
    }
    var rest := sought.value;
    var statistics := Statistics(0, 0, 0, 0, 0, |b| > MAXIMUM_TAIL);
    ghost var seen: seq<Bytes> := [];
    NothingTallied(statistics, q, decode, isCgv);
    AllSeen([]);
    assert [] + Lines(rest) == Lines(rest);
    while rest != []
      invariant TailLines(b) == seen + Lines(rest)
      invariant Fits(seen)
      invariant statistics.truncated == (|b| > MAXIMUM_TAIL)
      invariant Tallies(statistics, Matching(seen, q, decode), isCgv)
      decreases |rest|
    {
      var line;
      line, rest := ScanLine(rest);
      if |line| >= MAXIMUM_LINE {
        TooLong(seen, line, Lines(rest));
        return Err(LineTooLong);
      }
      MatchingOneMore(seen, line, q, decode);
      SeenOneMore(seen, line, Lines(rest));
      ghost var before := seen;
      seen := seen + [line];
      var summary := decode(line);
      if summary.None? || !Matches(summary.value, q) {
        continue;
      }
      statistics := AddSummaryStats(statistics, summary.value, isCgv, Matching(before, q, decode));
    }
    AllSeen(seen);
    TalliesCompare(statistics, Matching(seen, q, decode), isCgv);
    return Ok(statistics);
  }

  lemma NothingTallied(s: Statistics, q: Query, decode: Bytes -> Option<Summary>, isCgv: string -> bool)
    requires s.captured == 0 && s.providerSent == 0 && s.blocked == 0 && s.failed == 0 && s.status429 == 0
    ensures Matching([], q, decode) == [] && Tallies(s, [], isCgv)
  {
  }
}
