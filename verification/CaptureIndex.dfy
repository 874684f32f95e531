/** What the bytes of the index decode to after any appends, completed or torn (store.go, query.go). */
module CaptureIndex {
  import opened Text
  import opened CaptureDisk
  import opened CaptureLines
  import opened CaptureStore
  import opened CaptureQuery

  // ---------------------------------------------------------------- rendering

  /** The bytes of a line that reached the file, without its newline. */
  function Part(encode: Summary -> Bytes, c: Chunk): Bytes {
    encode(c.summary)[..Min(c.written, |encode(c.summary)|)]
  }

  predicate Terminated(encode: Summary -> Bytes, c: Chunk) {
    c.written > |encode(c.summary)|
  }

  function FileBytes(encode: Summary -> Bytes, index: seq<Chunk>): Bytes {
    if index == [] then []
    else
      var c := index[|index| - 1];
      FileBytes(encode, index[..|index| - 1]) + Part(encode, c) + if Terminated(encode, c) then [NEWLINE] else []
  }

  /** The parts of some chunks, one after the other. */
  function Glue(encode: Summary -> Bytes, run: seq<Chunk>): Bytes {
    if run == [] then [] else Glue(encode, run[..|run| - 1]) + Part(encode, run[|run| - 1])
  }

  function Touched(run: seq<Chunk>): nat {
    if run == [] then 0 else Touched(run[..|run| - 1]) + if run[|run| - 1].written > 0 then 1 else 0
  }

  /**
   * What the models take from JSON: an encoded summary is one non-empty line and decodes to itself; a part of it
   * does not decode, and neither does what results when one object, cut short or not, runs into the next.
   */
  ghost predicate Codec(encode: Summary -> Bytes, decode: Bytes -> Option<Summary>) {
    && (forall s :: encode(s) != [] && OneLine(encode(s)) && decode(encode(s)) == Some(s))
    && (forall s: Summary, n: nat :: n < |encode(s)| ==> decode(encode(s)[..n]) == None)
    && (forall run :: Touched(run) >= 2 ==> decode(Glue(encode, run)) == None)
  }

  // ----------------------------------------------------------- what is readable

  /** The chunks since the last newline. */
  function LeftOver(encode: Summary -> Bytes, index: seq<Chunk>): seq<Chunk> {
    if index == [] || Terminated(encode, index[|index| - 1]) then []
    else LeftOver(encode, index[..|index| - 1]) + [index[|index| - 1]]
  }

  /** The entries on complete lines of their own. */
  function Finished(encode: Summary -> Bytes, index: seq<Chunk>): seq<Summary> {
    if index == [] then []
    else
      var before, c := index[..|index| - 1], index[|index| - 1];
      if Terminated(encode, c) && Touched(LeftOver(encode, before)) == 0 then Finished(encode, before) + [c.summary]
      else Finished(encode, before)
  }

  /** The entry on a last line that lacks nothing but its newline. */
  function Pending(encode: Summary -> Bytes, decode: Bytes -> Option<Summary>, index: seq<Chunk>): seq<Summary> {
    var left := decode(Glue(encode, LeftOver(encode, index)));
    if left.Some? then [left.value] else []
  }

  lemma {:induction false} GlueFacts(encode: Summary -> Bytes, decode: Bytes -> Option<Summary>, run: seq<Chunk>)
    requires Codec(encode, decode)
    ensures OneLine(Glue(encode, run))
    ensures Glue(encode, run) == [] <==> Touched(run) == 0
  {
    if run != [] {
      GlueFacts(encode, decode, run[..|run| - 1]);
      PartFacts(encode, decode, run[|run| - 1]);
      hide Part, Codec;
    }
  }

  lemma PartFacts(encode: Summary -> Bytes, decode: Bytes -> Option<Summary>, c: Chunk)
    requires Codec(encode, decode)
    ensures OneLine(Part(encode, c)) && OneLine(encode(c.summary))
    ensures Part(encode, c) == [] <==> c.written == 0
    ensures Terminated(encode, c) ==> Part(encode, c) == encode(c.summary) && c.written > 0
    ensures decode(encode(c.summary)) == Some(c.summary)
  {
    assert encode(c.summary) != [] && OneLine(encode(c.summary));
  }

  lemma GlueOneMore(encode: Summary -> Bytes, run: seq<Chunk>, c: Chunk)
    ensures Glue(encode, run + [c]) == Glue(encode, run) + Part(encode, c)
    ensures Touched(run + [c]) == Touched(run) + if c.written > 0 then 1 else 0
  {
    assert (run + [c])[..|run|] == run;
  }

  /** How the bytes of the file, its lines and the entries on them hang together. */
  ghost predicate Shaped(encode: Summary -> Bytes, decode: Bytes -> Option<Summary>, index: seq<Chunk>) {
    var b, left := FileBytes(encode, index), Glue(encode, LeftOver(encode, index));
    && (EndsLine(b) <==> left == [])
    && (EndsLine(b) ==> Decoded(Lines(b), decode) == Finished(encode, index))
    && (!EndsLine(b) ==>
          && Lines(b) != [] && Lines(b)[|Lines(b)| - 1] == left
          && Decoded(Lines(b)[..|Lines(b)| - 1], decode) == Finished(encode, index))
  }

  /** One more append to an index, in terms of the index before. */
  lemma IndexOneMore(encode: Summary -> Bytes, index: seq<Chunk>, c: Chunk)
    ensures FileBytes(encode, index + [c]) ==
            FileBytes(encode, index) + Part(encode, c) + if Terminated(encode, c) then [NEWLINE] else []
    ensures LeftOver(encode, index + [c]) ==
            if Terminated(encode, c) then [] else LeftOver(encode, index) + [c]
    ensures Finished(encode, index + [c]) ==
            if Terminated(encode, c) && Touched(LeftOver(encode, index)) == 0 then Finished(encode, index) + [c.summary]
            else Finished(encode, index)
  {
    hide Part, Terminated;
    assert (index + [c])[..|index|] == index;
  }

  lemma TerminatedShapes(
    encode: Summary -> Bytes, decode: Bytes -> Option<Summary>, index: seq<Chunk>, c: Chunk)
    requires Codec(encode, decode) && Shaped(encode, decode, index) && Terminated(encode, c)
    ensures Shaped(encode, decode, index + [c])
  {
    var b, run := FileBytes(encode, index), LeftOver(encode, index);
    var line := encode(c.summary);
    PartFacts(encode, decode, c);
    GlueFacts(encode, decode, run);
    GlueOneMore(encode, run, c);
    NothingGlued(encode);
    IndexOneMore(encode, index, c);
    AppendLine(b, line);
    NewlineEnds(b + line);
    if EndsLine(b) {
      DecodedOneMore(Lines(b), line, decode);
    } else {
      RunsDoNotDecode(encode, decode, run + [c]);
      DecodedOneMore(Lines(b)[..|Lines(b)| - 1], Lines(b)[|Lines(b)| - 1] + line, decode);
    }
  }

  lemma NothingGlued(encode: Summary -> Bytes)
    ensures Glue(encode, []) == []
  {
  }

  lemma NewlineEnds(b: Bytes)
    ensures EndsLine(b + [NEWLINE])
  {
  }

  lemma RunsDoNotDecode(encode: Summary -> Bytes, decode: Bytes -> Option<Summary>, run: seq<Chunk>)
    requires Codec(encode, decode) && Touched(run) >= 2
    ensures decode(Glue(encode, run)) == None
  {
  }

  lemma PartShapes(
    encode: Summary -> Bytes, decode: Bytes -> Option<Summary>, index: seq<Chunk>, c: Chunk)
    requires Codec(encode, decode) && Shaped(encode, decode, index) && !Terminated(encode, c)
    ensures Shaped(encode, decode, index + [c])
  {
    var b, run, p := FileBytes(encode, index), LeftOver(encode, index), Part(encode, c);
    PartFacts(encode, decode, c);
    GlueFacts(encode, decode, run);
    GlueOneMore(encode, run, c);
    IndexOneMore(encode, index, c);
    assert b + p + [] == b + p;
    AppendPart(b, p);
    EndsAfterPart(b, p);
    SomeLines(b);
    hide Codec, FileBytes, LeftOver, Finished, Glue, Part, Terminated, Lines, Decoded, EndsLine, OneLine, Touched;
    if p == [] {
      assert Glue(encode, run) + p == Glue(encode, run);
    } else if EndsLine(b) {
      assert [] + p == p;
      assert (Lines(b) + [p])[..|Lines(b)|] == Lines(b);
    } else {
      var before := Lines(b)[..|Lines(b)| - 1];
      assert (before + [Glue(encode, run) + p])[..|before|] == before;
    }
  }

  lemma {:induction false} IndexShaped(encode: Summary -> Bytes, decode: Bytes -> Option<Summary>, index: seq<Chunk>)
    requires Codec(encode, decode)
    ensures Shaped(encode, decode, index)
  {
    if index == [] {
      assert FileBytes(encode, index) == [] && Lines([]) == [];
    } else {
      hide Codec, Shaped, Terminated;
      var before, c := index[..|index| - 1], index[|index| - 1];
      assert index == before + [c];
      IndexShaped(encode, decode, before);
      if Terminated(encode, c) {
        TerminatedShapes(encode, decode, before, c);
      } else {
        PartShapes(encode, decode, before, c);
      }
    }
  }

  /** After any appends, completed or torn, the index decodes to its finished entries and the pending one. */
  lemma IndexDecodes(encode: Summary -> Bytes, decode: Bytes -> Option<Summary>, index: seq<Chunk>)
    requires Codec(encode, decode)
    ensures Decoded(Lines(FileBytes(encode, index)), decode) ==
            Finished(encode, index) + Pending(encode, decode, index)
  {
    IndexShaped(encode, decode, index);
    var b := FileBytes(encode, index);
    NothingDecodes(encode, decode);
    hide Codec, FileBytes, LeftOver, Finished, Glue, Lines, EndsLine, Decoded;
    if EndsLine(b) {
      assert Finished(encode, index) + [] == Finished(encode, index);
    } else {
      var lines := Lines(b);
      assert lines == lines[..|lines| - 1] + [lines[|lines| - 1]];
      DecodedOneMore(lines[..|lines| - 1], lines[|lines| - 1], decode);
    }
  }

  lemma NothingDecodes(encode: Summary -> Bytes, decode: Bytes -> Option<Summary>)
    requires Codec(encode, decode)
    ensures decode([]) == None
  {
    var s: Summary := Summary(Key("", ""), "", 0, 0, "", "", "");
    assert encode(s)[..0] == [];
  }

  /**
   * A completed append adds its entry to what the index decodes to exactly when the file ended in a newline or was
   * empty. Otherwise it adds nothing, and hides the pending entry too.
   */
  lemma AppendedEntryReadable(
    encode: Summary -> Bytes, decode: Bytes -> Option<Summary>, index: seq<Chunk>, s: Summary)
    requires Codec(encode, decode)
    ensures var b, b' := FileBytes(encode, index), FileBytes(encode, index + [WholeLine(encode, s)]);
            && (Decoded(Lines(b'), decode) == Decoded(Lines(b), decode) + [s] <==> EndsLine(b))
            && (!EndsLine(b) ==>
                  Decoded(Lines(b), decode) ==
                  Decoded(Lines(b'), decode) + Pending(encode, decode, index))
            && EndsLine(b')
  {
    var c := WholeLine(encode, s);
    var index' := index + [c];
    IndexDecodes(encode, decode, index);
    IndexDecodes(encode, decode, index');
    IndexShaped(encode, decode, index);
    IndexShaped(encode, decode, index');
    IndexOneMore(encode, index, c);
    GlueFacts(encode, decode, LeftOver(encode, index));
    NothingGlued(encode);
    NothingDecodes(encode, decode);
    var before, now := Finished(encode, index), Finished(encode, index');
    assert Terminated(encode, c);
    assert Pending(encode, decode, index') == [] && now + [] == now;
    hide Codec, FileBytes, LeftOver, Finished, Glue, Lines, Decoded, Terminated, Touched;
    if EndsLine(FileBytes(encode, index)) {
      assert before + [] == before;
    } else {
      assert |before + Pending(encode, decode, index) + [s]| > |before|;
    }
  }

  /** An append cut short anywhere loses its own entry and the next, successful one. */
  lemma TornAppendSwallowsNext(
    encode: Summary -> Bytes, decode: Bytes -> Option<Summary>, lost: Summary, n: nat, next: Summary)
    requires Codec(encode, decode) && 0 < n < |encode(lost)|
    ensures Decoded(Lines(encode(lost)[..n]), decode) == []
    ensures Decoded(Lines(encode(lost)[..n] + encode(next) + [NEWLINE]), decode) == []
  {
    var torn := Chunk(lost, n);
    assert [torn][..0] == [] && [torn, WholeLine(encode, next)][..1] == [torn];
    assert FileBytes(encode, [torn]) == encode(lost)[..n];
    IndexDecodes(encode, decode, [torn]);
    assert LeftOver(encode, [torn]) == [torn] && Glue(encode, [torn]) == encode(lost)[..n];
    assert Finished(encode, [torn]) == [];
    PartFacts(encode, decode, WholeLine(encode, next));
    AppendedEntryReadable(encode, decode, [torn], next);
    assert FileBytes(encode, [torn] + [WholeLine(encode, next)]) == encode(lost)[..n] + encode(next) + [NEWLINE] by {
      IndexOneMore(encode, [torn], WholeLine(encode, next));
    }
  }

  // ------------------------------------------------------ from Save to List

  /** A run of completed saves. */
  ghost predicate SaveLog(digest: Bytes -> Hash, encode: Summary -> Bytes, disks: seq<Disk>, keys: seq<Key>,
                          manifests: seq<Exchange>, requests: seq<Option<Bytes>>, responses: seq<Option<Bytes>>) {
    && |disks| == |keys| + 1 && |manifests| == |requests| == |responses| == |keys|
    && forall i :: 0 <= i < |keys| ==>
         SavedAs(digest, encode, disks[i], disks[i + 1], keys[i], manifests[i], requests[i], responses[i])
  }

  function Summaries(keys: seq<Key>, manifests: seq<Exchange>): seq<Summary>
    requires |keys| == |manifests|
  {
    if keys == [] then []
    else
      var n := |keys| - 1;
      Summaries(keys[..n], manifests[..n]) + [SummaryOf(keys[n], manifests[n])]
  }

  /** Completed saves on an index without a torn line add exactly their summaries, in order, to what it decodes to. */
  lemma {:induction false} SavesAreDecoded(
    digest: Bytes -> Hash, encode: Summary -> Bytes, decode: Bytes -> Option<Summary>, disks: seq<Disk>,
    keys: seq<Key>, manifests: seq<Exchange>, requests: seq<Option<Bytes>>, responses: seq<Option<Bytes>>)
    requires Codec(encode, decode)
    requires SaveLog(digest, encode, disks, keys, manifests, requests, responses)
    requires EndsLine(FileBytes(encode, disks[0].index))
    ensures EndsLine(FileBytes(encode, disks[|keys|].index))
    ensures Decoded(Lines(FileBytes(encode, disks[|keys|].index)), decode) ==
            Decoded(Lines(FileBytes(encode, disks[0].index)), decode) + Summaries(keys, manifests)
    decreases |keys|
  {
    hide Codec, FileBytes, Lines, Decoded, EndsLine;
    var start := Decoded(Lines(FileBytes(encode, disks[0].index)), decode);
    if keys == [] {
      assert start + [] == start;
    } else {
      var n := |keys| - 1;
      SavesAreDecoded(digest, encode, decode, disks[..n + 1], keys[..n], manifests[..n], requests[..n], responses[..n]);
      var s := SummaryOf(keys[n], manifests[n]);
      AppendedEntryReadable(encode, decode, disks[n].index, s);
      assert disks[n + 1].index == disks[n].index + [WholeLine(encode, s)];
      var earlier := Summaries(keys[..n], manifests[..n]);
      assert start + (earlier + [s]) == (start + earlier) + [s];
    }
  }

  ghost predicate EndsWith(tail: seq<Summary>, all: seq<Summary>) {
    |tail| <= |all| && all[|all| - |tail|..] == tail
  }

  lemma {:induction false} DecodedSuffix(tail: seq<Bytes>, lines: seq<Bytes>, decode: Bytes -> Option<Summary>)
    requires IsSuffix(tail, lines)
    ensures EndsWith(Decoded(tail, decode), Decoded(lines, decode))
  {
    if tail != [] {
      var shorter, fewer, last := tail[..|tail| - 1], lines[..|lines| - 1], lines[|lines| - 1];
      assert tail == shorter + [last] && lines == fewer + [last];
      assert fewer[|fewer| - |shorter|..] == shorter;
      DecodedSuffix(shorter, fewer, decode);
      DecodedOneMore(shorter, last, decode);
      DecodedOneMore(fewer, last, decode);
    }
  }

  /**
   * What List and Stats look at after completed saves: the newest of all summaries, old and new, and every one of
   * them while the index fits the tail. Together with List's own promise, a page shows the newest saved exchanges.
   */
  lemma SavesAreListed(
    digest: Bytes -> Hash, encode: Summary -> Bytes, decode: Bytes -> Option<Summary>, disks: seq<Disk>,
    keys: seq<Key>, manifests: seq<Exchange>, requests: seq<Option<Bytes>>, responses: seq<Option<Bytes>>, q: Query)
    requires Codec(encode, decode)
    requires SaveLog(digest, encode, disks, keys, manifests, requests, responses)
    requires EndsLine(FileBytes(encode, disks[0].index))
    ensures var file := FileBytes(encode, disks[|keys|].index);
            var all := Decoded(Lines(FileBytes(encode, disks[0].index)), decode) + Summaries(keys, manifests);
            && EndsWith(Decoded(TailLines(file), decode), all)
            && (|file| <= MAXIMUM_TAIL ==> Matching(TailLines(file), q, decode) == Selected(all, q))
  {
    var file := FileBytes(encode, disks[|keys|].index);
    SavesAreDecoded(digest, encode, decode, disks, keys, manifests, requests, responses);
    hide Codec, FileBytes, Lines, TailLines, Decoded, Selected, SaveLog, EndsLine;
    TailLinesAreSuffix(file);
    DecodedSuffix(TailLines(file), Lines(file), decode);
  }
}
