/** The lines of a file, as the index scanner sees them, and what appending to the file does to them. */
module CaptureLines {
  import opened Text
  import opened CaptureDisk

  const NEWLINE: Byte := 10

  /** Where the first line ends: at its newline, or at the end of the input. */
  function LineEnd(b: Bytes): (n: nat)
    ensures n <= |b|
    ensures n < |b| ==> b[n] == NEWLINE
    ensures forall i :: 0 <= i < n ==> b[i] != NEWLINE
  {
    if b == [] || b[0] == NEWLINE then 0 else 1 + LineEnd(b[1..])
  }

  /** The lines a scanner yields, without their newlines; a last unterminated line counts if not empty. */
  function Lines(b: Bytes): (lines: seq<Bytes>)
    decreases |b|
  {
    if b == [] then []
    else
      var n := LineEnd(b);
      if n == |b| then [b] else [b[..n]] + Lines(b[n + 1..])
  }

  /** What the lines of an index decode to; undecodable lines are passed over. */
  function Decoded(lines: seq<Bytes>, decode: Bytes -> Option<Summary>): seq<Summary> {
    if lines == [] then []
    else
      var before := Decoded(lines[..|lines| - 1], decode);
      var entry := decode(lines[|lines| - 1]);
      if entry.Some? then before + [entry.value] else before
  }

  lemma DecodedOneMore(lines: seq<Bytes>, line: Bytes, decode: Bytes -> Option<Summary>)
    ensures Decoded(lines + [line], decode) ==
            Decoded(lines, decode) + if decode(line).Some? then [decode(line).value] else []
  {
    assert (lines + [line])[..|lines|] == lines;
    assert Decoded(lines, decode) + [] == Decoded(lines, decode);
  }

  function WithoutFirst(lines: seq<Bytes>): seq<Bytes> {
    if lines == [] then [] else lines[1..]
  }

  ghost predicate IsSuffix(tail: seq<Bytes>, lines: seq<Bytes>) {
    |tail| <= |lines| && lines[|lines| - |tail|..] == tail
  }

  lemma LineEndUnique(b: Bytes, n: nat)
    requires n <= |b| && (n < |b| ==> b[n] == NEWLINE)
    requires forall i :: 0 <= i < n ==> b[i] != NEWLINE
    ensures LineEnd(b) == n
  {
    if b != [] && b[0] != NEWLINE {
      LineEndUnique(b[1..], n - 1);
    }
  }

  lemma SuffixOfTail(tail: seq<Bytes>, first: Bytes, rest: seq<Bytes>)
    requires IsSuffix(tail, rest)
    ensures IsSuffix(tail, [first] + rest)
  {
    var lines := [first] + rest;
    assert lines[|lines| - |tail|..] == rest[|rest| - |tail|..];
  }

  /** Seeking to any offset and skipping one line yields whole trailing lines of the file, never a fragment. */
  lemma {:induction false} SeekThenSkipIsSuffix(b: Bytes, offset: nat)
    requires offset <= |b|
    ensures IsSuffix(WithoutFirst(Lines(b[offset..])), Lines(b))
    decreases |b|
  {
    var n := LineEnd(b);
    var seen := b[offset..];
    if offset <= n {
      LineEndUnique(seen, n - offset);
      if n < |b| {
        assert seen[n - offset + 1..] == b[n + 1..];
        assert Lines(b) == [b[..n]] + Lines(b[n + 1..]);
        assert WithoutFirst(Lines(seen)) == Lines(b[n + 1..]);
        SuffixOfTail(Lines(b[n + 1..]), b[..n], Lines(b[n + 1..]));
      }
    } else {
      var rest := b[n + 1..];
      assert seen == rest[offset - n - 1..];
      SeekThenSkipIsSuffix(rest, offset - n - 1);
      SuffixOfTail(WithoutFirst(Lines(seen)), b[..n], Lines(rest));
    }
  }

  // --------------------------------------------------------------- appending

  /** Nothing is left over after the last newline. */
  predicate EndsLine(b: Bytes) {
    b == [] || b[|b| - 1] == NEWLINE
  }

  predicate OneLine(l: Bytes) {
    forall i :: 0 <= i < |l| ==> l[i] != NEWLINE
  }

  lemma {:induction false} SomeLines(b: Bytes)
    ensures b != [] <==> Lines(b) != []
    ensures Lines(b) != [] ==> OneLine(Lines(b)[|Lines(b)| - 1])
    decreases |b|
  {
    if b != [] && LineEnd(b) < |b| {
      SomeLines(b[LineEnd(b) + 1..]);
    }
  }

  /** A first line in front of any file. */
  lemma LinesFirst(l: Bytes, rest: Bytes)
    requires OneLine(l)
    ensures Lines(l + [NEWLINE] + rest) == [l] + Lines(rest)
  {
    var b := l + [NEWLINE] + rest;
    LineEndUnique(b, |l|);
    assert b[..|l|] == l && b[|l| + 1..] == rest;
  }

  /** A file without a newline is one line, or none. */
  lemma LinesOfOne(l: Bytes)
    requires OneLine(l)
    ensures Lines(l) == if l == [] then [] else [l]
  {
    LineEndUnique(l, |l|);
  }

  /** What further bytes of the last line do: they start a line, or are glued to the one left over. */
  function Extended(lines: seq<Bytes>, ends: bool, p: Bytes): seq<Bytes> {
    if p == [] then lines
    else if ends || lines == [] then lines + [p]
    else lines[..|lines| - 1] + [lines[|lines| - 1] + p]
  }

  lemma ExtendedAfterFirst(first: Bytes, lines: seq<Bytes>, ends: bool, p: Bytes)
    requires lines == [] ==> ends
    ensures Extended([first] + lines, ends, p) == [first] + Extended(lines, ends, p)
  {
    if p != [] && !ends {
      var all := [first] + lines;
      assert all[..|all| - 1] == [first] + lines[..|lines| - 1];
    }
  }

  lemma SplitLine(b: Bytes) returns (line: Bytes, rest: Bytes)
    requires LineEnd(b) < |b|
    ensures b == line + [NEWLINE] + rest && |rest| < |b|
    ensures OneLine(line)
    ensures EndsLine(b) <==> EndsLine(rest)
  {
    hide LineEnd;
    var n := LineEnd(b);
    line, rest := b[..n], b[n + 1..];
    assert b == line + [NEWLINE] + rest;
    if rest == [] {
      assert n == |b| - 1;
    } else {
      assert rest[|rest| - 1] == b[|b| - 1];
    }
  }

  lemma Associate(a: Bytes, b: Bytes, c: Bytes)
    ensures (a + b) + c == a + (b + c)
  {
  }

  lemma AppendPartToOne(b: Bytes, p: Bytes)
    requires OneLine(b) && OneLine(p)
    ensures Lines(b + p) == Extended(Lines(b), EndsLine(b), p)
  {
    LinesOfOne(b);
    LinesOfOne(b + p);
    hide Lines;
    if b == [] {
      assert b + p == p;
    } else if p == [] {
      assert b + p == b;
    } else {
      assert b[|b| - 1] != NEWLINE;
    }
  }

  lemma {:induction false} AppendPart(b: Bytes, p: Bytes)
    requires OneLine(p)
    ensures Lines(b + p) == Extended(Lines(b), EndsLine(b), p)
    decreases |b|
  {
    hide LineEnd, Lines, Extended, EndsLine;
    if LineEnd(b) == |b| {
      AppendPartToOne(b, p);
    } else {
      var line, rest := SplitLine(b);
      SomeLines(rest);
      AppendPart(rest, p);
      LinesFirst(line, rest);
      LinesFirst(line, rest + p);
      Associate(line + [NEWLINE], rest, p);
      NothingEnds(rest);
      ExtendedAfterFirst(line, Lines(rest), EndsLine(rest), p);
    }
  }

  lemma NothingEnds(b: Bytes)
    ensures b == [] ==> EndsLine(b)
  {
  }

  lemma AppendNewlineToOne(b: Bytes)
    requires OneLine(b)
    ensures Lines(b + [NEWLINE]) == if EndsLine(b) then Lines(b) + [[]] else Lines(b)
  {
    LinesOfOne(b);
    LinesFirst(b, []);
    LinesOfOne([]);
    hide Lines;
    assert b + [NEWLINE] == b + [NEWLINE] + [];
    if b != [] {
      assert b[|b| - 1] != NEWLINE;
    }
  }

  /** A newline ends the line left over, or makes an empty one. */
  lemma {:induction false} AppendNewline(b: Bytes)
    ensures Lines(b + [NEWLINE]) == if EndsLine(b) then Lines(b) + [[]] else Lines(b)
    decreases |b|
  {
    hide LineEnd, Lines, EndsLine;
    if LineEnd(b) == |b| {
      AppendNewlineToOne(b);
    } else {
      var line, rest := SplitLine(b);
      AppendNewline(rest);
      LinesFirst(line, rest);
      LinesFirst(line, rest + [NEWLINE]);
      Associate(line + [NEWLINE], rest, [NEWLINE]);
    }
  }

  /** A line glued to the one left over. */
  function Glued(lines: seq<Bytes>, l: Bytes): seq<Bytes>
    requires lines != []
  {
    lines[..|lines| - 1] + [lines[|lines| - 1] + l]
  }

  lemma EndsAfterPart(b: Bytes, l: Bytes)
    requires OneLine(l)
    ensures EndsLine(b + l) <==> (l == [] && EndsLine(b))
  {
    if l == [] {
      assert b + l == b;
    } else {
      assert (b + l)[|b + l| - 1] == l[|l| - 1];
    }
  }

  lemma ExtendedByLine(lines: seq<Bytes>, ends: bool, l: Bytes)
    requires !ends ==> lines != []
    ensures var all := Extended(lines, ends, l);
            (if l == [] && ends then all + [[]] else all) == if ends then lines + [l] else Glued(lines, l)
  {
    if l == [] && !ends {
      assert lines[|lines| - 1] + l == lines[|lines| - 1];
      assert lines == lines[..|lines| - 1] + [lines[|lines| - 1]];
    }
  }

  /**
   * Appending a line to a file appends it to the file's lines exactly when the file ended in a newline or was
   * empty; otherwise the new line is glued to the one left over.
   */
  lemma AppendLine(b: Bytes, l: Bytes)
    requires OneLine(l)
    ensures !EndsLine(b) ==> Lines(b) != []
    ensures Lines(b + l + [NEWLINE]) == if EndsLine(b) then Lines(b) + [l] else Glued(Lines(b), l)
    ensures Lines(b + l + [NEWLINE]) == Lines(b) + [l] <==> EndsLine(b)
  {
    SomeLines(b);
    NothingEnds(b);
    AppendPart(b, l);
    AppendNewline(b + l);
    EndsAfterPart(b, l);
    hide Lines, EndsLine, Extended, OneLine;
    ExtendedByLine(Lines(b), EndsLine(b), l);
    assert Lines(b) != [] ==> |Glued(Lines(b), l)| == |Lines(b)|;
  }
}
