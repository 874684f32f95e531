/** That what the index takes from its encoding can be had: framed bodies meet it. */
module CaptureCodec {
  import opened Text
  import opened CaptureDisk
  import opened CaptureLines
  import opened CaptureIndex

  const OPEN: Byte := 123
  const CLOSE: Byte := 125

  /** Bodies without newlines and frame bytes, different for different summaries. */
  ghost predicate PlainBody(body: Summary -> Bytes) {
    && (forall s :: OPEN !in body(s) && CLOSE !in body(s) && NEWLINE !in body(s))
    && (forall s, t :: body(s) == body(t) ==> s == t)
  }

  function Frame(body: Bytes): Bytes {
    [OPEN] + body + [CLOSE]
  }

  function Framed(body: Summary -> Bytes): Summary -> Bytes {
    s => Frame(body(s))
  }

  ghost function Unframe(body: Summary -> Bytes, line: Bytes): Option<Summary> {
    if s :| Frame(body(s)) == line then Some(s) else None
  }

  function Opens(b: Bytes): nat {
    if b == [] then 0 else Opens(b[..|b| - 1]) + if b[|b| - 1] == OPEN then 1 else 0
  }

  lemma {:induction false} OpensConcat(a: Bytes, b: Bytes)
    ensures Opens(a + b) == Opens(a) + Opens(b)
  {
    if b == [] {
      assert a + b == a;
    } else {
      assert (a + b)[..|a + b| - 1] == a + b[..|b| - 1];
      OpensConcat(a, b[..|b| - 1]);
    }
  }

  lemma {:induction false} NoOpens(b: Bytes)
    requires OPEN !in b
    ensures Opens(b) == 0
  {
    if b != [] {
      NoOpens(b[..|b| - 1]);
    }
  }

  lemma {:induction false} SomeOpens(b: Bytes)
    requires OPEN in b
    ensures Opens(b) > 0
  {
    if b[|b| - 1] != OPEN {
      assert b == b[..|b| - 1] + [b[|b| - 1]];
      SomeOpens(b[..|b| - 1]);
    }
  }

  lemma FrameOpensOnce(body: Bytes)
    requires OPEN !in body
    ensures Opens(Frame(body)) == 1
  {
    OpensConcat([OPEN], body);
    OpensConcat([OPEN] + body, [CLOSE]);
    NoOpens(body);
    NoOpens([CLOSE]);
    assert [OPEN][..0] == [];
    assert Opens([OPEN]) == 1;
  }

  /** Every part of a line that reached the file begins with the start byte. */
  lemma {:induction false} GlueOpens(body: Summary -> Bytes, run: seq<Chunk>)
    ensures Opens(Glue(Framed(body), run)) >= Touched(run)
  {
    if run != [] {
      var before, c := run[..|run| - 1], run[|run| - 1];
      GlueOpens(body, before);
      OpensConcat(Glue(Framed(body), before), Part(Framed(body), c));
      if c.written > 0 {
        assert Framed(body)(c.summary) == Frame(body(c.summary));
        assert Part(Framed(body), c) != [];
        assert Part(Framed(body), c)[0] == OPEN;
        SomeOpens(Part(Framed(body), c));
      }
    }
  }

  /** Framing any such body is an encoding of the kind the index needs. */
  lemma FramingIsACodec(body: Summary -> Bytes)
    requires PlainBody(body)
    ensures Codec(Framed(body), line => Unframe(body, line))
  {
    var encode := Framed(body);
    forall s ensures encode(s) != [] && OneLine(encode(s)) && Unframe(body, encode(s)) == Some(s) {
      UnframesItself(body, s);
    }
    forall s: Summary, n: nat | n < |encode(s)| ensures Unframe(body, encode(s)[..n]) == None {
      PartIsNoFrame(body, s, n);
    }
    forall run | Touched(run) >= 2 ensures Unframe(body, Glue(encode, run)) == None {
      GlueOpens(body, run);
      forall s ensures Frame(body(s)) != Glue(encode, run) {
        FrameOpensOnce(body(s));
      }
    }
  }

  lemma UnframesItself(body: Summary -> Bytes, s: Summary)
    requires PlainBody(body)
    ensures Unframe(body, Frame(body(s))) == Some(s) && OneLine(Frame(body(s)))
  {
    forall t | Frame(body(t)) == Frame(body(s)) ensures t == s {
      assert body(t) == Frame(body(t))[1..|Frame(body(t))| - 1];
      assert body(s) == Frame(body(s))[1..|Frame(body(s))| - 1];
    }
    forall i | 0 <= i < |body(s)| ensures body(s)[i] != NEWLINE {
      assert body(s)[i] in body(s);
    }
  }

  /** A cut-off frame lacks its last byte. */
  lemma PartIsNoFrame(body: Summary -> Bytes, s: Summary, n: nat)
    requires PlainBody(body) && n < |Frame(body(s))|
    ensures Unframe(body, Frame(body(s))[..n]) == None
  {
    var part := Frame(body(s))[..n];
    assert n >= 2 ==> part[n - 1] == body(s)[n - 2] && body(s)[n - 2] in body(s);
    forall t ensures Frame(body(t)) != part {
      assert Frame(body(t))[|Frame(body(t))| - 1] == CLOSE;
    }
  }

  // ------------------------------------------------------------------ a body

  const STOP: Byte := 48
  const ONE: Byte := 49
  const LAST: Byte := 50

  function Ones(n: nat): (r: Bytes)
    ensures forall b :: b in r ==> b == ONE
  {
    if n == 0 then [] else [ONE] + Ones(n - 1)
  }

  function Number(n: nat): Bytes { Ones(n) + [STOP] }

  function Whole(n: int): Bytes { if n < 0 then Number(-2 * n - 1) else Number(2 * n) }

  function Characters(s: string): Bytes {
    if s == "" then [LAST] else Number(s[0] as int) + Characters(s[1..])
  }

  predicate Plain(b: Bytes) {
    OPEN !in b && CLOSE !in b && NEWLINE !in b
  }

  lemma {:induction false} NumberReads(m: nat, n: nat, a: Bytes, b: Bytes)
    requires Number(m) + a == Number(n) + b
    ensures m == n && a == b
  {
    var x, y := Number(m) + a, Number(n) + b;
    assert x[0] == (if m == 0 then STOP else ONE) && y[0] == (if n == 0 then STOP else ONE);
    if m == 0 {
      assert a == x[1..] && b == y[1..];
    } else {
      assert Number(m - 1) + a == x[1..] && Number(n - 1) + b == y[1..];
      NumberReads(m - 1, n - 1, a, b);
    }
  }

  lemma WholeReads(m: int, n: int, a: Bytes, b: Bytes)
    requires Whole(m) + a == Whole(n) + b
    ensures m == n && a == b
  {
    NumberReads(if m < 0 then -2 * m - 1 else 2 * m, if n < 0 then -2 * n - 1 else 2 * n, a, b);
  }

  lemma {:induction false} CharactersRead(s: string, t: string, a: Bytes, b: Bytes)
    requires Characters(s) + a == Characters(t) + b
    ensures s == t && a == b
  {
    var x, y := Characters(s) + a, Characters(t) + b;
    assert (x[0] == LAST <==> s == "") && (y[0] == LAST <==> t == "");
    if s == "" {
      assert a == x[1..] && b == y[1..];
    } else {
      assert x == Number(s[0] as int) + (Characters(s[1..]) + a);
      assert y == Number(t[0] as int) + (Characters(t[1..]) + b);
      NumberReads(s[0] as int, t[0] as int, Characters(s[1..]) + a, Characters(t[1..]) + b);
      CharactersRead(s[1..], t[1..], a, b);
      assert s == [s[0]] + s[1..] && t == [t[0]] + t[1..];
    }
  }

  lemma {:induction false} CharactersArePlain(s: string)
    ensures Plain(Characters(s))
  {
    if s != "" {
      CharactersArePlain(s[1..]);
    }
  }

  /** One such body: every field in unary. */
  function Unary(s: Summary): Bytes {
    Characters(s.key.day) + (Characters(s.key.name) + (Characters(s.id) + (Whole(s.completedAt) + (Whole(s.status) +
    (Characters(s.outcome) + (Characters(s.url) + (Characters(s.details) + [])))))))
  }

  lemma UnaryReads(s: Summary, t: Summary)
    requires Unary(s) == Unary(t)
    ensures s == t
  {
    hide Characters, Whole;
    var e, f: Bytes := Characters(s.details) + [], Characters(t.details) + [];
    var u, v := Characters(s.outcome) + (Characters(s.url) + e), Characters(t.outcome) + (Characters(t.url) + f);
    var x, y := Whole(s.completedAt) + (Whole(s.status) + u), Whole(t.completedAt) + (Whole(t.status) + v);
    CharactersRead(s.key.day, t.key.day, Characters(s.key.name) + (Characters(s.id) + x),
                   Characters(t.key.name) + (Characters(t.id) + y));
    CharactersRead(s.key.name, t.key.name, Characters(s.id) + x, Characters(t.id) + y);
    CharactersRead(s.id, t.id, x, y);
    WholeReads(s.completedAt, t.completedAt, Whole(s.status) + u, Whole(t.status) + v);
    WholeReads(s.status, t.status, u, v);
    CharactersRead(s.outcome, t.outcome, Characters(s.url) + e, Characters(t.url) + f);
    CharactersRead(s.url, t.url, e, f);
    CharactersRead(s.details, t.details, [], []);
  }

  lemma UnaryIsPlain(s: Summary)
    ensures OPEN !in Unary(s) && CLOSE !in Unary(s) && NEWLINE !in Unary(s)
  {
    hide Characters;
    CharactersArePlain(s.key.day);
    CharactersArePlain(s.key.name);
    CharactersArePlain(s.id);
    CharactersArePlain(s.outcome);
    CharactersArePlain(s.url);
    CharactersArePlain(s.details);
  }

  /** So there are encodings of the kind the index needs. */
  lemma CodecsExist()
    ensures exists encode, decode :: Codec(encode, decode)
  {
    hide Unary;
    forall s ensures OPEN !in Unary(s) && CLOSE !in Unary(s) && NEWLINE !in Unary(s) {
      UnaryIsPlain(s);
    }
    forall s, t | Unary(s) == Unary(t) ensures s == t {
      UnaryReads(s, t);
    }
    FramingIsACodec(Unary);
  }
}
