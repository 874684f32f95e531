/** Optional values, results, task purposes, and the handful of string helpers the scanner relies on. */
module Text {

  datatype Option<+T> = None | Some(value: T)

  datatype Result<+T, +E> = Ok(value: T) | Err(error: E)

  /** What an egress lease or a browser task is for. */
  datatype Purpose = SessionPurpose | ScanPurpose | OtherPurpose

  /** The characters with the Unicode White_Space property, as Go's unicode.IsSpace sees them. */
  predicate IsSpace(c: char) {
    || '\t' <= c <= '\r'
    || c == ' '
    || c == '\U{85}'
    || c == '\U{A0}'
    || c == '\U{1680}'
    || '\U{2000}' <= c <= '\U{200A}'
    || c == '\U{2028}'
    || c == '\U{2029}'
    || c == '\U{202F}'
    || c == '\U{205F}'
    || c == '\U{3000}'
  }

  /** Where the text begins, at `i` or after it. */
  function Start(s: string, i: nat): (n: nat)
    requires i <= |s|
    ensures i <= n <= |s|
    ensures n < |s| ==> !IsSpace(s[n])
    decreases |s| - i
  {
    if i == |s| || !IsSpace(s[i]) then i else Start(s, i + 1)
  }

  /** Where it ends, at `n` or before it but not before `from`. */
  function End(s: string, from: nat, n: nat): (m: nat)
    requires from <= n <= |s|
    ensures from <= m <= n
    ensures from < m ==> !IsSpace(s[m - 1])
    decreases n
  {
    if n == from || !IsSpace(s[n - 1]) then n else End(s, from, n - 1)
  }

  /** Removes white space from both ends. */
  function Trim(s: string): (r: string)
    ensures r == "" || (!IsSpace(r[0]) && !IsSpace(r[|r| - 1]))
  {
    s[Start(s, 0)..End(s, Start(s, 0), |s|)]
  }

  /** A string whose ends are not white space is already trimmed. */
  lemma TrimFixed(s: string)
    requires s == "" || (!IsSpace(s[0]) && !IsSpace(s[|s| - 1]))
    ensures Trim(s) == s
  {
  }

  lemma TrimIdempotent(s: string)
    ensures Trim(Trim(s)) == Trim(s)
  {
    TrimFixed(Trim(s));
  }

  function LowerChar(c: char): char {
    if 'A' <= c <= 'Z' then 'a' + (c - 'A') else c
  }

  function UpperChar(c: char): char {
    if 'a' <= c <= 'z' then 'A' + (c - 'a') else c
  }

  /** Every character replaced by its counterpart, as the library's case conversions do. */
  function Recased(of: char -> char, s: string): (r: string)
    ensures |r| == |s|
    ensures forall i :: 0 <= i < |s| ==> r[i] == of(s[i])
  {
    if s == "" then "" else [of(s[0])] + Recased(of, s[1..])
  }

  function Lower(s: string): (r: string)
    ensures |r| == |s|
    ensures forall i :: 0 <= i < |s| ==> r[i] == LowerChar(s[i])
  {
    Recased(LowerChar, s)
  }

  function Upper(s: string): (r: string)
    ensures |r| == |s|
    ensures forall i :: 0 <= i < |s| ==> r[i] == UpperChar(s[i])
  {
    Recased(UpperChar, s)
  }

  predicate EqualFold(a: string, b: string) {
    Lower(a) == Lower(b)
  }

  /** What every upper-casing does: nothing twice, and nothing to white space and digits. */
  ghost predicate UpperMap(upper: char -> char) {
    && (forall c :: upper(upper(c)) == upper(c) && IsSpace(upper(c)) == IsSpace(c))
    && (forall c :: '0' <= c <= '9' ==> upper(c) == c)
  }

  /** Upper-casing a trimmed string leaves it trimmed. */
  lemma UpperTrimmed(upper: char -> char, s: string)
    requires UpperMap(upper)
    ensures Trim(Recased(upper, Trim(s))) == Recased(upper, Trim(s))
  {
    TrimFixed(Recased(upper, Trim(s)));
  }

  lemma UpperIdempotent(upper: char -> char, s: string)
    requires UpperMap(upper)
    ensures Recased(upper, Recased(upper, s)) == Recased(upper, s)
  {
    var once := Recased(upper, s);
    var twice := Recased(upper, once);
    forall i | 0 <= i < |s| ensures twice[i] == once[i] {
    }
  }

  predicate Contains(s: string, part: string) {
    exists i {:trigger s[i..i + |part|]} :: 0 <= i <= |s| - |part| && s[i..i + |part|] == part
  }

  /** Decimal digits of a string that holds nothing else. */
  predicate AllDigits(s: string) {
    forall i :: 0 <= i < |s| ==> '0' <= s[i] <= '9'
  }

  function DigitsValue(s: string): nat
    requires AllDigits(s)
  {
    if s == "" then 0 else 10 * DigitsValue(s[..|s| - 1]) + (s[|s| - 1] - '0') as int
  }

  const INT64_MAX: int := 0x7FFF_FFFF_FFFF_FFFF
  const INT64_MIN: int := -0x8000_0000_0000_0000

  function Min(a: int, b: int): int { if a <= b then a else b }

  /** Two's complement reduction of a mathematical integer to 64 bits. */
  function Wrap64(n: int): (r: int)
    ensures INT64_MIN <= r <= INT64_MAX
    ensures INT64_MIN <= n <= INT64_MAX ==> r == n
  {
    (n - INT64_MIN) % 0x1_0000_0000_0000_0000 + INT64_MIN
  }

  /** Base-10 parsing with an optional sign; absent on a syntax error or outside 64 bits. */
  function ParseInt64(s: string): (r: Option<int>)
    ensures r.Some? ==> INT64_MIN <= r.value <= INT64_MAX
  {
    var body := if s != "" && (s[0] == '+' || s[0] == '-') then s[1..] else s;
    if body == "" || !AllDigits(body) then None
    else
      var magnitude: int := DigitsValue(body);
      var n := if s[0] == '-' then -magnitude else magnitude;
      if INT64_MIN <= n <= INT64_MAX then Some(n) else None
  }
}
