/** Recovering calendar dates from date-button labels, weekday filtering and sharding (schedule.go). */
module Schedule {
  import opened Text
  import opened Calendar

  const HORIZON: nat := 400
  const WEEKDAY_WORDS: seq<string> := ["일", "월", "화", "수", "목", "금", "토"]
  const TODAY_WORD: string := "오늘"

  datatype ScheduleError = NoSelectableDates | InvalidWeekday(weekday: int)

  // ------------------------------------------------------------------ labels

  /** The end of the leading word. */
  function WordEnd(s: string): (n: nat)
    ensures n <= |s|
    ensures s != "" && !IsSpace(s[0]) ==> n > 0
  {
    if s == "" || IsSpace(s[0]) then 0 else 1 + WordEnd(s[1..])
  }

  /** The words of a string. */
  function Fields(s: string): seq<string>
    decreases |s|
  {
    if s == "" then []
    else if IsSpace(s[0]) then Fields(s[1..])
    else [s[..WordEnd(s)]] + Fields(s[WordEnd(s)..])
  }

  function Join(words: seq<string>): string {
    if words == [] then ""
    else if |words| == 1 then words[0]
    else words[0] + " " + Join(words[1..])
  }

  /** White space is reduced to single spaces between words. */
  function Normalize(s: string): string {
    Join(Fields(s))
  }

  function Digit(n: nat): char
    requires n < 10
  {
    '0' + n as char
  }

  function TwoDigits(n: nat): string
    requires n < 100
  {
    [Digit(n / 10), Digit(n % 10)]
  }

  function Forms(word: string, day: string): seq<string> {
    [word + " " + day, word + day, day + " " + word, day + word]
  }

  /** The labels the provider may put on a date's button. */
  function DateSelectionLabels(d: Date, today: Date): seq<string>
    requires Valid(d)
  {
    var day := TwoDigits(d.day);
    var usual := Forms(WEEKDAY_WORDS[Weekday(d)], day);
    if d == today then Forms(TODAY_WORD, day) + usual else usual
  }

  ghost function LabelSet(today: Date, offset: nat): set<string>
    requires Valid(today)
  {
    set caption | caption in DateSelectionLabels(AddDays(today, offset), today)
  }

  // ------------------------------------------- a label says weekday and day

  predicate IsDigit(c: char) {
    '0' <= c <= '9'
  }

  function Digits(s: string): string {
    if s == "" then "" else (if IsDigit(s[0]) then [s[0]] else "") + Digits(s[1..])
  }

  function Letters(s: string): string {
    if s == "" then "" else (if IsDigit(s[0]) || IsSpace(s[0]) then "" else [s[0]]) + Letters(s[1..])
  }

  predicate IsWord(s: string) {
    s != "" && forall c :: c in s ==> !IsDigit(c) && !IsSpace(c)
  }

  predicate IsNumber(s: string) {
    s != "" && forall c :: c in s ==> IsDigit(c)
  }

  lemma Associate(a: string, b: string, c: string)
    ensures (a + b) + c == a + (b + c)
  {
  }

  lemma {:induction false} DigitsConcat(a: string, b: string)
    ensures Digits(a + b) == Digits(a) + Digits(b)
  {
    hide IsDigit;
    if a == "" {
      assert a + b == b;
    } else {
      assert (a + b)[0] == a[0] && (a + b)[1..] == a[1..] + b;
      var head := if IsDigit(a[0]) then [a[0]] else "";
      assert Digits(a + b) == head + Digits(a[1..] + b) && Digits(a) == head + Digits(a[1..]);
      DigitsConcat(a[1..], b);
      Associate(head, Digits(a[1..]), Digits(b));
    }
  }

  lemma {:induction false} LettersConcat(a: string, b: string)
    ensures Letters(a + b) == Letters(a) + Letters(b)
  {
    hide IsDigit, IsSpace;
    if a == "" {
      assert a + b == b;
    } else {
      assert (a + b)[0] == a[0] && (a + b)[1..] == a[1..] + b;
      var head := if IsDigit(a[0]) || IsSpace(a[0]) then "" else [a[0]];
      assert Letters(a + b) == head + Letters(a[1..] + b) && Letters(a) == head + Letters(a[1..]);
      LettersConcat(a[1..], b);
      Associate(head, Letters(a[1..]), Letters(b));
    }
  }

  lemma DecodeConcat(a: string, b: string)
    ensures Digits(a + b) == Digits(a) + Digits(b)
    ensures Letters(a + b) == Letters(a) + Letters(b)
  {
    DigitsConcat(a, b);
    LettersConcat(a, b);
  }

  lemma {:induction false} DecodeParts(word: string, day: string)
    requires forall c :: c in word ==> !IsDigit(c) && !IsSpace(c)
    requires forall c :: c in day ==> IsDigit(c)
    ensures Letters(word) == word && Digits(word) == ""
    ensures Letters(day) == "" && Digits(day) == day
    decreases |word| + |day|
  {
    if word != "" {
      DecodeParts(word[1..], day);
    } else if day != "" {
      DecodeParts(word, day[1..]);
    }
  }

  lemma {:induction false} WordEndsLast(s: string)
    requires forall c :: c in s ==> !IsSpace(c)
    ensures WordEnd(s) == |s|
  {
    if s != "" {
      WordEndsLast(s[1..]);
    }
  }

  lemma OneWord(s: string)
    requires s != "" && forall c :: c in s ==> !IsSpace(c)
    ensures Fields(s) == [s] && Normalize(s) == s
  {
    WordEndsLast(s);
    assert s[..|s|] == s && s[|s|..] == "" && Fields("") == [];
  }

  lemma {:induction false} WordBeforeSpace(a: string, b: string)
    requires forall c :: c in a ==> !IsSpace(c)
    ensures WordEnd(a + " " + b) == |a|
  {
    var s := a + " " + b;
    if a != "" {
      WordBeforeSpace(a[1..], b);
      assert s[1..] == a[1..] + " " + b;
    }
  }

  lemma TwoWords(a: string, b: string)
    requires a != "" && forall c :: c in a ==> !IsSpace(c)
    requires b != "" && forall c :: c in b ==> !IsSpace(c)
    ensures Normalize(a + " " + b) == a + " " + b
  {
    var s := a + " " + b;
    WordBeforeSpace(a, b);
    OneWord(b);
    assert s[..|a|] == a && s[|a|..] == " " + b && (" " + b)[1..] == b;
    assert Fields(" " + b) == [b];
    assert Fields(s) == [a, b];
  }

  /** Every form of a label is already normal, and its word and its number can be read back from it. */
  lemma FormsDecode(word: string, day: string, caption: string)
    requires IsWord(word) && IsNumber(day) && caption in Forms(word, day)
    ensures Normalize(caption) == caption
    ensures Letters(caption) == word && Digits(caption) == day
  {
    hide Digits, Letters, Normalize;
    NumbersHaveNoSpace(day);
    hide IsDigit, IsSpace;
    DecodeParts(word, day);
    if caption == word + day {
      DecodeConcat(word, day);
      OneWord(word + day);
    } else if caption == day + word {
      DecodeConcat(day, word);
      OneWord(day + word);
    } else if caption == word + " " + day {
      SpacedDecode(word, day);
      TwoWords(word, day);
    } else {
      SpacedDecode(day, word);
      TwoWords(day, word);
    }
  }

  lemma NumbersHaveNoSpace(day: string)
    requires forall c :: c in day ==> IsDigit(c)
    ensures forall c :: c in day ==> !IsSpace(c)
  {
  }

  lemma SpacedDecode(a: string, b: string)
    ensures Digits(a + " " + b) == Digits(a) + Digits(b)
    ensures Letters(a + " " + b) == Letters(a) + Letters(b)
  {
    assert Digits(" ") == "" && Letters(" ") == "";
    hide Digits, Letters;
    DecodeConcat(a, " ");
    DecodeConcat(a + " ", b);
  }

  lemma WordsAreWords(w: nat)
    requires w < 7
    ensures IsWord(WEEKDAY_WORDS[w]) && |WEEKDAY_WORDS[w]| == 1
    ensures IsWord(TODAY_WORD) && |TODAY_WORD| == 2
  {
  }

  lemma WordsDiffer(v: nat, w: nat)
    requires v < 7 && w < 7 && WEEKDAY_WORDS[v] == WEEKDAY_WORDS[w]
    ensures v == w
  {
    assert WEEKDAY_WORDS[v][0] == WEEKDAY_WORDS[w][0];
  }

  lemma NumbersDiffer(m: nat, n: nat)
    requires m < 100 && n < 100
    ensures IsNumber(TwoDigits(m))
    ensures TwoDigits(m) == TwoDigits(n) ==> m == n
  {
  }

  /** What a date's label tells: its day of the month, and its weekday unless it says "today". */
  lemma LabelTells(d: Date, today: Date, caption: string)
    requires Valid(d) && caption in DateSelectionLabels(d, today)
    ensures Normalize(caption) == caption
    ensures Digits(caption) == TwoDigits(d.day)
    ensures Letters(caption) == WEEKDAY_WORDS[Weekday(d)] || (d == today && Letters(caption) == TODAY_WORD)
  {
    hide Forms, IsWord, IsNumber, Weekday, TwoDigits;
    WordsAreWords(Weekday(d));
    NumbersDiffer(d.day, d.day);
    var day := TwoDigits(d.day);
    if caption in Forms(WEEKDAY_WORDS[Weekday(d)], day) {
      FormsDecode(WEEKDAY_WORDS[Weekday(d)], day, caption);
    } else {
      FormsDecode(TODAY_WORD, day, caption);
    }
  }

  predicate SameLabels(a: Date, b: Date)
    requires Valid(a) && Valid(b)
  {
    a.day == b.day && Weekday(a) == Weekday(b)
  }

  /** A date other than today shares a label with another date only if weekday and day agree. */
  lemma SharedLabel(a: Date, b: Date, today: Date, caption: string)
    requires Valid(a) && Valid(b) && a != today
    requires caption in DateSelectionLabels(a, today) && caption in DateSelectionLabels(b, today)
    ensures SameLabels(a, b)
  {
    hide DateSelectionLabels, Weekday, TwoDigits;
    LabelTells(a, today, caption);
    LabelTells(b, today, caption);
    WordsAreWords(Weekday(a));
    NumbersDiffer(a.day, b.day);
    WordsDiffer(Weekday(a), Weekday(b));
  }

  /** And then it shares all of them. */
  lemma SameLabelsShareAll(a: Date, b: Date, today: Date, caption: string)
    requires Valid(a) && Valid(b) && a != today && SameLabels(a, b)
    requires caption in DateSelectionLabels(a, today)
    ensures caption in DateSelectionLabels(b, today)
  {
  }

  // ---------------------------------------------------------------- the loop

  function Offered(labels: seq<string>): set<string> {
    set caption | caption in labels :: Normalize(caption)
  }

  /** The offered labels that no date before this offset bears. */
  ghost function Unseen(offered: set<string>, today: Date, offset: nat): set<string>
    requires Valid(today)
  {
    if offset == 0 then offered else Unseen(offered, today, offset - 1) - LabelSet(today, offset - 1)
  }

  ghost function Matched(offered: set<string>, today: Date, limit: nat): seq<nat>
    requires Valid(today)
  {
    if limit == 0 then []
    else
      Matched(offered, today, limit - 1) +
      if Unseen(offered, today, limit - 1) * LabelSet(today, limit - 1) != {} then [limit - 1] else []
  }

  function DatesAt(today: Date, offsets: seq<nat>): (r: seq<Date>)
    requires Valid(today)
    ensures |r| == |offsets|
    ensures forall i :: 0 <= i < |r| ==> r[i] == AddDays(today, offsets[i])
  {
    if offsets == [] then [] else DatesAt(today, offsets[..|offsets| - 1]) + [AddDays(today, offsets[|offsets| - 1])]
  }

  lemma {:induction false} NothingLeftToMatch(offered: set<string>, today: Date, offset: nat, limit: nat)
    requires Valid(today) && offset <= limit && Unseen(offered, today, offset) == {}
    ensures Unseen(offered, today, limit) == {}
    ensures Matched(offered, today, limit) == Matched(offered, today, offset)
  {
    hide LabelSet;
    if offset < limit {
      NothingLeftToMatch(offered, today, offset, limit - 1);
    }
  }

  lemma MatchStep(offered: set<string>, today: Date, offset: nat, matched: bool)
    requires Valid(today)
    requires matched <==> Unseen(offered, today, offset) * LabelSet(today, offset) != {}
    ensures !matched ==> Unseen(offered, today, offset + 1) == Unseen(offered, today, offset)
    ensures DatesAt(today, Matched(offered, today, offset + 1)) ==
            DatesAt(today, Matched(offered, today, offset)) + if matched then [AddDays(today, offset)] else []
  {
    hide LabelSet, DatesAt;
    var before := Matched(offered, today, offset);
    if matched {
      assert Matched(offered, today, offset + 1) == before + [offset];
      DatesAtOneMore(today, before, offset);
    } else {
      assert Matched(offered, today, offset + 1) == before + [] == before;
      assert DatesAt(today, before) + [] == DatesAt(today, before);
      NothingToRemove(Unseen(offered, today, offset), LabelSet(today, offset));
    }
  }

  lemma NothingToRemove(a: set<string>, b: set<string>)
    requires a * b == {}
    ensures a - b == a
  {
    forall x | x in a ensures x !in b {
      assert x in a * b <==> x in b;
    }
  }

  lemma DatesAtOneMore(today: Date, offsets: seq<nat>, k: nat)
    requires Valid(today)
    ensures DatesAt(today, offsets + [k]) == DatesAt(today, offsets) + [AddDays(today, k)]
  {
    assert (offsets + [k])[..|offsets|] == offsets;
  }

  /** Whether some variant is among the remaining labels. */
  method AnyRemaining(variants: seq<string>, remaining: set<string>) returns (matched: bool)
    requires forall v :: v in variants ==> Normalize(v) == v
    ensures matched <==> remaining * (set v | v in variants) != {}
  {
    matched := false;
    for i := 0 to |variants|
      invariant forall j :: 0 <= j < i ==> variants[j] !in remaining
    {
      if Normalize(variants[i]) in remaining {
        assert variants[i] in remaining * (set v | v in variants);
        return true;
      }
    }
  }

  method WithoutVariants(variants: seq<string>, remaining: set<string>) returns (r: set<string>)
    requires forall v :: v in variants ==> Normalize(v) == v
    ensures r == remaining - (set v | v in variants)
  {
    r := remaining;
    for i := 0 to |variants|
      invariant r == remaining - (set v | v in variants[..i])
    {
      r := r - {Normalize(variants[i])};
    }
    assert variants[..|variants|] == variants;
  }

  method NormalizeAll(labels: seq<string>) returns (r: set<string>)
    ensures r == Offered(labels)
  {
    r := {};
    for i := 0 to |labels|
      invariant r == Offered(labels[..i])
    {
      r := r + {Normalize(labels[i])};
    }
    assert labels[..|labels|] == labels;
  }

  /** The offered dates, nearest first; an error if no label names a date. */
  method AvailableScheduleDates(labels: seq<string>, today: Date) returns (r: Result<seq<Date>, ScheduleError>)
    requires Valid(today)
    ensures r == var offsets := Matched(Offered(labels), today, HORIZON);
                 if offsets == [] then Err(NoSelectableDates) else Ok(DatesAt(today, offsets))
  {
    hide Offered, Normalize, Matched, Unseen, DatesAt, AddDays, DateSelectionLabels;
    var remaining := NormalizeAll(labels);
    ghost var offered := remaining;
    var dates: seq<Date> := [];
    var offset := 0;
    LoopStarts(offered, today);
    while offset < HORIZON && |remaining| > 0
      invariant offset <= HORIZON
      invariant remaining == Unseen(offered, today, offset)
      invariant dates == DatesAt(today, Matched(offered, today, offset))
    {
      var candidate := AddDays(today, offset);
      var variants := DateSelectionLabels(candidate, today);
      VariantsAreNormal(candidate, today);
      var matched := AnyRemaining(variants, remaining);
      MatchStep(offered, today, offset, matched);
      UnseenStep(offered, today, offset);
      if matched {
        dates := dates + [candidate];
        remaining := WithoutVariants(variants, remaining);
      }
      offset := offset + 1;
    }
    if remaining == {} {
      NothingLeftToMatch(offered, today, offset, HORIZON);
    }
    DatesAtLength(today, Matched(offered, today, HORIZON));
    if |dates| == 0 {
      return Err(NoSelectableDates);
    }
    return Ok(dates);
  }

  lemma VariantsAreNormal(d: Date, today: Date)
    requires Valid(d)
    ensures forall v :: v in DateSelectionLabels(d, today) ==> Normalize(v) == v
  {
    hide DateSelectionLabels, Normalize;
    forall v | v in DateSelectionLabels(d, today) ensures Normalize(v) == v {
      LabelTells(d, today, v);
    }
  }

  lemma LoopStarts(offered: set<string>, today: Date)
    requires Valid(today)
    ensures Unseen(offered, today, 0) == offered && DatesAt(today, Matched(offered, today, 0)) == []
  {
  }

  lemma UnseenStep(offered: set<string>, today: Date, offset: nat)
    requires Valid(today)
    ensures Unseen(offered, today, offset + 1) == Unseen(offered, today, offset) - LabelSet(today, offset)
  {
  }

  lemma DatesAtLength(today: Date, offsets: seq<nat>)
    requires Valid(today)
    ensures |DatesAt(today, offsets)| == |offsets|
  {
  }

  // ----------------------------------------------------- what the loop finds

  predicate Increasing(s: seq<nat>) {
    forall i, j :: 0 <= i < j < |s| ==> s[i] < s[j]
  }

  /** The date at this offset is the nearest one bearing some offered label. */
  ghost predicate IsNearest(offered: set<string>, today: Date, offset: nat)
    requires Valid(today)
  {
    exists caption :: caption in offered && caption in LabelSet(today, offset) &&
                    forall j: nat :: j < offset ==> caption !in LabelSet(today, j)
  }

  lemma {:induction false} UnseenExact(offered: set<string>, today: Date, offset: nat, caption: string)
    requires Valid(today)
    ensures caption in Unseen(offered, today, offset) <==>
            caption in offered && forall j: nat :: j < offset ==> caption !in LabelSet(today, j)
  {
    hide LabelSet;
    if offset > 0 {
      UnseenExact(offered, today, offset - 1, caption);
    }
  }

  lemma NearestMatches(offered: set<string>, today: Date, offset: nat)
    requires Valid(today)
    ensures IsNearest(offered, today, offset) <==> Unseen(offered, today, offset) * LabelSet(today, offset) != {}
  {
    hide LabelSet, Unseen;
    forall caption ensures caption in Unseen(offered, today, offset) <==>
                         caption in offered && forall j: nat :: j < offset ==> caption !in LabelSet(today, j)
    {
      UnseenExact(offered, today, offset, caption);
    }
    if IsNearest(offered, today, offset) {
      var caption :| caption in offered && caption in LabelSet(today, offset) &&
                   forall j: nat :: j < offset ==> caption !in LabelSet(today, j);
      assert caption in Unseen(offered, today, offset) * LabelSet(today, offset);
    }
    if Unseen(offered, today, offset) * LabelSet(today, offset) != {} {
      var caption :| caption in Unseen(offered, today, offset) * LabelSet(today, offset);
      assert caption in offered && caption in LabelSet(today, offset);
    }
  }

  /** The loop returns, strictly increasing, exactly the offsets below the limit that are nearest for some label. */
  lemma {:induction false} MatchedExact(offered: set<string>, today: Date, limit: nat)
    requires Valid(today)
    ensures Increasing(Matched(offered, today, limit))
    ensures forall k: nat :: k in Matched(offered, today, limit) <==> k < limit && IsNearest(offered, today, k)
  {
    if limit == 0 {
      assert Matched(offered, today, limit) == [];
    } else {
      hide *;
      MatchedExact(offered, today, limit - 1);
      var now := MatchedOneMore(offered, today, limit);
      OneMoreExact(offered, today, limit, Matched(offered, today, limit - 1), now);
    }
  }

  lemma MatchedOneMore(offered: set<string>, today: Date, limit: nat) returns (now: seq<nat>)
    requires Valid(today) && limit > 0
    ensures now == if IsNearest(offered, today, limit - 1) then [limit - 1] else []
    ensures Matched(offered, today, limit) == Matched(offered, today, limit - 1) + now
  {
    hide LabelSet, Unseen, IsNearest;
    NearestMatches(offered, today, limit - 1);
    now := if IsNearest(offered, today, limit - 1) then [limit - 1] else [];
  }

  lemma OneMoreExact(offered: set<string>, today: Date, limit: nat, before: seq<nat>, now: seq<nat>)
    requires Valid(today) && limit > 0 && Increasing(before)
    requires forall k: nat :: k in before <==> k < limit - 1 && IsNearest(offered, today, k)
    requires now == if IsNearest(offered, today, limit - 1) then [limit - 1] else []
    ensures Increasing(before + now)
    ensures forall k: nat :: k in before + now <==> k < limit && IsNearest(offered, today, k)
  {
    hide IsNearest;
    forall i | 0 <= i < |before| ensures before[i] < limit - 1 {
      assert before[i] in before;
    }
    forall k: nat ensures k in before + now <==> k in before || k in now {
    }
  }

  /** The labels on offer are labels of these dates, and each of these dates has one on offer. */
  ghost predicate Advertises(offered: set<string>, today: Date, days: set<nat>)
    requires Valid(today)
  {
    && (forall caption :: caption in offered ==> exists k :: k in days && caption in LabelSet(today, k))
    && (forall k :: k in days ==> offered * LabelSet(today, k) != {})
  }

  /** No earlier date from today on carries the same weekday and day of the month. */
  ghost predicate Unambiguous(today: Date, k: nat)
    requires Valid(today)
  {
    forall j: nat :: j < k ==> !SameLabels(AddDays(today, k), AddDays(today, j))
  }

  lemma NeverTodayAgain(today: Date, k: nat)
    requires Valid(today) && k > 0
    ensures AddDays(today, k) != today
  {
    AddDaysNumber(today, k);
  }

  /** An unambiguous date is the first to bear any of its labels; an ambiguous one is first for none. */
  lemma FirstBearer(today: Date, k: nat, caption: string)
    requires Valid(today) && caption in LabelSet(today, k)
    ensures Unambiguous(today, k) <==> forall j: nat :: j < k ==> caption !in LabelSet(today, j)
  {
    hide AddDays, DateSelectionLabels, SameLabels;
    forall j: nat | j < k
      ensures caption in LabelSet(today, j) <==> SameLabels(AddDays(today, k), AddDays(today, j))
    {
      var d, e := AddDays(today, k), AddDays(today, j);
      NeverTodayAgain(today, k);
      if caption in LabelSet(today, j) {
        SharedLabel(d, e, today, caption);
      }
      if SameLabels(d, e) {
        SameLabelsShareAll(d, e, today, caption);
      }
    }
  }

  lemma NearestNeedsUnambiguous(offered: set<string>, today: Date, days: set<nat>, k: nat)
    requires Valid(today) && Advertises(offered, today, days) && k in days
    ensures IsNearest(offered, today, k) <==> Unambiguous(today, k)
  {
    hide LabelSet, Unambiguous;
    forall caption | caption in LabelSet(today, k)
      ensures Unambiguous(today, k) <==> forall j: nat :: j < k ==> caption !in LabelSet(today, j)
    {
      FirstBearer(today, k, caption);
    }
    var some :| some in offered * LabelSet(today, k);
  }

  /**
   * The decoding law and its exact limit: the labels of some dates within the horizon decode to exactly those
   * dates if and only if each of the dates is unambiguous.
   */
  lemma LabelsDecode(labels: seq<string>, today: Date, days: set<nat>)
    requires Valid(today) && Advertises(Offered(labels), today, days)
    requires forall k :: k in days ==> k < HORIZON
    ensures (forall k: nat :: k in Matched(Offered(labels), today, HORIZON) <==> k in days) <==>
            (forall k :: k in days ==> Unambiguous(today, k))
  {
    hide Offered, LabelSet, Matched, Unambiguous, IsNearest;
    var offered := Offered(labels);
    MatchedExact(offered, today, HORIZON);
    forall k | k in days ensures IsNearest(offered, today, k) <==> Unambiguous(today, k) {
      NearestNeedsUnambiguous(offered, today, days, k);
    }
    if forall k :: k in days ==> Unambiguous(today, k) {
      forall k: nat | k in Matched(offered, today, HORIZON) ensures k in days {
        NearestIsAdvertised(offered, today, days, k);
      }
    }
  }

  lemma NearestIsAdvertised(offered: set<string>, today: Date, days: set<nat>, k: nat)
    requires Valid(today) && Advertises(offered, today, days) && IsNearest(offered, today, k)
    requires forall d :: d in days ==> Unambiguous(today, d)
    ensures k in days
  {
    hide LabelSet, Unambiguous;
    var caption :| caption in offered && caption in LabelSet(today, k) &&
                 forall j: nat :: j < k ==> caption !in LabelSet(today, j);
    var d :| d in days && caption in LabelSet(today, d);
    FirstBearer(today, d, caption);
    assert !(k < d) && !(d < k);
  }

  /** Within 59 days the only ambiguous dates lie 28 days after a day of a common-year February. */
  lemma AmbiguousOnlyAfterFebruary(today: Date, k: nat)
    requires Valid(today) && k < 59
    ensures Unambiguous(today, k) <==>
            !(k >= 28 && AddDays(today, k - 28).month == 2 && !Leap(AddDays(today, k - 28).year))
  {
    hide AddDays, Weekday;
    forall j: nat | j < k
      ensures SameLabels(AddDays(today, k), AddDays(today, j)) <==>
              k - j == 28 && AddDays(today, j).month == 2 && !Leap(AddDays(today, j).year)
    {
      AddDaysSplit(today, j, k - j);
      SameLabelAgain(AddDays(today, j), k - j);
    }
  }

  /** Any dates of the four weeks from today are recovered exactly from their labels. */
  lemma FourWeeksDecode(labels: seq<string>, today: Date, days: set<nat>)
    requires Valid(today) && Advertises(Offered(labels), today, days)
    requires forall k :: k in days ==> k < 28
    ensures forall k: nat :: k in Matched(Offered(labels), today, HORIZON) <==> k in days
  {
    hide Offered, Matched, Unambiguous, Advertises;
    forall k | k in days ensures Unambiguous(today, k) {
      AmbiguousOnlyAfterFebruary(today, k);
    }
    LabelsDecode(labels, today, days);
  }

  /** Four weeks is as far as it goes: on 1 February 2026 no labels of 1 March decode to 1 March. */
  lemma FourWeeksIsTheLimit(labels: seq<string>)
    requires Advertises(Offered(labels), Date(2026, 2, 1), {28})
    ensures AddDays(Date(2026, 2, 1), 28) == Date(2026, 3, 1)
    ensures 28 !in Matched(Offered(labels), Date(2026, 2, 1), HORIZON)
  {
    hide Offered, Matched, Advertises, Unambiguous, IsNearest;
    var today := Date(2026, 2, 1);
    FirstOfMarch(today);
    MatchedExact(Offered(labels), today, HORIZON);
    NearestNeedsUnambiguous(Offered(labels), today, {28}, 28);
  }

  lemma FirstOfMarch(today: Date)
    requires today == Date(2026, 2, 1)
    ensures AddDays(today, 28) == Date(2026, 3, 1) && !Unambiguous(today, 28)
  {
    PastMonth(today, 28);
    hide AddDays;
    WithinMonth(FirstOfNextMonth(today), 0);
    WithinMonth(today, 0);
    AmbiguousOnlyAfterFebruary(today, 28);
  }

  // ---------------------------------------------------- weekdays and sharding

  /** The dates whose weekday is selected, in order. */
  function OnWeekdays(dates: seq<Date>, selected: set<int>): seq<Date>
    requires forall d :: d in dates ==> Valid(d)
  {
    if dates == [] then []
    else
      OnWeekdays(dates[..|dates| - 1], selected) +
      if Weekday(dates[|dates| - 1]) in selected then [dates[|dates| - 1]] else []
  }

  /** No weekday at all selects every date. */
  function Selected(dates: seq<Date>, weekdays: seq<int>): (r: seq<Date>)
    requires forall d :: d in dates ==> Valid(d)
  {
    if weekdays == [] then dates else OnWeekdays(dates, set w | w in weekdays)
  }

  predicate Chronological(dates: seq<Date>)
    requires forall d :: d in dates ==> Valid(d)
  {
    forall i, j :: 0 <= i < j < |dates| ==> DayNumber(dates[i]) < DayNumber(dates[j])
  }

  /** Filtering keeps exactly the dates of the selected weekdays, in their order. */
  lemma {:induction false} OnWeekdaysExact(dates: seq<Date>, selected: set<int>)
    requires forall d :: d in dates ==> Valid(d)
    ensures forall d :: d in OnWeekdays(dates, selected) <==> d in dates && Weekday(d) in selected
    ensures Chronological(dates) ==> Chronological(OnWeekdays(dates, selected))
  {
    if dates != [] {
      hide DayNumber, Weekday, Chronological;
      var before, last := dates[..|dates| - 1], dates[|dates| - 1];
      assert dates == before + [last];
      OnWeekdaysExact(before, selected);
      var kept := OnWeekdays(before, selected);
      if Chronological(dates) {
        LaterThanBefore(before, last);
        if Weekday(last) in selected {
          AppendLater(kept, last);
        } else {
          assert kept + [] == kept;
        }
      }
    }
  }

  lemma LaterThanBefore(before: seq<Date>, last: Date)
    requires forall d :: d in before + [last] ==> Valid(d)
    requires Chronological(before + [last])
    ensures forall d :: d in before ==> Valid(d)
    ensures Chronological(before)
    ensures forall d :: d in before ==> DayNumber(d) < DayNumber(last)
  {
    hide DayNumber, Valid;
    var dates := before + [last];
    forall i | 0 <= i < |before| ensures Valid(before[i]) && DayNumber(before[i]) < DayNumber(last) {
      assert dates[i] == before[i] && dates[|before|] == last && dates[i] in dates;
    }
    forall i, j | 0 <= i < j < |before| ensures DayNumber(before[i]) < DayNumber(before[j]) {
      assert dates[i] == before[i] && dates[j] == before[j];
    }
  }

  lemma AppendLater(dates: seq<Date>, last: Date)
    requires Valid(last) && forall d :: d in dates ==> Valid(d)
    requires Chronological(dates)
    requires forall d :: d in dates ==> DayNumber(d) < DayNumber(last)
    ensures Chronological(dates + [last])
  {
    hide DayNumber, Valid;
    forall i | 0 <= i < |dates| ensures DayNumber(dates[i]) < DayNumber(last) {
      assert dates[i] in dates;
    }
  }

  method FilterByWeekdays(dates: seq<Date>, weekdays: seq<int>) returns (r: Result<seq<Date>, ScheduleError>)
    requires forall d :: d in dates ==> Valid(d)
    ensures r.Err? <==> exists w :: w in weekdays && !(0 <= w <= 6)
    ensures r.Err? ==> r.error.InvalidWeekday? && r.error.weekday in weekdays
    ensures r.Ok? ==> r.value == Selected(dates, weekdays)
  {
    var selected: set<int> := {};
    for i := 0 to |weekdays|
      invariant selected == set w | w in weekdays[..i]
      invariant selected == {} <==> i == 0
      invariant forall w :: w in weekdays[..i] ==> 0 <= w <= 6
    {
      assert weekdays[i] in weekdays && weekdays[..i + 1] == weekdays[..i] + [weekdays[i]];
      if weekdays[i] < 0 || weekdays[i] > 6 {
        return Err(InvalidWeekday(weekdays[i]));
      }
      selected := selected + {weekdays[i]};
    }
    assert weekdays[..|weekdays|] == weekdays;
    if |selected| == 0 {
      return Ok(dates);
    }
    hide Weekday, Valid;
    var result: seq<Date> := [];
    for i := 0 to |dates|
      invariant result == OnWeekdays(dates[..i], selected)
    {
      assert dates[..i + 1][..i] == dates[..i];
      if Weekday(dates[i]) in selected {
        result := result + [dates[i]];
      }
    }
    assert dates[..|dates|] == dates;
    return Ok(result);
  }

  function ShardIndex(shard: int, n: nat): (i: nat)
    requires n > 0
    ensures i < n
  {
    (if shard < 0 then 0 else shard) % n
  }

  /** The one date a shard refreshes, if any date matches. */
  method ShardDate(labels: seq<string>, today: Date, weekdays: seq<int>, shard: int)
    returns (r: Result<Option<Date>, ScheduleError>)
    requires Valid(today)
    ensures var offsets := Matched(Offered(labels), today, HORIZON);
            if offsets == [] then r == Err(NoSelectableDates)
            else if exists w :: w in weekdays && !(0 <= w <= 6) then r.Err? && r.error.InvalidWeekday?
            else
              var dates := Selected(DatesAt(today, offsets), weekdays);
              r == Ok(if dates == [] then None else Some(dates[ShardIndex(shard, |dates|)]))
  {
    hide Offered, Matched, DatesAt, Selected, Valid;
    var available := AvailableScheduleDates(labels, today);
    if available.Err? {
      return Err(available.error);
    }
    var filtered := FilterByWeekdays(available.value, weekdays);
    if filtered.Err? {
      return Err(filtered.error);
    }
    var dates := filtered.value;
    if |dates| == 0 {
      return Ok(None);
    }
    var chosen := shard;
    if chosen < 0 {
      chosen := 0;
    }
    return Ok(Some(dates[chosen % |dates|]));
  }

  /** What n consecutive shard numbers visit. */
  function Visits(dates: seq<Date>, start: nat): (r: seq<Date>)
    requires dates != []
  {
    seq(|dates|, i requires 0 <= i < |dates| => dates[ShardIndex(start + i, |dates|)])
  }

  lemma WrapsOnce(start: nat, i: nat, n: nat)
    requires i < n
    ensures (start + i) % n == if start % n + i < n then start % n + i else start % n + i - n
  {
    var q, s := start / n, start % n;
    if s + i < n {
      QuotientUnique(start + i, n, q, s + i);
    } else {
      assert (q + 1) * n == q * n + n;
      QuotientUnique(start + i, n, q + 1, s + i - n);
    }
  }

  lemma QuotientUnique(a: int, n: nat, q: int, r: nat)
    requires n > 0 && r < n && a == q * n + r
    ensures a % n == r
  {
    var d := a / n - q;
    assert a == (a / n) * n + a % n;
    assert d * n == r - a % n;
    MultipleIsFar(d, n);
  }

  lemma MultipleIsFar(d: int, n: nat)
    ensures d >= 1 ==> d * n >= n
    ensures d <= -1 ==> d * n + n <= 0
  {
  }

  /** They visit the dates in rotation: every date exactly once, whatever the first shard number. */
  lemma ShardsVisitEachOnce(dates: seq<Date>, start: nat)
    requires dates != []
    ensures Visits(dates, start) == dates[start % |dates|..] + dates[..start % |dates|]
    ensures multiset(Visits(dates, start)) == multiset(dates)
  {
    var n := |dates|;
    var s := start % n;
    var rotated := dates[s..] + dates[..s];
    forall i | 0 <= i < n ensures Visits(dates, start)[i] == rotated[i] {
      WrapsOnce(start, i, n);
      assert ShardIndex(start + i, n) == if s + i < n then s + i else s + i - n;
    }
    assert Visits(dates, start) == rotated;
    assert dates == dates[..s] + dates[s..];
  }
}
