/** Live availability read from the payload the layout came from (internal/provider/cgv/seat_availability.go). */
module SeatAvailability {
  import opened Text
  import opened Sequences
  import opened SeatMap
  import opened SeatLayout

  datatype AvailabilityError =
    | MissingIdentity | NoAreas | InvalidLayoutSeat
    | BadLabel | UnknownSeat(name: string) | RepeatedSeat(name: string) | MissingStatus(name: string)
    | Incomplete(seen: nat, expected: nat)

  predicate ValidStatusCode(code: string) {
    code == "00" || code == "01" || code == "03" || code == "04"
  }

  function SaleFlag(s: SeatSource): string {
    Upper(Trim(s.saleYN))
  }

  predicate StatusKnown(s: SeatSource) {
    (SaleFlag(s) == "Y" || SaleFlag(s) == "N") && ValidStatusCode(Trim(s.statusCode))
  }

  predicate IsFree(s: SeatSource) {
    SaleFlag(s) == "Y" && Trim(s.statusCode) == "00"
  }

  function SourceId(s: SeatSource, hall: Hall): string {
    var name := NormalizedLabel(s, hall.upper);
    if name.None? then "" else hall.seatId(name.value.text)
  }

  /** The reading of identities in an auditorium. */
  function IdIn(hall: Hall): SeatSource -> string {
    s => SourceId(s, hall)
  }

  function SeatsOf(item: Item): seq<SeatSource> { item.seats }

  /** All seats of the payload in the provider's order. */
  function AllSources(items: seq<Item>): seq<SeatSource> {
    Flat(SeatsOf, items)
  }

  function FreeIds(sources: seq<SeatSource>, idOf: SeatSource -> string): seq<string> {
    Flat(s => if IsFree(s) then [idOf(s)] else [], sources)
  }

  /** A label can be read from the seat, and its identity is known. */
  predicate Recognised(s: SeatSource, hall: Hall, known: set<string>) {
    NormalizedLabel(s, hall.upper).Some? && SourceId(s, hall) in known
  }

  /** The payload's seats are exactly the known seats, each once. */
  ghost predicate Complete(items: seq<Item>, hall: Hall, known: set<string>) {
    var sources := AllSources(items);
    && (forall s :: s in sources ==> Recognised(s, hall, known))
    && Distinct(Map(IdIn(hall), sources))
    && |sources| == |known|
  }

  ghost predicate StatusesKnown(items: seq<Item>) {
    forall s :: s in AllSources(items) ==> StatusKnown(s)
  }

  // -------------------------------------------------------------- the two loops

  /** What the loops know after some seats. */
  ghost predicate Scanned(
    done: seq<SeatSource>, seen: set<string>, available: seq<string>, idOf: SeatSource -> string)
  {
    && (forall s :: s in done ==> StatusKnown(s))
    && Distinct(Map(idOf, done))
    && (forall id :: id in seen <==> id in Map(idOf, done))
    && |seen| == |done|
    && available == FreeIds(done, idOf)
  }

  lemma FreeOneMore(done: seq<SeatSource>, s: SeatSource, idOf: SeatSource -> string)
    ensures FreeIds(done + [s], idOf) == FreeIds(done, idOf) + if IsFree(s) then [idOf(s)] else []
  {
    assert (done + [s])[..|done|] == done;
  }

  lemma ScannedOneMore(
    done: seq<SeatSource>, seen: set<string>, available: seq<string>, idOf: SeatSource -> string, s: SeatSource)
    requires Scanned(done, seen, available, idOf) && idOf(s) !in seen && StatusKnown(s)
    ensures var id := idOf(s);
            Scanned(done + [s], seen + {id}, if IsFree(s) then available + [id] else available, idOf)
  {
    hide StatusKnown, IsFree, Distinct;
    MapConcat(idOf, done, [s]);
    DistinctOneMore(Map(idOf, done), idOf(s));
    FreeOneMore(done, s, idOf);
    hide FreeIds;
  }

  lemma PartOfAll(items: seq<Item>, i: nat, j: nat)
    requires i < |items| && j < |items[i].seats|
    ensures var done := AllSources(items[..i]) + items[i].seats[..j];
            && done + [items[i].seats[j]] == AllSources(items[..i]) + items[i].seats[..j + 1]
            && done + [items[i].seats[j]] <= AllSources(items)
  {
    FlatOneMore(SeatsOf, items, i);
    FlatPrefix(SeatsOf, items, i + 1);
  }

  /** An identity that repeats early on repeats in the whole. */
  lemma RepeatedEarly<A, K>(idOf: A -> K, done: seq<A>, s: A, all: seq<A>)
    requires done + [s] <= all
    ensures s in all
    ensures idOf(s) in Map(idOf, done) ==> !Distinct(Map(idOf, all))
  {
    assert s == all[|done|];
    if idOf(s) in Map(idOf, done) {
      var ids := Map(idOf, all);
      var k :| 0 <= k < |done| && Map(idOf, done)[k] == idOf(s);
      assert all[k] == done[k];
      assert ids[k] == ids[|done|];
    }
  }

  /** The ids of the seats on sale and free, in order; an error names the first seat without a usable answer. */
  method ProviderAvailableSeats(items: seq<Item>, hall: Hall, known: set<string>)
    returns (r: Result<seq<string>, AvailabilityError>)
    ensures r.Ok? <==> Complete(items, hall, known) && StatusesKnown(items)
    ensures Complete(items, hall, known) && r.Err? ==> r.error.MissingStatus?
    ensures r.Ok? ==>
              Sorted(Leq, r.value) && multiset(r.value) == multiset(FreeIds(AllSources(items), IdIn(hall)))
  {
    hide AllSources, FreeIds, NormalizedLabel, SaleFlag, ValidStatusCode, Trim, Distinct, Map;
    var seen: set<string> := {};
    var available: seq<string> := [];
    ghost var all := AllSources(items);
    ghost var idOf := IdIn(hall);
    StartOfScan(items, idOf);
    for i := 0 to |items|
      invariant AllSources(items[..i]) <= all
      invariant Scanned(AllSources(items[..i]), seen, available, idOf)
      invariant forall s :: s in AllSources(items[..i]) ==> Recognised(s, hall, known)
    {
      var seats := items[i].seats;
      assert AllSources(items[..i]) + seats[..0] == AllSources(items[..i]);
      for j := 0 to |seats|
        invariant AllSources(items[..i]) + seats[..j] <= all
        invariant Scanned(AllSources(items[..i]) + seats[..j], seen, available, idOf)
        invariant forall s :: s in AllSources(items[..i]) + seats[..j] ==> Recognised(s, hall, known)
      {
        var source := seats[j];
        ghost var done := AllSources(items[..i]) + seats[..j];
        PartOfAll(items, i, j);
        RepeatedEarly(idOf, done, source, all);
        var caption := NormalizedLabel(source, hall.upper);
        if caption.None? {
          assert !Recognised(source, hall, known);
          return Err(BadLabel);
        }
        var name := caption.value.text;
        var id := hall.seatId(name);
        if id !in known {
          assert !Recognised(source, hall, known);
          return Err(UnknownSeat(name));
        }
        if id in seen {
          return Err(RepeatedSeat(name));
        }
        var saleYN := SaleFlag(source);
        var statusCode := Trim(source.statusCode);
        if (saleYN != "Y" && saleYN != "N") || !ValidStatusCode(statusCode) {
          assert !StatusKnown(source);
          return Err(MissingStatus(name));
        }
        ScannedOneMore(done, seen, available, idOf, source);
        seen := seen + {id};
        if saleYN == "Y" && statusCode == "00" {
          available := available + [id];
        }
      }
      AllOneMore(items, i);
      assert seats[..|seats|] == seats;
    }
    assert items[..|items|] == items;
    if |seen| != |known| {
      return Err(Incomplete(|seen|, |known|));
    }
    LeqOrders();
    SortBySorts(Leq, available);
    return Ok(SortBy(Leq, available));
  }

  lemma AllOneMore(items: seq<Item>, i: nat)
    requires i < |items|
    ensures AllSources(items[..i + 1]) == AllSources(items[..i]) + items[i].seats
  {
    FlatOneMore(SeatsOf, items, i);
  }

  lemma StartOfScan(items: seq<Item>, idOf: SeatSource -> string)
    ensures AllSources(items[..0]) == [] && Scanned([], {}, [], idOf)
  {
  }

  function IdSet(seats: seq<Seat>): set<string> {
    set s | s in seats :: s.id
  }

  predicate NoBlankId(seats: seq<Seat>) {
    forall s :: s in seats ==> Trim(s.id) != ""
  }

  lemma IdSetOneMore(seats: seq<Seat>, i: nat)
    requires i < |seats|
    ensures IdSet(seats[..i + 1]) == IdSet(seats[..i]) + {seats[i].id}
  {
    assert seats[..i + 1] == seats[..i] + [seats[i]];
  }

  method LayoutIndex(l: Layout) returns (r: Result<set<string>, AvailabilityError>)
    ensures r.Ok? <==> NoBlankId(l.seats)
    ensures r.Ok? ==> r.value == IdSet(l.seats)
    ensures r.Err? ==> r.error.InvalidLayoutSeat?
  {
    hide Trim, IdSet;
    var layoutSeats: set<string> := {};
    assert IdSet(l.seats[..0]) == {} by { NoIds(l.seats); }
    for i := 0 to |l.seats|
      invariant layoutSeats == IdSet(l.seats[..i])
      invariant forall j :: 0 <= j < i ==> Trim(l.seats[j].id) != ""
    {
      if Trim(l.seats[i].id) == "" {
        assert l.seats[i] in l.seats;
        return Err(InvalidLayoutSeat);
      }
      IdSetOneMore(l.seats, i);
      layoutSeats := layoutSeats + {l.seats[i].id};
    }
    assert l.seats[..|l.seats|] == l.seats;
    return Ok(layoutSeats);
  }

  lemma NoIds(seats: seq<Seat>)
    ensures IdSet(seats[..0]) == {}
  {
  }

  /** The payload has areas, the layout's identities are usable, and they are exactly the payload's. */
  ghost predicate Matches(items: seq<Item>, hall: Hall, l: Layout) {
    items != [] && NoBlankId(l.seats) && Complete(items, hall, IdSet(l.seats))
  }

  /** The part of the availability parser that follows the decoding of the response. */
  method ParseAvailability(items: seq<Item>, hall: Hall, l: Option<Layout>)
    returns (r: Result<seq<string>, AvailabilityError>)
    ensures l.None? || Trim(hall.auditorium) == "" ==> r == Err(MissingIdentity)
    ensures l.Some? && Trim(hall.auditorium) != "" ==>
              && (r.Ok? <==> Matches(items, hall, l.value) && StatusesKnown(items))
              && (Matches(items, hall, l.value) && r.Err? ==> r.error.MissingStatus?)
    ensures r.Ok? ==>
              Sorted(Leq, r.value) && multiset(r.value) == multiset(FreeIds(AllSources(items), IdIn(hall)))
  {
    hide Complete, StatusesKnown, FreeIds, AllSources, Sorted, Trim, NoBlankId, IdSet;
    if l.None? || Trim(hall.auditorium) == "" {
      return Err(MissingIdentity);
    }
    if |items| == 0 {
      return Err(NoAreas);
    }
    var known := LayoutIndex(l.value);
    if known.Err? {
      return Err(known.error);
    }
    r := ProviderAvailableSeats(items, hall, known.value);
  }

  // ------------------------------------------------------------- the agreement

  function IdOf(s: Seat): string { s.id }

  /** Different normal labels get different identities, and none is blank. */
  ghost predicate ProperIds(hall: Hall) {
    && (forall a, b ::
          NormalLabel(a, hall.upper) && NormalLabel(b, hall.upper) && hall.seatId(a) == hall.seatId(b) ==> a == b)
    && (forall a :: NormalLabel(a, hall.upper) ==> Trim(hall.seatId(a)) != "")
  }

  /** The identity of a catalog entry: its kind and the digest of the lower-cased, NUL-joined parts. */
  function CatalogId(
    digest: string -> string, lower: char -> char, provider: string, kind: string, sourceKey: string): string
  {
    var key := Trim(provider) + "\0" + Trim(kind) + "\0" + Trim(sourceKey);
    Trim(kind) + "_" + digest(Recased(lower, key))
  }

  function SeatId(
    digest: string -> string, upper: char -> char, lower: char -> char, auditorium: string, text: string): string
  {
    CatalogId(digest, lower, "catalog", "seat", Trim(auditorium) + "\0" + Recased(upper, Trim(text)))
  }

  /** The hall's identities are the repository's own, for some digest and some lower-casing. */
  ghost predicate OwnIds(hall: Hall, digest: string -> string, lower: char -> char) {
    && UpperMap(hall.upper)
    && (forall a, b :: digest(a) == digest(b) ==> a == b)
    && (forall text :: hall.seatId(text) == SeatId(digest, hall.upper, lower, hall.auditorium, text))
  }

  /** Lower-casing keeps upper-case characters apart. */
  ghost predicate KeepsApart(upper: char -> char, lower: char -> char) {
    forall c, d :: upper(c) == c && upper(d) == d && lower(c) == lower(d) ==> c == d
  }

  function SeatKeyHead(auditorium: string): string {
    "catalog" + "\0" + "seat" + "\0" + (Trim(auditorium) + "\0")
  }

  lemma NormalIsUpper(upper: char -> char, text: string)
    requires UpperMap(upper) && NormalLabel(text, upper)
    ensures Trim(text) == text
    ensures forall c :: c in text ==> upper(c) == c
  {
    UpperTrimmed(upper, text);
    hide Trim, Recased, UpperMap;
    assert Recased(upper, text) == text;
  }

  lemma NormalUppered(upper: char -> char, text: string)
    requires NormalLabel(text, upper)
    ensures Recased(upper, Trim(text)) == text
  {
  }

  lemma WordTrimmed(s: string)
    requires s != "" && !IsSpace(s[0]) && !IsSpace(s[|s| - 1])
    ensures Trim(s) == s
  {
    TrimFixed(s);
  }

  /** The source key of a normal label is already trimmed. */
  lemma SourceKeyTrimmed(auditorium: string, text: string)
    requires Trim(text) == text
    ensures Trim(Trim(auditorium) + "\0" + text) == Trim(auditorium) + "\0" + text
  {
    var head := Trim(auditorium);
    assert text == "" || !IsSpace(text[|text| - 1]);
    hide Trim;
    WordTrimmed(head + "\0" + text);
  }

  lemma PlainWords()
    ensures Trim("catalog") == "catalog" && Trim("seat") == "seat"
  {
    hide Trim;
    WordTrimmed("catalog");
    WordTrimmed("seat");
  }

  lemma SeatIdShape(
    digest: string -> string, upper: char -> char, lower: char -> char, auditorium: string, text: string)
    requires UpperMap(upper) && NormalLabel(text, upper)
    ensures SeatId(digest, upper, lower, auditorium, text) ==
            "seat" + "_" + digest(Recased(lower, SeatKeyHead(auditorium) + text))
  {
    hide Trim, Recased, UpperMap, NormalLabel;
    PlainWords();
    NormalIsUpper(upper, text);
    SourceKeyTrimmed(auditorium, text);
    assert Recased(upper, Trim(text)) == text by { NormalUppered(upper, text); }
    var prefix, middle := "catalog" + "\0" + "seat" + "\0", Trim(auditorium) + "\0";
    assert (prefix + middle) + text == prefix + (middle + text);
  }

  lemma NotBlank(s: string)
    requires s != "" && !IsSpace(s[0])
    ensures Trim(s) != ""
  {
    FirstStays(s, |s|);
  }

  lemma {:induction false} FirstStays(s: string, n: nat)
    requires 0 < n <= |s| && !IsSpace(s[0])
    ensures End(s, 0, n) > 0
  {
    if n > 1 {
      FirstStays(s, n - 1);
    }
  }

  /** Identities of normal labels coincide exactly when their lower-case forms do. */
  lemma SameSeatId(hall: Hall, digest: string -> string, lower: char -> char, a: string, b: string)
    requires OwnIds(hall, digest, lower) && NormalLabel(a, hall.upper) && NormalLabel(b, hall.upper)
    ensures hall.seatId(a) == hall.seatId(b) <==> Recased(lower, a) == Recased(lower, b)
    ensures Trim(hall.seatId(a)) != ""
  {
    hide Trim, Recased, SeatId, SeatKeyHead, UpperMap, NormalLabel;
    SeatIdShape(digest, hall.upper, lower, hall.auditorium, a);
    SeatIdShape(digest, hall.upper, lower, hall.auditorium, b);
    var head := SeatKeyHead(hall.auditorium);
    var da, db := digest(Recased(lower, head + a)), digest(Recased(lower, head + b));
    assert hall.seatId(a) == "seat" + "_" + da && hall.seatId(b) == "seat" + "_" + db;
    SameTail("seat" + "_", da, db);
    RecasedConcat(lower, head, a);
    RecasedConcat(lower, head, b);
    SameTail(Recased(lower, head), Recased(lower, a), Recased(lower, b));
    NotBlank(hall.seatId(a));
  }

  lemma RecasedConcat(of: char -> char, a: string, b: string)
    ensures Recased(of, a + b) == Recased(of, a) + Recased(of, b)
  {
  }

  lemma SameTail(head: string, a: string, b: string)
    ensures head + a == head + b <==> a == b
  {
    assert a == (head + a)[|head|..] && b == (head + b)[|head|..];
  }

  /**
   * The repository's own seat identity tells labels apart exactly when lower-casing keeps upper-case characters
   * apart, for any collision-free digest.
   */
  lemma SeatIdsAreProper(hall: Hall, digest: string -> string, lower: char -> char)
    requires OwnIds(hall, digest, lower)
    ensures ProperIds(hall) <==> KeepsApart(hall.upper, lower)
  {
    hide Trim, Recased, OwnIds, NormalLabel;
    forall a | NormalLabel(a, hall.upper) ensures Trim(hall.seatId(a)) != "" {
      SameSeatId(hall, digest, lower, a, a);
    }
    assert UpperMap(hall.upper) by { OwnUpper(hall, digest, lower); }
    if KeepsApart(hall.upper, lower) {
      forall a, b | NormalLabel(a, hall.upper) && NormalLabel(b, hall.upper) && hall.seatId(a) == hall.seatId(b)
        ensures a == b
      {
        SameSeatId(hall, digest, lower, a, b);
        NormalIsUpper(hall.upper, a);
        NormalIsUpper(hall.upper, b);
        LowerForgetsOnlyCase(hall.upper, lower, a, b);
      }
    }
    if ProperIds(hall) {
      forall c, d | hall.upper(c) == c && hall.upper(d) == d && lower(c) == lower(d) ensures c == d {
        var a, b := ['1', c, '1'], ['1', d, '1'];
        BetweenDigits(hall.upper, c);
        BetweenDigits(hall.upper, d);
        assert Recased(lower, a) == Recased(lower, b);
        SameSeatId(hall, digest, lower, a, b);
        assert a[1] == b[1];
      }
    }
  }

  lemma OwnUpper(hall: Hall, digest: string -> string, lower: char -> char)
    requires OwnIds(hall, digest, lower)
    ensures UpperMap(hall.upper)
  {
  }

  lemma BetweenDigits(upper: char -> char, c: char)
    requires UpperMap(upper) && upper(c) == c
    ensures NormalLabel(['1', c, '1'], upper)
  {
    WordTrimmed(['1', c, '1']);
    hide Trim, Recased;
    assert Recased(upper, ['1', c, '1']) == ['1', c, '1'];
  }

  lemma LowerForgetsOnlyCase(upper: char -> char, lower: char -> char, a: string, b: string)
    requires KeepsApart(upper, lower) && Recased(lower, a) == Recased(lower, b)
    requires forall c :: c in a + b ==> upper(c) == c
    ensures a == b
  {
    var la, lb := Recased(lower, a), Recased(lower, b);
    hide Recased;
    assert |a| == |la| == |lb| == |b|;
    forall i | 0 <= i < |a| ensures a[i] == b[i] {
      assert a[i] in a + b && b[i] in a + b;
      assert la[i] == lower(a[i]) && lb[i] == lower(b[i]);
    }
  }

  /** ASCII case conversion keeps letters apart. */
  lemma AsciiKeepsApart()
    ensures UpperMap(UpperChar) && KeepsApart(UpperChar, LowerChar)
  {
  }

  const KELVIN_SIGN: char := '\U{212A}'

  /**
   * Unicode's does not: rows named by the Kelvin sign and by K have different labels, as upper-casing keeps both,
   * and the same identity, as both are k in lower case.
   */
  lemma KelvinRowsCollide(hall: Hall, digest: string -> string, lower: char -> char, s: SeatSource, t: SeatSource)
    requires OwnIds(hall, digest, lower)
    requires hall.upper(KELVIN_SIGN) == KELVIN_SIGN && hall.upper('K') == 'K'
    requires lower(KELVIN_SIGN) == 'k' == lower('K')
    requires s.row == [KELVIN_SIGN] && t.row == ['K'] && s.number == t.number == "1"
    ensures NormalizedLabel(s, hall.upper).Some? && NormalizedLabel(t, hall.upper).Some?
    ensures NormalizedLabel(s, hall.upper).value.text != NormalizedLabel(t, hall.upper).value.text
    ensures SourceId(s, hall) == SourceId(t, hall)
    ensures !ProperIds(hall)
  {
    hide Trim, Recased, OwnIds, NormalizedLabel, UpperMap, NormalLabel, ProperIds;
    OwnUpper(hall, digest, lower);
    FirstSeatLabel(KELVIN_SIGN, hall.upper, s);
    FirstSeatLabel('K', hall.upper, t);
    LabelIsNormal(s, hall.upper);
    LabelIsNormal(t, hall.upper);
    var a, b := [KELVIN_SIGN, '1'], ['K', '1'];
    assert Recased(lower, a) == Recased(lower, b);
    SameSeatId(hall, digest, lower, a, b);
    SeatIdsAreProper(hall, digest, lower);
  }

  lemma FirstSeatLabel(c: char, upper: char -> char, s: SeatSource)
    requires s.row == [c] && s.number == "1" && upper(c) == c && !IsSpace(c)
    ensures NormalizedLabel(s, upper) == Some(SeatLabel([c, '1'], [c], 1))
  {
    hide Trim, Recased, ParseInt64, Decimal;
    WordTrimmed([c]);
    WordTrimmed("1");
    OneIsANumber();
    assert Recased(upper, [c]) == [c];
    assert [c, '1'] == [c] + "1";
  }

  lemma OneIsANumber()
    ensures ParseInt64("1") == Some(1) && Decimal(1) == "1"
  {
    assert DigitsValue("") == 0 && "1"[..0] == "";
    assert DigitsValue("1") == 1;
  }

  /** A payload two of whose seats share an identity is never complete, whatever layout it is held against. */
  lemma SharedIdIsIncomplete(items: seq<Item>, hall: Hall, known: set<string>, s: SeatSource, t: SeatSource)
    requires s in AllSources(items) && t in AllSources(items) && s != t
    requires SourceId(s, hall) == SourceId(t, hall)
    ensures !Complete(items, hall, known)
  {
    hide SourceId, Recognised, Map, AllSources;
    if Complete(items, hall, known) {
      DistinctKeys(IdIn(hall), AllSources(items), s, t);
    }
  }

  // ----------------------------------------------------------- the two passes

  /** Both passes read the same identity from a seat. */
  lemma ConvertedId(source: SeatSource, board: Box, forms: map<string, string>, hall: Hall)
    requires ProperBox(board)
    ensures var seat := ConvertSeat(source, board, forms, hall);
            seat.Some? ==> seat.value.id == SourceId(source, hall) && NormalizedLabel(source, hall.upper).Some?
  {
    hide NormalizedLabel, SeatType, Features;
  }

  lemma {:induction false} FlatSelf<A>(s: seq<A>)
    ensures Flat(x => [x], s) == s
  {
    if s != [] {
      FlatSelf(s[..|s| - 1]);
      assert s == s[..|s| - 1] + [s[|s| - 1]];
    }
  }

  lemma TotalIds(items: seq<Item>, hall: Hall)
    requires forall item :: item in items ==> SeatsConvert(item, hall)
    ensures Map(IdIn(hall), AllSources(items)) == Map(IdOf, TotalSeats(items, hall))
    ensures forall s :: s in AllSources(items) ==> NormalizedLabel(s, hall.upper).Some?
  {
    hide ConvertSeat, NewBoard, SaleForms, Flat, NormalizedLabel, SourceId, Map;
    var self := (s: SeatSource) => [s];
    forall item | item in items
      ensures Map(IdIn(hall), SeatsOf(item)) == Map(IdOf, ItemSeats(item, hall))
      ensures forall s :: s in SeatsOf(item) ==> NormalizedLabel(s, hall.upper).Some?
    {
      var board, forms := NewBoard(item.board).value, SaleForms(item.saleForms);
      forall s | s in item.seats
        ensures NormalizedLabel(s, hall.upper).Some? && Map(IdIn(hall), [s]) == Map(IdOf, SeatOf(board, forms, hall)(s))
      {
        ConvertedId(s, board, forms, hall);
      }
      FlatAgrees(self, SeatOf(board, forms, hall), IdIn(hall), IdOf, item.seats);
      FlatSelf(item.seats);
      assert Flat(self, item.seats) == item.seats;
    }
    FlatAgrees(SeatsOf, (item: Item) => ItemSeats(item, hall), IdIn(hall), IdOf, items);
    FlatAll(SeatsOf, items, s => NormalizedLabel(s, hall.upper).Some?);
  }

  /** Sorting and canonicalising seats keeps their identities. */
  lemma ArrangedIds(seats: seq<Seat>, l: seq<Seat>)
    requires Arranged(CanonicalSeat, SeatLeq, seats, l)
    ensures multiset(Map(IdOf, l)) == multiset(Map(IdOf, seats))
  {
    hide SeatLeq, CanonicalSeat;
    MapPermutes(IdOf, l, Map(CanonicalSeat, seats));
    forall s ensures CanonicalSeat(s).id == s.id {
      CanonicalName(s);
    }
    assert Map(IdOf, Map(CanonicalSeat, seats)) == Map(IdOf, seats);
  }

  lemma DistinctIds(seats: seq<Seat>, hall: Hall)
    requires Distinct(Map(NameOf, seats)) && ProperIds(hall)
    requires forall s :: s in seats ==> WellLabelled(s, hall)
    ensures Distinct(Map(IdOf, seats)) && NoBlankId(seats)
  {
    hide Trim, NormalLabel;
    var names := Map(NameOf, seats);
    forall i, j | 0 <= i < j < |seats| ensures seats[i].id != seats[j].id {
      assert seats[i] in seats && seats[j] in seats && names[i] != names[j];
    }
  }

  lemma {:induction false} DistinctCount(s: seq<string>, ids: set<string>)
    requires Distinct(s) && forall x :: x in s <==> x in ids
    ensures |s| == |ids|
  {
    if s != [] {
      var before, last := s[..|s| - 1], s[|s| - 1];
      assert s == before + [last];
      DistinctOneMore(before, last);
      DistinctCount(before, ids - {last});
    }
  }

  lemma IdSetExactly(seats: seq<Seat>)
    ensures forall id :: id in Map(IdOf, seats) <==> id in IdSet(seats)
  {
    forall id ensures id in Map(IdOf, seats) <==> id in IdSet(seats) {
      MapMember(IdOf, seats, id);
    }
  }

  /** Every layout seat is seen exactly once in the payload. */
  lemma SeatsSeenOnce(items: seq<Item>, hall: Hall, l: Layout)
    requires Accepted(items, hall) && IsLayout(l, items, hall)
    ensures multiset(Map(IdIn(hall), AllSources(items))) == multiset(Map(IdOf, l.seats))
    ensures UpperMap(hall.upper) && ProperIds(hall) ==> Distinct(Map(IdIn(hall), AllSources(items)))
    ensures UpperMap(hall.upper) && ProperIds(hall) ==> Distinct(Map(IdOf, l.seats)) && NoBlankId(l.seats)
  {
    hide TotalSeats, TotalZones, TotalBlocks, AllSources, SeatsConvert, AreasConvert, Arranged, Map, Distinct,
      ProperIds, UpperMap, WellLabelled, Trim;
    var total := TotalSeats(items, hall);
    TotalIds(items, hall);
    ArrangedIds(total, l.seats);
    DistinctPermutes(Map(IdOf, total), Map(IdOf, l.seats));
    if UpperMap(hall.upper) && ProperIds(hall) {
      TotalIsSound(items, hall);
      DistinctIds(total, hall);
      SameElements(Map(IdOf, l.seats), Map(IdOf, total));
      forall s | s in l.seats ensures Trim(s.id) != "" {
        MapMember(IdOf, l.seats, s.id);
        MapMember(IdOf, total, s.id);
      }
    }
  }

  /**
   * The two passes agree: over the layout accepted from the same payload, availability can fail for another
   * reason than a sale flag or a status code only if two seats of the layout share an identity or one is blank.
   */
  lemma PassesAgree(items: seq<Item>, hall: Hall, l: Layout)
    requires Accepted(items, hall) && IsLayout(l, items, hall)
    ensures Matches(items, hall, l) <==> Distinct(Map(IdOf, l.seats)) && NoBlankId(l.seats)
    ensures UpperMap(hall.upper) && ProperIds(hall) ==> Matches(items, hall, l)
  {
    hide TotalSeats, AllSources, SeatsConvert, AreasConvert, Arranged, Distinct, Map, NormalizedLabel, SourceId, Trim,
      NoBlankId, ProperIds, UpperMap, IdSet, IsLayout;
    SeatsSeenOnce(items, hall, l);
    TotalIds(items, hall);
    var ids := Map(IdIn(hall), AllSources(items));
    SameElements(ids, Map(IdOf, l.seats));
    DistinctPermutes(ids, Map(IdOf, l.seats));
    IdSetExactly(l.seats);
    forall s | s in AllSources(items) ensures SourceId(s, hall) in IdSet(l.seats) {
      MapMember(IdIn(hall), AllSources(items), SourceId(s, hall));
    }
    if Distinct(ids) {
      DistinctCount(ids, IdSet(l.seats));
    }
    if Accepted(items, hall) && items == [] {
      NothingAccepted(hall);
    }
  }

  lemma NothingAccepted(hall: Hall)
    ensures !Accepted([], hall)
  {
  }

  /** And then the answer lists, sorted and without repetition, exactly the free seats of the layout. */
  lemma AnswerIsTheFreeSeats(items: seq<Item>, hall: Hall, known: set<string>, answer: seq<string>)
    requires Complete(items, hall, known)
    requires multiset(answer) == multiset(FreeIds(AllSources(items), IdIn(hall)))
    ensures Distinct(answer)
    ensures forall id :: id in answer <==>
                         exists s :: s in AllSources(items) && IsFree(s) && SourceId(s, hall) == id
    ensures forall id :: id in answer ==> id in known
  {
    hide AllSources, Distinct, Map, FreeIds, SourceId, IsFree, NormalizedLabel;
    var sources, idOf := AllSources(items), IdIn(hall);
    FreeAreDistinct(sources, idOf);
    SameElements(answer, FreeIds(sources, idOf));
    DistinctPermutes(answer, FreeIds(sources, idOf));
    forall id ensures id in FreeIds(sources, idOf) <==>
                      exists s :: s in sources && IsFree(s) && SourceId(s, hall) == id
    {
      FreeExactly(sources, idOf, id);
    }
  }

  lemma FreeExactly(sources: seq<SeatSource>, idOf: SeatSource -> string, id: string)
    ensures id in FreeIds(sources, idOf) <==> exists s :: s in sources && IsFree(s) && idOf(s) == id
  {
    hide Flat, IsFree;
    FlatMember((s: SeatSource) => if IsFree(s) then [idOf(s)] else [], sources, id);
  }

  lemma {:induction false} FreeAreDistinct(sources: seq<SeatSource>, idOf: SeatSource -> string)
    requires Distinct(Map(idOf, sources))
    ensures Distinct(FreeIds(sources, idOf))
  {
    hide IsFree, Distinct, Map;
    if sources == [] {
      assert FreeIds(sources, idOf) == [];
      assert Distinct<string>([]) by { NoneDistinct(); }
    } else {
      var before, last := sources[..|sources| - 1], sources[|sources| - 1];
      assert sources == before + [last];
      MapConcat(idOf, before, [last]);
      MapSingle(idOf, last);
      DistinctOneMore(Map(idOf, before), idOf(last));
      FreeAreDistinct(before, idOf);
      FreeOneMore(before, last, idOf);
      FreeExactly(before, idOf, idOf(last));
      MapMember(idOf, before, idOf(last));
      hide FreeIds;
      DistinctOneMore(FreeIds(before, idOf), idOf(last));
      assert FreeIds(before, idOf) + [] == FreeIds(before, idOf);
    }
  }

  lemma NoneDistinct()
    ensures Distinct<string>([])
  {
  }

  lemma MapSingle<A, B>(f: A -> B, x: A)
    ensures Map(f, [x]) == [f(x)]
  {
  }
}
