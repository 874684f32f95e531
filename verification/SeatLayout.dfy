/** Building, canonicalising and sorting the layout, and what it does not depend on (seat_map_snapshot.go). */
module SeatLayout {
  import opened Text
  import opened Sequences
  import opened SeatMap

  // ------------------------------------------------------- what items amount to

  function ToSeq<T>(o: Option<T>): seq<T> {
    if o.Some? then [o.value] else []
  }

  function SeatOf(board: Box, forms: map<string, string>, hall: Hall): SeatSource -> seq<Seat>
    requires ProperBox(board)
  {
    source => ToSeq(ConvertSeat(source, board, forms, hall))
  }

  function ZoneOf(board: Box): ZoneSource -> seq<Zone>
    requires ProperBox(board)
  {
    source => ToSeq(ConvertZone(source, board))
  }

  function BlockOf(board: Box): BlockSource -> seq<Block>
    requires ProperBox(board)
  {
    source => ToSeq(ConvertBlock(source, board))
  }

  function ItemSeats(item: Item, hall: Hall): seq<Seat> {
    var board := NewBoard(item.board);
    if board.None? then [] else Flat(SeatOf(board.value, SaleForms(item.saleForms), hall), item.seats)
  }

  function ItemZones(item: Item): seq<Zone> {
    var board := NewBoard(item.board);
    if board.None? then [] else Flat(ZoneOf(board.value), item.zones)
  }

  function ItemBlocks(item: Item): seq<Block> {
    var board := NewBoard(item.board);
    if board.None? then [] else Flat(BlockOf(board.value), item.blocks)
  }

  predicate SeatsConvert(item: Item, hall: Hall) {
    var board := NewBoard(item.board);
    board.Some? &&
    forall s :: s in item.seats ==> ConvertSeat(s, board.value, SaleForms(item.saleForms), hall).Some?
  }

  predicate AreasConvert(item: Item) {
    var board := NewBoard(item.board);
    && board.Some?
    && (forall z :: z in item.zones ==> ConvertZone(z, board.value).Some?)
    && (forall b :: b in item.blocks ==> ConvertBlock(b, board.value).Some?)
  }

  function TotalSeats(items: seq<Item>, hall: Hall): seq<Seat> {
    Flat(item => ItemSeats(item, hall), items)
  }

  function TotalZones(items: seq<Item>): seq<Zone> {
    Flat(ItemZones, items)
  }

  function TotalBlocks(items: seq<Item>): seq<Block> {
    Flat(ItemBlocks, items)
  }

  function NameOf(s: Seat): string { s.name }

  /** Every part of every item is sound, the labels of all seats differ, and there is a seat. */
  ghost predicate Accepted(items: seq<Item>, hall: Hall) {
    && (forall item :: item in items ==> SeatsConvert(item, hall) && AreasConvert(item))
    && Distinct(Map(NameOf, TotalSeats(items, hall)))
    && TotalSeats(items, hall) != []
  }

  // ------------------------------------------------------------ canonical form

  /** The first occurrences of the non-blank trimmed values. */
  function Trimmed(values: seq<string>): seq<string> {
    if values == [] then []
    else
      var before := Trimmed(values[..|values| - 1]);
      var value := Trim(values[|values| - 1]);
      if value == "" || value in before then before else before + [value]
  }

  function CanonicalStrings(values: seq<string>): seq<string> {
    SortBy(Leq, Trimmed(values))
  }

  function CanonicalSeat(s: Seat): Seat {
    s.(auditorium := Trim(s.auditorium), name := Trim(s.name), row := Trim(s.row), kind := Trim(s.kind),
       zoneName := Trim(s.zoneName), zoneKind := Trim(s.zoneKind), saleFormCode := Trim(s.saleFormCode),
       saleFormName := Trim(s.saleFormName), features := CanonicalStrings(s.features),
       sourceLabel := Trim(s.sourceLabel), sourceKindCode := Trim(s.sourceKindCode),
       sourceKindName := Trim(s.sourceKindName), sourceClasses := CanonicalStrings(s.sourceClasses))
  }

  function CanonicalZone(z: Zone): Zone {
    z.(code := Trim(z.code), name := Trim(z.name), kindCode := Trim(z.kindCode), kindName := Trim(z.kindName))
  }

  function CanonicalBlock(b: Block): Block {
    b.(code := Trim(b.code), name := Trim(b.name), kindCode := Trim(b.kindCode), kindName := Trim(b.kindName))
  }

  predicate SeatLeq(a: Seat, b: Seat) { Leq(a.name, b.name) }
  predicate ZoneLeq(a: Zone, b: Zone) { PairLeq(a.code, a.name, b.code, b.name) }
  predicate BlockLeq(a: Block, b: Block) { PairLeq(a.code, a.name, b.code, b.name) }

  /** A layout of these items: their canonical seats, zones and blocks, each sorted. */
  ghost predicate IsLayout(l: Layout, items: seq<Item>, hall: Hall) {
    && Arranged(CanonicalSeat, SeatLeq, TotalSeats(items, hall), l.seats)
    && Arranged(CanonicalZone, ZoneLeq, TotalZones(items), l.zones)
    && Arranged(CanonicalBlock, BlockLeq, TotalBlocks(items), l.blocks)
  }

  // ------------------------------------------------------- strings canonically

  lemma LeqOrders()
    ensures TotalPreorder(Leq)
  {
    hide Leq;
    forall a, b ensures Leq(a, b) || Leq(b, a) {
      LeqTotal(a, b);
    }
    forall a, b, c | Leq(a, b) && Leq(b, c) ensures Leq(a, c) {
      LeqTransitive(a, b, c);
    }
  }

  lemma {:induction false} TrimmedExact(values: seq<string>)
    ensures Distinct(Trimmed(values))
    ensures forall v :: v in Trimmed(values) <==> v != "" && exists w :: w in values && Trim(w) == v
  {
    hide Trim;
    if values != [] {
      var before, last := values[..|values| - 1], values[|values| - 1];
      TrimmedExact(before);
      assert values == before + [last];
    }
  }

  /** What canonical strings are, whatever the order and spacing of the input: sorted, and each once. */
  lemma CanonicalStringsExact(values: seq<string>)
    ensures Sorted(Leq, CanonicalStrings(values)) && Distinct(CanonicalStrings(values))
    ensures forall v :: v in CanonicalStrings(values) <==> v != "" && exists w :: w in values && Trim(w) == v
  {
    hide SortBy, Trimmed, Trim;
    LeqOrders();
    TrimmedExact(values);
    SortBySorts(Leq, Trimmed(values));
    SameElements(CanonicalStrings(values), Trimmed(values));
    DistinctPermutes(CanonicalStrings(values), Trimmed(values));
  }

  lemma DistinctSameSet(s: seq<string>, t: seq<string>)
    requires Distinct(s) && Distinct(t)
    requires forall v :: v in s <==> v in t
    ensures multiset(s) == multiset(t)
  {
    hide Distinct;
    DistinctCounts(s);
    DistinctCounts(t);
    forall v ensures multiset(s)[v] == multiset(t)[v] {
      assert v in s <==> v in multiset(s);
      assert v in t <==> v in multiset(t);
    }
  }

  lemma SameStringsAgain(values: seq<string>, v: string)
    ensures v in CanonicalStrings(values) <==> v in CanonicalStrings(CanonicalStrings(values))
  {
    hide CanonicalStrings, Trim, Sorted, Distinct;
    var once := CanonicalStrings(values);
    CanonicalStringsExact(values);
    CanonicalStringsExact(once);
    if v in once {
      var w :| w in values && Trim(w) == v;
      TrimIdempotent(w);
      assert v in once && Trim(v) == v;
    }
    if v in CanonicalStrings(once) {
      var w :| w in once && Trim(w) == v;
      var u :| u in values && Trim(u) == w;
      TrimIdempotent(u);
    }
  }

  lemma LeqAntisymmetric(a: string, b: string)
    requires Leq(a, b) && Leq(b, a)
    ensures a == b
  {
    LeqTotal(a, b);
  }

  lemma CanonicalStringsIdempotent(values: seq<string>)
    ensures CanonicalStrings(CanonicalStrings(values)) == CanonicalStrings(values)
  {
    hide *;
    var once := CanonicalStrings(values);
    var twice := CanonicalStrings(once);
    CanonicalStringsExact(values);
    CanonicalStringsExact(once);
    forall v ensures v in once <==> v in twice {
      SameStringsAgain(values, v);
    }
    DistinctSameSet(once, twice);
    LeqOrders();
    forall a, b | Leq(a, b) && Leq(b, a) ensures a == b {
      LeqAntisymmetric(a, b);
    }
    SortedUnique(Leq, once, twice);
  }

  lemma CanonicalSeatAgain(s: Seat)
    ensures CanonicalSeat(CanonicalSeat(s)) == CanonicalSeat(s)
  {
    hide CanonicalStrings, Trim;
    CanonicalStringsIdempotent(s.features);
    CanonicalStringsIdempotent(s.sourceClasses);
    forall t ensures Trim(Trim(t)) == Trim(t) {
      TrimIdempotent(t);
    }
  }

  lemma CanonicalZoneAgain(z: Zone)
    ensures CanonicalZone(CanonicalZone(z)) == CanonicalZone(z)
  {
    hide Trim;
    forall t ensures Trim(Trim(t)) == Trim(t) {
      TrimIdempotent(t);
    }
  }

  lemma CanonicalBlockAgain(b: Block)
    ensures CanonicalBlock(CanonicalBlock(b)) == CanonicalBlock(b)
  {
    hide Trim;
    forall t ensures Trim(Trim(t)) == Trim(t) {
      TrimIdempotent(t);
    }
  }

  // ------------------------------------------------- independence of the order

  /** The same item with its seats, zones and blocks in another order. */
  ghost predicate Shuffled(a: Item, b: Item) {
    && a.board == b.board && a.saleForms == b.saleForms
    && multiset(a.seats) == multiset(b.seats)
    && multiset(a.zones) == multiset(b.zones)
    && multiset(a.blocks) == multiset(b.blocks)
  }

  /** `others` are the items in another order, each with its contents in another order (`mid` on the way). */
  ghost predicate Rearranged(items: seq<Item>, mid: seq<Item>, others: seq<Item>) {
    && |items| == |mid| && (forall i :: 0 <= i < |items| ==> Shuffled(items[i], mid[i]))
    && multiset(mid) == multiset(others)
  }

  predicate Sound(item: Item, hall: Hall) {
    SeatsConvert(item, hall) && AreasConvert(item)
  }

  lemma ShuffledSameItem(a: Item, b: Item, hall: Hall)
    requires Shuffled(a, b)
    ensures Sound(a, hall) <==> Sound(b, hall)
    ensures multiset(ItemSeats(a, hall)) == multiset(ItemSeats(b, hall))
    ensures multiset(ItemZones(a)) == multiset(ItemZones(b))
    ensures multiset(ItemBlocks(a)) == multiset(ItemBlocks(b))
  {
    hide ConvertSeat, ConvertZone, ConvertBlock, NewBoard, SaleForms;
    SameElements(a.seats, b.seats);
    SameElements(a.zones, b.zones);
    SameElements(a.blocks, b.blocks);
    var board := NewBoard(a.board);
    if board.Some? {
      hide Flat;
      FlatPermutes(SeatOf(board.value, SaleForms(a.saleForms), hall), a.seats, b.seats);
      FlatPermutes(ZoneOf(board.value), a.zones, b.zones);
      FlatPermutes(BlockOf(board.value), a.blocks, b.blocks);
    }
  }

  lemma RearrangedTotals(items: seq<Item>, mid: seq<Item>, others: seq<Item>, hall: Hall)
    requires Rearranged(items, mid, others)
    ensures multiset(TotalSeats(items, hall)) == multiset(TotalSeats(others, hall))
    ensures multiset(TotalZones(items)) == multiset(TotalZones(others))
    ensures multiset(TotalBlocks(items)) == multiset(TotalBlocks(others))
    ensures (forall item :: item in items ==> Sound(item, hall)) <==>
            (forall item :: item in others ==> Sound(item, hall))
  {
    hide Shuffled, Sound, Flat, ItemSeats, ItemZones, ItemBlocks;
    forall i | 0 <= i < |items|
      ensures multiset(ItemSeats(items[i], hall)) == multiset(ItemSeats(mid[i], hall))
      ensures multiset(ItemZones(items[i])) == multiset(ItemZones(mid[i]))
      ensures multiset(ItemBlocks(items[i])) == multiset(ItemBlocks(mid[i]))
      ensures Sound(items[i], hall) <==> Sound(mid[i], hall)
    {
      ShuffledSameItem(items[i], mid[i], hall);
    }
    var seatsOf := (item: Item) => ItemSeats(item, hall);
    FlatPointwise(seatsOf, items, mid);
    FlatPermutes(seatsOf, mid, others);
    FlatPointwise(ItemZones, items, mid);
    FlatPermutes(ItemZones, mid, others);
    FlatPointwise(ItemBlocks, items, mid);
    FlatPermutes(ItemBlocks, mid, others);
    SameElements(mid, others);
  }

  /** Whether a payload is accepted does not depend on the provider's order. */
  lemma AcceptanceIsOrderFree(items: seq<Item>, mid: seq<Item>, others: seq<Item>, hall: Hall)
    requires Rearranged(items, mid, others)
    ensures Accepted(items, hall) <==> Accepted(others, hall)
  {
    hide TotalSeats, Distinct, Map, SeatsConvert, AreasConvert;
    RearrangedTotals(items, mid, others, hall);
    var seats, otherSeats := TotalSeats(items, hall), TotalSeats(others, hall);
    SameElements(seats, otherSeats);
    MapPermutes(NameOf, seats, otherSeats);
    DistinctPermutes(Map(NameOf, seats), Map(NameOf, otherSeats));
    assert forall item :: Sound(item, hall) <==> SeatsConvert(item, hall) && AreasConvert(item);
  }

  /** The seat is named by a normal label, and identified by it. */
  predicate WellLabelled(s: Seat, hall: Hall) {
    Trim(s.name) == s.name && NormalLabel(s.name, hall.upper) && s.id == hall.seatId(s.name)
  }

  predicate OnUnitSquare(s: Seat) {
    0.0 <= s.x <= 1.0 && 0.0 <= s.y <= 1.0
  }

  ghost predicate SoundSeat(s: Seat, hall: Hall) {
    (UpperMap(hall.upper) ==> WellLabelled(s, hall)) && OnUnitSquare(s)
  }

  lemma ConvertedSeat(source: SeatSource, board: Box, forms: map<string, string>, hall: Hall)
    requires ProperBox(board)
    ensures var seat := ConvertSeat(source, board, forms, hall);
            seat.Some? ==> SoundSeat(seat.value, hall)
  {
    hide SeatType, Features, NormalizedLabel, NormalLabel, UpperMap, Trim, FormName;
    if UpperMap(hall.upper) && NormalizedLabel(source, hall.upper).Some? {
      LabelIsNormal(source, hall.upper);
    }
  }

  lemma TotalIsSound(items: seq<Item>, hall: Hall)
    ensures forall s :: s in TotalSeats(items, hall) ==> SoundSeat(s, hall)
  {
    hide ConvertSeat, Flat, SaleForms, NewBoard, SoundSeat;
    forall item, s | item in items && s in ItemSeats(item, hall) ensures SoundSeat(s, hall) {
      var board, forms := NewBoard(item.board).value, SaleForms(item.saleForms);
      forall source, t | source in item.seats && t in SeatOf(board, forms, hall)(source) ensures SoundSeat(t, hall) {
        ConvertedSeat(source, board, forms, hall);
      }
      FlatAll(SeatOf(board, forms, hall), item.seats, t => SoundSeat(t, hall));
    }
    FlatAll((item: Item) => ItemSeats(item, hall), items, s => SoundSeat(s, hall));
  }

  function ZoneKey(z: Zone): (string, string) { (Trim(z.code), Trim(z.name)) }
  function BlockKey(b: Block): (string, string) { (Trim(b.code), Trim(b.name)) }

  ghost predicate KeyedZones(items: seq<Item>) {
    Distinct(Map(ZoneKey, TotalZones(items)))
  }

  ghost predicate KeyedBlocks(items: seq<Item>) {
    Distinct(Map(BlockKey, TotalBlocks(items)))
  }

  lemma SeatOrder()
    ensures TotalPreorder(SeatLeq)
  {
    hide Leq;
    forall a: Seat, b: Seat ensures SeatLeq(a, b) || SeatLeq(b, a) {
      LeqTotal(a.name, b.name);
    }
    forall a: Seat, b: Seat, c: Seat | SeatLeq(a, b) && SeatLeq(b, c) ensures SeatLeq(a, c) {
      LeqTransitive(a.name, b.name, c.name);
    }
  }

  lemma AreaOrders()
    ensures TotalPreorder(ZoneLeq) && TotalPreorder(BlockLeq)
  {
    hide PairLeq;
    forall a: Zone, b: Zone ensures ZoneLeq(a, b) || ZoneLeq(b, a) {
      PairTotal(a.code, a.name, b.code, b.name);
    }
    forall a: Zone, b: Zone, c: Zone | ZoneLeq(a, b) && ZoneLeq(b, c) ensures ZoneLeq(a, c) {
      PairTransitive(a.code, a.name, b.code, b.name, c.code, c.name);
    }
    forall a: Block, b: Block ensures BlockLeq(a, b) || BlockLeq(b, a) {
      PairTotal(a.code, a.name, b.code, b.name);
    }
    forall a: Block, b: Block, c: Block | BlockLeq(a, b) && BlockLeq(b, c) ensures BlockLeq(a, c) {
      PairTransitive(a.code, a.name, b.code, b.name, c.code, c.name);
    }
  }

  lemma CanonicalName(s: Seat)
    ensures CanonicalSeat(s).name == Trim(s.name)
    ensures CanonicalSeat(s).x == s.x && CanonicalSeat(s).y == s.y && CanonicalSeat(s).id == s.id
  {
    hide CanonicalStrings, Trim;
  }

  /** Canonical seats in both orders have the same trimmed name. */
  lemma SameSeatName(x: Seat, y: Seat)
    requires SeatLeq(CanonicalSeat(x), CanonicalSeat(y)) && SeatLeq(CanonicalSeat(y), CanonicalSeat(x))
    ensures Trim(x.name) == Trim(y.name)
  {
    hide Leq, Trim, CanonicalSeat;
    CanonicalName(x);
    CanonicalName(y);
    LeqTotal(CanonicalSeat(x).name, CanonicalSeat(y).name);
  }

  /**
   * The layout is a canonical form: however the provider orders the items and what they hold, the accepted
   * layout has the same seats in the same order, and the same zones and blocks when their trimmed codes and
   * names tell them apart. (With `others == items`: the unstable library sort leaves no choice either.)
   */
  lemma LayoutIsOrderFree(items: seq<Item>, mid: seq<Item>, others: seq<Item>, hall: Hall, l: Layout, m: Layout)
    requires UpperMap(hall.upper) && Rearranged(items, mid, others) && Accepted(items, hall)
    requires IsLayout(l, items, hall) && IsLayout(m, others, hall)
    ensures l.seats == m.seats
    ensures KeyedZones(items) ==> l.zones == m.zones
    ensures KeyedBlocks(items) ==> l.blocks == m.blocks
  {
    hide UpperMap, Rearranged, TotalSeats, TotalZones, TotalBlocks, Arranged, Distinct, Map, SeatsConvert, AreasConvert,
      NormalLabel, Trim, SeatLeq, CanonicalSeat, TotalPreorder, PairLeq;
    RearrangedTotals(items, mid, others, hall);
    TotalIsSound(items, hall);
    var seats, zones, blocks := TotalSeats(items, hall), TotalZones(items), TotalBlocks(items);
    SeatOrder();
    forall x, y | x in seats && y in seats &&
                  SeatLeq(CanonicalSeat(x), CanonicalSeat(y)) && SeatLeq(CanonicalSeat(y), CanonicalSeat(x))
      ensures x == y
    {
      SameSeatName(x, y);
      DistinctKeys(NameOf, seats, x, y);
    }
    ArrangedOnce(CanonicalSeat, SeatLeq, seats, TotalSeats(others, hall), l.seats, m.seats);
    AreaOrders();
    if KeyedZones(items) {
      forall x, y | x in zones && y in zones &&
                    ZoneLeq(CanonicalZone(x), CanonicalZone(y)) && ZoneLeq(CanonicalZone(y), CanonicalZone(x))
        ensures x == y
      {
        PairTotal(Trim(x.code), Trim(x.name), Trim(y.code), Trim(y.name));
        DistinctKeys(ZoneKey, zones, x, y);
      }
      ArrangedOnce(CanonicalZone, ZoneLeq, zones, TotalZones(others), l.zones, m.zones);
    }
    if KeyedBlocks(items) {
      forall x, y | x in blocks && y in blocks &&
                    BlockLeq(CanonicalBlock(x), CanonicalBlock(y)) && BlockLeq(CanonicalBlock(y), CanonicalBlock(x))
        ensures x == y
      {
        PairTotal(Trim(x.code), Trim(x.name), Trim(y.code), Trim(y.name));
        DistinctKeys(BlockKey, blocks, x, y);
      }
      ArrangedOnce(CanonicalBlock, BlockLeq, blocks, TotalBlocks(others), l.blocks, m.blocks);
    }
  }

  // ------------------------------------------------------- what layouts look like

  predicate OrderedBox(b: Box) {
    0.0 <= b.minX <= b.maxX <= 1.0 && 0.0 <= b.minY <= b.maxY <= 1.0
  }

  lemma BoundsAreOrdered(board: Box, xStart: Coordinate, xEnd: Coordinate, yStart: Coordinate, yEnd: Coordinate)
    requires ProperBox(board) && Bounds(board, xStart, xEnd, yStart, yEnd).Some?
    ensures OrderedBox(Bounds(board, xStart, xEnd, yStart, yEnd).value)
  {
  }

  lemma AreasAreBoxed(items: seq<Item>)
    ensures forall z :: z in TotalZones(items) ==> OrderedBox(z.box)
    ensures forall b :: b in TotalBlocks(items) ==> OrderedBox(b.box)
  {
    hide Flat, NewBoard, OptionalCapacity, Bounds, OrderedBox;
    var boxedZone, boxedBlock := (z: Zone) => OrderedBox(z.box), (b: Block) => OrderedBox(b.box);
    forall item, z | item in items && z in ItemZones(item) ensures boxedZone(z) {
      var board := NewBoard(item.board).value;
      forall source, r | source in item.zones && r in ZoneOf(board)(source) ensures boxedZone(r) {
        BoundsAreOrdered(board, source.xStart, source.xEnd, source.yStart, source.yEnd);
      }
      FlatAll(ZoneOf(board), item.zones, boxedZone);
    }
    FlatAll(ItemZones, items, boxedZone);
    forall item, b | item in items && b in ItemBlocks(item) ensures boxedBlock(b) {
      var board := NewBoard(item.board).value;
      forall source, r | source in item.blocks && r in BlockOf(board)(source) ensures boxedBlock(r) {
        BoundsAreOrdered(board, source.xStart, source.xEnd, source.yStart, source.yEnd);
      }
      FlatAll(BlockOf(board), item.blocks, boxedBlock);
    }
    FlatAll(ItemBlocks, items, boxedBlock);
  }

  /** Everything in a layout lies on the unit square, and canonicalising the layout again changes nothing. */
  lemma LayoutIsNormal(items: seq<Item>, hall: Hall, l: Layout)
    requires IsLayout(l, items, hall)
    ensures forall s :: s in l.seats ==> OnUnitSquare(s)
    ensures forall z :: z in l.zones ==> OrderedBox(z.box)
    ensures forall b :: b in l.blocks ==> OrderedBox(b.box)
    ensures Map(CanonicalSeat, l.seats) == l.seats
    ensures Map(CanonicalZone, l.zones) == l.zones
    ensures Map(CanonicalBlock, l.blocks) == l.blocks
  {
    hide TotalSeats, TotalZones, TotalBlocks, Arranged, Map, SeatLeq, ZoneLeq, BlockLeq, CanonicalSeat, Trim,
      OrderedBox, UpperMap, WellLabelled;
    TotalIsSound(items, hall);
    AreasAreBoxed(items);
    var seats, zones, blocks := TotalSeats(items, hall), TotalZones(items), TotalBlocks(items);
    ArrangedElements(CanonicalSeat, SeatLeq, seats, l.seats);
    ArrangedElements(CanonicalZone, ZoneLeq, zones, l.zones);
    ArrangedElements(CanonicalBlock, BlockLeq, blocks, l.blocks);
    forall s ensures CanonicalSeat(CanonicalSeat(s)) == CanonicalSeat(s) {
      CanonicalSeatAgain(s);
    }
    forall s ensures CanonicalSeat(s).x == s.x && CanonicalSeat(s).y == s.y {
      CanonicalName(s);
    }
    forall z ensures CanonicalZone(CanonicalZone(z)) == CanonicalZone(z) {
      CanonicalZoneAgain(z);
    }
    forall b ensures CanonicalBlock(CanonicalBlock(b)) == CanonicalBlock(b) {
      CanonicalBlockAgain(b);
    }
    ArrangedAgain(CanonicalSeat, SeatLeq, seats, l.seats);
    ArrangedAgain(CanonicalZone, ZoneLeq, zones, l.zones);
    ArrangedAgain(CanonicalBlock, BlockLeq, blocks, l.blocks);
  }
}
