/** Building the layout step by step, as the provider's items come in (seat_map_snapshot.go). */
module SeatMapParser {
  import opened Text
  import opened Sequences
  import opened SeatMap
  import opened SeatLayout

  function Names(seats: seq<Seat>): (r: seq<string>)
    ensures |r| == |seats| && forall i :: 0 <= i < |seats| ==> r[i] == seats[i].name
  {
    Map(NameOf, seats)
  }

  /** A prefix with repeated names cannot be completed to one without. */
  lemma NamesOfLonger(part: seq<Seat>, whole: seq<Seat>)
    requires part <= whole
    ensures Distinct(Names(whole)) ==> Distinct(Names(part))
  {
    if !Distinct(Names(whole)) {
      return;
    }
    forall i, j | 0 <= i < j < |part| ensures Names(part)[i] != Names(part)[j] {
      assert Names(whole)[i] != Names(whole)[j];
    }
  }

  lemma NamesOneMore(seats: seq<Seat>, s: Seat)
    requires Distinct(Names(seats))
    ensures Distinct(Names(seats + [s])) <==> forall t :: t in seats ==> t.name != s.name
  {
    MapConcat(NameOf, seats, [s]);
    MapMember(NameOf, seats, s.name);
    DistinctOneMore(Names(seats), s.name);
  }

  // ------------------------------------------------------------------ builder

  lemma AppendAssociates<T>(a: seq<T>, b: seq<T>, c: seq<T>)
    ensures (a + b) + c == a + (b + c)
  {
  }

  predicate OfItem(error: Option<LayoutError>) {
    error.Some? ==> !error.value.NoLayout? && !error.value.NoSeats?
  }

  class LayoutBuilder {
    const hall: Hall
    var seats: seq<Seat>
    var zones: seq<Zone>
    var blocks: seq<Block>
    var labels: set<string>

    ghost predicate Valid()
      reads this`seats, this`labels
    {
      Distinct(Names(seats)) && labels == set s | s in seats :: s.name
    }

    constructor (hall: Hall)
      ensures Valid() && this.hall == hall
      ensures seats == [] && zones == [] && blocks == []
    {
      this.hall := hall;
      seats, zones, blocks, labels := [], [], [], {};
    }

    /** Adds one converted seat unless its label is taken. */
    method AppendSeat(source: SeatSource, board: Box, forms: map<string, string>)
      returns (error: Option<LayoutError>)
      requires Valid() && ProperBox(board)
      modifies this`seats, this`labels
      ensures error.None? <==>
              var seat := ConvertSeat(source, board, forms, hall);
              seat.Some? && Distinct(Names(old(seats) + [seat.value]))
      ensures OfItem(error)
      ensures error.None? ==>
                Valid() && seats == old(seats) + SeatOf(board, forms, hall)(source)
    {
      hide Bounds, SeatType, Features, Center, NormalizedLabel, Names, Distinct;
      var caption := NormalizedLabel(source, hall.upper);
      if caption.None? {
        return Some(BadSeatLabel);
      }
      var name := caption.value.text;
      ghost var seat := ConvertSeat(source, board, forms, hall);
      if seat.Some? {
        NamesOneMore(seats, seat.value);
      }
      if name in labels {
        return Some(DuplicateSeat(name));
      }
      labels := labels + {name};
      var formName := FormName(forms, source.saleForm);
      var x := Center(source.xStart, source.xEnd, board.minX, board.maxX);
      if x.None? {
        return Some(BadSeatCoordinate);
      }
      var y := Center(source.yStart, source.yEnd, board.minY, board.maxY);
      if y.None? {
        return Some(BadSeatCoordinate);
      }
      seats := seats + [MakeSeat(source, caption.value, x.value, y.value, formName, hall)];
      error := None;
    }

    method AppendSeats(item: Item, board: Box, forms: map<string, string>) returns (error: Option<LayoutError>)
      requires Valid() && NewBoard(item.board) == Some(board) && forms == SaleForms(item.saleForms)
      modifies this`seats, this`labels
      ensures error.None? <==> SeatsConvert(item, hall) && Distinct(Names(old(seats) + ItemSeats(item, hall)))
      ensures OfItem(error)
      ensures error.None? ==> Valid() && seats == old(seats) + ItemSeats(item, hall)
    {
      hide ConvertSeat, NewBoard, Names, Distinct, SaleForms, Flat;
      ghost var before := seats;
      ghost var f := SeatOf(board, forms, hall);
      FlatNone(f, item.seats);
      for i := 0 to |item.seats|
        invariant Valid()
        invariant seats == before + Flat(f, item.seats[..i])
        invariant forall j :: 0 <= j < i ==> ConvertSeat(item.seats[j], board, forms, hall).Some?
      {
        FlatOneMore(f, item.seats, i);
        AppendAssociates(before, Flat(f, item.seats[..i]), f(item.seats[i]));
        error := AppendSeat(item.seats[i], board, forms);
        if error.Some? {
          assert item.seats[i] in item.seats;
          if SeatsConvert(item, hall) {
            FlatPrefix(f, item.seats, i + 1);
            NamesOfLonger(before + Flat(f, item.seats[..i + 1]), before + ItemSeats(item, hall));
          }
          return;
        }
      }
      assert item.seats[..|item.seats|] == item.seats;
      error := None;
    }

    method AppendZones(item: Item, board: Box) returns (error: Option<LayoutError>)
      requires NewBoard(item.board) == Some(board)
      modifies this`zones
      ensures error.None? <==> forall z :: z in item.zones ==> ConvertZone(z, board).Some?
      ensures OfItem(error)
      ensures error.None? ==> zones == old(zones) + ItemZones(item)
    {
      hide ConvertZone, NewBoard, Flat;
      ghost var before := zones;
      ghost var f := ZoneOf(board);
      FlatNone(f, item.zones);
      for i := 0 to |item.zones|
        invariant zones == before + Flat(f, item.zones[..i])
        invariant forall j :: 0 <= j < i ==> ConvertZone(item.zones[j], board).Some?
      {
        FlatOneMore(f, item.zones, i);
        var zone := ConvertZone(item.zones[i], board);
        if zone.None? {
          assert item.zones[i] in item.zones;
          return Some(BadZone);
        }
        zones := zones + [zone.value];
      }
      assert item.zones[..|item.zones|] == item.zones;
      error := None;
    }

    method AppendBlocks(item: Item, board: Box) returns (error: Option<LayoutError>)
      requires NewBoard(item.board) == Some(board)
      modifies this`blocks
      ensures error.None? <==> forall b :: b in item.blocks ==> ConvertBlock(b, board).Some?
      ensures OfItem(error)
      ensures error.None? ==> blocks == old(blocks) + ItemBlocks(item)
    {
      hide ConvertBlock, NewBoard, Flat;
      ghost var before := blocks;
      ghost var f := BlockOf(board);
      FlatNone(f, item.blocks);
      for i := 0 to |item.blocks|
        invariant blocks == before + Flat(f, item.blocks[..i])
        invariant forall j :: 0 <= j < i ==> ConvertBlock(item.blocks[j], board).Some?
      {
        FlatOneMore(f, item.blocks, i);
        var block := ConvertBlock(item.blocks[i], board);
        if block.None? {
          assert item.blocks[i] in item.blocks;
          return Some(BadBlock);
        }
        blocks := blocks + [block.value];
      }
      assert item.blocks[..|item.blocks|] == item.blocks;
      error := None;
    }

    method AppendItem(item: Item) returns (error: Option<LayoutError>)
      requires Valid()
      modifies this`seats, this`labels, this`zones, this`blocks
      ensures error.None? <==> Sound(item, hall) && Distinct(Names(old(seats) + ItemSeats(item, hall)))
      ensures OfItem(error)
      ensures error.None? ==>
                && Valid()
                && seats == old(seats) + ItemSeats(item, hall)
                && zones == old(zones) + ItemZones(item)
                && blocks == old(blocks) + ItemBlocks(item)
    {
      var board := NewBoard(item.board);
      if board.None? {
        return Some(BadBoard);
      }
      hide ConvertSeat, ConvertZone, ConvertBlock, NewBoard, SaleForms, Flat, Names, Distinct;
      error := AppendSeats(item, board.value, SaleForms(item.saleForms));
      if error.Some? {
        return;
      }
      error := AppendZones(item, board.value);
      if error.Some? {
        return;
      }
      error := AppendBlocks(item, board.value);
    }

    /** The loop over all items of a payload. */
    method AppendItems(items: seq<Item>) returns (error: Option<LayoutError>)
      requires Valid() && seats == [] && zones == [] && blocks == []
      modifies this`seats, this`labels, this`zones, this`blocks
      ensures error.None? <==>
              (forall item :: item in items ==> Sound(item, hall)) && Distinct(Names(TotalSeats(items, hall)))
      ensures OfItem(error)
      ensures error.None? ==>
                && Valid()
                && seats == TotalSeats(items, hall)
                && zones == TotalZones(items)
                && blocks == TotalBlocks(items)
    {
      hide Sound, ItemSeats, ItemZones, ItemBlocks, Distinct, Names, Flat;
      ghost var seatsOf := (item: Item) => ItemSeats(item, hall);
      FlatNone(seatsOf, items);
      FlatNone(ItemZones, items);
      FlatNone(ItemBlocks, items);
      for i := 0 to |items|
        invariant Valid()
        invariant seats == Flat(seatsOf, items[..i])
        invariant zones == Flat(ItemZones, items[..i])
        invariant blocks == Flat(ItemBlocks, items[..i])
        invariant forall j :: 0 <= j < i ==> Sound(items[j], hall)
      {
        FlatOneMore(seatsOf, items, i);
        FlatOneMore(ItemZones, items, i);
        FlatOneMore(ItemBlocks, items, i);
        error := AppendItem(items[i]);
        if error.Some? {
          FlatPrefix(seatsOf, items, i + 1);
          NamesOfLonger(Flat(seatsOf, items[..i + 1]), TotalSeats(items, hall));
          assert items[i] in items;
          return;
        }
      }
      assert items[..|items|] == items;
      error := None;
    }

    /** Replaces every part by its canonical form, one after the other. */
    method Canonicalize()
      modifies this`seats, this`zones, this`blocks
      ensures seats == Map(CanonicalSeat, old(seats))
      ensures zones == Map(CanonicalZone, old(zones))
      ensures blocks == Map(CanonicalBlock, old(blocks))
    {
      hide CanonicalSeat, CanonicalZone, CanonicalBlock;
      for i := 0 to |seats|
        invariant |seats| == |old(seats)| && zones == old(zones) && blocks == old(blocks)
        invariant forall j :: 0 <= j < i ==> seats[j] == CanonicalSeat(old(seats)[j])
        invariant forall j :: i <= j < |seats| ==> seats[j] == old(seats)[j]
      {
        seats := seats[i := CanonicalSeat(seats[i])];
      }
      for i := 0 to |zones|
        invariant |zones| == |old(zones)| && seats == Map(CanonicalSeat, old(seats)) && blocks == old(blocks)
        invariant forall j :: 0 <= j < i ==> zones[j] == CanonicalZone(old(zones)[j])
        invariant forall j :: i <= j < |zones| ==> zones[j] == old(zones)[j]
      {
        zones := zones[i := CanonicalZone(zones[i])];
      }
      for i := 0 to |blocks|
        invariant |blocks| == |old(blocks)|
        invariant seats == Map(CanonicalSeat, old(seats)) && zones == Map(CanonicalZone, old(zones))
        invariant forall j :: 0 <= j < i ==> blocks[j] == CanonicalBlock(old(blocks)[j])
        invariant forall j :: i <= j < |blocks| ==> blocks[j] == old(blocks)[j]
      {
        blocks := blocks[i := CanonicalBlock(blocks[i])];
      }
    }

    method Sort()
      modifies this`seats, this`zones, this`blocks
      ensures multiset(seats) == multiset(old(seats)) && Sorted(SeatLeq, seats)
      ensures multiset(zones) == multiset(old(zones)) && Sorted(ZoneLeq, zones)
      ensures multiset(blocks) == multiset(old(blocks)) && Sorted(BlockLeq, blocks)
    {
      SeatOrder();
      AreaOrders();
      SortBySorts(SeatLeq, seats);
      SortBySorts(ZoneLeq, zones);
      SortBySorts(BlockLeq, blocks);
      seats := SortBy(SeatLeq, seats);
      zones := SortBy(ZoneLeq, zones);
      blocks := SortBy(BlockLeq, blocks);
    }
  }

  lemma FlatNone<A, B>(f: A -> seq<B>, s: seq<A>)
    ensures Flat(f, s[..0]) == []
  {
  }

  /** The canonical sequence of strings, built the way the source does. */
  method CanonicalizeStrings(values: seq<string>) returns (r: seq<string>)
    ensures r == CanonicalStrings(values)
  {
    var result: seq<string> := [];
    for i := 0 to |values|
      invariant result == Trimmed(values[..i])
    {
      assert values[..i + 1][..i] == values[..i];
      var value := Trim(values[i]);
      if value != "" && value !in result {
        result := result + [value];
      }
    }
    assert values[..|values|] == values;
    return SortBy(Leq, result);
  }

  // ------------------------------------------------------------------ parsing

  /** The part of parsing that follows the decoding of the response. */
  method ParseLayout(items: seq<Item>, hall: Hall) returns (r: Result<Layout, LayoutError>)
    ensures r.Ok? <==> Accepted(items, hall)
    ensures r.Ok? ==> IsLayout(r.value, items, hall)
    ensures items == [] ==> r == Err(NoLayout)
    ensures r == Err(NoSeats) ==> TotalSeats(items, hall) == []
  {
    hide SeatsConvert, AreasConvert, Distinct, Sorted, Map, Flat, CanonicalSeat, CanonicalZone, CanonicalBlock, SeatLeq,
      ZoneLeq, BlockLeq;
    FlatNone((item: Item) => ItemSeats(item, hall), items);
    if |items| == 0 {
      assert items == items[..0];
      return Err(NoLayout);
    }
    hide TotalSeats, TotalZones, TotalBlocks;
    var builder := new LayoutBuilder(hall);
    var error := builder.AppendItems(items);
    if error.Some? {
      return Err(error.value);
    }
    builder.Canonicalize();
    builder.Sort();
    SameElements(builder.seats, Map(CanonicalSeat, TotalSeats(items, hall)));
    if |builder.seats| == 0 {
      return Err(NoSeats);
    }
    return Ok(Layout(builder.seats, builder.zones, builder.blocks));
  }
}
