/** The normalised seat layout of one auditorium (internal/provider/cgv/seat_map_snapshot.go). */
module SeatMap {
  import opened Text
  import opened Sequences

  // ------------------------------------------------------------------- input

  /** Coordinates are absent when they do not parse to a finite number. */
  type Coordinate = Option<real>

  datatype BoardSource = BoardSource(xStart: Coordinate, yStart: Coordinate, xEnd: Coordinate, yEnd: Coordinate)
  datatype SaleForm = SaleForm(code: string, name: string)
  datatype ZoneSource = ZoneSource(
    code: string, name: string, kindCode: string, kindName: string,
    xStart: Coordinate, yStart: Coordinate, xEnd: Coordinate, yEnd: Coordinate, capacity: string)
  datatype BlockSource = BlockSource(
    code: string, name: string, kindCode: string, kindName: string,
    xStart: Coordinate, yStart: Coordinate, xEnd: Coordinate, yEnd: Coordinate)
  datatype SeatSource = SeatSource(
    row: string, number: string, kindCode: string, kindName: string, zoneName: string, zoneKind: string,
    saleForm: string, statusCode: string, saleYN: string,
    xStart: Coordinate, yStart: Coordinate, xEnd: Coordinate, yEnd: Coordinate,
    leftAisle: string, rightAisle: string)
  datatype Item = Item(
    board: BoardSource, saleForms: seq<SaleForm>, zones: seq<ZoneSource>, blocks: seq<BlockSource>,
    seats: seq<SeatSource>)

  // ------------------------------------------------------------------ output

  datatype Seat = Seat(
    id: string, auditorium: string, name: string, row: string, number: int, x: real, y: real, kind: string,
    zoneName: string, zoneKind: string, saleFormCode: string, saleFormName: string,
    leftAisle: bool, rightAisle: bool, features: seq<string>,
    sourceLabel: string, sourceKindCode: string, sourceKindName: string, sourceClasses: seq<string>)
  datatype Box = Box(minX: real, maxX: real, minY: real, maxY: real)
  datatype Zone = Zone(
    code: string, name: string, kindCode: string, kindName: string, box: Box, capacity: int)
  datatype Block = Block(code: string, name: string, kindCode: string, kindName: string, box: Box)
  datatype Layout = Layout(seats: seq<Seat>, zones: seq<Zone>, blocks: seq<Block>)

  datatype LayoutError =
    | NoLayout | NoSeats
    | BadBoard | BadSeatLabel | DuplicateSeat(name: string) | BadSeatCoordinate | BadZone | BadBlock

  /** The auditorium, the library's upper-casing of its row names, and the identity its seats get for their labels. */
  datatype Hall = Hall(auditorium: string, upper: char -> char, seatId: string -> string)

  // ------------------------------------------------------------- coordinates

  /** A point of the board's axis as a fraction of its length. */
  function NormalizeAxis(value: real, minimum: real, maximum: real): Option<real>
    requires minimum < maximum
  {
    var normalized := (value - minimum) / (maximum - minimum);
    if normalized < 0.0 || normalized > 1.0 then None else Some(normalized)
  }

  predicate ProperBox(b: Box) {
    b.minX < b.maxX && b.minY < b.maxY
  }

  function NewBoard(source: BoardSource): (r: Option<Box>)
    ensures r.Some? ==> ProperBox(r.value)
  {
    if source.xStart.None? || source.xEnd.None? || source.yStart.None? || source.yEnd.None? then None
    else
      var board := Box(source.xStart.value, source.xEnd.value, source.yStart.value, source.yEnd.value);
      if board.maxX <= board.minX || board.maxY <= board.minY then None else Some(board)
  }

  function Center(from: Coordinate, upTo: Coordinate, minimum: real, maximum: real): Option<real>
    requires minimum < maximum
  {
    if from.None? || upTo.None? || upTo.value < from.value then None
    else NormalizeAxis((from.value + upTo.value) / 2.0, minimum, maximum)
  }

  function Axis(value: Coordinate, minimum: real, maximum: real): Option<real>
    requires minimum < maximum
  {
    if value.None? then None else NormalizeAxis(value.value, minimum, maximum)
  }

  function Bounds(
    board: Box, xStart: Coordinate, xEnd: Coordinate, yStart: Coordinate, yEnd: Coordinate): (r: Option<Box>)
    requires ProperBox(board)
  {
    var minX, maxX := Axis(xStart, board.minX, board.maxX), Axis(xEnd, board.minX, board.maxX);
    var minY, maxY := Axis(yStart, board.minY, board.maxY), Axis(yEnd, board.minY, board.maxY);
    if minX.None? || maxX.None? || minY.None? || maxY.None? then None
    else if minX.value > maxX.value || minY.value > maxY.value then None
    else Some(Box(minX.value, maxX.value, minY.value, maxY.value))
  }

  lemma DivideKeepsOrder(a: real, b: real, d: real)
    requires d > 0.0
    ensures a <= b <==> a / d <= b / d
  {
    assert (a / d) * d == a && (b / d) * d == b;
    var p, q := a / d, b / d;
    assert p <= q ==> p * d <= q * d;
    assert q < p ==> q * d < p * d;
  }

  /** Exactly the points of the axis are accepted, they land in [0, 1], and their order is kept. */
  lemma NormalizeKeepsOrder(v: real, w: real, minimum: real, maximum: real)
    requires minimum < maximum
    ensures NormalizeAxis(v, minimum, maximum).Some? <==> minimum <= v <= maximum
    ensures var a, b := NormalizeAxis(v, minimum, maximum), NormalizeAxis(w, minimum, maximum);
            a.Some? && b.Some? ==> 0.0 <= a.value <= 1.0 && (v <= w <==> a.value <= b.value)
  {
    var length := maximum - minimum;
    DivideKeepsOrder(0.0, v - minimum, length);
    DivideKeepsOrder(v - minimum, length, length);
    DivideKeepsOrder(v - minimum, w - minimum, length);
    assert 0.0 / length == 0.0 && length / length == 1.0;
  }

  // ------------------------------------------------------------------ labels

  datatype SeatLabel = SeatLabel(text: string, row: string, number: int)

  function Decimal(n: nat): (r: string)
    ensures r != "" && forall c :: c in r ==> '0' <= c <= '9'
  {
    if n < 10 then ['0' + n as char] else Decimal(n / 10) + ['0' + (n % 10) as char]
  }

  const INT32_MAX: int := 0x7FFF_FFFF
  const INT32_MIN: int := -0x8000_0000

  function ParseInt32(s: string): (r: Option<int>)
    ensures r.Some? ==> INT32_MIN <= r.value <= INT32_MAX
  {
    var parsed := ParseInt64(s);
    if parsed.Some? && INT32_MIN <= parsed.value <= INT32_MAX then parsed else None
  }

  /** Upper-cased row followed by the decimal seat number. */
  function NormalizedLabel(source: SeatSource, upper: char -> char): (r: Option<SeatLabel>)
    ensures r.Some? ==> 1 <= r.value.number <= INT32_MAX && r.value.row != ""
  {
    var number := ParseInt32(Trim(source.number));
    var row := Recased(upper, Trim(source.row));
    if number.None? || number.value < 1 || row == "" then None
    else Some(SeatLabel(row + Decimal(number.value), row, number.value))
  }

  lemma RowThenDigits(upper: char -> char, row: string, digits: string)
    requires UpperMap(upper)
    requires row != "" && Trim(row) == row && Recased(upper, row) == row
    requires digits != "" && forall c :: c in digits ==> '0' <= c <= '9'
    ensures Trim(row + digits) == row + digits
    ensures Recased(upper, row + digits) == row + digits
  {
    hide Trim, Recased;
    var text := row + digits;
    assert text[0] == row[0] && text[|text| - 1] == digits[|digits| - 1];
    assert digits[|digits| - 1] in digits;
    TrimFixed(text);
    forall i | 0 <= i < |text| ensures Recased(upper, text)[i] == text[i] {
      if i < |row| {
        assert Recased(upper, row)[i] == row[i];
      } else {
        assert text[i] == digits[i - |row|] && digits[i - |row|] in digits;
      }
    }
  }

  /** A label that the seat identity's own trimming and upper-casing leaves alone. */
  predicate NormalLabel(text: string, upper: char -> char) {
    Recased(upper, Trim(text)) == text
  }

  /** A label is its own trimmed upper-case form, so identities made from it see the label itself. */
  lemma LabelIsNormal(source: SeatSource, upper: char -> char)
    requires UpperMap(upper)
    requires NormalizedLabel(source, upper).Some?
    ensures var text := NormalizedLabel(source, upper).value.text;
            Trim(text) == text && NormalLabel(text, upper)
  {
    hide Trim, Recased, Decimal, ParseInt32, UpperMap;
    UpperTrimmed(upper, source.row);
    UpperIdempotent(upper, Trim(source.row));
    RowThenDigits(upper, Recased(upper, Trim(source.row)),
                  Decimal(NormalizedLabel(source, upper).value.number));
  }

  // -------------------------------------------------------------- conversion

  const SEAT_TYPES: seq<(seq<string>, string)> := [
    (["wheel", "휠체어", "이동식"], "wheelchair"),
    (["companion", "보호자"], "companion"),
    (["couple", "sweetbox", "커플"], "couple"),
    (["tempur", "bed", "템퍼"], "bed"),
    (["recliner", "stressless", "리클라이너"], "recliner"),
    (["premium", "primium", "프리미엄"], "premium"),
    (["prime", "프라임"], "prime"),
    (["4dx", "motion", "모션"], "motion")]

  /** The first kind one of whose keywords occurs. */
  function SeatTypeFrom(haystack: string, candidates: seq<(seq<string>, string)>): string {
    if candidates == [] then "standard"
    else if exists keyword :: keyword in candidates[0].0 && Contains(haystack, keyword) then candidates[0].1
    else SeatTypeFrom(haystack, candidates[1..])
  }

  function SeatType(kindName: string, saleFormName: string): string {
    SeatTypeFrom(Lower(kindName + " " + saleFormName), SEAT_TYPES)
  }

  function Features(source: SeatSource, saleFormName: string): seq<string> {
    var zoneName, formName := Trim(source.zoneName), Trim(saleFormName);
    (if zoneName != "" then ["zone:" + zoneName] else []) +
    (if formName != "" then ["sale-form:" + formName] else []) +
    (if source.leftAisle == "Y" then ["left-aisle"] else []) +
    (if source.rightAisle == "Y" then ["right-aisle"] else []) +
    (if Contains(formName, "이동식") then ["wheelchair-area", "removable"] else [])
  }

  /** The last form of a code names it. */
  function SaleForms(forms: seq<SaleForm>): map<string, string> {
    if forms == [] then map[]
    else SaleForms(forms[..|forms| - 1])[forms[|forms| - 1].code := forms[|forms| - 1].name]
  }

  function FormName(forms: map<string, string>, code: string): string {
    if code in forms then forms[code] else ""
  }

  function MakeSeat(source: SeatSource, name: SeatLabel, x: real, y: real, formName: string, hall: Hall): Seat {
    Seat(hall.seatId(name.text), hall.auditorium, name.text, name.row, name.number, x, y,
         SeatType(source.kindName, formName), source.zoneName, source.zoneKind, source.saleForm, formName,
         source.leftAisle == "Y", source.rightAisle == "Y", Features(source, formName),
         name.text, source.kindCode, source.kindName, [])
  }

  function ConvertSeat(source: SeatSource, board: Box, forms: map<string, string>, hall: Hall): (r: Option<Seat>)
    requires ProperBox(board)
  {
    var text := NormalizedLabel(source, hall.upper);
    var x := Center(source.xStart, source.xEnd, board.minX, board.maxX);
    var y := Center(source.yStart, source.yEnd, board.minY, board.maxY);
    if text.None? || x.None? || y.None? then None
    else Some(MakeSeat(source, text.value, x.value, y.value, FormName(forms, source.saleForm), hall))
  }

  /** No capacity given means 0. */
  function OptionalCapacity(s: string): (r: Option<int>)
    ensures r.Some? ==> 0 <= r.value <= INT32_MAX
  {
    if Trim(s) == "" then Some(0)
    else
      var capacity := ParseInt32(Trim(s));
      if capacity.Some? && capacity.value >= 0 then capacity else None
  }

  function ConvertZone(source: ZoneSource, board: Box): Option<Zone>
    requires ProperBox(board)
  {
    var capacity := OptionalCapacity(source.capacity);
    var bounds := Bounds(board, source.xStart, source.xEnd, source.yStart, source.yEnd);
    if capacity.None? || bounds.None? then None
    else Some(Zone(source.code, source.name, source.kindCode, source.kindName, bounds.value, capacity.value))
  }

  function ConvertBlock(source: BlockSource, board: Box): Option<Block>
    requires ProperBox(board)
  {
    var bounds := Bounds(board, source.xStart, source.xEnd, source.yStart, source.yEnd);
    if bounds.None? then None
    else Some(Block(source.code, source.name, source.kindCode, source.kindName, bounds.value))
  }
}
