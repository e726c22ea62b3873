/** Cell values as the table parser produces them, Python's truthiness of those values,
    their text forms, and the two row processors the upload registers:
    `stringify_processor` and `datetime_procesor`. */
module Cells {
  import opened Wrappers
  import opened Digits
  import Types

  /** A naive `datetime.datetime`. */
  datatype DateTime = DateTime(year: nat, month: nat, day: nat,
                               hour: nat, minute: nat, second: nat, microsecond: nat)
  {
    /** The ranges `datetime.datetime` enforces when one is built. */
    predicate Valid() {
      1 <= year <= 9999 && 1 <= month <= 12 && 1 <= day <= DaysInMonth(year, month) &&
      hour < 24 && minute < 60 && second < 60 && microsecond < 1000000
    }
  }

  type ValidDateTime = d: DateTime | d.Valid() witness DateTime(1, 1, 1, 0, 0, 0, 0)

  predicate IsLeap(year: nat) {
    year % 4 == 0 && (year % 100 != 0 || year % 400 == 0)
  }

  function DaysInMonth(year: nat, month: nat): nat {
    if month == 2 then (if IsLeap(year) then 29 else 28)
    else if month in {4, 6, 9, 11} then 30
    else 31
  }

  /** `YYYY-MM-DD`. */
  function DatePart(d: DateTime): (s: string)
    ensures |s| == 10
  {
    Padded(d.year, 4) + "-" + Padded(d.month, 2) + "-" + Padded(d.day, 2)
  }

  /** `HH:MM:SS`. */
  function TimePart(d: DateTime): (s: string)
    ensures |s| == 8
  {
    Padded(d.hour, 2) + ":" + Padded(d.minute, 2) + ":" + Padded(d.second, 2)
  }

  /** `.ffffff` when the microseconds are not zero, nothing otherwise. */
  function FractionPart(d: DateTime): (s: string)
    ensures |s| == if d.microsecond == 0 then 0 else 7
  {
    if d.microsecond == 0 then "" else "." + Padded(d.microsecond, 6)
  }

  /** `d.isoformat(sep)`: `YYYY-MM-DD<sep>HH:MM:SS`, followed by `.ffffff` only when the
      microseconds are not zero. `str(d)` is `d.isoformat(' ')`. */
  function IsoFormat(d: DateTime, sep: char): (s: string)
    ensures |s| == if d.microsecond == 0 then 19 else 26
  {
    DatePart(d) + [sep] + TimePart(d) + FractionPart(d)
  }

  /** Reads a date, a time and a fraction back out of `IsoFormat`'s layout (whatever the
      separator between date and time). */
  function ParseIso(s: string): Option<DateTime> {
    if (|s| == 19 || (|s| == 26 && s[19] == '.' && AllDigits(s[20..26]))) &&
       s[4] == '-' && s[7] == '-' && s[13] == ':' && s[16] == ':' &&
       AllDigits(s[0..4]) && AllDigits(s[5..7]) && AllDigits(s[8..10]) &&
       AllDigits(s[11..13]) && AllDigits(s[14..16]) && AllDigits(s[17..19])
    then
      Some(DateTime(ParseDigits(s[0..4]), ParseDigits(s[5..7]), ParseDigits(s[8..10]),
                    ParseDigits(s[11..13]), ParseDigits(s[14..16]), ParseDigits(s[17..19]),
                    if |s| == 26 then ParseDigits(s[20..26]) else 0))
    else None
  }

  /** Where the pieces of `a + [x] + b + [y] + c` sit. */
  lemma ThreeFields(a: string, x: char, b: string, y: char, c: string)
    ensures var s := a + [x] + b + [y] + c;
            s[..|a|] == a && s[|a|] == x && s[|a| + 1..|a| + 1 + |b|] == b &&
            s[|a| + 1 + |b|] == y && s[|a| + 2 + |b|..] == c
  {
    var s := a + [x] + b + [y] + c;
    assert s == a + ([x] + (b + ([y] + c)));
  }

  lemma DatePartFields(d: DateTime)
    ensures DatePart(d)[0..4] == Padded(d.year, 4) && DatePart(d)[4] == '-'
    ensures DatePart(d)[5..7] == Padded(d.month, 2) && DatePart(d)[7] == '-'
    ensures DatePart(d)[8..10] == Padded(d.day, 2)
  {
    ThreeFields(Padded(d.year, 4), '-', Padded(d.month, 2), '-', Padded(d.day, 2));
    assert DatePart(d)[0..4] == DatePart(d)[..4];
    assert DatePart(d)[8..10] == DatePart(d)[8..];
  }

  lemma TimePartFields(d: DateTime)
    ensures TimePart(d)[0..2] == Padded(d.hour, 2) && TimePart(d)[2] == ':'
    ensures TimePart(d)[3..5] == Padded(d.minute, 2) && TimePart(d)[5] == ':'
    ensures TimePart(d)[6..8] == Padded(d.second, 2)
  {
    ThreeFields(Padded(d.hour, 2), ':', Padded(d.minute, 2), ':', Padded(d.second, 2));
    assert TimePart(d)[0..2] == TimePart(d)[..2];
    assert TimePart(d)[6..8] == TimePart(d)[6..];
  }

  lemma IsoFormatParts(d: DateTime, sep: char)
    ensures IsoFormat(d, sep)[0..10] == DatePart(d)
    ensures IsoFormat(d, sep)[11..19] == TimePart(d)
    ensures IsoFormat(d, sep)[19..] == FractionPart(d)
  {
    var a, t, f := DatePart(d), TimePart(d), FractionPart(d);
    assert IsoFormat(d, sep) == a + ([sep] + t + f);
    assert IsoFormat(d, sep) == (a + [sep] + t) + f;
    assert (a + [sep] + t) == (a + [sep]) + t;
  }

  lemma IsoFormatRoundTrip(d: ValidDateTime, sep: char)
    ensures ParseIso(IsoFormat(d, sep)) == Some(d)
  {
    var s := IsoFormat(d, sep);
    assert Pow10(2) == 100 && Pow10(4) == 10000 && Pow10(6) == 1000000;
    IsoFormatParts(d, sep);
    DatePartFields(d);
    TimePartFields(d);
    assert s[0..4] == s[0..10][0..4] && s[5..7] == s[0..10][5..7] && s[8..10] == s[0..10][8..10];
    assert s[11..13] == s[11..19][0..2] && s[14..16] == s[11..19][3..5] && s[17..19] == s[11..19][6..8];
    PaddedRoundTrip(d.year, 4);
    PaddedRoundTrip(d.month, 2);
    PaddedRoundTrip(d.day, 2);
    PaddedRoundTrip(d.hour, 2);
    PaddedRoundTrip(d.minute, 2);
    PaddedRoundTrip(d.second, 2);
    if d.microsecond != 0 {
      assert s[20..26] == s[19..][1..];
      PaddedRoundTrip(d.microsecond, 6);
    }
  }

  /** A cell value. `Float` and `Decimal` are decimal numbers `unscaled / 10^places`. */
  datatype Value =
    | Null
    | Bool(b: bool)
    | Int(i: int)
    | Float(mantissa: int, places: nat)
    | Decimal(unscaled: int, places: nat)
    | Text(s: string)
    | DateTimeVal(dt: ValidDateTime)

  /** Python's `not v`: `None`, `False`, zero of every numeric type and the empty string
      are false; a `datetime` never is. Every true value has a non-empty text, so
      `stringify_processor` never uploads an empty string. */
  predicate Falsy(v: Value): (b: bool)
    ensures v.DateTimeVal? ==> !b
    ensures !b ==> ToText(v) != ""
  {
    match v
    case Null => true
    case Bool(b) => !b
    case Int(i) => i == 0
    case Float(m, _) => m == 0
    case Decimal(u, _) => u == 0
    case Text(s) => s == ""
    case DateTimeVal(_) => false
  }

  /** The digits before the decimal point of `m / 10^places`. */
  function WholePart(m: nat, scale: nat): nat
    requires scale >= 1
  {
    m / scale
  }

  /** The digits after the decimal point of `m / 10^places`. */
  function FractionDigits(m: nat, scale: nat): nat
    requires scale >= 1
  {
    m % scale
  }

  /** A decimal number with `places` digits after the point, as `str(Decimal)` writes it. */
  function DecimalText(unscaled: int, places: nat): (s: string)
    ensures s != ""
  {
    var m: nat := if unscaled < 0 then -unscaled else unscaled;
    var scale := Pow10(places);
    var whole := NatText(WholePart(m, scale));
    (if unscaled < 0 then "-" else "") + whole +
    (if places == 0 then "" else "." + Padded(FractionDigits(m, scale), places))
  }

  /** The shortest form of the float `mantissa / 10^places`: trailing zeros after the
      point dropped, as `unicode(float)` drops them. The value is unchanged. */
  function FloatDigits(mantissa: int, places: nat): (r: (int, nat))
    ensures r.1 <= places
    ensures r.1 == 0 || r.0 % 10 != 0
    ensures r.0 * Pow10(places - r.1) == mantissa
    decreases places
  {
    if places > 0 && mantissa % 10 == 0 then
      var r := FloatDigits(mantissa / 10, places - 1);
      assert Pow10(places - r.1) == 10 * Pow10(places - 1 - r.1);
      r
    else (mantissa, places)
  }

  /** `unicode(v)`: only the empty string has the empty text; a string is its own text,
      and an integer and a datetime can be read back from theirs. */
  function ToText(v: Value): (s: string)
    ensures s == "" <==> v == Text("")
    ensures v.Text? ==> s == v.s
    ensures v.Int? ==> ParseInt(s) == Some(v.i)
    ensures v.DateTimeVal? ==> ParseIso(s) == Some(v.dt)
  {
    match v
    case Null => "None"
    case Bool(b) => if b then "True" else "False"
    case Int(i) =>
      IntTextRoundTrip(i);
      IntText(i)
    case Float(m, p) =>
      var (digits, places) := FloatDigits(m, p);
      DecimalText(digits, places) + (if places == 0 then ".0" else "")
    case Decimal(u, p) => DecimalText(u, p)
    case Text(s) => s
    case DateTimeVal(d) =>
      IsoFormatRoundTrip(d, ' ');
      IsoFormat(d, ' ')
  }

  /** A float's text has no trailing zeros after the point, and a whole float ends in
      `.0`, while a decimal keeps the places it was written with. */
  lemma FloatTextExamples()
    ensures ToText(Float(150, 2)) == "1.5"
    ensures ToText(Float(300, 2)) == "3.0"
    ensures ToText(Decimal(150, 2)) == "1.50"
  {
    assert FloatDigits(150, 2) == (15, 1);
    assert FloatDigits(300, 2) == (3, 0);
    assert Pow10(1) == 10 && Pow10(2) == 100;
    assert DecimalText(15, 1) == "1.5" by {
      assert NatText(1) == "1" && Padded(5, 1) == "5";
    }
    assert DecimalText(3, 0) == "3" by {
      assert NatText(3) == "3";
    }
    assert DecimalText(150, 2) == "1.50" by {
      assert NatText(1) == "1" && Padded(50, 2) == "50";
    }
  }

  /** The text of a float depends only on its value: a trailing zero in the mantissa,
      with one more place, writes the same text. */
  lemma FloatTextIgnoresTrailingZero(m: int, p: nat)
    ensures ToText(Float(m * 10, p + 1)) == ToText(Float(m, p))
  {
    assert (m * 10) % 10 == 0;
    assert (m * 10) / 10 == m;
  }

  /** A decimal keeps the places it was written with: its text ends in a point followed by
      exactly `places` digits (no point when there are none). */
  lemma DecimalTextPlaces(u: int, p: nat)
    ensures var s := ToText(Decimal(u, p));
            |s| > p && AllDigits(s[|s| - p..]) && (p > 0 ==> s[|s| - p - 1] == '.')
  {
    var m: nat := if u < 0 then -u else u;
    var scale := Pow10(p);
    var head := (if u < 0 then "-" else "") + NatText(WholePart(m, scale));
    var tail := Padded(FractionDigits(m, scale), p);
    if p > 0 {
      assert ToText(Decimal(u, p)) == head + "." + tail;
      assert (head + "." + tail)[|head| + 1..] == tail;
    } else {
      assert ToText(Decimal(u, p)) == head;
    }
  }

  /** What `stringify_processor` writes into a cell holding `v`: `None` for a false value,
      the text form otherwise. */
  function StringifyValue(v: Value): (r: Value)
    ensures r.Null? <==> Falsy(v)
    ensures r.Null? || (r.Text? && r.s != "")
  {
    if Falsy(v) then Null else Text(ToText(v))
  }

  /** Stringifying an already stringified cell changes nothing. */
  lemma StringifyIdempotent(v: Value)
    ensures StringifyValue(StringifyValue(v)) == StringifyValue(v)
  {
  }

  /** The text form keeps the information: a non-empty text is kept as it is, an integer
      and a datetime can be read back from what replaces them. */
  lemma StringifyPreserves(v: Value)
    ensures v.Text? && v.s != "" ==> StringifyValue(v) == v
    ensures v.Int? && v.i != 0 ==> ParseInt(StringifyValue(v).s) == Some(v.i)
    ensures v.DateTimeVal? ==> ParseIso(StringifyValue(v).s) == Some(v.dt)
  {
    match v
    case Int(i) => IntTextRoundTrip(i);
    case DateTimeVal(d) => IsoFormatRoundTrip(d, ' ');
    case _ =>
  }

  /** What `datetime_procesor` makes of a cell with value `v` and type `t`: a datetime
      becomes its ISO-8601 text with type `StringType`; anything else is left alone. */
  function DatetimeConvert(v: Value, t: Types.CellType): (r: (Value, Types.CellType))
    ensures !v.DateTimeVal? ==> r == (v, t)
    ensures v.DateTimeVal? ==> r.0.Text? && r.1 == Types.StringType && ParseIso(r.0.s) == Some(v.dt)
    ensures !r.0.DateTimeVal?
  {
    match v
    case DateTimeVal(d) =>
      IsoFormatRoundTrip(d, 'T');
      (Text(IsoFormat(d, 'T')), Types.StringType)
    case _ => (v, t)
  }

  lemma DatetimeConvertIdempotent(v: Value, t: Types.CellType)
    ensures DatetimeConvert(DatetimeConvert(v, t).0, DatetimeConvert(v, t).1) == DatetimeConvert(v, t)
  {
  }

  /** In the upload the datetime processor runs first and the stringify processor last;
      between them `types_processor` casts each cell to its guessed type, here the
      parameter `cast`. When the cast leaves the ISO text alone, a datetime reaches the
      datastore with the `T` separator; when it parses the text back into the same
      datetime, it reaches the datastore as `str(datetime)`, with a space, exactly as if
      only the stringify processor had run. */
  lemma DatetimeThenStringify(v: Value, t: Types.CellType, cast: Value -> Value)
    requires v.DateTimeVal?
    ensures var iso := Text(IsoFormat(v.dt, 'T'));
            cast(iso) == iso ==> StringifyValue(cast(DatetimeConvert(v, t).0)) == iso
    ensures var iso := Text(IsoFormat(v.dt, 'T'));
            cast(iso) == v ==> StringifyValue(cast(DatetimeConvert(v, t).0)) == Text(IsoFormat(v.dt, ' '))
    ensures StringifyValue(v) == Text(IsoFormat(v.dt, ' '))
  {
    var iso := Text(IsoFormat(v.dt, 'T'));
    assert DatetimeConvert(v, t).0 == iso;
    assert StringifyValue(iso) == iso by {
      assert iso.s != [] && !Falsy(iso);
    }
    assert StringifyValue(v) == Text(IsoFormat(v.dt, ' ')) by {
      assert !Falsy(v) && ToText(v) == IsoFormat(v.dt, ' ');
    }
  }

  /** A parsed cell: its value and the type the parser gave it; both are rewritten in place. */
  class Cell {
    var value: Value
    var kind: Types.CellType

    constructor (value: Value, kind: Types.CellType)
      ensures this.value == value && this.kind == kind
    {
      this.value := value;
      this.kind := kind;
    }

    /** The body of `stringify_processor`'s loop, for this cell. */
    method Stringify()
      modifies this
      ensures value == StringifyValue(old(value)) && kind == old(kind)
    {
      if Falsy(value) {
        value := Null;
      } else {
        value := Text(ToText(value));
      }
    }

    /** The body of `datetime_procesor`'s loop, for this cell. */
    method ConvertDatetime()
      modifies this
      ensures (value, kind) == DatetimeConvert(old(value), old(kind))
    {
      if value.DateTimeVal? {
        value := Text(IsoFormat(value.dt, 'T'));
        kind := Types.StringType;
      }
    }
  }

  /** `stringify_processor`: rewrites the value of every cell of the row in place and returns
      the same row. A cell that occurs twice in the row ends up stringified once, since
      stringifying is idempotent. */
  method StringifyRow(row: seq<Cell>) returns (out: seq<Cell>)
    modifies row
    ensures out == row
    ensures forall c :: c in row ==> c.value == StringifyValue(old(c.value)) && c.kind == old(c.kind)
  {
    ghost var done: set<Cell> := {};
    var i := 0;
    while i < |row|
      invariant 0 <= i <= |row|
      invariant forall k :: 0 <= k < i ==> row[k] in done
      invariant forall c :: c in row ==> c.kind == old(c.kind)
      invariant forall c :: c in row && c in done ==> c.value == StringifyValue(old(c.value))
      invariant forall c :: c in row && c !in done ==> c.value == old(c.value)
    {
      var cell := row[i];
      StringifyIdempotent(old(cell.value));
      cell.Stringify();
      done := done + {cell};
      i := i + 1;
    }
    out := row;
  }

  /** `datetime_procesor`: rewrites every datetime cell of the row in place and returns the
      same row. A cell that occurs twice in the row is converted once. */
  method DatetimeRow(row: seq<Cell>) returns (out: seq<Cell>)
    modifies row
    ensures out == row
    ensures forall c :: c in row ==> (c.value, c.kind) == DatetimeConvert(old(c.value), old(c.kind))
  {
    ghost var done: set<Cell> := {};
    var i := 0;
    while i < |row|
      invariant 0 <= i <= |row|
      invariant forall k :: 0 <= k < i ==> row[k] in done
      invariant forall c :: c in row && c in done ==>
        (c.value, c.kind) == DatetimeConvert(old(c.value), old(c.kind))
      invariant forall c :: c in row && c !in done ==> c.value == old(c.value) && c.kind == old(c.kind)
    {
      var cell := row[i];
      DatetimeConvertIdempotent(old(cell.value), old(cell.kind));
      cell.ConvertDatetime();
      done := done + {cell};
      i := i + 1;
    }
    out := row;
  }
}
