/**
 * The field codec of the ABO/GPC format (abo/io.go): fixed-width fields
 * written to an append-only sink and read from a byte stream with a cursor.
 *
 * Monetary amounts are integers in minor units (halere), so the writer's
 * `int(amount*100)` and the reader's `/ 100` are changes of unit only.
 */
module AboIO {
  import opened Wrappers
  import Windows1250

  /** One byte of the stream; Go strings are byte strings too. */
  type byte = Windows1250.byte
  type bytes = Windows1250.bytes

  const TAB: byte := 9
  const LF: byte := 10
  const SPACE: byte := 32
  const PLUS: byte := 43
  const MINUS: byte := 45
  const ZERO: byte := 48

  /** The bytes of an ASCII literal. */
  function Ascii(s: string): bytes
    requires forall i | 0 <= i < |s| :: s[i] as int < 0x80
  {
    seq(|s|, i requires 0 <= i < |s| => s[i] as int)
  }

  /**
   * Errors as tags. Context wraps a cause with the logical field it was met
   * in, as abo's newErr("problem reading <field>: %v", err) does.
   */
  datatype Error =
    | EndOfInput                               // io.EOF: no byte left
    | ShortRead                                // fewer bytes left than the field width
    | NotAnInteger(text: bytes)                // strconv.Atoi refused the trimmed field
    | BadDate(text: bytes)                     // time.Parse refused the trimmed field
    | Encoding                                 // the Windows-1250 encoder refused the text
    | WrongRecordType(expected: bytes, got: bytes)
    | NoMoreTransactions                       // errNoMoreTransactions
    | Context(field: string, cause: Error)

  // ---------------------------------------------------------------------
  // Facts about concatenation, stated once for arbitrary byte strings

  lemma AppendSplit(x: bytes, y: bytes)
    ensures (x + y)[..|x|] == x && (x + y)[|x|..] == y
  {
  }

  lemma AppendAssoc(x: bytes, y: bytes, z: bytes)
    ensures x + y + z == x + (y + z)
  {
  }

  /** A slice of a piece that sits at `s` in b is the same slice of b, shifted by s. */
  lemma SubSlice(b: bytes, s: nat, x: bytes, a: nat, n: nat)
    requires s + |x| <= |b| && b[s..s + |x|] == x && a + n <= |x|
    ensures b[s + a..s + a + n] == x[a..a + n]
  {
    var whole := b[s..s + |x|];
    var left := b[s + a..s + a + n];
    var right := x[a..a + n];
    forall k | 0 <= k < n
      ensures left[k] == right[k]
    {
      assert left[k] == whole[a + k];
    }
  }

  /** A slice of a prefix of b is the same slice of b. */
  lemma PrefixSlice(b: bytes, x: bytes, a: nat, n: nat)
    requires |x| <= |b| && b[..|x|] == x && a + n <= |x|
    ensures b[a..a + n] == x[a..a + n]
  {
    var left := b[a..a + n];
    var right := x[a..a + n];
    forall k | 0 <= k < n
      ensures left[k] == right[k]
    {
      assert left[k] == b[..|x|][a + k];
    }
  }

  /** An integer field read back from a prefix of b reads the same from b. */
  lemma DecodeIntInPrefix(b: bytes, x: bytes, a: nat, n: nat, v: int)
    requires |x| <= |b| && b[..|x|] == x && a + n <= |x|
    requires DecodeInt(x[a..a + n]) == Ok(v)
    ensures DecodeInt(b[a..a + n]) == Ok(v)
  {
    PrefixSlice(b, x, a, n);
  }

  // ---------------------------------------------------------------------
  // Constant-byte padding (the `pad` slice of WritePad)

  function Repeat(b: byte, n: nat): (r: bytes)
    ensures |r| == n
    ensures forall i | 0 <= i < n :: r[i] == b
  {
    if n == 0 then [] else Repeat(b, n - 1) + [b]
  }

  /**
   * What WritePad emits: exactly `width` bytes. Longer data is cut to its
   * first `width` bytes; shorter data gets `padding` bytes before it
   * (padLeft) or after it.
   */
  function Padded(data: bytes, width: nat, padding: byte, padLeft: bool): (r: bytes)
    ensures |r| == width
  {
    if |data| > width then data[..width]
    else if padLeft then Repeat(padding, width - |data|) + data
    else data + Repeat(padding, width - |data|)
  }

  /**
   * Longer data keeps its first `width` bytes; shorter data sits at the end
   * (padLeft) or at the start of the field, and every other byte is the pad.
   */
  lemma PaddedContents(data: bytes, width: nat, padding: byte, padLeft: bool)
    ensures var r := Padded(data, width, padding, padLeft);
      && (|data| > width ==> r == data[..width])
      && (|data| <= width && padLeft ==>
            r[width - |data|..] == data && forall i | 0 <= i < width - |data| :: r[i] == padding)
      && (|data| <= width && !padLeft ==>
            r[..|data|] == data && forall i | |data| <= i < width :: r[i] == padding)
  {
    var r := Padded(data, width, padding, padLeft);
    if |data| <= width {
      var pad := Repeat(padding, width - |data|);
      if padLeft {
        assert r == pad + data;
      } else {
        assert r == data + pad;
      }
    }
  }

  // ---------------------------------------------------------------------
  // cleanStr: strings.TrimSpace over ASCII white space

  predicate IsSpace(b: byte) {
    b == TAB || b == LF || b == 11 || b == 12 || b == 13 || b == SPACE
  }

  predicate NoEdgeSpace(s: bytes) {
    s == [] || (!IsSpace(s[0]) && !IsSpace(s[|s| - 1]))
  }

  function TrimLeft(s: bytes): (r: bytes)
    ensures |r| <= |s| && r == s[|s| - |r|..]
    ensures forall i | 0 <= i < |s| - |r| :: IsSpace(s[i])
    ensures r == [] || !IsSpace(r[0])
  {
    if s != [] && IsSpace(s[0]) then TrimLeft(s[1..]) else s
  }

  function TrimRight(s: bytes): (r: bytes)
    ensures |r| <= |s| && r == s[..|r|]
    ensures forall i | |r| <= i < |s| :: IsSpace(s[i])
    ensures r == [] || !IsSpace(r[|r| - 1])
  {
    if s != [] && IsSpace(s[|s| - 1]) then TrimRight(s[..|s| - 1]) else s
  }

  /** cleanStr: drops leading and trailing white space and nothing else. */
  function CleanStr(s: bytes): (r: bytes)
    ensures NoEdgeSpace(r)
    ensures NoEdgeSpace(s) ==> r == s
    ensures (forall i | 0 <= i < |s| :: IsSpace(s[i])) ==> r == []
  {
    TrimRight(TrimLeft(s))
  }

  /** Reading back a right-padded string field gives the string itself. */
  lemma {:induction false} CleanStrOfPadded(s: bytes, n: nat)
    requires NoEdgeSpace(s)
    ensures CleanStr(s + Repeat(SPACE, n)) == s
  {
    var t := s + Repeat(SPACE, n);
    var l := TrimLeft(t);
    if s == [] {
      assert t == Repeat(SPACE, n);
    } else {
      assert !IsSpace(t[0]);
      assert l == t;
      TrimRightOfPadded(s, n);
    }
  }

  lemma {:induction false} TrimRightOfPadded(s: bytes, n: nat)
    requires s != [] && !IsSpace(s[|s| - 1])
    ensures TrimRight(s + Repeat(SPACE, n)) == s
  {
    if n > 0 {
      var t := s + Repeat(SPACE, n);
      assert t[|t| - 1] == SPACE;
      assert t[..|t| - 1] == s + Repeat(SPACE, n - 1);
      TrimRightOfPadded(s, n - 1);
    } else {
      assert s + Repeat(SPACE, n) == s;
    }
  }

  // ---------------------------------------------------------------------
  // Decimal integers: strconv.Itoa and strconv.Atoi

  predicate IsDigit(b: byte) {
    ZERO <= b <= ZERO + 9
  }

  predicate AllDigits(s: bytes) {
    forall i | 0 <= i < |s| :: IsDigit(s[i])
  }

  function Pow10(n: nat): (r: nat)
    ensures r >= 1
  {
    if n == 0 then 1 else 10 * Pow10(n - 1)
  }

  /** The value of a string of decimal digits, most significant first. */
  function DigitsValue(s: bytes): nat
    requires AllDigits(s)
  {
    if s == [] then 0 else DigitsValue(s[..|s| - 1]) * 10 + (s[|s| - 1] - ZERO)
  }

  /** The decimal representation of n, without leading zeros. */
  function Digits(n: nat): (r: bytes)
    ensures 1 <= |r| && AllDigits(r)
    ensures r[0] == ZERO ==> n == 0
  {
    if n < 10 then [ZERO + n] else Digits(n / 10) + [ZERO + n % 10]
  }

  /** strconv.Itoa: a '-' sign for negative values, then the digits. */
  function Itoa(i: int): (r: bytes)
  {
    if i < 0 then [MINUS] + Digits(-i) else Digits(i)
  }

  /**
   * strconv.Atoi: an optional '+' or '-' sign followed by at least one
   * decimal digit. Overflow of the 64-bit result is not modelled.
   */
  function Atoi(s: bytes): (r: Result<int, Error>)
  {
    if s == [] then Err(NotAnInteger(s))
    else if s[0] == PLUS || s[0] == MINUS then
      var digits := s[1..];
      if digits == [] || !AllDigits(digits) then Err(NotAnInteger(s))
      else
        var v: int := DigitsValue(digits);
        if s[0] == MINUS then Ok(-v) else Ok(v)
    else if AllDigits(s) then Ok(DigitsValue(s))
    else Err(NotAnInteger(s))
  }

  lemma {:induction false} DigitsValueOfDigits(n: nat)
    ensures DigitsValue(Digits(n)) == n
  {
    if n >= 10 {
      var d := Digits(n);
      assert d[..|d| - 1] == Digits(n / 10);
      DigitsValueOfDigits(n / 10);
    }
  }

  /** Leading zeros do not change the value of a digit string. */
  lemma {:induction false} DigitsValueZeroPadded(k: nat, s: bytes)
    requires AllDigits(s)
    ensures AllDigits(Repeat(ZERO, k) + s)
    ensures DigitsValue(Repeat(ZERO, k) + s) == DigitsValue(s)
  {
    var t := Repeat(ZERO, k) + s;
    if s == [] {
      assert t == Repeat(ZERO, k);
      ZerosValue(k);
    } else {
      assert t[..|t| - 1] == Repeat(ZERO, k) + s[..|s| - 1];
      DigitsValueZeroPadded(k, s[..|s| - 1]);
    }
  }

  lemma {:induction false} ZerosValue(k: nat)
    ensures AllDigits(Repeat(ZERO, k)) && DigitsValue(Repeat(ZERO, k)) == 0
  {
    if k > 0 {
      assert Repeat(ZERO, k)[..k - 1] == Repeat(ZERO, k - 1);
      ZerosValue(k - 1);
    }
  }

  /** The decimal representation of n fits in w >= 1 columns exactly when n < 10^w. */
  lemma {:induction false} DigitsWidth(n: nat, w: nat)
    requires w >= 1
    ensures |Digits(n)| <= w <==> n < Pow10(w)
  {
    if n >= 10 {
      if w == 1 {
        assert |Digits(n)| == |Digits(n / 10)| + 1;
      } else {
        DigitsWidth(n / 10, w - 1);
      }
    } else if w > 1 {
      Pow10Grows(w);
    }
  }

  lemma {:induction false} Pow10Grows(w: nat)
    requires w >= 1
    ensures Pow10(w) >= 10
  {
    if w > 1 {
      Pow10Grows(w - 1);
    }
  }

  /** Atoi inverts Itoa on every integer. */
  lemma AtoiOfItoa(i: int)
    ensures Atoi(Itoa(i)) == Ok(i)
  {
    if i < 0 {
      var d := Digits(-i);
      var s := [MINUS] + d;
      assert s[0] == MINUS;
      assert s[1..] == d;
      DigitsValueOfDigits(-i);
      assert Atoi(s) == Ok(i);
    } else {
      var d := Digits(i);
      DigitsValueOfDigits(i);
      assert d[0] != PLUS && d[0] != MINUS;
      assert Atoi(d) == Ok(i);
    }
  }

  // ---------------------------------------------------------------------
  // Dates: the layout "020106" (DDMMYY)

  /**
   * A calendar date as the format sees it: day, month and the year modulo
   * 100. Go's two-digit-year pivot maps yy to 1969..2068, where a year is a
   * leap year exactly when yy % 4 == 0 (2000 is one; 1900 and 2100 are outside).
   */
  datatype Date = Date(day: int, month: int, yy: int) {
    predicate Valid() {
      1 <= month <= 12 && 0 <= yy < 100 && 1 <= day <= DaysInMonth(month, yy)
    }
  }

  function DaysInMonth(month: int, yy: int): int {
    if month == 2 then (if yy % 4 == 0 then 29 else 28)
    else if month == 4 || month == 6 || month == 9 || month == 11 then 30
    else 31
  }

  /** A time.Time always denotes a real date. */
  type CalendarDate = d: Date | d.Valid() witness Date(1, 1, 1)

  function TwoDigits(n: int): (r: bytes)
    requires 0 <= n < 100
  {
    [ZERO + n / 10, ZERO + n % 10]
  }

  function TwoDigitsValue(a: byte, b: byte): int
    requires IsDigit(a) && IsDigit(b)
  {
    (a - ZERO) * 10 + (b - ZERO)
  }

  /** time.Format with layout "020106": zero-padded day, month and year of century. */
  function FormatDDMMYY(d: CalendarDate): (r: bytes)
    ensures |r| == 6 && AllDigits(r)
  {
    TwoDigits(d.day) + TwoDigits(d.month) + TwoDigits(d.yy)
  }

  /**
   * The "06" element of time.Parse: two bytes read with Go's atoi, which
   * takes an optional sign, so besides two digits a sign and one digit are
   * a year too. The year -d is below 69 and becomes 2000 - d; the year +d
   * becomes 2000 + d. The result is the year modulo 100.
   */
  function YearOfCentury(a: byte, b: byte): (r: Option<int>)
    ensures r.Some? ==> 0 <= r.value < 100
    ensures r.Some? <==> IsDigit(b) && (IsDigit(a) || a == PLUS || a == MINUS)
  {
    if IsDigit(a) && IsDigit(b) then Some(TwoDigitsValue(a, b))
    else if a == PLUS && IsDigit(b) then Some(b - ZERO)
    else if a == MINUS && IsDigit(b) then Some((100 - (b - ZERO)) % 100)
    else None
  }

  /**
   * time.Parse with layout "020106": six bytes, a two-digit day and a
   * two-digit month that name a real date in the year the last two bytes
   * give, and nothing after them.
   */
  function ParseDDMMYY(s: bytes): (r: Result<CalendarDate, Error>)
    ensures r.Err? ==> r.error == BadDate(s)
  {
    if |s| == 6 && IsDigit(s[0]) && IsDigit(s[1]) && IsDigit(s[2]) && IsDigit(s[3])
      && YearOfCentury(s[4], s[5]).Some? then
      var d := Date(TwoDigitsValue(s[0], s[1]), TwoDigitsValue(s[2], s[3]), YearOfCentury(s[4], s[5]).value);
      if d.Valid() then Ok(d) else Err(BadDate(s))
    else Err(BadDate(s))
  }

  /** Parsing inverts formatting. */
  lemma ParseOfFormat(d: CalendarDate)
    ensures |FormatDDMMYY(d)| == 6
    ensures ParseDDMMYY(FormatDDMMYY(d)) == Ok(d)
  {
  }

  /**
   * Formatting inverts parsing exactly on the all-digit spellings; a date
   * parsed from a signed year is formatted with its two digits instead.
   */
  lemma FormatOfParse(s: bytes)
    requires ParseDDMMYY(s).Ok?
    ensures FormatDDMMYY(ParseDDMMYY(s).value) == s <==> AllDigits(s)
  {
    var f := FormatDDMMYY(ParseDDMMYY(s).value);
    assert f[0] == s[0] && f[1] == s[1] && f[2] == s[2] && f[3] == s[3];
    if AllDigits(s) {
      assert IsDigit(s[4]) && IsDigit(s[5]);
      assert f[4] == s[4] && f[5] == s[5];
    } else {
      assert !IsDigit(s[4]) by {
        if IsDigit(s[4]) {
          assert forall i | 0 <= i < 6 :: IsDigit(s[i]);
        }
      }
      assert f[4] != s[4];
    }
  }

  /**
   * Two spellings of one date: "0101-5" is 1 January 1995 like "010195",
   * "0101+5" is 1 January 2005 like "010105", and "0101-0" is 1 January 2000.
   */
  lemma SignedYears()
    ensures ParseDDMMYY(Ascii("010195")) == Ok(Date(1, 1, 95))
    ensures ParseDDMMYY(Ascii("0101-5")) == Ok(Date(1, 1, 95))
    ensures ParseDDMMYY(Ascii("0101+5")) == ParseDDMMYY(Ascii("010105"))
    ensures ParseDDMMYY(Ascii("0101-0")) == Ok(Date(1, 1, 0))
  {
  }

  // ---------------------------------------------------------------------
  // What each writer method emits

  /** WriteStr: right-padded with spaces, or cut, to `width`. */
  function StrField(s: bytes, width: nat): bytes {
    Padded(s, width, SPACE, false)
  }

  /** WriteInt (and WriteMonetaryAmount on minor units): zero-padded on the left. */
  function IntField(i: int, width: nat): bytes {
    Padded(Itoa(i), width, ZERO, true)
  }

  /** WriteTime: DDMMYY in a six-column string field. */
  function DateField(d: CalendarDate): bytes {
    StrField(FormatDDMMYY(d), 6)
  }

  // ---------------------------------------------------------------------
  // How each reader method interprets the bytes of a field

  function DecodeStr(field: bytes): bytes {
    CleanStr(field)
  }

  /** Decoder.Bytes never fails, so neither does this field. */
  function DecodeStrWindows1250(field: bytes): Result<bytes, Error> {
    Ok(CleanStr(Windows1250.Decode(field)))
  }

  /** On an ASCII field the transcoding reader and ReadStr agree. */
  lemma AsciiFieldDecodes(field: bytes)
    requires Windows1250.IsAscii(field)
    ensures DecodeStrWindows1250(field) == Ok(DecodeStr(field))
  {
    Windows1250.DecodeAscii(field);
  }

  function DecodeInt(field: bytes): Result<int, Error> {
    Atoi(CleanStr(field))
  }

  function DecodeDate(field: bytes): Result<CalendarDate, Error> {
    ParseDDMMYY(CleanStr(field))
  }

  /** A zero-padded integer field in range reads back as its value. */
  lemma IntFieldRoundTrip(i: int, w: nat)
    requires 1 <= w && 0 <= i < Pow10(w)
    ensures |IntField(i, w)| == w
    ensures DecodeInt(IntField(i, w)) == Ok(i)
  {
    var d := Digits(i);
    DigitsWidth(i, w);
    var f := IntField(i, w);
    assert f == Repeat(ZERO, w - |d|) + d;
    DigitsValueZeroPadded(w - |d|, d);
    DigitsValueOfDigits(i);
    DigitsAtoi(f);
  }

  /** A non-empty digit string needs no trimming and parses as its value. */
  lemma DigitsAtoi(f: bytes)
    requires f != [] && AllDigits(f)
    ensures DecodeInt(f) == Ok(DigitsValue(f))
  {
    assert IsDigit(f[0]) && IsDigit(f[|f| - 1]);
    assert NoEdgeSpace(f);
    assert CleanStr(f) == f;
    assert f[0] != PLUS && f[0] != MINUS;
  }

  /**
   * An integer wider than its field keeps its leading digits: the field
   * reads back as the value with its trailing digits dropped.
   */
  lemma IntFieldTruncates(i: nat, w: nat)
    requires 1 <= w && i >= Pow10(w)
    ensures |Digits(i)| > w
    ensures IntField(i, w) == Digits(i)[..w]
    ensures DecodeInt(IntField(i, w)) == Ok(i / Pow10(|Digits(i)| - w))
  {
    DigitsWidth(i, w);
    DropDigitsDiv(i, |Digits(i)| - w);
    var m := DropDigits(i, |Digits(i)| - w);
    DigitsPrefix(i, w);
    DigitsValueOfDigits(m);
    var f := IntField(i, w);
    assert f == Digits(m);
    assert !IsSpace(f[0]) && !IsSpace(f[|f| - 1]);
  }

  lemma {:induction false} DigitsPrefix(n: nat, k: nat)
    requires 1 <= k <= |Digits(n)|
    ensures Digits(n)[..k] == Digits(DropDigits(n, |Digits(n)| - k))
  {
    if k < |Digits(n)| {
      var d, m := Digits(n), n / 10;
      assert d == Digits(m) + [ZERO + n % 10];
      assert d[..k] == Digits(m)[..k];
      DigitsPrefix(m, k);
    }
  }

  /** n without its last j decimal digits. */
  function DropDigits(n: nat, j: nat): nat {
    if j == 0 then n else DropDigits(n / 10, j - 1)
  }

  lemma {:induction false} DropDigitsDiv(n: nat, j: nat)
    ensures DropDigits(n, j) == n / Pow10(j)
  {
    if j > 0 {
      DropDigitsDiv(n / 10, j - 1);
      DivDiv(n, Pow10(j - 1));
    }
  }

  lemma DivDiv(n: nat, p: nat)
    requires p >= 1
    ensures n / 10 / p == n / (10 * p)
  {
    var q, r := n / 10, n % 10;
    var s, t := q / p, q % p;
    assert n == 10 * q + r;
    assert q == p * s + t;
    assert n == (10 * p) * s + (10 * t + r);
    assert 0 <= 10 * t + r < 10 * p;
    DivUnique(n, 10 * p, s, 10 * t + r);
  }

  lemma DivUnique(n: int, d: int, q: int, r: int)
    requires d > 0 && n == d * q + r && 0 <= r < d
    ensures n / d == q
  {
    var q0, r0 := n / d, n % d;
    assert d * q0 + r0 == d * q + r;
    assert d * (q0 - q) == r - r0;
    if q0 > q {
      MulAtLeast(d, q0 - q);
    } else if q0 < q {
      MulAtLeast(d, q - q0);
    }
  }

  lemma MulAtLeast(d: int, k: int)
    requires d > 0 && k >= 1
    ensures d * k >= d
  {
  }

  /**
   * A negative value that is zero-padded puts zeros before its '-' sign:
   * WriteInt(-5, 4) emits "00-5".
   */
  lemma NegativeIntFieldShape(i: int, w: nat)
    requires i < 0 && |Itoa(i)| < w
    ensures IntField(i, w)[..w - |Itoa(i)|] == Repeat(ZERO, w - |Itoa(i)|)
    ensures IntField(i, w)[w - |Itoa(i)|] == MINUS
  {
    var z := Repeat(ZERO, w - |Itoa(i)|);
    assert IntField(i, w) == z + Itoa(i);
    AppendSplit(z, Itoa(i));
  }

  /** Such a field does not read back: it starts with a digit and holds a '-'. */
  lemma NegativeIntFieldUnreadable(i: int, w: nat)
    requires i < 0 && |Itoa(i)| < w
    ensures DecodeInt(IntField(i, w)).Err?
  {
    var f := IntField(i, w);
    var k := w - |Itoa(i)|;
    NegativeIntFieldShape(i, w);
    assert f[|f| - 1] == Itoa(i)[|Itoa(i)| - 1];
    assert NoEdgeSpace(f);
    assert !IsDigit(f[k]);
  }

  /** An all-blank field is the empty string, which Atoi refuses. */
  lemma BlankFieldIsNotAnInteger(n: nat)
    ensures DecodeInt(Repeat(SPACE, n)) == Err(NotAnInteger([]))
  {
  }

  /** A right-padded string field without edge spaces reads back as the string. */
  lemma StrFieldRoundTrip(s: bytes, w: nat)
    requires |s| <= w && NoEdgeSpace(s)
    ensures |StrField(s, w)| == w
    ensures DecodeStr(StrField(s, w)) == s
  {
    assert StrField(s, w) == s + Repeat(SPACE, w - |s|);
    CleanStrOfPadded(s, w - |s|);
  }

  /**
   * WriteStrWindows1250 and ReadStrWindows1250 are inverse: whatever the
   * encoder accepts and fits the field, without edge spaces, reads back.
   */
  lemma StrFieldWindows1250RoundTrip(s: bytes, w: nat)
    requires Windows1250.Encode(s).Some? && |Windows1250.Encode(s).value| <= w && NoEdgeSpace(s)
    ensures DecodeStrWindows1250(StrField(Windows1250.Encode(s).value, w)) == Ok(s)
  {
    var e := Windows1250.Encode(s).value;
    var pad := Repeat(SPACE, w - |e|);
    assert StrField(e, w) == e + pad;
    Windows1250.DecodeAppend(e, pad);
    Windows1250.DecodeOfEncode(s);
    Windows1250.DecodeAscii(pad);
    CleanStrOfPadded(s, w - |e|);
  }

  /** WriteTime emits exactly the six DDMMYY digits. */
  lemma DateFieldDigits(d: CalendarDate)
    ensures DateField(d) == FormatDDMMYY(d) && |DateField(d)| == 6 && AllDigits(DateField(d))
  {
    var f := FormatDDMMYY(d);
    assert StrField(f, 6) == f by {
      assert Repeat(SPACE, 0) == [];
    }
  }

  /** WriteTime emits exactly the six DDMMYY characters, and ReadTime reads them back. */
  lemma DateFieldRoundTrip(d: CalendarDate)
    ensures DateField(d) == FormatDDMMYY(d) && |DateField(d)| == 6
    ensures DecodeDate(DateField(d)) == Ok(d)
  {
    var f := FormatDDMMYY(d);
    ParseOfFormat(d);
    DateFieldDigits(d);
    assert CleanStr(f) == f by {
      assert NoEdgeSpace(f);
    }
  }

  // ---------------------------------------------------------------------
  // The stream a reader consumes

  /**
   * What io.Reader.Read(buf[:n]) yields at `pos`: io.EOF when no byte is
   * left; otherwise the next n bytes. Fewer than n bytes (a short final
   * read) is reported as ShortRead.
   */
  function Window(data: bytes, pos: nat, n: nat): (r: Result<bytes, Error>)
    requires pos <= |data|
    ensures r.Ok? <==> pos < |data| && pos + n <= |data|
    ensures r == Err(EndOfInput) <==> pos == |data|
    ensures r.Ok? ==> r.value == data[pos..pos + n]
  {
    if pos == |data| then Err(EndOfInput)
    else if pos + n > |data| then Err(ShortRead)
    else Ok(data[pos..pos + n])
  }

  /** The cursor after that read: n bytes further, or the end of the input. */
  function Advance(data: bytes, pos: nat, n: nat): (p: nat)
    requires pos <= |data|
    ensures pos <= p <= |data|
    ensures p == pos + n || p == |data|
  {
    if pos + n <= |data| then pos + n else |data|
  }

  /** Applies a field decoder to a successful read and passes an error on. */
  function Decoded<T>(w: Result<bytes, Error>, decode: bytes -> Result<T, Error>): Result<T, Error> {
    match w
    case Err(e) => Err(e)
    case Ok(field) => decode(field)
  }

  /** The ABO reader: the input bytes and how far they have been consumed. */
  class Reader {
    const data: bytes
    var pos: nat

    ghost predicate Valid()
      reads this
    {
      pos <= |data|
    }

    /** newAboReader over an input. */
    constructor (input: bytes)
      ensures Valid() && data == input && pos == 0
    {
      data := input;
      pos := 0;
    }

    /** io.Reader.Read into a buffer of n bytes. */
    method Read(n: nat) returns (r: Result<bytes, Error>)
      requires Valid()
      modifies this
      ensures Valid() && pos == Advance(data, old(pos), n)
      ensures r == Window(data, old(pos), n)
    {
      r := Window(data, pos, n);
      pos := Advance(data, pos, n);
    }

    method ReadStr(n: nat) returns (r: Result<bytes, Error>)
      requires Valid()
      modifies this
      ensures Valid() && pos == Advance(data, old(pos), n)
      ensures r == Decoded(Window(data, old(pos), n), b => Ok(DecodeStr(b)))
    {
      var field :- Read(n);
      return Ok(CleanStr(field));
    }

    method ReadStrWindows1250(n: nat) returns (r: Result<bytes, Error>)
      requires Valid()
      modifies this
      ensures Valid() && pos == Advance(data, old(pos), n)
      ensures r == Decoded(Window(data, old(pos), n), DecodeStrWindows1250)
    {
      var field :- Read(n);
      var text := Windows1250.Decode(field);
      return Ok(CleanStr(text));
    }

    method ReadInt(n: nat) returns (r: Result<int, Error>)
      requires Valid()
      modifies this
      ensures Valid() && pos == Advance(data, old(pos), n)
      ensures r == Decoded(Window(data, old(pos), n), DecodeInt)
    {
      var field :- Read(n);
      return Atoi(CleanStr(field));
    }

    /** The amount in minor units; Go's ReadMonetaryAmount divides them by 100. */
    method ReadMonetaryAmount(n: nat) returns (r: Result<int, Error>)
      requires Valid()
      modifies this
      ensures Valid() && pos == Advance(data, old(pos), n)
      ensures r == Decoded(Window(data, old(pos), n), DecodeInt)
    {
      r := ReadInt(n);
    }

    method ReadTime(n: nat) returns (r: Result<CalendarDate, Error>)
      requires Valid()
      modifies this
      ensures Valid() && pos == Advance(data, old(pos), n)
      ensures r == Decoded(Window(data, old(pos), n), DecodeDate)
    {
      var field :- Read(n);
      return ParseDDMMYY(CleanStr(field));
    }
  }

  /** The ABO writer: everything written so far, in order. */
  class Writer {
    var out: bytes

    /** newWriter over an empty sink. */
    constructor ()
      ensures out == []
    {
      out := [];
    }

    /** io.Writer.Write: appends all of b. */
    method Write(b: bytes)
      modifies this
      ensures out == old(out) + b
    {
      out := out + b;
    }

    method WritePad(inBytes: bytes, byteLen: nat, paddingByte: byte, padLeft: bool)
      modifies this
      ensures out == old(out) + Padded(inBytes, byteLen, paddingByte, padLeft)
    {
      if |inBytes| > byteLen {
        Write(inBytes[..byteLen]);
        return;
      }
      var pad := new byte[byteLen - |inBytes|];
      for i := 0 to pad.Length
        modifies pad
        invariant forall k | 0 <= k < i :: pad[k] == paddingByte
      {
        pad[i] := paddingByte;
      }
      var padding := pad[..];
      assert padding == Repeat(paddingByte, byteLen - |inBytes|);
      if padLeft {
        Write(padding);
        Write(inBytes);
        assert out == old(out) + (padding + inBytes);
      } else {
        Write(inBytes);
        Write(padding);
        assert out == old(out) + (inBytes + padding);
      }
    }

    method WriteStr(str: bytes, byteLen: nat)
      modifies this
      ensures out == old(out) + StrField(str, byteLen)
    {
      WritePad(str, byteLen, SPACE, false);
    }

    /** Fails, writing nothing, when the encoder refuses the string. */
    method WriteStrWindows1250(str: bytes, byteLen: nat) returns (err: Option<Error>)
      modifies this
      ensures Windows1250.Encode(str).None? ==> err == Some(Encoding) && out == old(out)
      ensures Windows1250.Encode(str).Some? ==>
        err == None && out == old(out) + StrField(Windows1250.Encode(str).value, byteLen)
    {
      var enc := Windows1250.Encode(str);
      if enc.None? {
        return Some(Encoding);
      }
      WriteStr(enc.value, byteLen);
      return None;
    }

    method WriteInt(i: int, byteLen: nat)
      modifies this
      ensures out == old(out) + IntField(i, byteLen)
    {
      WritePad(Itoa(i), byteLen, ZERO, true);
    }

    /** The amount in minor units; Go's WriteMonetaryAmount multiplies by 100 and truncates. */
    method WriteMonetaryAmount(amount: int, byteLen: nat)
      modifies this
      ensures out == old(out) + IntField(amount, byteLen)
    {
      WriteInt(amount, byteLen);
    }

    method WriteTime(tm: CalendarDate)
      modifies this
      ensures out == old(out) + DateField(tm)
    {
      WriteStr(FormatDDMMYY(tm), 6);
    }

    method WriteLineEnd()
      modifies this
      ensures out == old(out) + [LF]
    {
      Write([LF]);
    }
  }
}
