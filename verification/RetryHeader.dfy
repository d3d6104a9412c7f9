/** The retry counter that travels in a message's headers.  Go's `int` is 64 bits wide here. */
module RetryHeader {
  import opened Wrappers

  const RETRY_COUNT_KEY := "x-cleanapp-retry-count"

  const TWO_32: int := 0x1_0000_0000
  const MAX_INT32: int := 0x7fff_ffff
  const MAX_INT: int := 0x7fff_ffff_ffff_ffff

  type int32 = n: int | -MAX_INT32 - 1 <= n <= MAX_INT32
  type int64 = n: int | -MAX_INT - 1 <= n <= MAX_INT
  type uint32 = n: int | 0 <= n < TWO_32
  type uint64 = n: int | 0 <= n <= 2 * MAX_INT + 1

  /** A value of an AMQP table, by its dynamic Go type. */
  datatype HeaderValue =
    | Nil
    | GoInt(n: int64)
    | Int32(i32: int32)
    | Int64(i64: int64)
    | Uint32(u32: uint32)
    | Uint64(u64: uint64)
    | Str(text: string)
    | Other(bytes: seq<nat>)

  type Table = map<string, HeaderValue>

  predicate IsDigit(c: char) { '0' <= c <= '9' }

  predicate AllDigits(s: string) { forall i | 0 <= i < |s| :: IsDigit(s[i]) }

  function Decimal(s: string): nat
    requires AllDigits(s)
  {
    if s == [] then 0 else assert IsDigit(s[|s| - 1]); Decimal(s[..|s| - 1]) * 10 + (s[|s| - 1] as int - '0' as int)
  }

  /** `strconv.Atoi`: an optional sign, then at least one digit, then a range check. */
  function Atoi(s: string): Option<int64> {
    var digits := if s != [] && (s[0] == '-' || s[0] == '+') then s[1..] else s;
    if digits == [] || !AllDigits(digits) then None
    else
      var n: int := (if s[0] == '-' then -1 else 1) * Decimal(digits);
      if -MAX_INT - 1 <= n <= MAX_INT then Some(n) else None
  }

  function AtLeastZero(n: int): nat { if n < 0 then 0 else n }

  function Saturated(n: int): nat { if n > MAX_INT then MAX_INT else AtLeastZero(n) }

  function RetryCount(headers: Table): (count: nat)
    ensures count <= MAX_INT
  {
    if RETRY_COUNT_KEY !in headers then 0
    else
      match headers[RETRY_COUNT_KEY]
      case Nil => 0
      case GoInt(n) => AtLeastZero(n)
      case Int32(n) => AtLeastZero(n)
      case Int64(n) => Saturated(n)
      case Uint32(n) => Saturated(n)
      case Uint64(n) => Saturated(n)
      case Str(text) =>
        (match Atoi(text)
         case Some(n) => AtLeastZero(n)
         case None => 0)
      case Other(_) => 0
  }

  /** Go's conversion `int32(n)`: keep the low 32 bits, read them as two's complement. */
  function ToInt32(n: int): int32 {
    var low := n % TWO_32;
    if low > MAX_INT32 then low - TWO_32 else low
  }

  /** The headers of the copy that is published to the retry exchange. */
  function Stamped(headers: Table, next: int): Table {
    headers[RETRY_COUNT_KEY := Int32(ToInt32(AtLeastZero(next)))]
  }

  /** Copies the table entry by entry, in whatever order the map is ranged over. */
  method WithRetryCountHeader(headers: Table, next: int) returns (out: Table)
    ensures out == Stamped(headers, next)
  {
    out := map[];
    var rest := headers.Keys;
    while rest != {}
      invariant rest <= headers.Keys
      invariant out.Keys == headers.Keys - rest
      invariant forall k | k in out :: out[k] == headers[k]
    {
      var k :| k in rest;
      out := out[k := headers[k]];
      rest := rest - {k};
    }
    assert out == headers;
    out := out[RETRY_COUNT_KEY := Int32(ToInt32(if next < 0 then 0 else next))];
  }

  /** Writing a count and reading it back is exact on 0..2^31-1 and on no other integer. */
  lemma ReadBack(headers: Table, n: int)
    ensures RetryCount(Stamped(headers, n)) == n <==> 0 <= n <= MAX_INT32
    ensures forall k | k in headers && k != RETRY_COUNT_KEY :: Stamped(headers, n)[k] == headers[k]
  {
    var low := AtLeastZero(n) % TWO_32;
    if 0 <= n <= MAX_INT32 {
      assert low == n;
    }
  }

  /** A retry raises the count by one exactly while the new count still fits in 31 bits; the retry after
      that starts again from zero. */
  lemma CountRises(headers: Table)
    ensures var n := RetryCount(headers);
            var m := RetryCount(Stamped(headers, n + 1));
            && (n < MAX_INT32 ==> m == n + 1)
            && (n == MAX_INT32 ==> m == 0)
            && (m > n <==> n < MAX_INT32)
  {
    var n := RetryCount(headers);
    ReadBack(headers, n + 1);
    if n > MAX_INT32 {
      assert RetryCount(Stamped(headers, n + 1)) <= MAX_INT32;
    }
  }

  // ---------------------------------------------------------------- counts of other types

  /** The integer that a header value stands for, if it is one. */
  function IntegerOf(value: HeaderValue): Option<int> {
    match value
    case GoInt(n) => Some(n)
    case Int32(n) => Some(n)
    case Int64(n) => Some(n)
    case Uint32(n) => Some(n)
    case Uint64(n) => Some(n)
    case Nil => None
    case Str(_) => None
    case Other(_) => None
  }

  /** Whatever its type, an integer header reads as the integer itself exactly if that is one of 0 to 2^63-1; a negative
      one reads as 0 and a larger one as 2^63-1. A header that is missing or no number reads as 0. */
  lemma IntegersRead(headers: Table)
    ensures var count := RetryCount(headers);
            var n := if RETRY_COUNT_KEY in headers then IntegerOf(headers[RETRY_COUNT_KEY]) else None;
            && (n.Some? ==> (count == n.value <==> 0 <= n.value <= MAX_INT))
            && (n.Some? && n.value < 0 ==> count == 0) && (n.Some? && n.value > MAX_INT ==> count == MAX_INT)
            && (n.None? && !(RETRY_COUNT_KEY in headers && headers[RETRY_COUNT_KEY].Str?) ==> count == 0)
  {
  }

  /** The digits of a number, without leading zeros. */
  function Digits(n: nat): (s: string)
    ensures s != "" && AllDigits(s)
  {
    (if n < 10 then "" else Digits(n / 10)) + [('0' as int + n % 10) as char]
  }

  lemma {:induction false} DecimalReadsDigits(n: nat)
    ensures Decimal(Digits(n)) == n
  {
    var s := Digits(n);
    var last := |s| - 1;
    assert s[last] as int - '0' as int == n % 10;
    if n < 10 {
      assert s[..last] == "" && Decimal(s[..last]) == 0;
    } else {
      assert s[..last] == Digits(n / 10);
      DecimalReadsDigits(n / 10);
    }
  }

  lemma AtoiReads(digits: string, n: nat, sign: string)
    requires digits != "" && AllDigits(digits) && Decimal(digits) == n
    requires sign == "" || sign == "+" || sign == "-"
    ensures var value: int := (if sign == "-" then -1 else 1) * n;
            Atoi(sign + digits) == if -MAX_INT - 1 <= value <= MAX_INT then Some(value) else None
  {
    var text := sign + digits;
    assert IsDigit(digits[0]);
    assert sign == "" ==> text == digits;
    assert sign != "" ==> text[0] == sign[0] && text[1..] == digits;
  }

  /** A number written out, with or without a sign, is read back as that number, or as 0 if it is negative or too
      large. */
  lemma DecimalTextReads(headers: Table, n: nat, sign: string)
    requires sign == "" || sign == "+" || sign == "-"
    requires RETRY_COUNT_KEY in headers && headers[RETRY_COUNT_KEY] == Str(sign + Digits(n))
    ensures RetryCount(headers) == if sign == "-" || n > MAX_INT then 0 else n
  {
    DecimalReadsDigits(n);
    AtoiReads(Digits(n), n, sign);
  }

  /** Text with any other character in it reads as 0. */
  lemma OtherTextReads(headers: Table, text: string, i: nat)
    requires RETRY_COUNT_KEY in headers && headers[RETRY_COUNT_KEY] == Str(text)
    requires i < |text| && !IsDigit(text[i]) && (i == 0 ==> text[0] != '-' && text[0] != '+')
    ensures RetryCount(headers) == 0
  {
    var digits := if text[0] == '-' || text[0] == '+' then text[1..] else text;
    var j := if text[0] == '-' || text[0] == '+' then i - 1 else i;
    assert !IsDigit(digits[j]);
    assert !AllDigits(digits);
  }
}
