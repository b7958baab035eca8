/** Go's strconv.ParseInt(s, 10, 64), the parser the finisher applies to the
    chat-id segment of an object key, and the decimal formatting that writes
    such a segment. Integers are unbounded here; the int64 and uint64 limits
    are written out where Go checks them. */
module GoStrconv {
  import opened Wrappers

  const MaxUint64: int := 0xFFFF_FFFF_FFFF_FFFF
  const MaxInt64: int := 0x7FFF_FFFF_FFFF_FFFF
  const MinInt64: int := -0x8000_0000_0000_0000

  /** ParseUint's overflow threshold for base 10: maxUint64/10 + 1. */
  const Cutoff: int := MaxUint64 / 10 + 1

  /** The `Err` field of a *NumError. */
  datatype ErrKind = ErrSyntax | ErrRange

  /** *strconv.NumError: the function name, the input and the kind. */
  datatype NumError = NumError(func: string, num: string, err: ErrKind)

  predicate IsDigit(c: char) { '0' <= c <= '9' }

  function DigitValue(c: char): (d: nat)
    requires IsDigit(c)
    ensures d < 10
  {
    (c as int) - ('0' as int)
  }

  predicate AllDigits(s: string) {
    forall i :: 0 <= i < |s| ==> IsDigit(s[i])
  }

  /** The value of a string of decimal digits (0 for the empty string). */
  function DigitsValue(s: string): nat
    requires AllDigits(s)
  {
    if s == [] then 0 else DigitsValue(s[..|s| - 1]) * 10 + DigitValue(s[|s| - 1])
  }

  /** The digits after an optional leading '+' or '-'. */
  function Unsigned(s: string): string {
    if s != [] && (s[0] == '+' || s[0] == '-') then s[1..] else s
  }

  /** The reference syntax: an optional sign followed by at least one digit. */
  predicate IsDecimal(s: string) {
    Unsigned(s) != [] && AllDigits(Unsigned(s))
  }

  /** The reference meaning of a decimal string. */
  function DecimalValue(s: string): int
    requires IsDecimal(s)
  {
    if s[0] == '-' then -(DigitsValue(Unsigned(s)) as int) else DigitsValue(Unsigned(s))
  }

  /** The digit loop of ParseUint for base 10 and 64 bits, from position `i`
      with `n` accumulated. A non-digit is a syntax error; overflow is a range
      error, reported as soon as it happens (so before any later non-digit).
      Go's two overflow tests, `n >= cutoff` and the wrapped `n1 < n || n1 >
      maxVal`, are the two range branches below. */
  function ScanDigits(s: string, i: nat, n: nat): (r: Result<nat, ErrKind>)
    requires i <= |s| && n <= MaxUint64
    ensures r.Ok? ==> r.value <= MaxUint64
    decreases |s| - i
  {
    if i == |s| then Ok(n)
    else if !IsDigit(s[i]) then Err(ErrSyntax)
    else if n >= Cutoff then Err(ErrRange)
    else if n * 10 + DigitValue(s[i]) > MaxUint64 then Err(ErrRange)
    else ScanDigits(s, i + 1, n * 10 + DigitValue(s[i]))
  }

  /** strconv.ParseUint(s, 10, 64), keeping only the error kind. */
  function ParseUint(s: string): (r: Result<nat, ErrKind>)
    ensures r.Ok? ==> r.value <= MaxUint64
  {
    if s == [] then Err(ErrSyntax) else ScanDigits(s, 0, 0)
  }

  /** strconv.ParseInt(s, 10, 64). */
  function ParseInt(s: string): (r: Result<int, NumError>)
    ensures r.Ok? ==> MinInt64 <= r.value <= MaxInt64
    ensures r.Err? ==> r.error.func == "ParseInt" && r.error.num == s
  {
    if s == [] then Err(NumError("ParseInt", s, ErrSyntax))
    else
      var neg := s[0] == '-';
      match ParseUint(Unsigned(s))
      case Err(ErrSyntax) => Err(NumError("ParseInt", s, ErrSyntax))
      // ParseUint's range error leaves un = maxUint64, which both sign checks reject
      case Err(ErrRange) => Err(NumError("ParseInt", s, ErrRange))
      case Ok(un) =>
        if !neg && un >= -MinInt64 then Err(NumError("ParseInt", s, ErrRange))
        else if neg && un > -MinInt64 then Err(NumError("ParseInt", s, ErrRange))
        else Ok(if neg then -(un as int) else un)
  }

  lemma DigitsValuePrefix(s: string, i: nat)
    requires AllDigits(s) && i < |s|
    ensures AllDigits(s[..i + 1]) && s[..i + 1][..i] == s[..i]
    ensures DigitsValue(s[..i + 1]) == DigitsValue(s[..i]) * 10 + DigitValue(s[i])
  {
  }

  /** Appending digits never makes the value smaller. */
  lemma {:induction false} DigitsValueMonotone(s: string, i: nat)
    requires AllDigits(s) && i <= |s|
    ensures DigitsValue(s[..i]) <= DigitsValue(s)
    decreases |s| - i
  {
    if i < |s| {
      DigitsValuePrefix(s, i);
      DigitsValueMonotone(s, i + 1);
      assert s[..|s|] == s;
    } else {
      assert s[..i] == s;
    }
  }

  /** A successful scan has read only digits and returns their value. */
  lemma {:induction false} ScanDigitsSound(s: string, i: nat, n: nat)
    requires i <= |s| && n <= MaxUint64
    requires AllDigits(s[..i]) && n == DigitsValue(s[..i])
    requires ScanDigits(s, i, n).Ok?
    ensures AllDigits(s) && ScanDigits(s, i, n).value == DigitsValue(s)
    decreases |s| - i
  {
    if i == |s| {
      assert s[..i] == s;
    } else {
      assert s[..i + 1][..i] == s[..i];
      assert AllDigits(s[..i + 1]);
      ScanDigitsSound(s, i + 1, n * 10 + DigitValue(s[i]));
    }
  }

  /** Digits whose value fits in 64 bits scan to that value. */
  lemma {:induction false} ScanDigitsComplete(s: string, i: nat, n: nat)
    requires i <= |s| && AllDigits(s) && DigitsValue(s) <= MaxUint64
    requires n == DigitsValue(s[..i])
    ensures n <= MaxUint64 && ScanDigits(s, i, n) == Ok(DigitsValue(s))
    decreases |s| - i
  {
    DigitsValueMonotone(s, i);
    if i == |s| {
      assert s[..i] == s;
    } else {
      DigitsValuePrefix(s, i);
      DigitsValueMonotone(s, i + 1);
      ScanDigitsComplete(s, i + 1, n * 10 + DigitValue(s[i]));
    }
  }

  /** Digits whose value does not fit in 64 bits give a range error. */
  lemma {:induction false} ScanDigitsOverflow(s: string, i: nat, n: nat)
    requires i <= |s| && AllDigits(s) && DigitsValue(s) > MaxUint64
    requires n == DigitsValue(s[..i]) && n <= MaxUint64
    ensures ScanDigits(s, i, n) == Err(ErrRange)
    decreases |s| - i
  {
    assert s[..|s|] == s;
    if i < |s| {
      DigitsValuePrefix(s, i);
      if n < Cutoff && n * 10 + DigitValue(s[i]) <= MaxUint64 {
        ScanDigitsOverflow(s, i + 1, n * 10 + DigitValue(s[i]));
      }
    }
  }

  /** ParseUint accepts exactly the non-empty digit strings of at most
      MaxUint64, with their value, and a syntax error means a non-digit. */
  lemma ParseUintCorrect(s: string)
    ensures ParseUint(s).Ok? <==> s != [] && AllDigits(s) && DigitsValue(s) <= MaxUint64
    ensures ParseUint(s).Ok? ==> ParseUint(s).value == DigitsValue(s)
    ensures ParseUint(s) == Err(ErrSyntax) ==> !(s != [] && AllDigits(s))
  {
    if s != [] {
      assert s[..0] == [];
      if ParseUint(s).Ok? {
        ScanDigitsSound(s, 0, 0);
      }
      if AllDigits(s) {
        if DigitsValue(s) <= MaxUint64 {
          ScanDigitsComplete(s, 0, 0);
        } else {
          ScanDigitsOverflow(s, 0, 0);
        }
      }
    }
  }

  /** ParseInt succeeds exactly on an optionally signed, non-empty digit string
      whose value is in the int64 range, and then returns that value. A
      syntax error means the input is not such a string; a well-formed input
      out of range is a range error. */
  lemma ParseIntCorrect(s: string)
    ensures ParseInt(s).Ok? <==> IsDecimal(s) && MinInt64 <= DecimalValue(s) <= MaxInt64
    ensures ParseInt(s).Ok? ==> ParseInt(s).value == DecimalValue(s)
    ensures ParseInt(s).Err? && ParseInt(s).error.err == ErrSyntax ==> !IsDecimal(s)
    ensures IsDecimal(s) && !(MinInt64 <= DecimalValue(s) <= MaxInt64) ==>
              ParseInt(s) == Err(NumError("ParseInt", s, ErrRange))
  {
    ParseUintCorrect(Unsigned(s));
  }

  /** The decimal digits of a natural number, most significant first. */
  function NatDigits(n: nat): (r: string)
    ensures r != [] && AllDigits(r)
    decreases n
  {
    var d := ['0', '1', '2', '3', '4', '5', '6', '7', '8', '9'][n % 10];
    if n < 10 then [d] else NatDigits(n / 10) + [d]
  }

  /** strconv.FormatInt(n, 10): how a "<chatId>/..." key is written. The
      writer of such keys is outside the modelled handlers; this is the
      decimal form ParseInt is proved to read back. */
  function FormatInt(n: int): (r: string)
    ensures r != [] && (r[0] == '-' <==> n < 0)
  {
    if n < 0 then "-" + NatDigits(-n) else NatDigits(n)
  }

  lemma {:induction false} NatDigitsValue(n: nat)
    ensures DigitsValue(NatDigits(n)) == n
    decreases n
  {
    var s := NatDigits(n);
    if n >= 10 {
      NatDigitsValue(n / 10);
      assert s[..|s| - 1] == NatDigits(n / 10);
    }
  }

  /** The decimal form of an integer is a sign-optional digit string. */
  lemma FormatIntIsDecimal(n: int)
    ensures Unsigned(FormatInt(n)) == NatDigits(if n < 0 then -n else n)
    ensures IsDecimal(FormatInt(n))
  {
  }

  /** Parsing the decimal form of an int64 gives it back. */
  lemma ParseFormatRoundTrip(n: int)
    requires MinInt64 <= n <= MaxInt64
    ensures ParseInt(FormatInt(n)) == Ok(n)
  {
    FormatIntIsDecimal(n);
    NatDigitsValue(if n < 0 then -n else n);
    ParseIntCorrect(FormatInt(n));
  }

  /** A decimal string contains no '.', '/' or other non-digit after its sign. */
  lemma DecimalHasNoDot(s: string)
    requires IsDecimal(s)
    ensures '.' !in s && '/' !in s
  {
  }
}
