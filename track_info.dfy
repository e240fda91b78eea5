/**
 * The text UpdateTrackInfo shows: the clip's position in the list, written as
 * C# writes an int (an optional '-' and decimal digits), then ". " and the
 * clip's name. Parsing it back recovers both parts, so the shape is unambiguous.
 */
module TrackInfo {
  import opened Wrappers

  predicate IsDigit(c: char) {
    '0' <= c <= '9'
  }

  predicate AllDigits(s: string) {
    forall i :: 0 <= i < |s| ==> IsDigit(s[i])
  }

  /** The decimal digits of `n`, most significant first, without leading zeros. */
  function NatToDecimal(n: nat): (s: string)
    ensures |s| > 0 && AllDigits(s)
    ensures |s| > 1 ==> s[0] != '0'
  {
    if n < 10 then ['0' + n as char]
    else NatToDecimal(n / 10) + ['0' + (n % 10) as char]
  }

  /** `int.ToString()`: a '-' before the digits of a negative number. */
  function IntToDecimal(i: int): (s: string)
    ensures |s| > 0 && (s[0] == '-' <==> i < 0)
    ensures i >= 0 ==> AllDigits(s)
  {
    if i < 0 then "-" + NatToDecimal(-i) else NatToDecimal(i)
  }

  /** The number a string of decimal digits stands for. */
  function DecimalValue(s: string): nat
    requires AllDigits(s)
  {
    if |s| == 0 then 0
    else DecimalValue(s[..|s| - 1]) * 10 + (s[|s| - 1] - '0') as nat
  }

  lemma {:induction false} DecimalRoundTrip(n: nat)
    ensures DecimalValue(NatToDecimal(n)) == n
  {
    if n >= 10 {
      var s := NatToDecimal(n);
      assert s[..|s| - 1] == NatToDecimal(n / 10);
      DecimalRoundTrip(n / 10);
    }
  }

  /** The trackInfo text for the clip at `index` named `name`. */
  function TrackInfoText(index: int, name: string): (s: string)
    ensures |s| > |name| + 2 && s[|s| - |name| - 2..] == ". " + name
    ensures s[0] == '-' <==> index < 0
  {
    IntToDecimal(index) + ". " + name
  }

  /** How many decimal digits `s` starts with. */
  function LeadingDigits(s: string): (k: nat)
    ensures k <= |s| && AllDigits(s[..k])
    ensures k < |s| ==> !IsDigit(s[k])
  {
    if |s| == 0 || !IsDigit(s[0]) then 0
    else
      var k := 1 + LeadingDigits(s[1..]);
      assert s[..k] == [s[0]] + s[1..][..k - 1];
      k
  }

  lemma {:induction false} LeadingDigitsOf(digits: string, rest: string)
    requires AllDigits(digits) && |rest| > 0 && !IsDigit(rest[0])
    ensures LeadingDigits(digits + rest) == |digits|
  {
    if |digits| > 0 {
      assert (digits + rest)[1..] == digits[1..] + rest;
      LeadingDigitsOf(digits[1..], rest);
    } else {
      assert digits + rest == rest;
    }
  }

  /** Reads "<digits>. <name>" back into the number and the name, if it has that shape. */
  function ParseUnsigned(s: string): Option<(nat, string)> {
    var k := LeadingDigits(s);
    if k == 0 || |s| < k + 2 || s[k..k + 2] != ". " then None
    else Some((DecimalValue(s[..k]), s[k + 2..]))
  }

  /** Reads a trackInfo text back into the index and the name, if it has that shape. */
  function ParseTrackInfo(s: string): Option<(int, string)> {
    if |s| > 0 && s[0] == '-' then
      match ParseUnsigned(s[1..])
      case Some((v, name)) => Some((-(v as int), name))
      case None => None
    else
      match ParseUnsigned(s)
      case Some((v, name)) => Some((v as int, name))
      case None => None
  }

  lemma UnsignedRoundTrip(n: nat, name: string)
    ensures ParseUnsigned(NatToDecimal(n) + ". " + name) == Some((n, name))
  {
    var digits := NatToDecimal(n);
    var s := digits + ". " + name;
    assert s == digits + (". " + name);
    LeadingDigitsOf(digits, ". " + name);
    assert s[..|digits|] == digits;
    assert s[|digits|..|digits| + 2] == ". ";
    assert s[|digits| + 2..] == name;
    DecimalRoundTrip(n);
  }

  /** The index and the name are read back from the text UpdateTrackInfo writes. */
  lemma TrackInfoRoundTrip(index: int, name: string)
    ensures ParseTrackInfo(TrackInfoText(index, name)) == Some((index, name))
  {
    if index < 0 {
      var body := NatToDecimal(-index) + ". " + name;
      assert IntToDecimal(index) == "-" + NatToDecimal(-index);
      assert TrackInfoText(index, name) == "-" + body;
      assert ("-" + body)[1..] == body;
      UnsignedRoundTrip(-index, name);
    } else {
      var body := NatToDecimal(index) + ". " + name;
      assert IntToDecimal(index) == NatToDecimal(index);
      assert TrackInfoText(index, name) == body;
      assert body[0] == NatToDecimal(index)[0] != '-';
      UnsignedRoundTrip(index, name);
    }
  }
}
