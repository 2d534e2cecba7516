/**
 Shape identifiers of the form `${shape}_${serial}` (src/components/whiteboard.js,
 `drawShape`): the decimal rendering of the serial number, and the inverse that
 reads the serial back from the digits after the last separator.
 */
module ShapeIds {

  predicate IsDigit(c: char) {
    '0' <= c <= '9'
  }

  predicate AllDigits(s: string) {
    forall i :: 0 <= i < |s| ==> IsDigit(s[i])
  }

  function DigitChar(d: nat): (c: char)
    requires d < 10
    ensures IsDigit(c)
  {
    (('0' as int) + d) as char
  }

  function DigitValue(c: char): (d: nat)
    requires IsDigit(c)
    ensures d < 10
  {
    (c as int) - ('0' as int)
  }

  /** Decimal notation of a non-negative integer, as template-literal
      interpolation of an integral number produces it. */
  function NatToString(n: nat): (s: string)
    ensures |s| >= 1 && AllDigits(s)
  {
    if n < 10 then [DigitChar(n)] else NatToString(n / 10) + [DigitChar(n % 10)]
  }

  /** The number a string of decimal digits denotes. */
  function ParseDigits(s: string): (n: nat)
    requires AllDigits(s)
  {
    if s == [] then 0 else ParseDigits(s[..|s| - 1]) * 10 + DigitValue(s[|s| - 1])
  }

  /** The longest run of digits at the end of a string. */
  function TrailingDigits(s: string): (d: string)
    ensures |d| <= |s| && d == s[|s| - |d|..]
    ensures AllDigits(d)
  {
    if s == [] || !IsDigit(s[|s| - 1]) then []
    else TrailingDigits(s[..|s| - 1]) + [s[|s| - 1]]
  }

  /** `${shape}_${serial}`. */
  function ShapeId(kind: string, serial: nat): string {
    kind + "_" + NatToString(serial)
  }

  /** The serial number at the end of a shape identifier. */
  function IdSerial(id: string): nat {
    ParseDigits(TrailingDigits(id))
  }

  /** Reading back the decimal notation gives the number. */
  lemma {:induction false} ParseNatToString(n: nat)
    ensures ParseDigits(NatToString(n)) == n
  {
    if n >= 10 {
      var s := NatToString(n);
      assert s[..|s| - 1] == NatToString(n / 10);
      ParseNatToString(n / 10);
    }
  }

  /** Behind a non-digit, the trailing digit run is exactly the digits appended. */
  lemma {:induction false} TrailingDigitsAfterSeparator(prefix: string, sep: char, d: string)
    requires !IsDigit(sep) && AllDigits(d)
    ensures TrailingDigits(prefix + [sep] + d) == d
  {
    var s := prefix + [sep] + d;
    if d != [] {
      assert s[..|s| - 1] == prefix + [sep] + d[..|d| - 1];
      TrailingDigitsAfterSeparator(prefix, sep, d[..|d| - 1]);
    } else {
      assert s[|s| - 1] == sep;
    }
  }

  /** The identifier of a shape records its serial number, whatever the kind's
      name contains, and begins with the kind's name. */
  lemma IdSerialOfShapeId(kind: string, serial: nat)
    ensures IdSerial(ShapeId(kind, serial)) == serial
    ensures ShapeId(kind, serial)[..|kind|] == kind
  {
    assert ShapeId(kind, serial) == kind + ['_'] + NatToString(serial);
    TrailingDigitsAfterSeparator(kind, '_', NatToString(serial));
    ParseNatToString(serial);
  }

  /** Shapes with different serial numbers never share an identifier. */
  lemma ShapeIdInjective(kind1: string, serial1: nat, kind2: string, serial2: nat)
    requires serial1 != serial2
    ensures ShapeId(kind1, serial1) != ShapeId(kind2, serial2)
  {
    IdSerialOfShapeId(kind1, serial1);
    IdSerialOfShapeId(kind2, serial2);
  }
}
