/** The camera's observation records: a polar coordinate and the Marker
    tuple, both immutable, and the text `str(marker)` produces. */
module Vision {
  import opened Base

  /** Distance and bearing of a marker relative to the observing robot. */
  datatype PolarCoord = PolarCoord(distanceMeters: real, rotYRad: real, rotYDeg: real)

  /** The seven fields of a Marker, in tuple order. The two classifiers are
      closures in the source that test the id against the wall and token
      id ranges; here they hold the value those closures return. */
  datatype Marker = Marker(
    id: int,
    size: real,
    polar: PolarCoord,
    pixelCentre: string,
    cartesian: string,
    isWallMarker: bool,
    isTokenMarker: bool)

  function DigitChar(d: nat): char
    requires d < 10
  {
    "0123456789"[d]
  }

  predicate IsDigit(c: char) { '0' <= c <= '9' }

  function DigitValue(c: char): nat
    requires IsDigit(c)
  {
    (c as int - '0' as int) as nat
  }

  /** Decimal digits of n, as Python's str(n) writes them. */
  function NatText(n: nat): (s: string)
    ensures |s| > 0 && forall i :: 0 <= i < |s| ==> IsDigit(s[i])
  {
    if n < 10 then [DigitChar(n)] else NatText(n / 10) + [DigitChar(n % 10)]
  }

  function IntText(n: int): string {
    if n < 0 then "-" + NatText(-n) else NatText(n)
  }

  function ParseNat(s: string): nat
    requires forall i :: 0 <= i < |s| ==> IsDigit(s[i])
  {
    if s == [] then 0 else ParseNat(s[..|s| - 1]) * 10 + DigitValue(s[|s| - 1])
  }

  function ParseInt(s: string): int
    requires forall i :: 0 <= i < |s| ==> IsDigit(s[i]) || (i == 0 && s[i] == '-')
  {
    if |s| > 0 && s[0] == '-' then 0 - ParseNat(s[1..]) else ParseNat(s)
  }

  lemma {:induction false} ParseNatText(n: nat)
    ensures ParseNat(NatText(n)) == n
  {
    if n >= 10 {
      var s := NatText(n);
      assert s[..|s| - 1] == NatText(n / 10);
      ParseNatText(n / 10);
    }
  }

  /** `str(marker)`: "Marker {id}, pos: ({distance},{bearing})"; how a
      float is written is the parameter showReal. */
  function MarkerText(m: Marker, showReal: real -> string): string {
    "Marker " + IntText(m.id) + ", pos: (" + showReal(m.polar.distanceMeters) + ","
      + showReal(m.polar.rotYRad) + ")"
  }

  /** The characters of s before its first comma. */
  function UpToComma(s: string): string {
    if s == [] || s[0] == ',' then [] else [s[0]] + UpToComma(s[1..])
  }

  lemma {:induction false} UpToCommaPrefix(a: string, b: string)
    requires forall i :: 0 <= i < |a| ==> a[i] != ','
    requires |b| > 0 && b[0] == ','
    ensures UpToComma(a + b) == a
  {
    if a != [] {
      assert (a + b)[1..] == a[1..] + b;
      UpToCommaPrefix(a[1..], b);
    } else {
      assert a + b == b;
    }
  }

  /** Reads the id back out of a marker's text, when it is well formed. */
  function ParseMarkerId(text: string): Option<int> {
    if |text| < 7 || text[..7] != "Marker " then None
    else
      var idText := UpToComma(text[7..]);
      if forall i :: 0 <= i < |idText| ==> IsDigit(idText[i]) || (i == 0 && idText[i] == '-')
      then Some(ParseInt(idText))
      else None
  }

  /** An integer's text has no comma, is well formed, and reads back as
      the integer. */
  lemma IntTextParses(n: int)
    ensures var t := IntText(n);
      (forall i :: 0 <= i < |t| ==> t[i] != ',')
      && (forall i :: 0 <= i < |t| ==> IsDigit(t[i]) || (i == 0 && t[i] == '-'))
      && ParseInt(t) == n
  {
    if n < 0 {
      var u := NatText(-n);
      var t := "-" + u;
      assert t[1..] == u;
      assert forall i :: 1 <= i < |t| ==> t[i] == u[i - 1];
      ParseNatText(-n);
      assert ParseInt(t) == 0 - ParseNat(u);
    } else {
      var t := NatText(n);
      assert IsDigit(t[0]);
      ParseNatText(n);
    }
  }

  /** The text of a marker names its id: reading it back gives the id. */
  lemma MarkerTextNamesId(m: Marker, showReal: real -> string)
    ensures ParseMarkerId(MarkerText(m, showReal)) == Some(m.id)
  {
    var t := IntText(m.id);
    var rest := ", pos: (" + showReal(m.polar.distanceMeters) + ","
      + showReal(m.polar.rotYRad) + ")";
    var text := MarkerText(m, showReal);
    assert text == "Marker " + (t + rest);
    assert text[7..] == t + rest;
    assert text[..7] == "Marker ";
    IntTextParses(m.id);
    UpToCommaPrefix(t, rest);
  }
}
