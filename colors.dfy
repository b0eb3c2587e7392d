/** Colours: hue, saturation and a white-point temperature in kelvin. */
module Colors {
  import opened Wrappers
  import opened Decimal

  const DefaultKelvin: int := 3500

  /** Hue and saturation are kept as reals; IEEE double behaviour is not modelled. */
  datatype Color = Color(hue: real, saturation: real, kelvin: int)

  predicate IsWhite(c: Color)
  {
    c.saturation == 0.0
  }

  predicate IsColor(c: Color)
  {
    !IsWhite(c)
  }

  /** `Color.color(hue:saturation:)`: a colour at the default temperature. */
  function ColorOf(hue: real, saturation: real): (c: Color)
    ensures c.hue == hue && c.saturation == saturation && c.kelvin == DefaultKelvin
    ensures IsWhite(c) <==> saturation == 0.0
  {
    Color(hue, saturation, DefaultKelvin)
  }

  /** `Color.white(kelvin:)`: no hue, no saturation. */
  function White(kelvin: int): (c: Color)
    ensures IsWhite(c) && !IsColor(c)
    ensures c.hue == 0.0 && c.kelvin == kelvin
  {
    Color(0.0, 0.0, kelvin)
  }

  /**
   * `toQueryStringValue`. How a Double is printed is not modelled: the
   * non-white branch takes the formatter as a parameter.
   */
  function ToQueryStringValue(c: Color, formatDouble: real -> string): (s: string)
    ensures IsWhite(c) ==> s == "kelvin:" + IntToDecimal(c.kelvin)
    ensures IsColor(c) ==> |s| >= 4 && s[..4] == "hue:"
  {
    if IsWhite(c) then "kelvin:" + IntToDecimal(c.kelvin)
    else "hue:" + formatDouble(c.hue) + " saturation:" + formatDouble(c.saturation)
  }

  /** Reads the temperature back out of a `kelvin:<n>` query value. */
  function KelvinFromQueryString(s: string): Option<int>
  {
    if |s| >= 7 && s[..7] == "kelvin:" then ParseInt(s[7..]) else None
  }

  /** The query value of a white colour carries its temperature; that of a colour never reads as one. */
  lemma QueryStringKelvinRoundTrip(c: Color, formatDouble: real -> string)
    ensures IsWhite(c) ==> KelvinFromQueryString(ToQueryStringValue(c, formatDouble)) == Some(c.kelvin)
    ensures IsColor(c) ==> KelvinFromQueryString(ToQueryStringValue(c, formatDouble)) == None
  {
    var s := ToQueryStringValue(c, formatDouble);
    if IsWhite(c) {
      assert s[7..] == IntToDecimal(c.kelvin);
      IntToDecimalRoundTrip(c.kelvin);
    } else {
      assert s[0] == 'h';
    }
  }

  /** `==`: all three components agree. */
  predicate ColorEq(a: Color, b: Color)
  {
    a.hue == b.hue && a.saturation == b.saturation && a.kelvin == b.kelvin
  }

  lemma ColorEqIsEquality(a: Color, b: Color)
    ensures ColorEq(a, b) <==> a == b
  {
  }
}
