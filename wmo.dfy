/** The condition-code translator `wmo_code_to_text`: the weather-code table of
    WMO code table 4677 as Open-Meteo reports it, reduced to the seventeen codes
    the program names, with a fallback text that embeds any other code.
 */
module Wmo {
  import opened Outcomes
  import opened Text

  /** The program's `mapping`: the description of a listed code, None for any other. */
  function ConditionTable(code: int): Option<string> {
    match code
    case 0 => Some("Clear sky")
    case 1 => Some("Mainly clear")
    case 2 => Some("Partly cloudy")
    case 3 => Some("Overcast")
    case 45 => Some("Fog")
    case 48 => Some("Depositing rime fog")
    case 51 => Some("Light drizzle")
    case 53 => Some("Moderate drizzle")
    case 55 => Some("Dense drizzle")
    case 61 => Some("Slight rain")
    case 63 => Some("Moderate rain")
    case 65 => Some("Heavy rain")
    case 71 => Some("Slight snow")
    case 73 => Some("Moderate snow")
    case 75 => Some("Heavy snow")
    case 80 => Some("Rain showers")
    case 95 => Some("Thunderstorm")
    case _ => None
  }

  /** The prefix of the text for a code outside the table. */
  const FallbackPrefix: string := "Condition "

  /** `mapping.get(code, f"Condition {code}")`. */
  function WmoCodeToText(code: int): (r: string)
    ensures |r| > 0
  {
    match ConditionTable(code)
    case Some(text) => text
    case None => FallbackPrefix + IntToDecimal(code)
  }

  /** The table holds exactly the seventeen listed codes. */
  lemma TableCodes(code: int)
    ensures ConditionTable(code).Some? <==>
            code in {0, 1, 2, 3, 45, 48, 51, 53, 55, 61, 63, 65, 71, 73, 75, 80, 95}
  {
  }

  /** Each listed code translates to its table entry: the sky and fog codes ... */
  lemma SkyCodeTexts()
    ensures WmoCodeToText(0) == "Clear sky"
    ensures WmoCodeToText(1) == "Mainly clear"
    ensures WmoCodeToText(2) == "Partly cloudy"
    ensures WmoCodeToText(3) == "Overcast"
    ensures WmoCodeToText(45) == "Fog"
    ensures WmoCodeToText(48) == "Depositing rime fog"
  {
  }

  /** ... the drizzle and rain codes ... */
  lemma DrizzleAndRainCodeTexts()
    ensures WmoCodeToText(51) == "Light drizzle"
    ensures WmoCodeToText(53) == "Moderate drizzle"
    ensures WmoCodeToText(55) == "Dense drizzle"
    ensures WmoCodeToText(61) == "Slight rain"
    ensures WmoCodeToText(63) == "Moderate rain"
    ensures WmoCodeToText(65) == "Heavy rain"
  {
  }

  /** ... and the snow, shower and thunderstorm codes. */
  lemma SnowShowerAndStormCodeTexts()
    ensures WmoCodeToText(71) == "Slight snow"
    ensures WmoCodeToText(73) == "Moderate snow"
    ensures WmoCodeToText(75) == "Heavy snow"
    ensures WmoCodeToText(80) == "Rain showers"
    ensures WmoCodeToText(95) == "Thunderstorm"
  {
  }

  /** Any other integer, negative ones included, gives "Condition " and its decimal text. */
  lemma UnknownCodeText(code: int)
    requires code !in {0, 1, 2, 3, 45, 48, 51, 53, 55, 61, 63, 65, 71, 73, 75, 80, 95}
    ensures WmoCodeToText(code) == "Condition " + IntToDecimal(code)
  {
    TableCodes(code);
  }

  /** The example of an undocumented code. */
  lemma Code999Text()
    ensures WmoCodeToText(999) == "Condition 999"
  {
    assert NatToDecimal(9) == "9";
    assert NatToDecimal(99) == "99";
    assert NatToDecimal(999) == "999";
  }

  /** No table entry looks like a fallback text. */
  lemma TableTextsAreNotFallbacks(code: int)
    requires ConditionTable(code).Some?
    ensures var t := ConditionTable(code).value; |t| < 10 || t[..10] != FallbackPrefix
  {
    var t := ConditionTable(code).value;
    assert |t| < 10 || t[0] != FallbackPrefix[0];
  }

  /** The fallback text carries the code itself: reading the digits after the
      prefix gives the code back. */
  lemma FallbackRecoversCode(code: int)
    requires ConditionTable(code).None?
    ensures var r := WmoCodeToText(code);
            |r| > 10 && r[..10] == FallbackPrefix && DecimalValue(r[10..]) == code
  {
    var r := WmoCodeToText(code);
    assert r[10..] == IntToDecimal(code);
    IntToDecimalRoundTrip(code);
  }

  /** No two listed codes share a description: the seventeen texts already differ
      in their length, first character or last character. */
  lemma TableInjective(a: int, b: int)
    requires ConditionTable(a).Some? && ConditionTable(a) == ConditionTable(b)
    ensures a == b
  {
    var ta, tb := ConditionTable(a).value, ConditionTable(b).value;
    assert |ta| == |tb| && ta[0] == tb[0] && ta[|ta| - 1] == tb[|tb| - 1];
  }

  /** Distinct codes never share a description. */
  lemma WmoCodeToTextInjective(a: int, b: int)
    requires WmoCodeToText(a) == WmoCodeToText(b)
    ensures a == b
  {
    if ConditionTable(a).Some? && ConditionTable(b).Some? {
      TableInjective(a, b);
    } else if ConditionTable(a).Some? {
      FallbackRecoversCode(b);
      TableTextsAreNotFallbacks(a);
    } else if ConditionTable(b).Some? {
      FallbackRecoversCode(a);
      TableTextsAreNotFallbacks(b);
    } else {
      FallbackRecoversCode(a);
      FallbackRecoversCode(b);
    }
  }
}
