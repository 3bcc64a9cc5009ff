/** Font resolution of the render service: a CSS font-family string from the
    editor is mapped to one of the four registered PDF fonts by an ordered
    substring rule, and a CSS font weight picks between the two sans weights. */
module Fonts {
  import opened JsValues

  const AlexBrush := "AlexBrush"
  const PoppinsRegular := "PoppinsRegular"
  const PoppinsMedium := "PoppinsMedium"
  const TimesNew := "TimesNew"

  /** `mapCssToFont(cssFamily, defaultFont)`: an absent or empty family keeps
      the default; otherwise the lower-cased family is searched for "alex",
      then "poppins", then "times", then "georgia". */
  function MapCssToFont(cssFamily: JsString, defaultFont: string): (r: string)
    ensures !Truthy(cssFamily) ==> r == defaultFont
    ensures r == defaultFont || r == AlexBrush || r == PoppinsRegular || r == TimesNew
    ensures defaultFont != "" ==> r != ""
  {
    if !Truthy(cssFamily) then defaultFont
    else
      var f := ToLower(cssFamily.value);
      if Includes(f, "alex") then AlexBrush
      else if Includes(f, "poppins") then
        (if defaultFont != "" && StartsWith(defaultFont, "Poppins") then defaultFont else PoppinsRegular)
      else if Includes(f, "times") then TimesNew
      else if Includes(f, "georgia") then TimesNew
      else defaultFont
  }

  /** `pickPoppinsByWeight(weight)`: an absent or empty weight reads as
      "400"; a parsed weight of 500 or more is the medium weight, anything
      else (including NaN) the regular one. */
  function PickPoppinsByWeight(weight: JsString): (r: string)
    ensures r == PoppinsRegular || r == PoppinsMedium
  {
    var w := ParseInt(StringOr(weight, "400"));
    if w.Some? && w.value >= 500 then PoppinsMedium else PoppinsRegular
  }

  // ----- the rule table, as an independent reference -----

  /** What a matching rule yields: a fixed font, or the Poppins rule that
      keeps a Poppins default and otherwise gives the regular weight. */
  datatype FontChoice = Fixed(font: string) | PoppinsFamily

  datatype FontRule = FontRule(needles: seq<string>, choice: FontChoice)

  /** The rules in priority order, first match wins. */
  const FontRules: seq<FontRule> := [
    FontRule(["alex"], Fixed(AlexBrush)),
    FontRule(["poppins"], PoppinsFamily),
    FontRule(["times", "georgia"], Fixed(TimesNew))
  ]

  predicate MatchesAny(f: string, needles: seq<string>) {
    exists k :: 0 <= k < |needles| && Includes(f, needles[k])
  }

  function Choose(c: FontChoice, defaultFont: string): string {
    match c
    case Fixed(font) => font
    case PoppinsFamily => if StartsWith(defaultFont, "Poppins") then defaultFont else PoppinsRegular
  }

  /** Evaluates the rules top to bottom; no match keeps the default. */
  function FirstRule(rules: seq<FontRule>, f: string, defaultFont: string): string {
    if rules == [] then defaultFont
    else if MatchesAny(f, rules[0].needles) then Choose(rules[0].choice, defaultFont)
    else FirstRule(rules[1..], f, defaultFont)
  }

  /** The resolver is the rule table evaluated on the lower-cased family.
      (The `defaultFont &&` guard of the Poppins rule is redundant: an empty
      default does not start with "Poppins".) */
  lemma MapCssToFontFollowsTable(cssFamily: JsString, defaultFont: string)
    ensures MapCssToFont(cssFamily, defaultFont)
         == if Truthy(cssFamily) then FirstRule(FontRules, ToLower(cssFamily.value), defaultFont) else defaultFont
  {
    if Truthy(cssFamily) {
      var f := ToLower(cssFamily.value);
      MatchesOne(f, "alex");
      MatchesOne(f, "poppins");
      MatchesTwo(f, "times", "georgia");
      var rest1, rest2 := FontRules[1..], FontRules[2..];
      assert rest1[1..] == rest2 && rest2[1..] == [];
      assert FirstRule(rest2, f, defaultFont)
          == if Includes(f, "times") || Includes(f, "georgia") then TimesNew else defaultFont;
      assert FirstRule(rest1, f, defaultFont)
          == if Includes(f, "poppins") then Choose(PoppinsFamily, defaultFont) else FirstRule(rest2, f, defaultFont);
    }
  }

  lemma MatchesOne(f: string, a: string)
    ensures MatchesAny(f, [a]) <==> Includes(f, a)
  {
    if Includes(f, a) {
      assert Includes(f, [a][0]);
    }
  }

  lemma MatchesTwo(f: string, a: string, b: string)
    ensures MatchesAny(f, [a, b]) <==> Includes(f, a) || Includes(f, b)
  {
    if Includes(f, a) {
      assert Includes(f, [a, b][0]);
    }
    if Includes(f, b) {
      assert Includes(f, [a, b][1]);
    }
  }

  // ----- the rules one by one, case-insensitively -----

  /** `needle` occurs in `family` up to ASCII case. */
  ghost predicate ContainsIgnoringCase(family: string, needle: string) {
    exists i :: OccursAt(ToLower(family), needle, i)
  }

  lemma IncludesLowered(family: string, needle: string)
    ensures Includes(ToLower(family), needle) <==> ContainsIgnoringCase(family, needle)
  {
    IncludesIff(ToLower(family), needle);
  }

  /** A family spelling "alex" in any case at position i resolves to the
      script font, whatever else it contains. */
  lemma AlexInAnyCase(family: string, defaultFont: string, i: int)
    requires 0 <= i && i + 4 <= |family| && ToLower(family[i..i + 4]) == "alex"
    ensures MapCssToFont(Some(family), defaultFont) == AlexBrush
  {
    ToLowerSlice(family, i, i + 4);
    assert OccursAt(ToLower(family), "alex", i);
    IncludesLowered(family, "alex");
  }

  /** "poppins" without "alex": a Poppins default is kept (so the title's
      weight choice survives), any other default becomes the regular weight. */
  lemma PoppinsRule(family: string, defaultFont: string)
    requires ContainsIgnoringCase(family, "poppins") && !ContainsIgnoringCase(family, "alex")
    ensures MapCssToFont(Some(family), defaultFont)
         == if StartsWith(defaultFont, "Poppins") then defaultFont else PoppinsRegular
  {
    IncludesLowered(family, "poppins");
    IncludesLowered(family, "alex");
  }

  /** "times" or "georgia" without "alex" and "poppins" gives the serif font. */
  lemma SerifRule(family: string, defaultFont: string)
    requires ContainsIgnoringCase(family, "times") || ContainsIgnoringCase(family, "georgia")
    requires !ContainsIgnoringCase(family, "alex") && !ContainsIgnoringCase(family, "poppins")
    ensures MapCssToFont(Some(family), defaultFont) == TimesNew
  {
    IncludesLowered(family, "alex");
    IncludesLowered(family, "poppins");
    IncludesLowered(family, "times");
    IncludesLowered(family, "georgia");
  }

  /** A non-empty family matching none of the needles keeps the default. */
  lemma NoRuleKeepsDefault(family: string, defaultFont: string)
    requires family != []
    requires !ContainsIgnoringCase(family, "alex") && !ContainsIgnoringCase(family, "poppins")
    requires !ContainsIgnoringCase(family, "times") && !ContainsIgnoringCase(family, "georgia")
    ensures MapCssToFont(Some(family), defaultFont) == defaultFont
  {
    IncludesLowered(family, "alex");
    IncludesLowered(family, "poppins");
    IncludesLowered(family, "times");
    IncludesLowered(family, "georgia");
  }

  /** Two families that agree up to ASCII case resolve alike. */
  lemma CaseInsensitive(f: string, g: string, defaultFont: string)
    requires ToLower(f) == ToLower(g)
    ensures MapCssToFont(Some(f), defaultFont) == MapCssToFont(Some(g), defaultFont)
  {
    assert |f| == |ToLower(f)| == |g|;
  }

  /** A Poppins family keeps either Poppins weight as the default. */
  lemma PoppinsDefaultKept(family: string, d: string)
    requires ContainsIgnoringCase(family, "poppins") && !ContainsIgnoringCase(family, "alex")
    requires d == PoppinsRegular || d == PoppinsMedium
    ensures MapCssToFont(Some(family), d) == d
  {
    assert StartsWith(d, "Poppins");
    PoppinsRule(family, d);
  }

  /** A Poppins family for the title keeps the weight-selected font. */
  lemma TitlePoppinsKeepsWeight(family: string, weight: JsString)
    requires ContainsIgnoringCase(family, "poppins") && !ContainsIgnoringCase(family, "alex")
    ensures MapCssToFont(Some(family), PickPoppinsByWeight(weight)) == PickPoppinsByWeight(weight)
  {
    PoppinsDefaultKept(family, PickPoppinsByWeight(weight));
  }

  // ----- weights -----

  /** A weight written as the decimal text of n, followed by anything that
      is not a digit, is the medium weight exactly when n >= 500. */
  lemma WeightThreshold(n: nat, rest: string)
    requires rest == [] || !IsDigit(rest[0])
    ensures PickPoppinsByWeight(Some(Decimal(n) + rest)) == if n >= 500 then PoppinsMedium else PoppinsRegular
  {
    ParseIntDecimal(n, rest);
  }

  /** A weight written as three digits `abc` reads as that number. */
  lemma ThreeDigitWeight(w: string)
    requires |w| == 3 && AllDigits(w)
    ensures PickPoppinsByWeight(Some(w))
         == if DigitsValue(w) >= 500 then PoppinsMedium else PoppinsRegular
  {
    assert w + "" == w;
    ParseIntRun(w, "");
  }

  lemma Weight499()
    ensures PickPoppinsByWeight(Some("499")) == PoppinsRegular
  {
    assert DigitsValue("499") == 499 by {
      assert "499"[..2] == "49" && "49"[..1] == "4" && "4"[..0] == [];
    }
    ThreeDigitWeight("499");
  }

  lemma Weight500()
    ensures PickPoppinsByWeight(Some("500")) == PoppinsMedium
  {
    assert DigitsValue("500") == 500 by {
      assert "500"[..2] == "50" && "50"[..1] == "5" && "5"[..0] == [];
    }
    ThreeDigitWeight("500");
  }

  /** The boundary: "499" is regular, "500" is medium. */
  lemma WeightBoundary()
    ensures PickPoppinsByWeight(Some("499")) == PoppinsRegular
    ensures PickPoppinsByWeight(Some("500")) == PoppinsMedium
  {
    Weight499();
    Weight500();
  }

  /** A weight with a minus sign in front is never the medium weight. */
  lemma NegativeWeightIsRegular(u: string)
    ensures PickPoppinsByWeight(Some("-" + u)) == PoppinsRegular
  {
    ParseIntAfterMinus(u);
  }

  lemma Weight400()
    ensures PickPoppinsByWeight(Some("400")) == PoppinsRegular
  {
    assert DigitsValue("400") == 400 by {
      assert "400"[..2] == "40" && "40"[..1] == "4" && "4"[..0] == [];
    }
    ThreeDigitWeight("400");
  }

  /** A missing or empty weight reads as 400: the regular weight. */
  lemma MissingWeightIsRegular()
    ensures PickPoppinsByWeight(None) == PoppinsRegular
    ensures PickPoppinsByWeight(Some("")) == PoppinsRegular
  {
    Weight400();
    assert StringOr(None, "400") == "400" && StringOr(Some(""), "400") == "400";
  }

  /** A weight `parseInt` reads as NaN gives the regular weight. */
  lemma UnparsedWeightIsRegular(s: string)
    requires ParseInt(s) == None
    ensures PickPoppinsByWeight(Some(s)) == PoppinsRegular
  {
    if s == "" {
      MissingWeightIsRegular();
    }
  }
}
