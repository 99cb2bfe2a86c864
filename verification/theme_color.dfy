/** The edge function's colour for a theme name (`generateColorForTheme`) and
    the string hash behind its fallback hue (`hashString`). */
module ThemeColor {
  import opened Wrappers
  import opened JsText
  import opened Palette

  const TwoTo32: int := 0x1_0000_0000
  const TwoTo31: int := 0x8000_0000

  predicate IsInt32(x: int) {
    -TwoTo31 <= x < TwoTo31
  }

  /** ECMAScript ToInt32 on an integral number: the unique signed 32-bit value
      congruent to `x` modulo 2^32. */
  function ToInt32(x: int): (r: int)
    ensures IsInt32(r)
    ensures (r - x) % TwoTo32 == 0
  {
    var m := x % TwoTo32;
    if m >= TwoTo31 then m - TwoTo32 else m
  }

  /** Numbers congruent modulo 2^32 convert to the same 32-bit value. */
  lemma ToInt32Congruent(a: int, b: int)
    requires (a - b) % TwoTo32 == 0
    ensures ToInt32(a) == ToInt32(b)
  {
    var q := (a - b) / TwoTo32;
    assert a == b + q * TwoTo32;
    ModShift(b, q);
  }

  lemma ModShift(b: int, q: int)
    ensures (b + q * TwoTo32) % TwoTo32 == b % TwoTo32
  {
  }

  /** A value already in 32-bit range is left unchanged. */
  lemma ToInt32OfInt32(h: int)
    requires IsInt32(h)
    ensures ToInt32(h) == h
  {
    var r := ToInt32(h);
    var q := (r - h) / TwoTo32;
    assert r - h == q * TwoTo32;
    assert -TwoTo32 < r - h < TwoTo32;
  }

  /** `h << 5`: the operand is converted to 32 bits and so is the product,
      which makes it `32 * h` wrapped to 32 bits. */
  function ShiftLeft5(h: int): (r: int)
    ensures IsInt32(r) && (r - 32 * h) % TwoTo32 == 0
  {
    var a := ToInt32(h);
    var q := (a - h) / TwoTo32;
    assert a * 32 - 32 * h == (32 * q) * TwoTo32;
    ModShift(0, 32 * q);
    ToInt32(a * 32)
  }

  /** One round of the loop body: `hash = ((hash << 5) - hash) + c` followed
      by `hash = hash & hash`, which converts the sum back to 32 bits: a
      32-bit value congruent to `31 * h + c`. */
  function HashStep(h: int, c: char): (r: int)
    ensures IsInt32(r) && (r - (31 * h + c as int)) % TwoTo32 == 0
  {
    var s := ShiftLeft5(h);
    var q := (s - 32 * h) / TwoTo32;
    var r := ToInt32(s - h + c as int);
    var p := (r - (s - h + c as int)) / TwoTo32;
    assert r - (31 * h + c as int) == (p + q) * TwoTo32;
    ModShift(0, p + q);
    r
  }

  /** The value `hashString(s)` returns: the rounds applied left to right,
      starting from 0. */
  function Hash(s: string): (h: int)
    ensures IsInt32(h)
  {
    if s == [] then 0 else HashStep(Hash(s[..|s| - 1]), s[|s| - 1])
  }

  /** Each round is the 32-bit wrap-around of `31 * h + c`. */
  lemma HashStepIsWrappedAffine(h: int, c: char)
    requires IsInt32(h)
    ensures HashStep(h, c) == ToInt32(31 * h + c as int)
  {
    ToInt32OfInt32(h);
    var s := ToInt32(h * 32);
    assert ShiftLeft5(h) == s;
    assert (s - h * 32) % TwoTo32 == 0;
    assert (s - h + c as int) - (31 * h + c as int) == s - h * 32;
    ToInt32Congruent(s - h + c as int, 31 * h + c as int);
  }

  /** The hash of the empty string is 0, and appending a character `c` turns
      the hash `h` into `int32(31 * h + c)`. */
  lemma {:induction false} HashAppend(s: string, c: char)
    ensures Hash([]) == 0
    ensures Hash(s + [c]) == ToInt32(31 * Hash(s) + c as int)
  {
    assert (s + [c])[..|s + [c]| - 1] == s;
    HashStepIsWrappedAffine(Hash(s), c);
  }

  /** `hashString`: the `for` loop over the code units of `str`. */
  method HashString(str: string) returns (hash: int)
    ensures hash == Hash(str)
    ensures IsInt32(hash)
  {
    hash := 0;
    for i := 0 to |str|
      invariant hash == Hash(str[..i])
    {
      assert str[..i + 1][..i] == str[..i];
      hash := ShiftLeft5(hash) - hash + str[i] as int;
      hash := ToInt32(hash);
    }
    assert str[..|str|] == str;
  }

  /** The palette of `generateColorForTheme`, in its listed order. */
  const ThemeColors: seq<Swatch> := [
    Swatch("adventure", "#FF6B6B"),
    Swatch("fear", "#4A148C"),
    Swatch("love", "#EC407A"),
    Swatch("transformation", "#26A69A"),
    Swatch("conflict", "#D32F2F"),
    Swatch("journey", "#FFA726"),
    Swatch("mystery", "#5E35B1"),
    Swatch("growth", "#66BB6A"),
    Swatch("loss", "#607D8B"),
    Swatch("discovery", "#42A5F5")
  ]

  function Abs(x: int): nat {
    if x < 0 then -x else x
  }

  /** The template `hsl(${hue}, 70%, 60%)`: the decimal digits of `hue`
      between a fixed prefix and suffix. */
  function Hsl(hue: nat): (r: string)
    ensures |r| > 15 && r[..4] == "hsl(" && r[|r| - 11..] == ", 70%, 60%)"
    ensures IsDigits(r[4..|r| - 11]) && DecimalValue(r[4..|r| - 11]) == hue
    ensures r[4] == '0' ==> r[4..|r| - 11] == "0"
  {
    var digits := NatToDecimal(hue);
    DecimalRoundTrip(hue);
    var r := "hsl(" + digits + ", 70%, 60%)";
    assert r[4..|r| - 11] == digits;
    r
  }

  /** The hue of a name no keyword matches. */
  function Hue(name: string): (hue: nat)
    ensures hue < 360
  {
    Abs(Hash(name)) % 360
  }

  /** The colour `generateColorForTheme(name)` returns: the colour of the first
      keyword, in listed order, that occurs in the lower-cased name; when none
      does, the hash-derived hue of the name as written. */
  function ThemeColorOf(name: string): (color: string)
    ensures forall i :: 0 <= i < |ThemeColors| && Hits(ThemeColors, ToLower(name), i) &&
                        (forall j :: 0 <= j < i ==> !Hits(ThemeColors, ToLower(name), j)) ==>
                        color == ThemeColors[i].color
    ensures (forall i :: 0 <= i < |ThemeColors| ==> !Hits(ThemeColors, ToLower(name), i)) ==>
            color == Hsl(Hue(name))
  {
    PickColor(ThemeColors, ToLower(name), Hsl(Hue(name)))
  }

  /** `generateColorForTheme`: scans the palette with an early return, then
      falls back to the hue of the name's hash. */
  method GenerateColorForTheme(themeName: string) returns (color: string)
    ensures color == ThemeColorOf(themeName)
  {
    var lowerTheme := ToLower(themeName);
    for i := 0 to |ThemeColors|
      invariant forall j :: 0 <= j < i ==> !Hits(ThemeColors, lowerTheme, j)
    {
      if Includes(lowerTheme, ThemeColors[i].key) {
        FirstHitIsFirstMatch(ThemeColors, lowerTheme, i);
        return ThemeColors[i].color;
      }
    }
    var hash := HashString(themeName);
    var hue := Abs(hash) % 360;
    color := Hsl(hue);
  }

  /** A name whose lower-cased form starts with "fear" takes the "fear"
      entry whenever the one keyword listed before it, "adventure", is absent. */
  lemma FearLeads(name: string)
    requires "fear" <= ToLower(name)
    requires 'v' !in ToLower(name)
    ensures ThemeColorOf(name) == "#4A148C"
  {
    FearIsFirstHit(ToLower(name));
    MatchedColor(name, 1);
    FearColor();
  }

  lemma MatchedColor(name: string, i: nat)
    requires FirstMatch(ThemeColors, ToLower(name)) == Some(i)
    ensures i < |ThemeColors| && ThemeColorOf(name) == ThemeColors[i].color
  {
  }

  lemma FearColor()
    ensures ThemeColors[1].color == "#4A148C"
  {
  }

  lemma FearIsFirstHit(lower: string)
    requires "fear" <= lower && 'v' !in lower
    ensures FirstMatch(ThemeColors, lower) == Some(1)
  {
    assert "fear" <= lower[0..];
    MissingCharExcludes(lower, "adventure", 'v');
    assert FirstMatchFrom(ThemeColors, lower, 1) == Some(1);
  }

  lemma FearfulEncounterIsFear(name: string)
    requires name == "Fearful Encounter"
    ensures ThemeColorOf(name) == "#4A148C"
  {
    FearfulEncounterLetters(name);
    AbsentLetter(name, 'v');
    FearLeads(name);
  }

  lemma FearfulEncounterLetters(name: string)
    requires name == "Fearful Encounter"
    ensures "fear" <= ToLower(name) && 'v' !in name && 'V' !in name
  {
    var lower := ToLower(name);
    forall i | 0 <= i < |name| ensures lower[i] == LowerChar(name[i]) { }
  }

  /** A name no keyword matches gets its hash hue. */
  lemma UnmatchedTakesHue(name: string)
    requires FirstMatch(ThemeColors, ToLower(name)) == None
    ensures ThemeColorOf(name) == Hsl(Hue(name))
  {
  }

  /** A lower-case letter absent from `name` in both cases is absent from its
      lower-cased form. */
  lemma AbsentLetter(name: string, c: char)
    requires 'a' <= c <= 'z'
    requires c !in name && (c as int - 32) as char !in name
    ensures c !in ToLower(name)
  {
  }

  /** Text lacking these letters contains no keyword of the palette. */
  lemma NoKeyWithout(lower: string, a: char, f: char, l: char, t: char, c: char,
                     j: char, m: char, g: char, s: char, d: char)
    requires a in "adventure" && f in "fear" && l in "love" && t in "transformation" && c in "conflict"
    requires j in "journey" && m in "mystery" && g in "growth" && s in "loss" && d in "discovery"
    requires a !in lower && f !in lower && l !in lower && t !in lower && c !in lower
    requires j !in lower && m !in lower && g !in lower && s !in lower && d !in lower
    ensures FirstMatch(ThemeColors, lower) == None
  {
    MissingCharExcludes(lower, "discovery", d);
    assert FirstMatchFrom(ThemeColors, lower, 9) == None;
    MissingCharExcludes(lower, "loss", s);
    assert FirstMatchFrom(ThemeColors, lower, 8) == None;
    MissingCharExcludes(lower, "growth", g);
    assert FirstMatchFrom(ThemeColors, lower, 7) == None;
    MissingCharExcludes(lower, "mystery", m);
    assert FirstMatchFrom(ThemeColors, lower, 6) == None;
    MissingCharExcludes(lower, "journey", j);
    assert FirstMatchFrom(ThemeColors, lower, 5) == None;
    MissingCharExcludes(lower, "conflict", c);
    assert FirstMatchFrom(ThemeColors, lower, 4) == None;
    MissingCharExcludes(lower, "transformation", t);
    assert FirstMatchFrom(ThemeColors, lower, 3) == None;
    MissingCharExcludes(lower, "love", l);
    assert FirstMatchFrom(ThemeColors, lower, 2) == None;
    MissingCharExcludes(lower, "fear", f);
    assert FirstMatchFrom(ThemeColors, lower, 1) == None;
    MissingCharExcludes(lower, "adventure", a);
  }

  /** "Exploration" contains no keyword: it lacks 'v', 'f', 'c', 'j', 'm', 'g',
      's' and 'd' in either case. */
  lemma ExplorationIsUnmatched(name: string)
    requires name == "Exploration"
    ensures ThemeColorOf(name) == Hsl(Hue(name))
  {
    ExplorationLacksLower(name);
    ExplorationLacksUpper(name);
    AbsentLetter(name, 'v');
    AbsentLetter(name, 'f');
    AbsentLetter(name, 'c');
    AbsentLetter(name, 'j');
    AbsentLetter(name, 'm');
    AbsentLetter(name, 'g');
    AbsentLetter(name, 's');
    AbsentLetter(name, 'd');
    NoKeyWithout(ToLower(name), 'v', 'f', 'v', 'f', 'c', 'j', 'm', 'g', 's', 'd');
    UnmatchedTakesHue(name);
  }

  lemma ExplorationLacksLower(name: string)
    requires name == "Exploration"
    ensures 'v' !in name && 'f' !in name && 'c' !in name && 'j' !in name
    ensures 'm' !in name && 'g' !in name && 's' !in name && 'd' !in name
  {
  }

  lemma ExplorationLacksUpper(name: string)
    requires name == "Exploration"
    ensures 'V' !in name && 'F' !in name && 'C' !in name && 'J' !in name
    ensures 'M' !in name && 'G' !in name && 'S' !in name && 'D' !in name
  {
  }

  /** "Emotion" contains no keyword: it lacks 'a', 'f', 'l', 'r', 'c', 'j',
      'y', 'g' and 'd' in either case. */
  lemma EmotionIsUnmatched(name: string)
    requires name == "Emotion"
    ensures ThemeColorOf(name) == Hsl(Hue(name))
  {
    EmotionLacksLower(name);
    EmotionLacksUpper(name);
    AbsentLetter(name, 'a');
    AbsentLetter(name, 'f');
    AbsentLetter(name, 'l');
    AbsentLetter(name, 'r');
    AbsentLetter(name, 'c');
    AbsentLetter(name, 'j');
    AbsentLetter(name, 'y');
    AbsentLetter(name, 'g');
    AbsentLetter(name, 'd');
    NoKeyWithout(ToLower(name), 'a', 'f', 'l', 'r', 'c', 'j', 'y', 'g', 'l', 'd');
    UnmatchedTakesHue(name);
  }

  lemma EmotionLacksLower(name: string)
    requires name == "Emotion"
    ensures 'a' !in name && 'f' !in name && 'l' !in name && 'r' !in name && 'c' !in name
    ensures 'j' !in name && 'y' !in name && 'g' !in name && 'd' !in name
  {
  }

  lemma EmotionLacksUpper(name: string)
    requires name == "Emotion"
    ensures 'A' !in name && 'F' !in name && 'L' !in name && 'R' !in name && 'C' !in name
    ensures 'J' !in name && 'Y' !in name && 'G' !in name && 'D' !in name
  {
  }

  /** Lower-cased text starting with "transformation" and lacking 'v' and 'e'
      takes the fourth entry: the three keywords before it do not occur. */
  lemma TransformationLeads(lower: string)
    requires "transformation" <= lower && 'v' !in lower && 'e' !in lower
    ensures FirstMatch(ThemeColors, lower) == Some(3)
  {
    assert "transformation" <= lower[0..];
    IncludesAt(lower, ThemeColors[3].key, 0);
    HitStops(ThemeColors, lower, 3);
    MissingCharExcludes(lower, "love", 'v');
    SkipMiss(ThemeColors, lower, 2);
    MissingCharExcludes(lower, "fear", 'e');
    SkipMiss(ThemeColors, lower, 1);
    MissingCharExcludes(lower, "adventure", 'v');
    SkipMiss(ThemeColors, lower, 0);
  }

  lemma TransformationLetters(name: string)
    requires name == "Transformation"
    ensures 'v' !in name && 'V' !in name && 'e' !in name && 'E' !in name
    ensures "transformation" <= ToLower(name)
  {
    var lower := ToLower(name);
    forall i | 0 <= i < |name| ensures lower[i] == LowerChar(name[i]) { }
  }

  /** A name whose lower-cased form starts with "transformation" and that
      lacks 'v' and 'e' in either case takes "#26A69A". */
  lemma TransformationFirst(name: string)
    requires "transformation" <= ToLower(name)
    requires 'v' !in name && 'V' !in name && 'e' !in name && 'E' !in name
    ensures ThemeColorOf(name) == "#26A69A"
  {
    AbsentLetter(name, 'v');
    AbsentLetter(name, 'e');
    TransformationLeads(ToLower(name));
    MatchedColor(name, 3);
    TransformationColor();
  }

  lemma TransformationColor()
    ensures ThemeColors[3].color == "#26A69A"
  {
  }

  lemma TransformationIsMatched(name: string)
    requires name == "Transformation"
    ensures ThemeColorOf(name) == "#26A69A"
  {
    TransformationLetters(name);
    TransformationFirst(name);
  }
}
