/** `generateVisualData`: the chart series derived from an interpretation.
    `Math.random` is the draw stream `rand`: the marker for symbol `i` uses
    draw `2 * i` for its radius and draw `2 * i + 1` for its size, the order in
    which the source calls it. */
module VisualDeriver {
  import opened DreamTypes
  import opened ThemeColor

  function ThemeShareOf(t: Theme): ThemeShare {
    ThemeShare(t.name, t.intensity, ThemeColorOf(t.name))
  }

  function EmotionLevelOf(e: Emotion): EmotionLevel {
    EmotionLevel(e.name, e.intensity, e.color)
  }

  /** The marker of symbol `i` of `count`: the symbol's name and colour, at
      angle `i / count` of a turn, radius `40 + 20 * draw` and size
      `20 + 30 * draw`, so in [40, 60) and [20, 50) for draws in [0, 1). */
  function SymbolMarkOf(s: DreamSymbol, i: nat, count: nat, rand: nat -> real): (m: SymbolMark)
    requires i < count
    ensures m.symbol == s.name && m.color == s.color
    ensures 0.0 <= m.turn < 1.0 && m.turn * count as real == i as real
    ensures 0.0 <= rand(2 * i) < 1.0 ==> 40.0 <= m.radius < 60.0
    ensures 0.0 <= rand(2 * i + 1) < 1.0 ==> 20.0 <= m.size < 50.0
  {
    var radius := 40.0 + rand(2 * i) * 20.0;
    SymbolMark(s.name, 20.0 + rand(2 * i + 1) * 30.0, i as real / count as real, radius, s.color)
  }

  /** One theme bar per theme, one emotion bar per emotion and one marker per
      symbol, each in source order, and the score copied over. */
  function GenerateVisualData(d: DreamInterpretation, rand: nat -> real): (v: VisualData)
    ensures |v.themeDistribution| == |d.themes|
    ensures forall i :: 0 <= i < |d.themes| ==>
              v.themeDistribution[i].name == d.themes[i].name &&
              v.themeDistribution[i].value == d.themes[i].intensity &&
              v.themeDistribution[i].color == ThemeColorOf(d.themes[i].name)
    ensures |v.emotionalSpectrum| == |d.emotions|
    ensures forall i :: 0 <= i < |d.emotions| ==>
              v.emotionalSpectrum[i].emotion == d.emotions[i].name &&
              v.emotionalSpectrum[i].value == d.emotions[i].intensity &&
              v.emotionalSpectrum[i].color == d.emotions[i].color
    ensures |v.symbolMap| == |d.symbols|
    ensures forall i :: 0 <= i < |d.symbols| ==>
              v.symbolMap[i].symbol == d.symbols[i].name &&
              v.symbolMap[i].color == d.symbols[i].color
    ensures v.lucidScore == d.lucidDreamPotential
  {
    var n := |d.symbols|;
    VisualData(
      seq(|d.themes|, i requires 0 <= i < |d.themes| => ThemeShareOf(d.themes[i])),
      seq(|d.emotions|, i requires 0 <= i < |d.emotions| => EmotionLevelOf(d.emotions[i])),
      seq(n, i requires 0 <= i < n => SymbolMarkOf(d.symbols[i], i, n, rand)),
      d.lucidDreamPotential)
  }

  /** A draw stream as `Math.random` produces it: every draw in [0, 1). */
  ghost predicate UnitDraws(rand: nat -> real) {
    forall k: nat :: 0.0 <= rand(k) < 1.0
  }

  /** With draws in [0, 1) every marker has radius in [40, 60) and size in
      [20, 50), and the markers sit at distinct angles, evenly spaced and
      increasing with the symbol's index, within one turn. */
  lemma SymbolLayout(d: DreamInterpretation, rand: nat -> real)
    requires UnitDraws(rand)
    ensures var m := GenerateVisualData(d, rand).symbolMap;
            forall i :: 0 <= i < |m| ==>
              40.0 <= m[i].radius < 60.0 && 20.0 <= m[i].size < 50.0 &&
              0.0 <= m[i].turn < 1.0 &&
              m[i].turn * |m| as real == i as real
    ensures var m := GenerateVisualData(d, rand).symbolMap;
            forall i, j :: 0 <= i < j < |m| ==> m[i].turn < m[j].turn
  {
    var m := GenerateVisualData(d, rand).symbolMap;
    var n := |d.symbols|;
    forall i | 0 <= i < n
      ensures 40.0 <= m[i].radius < 60.0 && 20.0 <= m[i].size < 50.0
      ensures 0.0 <= m[i].turn < 1.0 && m[i].turn * n as real == i as real
    {
      assert m[i] == SymbolMarkOf(d.symbols[i], i, n, rand);
      assert 0.0 <= rand(2 * i) < 1.0 && 0.0 <= rand(2 * i + 1) < 1.0;
      assert (i as real) / (n as real) < 1.0;
    }
    forall i, j | 0 <= i < j < n ensures m[i].turn < m[j].turn {
      assert m[i] == SymbolMarkOf(d.symbols[i], i, n, rand);
      assert m[j] == SymbolMarkOf(d.symbols[j], j, n, rand);
      DivisionMonotone(i as real, j as real, n as real);
    }
  }

  lemma DivisionMonotone(a: real, b: real, n: real)
    requires a < b && n > 0.0
    ensures a / n < b / n
  {
    assert b / n - a / n == (b - a) / n;
  }

  /** Only the markers' radius and size depend on the draws: the theme and
      emotion series, the score and each marker's symbol, colour and angle
      come out the same on every call. */
  lemma RandomnessOnlyMovesMarkers(d: DreamInterpretation, r1: nat -> real, r2: nat -> real)
    ensures var v1, v2 := GenerateVisualData(d, r1), GenerateVisualData(d, r2);
            v1.themeDistribution == v2.themeDistribution &&
            v1.emotionalSpectrum == v2.emotionalSpectrum &&
            v1.lucidScore == v2.lucidScore &&
            |v1.symbolMap| == |v2.symbolMap| &&
            forall i :: 0 <= i < |v1.symbolMap| ==>
              v1.symbolMap[i].symbol == v2.symbolMap[i].symbol &&
              v1.symbolMap[i].color == v2.symbolMap[i].color &&
              v1.symbolMap[i].turn == v2.symbolMap[i].turn
  {
  }
}
