/** `generateFallbackInterpretation`: the fixed interpretation served whenever
    the model cannot be used, together with the visual data derived from it. */
module Fallback {
  import opened DreamTypes
  import opened ThemeColor
  import opened VisualDeriver

  datatype FallbackResult = FallbackResult(interpretation: DreamInterpretation, visualData: VisualData)

  const CannedSummary: string :=
    "Your dream contains rich symbolism and emotional depth. It reflects your subconscious processing daily experiences and deeper life themes."

  const CannedThemes: seq<Theme> := [
    Theme("Exploration", "A journey through the unknown", 75),
    Theme("Emotion", "Deep feelings surfacing", 65),
    Theme("Transformation", "Personal growth and change", 80)
  ]

  const CannedSymbols: seq<DreamSymbol> := [
    DreamSymbol("Water", "Emotions and the unconscious", "nature", "#2196F3"),
    DreamSymbol("Path", "Life's journey and choices", "abstract", "#795548"),
    DreamSymbol("Light", "Clarity and awareness", "abstract", "#FFC107"),
    DreamSymbol("Animal", "Instincts and natural self", "nature", "#4CAF50"),
    DreamSymbol("House", "The self and personal space", "objects", "#FF5722")
  ]

  const CannedEmotions: seq<Emotion> := [
    Emotion("Wonder", 70, "#9C27B0"),
    Emotion("Curiosity", 85, "#00BCD4"),
    Emotion("Peace", 60, "#4CAF50")
  ]

  const CannedInsights: seq<string> := [
    "This dream reflects your current life transitions and emotional state",
    "Recurring symbols suggest themes that deserve your attention",
    "The dream's atmosphere reveals your subconscious feelings about current situations"
  ]

  const Canned: DreamInterpretation :=
    DreamInterpretation(CannedSummary, CannedThemes, CannedSymbols, CannedEmotions, CannedInsights, 65)

  /** The canned interpretation has the shape the prompt asks the model for. */
  lemma CannedIsWellFormed()
    ensures WellFormed(Canned)
  {
    forall i | 0 <= i < |CannedThemes| ensures Percent(CannedThemes[i].intensity) {
      assert i == 0 || i == 1 || i == 2;
    }
    forall i | 0 <= i < |CannedEmotions| ensures Percent(CannedEmotions[i].intensity) {
      assert i == 0 || i == 1 || i == 2;
    }
  }

  /** The fallback: 3 themes, 5 symbols, 3 emotions, 3 insights, potential 65,
      a shape the prompt's contract admits, with the visual data of exactly
      that interpretation. */
  function GenerateFallbackInterpretation(dreamText: string, rand: nat -> real): (r: FallbackResult)
    ensures |r.interpretation.themes| == 3 && |r.interpretation.symbols| == 5
    ensures |r.interpretation.emotions| == 3 && |r.interpretation.insights| == 3
    ensures r.interpretation.lucidDreamPotential == 65
    ensures WellFormed(r.interpretation)
    ensures r.visualData == GenerateVisualData(r.interpretation, rand)
  {
    CannedIsWellFormed();
    FallbackResult(Canned, GenerateVisualData(Canned, rand))
  }

  /** The fallback does not look at the dream text. */
  lemma FallbackIgnoresText(a: string, b: string, rand: nat -> real)
    ensures GenerateFallbackInterpretation(a, rand) == GenerateFallbackInterpretation(b, rand)
  {
  }

  /** The fallback's visual data: 3 theme bars, 3 emotion bars, 5 markers and
      a score of 65; "Transformation" takes its palette colour while
      "Exploration" and "Emotion" match no keyword and take their hash hue. */
  lemma FallbackVisuals(dreamText: string, rand: nat -> real)
    ensures var v := GenerateFallbackInterpretation(dreamText, rand).visualData;
            |v.themeDistribution| == 3 && |v.emotionalSpectrum| == 3 &&
            |v.symbolMap| == 5 && v.lucidScore == 65 &&
            v.themeDistribution[0].color == Hsl(Hue("Exploration")) &&
            v.themeDistribution[1].color == Hsl(Hue("Emotion")) &&
            v.themeDistribution[2].color == "#26A69A"
  {
    var r := GenerateFallbackInterpretation(dreamText, rand);
    var themes := r.interpretation.themes;
    assert themes == CannedThemes;
    ExplorationIsUnmatched(themes[0].name);
    EmotionIsUnmatched(themes[1].name);
    TransformationIsMatched(themes[2].name);
    assert r.visualData.themeDistribution[0].color == ThemeColorOf(themes[0].name);
    assert r.visualData.themeDistribution[1].color == ThemeColorOf(themes[1].name);
    assert r.visualData.themeDistribution[2].color == ThemeColorOf(themes[2].name);
  }
}
