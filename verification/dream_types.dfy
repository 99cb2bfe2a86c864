/** The records the edge function returns and the exporter reads: a dream's
    interpretation and the chart-ready data derived from it. Numbers the model
    supplies (intensities, the lucid-dream potential) are integers here. */
module DreamTypes {

  datatype Theme = Theme(name: string, description: string, intensity: int)

  datatype DreamSymbol = DreamSymbol(name: string, meaning: string, category: string, color: string)

  datatype Emotion = Emotion(name: string, intensity: int, color: string)

  datatype DreamInterpretation = DreamInterpretation(
    summary: string,
    themes: seq<Theme>,
    symbols: seq<DreamSymbol>,
    emotions: seq<Emotion>,
    insights: seq<string>,
    lucidDreamPotential: int)

  /** One bar of `themeDistribution`. */
  datatype ThemeShare = ThemeShare(name: string, value: int, color: string)

  /** One bar of `emotionalSpectrum`. */
  datatype EmotionLevel = EmotionLevel(emotion: string, value: int, color: string)

  /** One marker of `symbolMap`. The marker sits at angle `turn` (a fraction of
      a full circle) and distance `radius` from the centre (50, 50); its
      on-screen x and y are `50 + cos(2 pi turn) * radius` and
      `50 + sin(2 pi turn) * radius`. */
  datatype SymbolMark = SymbolMark(symbol: string, size: real, turn: real, radius: real, color: string)

  datatype VisualData = VisualData(
    themeDistribution: seq<ThemeShare>,
    emotionalSpectrum: seq<EmotionLevel>,
    symbolMap: seq<SymbolMark>,
    lucidScore: int)

  predicate Percent(v: int) {
    0 <= v <= 100
  }

  /** The shape the prompt asks the model for: 3-5 themes, 5-8 symbols, 3-5
      emotions, 3-5 insights, every intensity and the potential in 0..100. */
  predicate WellFormed(d: DreamInterpretation) {
    3 <= |d.themes| <= 5 && 5 <= |d.symbols| <= 8 &&
    3 <= |d.emotions| <= 5 && 3 <= |d.insights| <= 5 &&
    (forall i :: 0 <= i < |d.themes| ==> Percent(d.themes[i].intensity)) &&
    (forall i :: 0 <= i < |d.emotions| ==> Percent(d.emotions[i].intensity)) &&
    Percent(d.lucidDreamPotential)
  }
}
