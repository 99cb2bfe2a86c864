/** The document exporter (src/lib/pdfGenerator.ts): the theme colour of its
    cards (`generateThemeColor`), the per-item markup of the themes, symbols,
    emotions and insights sections, and the download name. `escapeHtml` is
    passed in as `esc`; the date texts come from `Date`. */
module PdfGenerator {
  import opened Wrappers
  import opened JsText
  import opened Palette
  import opened DreamTypes
  import ThemeColor

  /** The palette of `generateThemeColor`, in its listed order. */
  const ExportColors: seq<Swatch> := [
    Swatch("adventure", "#FF6B6B"),
    Swatch("fear", "#4A148C"),
    Swatch("love", "#EC407A"),
    Swatch("transformation", "#26A69A"),
    Swatch("conflict", "#D32F2F"),
    Swatch("journey", "#FFA726"),
    Swatch("mystery", "#5E35B1"),
    Swatch("growth", "#66BB6A"),
    Swatch("loss", "#607D8B"),
    Swatch("discovery", "#42A5F5")
  ]

  const DefaultColor: string := "#667eea"

  /** The colour `generateThemeColor(name)` returns: that of the first keyword,
      in listed order, occurring in the lower-cased name, else the default. */
  function ExportThemeColor(name: string): (color: string)
    ensures forall i :: 0 <= i < |ExportColors| && Hits(ExportColors, ToLower(name), i) &&
                        (forall j :: 0 <= j < i ==> !Hits(ExportColors, ToLower(name), j)) ==>
                        color == ExportColors[i].color
    ensures (forall i :: 0 <= i < |ExportColors| ==> !Hits(ExportColors, ToLower(name), i)) ==>
            color == DefaultColor
  {
    PickColor(ExportColors, ToLower(name), DefaultColor)
  }

  /** `generateThemeColor`: the palette scan with an early return. */
  method GenerateThemeColor(themeName: string) returns (color: string)
    ensures color == ExportThemeColor(themeName)
  {
    var lowerTheme := ToLower(themeName);
    for i := 0 to |ExportColors|
      invariant forall j :: 0 <= j < i ==> !Hits(ExportColors, lowerTheme, j)
    {
      if Includes(lowerTheme, ExportColors[i].key) {
        FirstHitIsFirstMatch(ExportColors, lowerTheme, i);
        return ExportColors[i].color;
      }
    }
    color := DefaultColor;
  }

  /** The colour of the first keyword found wins. */
  lemma FirstKeywordWins(name: string, i: nat)
    requires i < |ExportColors| && Hits(ExportColors, ToLower(name), i)
    requires forall j :: 0 <= j < i ==> !Hits(ExportColors, ToLower(name), j)
    ensures ExportThemeColor(name) == ExportColors[i].color
  {
  }

  /** Without any keyword the default colour is used. */
  lemma NoKeywordGivesDefault(name: string)
    requires forall i :: 0 <= i < |ExportColors| ==> !Hits(ExportColors, ToLower(name), i)
    ensures ExportThemeColor(name) == DefaultColor
  {
  }

  /** Every card colour is one of eleven fixed strings. */
  lemma ExportColorIsFixed(name: string)
    ensures ExportThemeColor(name) in
              {"#FF6B6B", "#4A148C", "#EC407A", "#26A69A", "#D32F2F", "#FFA726",
               "#5E35B1", "#66BB6A", "#607D8B", "#42A5F5", "#667eea"}
  {
    var color := ExportThemeColor(name);
    if color != DefaultColor {
      var i :| 0 <= i < |ExportColors| && color == ExportColors[i].color;
      assert i == 0 || i == 1 || i == 2 || i == 3 || i == 4 || i == 5 || i == 6 || i == 7 || i == 8 || i == 9;
    }
  }

  /** The exporter's table is the edge function's table. */
  lemma SamePalette()
    ensures ExportColors == ThemeColor.ThemeColors
  {
  }

  /** Wherever some keyword occurs in the name, the exporter picks the colour
      the edge function picks. */
  lemma AgreesWithEdgeFunction(name: string)
    requires exists i :: 0 <= i < |ExportColors| && Hits(ExportColors, ToLower(name), i)
    ensures ExportThemeColor(name) == ThemeColor.ThemeColorOf(name)
  {
    SamePalette();
    var lower := ToLower(name);
    var i :| 0 <= i < |ExportColors| && Hits(ExportColors, lower, i);
    var m := FirstMatch(ExportColors, lower);
    assert m.Some?;
    ThemeColor.MatchedColor(name, m.value);
  }

  /** Lower-cased text starting with "fear" and lacking a 'd' takes the "fear"
      entry: "adventure", the only keyword before it, cannot occur. */
  lemma FearLeadsExport(lower: string)
    requires "fear" <= lower && 'd' !in lower
    ensures FirstMatch(ExportColors, lower) == Some(1)
  {
    assert "fear" <= lower[0..];
    MissingCharExcludes(lower, "adventure", 'd');
    assert FirstMatchFrom(ExportColors, lower, 1) == Some(1);
  }

  /** "Fearful Love" holds both "fear" and "love"; "fear" is listed first. */
  lemma FearfulLoveIsFear(name: string)
    requires name == "Fearful Love"
    ensures ExportThemeColor(name) == "#4A148C"
  {
    var lower := ToLower(name);
    assert lower[0] == LowerChar(name[0]) == 'f';
    ThemeColor.AbsentLetter(name, 'd');
    FearLeadsExport(lower);
    assert ExportColors[1].color == "#4A148C";
  }

  /** `items.map(render).join('')`. */
  function JoinMap<T>(items: seq<T>, render: T -> string): string {
    if items == [] then "" else render(items[0]) + JoinMap(items[1..], render)
  }

  /** The markup of a concatenation is the concatenation of the markups. */
  lemma {:induction false} JoinMapAppend<T>(xs: seq<T>, ys: seq<T>, render: T -> string)
    ensures JoinMap(xs + ys, render) == JoinMap(xs, render) + JoinMap(ys, render)
  {
    if xs != [] {
      assert (xs + ys)[1..] == xs[1..] + ys;
      JoinMapAppend(xs[1..], ys, render);
    } else {
      assert xs + ys == ys;
    }
  }

  /** One element per item, in item order: the markup of item `i` follows
      that of the items before it and precedes that of the items after it. */
  lemma ItemInPlace<T>(items: seq<T>, render: T -> string, i: nat)
    requires i < |items|
    ensures JoinMap(items, render) ==
            JoinMap(items[..i], render) + render(items[i]) + JoinMap(items[i + 1..], render)
  {
    var rest := items[i..];
    assert items == items[..i] + rest;
    JoinMapAppend(items[..i], rest, render);
    assert rest[1..] == items[i + 1..];
    var before, after := JoinMap(items[..i], render), JoinMap(items[i + 1..], render);
    assert before + (render(items[i]) + after) == before + render(items[i]) + after;
  }

  /** Every item's markup occurs in the joined markup. */
  lemma EveryItemIncluded<T>(items: seq<T>, render: T -> string)
    ensures forall i :: 0 <= i < |items| ==> Includes(JoinMap(items, render), render(items[i]))
  {
    forall i | 0 <= i < |items| ensures Includes(JoinMap(items, render), render(items[i])) {
      ItemInPlace(items, render, i);
      var before := JoinMap(items[..i], render);
      var s := JoinMap(items, render);
      assert render(items[i]) <= s[|before|..];
      IncludesAt(s, render(items[i]), |before|);
    }
  }

  /** The literal parts of the template of each kind of item. */
  const ThemeCardParts: seq<string> := ["\n          <div class=\"card\" style=\"border-left-color: ", "\">\n            <h3>", "</h3>\n            <p>", "</p>\n            <div class=\"intensity-bar\">\n              <div class=\"intensity-fill\" style=\"width: ", "%\"></div>\n            </div>\n          </div>\n        "]
  const SymbolItemParts: seq<string> := ["\n          <li class=\"symbol-item\" style=\"border-left-color: ", "\">\n            <div class=\"symbol-name\">", "</div>\n            <div class=\"symbol-meaning\">", "</div>\n          </li>\n        "]
  const EmotionCardParts: seq<string> := ["\n          <div class=\"card\" style=\"border-left-color: ", "\">\n            <h3>", "</h3>\n            <div class=\"intensity-bar\">\n              <div class=\"intensity-fill\" style=\"width: ", "%; background: ", "\"></div>\n            </div>\n          </div>\n        "]
  const InsightItemParts: seq<string> := ["\n          <li>", "</li>\n        "]

  /** A template of three values, filled in: it opens with its first part
      and first value, closes with its last part and holds the other values. */
  lemma Filled3(parts: seq<string>, values: seq<string>)
    requires |parts| == 4 && |values| == 3
    ensures var r := Interpolate(parts, values);
            parts[0] + values[0] <= r && |parts[3]| <= |r| && r[|r| - |parts[3]|..] == parts[3] &&
            Includes(r, values[1]) && Includes(r, values[2])
  {
  }

  /** The same for a template of four values. */
  lemma Filled4(parts: seq<string>, values: seq<string>)
    requires |parts| == 5 && |values| == 4
    ensures var r := Interpolate(parts, values);
            parts[0] + values[0] <= r && |parts[4]| <= |r| && r[|r| - |parts[4]|..] == parts[4] &&
            Includes(r, values[1]) && Includes(r, values[2])
  {
  }

  /** A theme card: a card bordered in the theme's colour, closed by the
      template's last part, holding the escaped name and description. */
  function ThemeCard(theme: Theme, esc: string -> string): (html: string)
    ensures ThemeCardParts[0] + ExportThemeColor(theme.name) <= html
    ensures |ThemeCardParts[4]| <= |html| && html[|html| - |ThemeCardParts[4]|..] == ThemeCardParts[4]
    ensures Includes(html, esc(theme.name)) && Includes(html, esc(theme.description))
  {
    var values := [ExportThemeColor(theme.name), esc(theme.name), esc(theme.description), IntToDecimal(theme.intensity)];
    Filled4(ThemeCardParts, values);
    Interpolate(ThemeCardParts, values)
  }

  /** A symbol item: a list item bordered in the symbol's colour, closed by
      the template's last part, holding the escaped name and meaning. */
  function SymbolItem(symbol: DreamSymbol, esc: string -> string): (html: string)
    ensures SymbolItemParts[0] + symbol.color <= html
    ensures |SymbolItemParts[3]| <= |html| && html[|html| - |SymbolItemParts[3]|..] == SymbolItemParts[3]
    ensures Includes(html, esc(symbol.name)) && Includes(html, esc(symbol.meaning))
  {
    var values := [symbol.color, esc(symbol.name), esc(symbol.meaning)];
    Filled3(SymbolItemParts, values);
    Interpolate(SymbolItemParts, values)
  }

  /** An emotion card: a card bordered in the emotion's colour, closed by the
      template's last part, holding the escaped name. */
  function EmotionCard(emotion: Emotion, esc: string -> string): (html: string)
    ensures EmotionCardParts[0] + emotion.color <= html
    ensures |EmotionCardParts[4]| <= |html| && html[|html| - |EmotionCardParts[4]|..] == EmotionCardParts[4]
    ensures Includes(html, esc(emotion.name))
  {
    var values := [emotion.color, esc(emotion.name), IntToDecimal(emotion.intensity), emotion.color];
    Filled4(EmotionCardParts, values);
    Interpolate(EmotionCardParts, values)
  }

  /** Each text of a theme card sits in its own place: the name in the
      heading, the description in the paragraph, the intensity as the width
      of the bar. */
  lemma ThemeCardSlots(theme: Theme, esc: string -> string)
    ensures var html := ThemeCard(theme, esc);
            Includes(html, ThemeCardParts[1] + esc(theme.name) + ThemeCardParts[2]) &&
            Includes(html, ThemeCardParts[2] + esc(theme.description) + ThemeCardParts[3]) &&
            Includes(html, ThemeCardParts[3] + IntToDecimal(theme.intensity) + ThemeCardParts[4])
  {
    var values := [ExportThemeColor(theme.name), esc(theme.name), esc(theme.description), IntToDecimal(theme.intensity)];
    assert InSlot(ThemeCard(theme, esc), ThemeCardParts, values, 1);
    assert InSlot(ThemeCard(theme, esc), ThemeCardParts, values, 2);
    assert InSlot(ThemeCard(theme, esc), ThemeCardParts, values, 3);
  }

  /** The name and the meaning of a symbol item each sit in their own block. */
  lemma SymbolItemSlots(symbol: DreamSymbol, esc: string -> string)
    ensures var html := SymbolItem(symbol, esc);
            Includes(html, SymbolItemParts[1] + esc(symbol.name) + SymbolItemParts[2]) &&
            Includes(html, SymbolItemParts[2] + esc(symbol.meaning) + SymbolItemParts[3])
  {
    var values := [symbol.color, esc(symbol.name), esc(symbol.meaning)];
    assert InSlot(SymbolItem(symbol, esc), SymbolItemParts, values, 1);
    assert InSlot(SymbolItem(symbol, esc), SymbolItemParts, values, 2);
  }

  /** An emotion card holds the name in its heading, the intensity as the
      width of its bar and the colour as the bar's background. */
  lemma EmotionCardSlots(emotion: Emotion, esc: string -> string)
    ensures var html := EmotionCard(emotion, esc);
            Includes(html, EmotionCardParts[1] + esc(emotion.name) + EmotionCardParts[2]) &&
            Includes(html, EmotionCardParts[2] + IntToDecimal(emotion.intensity) + EmotionCardParts[3]) &&
            Includes(html, EmotionCardParts[3] + emotion.color + EmotionCardParts[4])
  {
    var values := [emotion.color, esc(emotion.name), IntToDecimal(emotion.intensity), emotion.color];
    assert InSlot(EmotionCard(emotion, esc), EmotionCardParts, values, 1);
    assert InSlot(EmotionCard(emotion, esc), EmotionCardParts, values, 2);
    assert InSlot(EmotionCard(emotion, esc), EmotionCardParts, values, 3);
  }

  /** An insight item: the escaped insight between `<li>` and `</li>`. */
  function InsightItem(insight: string, esc: string -> string): (html: string)
    ensures html == InsightItemParts[0] + esc(insight) + InsightItemParts[1]
  {
    Interpolate(InsightItemParts, [esc(insight)])
  }

  /** The text the exporter interpolates at each place of its page template. */
  datatype Page = Page(
    date: string,
    dreamText: string,
    summary: string,
    themeCards: string,
    symbolItems: string,
    emotionCards: string,
    insightItems: string,
    lucidDreamPotential: string)

  /** A stored dream as the exporter reads it. */
  datatype Dream = Dream(dreamText: string, interpretation: Option<DreamInterpretation>, createdAt: string)

  datatype Export =
    | NothingToExport              // the dream has no interpretation
    | InvalidDate                  // `toISOString` throws on the creation time
    | Download(fileName: string, page: Page)

  /** The page of an interpretation: the date as given, the escaped dream
      text and summary, an empty section for an empty list, and the score in
      decimal. Where each item's markup goes is `PageItemsInPlace`. */
  function RenderPage(d: DreamInterpretation, dreamText: string, date: string, esc: string -> string): (p: Page)
    ensures p.date == date && p.dreamText == esc(dreamText) && p.summary == esc(d.summary)
    ensures d.themes == [] ==> p.themeCards == ""
    ensures d.symbols == [] ==> p.symbolItems == ""
    ensures d.emotions == [] ==> p.emotionCards == ""
    ensures d.insights == [] ==> p.insightItems == ""
    ensures p.lucidDreamPotential == IntToDecimal(d.lucidDreamPotential)
    ensures d.lucidDreamPotential >= 0 ==>
              IsDigits(p.lucidDreamPotential) && DecimalValue(p.lucidDreamPotential) == d.lucidDreamPotential
  {
    Page(
      date,
      esc(dreamText),
      esc(d.summary),
      JoinMap(d.themes, t => ThemeCard(t, esc)),
      JoinMap(d.symbols, s => SymbolItem(s, esc)),
      JoinMap(d.emotions, e => EmotionCard(e, esc)),
      JoinMap(d.insights, i => InsightItem(i, esc)),
      IntToDecimal(d.lucidDreamPotential))
  }

  /** The sections of an exported page: theme `i`'s card, symbol `i`'s item,
      emotion `i`'s card and insight `i`'s item each sit after those of the
      items before it and before those of the items after it. */
  lemma PageItemsInPlace(d: DreamInterpretation, dreamText: string, date: string, esc: string -> string, i: nat)
    ensures var p := RenderPage(d, dreamText, date, esc);
            (i < |d.themes| ==>
               p.themeCards == JoinMap(d.themes[..i], t => ThemeCard(t, esc)) + ThemeCard(d.themes[i], esc) +
                               JoinMap(d.themes[i + 1..], t => ThemeCard(t, esc))) &&
            (i < |d.symbols| ==>
               p.symbolItems == JoinMap(d.symbols[..i], s => SymbolItem(s, esc)) + SymbolItem(d.symbols[i], esc) +
                                JoinMap(d.symbols[i + 1..], s => SymbolItem(s, esc))) &&
            (i < |d.emotions| ==>
               p.emotionCards == JoinMap(d.emotions[..i], e => EmotionCard(e, esc)) + EmotionCard(d.emotions[i], esc) +
                                 JoinMap(d.emotions[i + 1..], e => EmotionCard(e, esc))) &&
            (i < |d.insights| ==>
               p.insightItems == JoinMap(d.insights[..i], s => InsightItem(s, esc)) + InsightItem(d.insights[i], esc) +
                                 JoinMap(d.insights[i + 1..], s => InsightItem(s, esc)))
  {
    if i < |d.themes| { ItemInPlace(d.themes, t => ThemeCard(t, esc), i); }
    if i < |d.symbols| { ItemInPlace(d.symbols, s => SymbolItem(s, esc), i); }
    if i < |d.emotions| { ItemInPlace(d.emotions, e => EmotionCard(e, esc), i); }
    if i < |d.insights| { ItemInPlace(d.insights, s => InsightItem(s, esc), i); }
  }

  /** `dream-journal-${iso.split('T')[0]}.html`: the day part of the ISO
      timestamp, up to its first 'T', between a fixed prefix and suffix. */
  function DownloadName(iso: string): (name: string)
    ensures |name| >= 19 && name[..14] == "dream-journal-" && name[|name| - 5..] == ".html"
    ensures name[14..|name| - 5] <= iso && 'T' !in name[14..|name| - 5]
    ensures |name| - 19 < |iso| ==> iso[|name| - 19] == 'T'
  {
    var day := BeforeFirst(iso, 'T');
    var name := "dream-journal-" + day + ".html";
    assert name[14..|name| - 5] == day;
    name
  }

  /** An ISO timestamp's day part names the file. */
  lemma DownloadNameOfTimestamp(day: string, time: string)
    requires 'T' !in day
    ensures DownloadName(day + "T" + time) == "dream-journal-" + day + ".html"
  {
    BeforeFirstOfJoin(day, time);
  }

  lemma {:induction false} BeforeFirstOfJoin(day: string, time: string)
    requires 'T' !in day
    ensures BeforeFirst(day + "T" + time, 'T') == day
  {
    if day != [] {
      assert (day + "T" + time)[1..] == day[1..] + "T" + time;
      BeforeFirstOfJoin(day[1..], time);
    }
  }

  /** `generatePDF`: nothing happens without an interpretation; otherwise the
      page is filled in and offered for download under the day of its
      creation time, unless that time is no valid date. `localDate` is the
      `toLocaleDateString` text, `iso` the `toISOString` text. */
  function GeneratePdf(dream: Dream, localDate: string, iso: Option<string>, esc: string -> string): (r: Export)
    ensures dream.interpretation.None? <==> r == NothingToExport
    ensures dream.interpretation.Some? && iso.None? <==> r == InvalidDate
    ensures r.Download? ==>
              dream.interpretation.Some? && iso.Some? &&
              r.fileName == DownloadName(iso.value) &&
              r.page == RenderPage(dream.interpretation.value, dream.dreamText, localDate, esc)
  {
    if dream.interpretation.None? then NothingToExport
    else if iso.None? then InvalidDate
    else Download(DownloadName(iso.value), RenderPage(dream.interpretation.value, dream.dreamText, localDate, esc))
  }
}
