# Dream interpretation core, modelled in Dafny

This project models the core of a dream-journal application. The first part
is the `interpret-dream` edge function. It receives a dream text and asks a
hosted chat model for a structured interpretation: a summary, themes,
symbols, emotions, insights and a lucid-dream potential. It strips the
Markdown code fences from the reply and derives the chart series
("visual data") from the interpretation. When the model cannot be used, it
serves a fixed fallback interpretation instead. The second part is the
browser-side exporter, which turns a stored dream into a downloadable HTML
page.

Modules, one per concern of the source:

- `Wrappers` defines `Option`.
- `JsText` holds the JavaScript string operations the source relies on:
  - `trim` and the ECMAScript whitespace set;
  - ASCII `toLowerCase`;
  - `includes`;
  - decimal rendering of integers;
  - `split(sep)[0]`;
  - template-literal interpolation.
- `Palette` is the keyword-to-colour scan that both colour functions share:
  the first key, in listed order, that the lower-cased name contains.
- `DreamTypes` defines the interpretation and visual-data records, and the
  shape the prompt asks for (`WellFormed`).
- `ThemeColor` covers `hashString`, which uses 32-bit wrap-around exactly
  as ECMAScript `ToInt32` does, and `generateColorForTheme`.
- `CodeFence` covers the two regular-expression replacements and the trim
  applied to the model's reply.
- `VisualDeriver` covers `generateVisualData`. The random draws are a
  parameter `rand`. A marker keeps its angle as a fraction of a turn.
- `Fallback` covers `generateFallbackInterpretation`.
- `InterpretDream` is the request handler `Serve`. It is a method whose
  branches follow the source's early returns and its catch block.
- `PdfGenerator` covers `generateThemeColor`, the per-item markup of the
  exported page, the download name and the early exit of `generatePDF`.

Inputs taken from the environment are parameters:
- the request body, including whether it can be read a second time;
- the API key;
- the model endpoint, a function from the request to the reply;
- `JSON.parse` with its shape checks;
- `Math.random`;
- `escapeHtml`;
- the date texts.

## Model

| member | source | states |
|---|---|---|
| `InterpretDream.Serve` | supabase/functions/interpret-dream/index.ts:59-190 | A blank or missing dream text gives 400 "Dream text is required", and the model is not called. A missing key gives the fallback, and the model is not called. Otherwise the model is called. A non-ok reply gives the fallback. An ok reply whose de-fenced content parses gives 200 with that interpretation, its visual data and `usedFallback` false. Every throw ends in the catch block: the fallback if the body can be re-read, else 500 "Failed to process dream interpretation". Every 200 carries the visual data of its own interpretation. A response with `usedFallback` true carries the canned, well-formed interpretation. One with `usedFallback` false means the model was called. |
| `InterpretDream.BuildPrompt` | supabase/functions/interpret-dream/index.ts:87-107 | The dream text appears verbatim in the prompt. |
| `InterpretDream.BuildModelRequest` | supabase/functions/interpret-dream/index.ts:109-130 | The request goes to the Groq endpoint with a bearer header. It has a system message and then a user message that contains the dream text, temperature 0.7 and at most 2000 tokens. |
| `InterpretDream.IsBlankField` | supabase/functions/interpret-dream/index.ts:62 | A predicate with no contract of its own. `Serve`'s first ensures states its effect, the 400 reply. `BlankFieldTrimsToEmpty` ties it to `trim`. |
| `InterpretDream.BlankFieldTrimsToEmpty` | supabase/functions/interpret-dream/index.ts:62 | A text field counts as blank exactly when trimming it leaves nothing. |
| `InterpretDream.KeyMissing` | supabase/functions/interpret-dream/index.ts:72 | A predicate with no contract of its own: the key is unset or empty. `Serve`'s ensures state its effect, the fallback without a model call. |
| `InterpretDream.FallbackResponse` | supabase/functions/interpret-dream/index.ts:72-85 | No contract of its own: the 200 reply with the canned interpretation, its visual data and `usedFallback` true, also sent at index.ts:132-146. `Serve`'s ensures state when it is sent and `Fallback.GenerateFallbackInterpretation` what it holds. |
| `InterpretDream.Recovered` | supabase/functions/interpret-dream/index.ts:163-189 | No contract of its own: the catch block's reply, the fallback when the body can be read again, else 500. `Serve`'s ensures state it for every throw. |
| `CodeFence.StripFenced` | supabase/functions/interpret-dream/index.ts:151 | De-fencing "```json\n" + s + "\n```" gives `s` trimmed, for any backtick-free `s`. |
| `CodeFence.StripPlain` | supabase/functions/interpret-dream/index.ts:151 | Backtick-free content is only trimmed. |
| `CodeFence.FenceIsTransparent` | supabase/functions/interpret-dream/index.ts:151 | A fenced reply and the bare reply reach `JSON.parse` as the same text. |
| `CodeFence.RemoveMarkerKeepsPrefix` | supabase/functions/interpret-dream/index.ts:151 | A backtick-free prefix passes through either replacement unchanged. |
| `CodeFence.RemoveMarker` | supabase/functions/interpret-dream/index.ts:151 | A global replace of a marker and an optional line feed never lengthens the text. |
| `CodeFence.StripFences` | supabase/functions/interpret-dream/index.ts:151 | The cleaned reply is no longer than the reply and has no whitespace at either end. `StripPlain` and `StripFenced` give its value on plain and fenced replies. |
| `JsText.Trim` | supabase/functions/interpret-dream/index.ts:62 | The result is a contiguous stretch of the input with only ECMAScript whitespace before and after it, and no whitespace at either of its ends. It is empty exactly when the input is all whitespace. |
| `JsText.TrimStart` | supabase/functions/interpret-dream/index.ts:62 | Only the leading whitespace is removed, and the result is a suffix of the input. |
| `JsText.TrimEnd` | supabase/functions/interpret-dream/index.ts:62 | Only the trailing whitespace is removed, and the result is a prefix of the input. |
| `JsText.TrimIgnoresTrailingWhitespace` | supabase/functions/interpret-dream/index.ts:151 | Appending one whitespace character does not change the trimmed text. |
| `JsText.ToLower` | supabase/functions/interpret-dream/index.ts:239 | Same length, each character lower-cased, and no upper-case ASCII letter left. |
| `JsText.Includes` | supabase/functions/interpret-dream/index.ts:241 | True exactly when the key occurs at some offset. |
| `JsText.MissingCharExcludes` | supabase/functions/interpret-dream/index.ts:241 | A key holding a character the text lacks does not occur in the text. |
| `JsText.NatToDecimal` | supabase/functions/interpret-dream/index.ts:245 | Non-empty, digits only, no leading zero. |
| `JsText.DecimalRoundTrip` | supabase/functions/interpret-dream/index.ts:245 | Reading the rendered digits back gives the number. |
| `JsText.IntToDecimal` | src/lib/pdfGenerator.ts:221 | A minus sign appears exactly for negative numbers. The digits after it, or the whole text for a non-negative number, denote the number's magnitude and have no leading zero, except for "0" itself. The text holds no '<'. |
| `JsText.BeforeFirst` | src/lib/pdfGenerator.ts:280 | The result is the longest prefix without the separator. |
| `JsText.Interpolate` | src/lib/pdfGenerator.ts:216-259 | A template literal opens with its first part and first value, and closes with its last part. Each value `i` occurs in it between literal parts `i` and `i + 1`. |
| `Palette.FirstMatchFrom` | supabase/functions/interpret-dream/index.ts:240-242 | The index found is a hit with no hit before it. No index means no entry hits. |
| `Palette.FirstMatch` | supabase/functions/interpret-dream/index.ts:240-242 | No contract of its own: the scan from the first entry of the table, also at pdfGenerator.ts:307-310. `FirstMatchFrom` states what it finds and `FirstHitIsFirstMatch` the converse. |
| `Palette.FirstHitIsFirstMatch` | supabase/functions/interpret-dream/index.ts:240-242 | A hit with no earlier hit is the one the scan returns. |
| `Palette.PickColor` | src/lib/pdfGenerator.ts:307-312 | The result is the colour of the first entry hit, or the default when none hits, so it is always the default or a palette colour. |
| `ThemeColor.ToInt32` | supabase/functions/interpret-dream/index.ts:251-252 | The result is a signed 32-bit value congruent to the input modulo 2^32. |
| `ThemeColor.ToInt32Congruent` | supabase/functions/interpret-dream/index.ts:251-252 | Congruent inputs give the same 32-bit value. |
| `ThemeColor.ToInt32OfInt32` | supabase/functions/interpret-dream/index.ts:252 | `hash & hash` leaves a 32-bit value unchanged. |
| `ThemeColor.ShiftLeft5` | supabase/functions/interpret-dream/index.ts:251 | `h << 5` is a signed 32-bit value congruent to `32 * h` modulo 2^32. |
| `ThemeColor.HashStep` | supabase/functions/interpret-dream/index.ts:251-252 | One round is a signed 32-bit value congruent to `31 * h + c` modulo 2^32, for any `h`. |
| `ThemeColor.Hash` | supabase/functions/interpret-dream/index.ts:248-255 | Every hash is a signed 32-bit value. |
| `ThemeColor.HashStepIsWrappedAffine` | supabase/functions/interpret-dream/index.ts:251-252 | One round `((h << 5) - h) + c`, then `& hash`, equals `int32(31 * h + c)`. |
| `ThemeColor.HashAppend` | supabase/functions/interpret-dream/index.ts:248-255 | The empty string hashes to 0. Appending `c` maps hash `h` to `int32(31 * h + c)`. |
| `ThemeColor.HashString` | supabase/functions/interpret-dream/index.ts:248-255 | The loop computes `Hash(str)`, a 32-bit value. |
| `ThemeColor.Hue` | supabase/functions/interpret-dream/index.ts:244 | The hue lies in 0..359. |
| `ThemeColor.Hsl` | supabase/functions/interpret-dream/index.ts:245 | The text is "hsl(", then digits that denote the hue with no leading zero (the hue 0 is "0"), then ", 70%, 60%)". |
| `ThemeColor.ThemeColorOf` | supabase/functions/interpret-dream/index.ts:225-246 | The colour of the first keyword, in listed order, contained in the lower-cased name. When none is contained, `hsl(<hue of the hash>, 70%, 60%)`. |
| `ThemeColor.GenerateColorForTheme` | supabase/functions/interpret-dream/index.ts:225-246 | The loop with its early return computes `ThemeColorOf`. |
| `ThemeColor.FearLeads` | supabase/functions/interpret-dream/index.ts:227-241 | A name whose lower-cased form starts with "fear" and has no 'v' gets "#4A148C". |
| `ThemeColor.FearIsFirstHit` | supabase/functions/interpret-dream/index.ts:227-241 | Lower-cased text starting with "fear" and without 'v' stops the scan at the second entry. |
| `ThemeColor.FearfulEncounterIsFear` | supabase/functions/interpret-dream/index.ts:227-241 | "Fearful Encounter" gets "#4A148C". |
| `ThemeColor.UnmatchedTakesHue` | supabase/functions/interpret-dream/index.ts:243-245 | A name no keyword matches gets its hash hue. |
| `ThemeColor.MatchedColor` | supabase/functions/interpret-dream/index.ts:240-241 | When the scan stops at entry `i`, the colour is that entry's colour. |
| `ThemeColor.AbsentLetter` | supabase/functions/interpret-dream/index.ts:239 | A letter absent in both cases is absent from the lower-cased name. |
| `ThemeColor.NoKeyWithout` | supabase/functions/interpret-dream/index.ts:226-242 | Text lacking one letter of each keyword makes the scan find nothing. |
| `ThemeColor.ExplorationIsUnmatched` | supabase/functions/interpret-dream/index.ts:225-246 | "Exploration" matches no keyword and gets its hash hue. |
| `ThemeColor.EmotionIsUnmatched` | supabase/functions/interpret-dream/index.ts:225-246 | "Emotion" matches no keyword and gets its hash hue. |
| `ThemeColor.TransformationLeads` | supabase/functions/interpret-dream/index.ts:227-241 | Lower-cased text starting with "transformation", without 'v' or 'e', stops the scan at the fourth entry. |
| `ThemeColor.TransformationFirst` | supabase/functions/interpret-dream/index.ts:227-241 | A name whose lower-cased form starts with "transformation" and has no 'v' or 'e' in either case gets "#26A69A". |
| `ThemeColor.TransformationIsMatched` | supabase/functions/interpret-dream/index.ts:225-246 | "Transformation" gets "#26A69A". |
| `VisualDeriver.GenerateVisualData` | supabase/functions/interpret-dream/index.ts:192-223 | There is one theme bar per theme, carrying its name, intensity and theme colour. There is one emotion bar per emotion, carrying its name, intensity and colour. There is one marker per symbol, carrying its name and colour. All three keep source order, and the score is the lucid-dream potential. |
| `VisualDeriver.SymbolMarkOf` | supabase/functions/interpret-dream/index.ts:205-215 | Marker `i` of `n` carries the symbol's name and colour and sits at `i / n` of a turn, in [0, 1). For draws in [0, 1), its radius lies in [40, 60) and its size in [20, 50), in exact reals. |
| `VisualDeriver.SymbolLayout` | supabase/functions/interpret-dream/index.ts:205-215 | With draws in [0, 1) and exact real arithmetic, radii lie in [40, 60) and sizes in [20, 50). Marker `i` of `n` sits at `i / n` of a turn, and the angles strictly increase. |
| `VisualDeriver.RandomnessOnlyMovesMarkers` | supabase/functions/interpret-dream/index.ts:192-223 | Two draw streams give the same theme and emotion series, the same score, and the same marker symbols, colours and angles. |
| `Fallback.GenerateFallbackInterpretation` | supabase/functions/interpret-dream/index.ts:257-287 | 3 themes, 5 symbols, 3 emotions, 3 insights and potential 65. The result is well formed, and its visual data is derived from that very interpretation. |
| `Fallback.CannedIsWellFormed` | supabase/functions/interpret-dream/index.ts:258-283 | The canned interpretation meets the counts and ranges the prompt asks for. |
| `Fallback.FallbackIgnoresText` | supabase/functions/interpret-dream/index.ts:257-287 | The fallback does not depend on the dream text. |
| `Fallback.FallbackVisuals` | supabase/functions/interpret-dream/index.ts:257-287 | 3 theme bars, 3 emotion bars, 5 markers and score 65. "Exploration" and "Emotion" get hash hues, and "Transformation" gets "#26A69A". |
| `PdfGenerator.GenerateThemeColor` | src/lib/pdfGenerator.ts:293-313 | The loop with its early return computes `ExportThemeColor`. |
| `PdfGenerator.ExportThemeColor` | src/lib/pdfGenerator.ts:293-313 | The colour of the first keyword, in listed order, contained in the lower-cased name. When none is contained, "#667eea". |
| `PdfGenerator.FirstKeywordWins` | src/lib/pdfGenerator.ts:307-310 | The colour of the first keyword contained in the lower-cased name wins. |
| `PdfGenerator.NoKeywordGivesDefault` | src/lib/pdfGenerator.ts:312 | With no keyword contained, the colour is "#667eea". |
| `PdfGenerator.ExportColorIsFixed` | src/lib/pdfGenerator.ts:294-312 | The colour is always one of 11 fixed strings. |
| `PdfGenerator.SamePalette` | src/lib/pdfGenerator.ts:294-305 | The exporter's table equals the edge function's table. |
| `PdfGenerator.AgreesWithEdgeFunction` | src/lib/pdfGenerator.ts:293-313 | When some keyword matches, the exporter's colour equals `generateColorForTheme`'s. |
| `PdfGenerator.FearLeadsExport` | src/lib/pdfGenerator.ts:294-310 | Lower-cased text starting with "fear" and without 'd' stops the scan at "fear". |
| `PdfGenerator.FearfulLoveIsFear` | src/lib/pdfGenerator.ts:294-310 | "Fearful Love" gets "#4A148C", because "fear" is listed before "love". |
| `PdfGenerator.JoinMap` | src/lib/pdfGenerator.ts:216-259 | No contract of its own: `items.map(render).join('')`. `JoinMapAppend`, `ItemInPlace` and `EveryItemIncluded` state its behaviour. |
| `PdfGenerator.JoinMapAppend` | src/lib/pdfGenerator.ts:216-259 | `map(...).join('')` over a concatenation is the concatenation of the markups. |
| `PdfGenerator.ItemInPlace` | src/lib/pdfGenerator.ts:216-259 | Item `i`'s markup follows that of the items before it and precedes that of the items after it. |
| `PdfGenerator.EveryItemIncluded` | src/lib/pdfGenerator.ts:216-259 | The markup of every item occurs in the joined markup. |
| `PdfGenerator.ThemeCard` | src/lib/pdfGenerator.ts:216-224 | A card opens bordered in the theme's export colour, ends with the card's closing markup, and holds the escaped name and description. |
| `PdfGenerator.SymbolItem` | src/lib/pdfGenerator.ts:231-236 | A `<li>` opens bordered in the symbol's colour, ends with its closing markup, and holds the escaped name and meaning. |
| `PdfGenerator.EmotionCard` | src/lib/pdfGenerator.ts:243-250 | A card opens bordered in the emotion's colour, ends with the card's closing markup, and holds the escaped name. |
| `PdfGenerator.InsightItem` | src/lib/pdfGenerator.ts:257-259 | The escaped insight sits between the `<li>` and `</li>` markup. |
| `PdfGenerator.ThemeCardSlots` | src/lib/pdfGenerator.ts:216-224 | In a theme card, the escaped name sits in the `<h3>`, the escaped description in the `<p>`, and the intensity as the bar's width. |
| `PdfGenerator.SymbolItemSlots` | src/lib/pdfGenerator.ts:231-236 | In a symbol item, the escaped name sits in the name block and the escaped meaning in the meaning block. |
| `PdfGenerator.EmotionCardSlots` | src/lib/pdfGenerator.ts:243-250 | In an emotion card, the escaped name sits in the `<h3>`, the intensity as the bar's width, and the colour as the bar's background. |
| `PdfGenerator.RenderPage` | src/lib/pdfGenerator.ts:205-265 | The page carries the date text as given, the escaped dream text and summary, and empty sections for empty lists. The score is `IntToDecimal` of the lucid-dream potential, for any integer, so a non-negative score is the digits of its value. `PageItemsInPlace` places each item's markup. |
| `PdfGenerator.PageItemsInPlace` | src/lib/pdfGenerator.ts:216-260 | On the page, each theme, symbol, emotion and insight has its own element, in source order. |
| `PdfGenerator.DownloadName` | src/lib/pdfGenerator.ts:280 | The name is "dream-journal-" + day + ".html". The day is the longest prefix of the ISO text without a 'T', and the text continues with 'T' after it when it is longer. |
| `PdfGenerator.DownloadNameOfTimestamp` | src/lib/pdfGenerator.ts:280 | For `day + "T" + time` with a 'T'-free day, the name is "dream-journal-" + day + ".html". |
| `PdfGenerator.GeneratePdf` | src/lib/pdfGenerator.ts:3-285 | Without an interpretation nothing is exported. An invalid creation time throws at the file name. Otherwise the page is rendered and offered under `DownloadName`. |

## Left out

- The `OPTIONS` pre-flight branch, the CORS headers and the `Content-Type` header are not modelled. The same goes for `console.error` and `JSON.stringify` of the response. The model's response is the status plus the payload as a value.
- The model endpoint, `response.json()` and `JSON.parse` are opaque functions. The model does not check that a parsed reply is `WellFormed`, because the source does not check it either.
- `Serve`: the source calls `generateFallbackInterpretation` twice when the key is missing, drawing fresh random numbers for the second call. The model uses one draw stream for both, so the `interpretation` and the `visualData` come from the same call.
- `Serve`: whether the catch block can read the request body a second time depends on the runtime. The model takes it as an input (`reread`) and does not decide it.
- `SymbolLayout`: radius and size are computed in exact reals. In IEEE doubles the largest draw `1 - 2^-52` makes `40 + r * 20` round to exactly 60, so the strict upper bound on the radius holds for the exact value only; the size bound is likewise stated for exact reals and not for rounded doubles. The markers' `x` and `y` (`50 + cos(angle) * radius`, `50 + sin(angle) * radius`) are floating point and are not modelled. A marker carries its angle as a fraction of a turn, together with its radius.
- `SymbolMarkOf`: its radius and size bounds are likewise stated for exact reals; the rounded double radius can reach 60.
- `ToLower`: lower-cases ASCII letters only. Outside ASCII, `toLowerCase` can change length ('İ' becomes "i̇"). No palette key ends in 'i' or contains 'k', so the non-ASCII mappings cannot create or destroy a key match. The hash always reads the name as written.
- `Hash`: characters are Unicode code points, not UTF-16 code units. Text outside the Basic Multilingual Plane is therefore hashed one step per code point, while `hashString` takes one step per surrogate; a theme name holding, say, an emoji gets a different hue in the model. Lengths and offsets of such text differ from JavaScript's in the same way.
- `IntToDecimal`: renders integers only. JavaScript's rendering of fractional or exponent-form numbers in the intensity fields is not modelled.
- `escapeHtml` relies on DOM serialisation and is a parameter. `toLocaleDateString` and `toISOString` are inputs. The Blob, the object URL and the anchor click are browser I/O and are not modelled.
- The fixed page markup and style sheet around the item sections (src/lib/pdfGenerator.ts:16-215, 261-274) are not reproduced. The page is modelled as the record of the texts interpolated into it.
- src/lib/dreamInterpreter.ts, src/lib/supabase.ts and the user interface are not part of this model.
