/** Removal of the Markdown code fences a chat model tends to wrap its JSON in:
    `content.replace(/```json\n?/g, '').replace(/```\n?/g, '').trim()`. */
module CodeFence {
  import opened JsText

  const JsonFence: string := "```json"
  const Fence: string := "```"

  /** `s.replace(/<marker>\n?/g, '')`: scanning left to right, every occurrence
      of `marker` is deleted together with one line feed right after it, if
      there is one; the scan resumes after what was deleted. */
  function RemoveMarker(s: string, marker: string): (r: string)
    requires marker != []
    ensures |r| <= |s|
    decreases |s|
  {
    if marker <= s then
      var rest := s[|marker|..];
      if rest != [] && rest[0] == '\n' then RemoveMarker(rest[1..], marker) else RemoveMarker(rest, marker)
    else if s == [] then []
    else [s[0]] + RemoveMarker(s[1..], marker)
  }

  /** The cleaned content handed to `JSON.parse`: no longer than the reply,
      with no white space at either end. */
  function StripFences(content: string): (r: string)
    ensures |r| <= |content|
    ensures r == [] || (!IsWhitespace(r[0]) && !IsWhitespace(r[|r| - 1]))
  {
    Trim(RemoveMarker(RemoveMarker(content, JsonFence), Fence))
  }

  /** A reply wrapped the way models wrap JSON: an opening "```json" line and
      a closing "```" line. */
  function Fenced(s: string): string {
    JsonFence + "\n" + s + "\n" + Fence
  }

  predicate BacktickFree(s: string) {
    '`' !in s
  }

  /** A marker starting with a backtick never occurs in text without one, so a
      backtick-free prefix passes through the scan untouched. */
  lemma {:induction false} RemoveMarkerKeepsPrefix(p: string, t: string, marker: string)
    requires marker != [] && marker[0] == '`' && BacktickFree(p)
    ensures RemoveMarker(p + t, marker) == p + RemoveMarker(t, marker)
    decreases |p|
  {
    if p != [] {
      assert !(marker <= p + t) by {
        assert (p + t)[0] == p[0] != '`';
      }
      assert (p + t)[1..] == p[1..] + t;
      RemoveMarkerKeepsPrefix(p[1..], t, marker);
      assert RemoveMarker(p + t, marker) == [p[0]] + RemoveMarker(p[1..] + t, marker);
      assert p == [p[0]] + p[1..];
    } else {
      assert p + t == t;
    }
  }

  /** Backtick-free text is left as it is by either replacement. */
  lemma RemoveMarkerKeepsPlain(s: string, marker: string)
    requires marker != [] && marker[0] == '`' && BacktickFree(s)
    ensures RemoveMarker(s, marker) == s
  {
    RemoveMarkerKeepsPrefix(s, [], marker);
    assert s + [] == s;
  }

  /** Content without backticks is only trimmed. */
  lemma StripPlain(s: string)
    requires BacktickFree(s)
    ensures StripFences(s) == Trim(s)
  {
    RemoveMarkerKeepsPlain(s, JsonFence);
    RemoveMarkerKeepsPlain(s, Fence);
  }

  /** Unwrapping a fenced reply yields the trimmed JSON inside it. */
  lemma StripFenced(s: string)
    requires BacktickFree(s)
    ensures StripFences(Fenced(s)) == Trim(s)
  {
    var tail := "\n" + Fence;
    // the first replacement deletes the opening marker and its line feed
    assert Fenced(s) == JsonFence + ("\n" + s + tail);
    assert JsonFence <= Fenced(s);
    assert Fenced(s)[|JsonFence|..] == "\n" + s + tail;
    assert ("\n" + s + tail)[1..] == s + tail;
    RemoveMarkerKeepsPrefix(s, tail, JsonFence);
    assert RemoveMarker(tail, JsonFence) == tail by {
      assert !(JsonFence <= tail);
      assert tail[1..] == Fence;
      assert !(JsonFence <= Fence);
      assert Fence[1..] == "``";
      assert !(JsonFence <= Fence[1..]);
      assert Fence[1..][1..] == "`";
      assert !(JsonFence <= Fence[1..][1..]);
      assert Fence[1..][1..][1..] == [];
    }
    var once := s + tail;
    assert RemoveMarker(Fenced(s), JsonFence) == once;
    // the second replacement deletes the closing marker
    assert once == (s + "\n") + Fence;
    RemoveMarkerKeepsPrefix(s + "\n", Fence, Fence);
    assert Fence[|Fence|..] == [];
    assert RemoveMarker(Fence, Fence) == [];
    assert RemoveMarker(once, Fence) == s + "\n";
    TrimIgnoresTrailingWhitespace(s, '\n');
  }

  /** A fenced reply parses exactly as the bare reply would. */
  lemma FenceIsTransparent(s: string)
    requires BacktickFree(s)
    ensures StripFences(Fenced(s)) == StripFences(s)
  {
    StripFenced(s);
    StripPlain(s);
  }
}
