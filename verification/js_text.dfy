/** The few JavaScript string operations the edge function and the exporter
    rely on: `trim`, `toLowerCase`, `includes`, number-to-string and
    `split(sep)[0]`. A `char` is one Unicode code point, so text outside the
    Basic Multilingual Plane counts one `char` per character, not per UTF-16
    code unit. */
module JsText {

  /** The characters `String.prototype.trim` removes: the white-space and
      line-terminator characters of ECMAScript. */
  predicate IsWhitespace(c: char) {
    c == '\t' || c == '\n' || c == '\U{000B}' || c == '\U{000C}' || c == '\r' || c == ' ' ||
    c == '\U{00A0}' || c == '\U{1680}' || ('\U{2000}' <= c <= '\U{200A}') ||
    c == '\U{2028}' || c == '\U{2029}' || c == '\U{202F}' || c == '\U{205F}' ||
    c == '\U{3000}' || c == '\U{FEFF}'
  }

  /** True when `s` holds nothing but white space (the empty string included). */
  predicate IsBlank(s: string) {
    forall i :: 0 <= i < |s| ==> IsWhitespace(s[i])
  }

  lemma BlankCons(s: string, k: nat)
    requires 0 < k <= |s| && IsWhitespace(s[0]) && IsBlank(s[1..][..k - 1])
    ensures IsBlank(s[..k])
  {
    forall i | 1 <= i < k ensures IsWhitespace(s[..k][i]) {
      assert s[..k][i] == s[1..][..k - 1][i - 1];
    }
  }

  lemma BlankSnoc(s: string, k: nat)
    requires k < |s| && IsWhitespace(s[|s| - 1]) && IsBlank(s[..|s| - 1][k..])
    ensures IsBlank(s[k..])
  {
    forall i | 0 <= i < |s| - 1 - k ensures IsWhitespace(s[k..][i]) {
      assert s[k..][i] == s[..|s| - 1][k..][i];
    }
  }

  /** `s` without its leading white space. */
  function TrimStart(s: string): (r: string)
    ensures |r| <= |s| && r == s[|s| - |r|..]
    ensures r == [] || !IsWhitespace(r[0])
    ensures IsBlank(s[..|s| - |r|])
  {
    if s != [] && IsWhitespace(s[0]) then
      var r := TrimStart(s[1..]);
      var k := |s| - |r|;
      assert s[1..][k - 1..] == s[k..];
      BlankCons(s, k);
      r
    else
      assert s[..0] == [] && s[0..] == s;
      s
  }

  /** `s` without its trailing white space. */
  function TrimEnd(s: string): (r: string)
    ensures |r| <= |s| && r == s[..|r|]
    ensures r == [] || !IsWhitespace(r[|r| - 1])
    ensures IsBlank(s[|r|..])
  {
    if s != [] && IsWhitespace(s[|s| - 1]) then
      var r := TrimEnd(s[..|s| - 1]);
      assert s[..|s| - 1][..|r|] == s[..|r|];
      BlankSnoc(s, |r|);
      r
    else
      assert s[|s|..] == [] && s[..|s|] == s;
      s
  }

  /** `r` is the stretch of `s` starting at `k`, with only white space before
      and after it. */
  predicate FramedAt(s: string, r: string, k: int) {
    0 <= k <= |s| - |r| && r == s[k..k + |r|] && IsBlank(s[..k]) && IsBlank(s[k + |r|..])
  }

  /** `s.trim()`: a stretch of `s` with only white space before and after it,
      neither end of which is white space; empty exactly when `s` is blank. */
  function Trim(s: string): (r: string)
    ensures exists k :: FramedAt(s, r, k)
    ensures r == [] || (!IsWhitespace(r[0]) && !IsWhitespace(r[|r| - 1]))
    ensures r == [] <==> IsBlank(s)
  {
    TrimIsSlice(s);
    TrimStartBlank(s);
    TrimEndBlank(TrimStart(s));
    TrimEnd(TrimStart(s))
  }

  /** Cutting white space off the front and then off the back leaves a
      stretch of the original framed by white space. */
  lemma TrimIsSlice(s: string)
    ensures exists k :: FramedAt(s, TrimEnd(TrimStart(s)), k)
  {
    var t := TrimStart(s);
    var r := TrimEnd(t);
    var k := |s| - |t|;
    assert IsBlank(s[..k]);
    assert r == s[k..k + |r|] by {
      assert r == t[..|r|] && t == s[k..];
    }
    assert IsBlank(s[k + |r|..]) by {
      assert IsBlank(t[|r|..]) && t == s[k..];
      assert s[k + |r|..] == t[|r|..];
    }
    assert FramedAt(s, r, k);
  }

  lemma TrimStartBlank(s: string)
    ensures TrimStart(s) == [] <==> IsBlank(s)
  {
    var t := TrimStart(s);
    if t == [] {
      assert s[..|s|] == s;
    } else {
      assert t[0] == s[|s| - |t|];
    }
  }

  lemma TrimEndBlank(t: string)
    ensures TrimEnd(t) == [] <==> IsBlank(t)
  {
    var r := TrimEnd(t);
    if r == [] {
      assert t[0..] == t;
    } else {
      assert r[|r| - 1] == t[|r| - 1];
    }
  }

  /** Appending one white-space character does not change what `trim` keeps. */
  lemma {:induction false} TrimIgnoresTrailingWhitespace(s: string, c: char)
    requires IsWhitespace(c)
    ensures Trim(s + [c]) == Trim(s)
  {
    TrimStartAppend(s, c);
    var t := TrimStart(s);
    if t == [] {
      assert TrimStart(s + [c]) == [];
    } else {
      assert TrimStart(s + [c]) == t + [c];
      assert (t + [c])[..|t + [c]| - 1] == t;
    }
  }

  lemma {:induction false} TrimStartAppend(s: string, c: char)
    requires IsWhitespace(c)
    ensures TrimStart(s + [c]) == if TrimStart(s) == [] then [] else TrimStart(s) + [c]
  {
    if s != [] {
      assert (s + [c])[1..] == s[1..] + [c];
      if IsWhitespace(s[0]) {
        TrimStartAppend(s[1..], c);
      }
    }
  }

  /** Lower-cases the ASCII letters A-Z and leaves every other character alone. */
  function LowerChar(c: char): (r: char)
    ensures 'A' <= c <= 'Z' ==> r as int == c as int + 32
    ensures !('A' <= c <= 'Z') ==> r == c
  {
    if 'A' <= c <= 'Z' then (c as int + 32) as char else c
  }

  /** `s.toLowerCase()` on the ASCII letters: same length, no upper-case ASCII
      letter left, every other character kept in place. */
  function ToLower(s: string): (r: string)
    ensures |r| == |s|
    ensures forall i :: 0 <= i < |s| ==> r[i] == LowerChar(s[i])
    ensures forall i :: 0 <= i < |r| ==> !('A' <= r[i] <= 'Z')
  {
    if s == [] then [] else [LowerChar(s[0])] + ToLower(s[1..])
  }

  /** `s.includes(key)`: `key` occurs in `s` at some position. */
  function Includes(s: string, key: string): (r: bool)
    ensures r <==> exists k :: 0 <= k <= |s| && key <= s[k..]
  {
    if key <= s then
      assert key <= s[0..];
      true
    else if s == [] then
      false
    else
      IncludesShift(s, key);
      Includes(s[1..], key)
  }

  /** An occurrence at a known offset. */
  lemma IncludesAt(s: string, key: string, k: nat)
    requires k <= |s| && key <= s[k..]
    ensures Includes(s, key)
  {
  }

  /** Text found in `s` is found in any extension of `s` on the left. */
  lemma {:induction false} IncludesExtend(pre: string, s: string, key: string)
    requires Includes(s, key)
    ensures Includes(pre + s, key)
  {
    var k :| 0 <= k <= |s| && key <= s[k..];
    assert (pre + s)[|pre| + k..] == s[k..];
    IncludesAt(pre + s, key, |pre| + k);
  }

  /** An occurrence past the first position of `s` is an occurrence in `s[1..]`. */
  lemma IncludesShift(s: string, key: string)
    requires s != [] && !(key <= s)
    ensures (exists k :: 0 <= k <= |s| && key <= s[k..]) <==>
            (exists k :: 0 <= k <= |s| - 1 && key <= s[1..][k..])
  {
    if k :| 0 <= k <= |s| && key <= s[k..] {
      assert k != 0;
      assert s[1..][k - 1..] == s[k..];
    }
    if k :| 0 <= k <= |s| - 1 && key <= s[1..][k..] {
      assert s[1..][k..] == s[k + 1..];
    }
  }

  /** A key holding a character that `s` lacks does not occur in `s`. */
  lemma MissingCharExcludes(s: string, key: string, c: char)
    requires c in key && c !in s
    ensures !Includes(s, key)
  {
  }

  function Digit(d: nat): (c: char)
    requires d < 10
    ensures '0' <= c <= '9' && c as int - '0' as int == d
  {
    ('0' as int + d) as char
  }

  predicate IsDigits(s: string) {
    forall i :: 0 <= i < |s| ==> '0' <= s[i] <= '9'
  }

  /** The decimal numeral an integral JavaScript number prints as: digits only,
      never empty, no leading zero. */
  function NatToDecimal(n: nat): (r: string)
    ensures r != [] && IsDigits(r)
    ensures r[0] == '0' ==> n == 0 && r == "0"
  {
    if n < 10 then [Digit(n)] else NatToDecimal(n / 10) + [Digit(n % 10)]
  }

  /** The number a string of digits denotes. */
  function DecimalValue(s: string): nat
    requires IsDigits(s)
  {
    if s == [] then 0 else DecimalValue(s[..|s| - 1]) * 10 + (s[|s| - 1] as int - '0' as int)
  }

  /** Printing a number and reading it back gives the number. */
  lemma {:induction false} DecimalRoundTrip(n: nat)
    ensures DecimalValue(NatToDecimal(n)) == n
  {
    if n >= 10 {
      DecimalRoundTrip(n / 10);
      var r := NatToDecimal(n);
      assert r[..|r| - 1] == NatToDecimal(n / 10);
    }
  }

  /** `String(i)` for an integral number: a minus sign before negative values,
      then the decimal digits of the magnitude without a leading zero; no '<'
      anywhere. */
  function IntToDecimal(i: int): (r: string)
    ensures r != []
    ensures i < 0 <==> r[0] == '-'
    ensures i >= 0 && r[0] == '0' ==> r == "0"
    ensures i < 0 ==> |r| >= 2 && r[1] != '0'
    ensures i >= 0 ==> IsDigits(r) && DecimalValue(r) == i
    ensures i < 0 ==> IsDigits(r[1..]) && DecimalValue(r[1..]) == -i
    ensures '<' !in r
  {
    if i < 0 then
      DecimalRoundTrip(-i);
      assert ("-" + NatToDecimal(-i))[1..] == NatToDecimal(-i);
      "-" + NatToDecimal(-i)
    else
      DecimalRoundTrip(i);
      NatToDecimal(i)
  }

  /** `s.split(sep)[0]`: the part of `s` before the first `sep`, or all of `s`
      when `sep` does not occur. */
  function BeforeFirst(s: string, sep: char): (r: string)
    ensures r <= s && sep !in r
    ensures |r| < |s| ==> s[|r|] == sep
  {
    if s == [] || s[0] == sep then [] else [s[0]] + BeforeFirst(s[1..], sep)
  }

  /** In `r`, value `i` of a template sits between the literal parts around it. */
  predicate InSlot(r: string, parts: seq<string>, values: seq<string>, i: nat)
    requires i < |values| && i + 1 < |parts|
  {
    Includes(r, parts[i] + values[i] + parts[i + 1])
  }

  /** Putting `parts[0] + values[0]` in front of `rest`, where `rest` opens
      with `parts[1]`, holds the other values each between its two parts and
      ends with the last part, gives text of the same kind for all values. */
  lemma PrependKeeps(parts: seq<string>, values: seq<string>, rest: string)
    requires |parts| == |values| + 1 && |values| > 0
    requires parts[1..][0] <= rest
    requires forall j :: 0 <= j < |values[1..]| ==> Includes(rest, values[1..][j])
    requires forall j :: 0 <= j < |values[1..]| ==> InSlot(rest, parts[1..], values[1..], j)
    requires var last := parts[1..][|values[1..]|];
             |last| <= |rest| && rest[|rest| - |last|..] == last
    ensures var r := parts[0] + values[0] + rest;
            parts[0] <= r && parts[0] + values[0] <= r &&
            (forall i :: 0 <= i < |values| ==> Includes(r, values[i])) &&
            (forall i :: 0 <= i < |values| ==> InSlot(r, parts, values, i)) &&
            |parts[|values|]| <= |r| && r[|r| - |parts[|values|]|..] == parts[|values|]
  {
    var head := parts[0] + values[0];
    var r := head + rest;
    forall i | 0 <= i < |values|
      ensures Includes(r, values[i]) && InSlot(r, parts, values, i)
    {
      if i == 0 {
        assert values[0] <= r[|parts[0]|..];
        IncludesAt(r, values[0], |parts[0]|);
        assert parts[0] + values[0] + parts[1] <= r[0..];
        IncludesAt(r, parts[0] + values[0] + parts[1], 0);
      } else {
        assert values[i] == values[1..][i - 1] && parts[i] == parts[1..][i - 1] && parts[i + 1] == parts[1..][i];
        assert InSlot(rest, parts[1..], values[1..], i - 1);
        IncludesExtend(head, rest, values[i]);
        IncludesExtend(head, rest, parts[i] + values[i] + parts[i + 1]);
      }
    }
    var last := parts[|values|];
    assert parts[1..][|values[1..]|] == last;
    assert r[|r| - |last|..] == rest[|rest| - |last|..];
  }

  /** A template literal `parts[0]${values[0]}parts[1]…${values[n-1]}parts[n]`:
      it opens with the first literal part and the first value, closes with
      the last part, and holds every value between the two parts around it. */
  function Interpolate(parts: seq<string>, values: seq<string>): (r: string)
    requires |parts| == |values| + 1
    ensures parts[0] <= r
    ensures |values| > 0 ==> parts[0] + values[0] <= r
    ensures |values| == 0 ==> r == parts[0]
    ensures |parts[|values|]| <= |r| && r[|r| - |parts[|values|]|..] == parts[|values|]
    ensures forall i :: 0 <= i < |values| ==> Includes(r, values[i])
    ensures forall i :: 0 <= i < |values| ==> InSlot(r, parts, values, i)
    decreases |values|
  {
    if values == [] then parts[0]
    else
      var rest := Interpolate(parts[1..], values[1..]);
      PrependKeeps(parts, values, rest);
      parts[0] + values[0] + rest
  }
}
