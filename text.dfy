/** The few string operations of Python's `str` that the client uses. */
module Text {

  /** Python's `str.isspace()` for one character: the characters `str.strip()`
      removes when called without arguments. */
  predicate IsSpace(c: char) {
    || ('\t' <= c <= '\r')
    || ('\U{1C}' <= c <= ' ')
    || c == '\U{85}' || c == '\U{A0}' || c == '\U{1680}'
    || ('\U{2000}' <= c <= '\U{200A}')
    || c == '\U{2028}' || c == '\U{2029}' || c == '\U{202F}' || c == '\U{205F}'
    || c == '\U{3000}'
  }

  predicate AllSpace(s: string) {
    forall i :: 0 <= i < |s| ==> IsSpace(s[i])
  }

  /** No whitespace at either end. */
  predicate Trimmed(s: string) {
    s == [] || (!IsSpace(s[0]) && !IsSpace(s[|s| - 1]))
  }

  function TrimStart(s: string): (r: string)
    ensures |r| <= |s|
    ensures r == [] || !IsSpace(r[0])
  {
    if |s| > 0 && IsSpace(s[0]) then TrimStart(s[1..]) else s
  }

  function TrimEnd(s: string): (r: string)
    ensures |r| <= |s|
    ensures r == [] || !IsSpace(r[|r| - 1])
  {
    if |s| > 0 && IsSpace(s[|s| - 1]) then TrimEnd(s[..|s| - 1]) else s
  }

  /** `TrimStart` cuts whitespace off the front and nothing else. */
  lemma {:induction false} TrimStartCuts(s: string)
    ensures var r := TrimStart(s);
            r == s[|s| - |r|..] && AllSpace(s[..|s| - |r|])
    decreases |s|
  {
    if |s| > 0 && IsSpace(s[0]) {
      var t := s[1..];
      var r := TrimStart(t);
      TrimStartCuts(t);
      assert TrimStart(s) == r;
      var m := |s| - |r|;
      assert 1 <= m <= |s|;
      assert t[m - 1..] == s[m..];
      forall i | 0 <= i < m
        ensures IsSpace(s[..m][i])
      {
        if i > 0 {
          assert s[..m][i] == t[..m - 1][i - 1];
        }
      }
    }
  }

  /** `TrimEnd` cuts whitespace off the back and nothing else. */
  lemma {:induction false} TrimEndCuts(s: string)
    ensures var r := TrimEnd(s);
            r == s[..|r|] && AllSpace(s[|r|..])
    decreases |s|
  {
    if |s| > 0 && IsSpace(s[|s| - 1]) {
      TrimEndCuts(s[..|s| - 1]);
      var r := TrimEnd(s);
      assert s[|r|..] == s[..|s| - 1][|r|..] + [s[|s| - 1]];
    }
  }

  /** Python's `s.strip()`: the result is the part of `s` left once the
      whitespace at both ends is cut off. */
  function Strip(s: string): (r: string)
    ensures Trimmed(r) && |r| <= |s|
  {
    TrimEndCuts(TrimStart(s));
    TrimEnd(TrimStart(s))
  }

  /** What `Strip` removes is whitespace at the two ends. */
  lemma StripCutsSpace(s: string)
    ensures var r := Strip(s);
            exists i: nat :: i + |r| <= |s| && r == s[i..i + |r|]
                             && AllSpace(s[..i]) && AllSpace(s[i + |r|..])
  {
    var t := TrimStart(s);
    var r := TrimEnd(t);
    var i := |s| - |t|;
    TrimStartCuts(s);
    TrimEndCuts(t);
    assert r == s[i..i + |r|] by {
      assert t == s[i..];
    }
    assert s[i + |r|..] == t[|r|..];
  }

  lemma {:induction false} TrimStartOfTrimmed(s: string)
    requires s == [] || !IsSpace(s[0])
    ensures TrimStart(s) == s
  {
  }

  lemma {:induction false} TrimEndOfTrimmed(s: string)
    requires s == [] || !IsSpace(s[|s| - 1])
    ensures TrimEnd(s) == s
  {
  }

  /** Stripping twice is stripping once. */
  lemma StripIdempotent(s: string)
    ensures Strip(Strip(s)) == Strip(s)
  {
    var r := Strip(s);
    TrimStartOfTrimmed(r);
    TrimEndOfTrimmed(r);
  }

  lemma {:induction false} TrimStartOfPadded(a: string, w: string)
    requires AllSpace(a) && (w == [] || !IsSpace(w[0]))
    ensures TrimStart(a + w) == w
    decreases |a|
  {
    if a == [] {
      assert a + w == w;
      TrimStartOfTrimmed(w);
    } else {
      assert (a + w)[1..] == a[1..] + w;
      TrimStartOfPadded(a[1..], w);
    }
  }

  lemma {:induction false} TrimEndOfPadded(w: string, b: string)
    requires AllSpace(b) && (w == [] || !IsSpace(w[|w| - 1]))
    ensures TrimEnd(w + b) == w
    decreases |b|
  {
    if b == [] {
      assert w + b == w;
      TrimEndOfTrimmed(w);
    } else {
      assert (w + b)[..|w + b| - 1] == w + b[..|b| - 1];
      TrimEndOfPadded(w, b[..|b| - 1]);
    }
  }

  /** Stripping a word with no whitespace at its ends, padded with whitespace
      on both sides, gives the word. */
  lemma StripOfPadded(a: string, w: string, b: string)
    requires AllSpace(a) && AllSpace(b) && w != [] && Trimmed(w)
    ensures Strip(a + w + b) == w
  {
    assert a + w + b == a + (w + b);
    TrimStartOfPadded(a, w + b);
    TrimEndOfPadded(w, b);
  }

  /** Python's `str.lower()` on ASCII letters; other characters are kept. */
  function LowerChar(c: char): (r: char)
    ensures 'A' <= c <= 'Z' ==> r as int == c as int + 32
    ensures !('A' <= c <= 'Z') ==> r == c
  {
    if 'A' <= c <= 'Z' then (c as int + 32) as char else c
  }

  function Lower(s: string): (r: string)
    ensures |r| == |s|
    ensures forall i :: 0 <= i < |s| ==> r[i] == LowerChar(s[i])
  {
    seq(|s|, i requires 0 <= i < |s| => LowerChar(s[i]))
  }

  /** Python's `sep.join(parts)`. */
  function Join(parts: seq<string>, sep: string): string
    decreases |parts|
  {
    if |parts| == 0 then ""
    else if |parts| == 1 then parts[0]
    else parts[0] + sep + Join(parts[1..], sep)
  }

  /** The joined string starts with the first part and ends with the last. */
  lemma {:induction false} JoinEnds(parts: seq<string>, sep: string)
    requires |parts| >= 1
    ensures parts[0] <= Join(parts, sep)
    ensures var r, last := Join(parts, sep), parts[|parts| - 1];
            |last| <= |r| && r[|r| - |last|..] == last
    decreases |parts|
  {
    if |parts| > 1 {
      JoinEnds(parts[1..], sep);
      var r, rest := Join(parts, sep), Join(parts[1..], sep);
      assert r == (parts[0] + sep) + rest;
      assert r[|r| - |rest|..] == rest;
    }
  }

  /** Python's `s.split(sep)` for a one-character separator. */
  function Split(s: string, sep: char): (r: seq<string>)
    ensures |r| >= 1
    decreases |s|
  {
    if |s| == 0 then [""]
    else if s[0] == sep then [""] + Split(s[1..], sep)
    else
      var rest := Split(s[1..], sep);
      [[s[0]] + rest[0]] + rest[1..]
  }

  /** Splitting a word that holds no separator gives the word back alone. */
  lemma {:induction false} SplitWord(w: string, sep: char, tail: string)
    requires forall i :: 0 <= i < |w| ==> w[i] != sep
    ensures Split(w + tail, sep)[0] == w + Split(tail, sep)[0]
    ensures Split(w + tail, sep)[1..] == Split(tail, sep)[1..]
    decreases |w|
  {
    if |w| > 0 {
      assert (w + tail)[1..] == w[1..] + tail;
      SplitWord(w[1..], sep, tail);
      assert w == [w[0]] + w[1..];
    } else {
      assert w + tail == tail;
    }
  }

  /** The server splits the comma-joined `var` parameter back into the
      variable names: joining and splitting round-trip when no name holds the
      separator. */
  lemma {:induction false} SplitJoin(parts: seq<string>, sep: char)
    requires |parts| >= 1
    requires forall k, i :: 0 <= k < |parts| && 0 <= i < |parts[k]| ==> parts[k][i] != sep
    ensures Split(Join(parts, [sep]), sep) == parts
    decreases |parts|
  {
    if |parts| == 1 {
      SplitWord(parts[0], sep, "");
      assert parts[0] + "" == parts[0];
    } else {
      var rest := Join(parts[1..], [sep]);
      SplitJoin(parts[1..], sep);
      assert Join(parts, [sep]) == parts[0] + ([sep] + rest);
      SplitWord(parts[0], sep, [sep] + rest);
      assert ([sep] + rest)[1..] == rest;
      assert Split([sep] + rest, sep) == [""] + Split(rest, sep);
      var whole := Split(Join(parts, [sep]), sep);
      assert whole[0] == parts[0] + "" == parts[0];
      assert whole[1..] == parts[1..];
      assert whole == [whole[0]] + whole[1..];
      assert parts == [parts[0]] + parts[1..];
    }
  }
}
