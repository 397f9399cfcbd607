/**
 * String operations the campaign store and its views rely on, written out with the
 * character classes of JavaScript's regular expressions and `String.prototype.trim`.
 */
module Text {

  /** JavaScript's WhiteSpace and LineTerminator code points: what `\s` matches and `trim` removes. */
  predicate IsWhitespace(c: char) {
    || c == ' ' || c == '\t' || c == '\n' || c == '\r' || c == '\U{B}' || c == '\U{C}'
    || c == '\U{A0}' || c == '\U{1680}' || ('\U{2000}' <= c <= '\U{200A}')
    || c == '\U{2028}' || c == '\U{2029}' || c == '\U{202F}' || c == '\U{205F}'
    || c == '\U{3000}' || c == '\U{FEFF}'
  }

  /** The characters `.` does not match in a JavaScript regular expression. */
  predicate IsLineTerminator(c: char) {
    c == '\n' || c == '\r' || c == '\U{2028}' || c == '\U{2029}'
  }

  /** `\d`: an ASCII decimal digit. */
  predicate IsDigit(c: char) {
    '0' <= c <= '9'
  }

  predicate AllWhitespace(s: string) {
    forall i :: 0 <= i < |s| ==> IsWhitespace(s[i])
  }

  predicate StartsWith(s: string, prefix: string) {
    |prefix| <= |s| && s[..|prefix|] == prefix
  }

  predicate EndsWith(s: string, suffix: string) {
    |suffix| <= |s| && s[|s| - |suffix|..] == suffix
  }

  /** `s.includes(part)` */
  predicate Contains(s: string, part: string) {
    exists k | 0 <= k <= |s| - |part| :: OccursAt(s, part, k)
  }

  predicate OccursAt(s: string, part: string, k: int) {
    0 <= k && k + |part| <= |s| && s[k..k + |part|] == part
  }

  lemma ContainsSplice(a: string, part: string, b: string)
    ensures Contains(a + part + b, part)
  {
    var s := a + part + b;
    assert s[|a|..|a| + |part|] == part;
    assert OccursAt(s, part, |a|);
  }

  /** Text around an occurrence does not hide it. */
  lemma ContainsExtend(s: string, part: string, before: string, after: string)
    requires Contains(s, part)
    ensures Contains(before + s + after, part)
  {
    var k :| 0 <= k <= |s| - |part| && OccursAt(s, part, k);
    var t := before + s + after;
    forall j | 0 <= j < |part| ensures t[|before| + k + j] == part[j] {
      assert part[j] == s[k + j];
    }
    assert t[|before| + k..|before| + k + |part|] == part;
    assert OccursAt(t, part, |before| + k);
  }

  lemma ContainsAppend(s: string, part: string, after: string)
    requires Contains(s, part)
    ensures Contains(s + after, part)
  {
    ContainsExtend(s, part, "", after);
    assert "" + s + after == s + after;
  }

  lemma ContainsPrepend(s: string, part: string, before: string)
    requires Contains(s, part)
    ensures Contains(before + s, part)
  {
    ContainsExtend(s, part, before, "");
    assert before + s + "" == before + s;
  }

  /** `Contains` is transitive. */
  lemma ContainsTrans(s: string, t: string, u: string)
    requires Contains(s, t) && Contains(t, u)
    ensures Contains(s, u)
  {
    var k :| 0 <= k <= |s| - |t| && OccursAt(s, t, k);
    var m :| 0 <= m <= |t| - |u| && OccursAt(t, u, m);
    forall j | 0 <= j < |u| ensures s[k + m + j] == u[j] {
      assert u[j] == t[m + j] == s[k + m + j];
    }
    assert s[k + m..k + m + |u|] == u;
    assert OccursAt(s, u, k + m);
  }

  /** Cutting s at k and gluing the halves back gives s. */
  lemma Rejoin(s: string, k: nat)
    requires k <= |s|
    ensures s == s[..k] + s[k..]
  {
  }

  /** `s.trimStart()`: the suffix left after the leading whitespace. */
  function TrimStart(s: string): (r: string)
    ensures |r| <= |s| && r == s[|s| - |r|..]
    ensures forall i :: 0 <= i < |s| - |r| ==> IsWhitespace(s[i])
    ensures r == [] || !IsWhitespace(r[0])
    decreases |s|
  {
    if s != [] && IsWhitespace(s[0]) then TrimStart(s[1..]) else s
  }

  /** `s.trimEnd()`: the prefix left before the trailing whitespace. */
  function TrimEnd(s: string): (r: string)
    ensures |r| <= |s| && r == s[..|r|]
    ensures forall i :: |r| <= i < |s| ==> IsWhitespace(s[i])
    ensures r == [] || !IsWhitespace(r[|r| - 1])
    decreases |s|
  {
    if s != [] && IsWhitespace(s[|s| - 1]) then TrimEnd(s[..|s| - 1]) else s
  }

  /** r is s with its first i characters and its last |s| - i - |r| characters, all whitespace, cut off. */
  predicate StrippedAt(s: string, r: string, i: int) {
    && 0 <= i && i + |r| <= |s| && s[i..i + |r|] == r
    && AllWhitespace(s[..i]) && AllWhitespace(s[i + |r|..])
  }

  /** `s.trim()`: s with its leading and its trailing whitespace removed. */
  function Trim(s: string): (r: string)
    ensures r == [] || (!IsWhitespace(r[0]) && !IsWhitespace(r[|r| - 1]))
    ensures |r| <= |s| && exists i :: StrippedAt(s, r, i)
  {
    TrimStrips(s);
    TrimEnd(TrimStart(s))
  }

  /** Trimming cuts off exactly the leading whitespace TrimStart skips and the trailing whitespace TrimEnd skips. */
  lemma TrimStrips(s: string)
    ensures StrippedAt(s, TrimEnd(TrimStart(s)), |s| - |TrimStart(s)|)
  {
    var t := TrimStart(s);
    var r := TrimEnd(t);
    var i := |s| - |t|;
    assert s[i..] == t;
    assert s[i..i + |r|] == t[..|r|] == r;
    var pre, post := s[..i], s[i + |r|..];
    forall j | 0 <= j < |pre| ensures IsWhitespace(pre[j]) {
      assert pre[j] == s[j];
    }
    forall j | 0 <= j < |post| ensures IsWhitespace(post[j]) {
      assert post[j] == t[|r| + j];
    }
    assert AllWhitespace(pre) && AllWhitespace(post);
    assert StrippedAt(s, r, i);
  }

  /** A trimmed string is empty exactly when the original is all whitespace. */
  lemma TrimEmptyIff(s: string)
    ensures Trim(s) == [] <==> AllWhitespace(s)
  {
    var t := TrimStart(s);
    var off := |s| - |t|;
    if Trim(s) == [] {
      assert t == [];
    } else {
      assert !IsWhitespace(t[0]);
      assert s[off] == t[0];
    }
  }

  /** Trimming twice trims nothing more. */
  lemma TrimIdempotent(s: string)
    ensures Trim(Trim(s)) == Trim(s)
  {
    var t := Trim(s);
    assert TrimStart(t) == t;
  }

  function LowerChar(c: char): char {
    if 'A' <= c <= 'Z' then (c as int + 32) as char else c
  }

  /**
   * `s.toLowerCase()` restricted to ASCII letters: each upper-case letter becomes its
   * lower-case letter, every other character stays.
   */
  function ToLower(s: string): (r: string)
    ensures |r| == |s|
    ensures forall i :: 0 <= i < |s| ==> !('A' <= r[i] <= 'Z')
    ensures forall i :: 0 <= i < |s| && !('A' <= s[i] <= 'Z') ==> r[i] == s[i]
    ensures forall i :: 0 <= i < |s| && 'A' <= s[i] <= 'Z' ==> 'a' <= r[i] <= 'z' && r[i] as int - s[i] as int == 'a' as int - 'A' as int
  {
    seq(|s|, i requires 0 <= i < |s| => LowerChar(s[i]))
  }

  /** `s.slice(0, n)` */
  function Prefix(s: string, n: nat): (r: string)
    ensures |r| <= n && StartsWith(s, r)
    ensures |s| <= n ==> r == s
    ensures |s| > n ==> r == s[..n]
  {
    if |s| <= n then s else s[..n]
  }

  /** `parts.join(sep)`: the parts in order, with sep between neighbours. */
  function Join(parts: seq<string>, sep: string): string {
    if parts == [] then ""
    else if |parts| == 1 then parts[0]
    else parts[0] + sep + Join(parts[1..], sep)
  }

  /** A joined text starts with its first part and ends with its last. */
  lemma {:induction false} JoinEnds(parts: seq<string>, sep: string)
    requires parts != []
    ensures StartsWith(Join(parts, sep), parts[0])
    ensures EndsWith(Join(parts, sep), parts[|parts| - 1])
    decreases |parts|
  {
    if |parts| > 1 {
      JoinEnds(parts[1..], sep);
      var rest := Join(parts[1..], sep);
      var r := parts[0] + sep + rest;
      assert r[..|parts[0]|] == parts[0];
      assert r[|r| - |rest|..] == rest;
    }
  }

  /** Appending a part appends the separator and the part. */
  lemma {:induction false} JoinSnoc(parts: seq<string>, x: string, sep: string)
    requires parts != []
    ensures Join(parts + [x], sep) == Join(parts, sep) + sep + x
    decreases |parts|
  {
    if |parts| == 1 {
      assert (parts + [x])[1..] == [x];
    } else {
      JoinSnoc(parts[1..], x, sep);
      assert (parts + [x])[1..] == parts[1..] + [x];
    }
  }

  /** The separator classes the code splits on. */
  datatype Separator = LineBreak | Whitespace | CommaOrWhitespace

  /** `'\n'`, `/\s/` and `/[,\s]/` */
  predicate IsSeparator(k: Separator, c: char) {
    match k
    case LineBreak => c == '\n'
    case Whitespace => IsWhitespace(c)
    case CommaOrWhitespace => c == ',' || IsWhitespace(c)
  }

  /**
   * Cuts s at every separator character and keeps the empty pieces: JavaScript's
   * `s.split('\n')` for LineBreak.
   */
  function SplitAt(s: string, k: Separator): (parts: seq<string>)
    ensures |parts| >= 1
    ensures forall i, j :: 0 <= i < |parts| && 0 <= j < |parts[i]| ==> !IsSeparator(k, parts[i][j])
    decreases |s|
  {
    if s == [] then [""]
    else
      var rest := SplitAt(s[1..], k);
      if IsSeparator(k, s[0]) then [""] + rest
      else [[s[0]] + rest[0]] + rest[1..]
  }

  /** The number of separator characters in s. */
  function SeparatorCount(s: string, k: Separator): nat
    decreases |s|
  {
    if s == [] then 0 else (if IsSeparator(k, s[0]) then 1 else 0) + SeparatorCount(s[1..], k)
  }

  /** Every separator starts one more piece. */
  lemma {:induction false} SplitAtCount(s: string, k: Separator)
    ensures |SplitAt(s, k)| == SeparatorCount(s, k) + 1
    decreases |s|
  {
    if s != [] {
      SplitAtCount(s[1..], k);
    }
  }

  /** The first piece is empty exactly when s is empty or starts with a separator. */
  lemma SplitAtHeadEmpty(s: string, k: Separator)
    ensures SplitAt(s, k)[0] == "" <==> (s == [] || IsSeparator(k, s[0]))
  {
  }

  /** Splitting at a line break and joining with a line break gives back the text. */
  lemma {:induction false} SplitLinesJoin(s: string)
    ensures Join(SplitAt(s, LineBreak), "\n") == s
    decreases |s|
  {
    if s != [] {
      var rest := SplitAt(s[1..], LineBreak);
      SplitLinesJoin(s[1..]);
      if s[0] == '\n' {
        assert SplitAt(s, LineBreak) == [""] + rest;
        assert ([""] + rest)[1..] == rest;
        assert s == "" + "\n" + Join(rest, "\n");
      } else if |rest| == 1 {
        assert SplitAt(s, LineBreak) == [[s[0]] + rest[0]];
      } else {
        var parts := [[s[0]] + rest[0]] + rest[1..];
        assert parts[1..] == rest[1..];
        assert Join(rest, "\n") == rest[0] + "\n" + Join(rest[1..], "\n");
      }
    }
  }

  /** Splitting a text with no line break yields the text itself. */
  lemma {:induction false} SplitLinesSingle(s: string)
    requires '\n' !in s
    ensures SplitAt(s, LineBreak) == [s]
    decreases |s|
  {
    if s != [] {
      assert s[0] in s;
      assert forall c :: c in s[1..] ==> c in s;
      SplitLinesSingle(s[1..]);
      assert [s[0]] + s[1..] == s;
    }
  }

  /** Splitting a non-empty text unfolds at its first character. */
  lemma SplitAtStep(s: string, k: Separator)
    requires s != []
    ensures IsSeparator(k, s[0]) ==> SplitAt(s, k) == [""] + SplitAt(s[1..], k)
    ensures !IsSeparator(k, s[0]) ==>
      SplitAt(s, k) == [[s[0]] + SplitAt(s[1..], k)[0]] + SplitAt(s[1..], k)[1..]
  {
  }

  /** Putting a non-separator in front extends the first part of a list of parts. */
  lemma ConsFirstPart(c: char, ra: seq<string>, rb: seq<string>)
    requires ra != []
    ensures [[c] + (ra + rb)[0]] + (ra + rb)[1..] == ([[c] + ra[0]] + ra[1..]) + rb
  {
    assert (ra + rb)[0] == ra[0];
    assert (ra + rb)[1..] == ra[1..] + rb;
  }

  /** A line break in the middle splits the lines of both halves apart. */
  lemma {:induction false} SplitLinesConcat(a: string, b: string)
    ensures SplitAt(a + "\n" + b, LineBreak) == SplitAt(a, LineBreak) + SplitAt(b, LineBreak)
    decreases |a|
  {
    var s := a + "\n" + b;
    SplitAtStep(s, LineBreak);
    if a == [] {
      assert s[0] == '\n' && s[1..] == b;
    } else {
      assert s[0] == a[0] && s[1..] == a[1..] + "\n" + b;
      SplitLinesConcat(a[1..], b);
      SplitAtStep(a, LineBreak);
      var ra := SplitAt(a[1..], LineBreak);
      var rb := SplitAt(b, LineBreak);
      if a[0] == '\n' {
        assert [""] + (ra + rb) == ([""] + ra) + rb;
      } else {
        ConsFirstPart(a[0], ra, rb);
      }
    }
  }

  /** `.filter(Boolean)` on a list of strings: drops the empty ones. */
  function NonEmpty(parts: seq<string>): (r: seq<string>)
    ensures |r| <= |parts|
    ensures forall i :: 0 <= i < |r| ==> r[i] != "" && r[i] in parts
  {
    if parts == [] then []
    else if parts[0] == "" then NonEmpty(parts[1..])
    else [parts[0]] + NonEmpty(parts[1..])
  }

  /**
   * `s.split(/[...]+/).filter(Boolean)`: the maximal runs of non-separator characters.
   * Splitting at every single separator and dropping the empty pieces gives the same
   * list as splitting at runs of separators, since a run only adds empty pieces.
   */
  function Tokens(s: string, k: Separator): (r: seq<string>)
    ensures forall i :: 0 <= i < |r| ==> r[i] != ""
    ensures forall i, j :: 0 <= i < |r| && 0 <= j < |r[i]| ==> !IsSeparator(k, r[i][j])
  {
    var r := NonEmpty(SplitAt(s, k));
    assert forall i :: 0 <= i < |r| ==> r[i] in SplitAt(s, k);
    r
  }

  /** Position i ends a word: it holds no separator and the next one does (or there is none). */
  predicate EndsWordAt(s: string, k: Separator, i: int)
    requires 0 <= i < |s|
  {
    !IsSeparator(k, s[i]) && (i + 1 == |s| || IsSeparator(k, s[i + 1]))
  }

  /** The number of positions that end a word, counted from the front. */
  function WordEnds(s: string, k: Separator): nat
    decreases |s|
  {
    if s == [] then 0
    else (if EndsWordAt(s, k, 0) then 1 else 0) + WordEnds(s[1..], k)
  }

  /** s with every separator character removed. */
  function Kept(s: string, k: Separator): string
    decreases |s|
  {
    if s == [] then ""
    else if IsSeparator(k, s[0]) then Kept(s[1..], k)
    else [s[0]] + Kept(s[1..], k)
  }

  function Concat(parts: seq<string>): string {
    if parts == [] then "" else parts[0] + Concat(parts[1..])
  }

  /** Unfolding Tokens one character at a time. */
  lemma TokensStep(s: string, k: Separator)
    requires s != []
    ensures IsSeparator(k, s[0]) ==> Tokens(s, k) == Tokens(s[1..], k)
    ensures !IsSeparator(k, s[0]) ==>
      var r := SplitAt(s[1..], k);
      && Tokens(s, k) == [[s[0]] + r[0]] + NonEmpty(r[1..])
      && Tokens(s[1..], k) == (if r[0] == "" then [] else [r[0]]) + NonEmpty(r[1..])
  {
    var r := SplitAt(s[1..], k);
    if IsSeparator(k, s[0]) {
      assert SplitAt(s, k) == [""] + r;
      assert ([""] + r)[1..] == r;
    } else {
      var parts := [[s[0]] + r[0]] + r[1..];
      assert parts[1..] == r[1..];
      assert r == [r[0]] + r[1..];
    }
  }

  /** There are as many tokens as there are positions that end a word. */
  lemma {:induction false} TokensCount(s: string, k: Separator)
    ensures |Tokens(s, k)| == WordEnds(s, k)
    decreases |s|
  {
    if s != [] {
      TokensStep(s, k);
      TokensCount(s[1..], k);
      if !IsSeparator(k, s[0]) {
        SplitAtHeadEmpty(s[1..], k);
      }
    }
  }

  /** The tokens, laid end to end, are exactly the non-separator characters of s, in order. */
  lemma {:induction false} TokensConcat(s: string, k: Separator)
    ensures Concat(Tokens(s, k)) == Kept(s, k)
    decreases |s|
  {
    if s != [] {
      TokensStep(s, k);
      TokensConcat(s[1..], k);
      if !IsSeparator(k, s[0]) {
        var r := SplitAt(s[1..], k);
        var tail := NonEmpty(r[1..]);
        var head := [[s[0]] + r[0]];
        assert (head + tail)[1..] == tail;
        if r[0] != "" {
          assert ([r[0]] + tail)[1..] == tail;
        }
      }
    }
  }

  /** Nothing is kept exactly when every character is a separator. */
  lemma {:induction false} KeptEmptyIff(s: string, k: Separator)
    ensures Kept(s, k) == "" <==> forall i :: 0 <= i < |s| ==> IsSeparator(k, s[i])
    decreases |s|
  {
    if s != [] {
      KeptEmptyIff(s[1..], k);
      assert forall i :: 1 <= i < |s| ==> s[i] == s[1..][i - 1];
    }
  }

  lemma ConcatEmptyIff(parts: seq<string>)
    requires forall i :: 0 <= i < |parts| ==> parts[i] != ""
    ensures Concat(parts) == "" <==> parts == []
  {
    if parts != [] {
      assert |Concat(parts)| >= |parts[0]| > 0;
    }
  }

  /** `body.split(/\s+/).filter(Boolean).length`: one word per position where a word ends. */
  function WordCount(s: string): (n: nat)
    ensures n == WordEnds(s, Whitespace)
  {
    TokensCount(s, Whitespace);
    |Tokens(s, Whitespace)|
  }

  /** The word count is zero exactly when the text is blank. */
  lemma WordCountZeroIff(s: string)
    ensures WordCount(s) == 0 <==> Trim(s) == ""
  {
    TokensConcat(s, Whitespace);
    ConcatEmptyIff(Tokens(s, Whitespace));
    KeptEmptyIff(s, Whitespace);
    TrimEmptyIff(s);
  }

  /** `s.replace(/\s+/g, '_')`: each maximal run of whitespace becomes one underscore. */
  function ReplaceWhitespaceRuns(s: string): (r: string)
    ensures forall i :: 0 <= i < |r| ==> !IsWhitespace(r[i])
    ensures |r| <= |s|
    decreases |s|
  {
    if s == [] then ""
    else if IsWhitespace(s[0]) then "_" + ReplaceWhitespaceRuns(TrimStart(s))
    else [s[0]] + ReplaceWhitespaceRuns(s[1..])
  }

  /**
   * `s.split(/\s+/)`: the text between maximal whitespace runs. The first and the last
   * piece are empty when s starts or ends with whitespace; every other piece is not.
   */
  function Pieces(s: string): (p: seq<string>)
    ensures |p| >= 1
    ensures p[0] == "" <==> s == [] || IsWhitespace(s[0])
    decreases |s|
  {
    if s == [] then [""]
    else if IsWhitespace(s[0]) then [""] + Pieces(TrimStart(s))
    else
      var rest := Pieces(s[1..]);
      [[s[0]] + rest[0]] + rest[1..]
  }

  predicate NoWhitespace(x: string) {
    forall j :: 0 <= j < |x| ==> !IsWhitespace(x[j])
  }

  /** No piece holds whitespace, and only the first and the last piece can be empty. */
  lemma {:induction false} PiecesShape(s: string)
    ensures forall i :: 0 <= i < |Pieces(s)| ==> NoWhitespace(Pieces(s)[i])
    ensures forall i :: 0 < i < |Pieces(s)| - 1 ==> Pieces(s)[i] != ""
    decreases |s|
  {
    if s != [] {
      if IsWhitespace(s[0]) {
        var t := TrimStart(s);
        PiecesShape(t);
        var p := [""] + Pieces(t);
        assert Pieces(s) == p;
        assert forall i :: 0 < i < |p| ==> p[i] == Pieces(t)[i - 1];
      } else {
        PiecesShape(s[1..]);
        var rest := Pieces(s[1..]);
        var p := [[s[0]] + rest[0]] + rest[1..];
        assert Pieces(s) == p;
        assert forall i :: 0 < i < |p| ==> p[i] == rest[i];
        assert NoWhitespace(rest[0]);
        forall j | 0 <= j < |p[0]| ensures !IsWhitespace(p[0][j]) {
          if j > 0 {
            assert p[0][j] == rest[0][j - 1];
          }
        }
      }
    }
  }

  /** The maximal whitespace runs of s, in order. */
  function WhitespaceRuns(s: string): (w: seq<string>)
    ensures forall i :: 0 <= i < |w| ==> w[i] != "" && AllWhitespace(w[i])
    decreases |s|
  {
    if s == [] then []
    else if IsWhitespace(s[0]) then
      var t := TrimStart(s);
      [s[..|s| - |t|]] + WhitespaceRuns(t)
    else WhitespaceRuns(s[1..])
  }

  /** `p[0] + w[0] + p[1] + ... + w[n - 1] + p[n]` */
  function Interleave(p: seq<string>, w: seq<string>): string
    requires |p| == |w| + 1
    decreases |w|
  {
    if w == [] then p[0] else p[0] + w[0] + Interleave(p[1..], w[1..])
  }

  /** Widening the first piece widens the interleaved text at the front. */
  lemma InterleaveHead(x: string, p: seq<string>, w: seq<string>)
    requires |p| == |w| + 1
    ensures Interleave([x + p[0]] + p[1..], w) == x + Interleave(p, w)
  {
    var q := [x + p[0]] + p[1..];
    assert q[1..] == p[1..];
  }

  /** Putting the runs back between the pieces gives the text: the pieces cut s at its runs. */
  lemma {:induction false} PiecesRebuild(s: string)
    ensures |WhitespaceRuns(s)| == |Pieces(s)| - 1
    ensures Interleave(Pieces(s), WhitespaceRuns(s)) == s
    decreases |s|
  {
    if s != [] {
      if IsWhitespace(s[0]) {
        PiecesRebuild(TrimStart(s));
        RebuildAtRun(s);
      } else {
        PiecesRebuild(s[1..]);
        RebuildInPiece(s);
      }
    }
  }

  /** The step of `PiecesRebuild` at a leading whitespace run. */
  lemma RebuildAtRun(s: string)
    requires s != [] && IsWhitespace(s[0])
    requires |WhitespaceRuns(TrimStart(s))| == |Pieces(TrimStart(s))| - 1
    requires Interleave(Pieces(TrimStart(s)), WhitespaceRuns(TrimStart(s))) == TrimStart(s)
    ensures |WhitespaceRuns(s)| == |Pieces(s)| - 1
    ensures Interleave(Pieces(s), WhitespaceRuns(s)) == s
  {
    var t := TrimStart(s);
    var k := |s| - |t|;
    RebuildCompose(s, k, Pieces(t), WhitespaceRuns(t));
    assert Pieces(s) == [""] + Pieces(t);
    assert WhitespaceRuns(s) == [s[..k]] + WhitespaceRuns(t);
  }

  /** An empty piece, the run s[..k], then a cut of s[k..], rebuild s. */
  lemma RebuildCompose(s: string, k: nat, p: seq<string>, w: seq<string>)
    requires k <= |s| && |p| == |w| + 1
    requires Interleave(p, w) == s[k..]
    ensures Interleave([""] + p, [s[..k]] + w) == s
  {
    assert ([""] + p)[1..] == p;
    assert ([s[..k]] + w)[1..] == w;
    assert "" + s[..k] == s[..k];
    assert s[..k] + s[k..] == s;
  }

  /** The step of `PiecesRebuild` at a character that is not whitespace. */
  lemma RebuildInPiece(s: string)
    requires s != [] && !IsWhitespace(s[0])
    requires |WhitespaceRuns(s[1..])| == |Pieces(s[1..])| - 1
    requires Interleave(Pieces(s[1..]), WhitespaceRuns(s[1..])) == s[1..]
    ensures |WhitespaceRuns(s)| == |Pieces(s)| - 1
    ensures Interleave(Pieces(s), WhitespaceRuns(s)) == s
  {
    var p := Pieces(s[1..]);
    var w := WhitespaceRuns(s[1..]);
    assert Pieces(s) == [[s[0]] + p[0]] + p[1..];
    assert WhitespaceRuns(s) == w;
    InterleaveHead([s[0]], p, w);
    assert [s[0]] + s[1..] == s;
  }

  /** Whitespace followed by text that does not start with whitespace trims to that text. */
  lemma {:induction false} TrimStartRun(w: string, rest: string)
    requires AllWhitespace(w)
    requires rest == [] || !IsWhitespace(rest[0])
    ensures TrimStart(w + rest) == rest
    decreases |w|
  {
    if w != [] {
      assert (w + rest)[1..] == w[1..] + rest;
      TrimStartRun(w[1..], rest);
    } else {
      assert w + rest == rest;
    }
  }

  /** A whitespace run in front of a piece adds an empty first piece. */
  lemma PiecesAfterRun(w: string, rest: string)
    requires w != "" && AllWhitespace(w)
    requires rest == [] || !IsWhitespace(rest[0])
    ensures Pieces(w + rest) == [""] + Pieces(rest)
  {
    TrimStartRun(w, rest);
    assert (w + rest)[0] == w[0];
  }

  /** A whitespace-free prefix joins the first piece. */
  lemma {:induction false} PiecesPrefix(a: string, b: string)
    requires forall i :: 0 <= i < |a| ==> !IsWhitespace(a[i])
    ensures Pieces(a + b) == [a + Pieces(b)[0]] + Pieces(b)[1..]
    decreases |a|
  {
    if a == [] {
      assert a + b == b && a + Pieces(b)[0] == Pieces(b)[0];
      assert [Pieces(b)[0]] + Pieces(b)[1..] == Pieces(b);
    } else {
      var s := a + b;
      assert s[0] == a[0] && s[1..] == a[1..] + b;
      PiecesPrefix(a[1..], b);
      var r := Pieces(a[1..] + b);
      assert r[0] == a[1..] + Pieces(b)[0];
      assert r[1..] == Pieces(b)[1..];
      assert Pieces(s) == [[a[0]] + r[0]] + r[1..];
      assert [a[0]] + (a[1..] + Pieces(b)[0]) == a + Pieces(b)[0];
    }
  }

  /** p and w cut a text into whitespace-free pieces, non-empty inside, at non-empty whitespace runs. */
  predicate WellCut(p: seq<string>, w: seq<string>) {
    && |p| == |w| + 1
    && (forall i :: 0 <= i < |p| ==> NoWhitespace(p[i]))
    && (forall i :: 0 < i < |p| - 1 ==> p[i] != "")
    && (forall i :: 0 <= i < |w| ==> w[i] != "" && AllWhitespace(w[i]))
  }

  lemma WellCutTail(p: seq<string>, w: seq<string>)
    requires WellCut(p, w) && w != []
    ensures WellCut(p[1..], w[1..])
  {
    forall i | 0 <= i < |p[1..]| ensures NoWhitespace(p[1..][i]) {
      assert p[1..][i] == p[i + 1];
    }
    forall i | 0 < i < |p[1..]| - 1 ensures p[1..][i] != "" {
      assert p[1..][i] == p[i + 1];
    }
    forall i | 0 <= i < |w[1..]| ensures w[1..][i] != "" && AllWhitespace(w[1..][i]) {
      assert w[1..][i] == w[i + 1];
    }
  }

  /** After the first run, the text goes on with the second piece, which is not empty unless it is the last. */
  lemma AfterFirstRun(p: seq<string>, w: seq<string>)
    requires WellCut(p, w) && w != []
    ensures var rest := Interleave(p[1..], w[1..]); rest == [] || !IsWhitespace(rest[0])
  {
    var rest := Interleave(p[1..], w[1..]);
    if |w| > 1 {
      assert p[1] != "";
      assert p[1..][0] == p[1];
      assert rest == p[1] + w[1] + Interleave(p[2..], w[2..]) by {
        assert p[1..][1..] == p[2..] && w[1..][1..] == w[2..];
      }
      assert rest[0] == p[1][0];
    } else {
      assert rest == p[1];
      if rest != [] {
        assert NoWhitespace(p[1]);
      }
    }
  }

  /** A whitespace-free piece, a run, then text that does not start with whitespace. */
  lemma PiecesAroundRun(a: string, run: string, rest: string)
    requires NoWhitespace(a)
    requires run != "" && AllWhitespace(run)
    requires rest == [] || !IsWhitespace(rest[0])
    ensures Pieces(a + run + rest) == [a] + Pieces(rest)
  {
    var tail := run + rest;
    PiecesAfterRun(run, rest);
    PiecesPrefix(a, tail);
    assert a + run + rest == a + tail;
    DropEmptyHead(a, Pieces(tail), Pieces(rest));
  }

  lemma DropEmptyHead(a: string, q: seq<string>, r: seq<string>)
    requires q == [""] + r
    ensures [a + q[0]] + q[1..] == [a] + r
  {
    assert q[0] == "" && a + "" == a;
    assert q[1..] == r;
  }

  /**
   * Any cut of s into whitespace-free pieces (non-empty inside) at non-empty whitespace
   * runs is the one `Pieces` gives: the pieces are determined by that description.
   */
  lemma {:induction false} PiecesUnique(s: string, p: seq<string>, w: seq<string>)
    requires WellCut(p, w) && s == Interleave(p, w)
    ensures Pieces(s) == p
    decreases |w|
  {
    if w == [] {
      assert NoWhitespace(p[0]);
      PiecesPrefix(p[0], "");
      assert p[0] + "" == s;
      assert p == [p[0]];
    } else {
      var rest := Interleave(p[1..], w[1..]);
      WellCutTail(p, w);
      PiecesUnique(rest, p[1..], w[1..]);
      AfterFirstRun(p, w);
      assert NoWhitespace(p[0]);
      PiecesAroundRun(p[0], w[0], rest);
      assert [p[0]] + p[1..] == p;
    }
  }

  /** What `Pieces` and `WhitespaceRuns` give is such a cut. */
  lemma PiecesWellCut(s: string)
    ensures WellCut(Pieces(s), WhitespaceRuns(s))
  {
    PiecesRebuild(s);
    PiecesShape(s);
  }

  /** `s.replace(/\s+/g, '_')` is `s.split(/\s+/).join('_')`. */
  lemma {:induction false} ReplaceJoinsPieces(s: string)
    ensures ReplaceWhitespaceRuns(s) == Join(Pieces(s), "_")
    decreases |s|
  {
    if s != [] {
      if IsWhitespace(s[0]) {
        var t := TrimStart(s);
        ReplaceJoinsPieces(t);
        assert ([""] + Pieces(t))[1..] == Pieces(t);
      } else {
        ReplaceJoinsPieces(s[1..]);
        var rest := Pieces(s[1..]);
        JoinHead([s[0]], rest, "_");
      }
    }
  }

  /** Widening the first part widens the joined text at the front. */
  lemma JoinHead(x: string, parts: seq<string>, sep: string)
    requires parts != []
    ensures Join([x + parts[0]] + parts[1..], sep) == x + Join(parts, sep)
  {
    var q := [x + parts[0]] + parts[1..];
    assert q[1..] == parts[1..];
  }

  /** s with its whitespace and underscores removed. */
  function Letters(s: string): string
    decreases |s|
  {
    if s == [] then ""
    else if IsWhitespace(s[0]) || s[0] == '_' then Letters(s[1..])
    else [s[0]] + Letters(s[1..])
  }

  lemma {:induction false} LettersAfterWhitespace(s: string, n: nat)
    requires n <= |s|
    requires forall i :: 0 <= i < n ==> IsWhitespace(s[i])
    ensures Letters(s[n..]) == Letters(s)
    decreases n
  {
    if n > 0 {
      LettersAfterWhitespace(s[1..], n - 1);
      assert s[1..][n - 1..] == s[n..];
    }
  }

  /**
   * Replacing whitespace runs only trades whitespace for underscores: apart from
   * whitespace and underscores the text is unchanged, in order.
   */
  lemma {:induction false} ReplaceKeepsLetters(s: string)
    ensures Letters(ReplaceWhitespaceRuns(s)) == Letters(s)
    decreases |s|
  {
    if s != [] {
      if IsWhitespace(s[0]) {
        var t := TrimStart(s);
        ReplaceKeepsLetters(t);
        LettersAfterWhitespace(s, |s| - |t|);
        assert ("_" + ReplaceWhitespaceRuns(t))[1..] == ReplaceWhitespaceRuns(t);
      } else {
        ReplaceKeepsLetters(s[1..]);
        assert ([s[0]] + ReplaceWhitespaceRuns(s[1..]))[1..] == ReplaceWhitespaceRuns(s[1..]);
      }
    }
  }

  /** A string without whitespace is left as it is. */
  lemma {:induction false} ReplaceWithoutWhitespace(s: string)
    requires forall i :: 0 <= i < |s| ==> !IsWhitespace(s[i])
    ensures ReplaceWhitespaceRuns(s) == s
    decreases |s|
  {
    if s != [] {
      ReplaceWithoutWhitespace(s[1..]);
    }
  }

  /** `s.replace(c, '')` with a string pattern: drops only the first occurrence. */
  function RemoveFirst(s: string, c: char): (r: string)
    ensures c !in s ==> r == s
    ensures c in s ==> |r| == |s| - 1
    ensures forall i :: 0 <= i < |r| ==> r[i] in s
    decreases |s|
  {
    if s == [] then []
    else if s[0] == c then s[1..]
    else [s[0]] + RemoveFirst(s[1..], c)
  }

  /** Removing the first c takes out exactly the character at its first position. */
  lemma {:induction false} RemoveFirstAt(s: string, c: char, i: nat)
    requires i < |s| && s[i] == c && c !in s[..i]
    ensures RemoveFirst(s, c) == s[..i] + s[i + 1..]
    decreases i
  {
    if i > 0 {
      assert s[0] in s[..i];
      assert s[1..][..i - 1] == s[1..i];
      assert forall x :: x in s[1..i] ==> x in s[..i];
      RemoveFirstAt(s[1..], c, i - 1);
      assert s[..i] == [s[0]] + s[1..i];
    }
  }
}
