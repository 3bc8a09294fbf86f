/** String helpers: the subset of JavaScript's string methods the dashboard
    uses (`toLowerCase`, `includes`, `split`, `join`, the default `sort`
    order), over `seq<char>`. */
module Text {
  import opened Collections

  /** The lower case of one character as `toLowerCase` gives it, for the
      characters whose lower case holds an ASCII letter: `A`-`Z`, the
      dotted capital I (U+0130, which becomes `i` and a combining dot) and
      the Kelvin sign (U+212A, which becomes `k`). */
  function LowerOf(c: char): string {
    if 'A' <= c <= 'Z' then [(c as int + 32) as char]
    else if c == '\U{0130}' then "i\U{0307}"
    else if c == '\U{212A}' then "k"
    else [c]
  }

  predicate Lowered(c: char) {
    !('A' <= c <= 'Z') && c != '\U{0130}' && c != '\U{212A}'
  }

  /** `s.toLowerCase()` (see `LowerOf` for the characters it maps). */
  function ToLower(s: string): (r: string)
    ensures forall c :: c in r ==> Lowered(c)
    ensures (forall c :: c in s ==> Lowered(c)) ==> r == s
  {
    if s == [] then []
    else
      var rest := ToLower(s[1..]);
      assert forall c :: c in s[1..] ==> c in s;
      assert s == [s[0]] + s[1..] && s[0] in s;
      LowerOf(s[0]) + rest
  }

  /** `s.includes(sub)`. */
  predicate Contains(s: string, sub: string) {
    exists i :: 0 <= i <= |s| && OccursAt(s, sub, i)
  }

  /** `sub` occurs in `s` starting at index `i`. */
  predicate OccursAt(s: string, sub: string, i: int) {
    0 <= i <= |s| - |sub| && s[i..i + |sub|] == sub
  }

  lemma ContainsEmpty(s: string)
    ensures Contains(s, "")
  {
    assert OccursAt(s, "", 0);
  }

  lemma ContainsSelf(s: string)
    ensures Contains(s, s)
  {
    assert OccursAt(s, s, 0);
  }

  // ---- split and join ----

  function IsChar(sep: char): char -> bool {
    c => c == sep
  }

  /** `s.split(sep)` for a separator recognised character by character:
      `k` separators give `k + 1` pieces, empty pieces included. */
  function SplitWhere(s: string, isSep: char -> bool): (r: seq<string>)
    ensures |r| >= 1
    ensures forall i, c :: 0 <= i < |r| && c in r[i] ==> !isSep(c)
  {
    if s == [] then [""]
    else
      var rest := SplitWhere(s[1..], isSep);
      if isSep(s[0]) then [""] + rest
      else [[s[0]] + rest[0]] + rest[1..]
  }

  /** `s.split(sep)` for a one-character separator. */
  function Split(s: string, sep: char): (r: seq<string>)
    ensures |r| >= 1
    ensures forall i :: 0 <= i < |r| ==> sep !in r[i]
  {
    var r := SplitWhere(s, IsChar(sep));
    assert forall i :: 0 <= i < |r| ==> sep !in r[i] by {
      forall i | 0 <= i < |r| ensures sep !in r[i] {
        assert forall c :: c in r[i] ==> !IsChar(sep)(c);
      }
    }
    r
  }

  /** `xs.join(sep)`. */
  function Join(xs: seq<string>, sep: char): string {
    if xs == [] then ""
    else if |xs| == 1 then xs[0]
    else xs[0] + [sep] + Join(xs[1..], sep)
  }

  lemma {:induction false} SplitPrefix(w: string, rest: string, isSep: char -> bool)
    requires forall c :: c in w ==> !isSep(c)
    ensures SplitWhere(w + rest, isSep) == [w + SplitWhere(rest, isSep)[0]] + SplitWhere(rest, isSep)[1..]
  {
    if w != [] {
      assert w[0] in w;
      SplitPrefix(w[1..], rest, isSep);
      assert (w + rest)[1..] == w[1..] + rest;
      assert (w + rest)[0] == w[0];
      assert [w[0]] + (w[1..] + SplitWhere(rest, isSep)[0]) == w + SplitWhere(rest, isSep)[0];
    } else {
      var r := SplitWhere(rest, isSep);
      assert w + rest == rest;
      assert w + r[0] == r[0];
      assert r == [r[0]] + r[1..];
    }
  }

  /** A leading separator ends an empty first piece. */
  lemma SplitAtSep(sep: char, tail: string)
    ensures SplitWhere([sep] + tail, IsChar(sep)) == [""] + SplitWhere(tail, IsChar(sep))
  {
    assert ([sep] + tail)[1..] == tail;
    assert IsChar(sep)(sep);
  }

  /** A piece without the separator, the separator and a split tail. */
  lemma SplitJoinStep(x: string, tail: string, rest: seq<string>, sep: char)
    requires sep !in x
    requires SplitWhere(tail, IsChar(sep)) == rest
    ensures SplitWhere(x + ([sep] + tail), IsChar(sep)) == [x] + rest
  {
    assert forall c :: c in x ==> !IsChar(sep)(c);
    SplitAtSep(sep, tail);
    SplitPrefix(x, [sep] + tail, IsChar(sep));
    assert x + "" == x;
  }

  /** Splitting a joined list gives the list back when no element holds the separator. */
  lemma {:induction false} SplitJoin(xs: seq<string>, sep: char)
    requires |xs| >= 1
    requires forall i :: 0 <= i < |xs| ==> sep !in xs[i]
    ensures Split(Join(xs, sep), sep) == xs
  {
    if |xs| == 1 {
      assert forall c :: c in xs[0] ==> !IsChar(sep)(c);
      SplitPrefix(xs[0], "", IsChar(sep));
      assert xs[0] + "" == xs[0];
    } else {
      SplitJoin(xs[1..], sep);
      SplitJoinStep(xs[0], Join(xs[1..], sep), xs[1..], sep);
      assert Join(xs, sep) == xs[0] + ([sep] + Join(xs[1..], sep));
      assert xs == [xs[0]] + xs[1..];
    }
  }

  lemma JoinCons(x: string, rest: seq<string>, sep: char)
    ensures Join([x] + rest, sep) == if rest == [] then x else x + [sep] + Join(rest, sep)
  {
    assert ([x] + rest)[1..] == rest;
  }

  /** Joining with one more character in front of the first piece. */
  lemma JoinPrepend(c: char, xs: seq<string>, sep: char)
    requires xs != []
    ensures Join([[c] + xs[0]] + xs[1..], sep) == [c] + Join(xs, sep)
  {
    JoinCons([c] + xs[0], xs[1..], sep);
    JoinCons(xs[0], xs[1..], sep);
    assert xs == [xs[0]] + xs[1..];
  }

  /** Joining the pieces of a split gives the string back. */
  lemma {:induction false} JoinSplit(s: string, sep: char)
    ensures Join(Split(s, sep), sep) == s
  {
    if s != [] {
      var rest := Split(s[1..], sep);
      JoinSplit(s[1..], sep);
      assert s == [s[0]] + s[1..];
      if s[0] == sep {
        SplitAtSep(sep, s[1..]);
        JoinCons("", rest, sep);
      } else {
        assert !IsChar(sep)(s[0]);
        assert Split(s, sep) == [[s[0]] + rest[0]] + rest[1..];
        JoinPrepend(s[0], rest, sep);
      }
    }
  }

  // ---- whitespace words ----

  /** The characters matched by `\s` in a JavaScript regular expression. */
  predicate IsSpace(c: char) {
    || c == ' ' || c == '\t' || c == '\n' || c == '\r' || c == '\U{000B}' || c == '\U{000C}'
    || c == '\U{00A0}' || c == '\U{1680}' || ('\U{2000}' <= c <= '\U{200A}')
    || c == '\U{2028}' || c == '\U{2029}' || c == '\U{202F}' || c == '\U{205F}'
    || c == '\U{3000}' || c == '\U{FEFF}'
  }

  predicate NonEmpty(w: string) {
    w != ""
  }

  /** `s.split(/\s+/).filter(Boolean)`: the maximal runs of non-space characters. */
  function Words(s: string): (r: seq<string>)
    ensures forall w :: w in r ==> w != "" && forall c :: c in w ==> !IsSpace(c)
  {
    var pieces := SplitWhere(s, IsSpace);
    var r := Filter(pieces, NonEmpty);
    assert forall w :: w in r ==> w in pieces && NonEmpty(w);
    assert forall w :: w in pieces ==> forall c :: c in w ==> !IsSpace(c) by {
      forall w, c | w in pieces && c in w ensures !IsSpace(c) {
        var i :| 0 <= i < |pieces| && pieces[i] == w;
      }
    }
    r
  }

  /** A search string made only of blanks has no words. */
  lemma {:induction false} WordsOfBlank(s: string)
    requires forall i :: 0 <= i < |s| ==> IsSpace(s[i])
    ensures Words(s) == []
  {
    var pieces := SplitWhere(s, IsSpace);
    forall w | w in pieces ensures w == "" {
      if w != "" {
        var c := w[0];
        assert c in w;
        var i :| 0 <= i < |pieces| && pieces[i] == w;
        assert !IsSpace(c);
        BlankPieceChars(s, c);
      }
    }
    FilterNonePass(pieces, NonEmpty);
  }

  /** `gaps[0] + ws[0] + gaps[1] + ... + ws[n-1] + gaps[n]`. */
  function Interleave(gaps: seq<string>, ws: seq<string>): string
    requires |gaps| == |ws| + 1
  {
    if ws == [] then gaps[0] else gaps[0] + ws[0] + Interleave(gaps[1..], ws[1..])
  }

  predicate Blank(g: string) {
    forall k :: 0 <= k < |g| ==> IsSpace(g[k])
  }

  /** A non-empty run without white space. */
  predicate IsWord(w: string) {
    w != "" && forall k :: 0 <= k < |w| ==> !IsSpace(w[k])
  }

  /** The white space around and between the words of `s`: the leading
      run, then the run after each word. */
  function Gaps(s: string): (r: seq<string>)
    ensures |r| >= 1
  {
    if s == [] then [""]
    else if IsSpace(s[0]) then [[s[0]] + Gaps(s[1..])[0]] + Gaps(s[1..])[1..]
    else if |s| == 1 || IsSpace(s[1]) then [""] + Gaps(s[1..])
    else Gaps(s[1..])
  }

  ghost predicate AllBlank(gaps: seq<string>) {
    forall i :: 0 <= i < |gaps| ==> Blank(gaps[i])
  }

  ghost predicate InnerNonEmpty(gaps: seq<string>, n: nat) {
    forall i :: 0 < i < n && i < |gaps| ==> gaps[i] != ""
  }

  ghost predicate AllWords(ws: seq<string>) {
    forall i :: 0 <= i < |ws| ==> IsWord(ws[i])
  }

  /** `s` splits into blank gaps and words: non-empty runs without white
      space, separated by non-empty gaps, which is to say that the words are
      the maximal runs of non-space characters of `s`, in order. */
  ghost predicate SplitsInto(s: string, gaps: seq<string>, ws: seq<string>) {
    && |gaps| == |ws| + 1
    && AllBlank(gaps)
    && InnerNonEmpty(gaps, |ws|)
    && AllWords(ws)
    && s == Interleave(gaps, ws)
  }

  /** The words are the maximal non-space runs of `s`, with the gaps
      between them. */
  lemma {:induction false} WordsSpec(s: string)
    ensures SplitsInto(s, Gaps(s), Words(s))
    ensures s != [] && IsSpace(s[0]) ==> Gaps(s)[0] != ""
    ensures s != [] && !IsSpace(s[0]) ==> Gaps(s)[0] == "" && |Words(s)| > 0
  {
    if s == [] {
      assert Words(s) == [];
    } else {
      WordsSpec(s[1..]);
      WordsStep(s);
      if IsSpace(s[0]) {
        SpaceStep(s);
      } else if |s| == 1 || IsSpace(s[1]) {
        NewWordStep(s);
      } else {
        LongerWordStep(s);
      }
    }
  }

  lemma InterleaveGap(c: char, g: seq<string>, w: seq<string>)
    requires |g| == |w| + 1
    ensures Interleave([[c] + g[0]] + g[1..], w) == [c] + Interleave(g, w)
  {
    var gs := [[c] + g[0]] + g[1..];
    if w != [] {
      assert gs[1..] == g[1..];
      assert ([c] + g[0]) + w[0] + Interleave(g[1..], w[1..]) == [c] + (g[0] + w[0] + Interleave(g[1..], w[1..]));
    }
  }

  lemma InterleaveNewWord(c: char, g: seq<string>, w: seq<string>)
    requires |g| == |w| + 1
    ensures Interleave([""] + g, [[c]] + w) == [c] + Interleave(g, w)
  {
    assert ([""] + g)[1..] == g && ([[c]] + w)[1..] == w;
  }

  lemma InterleaveLonger(c: char, g: seq<string>, w: seq<string>)
    requires |g| == |w| + 1 && |w| > 0 && g[0] == ""
    ensures Interleave(g, [[c] + w[0]] + w[1..]) == [c] + Interleave(g, w)
  {
    var ws := [[c] + w[0]] + w[1..];
    assert ws[1..] == w[1..];
    assert g[0] + ([c] + w[0]) + Interleave(g[1..], w[1..]) == [c] + (g[0] + w[0] + Interleave(g[1..], w[1..]));
  }

  /** A leading space joins the first gap. */
  lemma SpaceStep(s: string)
    requires s != [] && IsSpace(s[0])
    requires SplitsInto(s[1..], Gaps(s[1..]), Words(s[1..]))
    requires Words(s) == Words(s[1..])
    ensures SplitsInto(s, Gaps(s), Words(s)) && Gaps(s)[0] != ""
  {
    SpaceText(s);
    assert Gaps(s) == [[s[0]] + Gaps(s[1..])[0]] + Gaps(s[1..])[1..];
    SpaceGaps(s[0], Gaps(s[1..]), |Words(s)|);
  }

  lemma SpaceText(s: string)
    requires s != [] && IsSpace(s[0])
    requires |Gaps(s[1..])| == |Words(s[1..])| + 1
    requires s[1..] == Interleave(Gaps(s[1..]), Words(s[1..]))
    requires Words(s) == Words(s[1..])
    ensures |Gaps(s)| == |Words(s)| + 1 && s == Interleave(Gaps(s), Words(s))
  {
    InterleaveGap(s[0], Gaps(s[1..]), Words(s[1..]));
    assert s == [s[0]] + s[1..];
  }

  lemma SpaceGaps(c: char, g: seq<string>, n: nat)
    requires IsSpace(c) && |g| >= 1
    requires AllBlank(g) && InnerNonEmpty(g, n)
    ensures var gs := [[c] + g[0]] + g[1..];
      AllBlank(gs) && InnerNonEmpty(gs, n) && gs[0] != ""
  {
    var gs := [[c] + g[0]] + g[1..];
    assert Blank(g[0]);
    assert Blank(gs[0]);
    assert forall i :: 0 < i < |gs| ==> gs[i] == g[i];
  }

  /** A non-space followed by a space or the end starts a one-character word. */
  lemma NewWordStep(s: string)
    requires s != [] && !IsSpace(s[0]) && (|s| == 1 || IsSpace(s[1]))
    requires SplitsInto(s[1..], Gaps(s[1..]), Words(s[1..]))
    requires |s| > 1 ==> Gaps(s[1..])[0] != ""
    requires Words(s) == [[s[0]]] + Words(s[1..])
    ensures SplitsInto(s, Gaps(s), Words(s)) && Gaps(s)[0] == "" && |Words(s)| > 0
  {
    NewWordText(s);
    assert |s| == 1 ==> Words(s[1..]) == [] by {
      if |s| == 1 {
        assert s[1..] == [];
      }
    }
    assert Gaps(s) == [""] + Gaps(s[1..]);
    NewWordParts(s[0], Gaps(s[1..]), Words(s[1..]));
  }

  lemma NewWordText(s: string)
    requires s != [] && !IsSpace(s[0]) && (|s| == 1 || IsSpace(s[1]))
    requires |Gaps(s[1..])| == |Words(s[1..])| + 1
    requires s[1..] == Interleave(Gaps(s[1..]), Words(s[1..]))
    requires Words(s) == [[s[0]]] + Words(s[1..])
    ensures |Gaps(s)| == |Words(s)| + 1 && s == Interleave(Gaps(s), Words(s))
  {
    InterleaveNewWord(s[0], Gaps(s[1..]), Words(s[1..]));
    assert s == [s[0]] + s[1..];
  }

  lemma NewWordParts(c: char, g: seq<string>, w: seq<string>)
    requires !IsSpace(c) && |g| == |w| + 1
    requires AllBlank(g) && InnerNonEmpty(g, |w|) && AllWords(w)
    requires |w| > 0 ==> g[0] != ""
    ensures var gs := [""] + g; var ws := [[c]] + w;
      AllBlank(gs) && InnerNonEmpty(gs, |ws|) && AllWords(ws)
  {
    var gs := [""] + g;
    var ws := [[c]] + w;
    assert forall i :: 0 < i < |gs| ==> gs[i] == g[i - 1];
    assert forall i :: 0 < i < |ws| ==> ws[i] == w[i - 1];
    assert IsWord(ws[0]);
  }

  /** A non-space followed by a non-space extends the first word. */
  lemma LongerWordStep(s: string)
    requires |s| > 1 && !IsSpace(s[0]) && !IsSpace(s[1])
    requires SplitsInto(s[1..], Gaps(s[1..]), Words(s[1..]))
    requires Gaps(s[1..])[0] == "" && |Words(s[1..])| > 0
    requires Words(s) == [[s[0]] + Words(s[1..])[0]] + Words(s[1..])[1..]
    ensures SplitsInto(s, Gaps(s), Words(s)) && Gaps(s)[0] == "" && |Words(s)| > 0
  {
    LongerWordText(s);
    assert Gaps(s) == Gaps(s[1..]);
    LongerWordParts(s[0], Words(s[1..]));
  }

  lemma LongerWordText(s: string)
    requires |s| > 1 && !IsSpace(s[0]) && !IsSpace(s[1])
    requires |Gaps(s[1..])| == |Words(s[1..])| + 1
    requires Gaps(s[1..])[0] == "" && |Words(s[1..])| > 0
    requires s[1..] == Interleave(Gaps(s[1..]), Words(s[1..]))
    requires Words(s) == [[s[0]] + Words(s[1..])[0]] + Words(s[1..])[1..]
    ensures |Gaps(s)| == |Words(s)| + 1 && s == Interleave(Gaps(s), Words(s))
  {
    InterleaveLonger(s[0], Gaps(s[1..]), Words(s[1..]));
    assert s == [s[0]] + s[1..];
  }

  lemma LongerWordParts(c: char, w: seq<string>)
    requires !IsSpace(c) && |w| > 0 && AllWords(w)
    ensures AllWords([[c] + w[0]] + w[1..])
  {
    var ws := [[c] + w[0]] + w[1..];
    assert forall i :: 0 < i < |ws| ==> ws[i] == w[i];
    assert IsWord(w[0]);
    assert IsWord(ws[0]);
  }

  /** How one more leading character changes the words. */
  lemma WordsStep(s: string)
    requires s != []
    ensures IsSpace(s[0]) ==> Words(s) == Words(s[1..])
    ensures !IsSpace(s[0]) && (|s| == 1 || IsSpace(s[1])) ==> Words(s) == [[s[0]]] + Words(s[1..])
    ensures !IsSpace(s[0]) && !(|s| == 1 || IsSpace(s[1])) ==>
      |Words(s[1..])| > 0 && Words(s) == [[s[0]] + Words(s[1..])[0]] + Words(s[1..])[1..]
  {
    var t := s[1..];
    var p := SplitWhere(t, IsSpace);
    var pieces := SplitWhere(s, IsSpace);
    var rest := Filter(p[1..], NonEmpty);
    assert p[0] == "" <==> t == [] || IsSpace(t[0]);
    assert Words(t) == (if NonEmpty(p[0]) then [p[0]] else []) + rest;
    if IsSpace(s[0]) {
      assert pieces == [""] + p;
      assert pieces[1..] == p;
    } else {
      assert pieces == [[s[0]] + p[0]] + p[1..];
      assert pieces[1..] == p[1..];
      assert NonEmpty(pieces[0]);
      assert Words(s) == [pieces[0]] + rest;
      if p[0] == "" {
        assert pieces[0] == [s[0]];
      }
    }
  }

  lemma {:induction false} BlankPieceChars(s: string, c: char)
    requires forall i :: 0 <= i < |s| ==> IsSpace(s[i])
    requires !IsSpace(c)
    ensures forall w :: w in SplitWhere(s, IsSpace) ==> c !in w
  {
    if s != [] {
      BlankPieceChars(s[1..], c);
      assert IsSpace(s[0]);
    }
  }

  // ---- default sort order ----

  /** The order of JavaScript's default `sort()` on strings: lexicographic
      by character code. */
  predicate CodeUnitLe(a: string, b: string) {
    a == [] || (b != [] && (a[0] < b[0] || (a[0] == b[0] && CodeUnitLe(a[1..], b[1..]))))
  }

  lemma {:induction false} CodeUnitLeConnected(a: string, b: string)
    ensures CodeUnitLe(a, b) || CodeUnitLe(b, a)
  {
    if a != [] && b != [] && a[0] == b[0] {
      CodeUnitLeConnected(a[1..], b[1..]);
    }
  }

  lemma {:induction false} CodeUnitLeTransitive(a: string, b: string, c: string)
    requires CodeUnitLe(a, b) && CodeUnitLe(b, c)
    ensures CodeUnitLe(a, c)
  {
    if a != [] && a[0] == b[0] && b[0] == c[0] {
      CodeUnitLeTransitive(a[1..], b[1..], c[1..]);
    }
  }

  lemma CodeUnitLeTotal()
    ensures TotalPreorder(CodeUnitLe)
  {
    forall a, b ensures CodeUnitLe(a, b) || CodeUnitLe(b, a) {
      CodeUnitLeConnected(a, b);
    }
    forall a, b, c | CodeUnitLe(a, b) && CodeUnitLe(b, c) ensures CodeUnitLe(a, c) {
      CodeUnitLeTransitive(a, b, c);
    }
  }

  /** Under the default order, equal-looking strings are equal: it is antisymmetric. */
  lemma {:induction false} CodeUnitLeAntisymmetric(a: string, b: string)
    requires CodeUnitLe(a, b) && CodeUnitLe(b, a)
    ensures a == b
  {
    if a != [] && b != [] {
      CodeUnitLeAntisymmetric(a[1..], b[1..]);
      assert a == [a[0]] + a[1..] && b == [b[0]] + b[1..];
    }
  }
}
