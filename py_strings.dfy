/**
 * The Python `str` methods the backend's text cleanup uses: `strip()`,
 * `split()`, `split("  ")`, `splitlines()` and `replace(c, '')`. Characters
 * are Unicode code points, as Python's are.
 */
module PyStrings {
  import opened Joining


  /** `c.isspace()`: the characters `strip()` and `split()` treat as whitespace. */
  predicate IsSpace(c: char)
  {
    c == ' ' || ('\t' <= c <= '\r') || ('\U{1C}' <= c <= '\U{1F}') || c == '\U{85}' || c == '\U{A0}' ||
    c == '\U{1680}' || ('\U{2000}' <= c <= '\U{200A}') || c == '\U{2028}' || c == '\U{2029}' ||
    c == '\U{202F}' || c == '\U{205F}' || c == '\U{3000}'
  }

  /** The line boundaries of `str.splitlines()`. */
  predicate IsLineBreak(c: char)
  {
    ('\n' <= c <= '\r') || ('\U{1C}' <= c <= '\U{1E}') || c == '\U{85}' || c == '\U{2028}' || c == '\U{2029}'
  }

  /** `s` occurs in `t` as a contiguous slice. */
  predicate IsSlice(s: string, t: string)
  {
    exists i, j :: 0 <= i <= j <= |t| && s == t[i..j]
  }

  /** Holds of every pair of neighbouring characters of `s`. */
  predicate PairsOk(s: string, ok: (char, char) -> bool)
  {
    forall i :: 0 <= i < |s| - 1 ==> ok(s[i], s[i + 1])
  }

  /** Neighbours that are not both a plain space. */
  predicate NotTwoSpaces(a: char, b: char)
  {
    !(a == ' ' && b == ' ')
  }

  /** No two neighbouring `' '` characters. */
  predicate NoDoubleSpace(s: string)
  {
    forall i :: 0 <= i < |s| - 1 ==> NotTwoSpaces(s[i], s[i + 1])
  }

  lemma NoDoubleSpacePairs(s: string)
    ensures NoDoubleSpace(s) <==> PairsOk(s, NotTwoSpaces)
  {
  }

  lemma {:induction false} SliceKeepsPairs(t: string, i: nat, j: nat, ok: (char, char) -> bool)
    requires i <= j <= |t| && PairsOk(t, ok)
    ensures PairsOk(t[i..j], ok)
  {
    forall k | 0 <= k < j - i - 1 ensures ok(t[i..j][k], t[i..j][k + 1]) {
      assert t[i..j][k] == t[i + k] && t[i..j][k + 1] == t[i + k + 1];
    }
  }

  // ------------------------------------------------------------------- strip

  /** `s.lstrip()`: a suffix of `s` that does not start with whitespace. */
  function StripLeft(s: string): (r: string)
    ensures |r| <= |s| && r == s[|s| - |r|..]
    ensures r == [] || !IsSpace(r[0])
  {
    if s != [] && IsSpace(s[0]) then StripLeft(s[1..]) else s
  }

  /** What `lstrip()` removes is whitespace. */
  lemma {:induction false} StripLeftRemovesSpaces(s: string)
    ensures forall i :: 0 <= i < |s| - |StripLeft(s)| ==> IsSpace(s[i])
  {
    if s != [] && IsSpace(s[0]) {
      StripLeftRemovesSpaces(s[1..]);
      forall i | 1 <= i < |s| - |StripLeft(s)| ensures IsSpace(s[i]) {
        assert s[i] == s[1..][i - 1];
      }
    }
  }

  /** `s.rstrip()`: a prefix of `s` that does not end with whitespace. */
  function StripRight(s: string): (r: string)
    ensures |r| <= |s| && r == s[..|r|]
    ensures r == [] || !IsSpace(r[|r| - 1])
  {
    if s != [] && IsSpace(s[|s| - 1]) then StripRight(s[..|s| - 1]) else s
  }

  /** What `rstrip()` removes is whitespace. */
  lemma {:induction false} StripRightRemovesSpaces(s: string)
    ensures forall i :: |StripRight(s)| <= i < |s| ==> IsSpace(s[i])
  {
    if s != [] && IsSpace(s[|s| - 1]) {
      StripRightRemovesSpaces(s[..|s| - 1]);
      forall i | |StripRight(s)| <= i < |s| - 1 ensures IsSpace(s[i]) {
        assert s[i] == s[..|s| - 1][i];
      }
    }
  }

  /** `s.strip()`: `s` without its leading and trailing whitespace. */
  function Strip(s: string): (r: string)
    ensures r != [] ==> !IsSpace(r[0]) && !IsSpace(r[|r| - 1])
  {
    var left := StripLeft(s);
    var r := StripRight(left);
    assert r == [] || (r[0] == left[0] && !IsSpace(r[|r| - 1]));
    r
  }

  /** What `strip()` keeps is a slice of the text. */
  lemma StripIsSlice(s: string)
    ensures IsSlice(Strip(s), s)
  {
    var left := StripLeft(s);
    var r := StripRight(left);
    var i := |s| - |left|;
    SliceOfSlice(s, i, 0, |r|);
    assert r == left[0..|r|];
  }

  /** A slice of `t` keeps `t`'s characters, and has no two neighbouring spaces when `t` has none. */
  lemma SliceChars(s: string, t: string)
    requires IsSlice(s, t)
    ensures forall c :: c in s ==> c in t
    ensures NoDoubleSpace(t) ==> NoDoubleSpace(s)
  {
    var i, j :| 0 <= i <= j <= |t| && s == t[i..j];
    forall c | c in s ensures c in t {
      var k :| 0 <= k < |s| && s[k] == c;
      assert t[i + k] == c;
    }
    if NoDoubleSpace(t) {
      NoDoubleSpacePairs(t);
      SliceKeepsPairs(t, i, j, NotTwoSpaces);
      NoDoubleSpacePairs(s);
    }
  }

  /** A single-spaced text is already stripped. */
  lemma StripOfSingleSpaced(s: string)
    requires SingleSpaced(s)
    ensures Strip(s) == s
  {
    assert StripLeft(s) == s;
    assert StripRight(s) == s;
  }

  /** Python's `s[:n]` on a sequence: the first `n` elements, or all of them when there are fewer. */
  function Take<T>(s: seq<T>, n: nat): (r: seq<T>)
    ensures |r| == if |s| <= n then |s| else n
    ensures r <= s
    ensures forall x :: x in r ==> x in s
  {
    if |s| <= n then s else s[..n]
  }

  // ----------------------------------------------------------------- replace

  /** `s.replace(c, '')`. */
  function RemoveChar(s: string, c: char): (r: string)
    ensures c !in r
    ensures forall d :: d in r ==> d in s
  {
    if s == [] then []
    else if s[0] == c then RemoveChar(s[1..], c)
    else [s[0]] + RemoveChar(s[1..], c)
  }

  /** Removing a character that does not occur changes nothing. */
  lemma {:induction false} RemoveAbsentChar(s: string, c: char)
    requires c !in s
    ensures RemoveChar(s, c) == s
  {
    if s != [] {
      assert forall d :: d in s[1..] ==> d in s;
      RemoveAbsentChar(s[1..], c);
    }
  }

  // ------------------------------------------------------------------- split

  /** The length of the run of non-whitespace characters at the start of `s`. */
  function WordLength(s: string): (n: nat)
    ensures n <= |s|
    ensures forall i :: 0 <= i < n ==> !IsSpace(s[i])
    ensures n < |s| ==> IsSpace(s[n])
  {
    if s == [] || IsSpace(s[0]) then 0 else 1 + WordLength(s[1..])
  }

  /** A word: not empty and without whitespace. */
  predicate IsWord(w: string)
  {
    w != [] && forall c :: c in w ==> !IsSpace(c)
  }

  /** `s.split()`: the maximal runs of non-whitespace characters, in order. */
  function Split(s: string): (r: seq<string>)
    ensures forall w :: w in r ==> IsWord(w)
    ensures forall w, c :: w in r && c in w ==> c in s
    decreases |s|
  {
    if s == [] then []
    else if IsSpace(s[0]) then
      var r := Split(s[1..]);
      assert forall c :: c in s[1..] ==> c in s;
      r
    else
      var n := WordLength(s);
      var r := Split(s[n..]);
      assert forall c :: c in s[n..] ==> c in s;
      assert forall c :: c in s[..n] ==> c in s;
      [s[..n]] + r
  }

  /** The number of whitespace characters in `s`. */
  function SpaceCount(s: string): nat
  {
    if s == [] then 0 else (if IsSpace(s[0]) then 1 else 0) + SpaceCount(s[1..])
  }

  lemma {:induction false} SpaceCountAppend(a: string, b: string)
    ensures SpaceCount(a + b) == SpaceCount(a) + SpaceCount(b)
  {
    if a == [] {
      assert a + b == b;
    } else {
      assert (a + b)[0] == a[0];
      assert (a + b)[1..] == a[1..] + b;
      SpaceCountAppend(a[1..], b);
    }
  }

  lemma {:induction false} SpaceCountSplit(s: string, n: nat)
    requires n <= |s|
    ensures SpaceCount(s) == SpaceCount(s[..n]) + SpaceCount(s[n..])
  {
    if n > 0 {
      SpaceCountSplit(s[1..], n - 1);
      assert s[1..][..n - 1] == s[..n][1..] && s[1..][n - 1..] == s[n..];
    }
  }

  lemma {:induction false} SpaceCountOfRun(s: string, n: nat)
    requires n <= |s| && forall i :: 0 <= i < n ==> !IsSpace(s[i])
    ensures SpaceCount(s[..n]) == 0
  {
    if n > 0 {
      assert s[..n][1..] == s[1..][..n - 1];
      SpaceCountOfRun(s[1..], n - 1);
    }
  }

  /** Neighbours in a single-spaced text: whitespace is a plain space followed by a non-space. */
  predicate SpacingOk(a: char, b: char)
  {
    IsSpace(a) ==> a == ' ' && !IsSpace(b)
  }

  /**
   * Words separated by single plain spaces, with no whitespace at either end:
   * the shape `" ".join(words)` produces.
   */
  predicate SingleSpaced(s: string)
  {
    s == [] || (!IsSpace(s[0]) && !IsSpace(s[|s| - 1]) && SpacedPairs(s))
  }

  /** Every pair of neighbours is spaced as in a single-spaced text. */
  predicate SpacedPairs(s: string)
  {
    forall i :: 0 <= i < |s| - 1 ==> SpacingOk(s[i], s[i + 1])
  }

  lemma SpacedPairsPairs(s: string)
    ensures SpacedPairs(s) <==> PairsOk(s, SpacingOk)
  {
  }

  /** Words joined by single spaces are single-spaced. */
  lemma JoinOfWordsIsSingleSpaced(ws: seq<string>)
    requires forall w :: w in ws ==> IsWord(w)
    ensures SingleSpaced(JoinWith(ws, " "))
  {
    forall w | w in ws
      ensures w != [] && PairsOk(w, SpacingOk) && SpacingOk(w[|w| - 1], ' ') && SpacingOk(' ', w[0])
    {
      assert w[0] in w && w[|w| - 1] in w;
      assert forall i :: 0 <= i < |w| ==> w[i] in w;
    }
    JoinKeepsPairs(ws, ' ', SpacingOk);
    SpacedPairsPairs(JoinWith(ws, " "));
    if ws != [] {
      assert forall i :: 0 <= i < |ws| ==> ws[i] in ws;
      JoinEnds(ws, " ");
      var first, last := ws[0], ws[|ws| - 1];
      assert first[0] in first && last[|last| - 1] in last;
    }
  }

  /** A word followed by nothing or by whitespace is where `split()` ends its first word. */
  lemma {:induction false} WordLengthOfWord(w: string, rest: string)
    requires IsWord(w) && (rest == [] || IsSpace(rest[0]))
    ensures WordLength(w + rest) == |w|
  {
    assert w[0] in w;
    assert (w + rest)[0] == w[0];
    assert (w + rest)[1..] == w[1..] + rest;
    if |w| > 1 {
      assert forall c :: c in w[1..] ==> c in w;
      WordLengthOfWord(w[1..], rest);
    } else {
      assert w[1..] + rest == rest;
    }
  }

  /** `split()` takes back apart words joined by single spaces. */
  lemma {:induction false} SplitOfJoin(ws: seq<string>)
    requires forall w :: w in ws ==> IsWord(w)
    ensures Split(JoinWith(ws, " ")) == ws
  {
    if |ws| == 1 {
      assert ws[0] in ws;
      WordLengthOfWord(ws[0], []);
      assert ws[0] + [] == ws[0];
      assert ws[0][|ws[0]|..] == [];
    } else if |ws| > 1 {
      var w, rest := ws[0], JoinWith(ws[1..], " ");
      assert w in ws;
      assert forall v :: v in ws[1..] ==> v in ws;
      var j := w + (" " + rest);
      assert JoinWith(ws, " ") == j;
      WordLengthOfWord(w, " " + rest);
      assert j[..|w|] == w && j[|w|..] == " " + rest;
      assert (" " + rest)[1..] == rest;
      SplitOfJoin(ws[1..]);
    }
  }

  /** A single-spaced text that goes on after its first word goes on with one plain space and a single-spaced rest. */
  lemma SingleSpacedTail(s: string)
    requires SingleSpaced(s) && WordLength(s) < |s|
    ensures WordLength(s) + 1 < |s| && s[WordLength(s)] == ' ' && SingleSpaced(s[WordLength(s) + 1..])
  {
    var n := WordLength(s);
    assert SpacingOk(s[n], s[n + 1]);
    var t := s[n + 1..];
    forall i | 0 <= i < |t| - 1 ensures SpacingOk(t[i], t[i + 1]) {
      assert t[i] == s[n + 1 + i] && t[i + 1] == s[n + 2 + i];
    }
    assert t[|t| - 1] == s[|s| - 1];
  }

  /** `split()` on a text that starts with a word: that word, then the words of the rest. */
  lemma SplitAfterWord(s: string)
    requires s != [] && !IsSpace(s[0])
    ensures Split(s) == [s[..WordLength(s)]] + Split(s[WordLength(s)..])
  {
  }

  /** A text that is one word splits into itself and holds no whitespace. */
  lemma SplitOfOneWord(s: string)
    requires s != [] && WordLength(s) == |s|
    ensures Split(s) == [s] && SpaceCount(s) == 0
  {
    SplitAfterWord(s);
    assert s[|s|..] == [] && s[..|s|] == s;
    SpaceCountOfRun(s, |s|);
  }

  /** A word, one whitespace character, then the rest: `split()` gives the word, then the words of the rest. */
  lemma SplitOfWordAndRest(s: string)
    requires s != [] && !IsSpace(s[0]) && WordLength(s) < |s|
    ensures Split(s) == [s[..WordLength(s)]] + Split(s[WordLength(s) + 1..])
  {
    var n := WordLength(s);
    SplitAfterWord(s);
    var rest := s[n..];
    SplitAfterSpace(rest);
    assert rest[1..] == s[n + 1..];
  }

  /** Whitespace in front of a text does not change its words. */
  lemma SplitAfterSpace(s: string)
    requires s != [] && IsSpace(s[0])
    ensures Split(s) == Split(s[1..])
  {
  }

  /** The whitespace of a word, one whitespace character and the rest is one more than the rest's. */
  lemma SpaceCountOfWordAndRest(s: string)
    requires WordLength(s) < |s|
    ensures SpaceCount(s) == 1 + SpaceCount(s[WordLength(s) + 1..])
  {
    var n := WordLength(s);
    SpaceCountOfRun(s, n);
    SpaceCountSplit(s, n);
    assert s[n..][1..] == s[n + 1..];
  }

  /** How `split()` takes the first word off a single-spaced text. */
  lemma FirstWordOfSingleSpaced(s: string) returns (n: nat)
    requires SingleSpaced(s) && s != []
    ensures n == WordLength(s) && 0 < n
    ensures n == |s| ==> Split(s) == [s] && SpaceCount(s) == 0
    ensures n < |s| ==> n + 1 < |s| && s[n] == ' ' && SingleSpaced(s[n + 1..])
    ensures n < |s| ==> Split(s) == [s[..n]] + Split(s[n + 1..]) && SpaceCount(s) == 1 + SpaceCount(s[n + 1..])
  {
    n := WordLength(s);
    if n == |s| {
      SplitOfOneWord(s);
    } else {
      SingleSpacedTail(s);
      SplitOfWordAndRest(s);
      SpaceCountOfWordAndRest(s);
    }
  }

  /** `" ".join(s.split())` is `s` for a single-spaced `s`. */
  lemma {:induction false} JoinOfSplitSingleSpaced(s: string)
    requires SingleSpaced(s)
    ensures JoinWith(Split(s), " ") == s
    decreases |s|
  {
    if s != [] {
      var n := FirstWordOfSingleSpaced(s);
      if n < |s| {
        var tail := s[n + 1..];
        JoinOfSplitSingleSpaced(tail);
        var tailFirst := FirstWordOfSingleSpaced(tail);
        assert Split(tail) != [];
        SplitAround(s, n);
      }
    }
  }

  /** A non-empty single-spaced text has one word more than it has spaces. */
  lemma {:induction false} WordCountOfSingleSpaced(s: string)
    requires SingleSpaced(s) && s != []
    ensures |Split(s)| == 1 + SpaceCount(s)
    decreases |s|
  {
    var n := FirstWordOfSingleSpaced(s);
    if n < |s| {
      WordCountOfSingleSpaced(s[n + 1..]);
    }
  }

  /** A text is what comes before position `n`, the character there, and what follows it. */
  lemma SplitAround(s: string, n: nat)
    requires n < |s|
    ensures s == s[..n] + [s[n]] + s[n + 1..]
  {
  }

  /** Cutting a single-spaced text and appending `"..."` keeps it single-spaced. */
  lemma SingleSpacedCut(s: string, n: nat)
    requires SingleSpaced(s) && 0 < n <= |s|
    ensures SingleSpaced(s[..n] + "...")
  {
    var t := s[..n] + "...";
    forall i | 0 <= i < |t| - 1 ensures SpacingOk(t[i], t[i + 1]) {
      if i < n - 1 {
        assert t[i] == s[i] && t[i + 1] == s[i + 1];
      } else if i == n - 1 {
        assert t[i] == s[n - 1] && t[i + 1] == '.';
        if n < |s| {
          assert SpacingOk(s[n - 1], s[n]);
        }
      } else {
        assert t[i] == '.';
      }
    }
  }

  /** Cutting a text cannot add whitespace. */
  lemma SpaceCountOfPrefix(s: string, n: nat)
    requires n <= |s|
    ensures SpaceCount(s[..n]) <= SpaceCount(s)
  {
    SpaceCountSplit(s, n);
  }

  /** A join starts with its first part's first character and ends with its last part's last one. */
  lemma {:induction false} JoinEnds(parts: seq<string>, sep: string)
    requires parts != [] && forall i :: 0 <= i < |parts| ==> parts[i] != []
    ensures var j := JoinWith(parts, sep);
      j != [] && j[0] == parts[0][0] && j[|j| - 1] == parts[|parts| - 1][|parts[|parts| - 1]| - 1]
  {
    if |parts| > 1 {
      JoinEnds(parts[1..], sep);
    }
  }

  /**
   * Joining with a one-character separator keeps a property of neighbouring
   * characters when it holds inside each part and on both sides of the
   * separator.
   */
  lemma {:induction false} JoinKeepsPairs(parts: seq<string>, sep: char, ok: (char, char) -> bool)
    requires forall p :: p in parts ==> p != [] && PairsOk(p, ok) && ok(p[|p| - 1], sep) && ok(sep, p[0])
    ensures PairsOk(JoinWith(parts, [sep]), ok)
  {
    if |parts| > 1 {
      var first := parts[0];
      assert first in parts;
      assert forall p :: p in parts[1..] ==> p in parts;
      var rest := JoinWith(parts[1..], [sep]);
      JoinKeepsPairs(parts[1..], sep, ok);
      assert forall i :: 0 <= i < |parts[1..]| ==> parts[1..][i] in parts;
      JoinEnds(parts[1..], [sep]);
      assert parts[1] in parts;
      assert JoinWith(parts, [sep]) == first + [sep] + rest;
      PairsOfSeparated(first, sep, rest, ok);
    }
  }

  /** Two texts with a separator between them keep a pair property that holds inside each and around the separator. */
  lemma PairsOfSeparated(a: string, sep: char, b: string, ok: (char, char) -> bool)
    requires a != [] && b != [] && PairsOk(a, ok) && PairsOk(b, ok)
    requires ok(a[|a| - 1], sep) && ok(sep, b[0])
    ensures PairsOk(a + [sep] + b, ok)
  {
    var j := a + [sep] + b;
    forall i | 0 <= i < |j| - 1 ensures ok(j[i], j[i + 1]) {
      if i < |a| - 1 {
        assert j[i] == a[i] && j[i + 1] == a[i + 1];
      } else if i == |a| - 1 {
        assert j[i] == a[|a| - 1] && j[i + 1] == sep;
      } else if i == |a| {
        assert j[i] == sep && j[i + 1] == b[0];
      } else {
        assert j[i] == b[i - |a| - 1] && j[i + 1] == b[i - |a|];
      }
    }
  }

  // ------------------------------------------------------ split on a separator

  /** The first position of two neighbouring `' '` characters in `s`, or `|s|` when there is none. */
  function FindDoubleSpace(s: string): (k: nat)
    ensures k <= |s|
    ensures k < |s| ==> k + 1 < |s| && s[k] == ' ' && s[k + 1] == ' '
    ensures forall i :: 0 <= i < k && i + 1 < |s| ==> !(s[i] == ' ' && s[i + 1] == ' ')
  {
    if |s| < 2 then |s|
    else if s[0] == ' ' && s[1] == ' ' then 0
    else
      var k := FindDoubleSpace(s[1..]);
      assert forall i :: 1 <= i < k + 1 && i + 1 < |s| ==> s[1..][i - 1] == s[i] && s[1..][i] == s[i + 1];
      k + 1
  }

  /**
   * `s.split("  ")`: the pieces between the occurrences of two spaces, found
   * left to right without overlap.
   */
  function SplitOnDoubleSpace(s: string): (r: seq<string>)
    ensures r != []
    decreases |s|
  {
    var k := FindDoubleSpace(s);
    if k == |s| then [s] else [s[..k]] + SplitOnDoubleSpace(s[k + 2..])
  }

  /** Joining the pieces of `s.split("  ")` with two spaces gives `s` back. */
  lemma {:induction false} SplitOnDoubleSpaceJoin(s: string)
    ensures JoinWith(SplitOnDoubleSpace(s), "  ") == s
    decreases |s|
  {
    var k := FindDoubleSpace(s);
    if k < |s| {
      var pieces := SplitOnDoubleSpace(s[k + 2..]);
      SplitOnDoubleSpaceJoin(s[k + 2..]);
      assert ([s[..k]] + pieces)[1..] == pieces;
      DoubleSpaceAround(s, k);
    }
  }

  /** A text is what comes before a double space at `k`, the double space, and what follows it. */
  lemma DoubleSpaceAround(s: string, k: nat)
    requires k + 1 < |s| && s[k] == ' ' && s[k + 1] == ' '
    ensures s[..k] + "  " + s[k + 2..] == s
  {
  }

  /** No piece of `s.split("  ")` holds two neighbouring spaces. */
  lemma {:induction false} SplitOnDoubleSpacePieces(s: string)
    ensures forall p :: p in SplitOnDoubleSpace(s) ==> NoDoubleSpace(p)
    decreases |s|
  {
    var k := FindDoubleSpace(s);
    FirstPiece(s);
    if k < |s| {
      SplitOnDoubleSpacePieces(s[k + 2..]);
    }
  }

  /** The text before the first double space holds none. */
  lemma FirstPiece(s: string)
    ensures NoDoubleSpace(s[..FindDoubleSpace(s)])
  {
    var k := FindDoubleSpace(s);
    var first := s[..k];
    forall i: int | 0 <= i && i + 1 < k ensures !(first[i] == ' ' && first[i + 1] == ' ') {
      assert first[i] == s[i] && first[i + 1] == s[i + 1];
    }
  }

  /** Every piece of `s.split("  ")` is a slice of `s`. */
  lemma {:induction false} SplitOnDoubleSpaceSlices(s: string)
    ensures forall p :: p in SplitOnDoubleSpace(s) ==> IsSlice(p, s)
    decreases |s|
  {
    var k := FindDoubleSpace(s);
    assert s[..k] == s[0..k];
    if k < |s| {
      var tail := s[k + 2..];
      SplitOnDoubleSpaceSlices(tail);
      forall p | p in SplitOnDoubleSpace(tail) ensures IsSlice(p, s) {
        var i, j :| 0 <= i <= j <= |tail| && p == tail[i..j];
        SliceOfSlice(s, k + 2, i, j);
      }
    }
  }

  // ------------------------------------------------------------- split lines

  /** The length of the text before the first line boundary of `s`. */
  function LineLength(s: string): (n: nat)
    ensures n <= |s|
    ensures forall i :: 0 <= i < n ==> !IsLineBreak(s[i])
    ensures n < |s| ==> IsLineBreak(s[n])
  {
    if s == [] || IsLineBreak(s[0]) then 0 else 1 + LineLength(s[1..])
  }

  /** Where the text after the line boundary at `k` starts: `"\r\n"` is one boundary. */
  function AfterBreak(s: string, k: nat): (next: nat)
    requires k < |s|
    ensures k < next <= |s|
  {
    if s[k] == '\r' && k + 1 < |s| && s[k + 1] == '\n' then k + 2 else k + 1
  }

  /**
   * `s.splitlines()`: the lines of `s` without their line boundaries; a
   * boundary at the very end does not start another line.
   */
  function SplitLines(s: string): (r: seq<string>)
    ensures forall l, c :: l in r && c in l ==> !IsLineBreak(c)
    ensures forall l :: l in r ==> IsSlice(l, s)
    decreases |s|
  {
    if s == [] then []
    else
      var k := LineLength(s);
      assert s[..k] == s[0..k];
      if k == |s| then
        [s]
      else
        var next := AfterBreak(s, k);
        var rest := SplitLines(s[next..]);
        forall l | l in rest ensures IsSlice(l, s) {
          var i, j :| 0 <= i <= j <= |s[next..]| && l == s[next..][i..j];
          SliceOfSlice(s, next, i, j);
        }
        [s[..k]] + rest
  }

  lemma LineBreakIsSpace(c: char)
    requires IsLineBreak(c)
    ensures IsSpace(c)
  {
  }

  // ------------------------------------------------------ non-space content

  /** The characters of `s` that are not whitespace, in order. */
  function NonSpace(s: string): string
  {
    if s == [] then [] else (if IsSpace(s[0]) then [] else [s[0]]) + NonSpace(s[1..])
  }

  /** The concatenation of `ls`, as `"".join(ls)`. */
  function Concat(ls: seq<string>): string
  {
    if ls == [] then [] else ls[0] + Concat(ls[1..])
  }

  lemma {:induction false} NonSpaceAppend(a: string, b: string)
    ensures NonSpace(a + b) == NonSpace(a) + NonSpace(b)
  {
    if a == [] {
      assert a + b == b;
    } else {
      assert (a + b)[0] == a[0];
      assert (a + b)[1..] == a[1..] + b;
      NonSpaceAppend(a[1..], b);
    }
  }

  lemma {:induction false} NonSpaceSplit(s: string, n: nat)
    requires n <= |s|
    ensures NonSpace(s) == NonSpace(s[..n]) + NonSpace(s[n..])
  {
    if n > 0 {
      NonSpaceSplit(s[1..], n - 1);
      assert s[1..][..n - 1] == s[..n][1..] && s[1..][n - 1..] == s[n..];
    }
  }

  lemma {:induction false} NonSpaceOfBlank(s: string)
    requires forall i :: 0 <= i < |s| ==> IsSpace(s[i])
    ensures NonSpace(s) == []
  {
    if s != [] {
      NonSpaceOfBlank(s[1..]);
    }
  }

  lemma NonSpaceOfStripLeft(s: string)
    ensures NonSpace(StripLeft(s)) == NonSpace(s)
  {
    var left := StripLeft(s);
    var k := |s| - |left|;
    StripLeftRemovesSpaces(s);
    NonSpaceSplit(s, k);
    NonSpaceOfBlank(s[..k]);
  }

  lemma NonSpaceOfStripRight(s: string)
    ensures NonSpace(StripRight(s)) == NonSpace(s)
  {
    var r := StripRight(s);
    StripRightRemovesSpaces(s);
    NonSpaceSplit(s, |r|);
    NonSpaceOfBlank(s[|r|..]);
  }

  /** Stripping removes whitespace only. */
  lemma NonSpaceOfStrip(s: string)
    ensures NonSpace(Strip(s)) == NonSpace(s)
  {
    NonSpaceOfStripLeft(s);
    NonSpaceOfStripRight(StripLeft(s));
  }

  /** Joining with a blank separator adds no content. */
  lemma {:induction false} NonSpaceOfJoin(parts: seq<string>, sep: string)
    requires NonSpace(sep) == []
    ensures NonSpace(JoinWith(parts, sep)) == NonSpace(Concat(parts))
  {
    if |parts| == 1 {
      assert Concat(parts) == parts[0] + Concat([]);
      assert parts[0] + [] == parts[0];
    } else if |parts| > 1 {
      NonSpaceOfJoin(parts[1..], sep);
      var rest := JoinWith(parts[1..], sep);
      NonSpaceAppend(parts[0] + sep, rest);
      NonSpaceAppend(parts[0], sep);
      NonSpaceAppend(parts[0], Concat(parts[1..]));
    }
  }

  lemma {:induction false} ConcatAppend(a: seq<string>, b: seq<string>)
    ensures Concat(a + b) == Concat(a) + Concat(b)
  {
    if a == [] {
      assert a + b == b;
    } else {
      assert (a + b)[1..] == a[1..] + b;
      ConcatAppend(a[1..], b);
    }
  }

  /** Splitting into lines drops line boundaries, which are whitespace, and nothing else. */
  lemma {:induction false} NonSpaceOfSplitLines(s: string)
    ensures NonSpace(Concat(SplitLines(s))) == NonSpace(s)
    decreases |s|
  {
    if s != [] {
      var k := LineLength(s);
      if k == |s| {
        assert Concat([s]) == s + Concat([]);
        assert s + [] == s;
      } else {
        var next := AfterBreak(s, k);
        var line, rest := s[..k], s[next..];
        NonSpaceOfSplitLines(rest);
        assert SplitLines(s) == [line] + SplitLines(rest);
        assert Concat(SplitLines(s)) == line + Concat(SplitLines(rest));
        NonSpaceAppend(line, Concat(SplitLines(rest)));
        NonSpaceOfBreak(s, k, next);
      }
    }
  }

  lemma NonSpaceOfBreak(s: string, k: nat, next: nat)
    requires k < |s| && IsLineBreak(s[k]) && next == AfterBreak(s, k)
    ensures NonSpace(s) == NonSpace(s[..k]) + NonSpace(s[next..])
  {
    NonSpaceSplit(s, k);
    BreakIsBlank(s, k, next);
  }

  /** A line boundary has no content. */
  lemma BreakIsBlank(s: string, k: nat, next: nat)
    requires k < |s| && IsLineBreak(s[k]) && next == AfterBreak(s, k)
    ensures NonSpace(s[k..]) == NonSpace(s[next..])
  {
    var t := s[k..];
    var u := t[..next - k];
    forall i | 0 <= i < |u| ensures IsSpace(u[i]) {
      if i == 0 {
        LineBreakIsSpace(s[k]);
      } else {
        assert u[i] == s[k + 1] == '\n';
      }
    }
    NonSpaceOfBlank(u);
    NonSpaceSplit(t, next - k);
    assert t[next - k..] == s[next..];
  }

  lemma SliceOfSlice(s: string, a: nat, i: nat, j: nat)
    requires a <= |s| && i <= j <= |s| - a
    ensures s[a..][i..j] == s[a + i..a + j]
  {
  }
}
