/**
 * The Python string operations the scripts rely on, over `string` (a sequence of code points):
 * whitespace as `str.isspace` sees it, `strip()`, `split(sep)` with an explicit separator and
 * its inverse `sep.join(...)`, `rsplit(c, 1)`, `rsplit(None, 1)` and the slice `s[-n:]`.
 */
module Text {
  import opened Wrappers

  /** The code points Python's `str.split()` / `str.strip()` treat as whitespace. */
  predicate IsSpace(c: char) {
    var n := c as int;
    (9 <= n <= 13) || (28 <= n <= 32) || n == 0x85 || n == 0xA0 || n == 0x1680
    || (0x2000 <= n <= 0x200A) || n == 0x2028 || n == 0x2029 || n == 0x202F || n == 0x205F || n == 0x3000
  }

  predicate NoSpace(s: string) {
    forall i :: 0 <= i < |s| ==> !IsSpace(s[i])
  }

  predicate AllSpace(s: string) {
    forall i :: 0 <= i < |s| ==> IsSpace(s[i])
  }

  // ---------------------------------------------------------------- strip

  /** `s.rstrip()`: the longest prefix of `s` that does not end in whitespace. */
  function TrimRight(s: string): (r: string)
    ensures |r| <= |s| && r == s[..|r|]
    ensures forall i :: |r| <= i < |s| ==> IsSpace(s[i])
    ensures r == [] || !IsSpace(s[|r| - 1])
  {
    if |s| == 0 || !IsSpace(s[|s| - 1]) then s
    else TrimRight(s[..|s| - 1])
  }

  /** `s.lstrip()`: the longest suffix of `s` that does not start with whitespace. */
  function TrimLeft(s: string): (r: string)
    ensures |r| <= |s| && r == s[|s| - |r|..]
    ensures forall i :: 0 <= i < |s| - |r| ==> IsSpace(s[i])
    ensures r == [] || !IsSpace(s[|s| - |r|])
  {
    if |s| == 0 || !IsSpace(s[0]) then s
    else TrimLeft(s[1..])
  }

  /** `s.strip()`. */
  function Strip(s: string): (r: string)
    ensures |r| <= |s|
    ensures r == [] || (!IsSpace(r[0]) && !IsSpace(r[|r| - 1]))
  {
    TrimLeft(TrimRight(s))
  }

  lemma {:induction false} TrimRightPadded(core: string, trail: string)
    requires AllSpace(trail)
    ensures TrimRight(core + trail) == TrimRight(core)
    decreases |trail|
  {
    if |trail| > 0 {
      var t := trail[..|trail| - 1];
      assert (core + trail)[..|core + trail| - 1] == core + t;
      TrimRightPadded(core, t);
    } else {
      assert core + trail == core;
    }
  }

  lemma {:induction false} TrimLeftPadded(lead: string, core: string)
    requires AllSpace(lead)
    requires core == [] || !IsSpace(core[0])
    ensures TrimLeft(lead + core) == core
    decreases |lead|
  {
    if |lead| > 0 {
      assert (lead + core)[1..] == lead[1..] + core;
      TrimLeftPadded(lead[1..], core);
    } else {
      assert lead + core == core;
    }
  }

  /**
   * `strip()` removes exactly the whitespace margins: any text with no whitespace at its two ends,
   * padded with whitespace on either side, strips back to itself.
   */
  lemma StripPadded(lead: string, core: string, trail: string)
    requires AllSpace(lead) && AllSpace(trail)
    requires core == [] || (!IsSpace(core[0]) && !IsSpace(core[|core| - 1]))
    ensures Strip(lead + core + trail) == core
  {
    TrimRightPadded(lead + core, trail);
    if core == [] {
      assert lead + core == lead;
      TrimRightPadded([], lead);
      assert [] + lead == lead;
    } else {
      assert TrimRight(lead + core) == lead + core;
    }
    TrimLeftPadded(lead, core);
  }

  /** Text with no whitespace at either end is left alone by `strip()`. */
  lemma StripClean(core: string)
    requires core == [] || (!IsSpace(core[0]) && !IsSpace(core[|core| - 1]))
    ensures Strip(core) == core
  {
    assert TrimRight(core) == core;
  }

  lemma StripIdempotent(s: string)
    ensures Strip(Strip(s)) == Strip(s)
  {
    StripClean(Strip(s));
  }

  // ---------------------------------------------------------------- split / join

  /** `sep.join(parts)`. */
  function Join(parts: seq<string>, sep: char): string
    requires |parts| > 0
  {
    if |parts| == 1 then parts[0] else parts[0] + [sep] + Join(parts[1..], sep)
  }

  /** Joining two pieces or more puts a separator after the first. */
  lemma JoinCons(parts: seq<string>, sep: char)
    requires |parts| > 1
    ensures Join(parts, sep) == parts[0] + [sep] + Join(parts[1..], sep)
  {
  }

  /** `s.split(sep)`: never empty, and no piece contains `sep`. */
  function Split(s: string, sep: char): (parts: seq<string>)
    ensures |parts| > 0
    ensures forall i :: 0 <= i < |parts| ==> sep !in parts[i]
  {
    if |s| == 0 then [""] else ConsPiece(s[0], Split(s[1..], sep), sep)
  }

  /**
   * The pieces of a text given those of the text without its first character `c`: a separator
   * starts a new empty piece, any other character joins the first piece.
   */
  function ConsPiece(c: char, rest: seq<string>, sep: char): (parts: seq<string>)
    requires |rest| > 0
    ensures |parts| > 0
    ensures (forall i :: 0 <= i < |rest| ==> sep !in rest[i]) ==> forall i :: 0 <= i < |parts| ==> sep !in parts[i]
  {
    if c == sep then
      assert forall i :: 1 <= i < |rest| + 1 ==> ([""] + rest)[i] == rest[i - 1];
      [""] + rest
    else
      var parts := [[c] + rest[0]] + rest[1..];
      assert forall i :: 1 <= i < |parts| ==> parts[i] == rest[i];
      parts
  }

  /** Pieces added in front of a text only affect the pieces before the ones of `more`. */
  lemma ConsPieceAppend(c: char, rest: seq<string>, more: seq<string>, sep: char)
    requires |rest| > 0
    ensures ConsPiece(c, rest + more, sep) == ConsPiece(c, rest, sep) + more
  {
    if c == sep {
      assert [""] + (rest + more) == ([""] + rest) + more;
    } else {
      assert (rest + more)[0] == rest[0] && (rest + more)[1..] == rest[1..] + more;
    }
  }

  /** Joining the pieces of `s.split(sep)` with `sep` gives `s` back. */
  lemma {:induction false} JoinSplit(s: string, sep: char)
    ensures Join(Split(s, sep), sep) == s
    decreases |s|
  {
    if |s| > 0 {
      JoinSplit(s[1..], sep);
      JoinConsPiece(s[0], Split(s[1..], sep), sep);
      assert s == [s[0]] + s[1..];
    }
  }

  /** Joining the pieces after a first character gives that character followed by the joined rest. */
  lemma JoinConsPiece(c: char, rest: seq<string>, sep: char)
    requires |rest| > 0
    ensures Join(ConsPiece(c, rest, sep), sep) == [c] + Join(rest, sep)
  {
    var parts := ConsPiece(c, rest, sep);
    if c == sep {
      assert parts[1..] == rest;
    } else {
      assert parts[1..] == rest[1..];
    }
  }

  lemma {:induction false} SplitWithoutSeparator(s: string, sep: char)
    requires sep !in s
    ensures Split(s, sep) == [s]
    decreases |s|
  {
    if |s| > 0 {
      assert sep !in s[1..];
      SplitWithoutSeparator(s[1..], sep);
      assert s == [s[0]] + s[1..];
    }
  }

  /** Splitting at one separator occurrence: the pieces of the two sides, concatenated. */
  lemma {:induction false} SplitAround(a: string, b: string, sep: char)
    ensures Split(a + [sep] + b, sep) == Split(a, sep) + Split(b, sep)
    decreases |a|
  {
    var s := a + [sep] + b;
    if |a| == 0 {
      assert s[0] == sep && s[1..] == b;
    } else {
      assert s[0] == a[0] && s[1..] == a[1..] + [sep] + b;
      SplitAround(a[1..], b, sep);
      ConsPieceAppend(a[0], Split(a[1..], sep), Split(b, sep), sep);
    }
  }

  /** `split` is the inverse of `join` on pieces that do not contain the separator. */
  lemma {:induction false} SplitJoin(parts: seq<string>, sep: char)
    requires |parts| > 0
    requires forall i :: 0 <= i < |parts| ==> sep !in parts[i]
    ensures Split(Join(parts, sep), sep) == parts
    decreases |parts|
  {
    SplitWithoutSeparator(parts[0], sep);
    if |parts| > 1 {
      SplitJoin(parts[1..], sep);
      SplitAround(parts[0], Join(parts[1..], sep), sep);
      assert parts == [parts[0]] + parts[1..];
    }
  }

  /** The joined text ends with the last piece, and just before it sits a separator when there are several pieces. */
  lemma {:induction false} JoinEndsWithLast(parts: seq<string>, sep: char)
    requires |parts| > 0
    ensures var s, l := Join(parts, sep), parts[|parts| - 1];
      |l| <= |s| && s[|s| - |l|..] == l && (|parts| > 1 ==> |l| < |s| && s[|s| - |l| - 1] == sep)
    decreases |parts|
  {
    if |parts| > 1 {
      JoinEndsWithLast(parts[1..], sep);
    }
  }

  /** `s.split(sep)[-1]`: the text after the last separator. */
  function LastSegment(s: string, sep: char): (r: string)
    ensures sep !in r
    ensures |r| <= |s| && s[|s| - |r|..] == r
    ensures |r| == |s| ==> sep !in s
    ensures |r| < |s| ==> s[|s| - |r| - 1] == sep
  {
    var parts := Split(s, sep);
    JoinSplit(s, sep);
    JoinEndsWithLast(parts, sep);
    if |parts| == 1 then
      assert s == parts[0];
      parts[0]
    else
      parts[|parts| - 1]
  }

  lemma LastSegmentAfter(prefix: string, name: string, sep: char)
    requires sep !in name
    ensures LastSegment(prefix + [sep] + name, sep) == name
  {
    SplitAround(prefix, name, sep);
    SplitWithoutSeparator(name, sep);
  }

  // ---------------------------------------------------------------- rsplit

  function LastIndexOf(s: string, c: char): (k: Option<nat>)
    ensures k.None? ==> c !in s
    ensures k.Some? ==> k.value < |s| && s[k.value] == c && c !in s[k.value + 1..]
  {
    if |s| == 0 then None
    else if s[|s| - 1] == c then Some(|s| - 1)
    else
      var k := LastIndexOf(s[..|s| - 1], c);
      LastIndexBefore(s, c, k);
      k
  }

  /** What holds of the text without its last character, which is not `c`, holds of the whole. */
  lemma LastIndexBefore(s: string, c: char, k: Option<nat>)
    requires |s| > 0 && s[|s| - 1] != c
    requires k.None? ==> c !in s[..|s| - 1]
    requires k.Some? ==> k.value < |s| - 1 && s[k.value] == c && c !in s[..|s| - 1][k.value + 1..]
    ensures k.None? ==> c !in s
    ensures k.Some? ==> c !in s[k.value + 1..]
  {
    if k.Some? {
      assert s[k.value + 1..] == s[..|s| - 1][k.value + 1..] + [s[|s| - 1]];
    } else {
      assert s == s[..|s| - 1] + [s[|s| - 1]];
    }
  }

  /** `s.rsplit(c, 1)`: one piece when `c` does not occur, otherwise the text around its last occurrence. */
  function RSplitOnce(s: string, c: char): (parts: seq<string>)
    ensures |parts| == 1 <==> c !in s
    ensures |parts| == 1 ==> parts[0] == s
    ensures |parts| != 1 ==> |parts| == 2 && s == parts[0] + [c] + parts[1] && c !in parts[1]
  {
    match LastIndexOf(s, c)
    case None => [s]
    case Some(k) =>
      assert s == s[..k] + [c] + s[k + 1..];
      [s[..k], s[k + 1..]]
  }

  lemma RSplitOnceAt(head: string, tail: string, c: char)
    requires c !in tail
    ensures RSplitOnce(head + [c] + tail, c) == [head, tail]
  {
    var s := head + [c] + tail;
    var k := LastIndexOf(s, c);
    assert s[|head|] == c;
    assert k.Some?;
    assert s[..|head|] == head && s[|head| + 1..] == tail;
  }

  /** The index where the last whitespace-free run of `t` starts. */
  function TokenStart(t: string): (k: nat)
    ensures k <= |t|
    ensures forall i :: k <= i < |t| ==> !IsSpace(t[i])
    ensures k == 0 || IsSpace(t[k - 1])
  {
    if |t| == 0 || IsSpace(t[|t| - 1]) then |t|
    else TokenStart(t[..|t| - 1])
  }

  /**
   * `s.rsplit(None, 1)`: trailing whitespace is dropped, the last whitespace-free token is cut off,
   * and whatever precedes it (minus the whitespace run in between) is the first piece, if non-empty.
   */
  function RSplitWhitespaceOnce(s: string): (parts: seq<string>)
    ensures |parts| <= 2
    ensures forall i :: 0 <= i < |parts| ==> parts[i] != []
    ensures |parts| > 0 ==> NoSpace(parts[|parts| - 1])
  {
    var t := TrimRight(s);
    if t == [] then []
    else
      var k := TokenStart(t);
      var head := TrimRight(t[..k]);
      if head == [] then [t[k..]] else [head, t[k..]]
  }

  /** The two pieces of `rsplit(None, 1)` in terms of the trimmed text and where its last token starts. */
  lemma RSplitWhitespaceOncePieces(s: string)
    requires |RSplitWhitespaceOnce(s)| == 2
    ensures var t := TrimRight(s); var k := TokenStart(t);
      RSplitWhitespaceOnce(s)[0] == TrimRight(t[..k]) && RSplitWhitespaceOnce(s)[1] == t[k..]
  {
  }

  lemma RSplitHeadFacts(s: string)
    requires |RSplitWhitespaceOnce(s)| == 2
    ensures var head, t := RSplitWhitespaceOnce(s)[0], TrimRight(s);
      && |head| < TokenStart(t) && s[..|head|] == head
      && forall i :: |head| <= i < TokenStart(t) ==> IsSpace(s[i])
  {
    RSplitWhitespaceOncePieces(s);
    var head := RSplitWhitespaceOnce(s)[0];
    HeadShorter(s, head);
    HeadPrefix(s, head);
    GapIsSpace(s, head);
  }

  /** A non-empty piece before the last token, trimmed, ends before the whitespace that precedes the token. */
  lemma HeadShorter(s: string, head: string)
    requires head == TrimRight(TrimRight(s)[..TokenStart(TrimRight(s))]) && head != []
    ensures |head| < TokenStart(TrimRight(s))
  {
  }

  /** The piece before the last token is a prefix of the text. */
  lemma HeadPrefix(s: string, head: string)
    requires head == TrimRight(TrimRight(s)[..TokenStart(TrimRight(s))])
    ensures s[..|head|] == head
  {
    var t := TrimRight(s);
    var k := TokenStart(t);
    assert forall i :: 0 <= i < |head| ==> s[i] == t[..k][i];
  }

  /** Between the piece before the last token and the token itself there is only whitespace. */
  lemma GapIsSpace(s: string, head: string)
    requires head == TrimRight(TrimRight(s)[..TokenStart(TrimRight(s))])
    ensures forall i :: |head| <= i < TokenStart(TrimRight(s)) ==> IsSpace(s[i])
  {
    var t := TrimRight(s);
    var k := TokenStart(t);
    assert forall i :: 0 <= i < k ==> s[i] == t[..k][i];
  }

  lemma RSplitTokenFacts(s: string)
    requires |RSplitWhitespaceOnce(s)| == 2
    ensures var tok, t := RSplitWhitespaceOnce(s)[1], TrimRight(s);
      TokenStart(t) == |t| - |tok| && s[|t| - |tok|..|t|] == tok
  {
    RSplitWhitespaceOncePieces(s);
  }

  /**
   * When `rsplit(None, 1)` yields two pieces, the text is the first piece, a non-empty run of
   * whitespace, the second piece and trailing whitespace; the first piece ends in a non-space.
   */
  lemma RSplitWhitespaceOnceShape(s: string)
    requires |RSplitWhitespaceOnce(s)| == 2
    ensures var parts, n := RSplitWhitespaceOnce(s), |TrimRight(s)|;
      var head, tok := parts[0], parts[1];
      && !IsSpace(head[|head| - 1])
      && |head| < n - |tok| && n <= |s|
      && s[..|head|] == head
      && s[n - |tok|..n] == tok
      && (forall i :: |head| <= i < n - |tok| ==> IsSpace(s[i]))
      && (forall i :: n <= i < |s| ==> IsSpace(s[i]))
  {
    RSplitHeadFacts(s);
    RSplitTokenFacts(s);
  }

  /** A whitespace character after the first non-space survives `lstrip()`. */
  lemma SpaceSurvivesTrimLeft(t: string, j: nat, k: nat)
    requires j < k < |t|
    requires !IsSpace(t[j]) && IsSpace(t[k])
    ensures !NoSpace(TrimLeft(t))
  {
    SpaceInSuffix(t, TrimLeft(t), j, k);
  }

  /** A suffix that leaves out only whitespace keeps every character from the first non-space on. */
  lemma SpaceInSuffix(t: string, r: string, j: nat, k: nat)
    requires j < k < |t| && !IsSpace(t[j]) && IsSpace(t[k])
    requires |r| <= |t| && r == t[|t| - |r|..]
    requires forall i :: 0 <= i < |t| - |r| ==> IsSpace(t[i])
    ensures !NoSpace(r)
  {
    var d := |t| - |r|;
    assert r[k - d] == t[k];
  }

  /** Two pieces means a whitespace character survives stripping. */
  lemma TwoPiecesHaveInnerSpace(s: string)
    requires |RSplitWhitespaceOnce(s)| == 2
    ensures !NoSpace(Strip(s))
  {
    RSplitHeadFacts(s);
    var t := TrimRight(s);
    var n := |RSplitWhitespaceOnce(s)[0]|;
    assert t[n - 1] == s[n - 1];
    SpaceSurvivesTrimLeft(t, n - 1, TokenStart(t) - 1);
  }

  /** `lstrip()` cuts exactly the leading whitespace run, wherever it ends. */
  lemma {:induction false} TrimLeftAt(t: string, k: nat)
    requires k <= |t|
    requires forall i :: 0 <= i < k ==> IsSpace(t[i])
    requires k == |t| || !IsSpace(t[k])
    ensures TrimLeft(t) == t[k..]
    decreases k
  {
    if k > 0 {
      TrimLeftAt(t[1..], k - 1);
      assert t[1..][k - 1..] == t[k..];
    }
  }

  lemma SingleTokenHead(s: string)
    requires |RSplitWhitespaceOnce(s)| < 2 && TrimRight(s) != []
    ensures var t := TrimRight(s); TrimRight(t[..TokenStart(t)]) == []
  {
  }

  /** Fewer than two pieces means the stripped text is a single token (or nothing). */
  lemma FewerPiecesNoInnerSpace(s: string)
    requires |RSplitWhitespaceOnce(s)| < 2
    ensures NoSpace(Strip(s))
  {
    var t := TrimRight(s);
    if t != [] {
      SingleTokenHead(s);
      var k := TokenStart(t);
      assert forall i :: 0 <= i < k ==> IsSpace(t[i]) by {
        assert forall i :: 0 <= i < k ==> t[..k][i] == t[i];
      }
      TrimLeftAt(t, k);
    }
  }

  // ---------------------------------------------------------------- slicing

  /** Python's `s[-n:]` for `n > 0`: the last `n` characters, or all of `s` when it is shorter. */
  function TakeLast(s: string, n: nat): (r: string)
    ensures |r| == if |s| < n then |s| else n
    ensures r == s[|s| - |r|..]
  {
    if |s| <= n then s else s[|s| - n..]
  }
}
