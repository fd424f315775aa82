/** The part of Go's `strings` package the GitHub integration relies on, over strings
    read as sequences of runes. Each function follows the library's documented
    behaviour, including its edge cases (an empty separator, an empty search text). */
module Text {
  import opened Results

  /** Go's `unicode.IsSpace`: the ASCII spaces `\t \n \v \f \r` and blank, U+0085, U+00A0,
      and the Unicode white-space code points above Latin-1. */
  predicate IsSpace(c: char)
  {
    c == ' ' || ('\t' <= c <= '\r') || c == '\U{85}' || c == '\U{A0}' || c == '\U{1680}'
    || ('\U{2000}' <= c <= '\U{200A}') || c == '\U{2028}' || c == '\U{2029}'
    || c == '\U{202F}' || c == '\U{205F}' || c == '\U{3000}'
  }

  /** The cut set `strings.TrimSpace` uses. */
  const Spaces: set<char> := set c: char | IsSpace(c)

  // ------------------------------------------------------------------ trimming

  /** The index of the first rune at or after `i` that is outside `cut`, or `|s|`. */
  function SkipFrom(s: string, cut: set<char>, i: nat): (n: nat)
    requires i <= |s|
    ensures i <= n <= |s| && (n == |s| || s[n] !in cut)
    ensures forall k :: i <= k < n ==> s[k] in cut
    decreases |s| - i
  {
    if i < |s| && s[i] in cut then SkipFrom(s, cut, i + 1) else i
  }

  /** The index just after the last rune before `j` that is outside `cut`, or 0. */
  function SkipBack(s: string, cut: set<char>, j: nat): (n: nat)
    requires j <= |s|
    ensures n <= j && (n == 0 || s[n - 1] !in cut)
    ensures forall k :: n <= k < j ==> s[k] in cut
  {
    if 0 < j && s[j - 1] in cut then SkipBack(s, cut, j - 1) else j
  }

  /** `strings.TrimLeft(s, cutset)`: drop the longest prefix made of runes in `cut`. */
  function TrimLeft(s: string, cut: set<char>): (r: string)
    ensures |r| <= |s| && r == s[|s| - |r|..]
    ensures r == [] || r[0] !in cut
    ensures forall i :: 0 <= i < |s| - |r| ==> s[i] in cut
  {
    s[SkipFrom(s, cut, 0)..]
  }

  /** `strings.TrimRight(s, cutset)`: drop the longest suffix made of runes in `cut`. */
  function TrimRight(s: string, cut: set<char>): (r: string)
    ensures |r| <= |s| && r == s[..|r|]
    ensures r == [] || r[|r| - 1] !in cut
    ensures forall i :: |r| <= i < |s| ==> s[i] in cut
  {
    s[..SkipBack(s, cut, |s|)]
  }

  /** `strings.Trim(s, cutset)`: a contiguous piece of `s` whose first and last runes are
      outside `cut`, everything around it being in `cut`. */
  function Trim(s: string, cut: set<char>): (r: string)
    ensures r == [] || (r[0] !in cut && r[|r| - 1] !in cut)
    ensures var i := |s| - |TrimLeft(s, cut)|;
      i + |r| <= |s| && r == s[i..i + |r|]
      && (forall k :: 0 <= k < i ==> s[k] in cut)
      && (forall k :: i + |r| <= k < |s| ==> s[k] in cut)
  {
    var l := TrimLeft(s, cut);
    TrimPieces(s, l, TrimRight(l, cut), cut);
    TrimRight(l, cut)
  }

  /** What the two trims promise, put together: trimming the right of what trimming the left
      leaves is a piece of `s` with runes of `cut` only around it. */
  lemma TrimPieces(s: string, l: string, r: string, cut: set<char>)
    requires |l| <= |s| && l == s[|s| - |l|..]
    requires l == [] || l[0] !in cut
    requires forall k :: 0 <= k < |s| - |l| ==> s[k] in cut
    requires |r| <= |l| && r == l[..|r|]
    requires r == [] || r[|r| - 1] !in cut
    requires forall k :: |r| <= k < |l| ==> l[k] in cut
    ensures var i := |s| - |l|;
      && (r == [] || (r[0] !in cut && r[|r| - 1] !in cut))
      && i + |r| <= |s| && r == s[i..i + |r|]
      && (forall k :: 0 <= k < i ==> s[k] in cut)
      && (forall k :: i + |r| <= k < |s| ==> s[k] in cut)
  {
    var i := |s| - |l|;
    assert r != [] ==> r[0] == l[0];
    forall k | i + |r| <= k < |s|
      ensures s[k] in cut
    {
      assert s[k] == l[k - i];
    }
  }

  /** `strings.TrimSpace`. */
  function TrimSpace(s: string): (r: string)
    ensures r == [] || (!IsSpace(r[0]) && !IsSpace(r[|r| - 1]))
  {
    Trim(s, Spaces)
  }

  /** A string whose ends are outside `cut` is left alone by `Trim`. */
  lemma TrimFixed(s: string, cut: set<char>)
    requires s == [] || (s[0] !in cut && s[|s| - 1] !in cut)
    ensures Trim(s, cut) == s
  {
  }

  /** Trimming twice is trimming once. */
  lemma TrimSpaceIdempotent(s: string)
    ensures TrimSpace(TrimSpace(s)) == TrimSpace(s)
  {
    TrimFixed(TrimSpace(s), Spaces);
  }

  /** `Trim` removes exactly the padding: a core with non-`cut` ends, padded on both
      sides with runes of `cut`, comes back unchanged. */
  lemma {:induction false} TrimPadded(a: string, m: string, b: string, cut: set<char>)
    requires forall k :: 0 <= k < |a| ==> a[k] in cut
    requires forall k :: 0 <= k < |b| ==> b[k] in cut
    requires m != [] && m[0] !in cut && m[|m| - 1] !in cut
    ensures Trim(a + m + b, cut) == m
  {
    assert a + m + b == a + (m + b);
    TrimLeftPadded(a, m + b, cut);
    assert TrimLeft(a + m + b, cut) == m + b;
    TrimRightPadded(m, b, cut);
  }

  lemma {:induction false} TrimLeftPadded(a: string, t: string, cut: set<char>)
    requires forall k :: 0 <= k < |a| ==> a[k] in cut
    requires t != [] && t[0] !in cut
    ensures TrimLeft(a + t, cut) == t
    decreases |a|
  {
    if a != [] {
      assert (a + t)[1..] == a[1..] + t;
      TrimLeftPadded(a[1..], t, cut);
    }
  }

  lemma {:induction false} TrimRightPadded(t: string, b: string, cut: set<char>)
    requires forall k :: 0 <= k < |b| ==> b[k] in cut
    requires t != [] && t[|t| - 1] !in cut
    ensures TrimRight(t + b, cut) == t
    decreases |b|
  {
    if b != [] {
      var b' := b[..|b| - 1];
      assert (t + b)[..|t + b| - 1] == t + b';
      TrimRightPadded(t, b', cut);
    } else {
      assert t + b == t;
    }
  }

  function HasPrefix(s: string, p: string): bool
  {
    |p| <= |s| && s[..|p|] == p
  }

  /** `strings.TrimPrefix`: remove one copy of `p` from the front, when it is there. */
  function TrimPrefix(s: string, p: string): (r: string)
    ensures HasPrefix(s, p) ==> s == p + r
    ensures !HasPrefix(s, p) ==> r == s
  {
    if HasPrefix(s, p) then s[|p|..] else s
  }

  // ------------------------------------------------------------------ searching

  /** `pat` occurs in `s` starting at index `i`. */
  predicate OccursAt(s: string, pat: string, i: int)
  {
    0 <= i && i + |pat| <= |s| && s[i..i + |pat|] == pat
  }

  lemma OccursAtChar(s: string, c: char, i: int)
    ensures OccursAt(s, [c], i) <==> 0 <= i < |s| && s[i] == c
  {
    if 0 <= i < |s| {
      assert s[i..i + 1] == [s[i]];
    }
  }

  /** The first occurrence of `pat` at or after `k`, or -1. */
  function IndexFrom(s: string, pat: string, k: nat): (r: int)
    ensures r == -1 || (k <= r && OccursAt(s, pat, r))
    ensures r == -1 ==> forall j :: k <= j ==> !OccursAt(s, pat, j)
    ensures r != -1 ==> forall j :: k <= j < r ==> !OccursAt(s, pat, j)
    decreases |s| - k
  {
    if k + |pat| > |s| then -1
    else if s[k..k + |pat|] == pat then k
    else IndexFrom(s, pat, k + 1)
  }

  /** `strings.Index`: the index of the first occurrence of `pat` in `s`, or -1. */
  function IndexOf(s: string, pat: string): (r: int)
    ensures r == -1 <==> forall j :: !OccursAt(s, pat, j)
    ensures r != -1 ==> OccursAt(s, pat, r) && forall j :: 0 <= j < r ==> !OccursAt(s, pat, j)
  {
    IndexFrom(s, pat, 0)
  }

  /** The first occurrence is the one no earlier occurrence precedes. */
  lemma IndexOfIs(s: string, pat: string, k: nat)
    requires OccursAt(s, pat, k)
    requires forall j :: 0 <= j < k ==> !OccursAt(s, pat, j)
    ensures IndexOf(s, pat) == k
  {
  }

  /** `strings.Contains`. */
  predicate Contains(s: string, sub: string)
  {
    IndexOf(s, sub) != -1
  }

  /** `strings.SplitN(s, sep, 2)` for a non-empty separator: the text before and after
      the first `sep`, or None when `sep` does not occur (Go then returns `[s]`). */
  function Cut(s: string, sep: string): (r: Option<(string, string)>)
    requires sep != []
    ensures r.None? <==> forall j :: !OccursAt(s, sep, j)
    ensures r.Some? ==> s == r.value.0 + sep + r.value.1
    ensures r.Some? ==> forall j :: 0 <= j < |r.value.0| ==> !OccursAt(s, sep, j)
  {
    var i := IndexOf(s, sep);
    if i == -1 then None
    else
      assert s == s[..i] + sep + s[i + |sep|..];
      Some((s[..i], s[i + |sep|..]))
  }

  /** Cutting a text made of `a`, `sep` and `b` gives back `a` and `b` when `sep` does not
      start anywhere inside `a`. */
  lemma CutAt(a: string, sep: string, b: string)
    requires sep != []
    requires forall j :: 0 <= j < |a| ==> !OccursAt(a + sep + b, sep, j)
    ensures Cut(a + sep + b, sep) == Some((a, b))
  {
    var s := a + sep + b;
    assert s[|a|..|a| + |sep|] == sep;
    IndexOfIs(s, sep, |a|);
    assert s[..|a|] == a;
    assert s[|a| + |sep|..] == b;
  }

  /** A separator whose first rune is absent from `a` is first found right after `a`. */
  lemma CutFresh(a: string, sep: string, b: string)
    requires sep != [] && sep[0] !in a
    ensures Cut(a + sep + b, sep) == Some((a, b))
  {
    var s := a + sep + b;
    forall j | 0 <= j < |a| ensures !OccursAt(s, sep, j) {
      if j + |sep| <= |s| {
        assert s[j..j + |sep|][0] == a[j] != sep[0];
      }
    }
    CutAt(a, sep, b);
  }

  /** No occurrence of `pat` starts in `[lo, hi)` when the rune `pat[d]` is absent from the
      positions it would have to occupy. */
  lemma NoOccurrenceIn(s: string, pat: string, lo: int, hi: int, d: nat)
    requires d < |pat|
    requires forall j :: lo + d <= j < hi + d && 0 <= j < |s| ==> s[j] != pat[d]
    ensures forall j :: lo <= j < hi ==> !OccursAt(s, pat, j)
  {
    forall j | lo <= j < hi ensures !OccursAt(s, pat, j) {
      if 0 <= j && j + |pat| <= |s| {
        assert s[j..j + |pat|][d] == s[j + d] != pat[d];
      }
    }
  }

  // ------------------------------------------------------------------ splitting and joining

  /** `strings.Split(s, string(c))`: the pieces between the occurrences of `c`. */
  function Split(s: string, c: char): (r: seq<string>)
    ensures |r| >= 1
    ensures forall i :: 0 <= i < |r| ==> c !in r[i]
    decreases |s|
  {
    var k := IndexOf(s, [c]);
    if k == -1 then
      CharFree(s, c, |s|);
      [s]
    else
      CharFree(s, c, k);
      [s[..k]] + Split(s[k + 1..], c)
  }

  /** No occurrence of `[c]` before `k` means no `c` in `s[..k]`. */
  lemma CharFree(s: string, c: char, k: nat)
    requires k <= |s|
    requires forall j :: 0 <= j < k ==> !OccursAt(s, [c], j)
    ensures c !in s[..k]
    ensures k == |s| ==> c !in s
  {
    forall j | 0 <= j < k ensures s[j] != c { OccursAtChar(s, c, j); }
    assert s[..|s|] == s;
  }

  /** `strings.Join`. */
  function Join(parts: seq<string>, sep: string): string
  {
    if |parts| == 0 then []
    else if |parts| == 1 then parts[0]
    else parts[0] + sep + Join(parts[1..], sep)
  }

  /** The index of the first `c` in `s`, as `Split` finds it. */
  lemma FirstChar(s: string, c: char, k: nat)
    requires k < |s| && s[k] == c
    requires forall j :: 0 <= j < k ==> s[j] != c
    ensures IndexOf(s, [c]) == k
  {
    OccursAtChar(s, c, k);
    forall j | 0 <= j < k ensures !OccursAt(s, [c], j) { OccursAtChar(s, c, j); }
    IndexOfIs(s, [c], k);
  }

  lemma NoChar(s: string, c: char)
    requires c !in s
    ensures IndexOf(s, [c]) == -1
  {
    forall j ensures !OccursAt(s, [c], j) { OccursAtChar(s, c, j); }
  }

  /** A text without the separator is one piece. */
  lemma SplitNone(s: string, c: char)
    requires c !in s
    ensures Split(s, c) == [s]
  {
    NoChar(s, c);
  }

  /** A text with one separator is two pieces. */
  lemma SplitTwo(a: string, c: char, b: string)
    requires c !in a && c !in b
    ensures Split(a + [c] + b, c) == [a, b]
  {
    SplitCons(a, c, b);
    SplitNone(b, c);
  }

  /** Joining the pieces of a split with the separator gives back the text. */
  lemma {:induction false} JoinSplit(s: string, c: char)
    ensures Join(Split(s, c), [c]) == s
    decreases |s|
  {
    var k := IndexOf(s, [c]);
    if k == -1 {
      assert Split(s, c) == [s];
    } else {
      var rest := Split(s[k + 1..], c);
      JoinSplit(s[k + 1..], c);
      SplitFirst(s, c, k);
      Around(s, k);
      JoinCons(s[..k], rest, [c]);
    }
  }

  /** The first piece of a split ends at the first separator, and its separator joins it to
      the rest of the text. */
  lemma SplitFirst(s: string, c: char, k: int)
    requires k == IndexOf(s, [c]) && k != -1
    ensures 0 <= k < |s| && s[k] == c && Split(s, c) == [s[..k]] + Split(s[k + 1..], c)
  {
    assert s[k..k + 1][0] == s[k];
  }

  /** A text is what comes before position `k`, the rune there, and what follows. */
  lemma Around(s: string, k: nat)
    requires k < |s|
    ensures s == s[..k] + [s[k]] + s[k + 1..]
  {
  }

  /** Joining a piece before at least one more piece puts the separator after it. */
  lemma JoinCons(a: string, rest: seq<string>, sep: string)
    requires |rest| >= 1
    ensures Join([a] + rest, sep) == a + sep + Join(rest, sep)
  {
    assert ([a] + rest)[1..] == rest;
  }

  /** Splitting a join of pieces free of the separator gives back the pieces. */
  lemma {:induction false} SplitJoin(parts: seq<string>, c: char)
    requires |parts| >= 1
    requires forall i :: 0 <= i < |parts| ==> c !in parts[i]
    ensures Split(Join(parts, [c]), c) == parts
    decreases |parts|
  {
    if |parts| == 1 {
      NoChar(parts[0], c);
    } else {
      var s := Join(parts, [c]);
      var p := parts[0];
      assert s == p + [c] + Join(parts[1..], [c]);
      FirstChar(s, c, |p|);
      assert s[..|p|] == p;
      assert s[|p| + 1..] == Join(parts[1..], [c]);
      SplitJoin(parts[1..], c);
    }
  }

  /** A first piece free of `c` splits off whole. */
  lemma SplitCons(a: string, c: char, rest: string)
    requires c !in a
    ensures Split(a + [c] + rest, c) == [a] + Split(rest, c)
  {
    var s := a + [c] + rest;
    FirstChar(s, c, |a|);
    assert s[..|a|] == a;
    assert s[|a| + 1..] == rest;
  }

  /** The first piece of a split is the text up to the first `c`; the others, joined back,
      are the text after it (nothing when `c` does not occur). */
  lemma SplitHead(s: string, c: char)
    ensures var k := IndexOf(s, [c]);
      && (k == -1 ==> Split(s, c) == [s])
      && (k != -1 ==> Split(s, c)[0] == s[..k] && Join(Split(s, c)[1..], [c]) == s[k + 1..])
  {
    var k := IndexOf(s, [c]);
    if k != -1 {
      JoinSplit(s[k + 1..], c);
      assert Split(s, c)[1..] == Split(s[k + 1..], c);
    }
  }

  /** The length of the longest prefix of `t` free of white space. */
  function WordLength(t: string): (r: nat)
    ensures r <= |t|
    ensures forall j :: 0 <= j < r ==> !IsSpace(t[j])
    ensures r < |t| ==> IsSpace(t[r])
    decreases |t|
  {
    if t == [] || IsSpace(t[0]) then 0 else 1 + WordLength(t[1..])
  }

  /** A non-empty run of non-space runes. */
  predicate IsWord(w: string)
  {
    w != [] && forall k :: 0 <= k < |w| ==> !IsSpace(w[k])
  }

  /** `strings.Fields`: the maximal runs of non-space runes, in order. */
  function Fields(s: string): (r: seq<string>)
    ensures forall i :: 0 <= i < |r| ==> IsWord(r[i])
    decreases |s|
  {
    if s == [] then []
    else if IsSpace(s[0]) then Fields(s[1..])
    else
      var k := WordLength(s);
      assert IsWord(s[..k]);
      [s[..k]] + Fields(s[k..])
  }

  // ------------------------------------------------------------------ replacing

  /** `repl` before every rune of `s` and once more at its end: what Go's replace does with
      an empty search text. */
  function Interleave(s: string, repl: string): (r: string)
    ensures |r| >= |s| + |repl|
  {
    if s == [] then repl else repl + [s[0]] + Interleave(s[1..], repl)
  }

  /** `strings.ReplaceAll`: every non-overlapping occurrence of `target`, scanning left to right,
      replaced by `repl`. */
  function ReplaceAll(s: string, target: string, repl: string): string
    decreases |s|
  {
    if target == [] then Interleave(s, repl)
    else
      match Cut(s, target)
      case None => s
      case Some((a, b)) => a + repl + ReplaceAll(b, target, repl)
  }

  /** `Contains` is `Cut` finding something. */
  lemma ContainsCut(s: string, sub: string)
    requires sub != []
    ensures Contains(s, sub) <==> Cut(s, sub).Some?
  {
  }

  /** Replacing by a longer text never shortens, by a shorter one never lengthens, and
      strictly so once `target` occurs. */
  lemma {:induction false} ReplaceAllLength(s: string, target: string, repl: string)
    requires target != []
    ensures |repl| >= |target| ==> |ReplaceAll(s, target, repl)| >= |s|
    ensures |repl| <= |target| ==> |ReplaceAll(s, target, repl)| <= |s|
    ensures Contains(s, target) && |repl| > |target| ==> |ReplaceAll(s, target, repl)| > |s|
    ensures Contains(s, target) && |repl| < |target| ==> |ReplaceAll(s, target, repl)| < |s|
    decreases |s|
  {
    ContainsCut(s, target);
    match Cut(s, target)
    case None =>
    case Some((a, b)) =>
      ReplaceAllLength(b, target, repl);
  }

  lemma {:induction false} ReplaceAllSame(s: string, target: string)
    ensures ReplaceAll(s, target, target) == s
    decreases |s|
  {
    if target == [] {
      InterleaveEmpty(s);
    } else {
      match Cut(s, target)
      case None =>
      case Some((a, b)) =>
        ReplaceAllSame(b, target);
    }
  }

  /** One copy of `repl` per rune of `s`, and one more. */
  lemma {:induction false} InterleaveLength(s: string, repl: string)
    ensures |Interleave(s, repl)| == |s| + (|s| + 1) * |repl|
  {
    if s != [] {
      InterleaveLength(s[1..], repl);
    }
  }

  lemma {:induction false} InterleaveEmpty(s: string)
    ensures Interleave(s, []) == s
  {
    if s != [] {
      InterleaveEmpty(s[1..]);
      assert [] + [s[0]] + s[1..] == s;
    }
  }

  /** `ReplaceAll` leaves `s` unchanged exactly when `target` and `repl` coincide or a
      non-empty `target` does not occur in `s` (an empty `target` matches everywhere). */
  lemma {:induction false} ReplaceAllUnchanged(s: string, target: string, repl: string)
    ensures ReplaceAll(s, target, repl) == s <==> target == repl || (target != [] && !Contains(s, target))
  {
    if target == repl {
      ReplaceAllSame(s, target);
    } else if target == [] {
      assert |ReplaceAll(s, target, repl)| >= |s| + |repl|;
    } else {
      ContainsCut(s, target);
      ReplaceAllLength(s, target, repl);
      match Cut(s, target)
      case None =>
      case Some((a, b)) =>
        var r := ReplaceAll(s, target, repl);
        if |repl| == |target| {
          assert r == a + repl + ReplaceAll(b, target, repl);
          assert r[|a|..|a| + |repl|] == repl;
          assert s[|a|..|a| + |target|] == target;
        }
    }
  }
}
