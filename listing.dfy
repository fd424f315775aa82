/** The text a `strings.Builder` loop writes when it appends one piece per element of a list,
    and how that text can be taken apart again. */
module Listing {
  import opened Text

  /** The line that closes each block of a multi-line listing. */
  const Separator: string := "\n---\n\n"

  /** `piece(i, xs[i])` for every position in turn; the piece may use its position, as a
      numbered listing does. */
  function Render<T>(xs: seq<T>, piece: (nat, T) -> string): string
    decreases |xs|
  {
    if xs == [] then "" else Render(xs[..|xs| - 1], piece) + piece(|xs| - 1, xs[|xs| - 1])
  }

  /** One more turn of the loop appends the next piece. */
  lemma RenderStep<T>(xs: seq<T>, piece: (nat, T) -> string, i: nat)
    requires i < |xs|
    ensures Render(xs[..i + 1], piece) == Render(xs[..i], piece) + piece(i, xs[i])
  {
    assert xs[..i + 1][..i] == xs[..i];
  }

  /** A loop turn that appends the next piece after `prefix` and the earlier pieces keeps the
      text equal to `prefix` and the pieces so far. */
  lemma AppendStep<T>(prefix: string, out: string, xs: seq<T>, piece: (nat, T) -> string, i: nat, next: string)
    requires i < |xs|
    requires out == prefix + Render(xs[..i], piece) && next == out + piece(i, xs[i])
    ensures next == prefix + Render(xs[..i + 1], piece)
  {
    RenderStep(xs, piece, i);
  }

  /** The `strings.Builder` loop itself: after `prefix`, write the piece for every element
      in turn. */
  method WriteAll<T>(prefix: string, xs: seq<T>, piece: (nat, T) -> string) returns (out: string)
    ensures out == prefix + Render(xs, piece)
  {
    out := prefix;
    for i := 0 to |xs|
      invariant out == prefix + Render(xs[..i], piece)
    {
      var next := out + piece(i, xs[i]);
      AppendStep(prefix, out, xs, piece, i, next);
      out := next;
    }
    assert xs[..|xs|] == xs;
  }

  /** What the first `j` turns wrote is never changed by the later ones. */
  lemma {:induction false} RenderPrefix<T>(xs: seq<T>, piece: (nat, T) -> string, j: nat)
    requires j <= |xs|
    ensures Render(xs[..j], piece) <= Render(xs, piece)
    decreases |xs|
  {
    if j == |xs| {
      assert xs[..j] == xs;
    } else {
      var init := xs[..|xs| - 1];
      RenderPrefix(init, piece, j);
      assert init[..j] == xs[..j];
    }
  }

  /** The listing holds the pieces in list order: the piece for position `i` lies right
      after the pieces for the positions before it. */
  lemma RenderPlaces<T>(xs: seq<T>, piece: (nat, T) -> string, i: nat)
    requires i < |xs|
    ensures var s := Render(xs, piece);
      var a := |Render(xs[..i], piece)|;
      var b := |Render(xs[..i + 1], piece)|;
      a <= b <= |s| && s[a..b] == piece(i, xs[i])
  {
    RenderStep(xs, piece, i);
    RenderPrefix(xs, piece, i + 1);
    var s := Render(xs, piece);
    var p := Render(xs[..i + 1], piece);
    assert s[..|p|] == p;
  }

  /** The same after a header: the piece for position `i` follows the header and the pieces
      before it. */
  lemma HeadedPlaces<T>(header: string, xs: seq<T>, piece: (nat, T) -> string, i: nat)
    requires i < |xs|
    ensures var s := header + Render(xs, piece);
      var a := |header| + |Render(xs[..i], piece)|;
      var b := |header| + |Render(xs[..i + 1], piece)|;
      a <= b <= |s| && s[a..b] == piece(i, xs[i])
  {
    RenderPlaces(xs, piece, i);
    var r := Render(xs, piece);
    var a := |Render(xs[..i], piece)|;
    var b := |Render(xs[..i + 1], piece)|;
    assert (header + r)[|header| + a..|header| + b] == r[a..b];
  }

  /** When the piece for position `i` ends with `suffix`, so does its place in the listing. */
  lemma HeadedPlaceEnds<T>(header: string, xs: seq<T>, piece: (nat, T) -> string, i: nat, suffix: string)
    requires i < |xs|
    requires |suffix| <= |piece(i, xs[i])| && piece(i, xs[i])[|piece(i, xs[i])| - |suffix|..] == suffix
    ensures var s := header + Render(xs, piece);
      var b := |header| + |Render(xs[..i + 1], piece)|;
      |suffix| <= b <= |s| && s[b - |suffix|..b] == suffix
  {
    HeadedPlaces(header, xs, piece, i);
    var s := header + Render(xs, piece);
    var a := |header| + |Render(xs[..i], piece)|;
    var b := |header| + |Render(xs[..i + 1], piece)|;
    var p := piece(i, xs[i]);
    assert s[b - |suffix|..b] == s[a..b][|p| - |suffix|..];
  }

  /** The elements `keep` accepts, in order. */
  function Kept<T>(xs: seq<T>, keep: T -> bool): (r: seq<T>)
    ensures |r| <= |xs|
    ensures forall k :: 0 <= k < |r| ==> keep(r[k]) && r[k] in xs
    decreases |xs|
  {
    if xs == [] then []
    else
      var init := Kept(xs[..|xs| - 1], keep);
      assert forall k :: 0 <= k < |init| ==> init[k] in xs;
      init + (if keep(xs[|xs| - 1]) then [xs[|xs| - 1]] else [])
  }

  /** An element is kept exactly when it occurs in the list and `keep` accepts it. */
  lemma {:induction false} KeptMembers<T>(xs: seq<T>, keep: T -> bool)
    ensures forall x :: x in Kept(xs, keep) <==> x in xs && keep(x)
    decreases |xs|
  {
    if xs != [] {
      var init := xs[..|xs| - 1];
      KeptMembers(init, keep);
      assert xs == init + [xs[|xs| - 1]];
    }
  }

  /** Filtering a concatenation filters each part in turn: the kept elements keep their
      order and their repetitions. */
  lemma {:induction false} KeptAppend<T>(a: seq<T>, b: seq<T>, keep: T -> bool)
    ensures Kept(a + b, keep) == Kept(a, keep) + Kept(b, keep)
    decreases |b|
  {
    if b == [] {
      assert a + b == a;
    } else {
      var init := b[..|b| - 1];
      var last := b[|b| - 1];
      KeptAppend(a, init, keep);
      assert (a + b)[..|a + b| - 1] == a + init;
      assert (a + b)[|a + b| - 1] == last;
    }
  }

  /** When a piece ignores its position and is empty for the elements `keep` rejects, the
      listing is that of the elements it keeps. */
  lemma {:induction false} RenderKept<T>(xs: seq<T>, piece: (nat, T) -> string, keep: T -> bool)
    requires forall j: nat, k: nat, x: T :: piece(j, x) == piece(k, x)
    requires forall k: nat, x: T :: !keep(x) ==> piece(k, x) == []
    ensures Render(xs, piece) == Render(Kept(xs, keep), piece)
    decreases |xs|
  {
    if xs != [] {
      var init := xs[..|xs| - 1];
      var last := xs[|xs| - 1];
      RenderKept(init, piece, keep);
      var kept := Kept(init, keep);
      assert xs[..|xs| - 1] == init;
      if keep(last) {
        assert Kept(xs, keep) == kept + [last];
        assert (kept + [last])[..|kept|] == kept;
        assert Render(kept + [last], piece) == Render(kept, piece) + piece(|kept|, last);
        assert piece(|init|, last) == piece(|kept|, last);
      } else {
        assert Kept(xs, keep) == kept;
      }
    }
  }

  /** The entries of a one-line-per-element listing, without their line breaks. */
  function Entries<T>(xs: seq<T>, line: (nat, T) -> string): (r: seq<string>)
    ensures |r| == |xs| && forall k :: 0 <= k < |xs| ==> r[k] == line(k, xs[k])
  {
    seq(|xs|, k requires 0 <= k < |xs| => line(k, xs[k]))
  }

  /** One more element adds its entry at the end. */
  lemma EntriesStep<T>(xs: seq<T>, line: (nat, T) -> string, m: nat)
    requires m < |xs|
    ensures Entries(xs[..m + 1], line) == Entries(xs[..m], line) + [line(m, xs[m])]
  {
    assert xs[..m + 1][m] == xs[m];
  }

  /** Splitting the first `n` lines followed by any text `s`. */
  lemma {:induction false} RenderSplit<T>(xs: seq<T>, piece: (nat, T) -> string, line: (nat, T) -> string,
                                         n: nat, s: string)
    requires n <= |xs|
    requires forall k :: 0 <= k < |xs| ==> piece(k, xs[k]) == line(k, xs[k]) + "\n" && '\n' !in line(k, xs[k])
    ensures Split(Render(xs[..n], piece) + s, '\n') == Entries(xs[..n], line) + Split(s, '\n')
  {
    if n == 0 {
      assert Entries(xs[..0], line) == [];
      assert Render(xs[..0], piece) + s == s;
    } else {
      var m := n - 1;
      var l := line(m, xs[m]);
      var t := l + ['\n'] + s;
      assert Render(xs[..n], piece) + s == Render(xs[..m], piece) + t by {
        RenderStep(xs, piece, m);
      }
      RenderSplit(xs, piece, line, m, t);
      assert Split(t, '\n') == [l] + Split(s, '\n') by {
        SplitCons(l, '\n', s);
      }
      EntriesStep(xs, line, m);
    }
  }

  /** A listing of one line per element splits back into exactly those lines, in order,
      followed by the empty text after the last line break. */
  lemma RenderLines<T>(xs: seq<T>, piece: (nat, T) -> string, line: (nat, T) -> string)
    requires forall k :: 0 <= k < |xs| ==> piece(k, xs[k]) == line(k, xs[k]) + "\n" && '\n' !in line(k, xs[k])
    ensures Split(Render(xs, piece), '\n') == Entries(xs, line) + [""]
  {
    RenderSplit(xs, piece, line, |xs|, "");
    assert xs[..|xs|] == xs;
    assert Render(xs, piece) + "" == Render(xs, piece);
    SplitNone("", '\n');
  }

  /** A header line followed by a one-line-per-element listing splits back into the header,
      the entries in order and the empty text after the last line break. */
  lemma HeadedLines<T>(header: string, xs: seq<T>, piece: (nat, T) -> string, line: (nat, T) -> string)
    requires '\n' !in header
    requires forall k :: 0 <= k < |xs| ==> piece(k, xs[k]) == line(k, xs[k]) + "\n" && '\n' !in line(k, xs[k])
    ensures Split(header + "\n" + Render(xs, piece), '\n') == [header] + Entries(xs, line) + [""]
  {
    SplitCons(header, '\n', Render(xs, piece));
    RenderLines(xs, piece, line);
  }
}
