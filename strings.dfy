/** The parts of Go's `strings` package that the parser uses, for a non-empty
    separator: `Index`, `Split`, `SplitN(s, sep, 2)` and `Join`. `Split`
    cuts at the leftmost occurrence of the separator and goes on after it, so
    the occurrences it cuts at never overlap. */
module Strings {
  import opened Outcomes

  /** `sep` occurs in `s` starting at position `i`. */
  predicate OccursAt(s: string, sep: string, i: int)
  {
    0 <= i && i + |sep| <= |s| && s[i..i + |sep|] == sep
  }

  /** The first position at or after `from` where `sep` occurs in `s`. */
  function IndexFrom(s: string, sep: string, from: nat): (r: Option<nat>)
    requires 0 < |sep| && from <= |s|
    ensures r.Some? ==> from <= r.value && OccursAt(s, sep, r.value)
    ensures r.Some? ==> forall k :: from <= k < r.value ==> !OccursAt(s, sep, k)
    ensures r.None? ==> forall k :: from <= k ==> !OccursAt(s, sep, k)
    decreases |s| - from
  {
    if |s| < from + |sep| then None
    else if s[from..from + |sep|] == sep then Some(from)
    else IndexFrom(s, sep, from + 1)
  }

  /** Go's `strings.Index`, with `None` for -1. */
  function Index(s: string, sep: string): (r: Option<nat>)
    requires 0 < |sep|
    ensures r.Some? ==> OccursAt(s, sep, r.value) && forall k :: 0 <= k < r.value ==> !OccursAt(s, sep, k)
    ensures r.None? ==> forall k :: !OccursAt(s, sep, k)
  {
    IndexFrom(s, sep, 0)
  }

  /** Go's `strings.Join`. */
  function Join(ts: seq<string>, sep: string): string
  {
    if |ts| == 0 then ""
    else if |ts| == 1 then ts[0]
    else ts[0] + sep + Join(ts[1..], sep)
  }

  /** Go's `strings.Split` for a non-empty separator: the pieces between the
      leftmost non-overlapping occurrences of `sep`. */
  function Split(s: string, sep: string): (r: seq<string>)
    requires 0 < |sep|
    ensures 0 < |r|
    decreases |s|
  {
    match Index(s, sep)
    case None => [s]
    case Some(i) => [s[..i]] + Split(s[i + |sep|..], sep)
  }

  /** A text shorter than the separator, the empty text in particular, is one
      piece: `Split("", sep) == [""]`, not zero pieces. */
  lemma SplitShort(s: string, sep: string)
    requires 0 < |sep| && |s| < |sep|
    ensures Split(s, sep) == [s]
  {
    assert Index(s, sep).None?;
  }

  /** The pieces of `Split` join back to the text, and none of them holds the
      separator. */
  lemma {:induction false} SplitMeaning(s: string, sep: string)
    requires 0 < |sep|
    ensures Join(Split(s, sep), sep) == s
    ensures forall j, k :: 0 <= j < |Split(s, sep)| ==> !OccursAt(Split(s, sep)[j], sep, k)
    decreases |s|
  {
    match Index(s, sep)
    case None =>
    case Some(i) =>
      SplitMeaning(s[i + |sep|..], sep);
      assert s == s[..i] + sep + s[i + |sep|..] by {
        assert s[i..i + |sep|] == sep;
        assert s == s[..i] + s[i..i + |sep|] + s[i + |sep|..];
      }
      forall k | 0 <= k && k + |sep| <= i ensures !OccursAt(s[..i], sep, k) {
        assert s[..i][k..k + |sep|] == s[k..k + |sep|];
        assert !OccursAt(s, sep, k);
      }
      var r := Split(s, sep);
      assert r == [s[..i]] + Split(s[i + |sep|..], sep);
      assert r[1..] == Split(s[i + |sep|..], sep);
  }

  /** Each cut is at the leftmost occurrence still available: a piece that a
      separator follows, with that separator attached, holds no occurrence
      of `sep` starting inside the piece. So a self-overlapping separator
      such as `" - "` in `" - - "` cuts as early as possible. */
  lemma {:induction false} SplitLeftmost(s: string, sep: string)
    requires 0 < |sep|
    ensures forall j, k :: 0 <= j < |Split(s, sep)| - 1 && 0 <= k < |Split(s, sep)[j]| ==>
              !OccursAt(Split(s, sep)[j] + sep, sep, k)
    decreases |s|
  {
    match Index(s, sep)
    case None =>
    case Some(i) =>
      var rest := s[i + |sep|..];
      SplitLeftmost(rest, sep);
      var r := Split(s, sep);
      assert r == [s[..i]] + Split(rest, sep);
      assert s[..i] + sep == s[..i + |sep|] by {
        assert s[i..i + |sep|] == sep;
      }
      var t := s[..i + |sep|];
      forall k | 0 <= k < i ensures !OccursAt(s[..i] + sep, sep, k) {
        assert t[k..k + |sep|] == s[k..k + |sep|];
        assert !OccursAt(s, sep, k);
      }
      forall j, k | 1 <= j < |r| - 1 && 0 <= k < |r[j]| ensures !OccursAt(r[j] + sep, sep, k) {
        assert r[j] == Split(rest, sep)[j - 1];
      }
  }

  /** Go's `strings.SplitN(s, sep, 2)`: `s` cut at the first occurrence of
      `sep` only, or `[s]` when `sep` does not occur. */
  function SplitFirst(s: string, sep: string): (r: seq<string>)
    requires 0 < |sep|
    ensures |r| == 2 <==> exists k :: OccursAt(s, sep, k)
    ensures |r| == 2 ==> Index(s, sep).Some?
                         && r == [s[..Index(s, sep).value], s[Index(s, sep).value + |sep|..]]
    ensures |r| != 2 ==> r == [s]
  {
    match Index(s, sep)
    case None => [s]
    case Some(i) => [s[..i], s[i + |sep|..]]
  }

  /** A single-character separator occurs exactly where that character is. */
  lemma OccursAtChar(s: string, c: char, k: int)
    ensures OccursAt(s, [c], k) <==> 0 <= k < |s| && s[k] == c
  {
    if 0 <= k < |s| {
      assert s[k..k + 1] == [s[k]];
    }
  }

  /** Splitting on a character: no piece holds the character, and there is
      one piece more than there are occurrences of it. */
  lemma {:induction false} SplitChar(s: string, c: char)
    ensures forall j :: 0 <= j < |Split(s, [c])| ==> c !in Split(s, [c])[j]
    ensures |Split(s, [c])| == multiset(s)[c] + 1
    decreases |s|
  {
    var r := Split(s, [c]);
    SplitMeaning(s, [c]);
    forall j, k | 0 <= j < |r| && 0 <= k < |r[j]| ensures r[j][k] != c {
      assert !OccursAt(r[j], [c], k);
      OccursAtChar(r[j], c, k);
    }
    match Index(s, [c])
    case None =>
      forall k | 0 <= k < |s| ensures s[k] != c {
        OccursAtChar(s, c, k);
      }
      assert c !in multiset(s);
    case Some(i) =>
      OccursAtChar(s, c, i);
      forall k | 0 <= k < i ensures s[k] != c {
        OccursAtChar(s, c, k);
      }
      SplitChar(s[i + 1..], c);
      assert s == s[..i] + [c] + s[i + 1..];
      assert multiset(s) == multiset(s[..i]) + multiset{c} + multiset(s[i + 1..]);
      assert c !in multiset(s[..i]);
  }

  /** When the first character of `sep` does not occur in `a`, the first
      occurrence of `sep` in `a + sep + b` is right after `a`. */
  lemma IndexAfter(a: string, sep: string, b: string)
    requires 0 < |sep| && sep[0] !in a
    ensures Index(a + sep + b, sep) == Some(|a|)
  {
    var s := a + sep + b;
    assert s[|a|..|a| + |sep|] == sep;
    assert OccursAt(s, sep, |a|);
    forall k | 0 <= k < |a| && k + |sep| <= |s| ensures !OccursAt(s, sep, k) {
      assert s[k..k + |sep|][0] == a[k];
    }
  }

  /** A separator whose first character is absent does not occur. */
  lemma IndexAbsent(a: string, sep: string)
    requires 0 < |sep| && sep[0] !in a
    ensures Index(a, sep) == None
    ensures forall k :: !OccursAt(a, sep, k)
  {
    forall k | 0 <= k && k + |sep| <= |a| ensures !OccursAt(a, sep, k) {
      assert a[k..k + |sep|][0] == a[k];
    }
  }

  /** Splitting the join of tokens that do not hold the separator's first
      character gives the tokens back. */
  lemma {:induction false} SplitJoin(ts: seq<string>, sep: string)
    requires 0 < |sep| && 0 < |ts|
    requires forall i :: 0 <= i < |ts| ==> sep[0] !in ts[i]
    ensures Split(Join(ts, sep), sep) == ts
    decreases |ts|
  {
    if |ts| == 1 {
      IndexAbsent(ts[0], sep);
    } else {
      var rest := Join(ts[1..], sep);
      IndexAfter(ts[0], sep, rest);
      var joined := ts[0] + sep + rest;
      assert joined[|ts[0]| + |sep|..] == rest && joined[..|ts[0]|] == ts[0];
      assert Split(joined, sep) == [ts[0]] + Split(rest, sep);
      SplitJoin(ts[1..], sep);
      assert ts == [ts[0]] + ts[1..];
    }
  }

  /** Joining two non-empty runs of tokens puts one separator between them. */
  lemma {:induction false} JoinAppend(a: seq<string>, b: seq<string>, sep: string)
    requires 0 < |a| && 0 < |b|
    ensures Join(a + b, sep) == Join(a, sep) + sep + Join(b, sep)
    decreases |a|
  {
    if |a| == 1 {
      assert (a + b)[1..] == b;
    } else {
      assert (a + b)[1..] == a[1..] + b;
      JoinAppend(a[1..], b, sep);
    }
  }
}
