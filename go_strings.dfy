/**
 * The parts of Go's `strings` package that the handlers rely on:
 * `TrimRight`, `TrimLeft`, `Trim` (with a cutset) and `SplitN(s, sep, 2)`.
 * Each is characterised by its contract rather than by how it is computed.
 */
module GoStrings {
  import opened Wrappers

  /** `strings.TrimRight(s, cutset)`: drops every trailing character that occurs in `cutset`. */
  function TrimRight(s: string, cutset: string): (r: string)
    ensures |r| <= |s| && r == s[..|r|]
    ensures r == [] || r[|r| - 1] !in cutset
    ensures forall i :: |r| <= i < |s| ==> s[i] in cutset
    decreases |s|
  {
    if s != [] && s[|s| - 1] in cutset then TrimRight(s[..|s| - 1], cutset) else s
  }

  /** `strings.TrimLeft(s, cutset)`: drops every leading character that occurs in `cutset`. */
  function TrimLeft(s: string, cutset: string): (r: string)
    ensures |r| <= |s| && r == s[|s| - |r|..]
    ensures r == [] || r[0] !in cutset
    ensures forall i :: 0 <= i < |s| - |r| ==> s[i] in cutset
    decreases |s|
  {
    if s != [] && s[0] in cutset then TrimLeft(s[1..], cutset) else s
  }

  /**
   * `strings.Trim(s, cutset)`: the slice of `s` left after dropping characters of
   * `cutset` at both ends.
   */
  function Trim(s: string, cutset: string): (r: string)
    ensures r == [] || (r[0] !in cutset && r[|r| - 1] !in cutset)
    ensures var hi := |TrimRight(s, cutset)|;
            |r| <= hi && r == s[hi - |r|..hi]
            && (forall i :: 0 <= i < hi - |r| ==> s[i] in cutset)
            && (forall i :: hi <= i < |s| ==> s[i] in cutset)
  {
    var t := TrimRight(s, cutset);
    var r := TrimLeft(t, cutset);
    assert t == s[..|t|] && r == t[|t| - |r|..];
    r
  }

  /**
   * A string that starts with one cutset character and otherwise begins and
   * ends outside the cutset trims to the rest of it.
   */
  lemma TrimDropsLeadingCut(c: char, t: string, cutset: string)
    requires c in cutset && t != [] && t[0] !in cutset && t[|t| - 1] !in cutset
    ensures Trim([c] + t, cutset) == t
  {
    var s := [c] + t;
    TrimRightUnique(s, cutset, s);
    assert s[1..] == t;
    TrimLeftUnique(s, cutset, t);
  }

  /**
   * The left-trimmed form of a string is the one suffix that starts outside
   * `cutset` and is preceded only by characters of `cutset`.
   */
  lemma TrimLeftUnique(s: string, cutset: string, p: string)
    requires |p| <= |s| && p == s[|s| - |p|..]
    requires forall i :: 0 <= i < |s| - |p| ==> s[i] in cutset
    requires p == [] || p[0] !in cutset
    ensures TrimLeft(s, cutset) == p
  {
  }

  /** A string that is `rest` with only characters of `cutset` appended. */
  ghost predicate PaddedBy(s: string, rest: string, cutset: string)
  {
    |rest| <= |s| && s[..|rest|] == rest && forall i :: |rest| <= i < |s| ==> s[i] in cutset
  }

  /**
   * The right-trimmed form of a string is the one prefix that ends outside
   * `cutset` and is followed only by characters of `cutset`.
   */
  lemma TrimRightUnique(s: string, cutset: string, p: string)
    requires PaddedBy(s, p, cutset) && (p == [] || p[|p| - 1] !in cutset)
    ensures TrimRight(s, cutset) == p
  {
  }

  /** Appending characters of `cutset` does not change the right-trimmed form. */
  lemma TrimRightIgnoresPadding(s: string, pad: string, cutset: string)
    requires forall i :: 0 <= i < |pad| ==> pad[i] in cutset
    ensures TrimRight(s + pad, cutset) == TrimRight(s, cutset)
  {
    var p := TrimRight(s, cutset);
    var t := s + pad;
    assert t[..|p|] == p;
    forall i | |p| <= i < |t| ensures t[i] in cutset {
      if i >= |s| { assert t[i] == pad[i - |s|]; }
    }
    TrimRightUnique(t, cutset, p);
  }

  /** Trimming twice is trimming once. */
  lemma TrimRightIdempotent(s: string, cutset: string)
    ensures TrimRight(TrimRight(s, cutset), cutset) == TrimRight(s, cutset)
  {
    var r := TrimRight(s, cutset);
    TrimRightUnique(r, cutset, r);
  }

  /** Position of the first `c` in `s`, if any. */
  function IndexOf(s: string, c: char): (r: Option<nat>)
    ensures r.None? <==> c !in s
    ensures r.Some? ==> r.value < |s| && s[r.value] == c && c !in s[..r.value]
  {
    if s == [] then None
    else if s[0] == c then Some(0)
    else match IndexOf(s[1..], c)
      case None => None
      case Some(i) =>
        assert s[1..][..i] == s[1..i + 1];
        Some(i + 1)
  }

  /**
   * `strings.SplitN(s, sep, 2)` for a one-character separator: the whole of `s`
   * when `sep` does not occur, otherwise the text before the first `sep` and
   * everything after it (which may hold further separators).
   */
  function SplitN2(s: string, sep: char): (parts: seq<string>)
    ensures sep !in s ==> parts == [s]
    ensures sep in s ==> |parts| == 2 && s == parts[0] + [sep] + parts[1] && sep !in parts[0]
  {
    match IndexOf(s, sep)
    case None => [s]
    case Some(i) =>
      assert s == s[..i] + [sep] + s[i + 1..];
      [s[..i], s[i + 1..]]
  }

  /** Two positions of the first occurrence of `c` are the same position. */
  lemma FirstIndexUnique(s: string, c: char, j: nat, k: nat)
    requires j < |s| && k < |s| && s[j] == c && s[k] == c
    requires c !in s[..j] && c !in s[..k]
    ensures j == k
  {
  }

  /** The two halves of a split at the first separator are determined by the string. */
  lemma FirstSplitUnique(s: string, sep: char, a: string, b: string, a': string, b': string)
    requires s == a + [sep] + b && sep !in a
    requires s == a' + [sep] + b' && sep !in a'
    ensures a == a' && b == b'
  {
    assert a == (a + [sep] + b)[..|a|];
    assert a' == (a' + [sep] + b')[..|a'|];
    FirstIndexUnique(s, sep, |a|, |a'|);
    assert a == s[..|a|] && a' == s[..|a'|];
    assert b == s[|a| + 1..] && b' == s[|a'| + 1..];
  }
}
