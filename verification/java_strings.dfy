/**
  The few pieces of java.lang the option pipeline relies on: 32-bit `int`,
  `String.trim()` and `String.split(",")` with a one-character separator.
*/
module Java {

  /** A Java `int`. */
  type Int32 = x: int | -0x8000_0000 <= x < 0x8000_0000

  /** An `InetAddress`, reduced to its raw address bytes. */
  type InetAddress = seq<bv8>

  /** `String.trim()` removes every leading and trailing char whose code is at most U+0020. */
  predicate IsTrimmed(c: char) {
    c <= ' '
  }

  /** The number of trimmed chars at the front of `s`. */
  function LeadingCount(s: string): (n: nat)
    ensures n <= |s|
    ensures forall i :: 0 <= i < n ==> IsTrimmed(s[i])
    ensures n == |s| || !IsTrimmed(s[n])
    decreases |s|
  {
    if |s| > 0 && IsTrimmed(s[0]) then
      var n := LeadingCount(s[1..]);
      assert forall i :: 1 <= i < n + 1 ==> s[i] == s[1..][i - 1];
      n + 1
    else
      0
  }

  /** Where the run of trimmed chars at the back of `s` starts. */
  function TrailingStart(s: string): (n: nat)
    ensures n <= |s|
    ensures forall i :: n <= i < |s| ==> IsTrimmed(s[i])
    ensures n == 0 || !IsTrimmed(s[n - 1])
    decreases |s|
  {
    if |s| > 0 && IsTrimmed(s[|s| - 1]) then TrailingStart(s[..|s| - 1]) else |s|
  }

  /** `String.trim()`: never longer than `s`, and neither starts nor ends with a trimmed char. */
  function Trim(s: string): (r: string)
    ensures |r| <= |s|
    ensures r == [] || (!IsTrimmed(r[0]) && !IsTrimmed(r[|r| - 1]))
  {
    var t := s[LeadingCount(s)..];
    t[..TrailingStart(t)]
  }

  /**
    What `Trim` returns is the part of `s` between a run of trimmed chars at
    each end, and it neither starts nor ends with a trimmed char.
  */
  lemma TrimIsCore(s: string)
    ensures var r := Trim(s); var i := LeadingCount(s);
      && i + |r| <= |s|
      && r == s[i..i + |r|]
      && (forall k :: 0 <= k < i ==> IsTrimmed(s[k]))
      && (forall k :: i + |r| <= k < |s| ==> IsTrimmed(s[k]))
    ensures var r := Trim(s); r == [] || (!IsTrimmed(r[0]) && !IsTrimmed(r[|r| - 1]))
  {
    var i := LeadingCount(s);
    var t := s[i..];
    var r := Trim(s);
    assert r == s[i..i + |r|];
    forall k | i + |r| <= k < |s|
      ensures IsTrimmed(s[k])
    {
      assert s[k] == t[k - i];
    }
  }

  /** Trimming twice is the same as trimming once. */
  lemma TrimIdempotent(s: string)
    ensures Trim(Trim(s)) == Trim(s)
  {
  }

  /** Index of the first `sep` in `s`, or `|s|` when `s` holds none. */
  function IndexOf(s: string, sep: char): (k: nat)
    ensures k <= |s|
    ensures k < |s| ==> s[k] == sep
    ensures forall i :: 0 <= i < k ==> s[i] != sep
    decreases |s|
  {
    if |s| == 0 then 0
    else if s[0] == sep then 0
    else
      var k := IndexOf(s[1..], sep);
      assert forall i :: 1 <= i < k + 1 ==> s[i] == s[1..][i - 1];
      1 + k
  }

  /** Every piece of `s` between separators, including empty ones at either end. */
  function Pieces(s: string, sep: char): (r: seq<string>)
    ensures |r| >= 1
    ensures forall i :: 0 <= i < |r| ==> sep !in r[i]
    decreases |s|
  {
    var k := IndexOf(s, sep);
    if k == |s| then
      assert s == s[..k];
      [s]
    else
      [s[..k]] + Pieces(s[k + 1..], sep)
  }

  /** The pieces glued back together with `sep` between neighbours. */
  function Join(ps: seq<string>, sep: char): string
  {
    if |ps| == 0 then ""
    else if |ps| == 1 then ps[0]
    else ps[0] + [sep] + Join(ps[1..], sep)
  }

  /** Splitting into pieces loses nothing: joining them gives `s` back. */
  lemma {:induction false} JoinPieces(s: string, sep: char)
    ensures Join(Pieces(s, sep), sep) == s
    decreases |s|
  {
    var k := IndexOf(s, sep);
    var ps := Pieces(s, sep);
    if k == |s| {
      assert ps == [s];
    } else {
      var rest := Pieces(s[k + 1..], sep);
      assert ps == [s[..k]] + rest;
      assert ps[0] == s[..k] && ps[1..] == rest && |ps| >= 2;
      JoinPieces(s[k + 1..], sep);
      assert Join(ps, sep) == s[..k] + [sep] + s[k + 1..];
      assert s == s[..k] + [sep] + s[k + 1..];
    }
  }

  /** The first separator of `p + [sep] + t` sits right after `p` when `p` holds none. */
  lemma IndexOfAfterPrefix(p: string, t: string, sep: char)
    requires sep !in p
    ensures IndexOf(p + [sep] + t, sep) == |p|
  {
    var s := p + [sep] + t;
    assert s[|p|] == sep;
    assert forall i :: 0 <= i < |p| ==> s[i] == p[i];
  }

  /** A separator-free list of pieces is recovered from its join. */
  lemma {:induction false} PiecesJoin(ps: seq<string>, sep: char)
    requires |ps| >= 1
    requires forall i :: 0 <= i < |ps| ==> sep !in ps[i]
    ensures Pieces(Join(ps, sep), sep) == ps
  {
    var s := Join(ps, sep);
    if |ps| == 1 {
      assert s == ps[0];
      assert sep !in s;
      assert IndexOf(s, sep) == |s|;
    } else {
      var tail := Join(ps[1..], sep);
      assert s == ps[0] + [sep] + tail;
      assert sep !in ps[0];
      IndexOfAfterPrefix(ps[0], tail, sep);
      assert s[..|ps[0]|] == ps[0];
      assert s[|ps[0]| + 1..] == tail;
      assert forall i :: 0 <= i < |ps[1..]| ==> sep !in ps[1..][i] by {
        assert forall i :: 0 <= i < |ps[1..]| ==> ps[1..][i] == ps[i + 1];
      }
      PiecesJoin(ps[1..], sep);
      assert Pieces(s, sep) == [ps[0]] + ps[1..];
      assert ps == [ps[0]] + ps[1..];
    }
  }

  /** How many of `ps` remain once its trailing empty strings are removed. */
  function KeptCount(ps: seq<string>): (n: nat)
    ensures n <= |ps|
    ensures forall i :: n <= i < |ps| ==> ps[i] == ""
    ensures n == 0 || ps[n - 1] != ""
    decreases |ps|
  {
    if |ps| > 0 && ps[|ps| - 1] == "" then KeptCount(ps[..|ps| - 1]) else |ps|
  }

  /**
    `String.split` with a one-character separator and no limit: a string
    holding no separator comes back whole (even when it is empty); otherwise
    the pieces between separators, with trailing empty pieces dropped.
  */
  function Split(s: string, sep: char): (r: seq<string>)
    ensures forall i :: 0 <= i < |r| ==> sep !in r[i]
    ensures sep !in s ==> |r| == 1
    ensures sep in s ==> r == [] || r[|r| - 1] != ""
  {
    if sep !in s then [s]
    else
      var ps := Pieces(s, sep);
      ps[..KeptCount(ps)]
  }

  /**
    What `Split` returns: a prefix of the pieces of `s` whose dropped tail is
    all empty, never ending in an empty piece unless `s` has no separator,
    and no returned token holds a separator.
  */
  lemma SplitIsPiecesPrefix(s: string, sep: char)
    ensures var r := Split(s, sep); var ps := Pieces(s, sep);
      && |r| <= |ps| && r == ps[..|r|]
      && (forall i :: |r| <= i < |ps| ==> ps[i] == "")
      && (sep in s ==> r == [] || r[|r| - 1] != "")
    ensures forall i :: 0 <= i < |Split(s, sep)| ==> sep !in Split(s, sep)[i]
  {
    if sep !in s {
      assert IndexOf(s, sep) == |s|;
    }
  }

  /** `n` copies of the character `c`. */
  function Repeat(c: char, n: nat): (r: string)
    ensures |r| == n
    ensures forall i :: 0 <= i < n ==> r[i] == c
  {
    if n == 0 then "" else [c] + Repeat(c, n - 1)
  }

  /** A string made only of separators splits into empty pieces only. */
  lemma {:induction false} PiecesOfSeparators(n: nat, sep: char)
    ensures forall i :: 0 <= i < |Pieces(Repeat(sep, n), sep)| ==> Pieces(Repeat(sep, n), sep)[i] == ""
  {
    var s := Repeat(sep, n);
    if n > 0 {
      assert IndexOf(s, sep) == 0;
      assert s[1..] == Repeat(sep, n - 1);
      PiecesOfSeparators(n - 1, sep);
    } else {
      assert IndexOf(s, sep) == |s|;
    }
  }

  /** Joining pieces that are all empty gives a string made only of separators. */
  lemma {:induction false} JoinOfEmpties(ps: seq<string>, sep: char)
    requires forall i :: 0 <= i < |ps| ==> ps[i] == ""
    ensures forall k :: 0 <= k < |Join(ps, sep)| ==> Join(ps, sep)[k] == sep
  {
    if |ps| > 1 {
      JoinOfEmpties(ps[1..], sep);
    }
  }

  /**
    `Split` returns no token at all exactly when `s` is non-empty and made only
    of separators: `",".split(",")` is the empty array, `"".split(",")` is not.
  */
  lemma SplitEmptyIff(s: string, sep: char)
    ensures Split(s, sep) == [] <==> (|s| > 0 && forall k :: 0 <= k < |s| ==> s[k] == sep)
  {
    var ps := Pieces(s, sep);
    if |s| > 0 && forall k :: 0 <= k < |s| ==> s[k] == sep {
      assert s == Repeat(sep, |s|);
      PiecesOfSeparators(|s|, sep);
      assert s[0] == sep;
      SplitIsPiecesPrefix(s, sep);
    }
    if Split(s, sep) == [] {
      SplitIsPiecesPrefix(s, sep);
      JoinPieces(s, sep);
      JoinOfEmpties(ps, sep);
    }
  }
}
