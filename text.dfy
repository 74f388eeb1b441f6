/**
 * The .NET string operations the handler relies on (IndexOf, LastIndexOf and
 * Join), restricted to the one-character needles and separators it uses, over
 * ordinal comparison; and Split, the inverse against which Join's round trip
 * is stated.
 */
module Text {

  /** No occurrence of `c` at an index in [lo, hi). */
  predicate Absent(s: string, c: char, lo: int, hi: int)
  {
    forall k :: lo <= k < hi && 0 <= k < |s| ==> s[k] != c
  }

  /** `s.IndexOf(c)`: the index of the first occurrence of `c`, or -1 when there is none. */
  function IndexOf(s: string, c: char): (r: int)
    ensures -1 <= r < |s|
    ensures r == -1 ==> Absent(s, c, 0, |s|)
    ensures 0 <= r ==> s[r] == c && Absent(s, c, 0, r)
  {
    if |s| == 0 then -1
    else if s[0] == c then 0
    else
      var k := IndexOf(s[1..], c);
      if k == -1 then -1 else k + 1
  }

  /** `s.LastIndexOf(c)`: the index of the last occurrence of `c`, or -1 when there is none. */
  function LastIndexOf(s: string, c: char): (r: int)
    ensures -1 <= r < |s|
    ensures r == -1 ==> Absent(s, c, 0, |s|)
    ensures 0 <= r ==> s[r] == c && Absent(s, c, r + 1, |s|)
  {
    if |s| == 0 then -1
    else if s[|s| - 1] == c then |s| - 1
    else LastIndexOf(s[..|s| - 1], c)
  }

  /** `string.Join(sep, parts)`: the parts with one separator between neighbours. */
  function Join(sep: char, parts: seq<string>): string
  {
    if |parts| == 0 then ""
    else if |parts| == 1 then parts[0]
    else parts[0] + [sep] + Join(sep, parts[1..])
  }

  /** The maximal separator-free pieces, at least one (an empty string gives [""]). */
  function Split(s: string, sep: char): (r: seq<string>)
    ensures |r| >= 1
    decreases |s|
  {
    var i := IndexOf(s, sep);
    if i == -1 then [s] else [s[..i]] + Split(s[i + 1..], sep)
  }

  /** An occurrence of `c` with none before it is the one IndexOf finds. */
  lemma IndexOfIs(s: string, c: char, i: nat)
    requires i < |s| && s[i] == c && Absent(s, c, 0, i)
    ensures IndexOf(s, c) == i
  {
  }

  /** An occurrence of `c` with none after it is the one LastIndexOf finds. */
  lemma LastIndexOfIs(s: string, c: char, j: nat)
    requires j < |s| && s[j] == c && Absent(s, c, j + 1, |s|)
    ensures LastIndexOf(s, c) == j
  {
  }

  /** Splitting a join of separator-free parts gives the parts back. */
  lemma {:induction false} SplitJoin(parts: seq<string>, sep: char)
    requires |parts| >= 1
    requires forall k :: 0 <= k < |parts| ==> Absent(parts[k], sep, 0, |parts[k]|)
    ensures Split(Join(sep, parts), sep) == parts
  {
    if |parts| > 1 {
      var head, tail := parts[0], parts[1..];
      var rest := Join(sep, tail);
      var s := head + [sep] + rest;
      assert Join(sep, parts) == s;
      assert s[|head|] == sep;
      assert Absent(s, sep, 0, |head|) by {
        assert Absent(parts[0], sep, 0, |head|);
      }
      IndexOfIs(s, sep, |head|);
      assert s[..|head|] == head;
      assert s[|head| + 1..] == rest;
      assert Split(s, sep) == [head] + Split(rest, sep);
      assert forall k :: 0 <= k < |tail| ==> Absent(tail[k], sep, 0, |tail[k]|) by {
        forall k | 0 <= k < |tail| ensures Absent(tail[k], sep, 0, |tail[k]|) {
          assert tail[k] == parts[k + 1];
        }
      }
      SplitJoin(tail, sep);
      assert parts == [head] + tail;
    }
  }

  /** Joining one more part in front adds it and a separator. */
  lemma JoinCons(sep: char, head: string, parts: seq<string>)
    requires |parts| >= 1
    ensures Join(sep, [head] + parts) == head + [sep] + Join(sep, parts)
  {
    var all := [head] + parts;
    assert all[0] == head && all[1..] == parts;
  }

  /** A string is its part before index `i`, the character there, and the part after. */
  lemma SliceAround(s: string, i: nat)
    requires i < |s|
    ensures s == s[..i] + [s[i]] + s[i + 1..]
  {
  }

  /** Joining the pieces of a split gives the string back. */
  lemma {:induction false} JoinSplit(s: string, sep: char)
    ensures Join(sep, Split(s, sep)) == s
    decreases |s|
  {
    var i := IndexOf(s, sep);
    if i != -1 {
      var pieces := Split(s[i + 1..], sep);
      calc {
        Join(sep, Split(s, sep));
        Join(sep, [s[..i]] + pieces);
        { JoinCons(sep, s[..i], pieces); }
        s[..i] + [sep] + Join(sep, pieces);
        { JoinSplit(s[i + 1..], sep); }
        s[..i] + [sep] + s[i + 1..];
        { SliceAround(s, i); }
        s;
      }
    }
  }
}
