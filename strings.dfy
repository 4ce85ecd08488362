/**
 * JavaScript's `String.prototype.split` with a one-character separator, and its inverse
 * `Array.prototype.join`, on strings modelled as sequences of characters.
 */
module Strings {

  /** The position of the first `sep` in `s`. */
  function IndexOf(s: string, sep: char): (k: nat)
    requires sep in s
    ensures k < |s| && s[k] == sep
    ensures sep !in s[..k]
  {
    if s[0] == sep then 0 else IndexOf(s[1..], sep) + 1
  }

  /** A separator with none before it is the first one. */
  lemma IndexOfUnique(s: string, sep: char, k: nat)
    requires k < |s| && s[k] == sep
    requires forall i :: 0 <= i < k ==> s[i] != sep
    ensures sep in s && IndexOf(s, sep) == k
  {
  }

  /** The pieces of `s` between the occurrences of `sep`, as `s.split(sep)` returns them. */
  function Split(s: string, sep: char): (parts: seq<string>)
    ensures |parts| >= 1
    ensures sep in s ==> |parts| >= 2
    decreases |s|
  {
    if sep in s then
      var k := IndexOf(s, sep);
      [s[..k]] + Split(s[k + 1..], sep)
    else
      [s]
  }

  /** No piece of a split holds the separator. */
  lemma {:induction false} SplitPiecesAreSeparatorFree(s: string, sep: char)
    ensures forall i :: 0 <= i < |Split(s, sep)| ==> sep !in Split(s, sep)[i]
    decreases |s|
  {
    if sep in s {
      var k := IndexOf(s, sep);
      SplitPiecesAreSeparatorFree(s[k + 1..], sep);
      assert Split(s, sep) == [s[..k]] + Split(s[k + 1..], sep);
    }
  }

  /** The pieces glued back together with `sep` between them, as `parts.join(sep)` does. */
  function Join(parts: seq<string>, sep: char): string
    requires |parts| >= 1
  {
    if |parts| == 1 then parts[0] else parts[0] + [sep] + Join(parts[1..], sep)
  }

  /** Joining the pieces of a split gives back the original string. */
  lemma {:induction false} JoinSplit(s: string, sep: char)
    ensures Join(Split(s, sep), sep) == s
    decreases |s|
  {
    if sep in s {
      var k := IndexOf(s, sep);
      var parts, rest := Split(s, sep), Split(s[k + 1..], sep);
      assert parts == [s[..k]] + rest;
      assert parts[1..] == rest;
      JoinSplit(s[k + 1..], sep);
      calc {
        Join(parts, sep);
        s[..k] + [sep] + Join(rest, sep);
        s[..k] + [sep] + s[k + 1..];
        { assert s[k] == sep; }
        s;
      }
    }
  }

  /** Splitting a join of separator-free pieces gives back the pieces. */
  lemma {:induction false} SplitJoin(parts: seq<string>, sep: char)
    requires |parts| >= 1
    requires forall i :: 0 <= i < |parts| ==> sep !in parts[i]
    ensures Split(Join(parts, sep), sep) == parts
  {
    if |parts| > 1 {
      var p0, rest := parts[0], Join(parts[1..], sep);
      var s := p0 + [sep] + rest;
      assert Join(parts, sep) == s;
      forall i | 0 <= i < |p0| ensures s[i] != sep {
        assert s[i] == p0[i];
      }
      IndexOfUnique(s, sep, |p0|);
      assert s[..|p0|] == p0;
      assert s[|p0| + 1..] == rest;
      SplitJoin(parts[1..], sep);
      assert Split(s, sep) == [p0] + parts[1..];
    } else {
      assert sep !in parts[0];
    }
  }

  /** Splitting `a`, a separator and `b`, where `a` has no separator: `a` first, then the split of `b`. */
  lemma SplitAfterFirst(a: string, b: string, sep: char)
    requires sep !in a
    ensures Split(a + [sep] + b, sep)[0] == a
    ensures Split(a + [sep] + b, sep)[1..] == Split(b, sep)
  {
    var s := a + [sep] + b;
    forall i | 0 <= i < |a| ensures s[i] != sep {
      assert s[i] == a[i];
    }
    IndexOfUnique(s, sep, |a|);
    SplitRest(s, sep);
    assert s[..|a|] == a;
    assert s[|a| + 1..] == b;
  }

  /** `p` is the front of `s`, up to the first separator or the end. */
  predicate IsFirstPiece(s: string, p: string, sep: char) {
    |p| <= |s| && s[..|p|] == p && (|p| == |s| || s[|p|] == sep)
  }

  /** The first piece of a split is the front of `s` up to the first separator or the end. */
  lemma FirstPiece(s: string, sep: char)
    ensures IsFirstPiece(s, Split(s, sep)[0], sep)
  {
  }

  /** After the first piece, splitting continues on what follows the first separator. */
  lemma SplitRest(s: string, sep: char)
    requires sep in s
    ensures Split(s, sep)[0] == s[..IndexOf(s, sep)]
    ensures Split(s, sep)[1..] == Split(s[IndexOf(s, sep) + 1..], sep)
  {
  }

  /**
   * The first two pieces sit at the front of `s` with one separator between them, and
   * what follows them is either nothing or another separator.
   */
  lemma SplitFirstTwo(s: string, sep: char)
    requires sep in s
    ensures |Split(s, sep)| >= 2
    ensures IsFirstPiece(s, Split(s, sep)[0] + [sep] + Split(s, sep)[1], sep)
  {
    var k := IndexOf(s, sep);
    SplitRest(s, sep);
    FirstPiece(s[k + 1..], sep);
    JoinFront(s, sep, k, Split(s[k + 1..], sep)[0]);
  }

  /** A separator at `k` followed by a first piece `p` of what comes after it. */
  lemma JoinFront(s: string, sep: char, k: nat, p: string)
    requires k < |s| && s[k] == sep
    requires IsFirstPiece(s[k + 1..], p, sep)
    ensures IsFirstPiece(s, s[..k] + [sep] + p, sep)
  {
  }

}
