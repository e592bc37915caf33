/**
 * The JavaScript string primitives the components rely on, over `string`
 * (a sequence of characters): `indexOf`, `includes`, `toLowerCase`,
 * `replace` with a string pattern, `split` with a string separator, and
 * `Array.prototype.join`.
 */
module Text {
  import opened Wrappers

  /** `pat` occurs in `s` starting at position `i`. */
  predicate OccursAt(s: string, pat: string, i: nat)
  {
    i + |pat| <= |s| && s[i..i + |pat|] == pat
  }

  lemma OccursAtShift(s: string, pat: string, k: nat)
    requires |s| > 0
    ensures OccursAt(s[1..], pat, k) <==> OccursAt(s, pat, k + 1)
  {
    if k + 1 + |pat| <= |s| {
      assert s[1..][k..k + |pat|] == s[k + 1..k + 1 + |pat|];
    }
  }

  /**
   * `s.indexOf(pat)`: the first position at which `pat` occurs in `s`,
   * None where JavaScript answers -1.
   */
  function IndexOf(s: string, pat: string): (r: Option<nat>)
    ensures r.Some? ==> OccursAt(s, pat, r.value)
    ensures r.Some? ==> forall j: nat :: j < r.value ==> !OccursAt(s, pat, j)
    ensures r.None? <==> forall j: nat :: !OccursAt(s, pat, j)
    decreases |s|
  {
    if |s| < |pat| then None
    else if s[..|pat|] == pat then Some(0)
    else
      var rest := IndexOf(s[1..], pat);
      assert !OccursAt(s, pat, 0);
      forall j: nat | j >= 1 ensures OccursAt(s, pat, j) <==> OccursAt(s[1..], pat, j - 1) {
        OccursAtShift(s, pat, j - 1);
      }
      match rest
      case None => None
      case Some(k) => Some(k + 1)
  }

  /** `s.includes(pat)`: true exactly when `pat` occurs somewhere in `s`. */
  function Includes(s: string, pat: string): (r: bool)
    ensures r <==> exists i: nat :: OccursAt(s, pat, i)
  {
    IndexOf(s, pat).Some?
  }

  /** `toLowerCase` on one character, restricted to ASCII letters. */
  function LowerChar(c: char): (r: char)
    ensures 'A' <= c <= 'Z' ==> r as int == c as int + 32 && 'a' <= r <= 'z'
    ensures !('A' <= c <= 'Z') ==> r == c
    ensures !('A' <= r <= 'Z')
  {
    if 'A' <= c <= 'Z' then (c as int + 32) as char else c
  }

  /** `s.toLowerCase()`, letter by letter. */
  function Lower(s: string): (r: string)
    ensures |r| == |s|
    ensures forall i :: 0 <= i < |s| ==> r[i] == LowerChar(s[i])
  {
    seq(|s|, i requires 0 <= i < |s| => LowerChar(s[i]))
  }

  /** Lowering twice changes nothing more: a lowered string has no upper-case letter left. */
  lemma LowerIdempotent(s: string)
    ensures Lower(Lower(s)) == Lower(s)
    ensures forall i :: 0 <= i < |s| ==> !('A' <= Lower(s)[i] <= 'Z')
  {
  }

  /**
   * `s.replace(pat, rep)` with a string pattern: only the FIRST occurrence
   * is replaced; without one, `s` comes back unchanged.
   */
  function ReplaceFirst(s: string, pat: string, rep: string): string
  {
    match IndexOf(s, pat)
    case None => s
    case Some(i) => s[..i] + rep + s[i + |pat|..]
  }

  /** Removing a pattern that starts the string leaves exactly the rest. */
  lemma ReplaceLeadingPattern(pat: string, rest: string)
    ensures ReplaceFirst(pat + rest, pat, "") == rest
  {
    var s := pat + rest;
    assert s[..|pat|] == pat;
    assert IndexOf(s, pat) == Some(0);
    assert s[|pat|..] == rest;
  }

  /**
   * `s.split(sep)` with a string separator: the pieces between the
   * non-overlapping occurrences of `sep`, found left to right. An empty
   * separator splits into single characters ("" gives no piece at all).
   */
  function Split(s: string, sep: string): (parts: seq<string>)
    ensures sep != [] ==> |parts| >= 1
  {
    if sep == [] then Chars(s) else SplitOn(s, sep)
  }

  /** `s.split("")`: one piece per character. */
  function Chars(s: string): (parts: seq<string>)
    ensures |parts| == |s|
    ensures forall i :: 0 <= i < |s| ==> parts[i] == [s[i]]
    decreases |s|
  {
    if s == [] then []
    else
      var rest := Chars(s[1..]);
      assert s[..1] == [s[0]];
      assert forall i :: 1 <= i < |s| ==> s[1..][i - 1] == s[i];
      [s[..1]] + rest
  }

  /** `s.split(sep)` for a non-empty separator. */
  function SplitOn(s: string, sep: string): (parts: seq<string>)
    requires sep != []
    ensures |parts| >= 1
    decreases |s|
  {
    match IndexOf(s, sep)
    case None => [s]
    case Some(i) => [s[..i]] + SplitOn(s[i + |sep|..], sep)
  }

  /** `parts.join(sep)`. */
  function Join(parts: seq<string>, sep: string): string
  {
    if |parts| == 0 then ""
    else if |parts| == 1 then parts[0]
    else parts[0] + sep + Join(parts[1..], sep)
  }

  /** Joining the pieces of a split with the same separator gives the string back. */
  lemma SplitJoin(s: string, sep: string)
    ensures Join(Split(s, sep), sep) == s
  {
    if sep == [] {
      CharsJoin(s);
    } else {
      SplitOnJoin(s, sep);
    }
  }

  lemma {:induction false} CharsJoin(s: string)
    ensures Join(Chars(s), []) == s
    decreases |s|
  {
    if s != [] {
      CharsJoin(s[1..]);
      if |s| == 1 {
        assert s[1..] == [] && s[..1] == s;
      } else {
        assert s[..1] + [] + s[1..] == s;
      }
    }
  }

  lemma {:induction false} SplitOnJoin(s: string, sep: string)
    requires sep != []
    ensures Join(SplitOn(s, sep), sep) == s
    decreases |s|
  {
    match IndexOf(s, sep)
    case None =>
    case Some(i) =>
      var rest := s[i + |sep|..];
      SplitOnJoin(rest, sep);
      JoinCons(s[..i], SplitOn(rest, sep), sep);
      Splice(s, sep, i);
  }

  /** Joining a piece in front of at least one more piece puts a separator between them. */
  lemma JoinCons(head: string, tail: seq<string>, sep: string)
    requires |tail| >= 1
    ensures Join([head] + tail, sep) == head + sep + Join(tail, sep)
  {
    assert ([head] + tail)[1..] == tail;
  }

  /** An occurrence of `pat` at `i` splits `s` into the text before it, `pat`, and the text after. */
  lemma Splice(s: string, pat: string, i: nat)
    requires OccursAt(s, pat, i)
    ensures s[..i] + pat + s[i + |pat|..] == s
  {
    assert s == s[..i] + s[i..i + |pat|] + s[i + |pat|..];
  }

  /**
   * The split scans left to right: without an occurrence the string is the
   * one piece; otherwise the first piece ends at the FIRST occurrence and the
   * rest is the split of what follows it.
   */
  lemma SplitAtFirst(s: string, sep: string)
    requires sep != []
    ensures IndexOf(s, sep).None? ==> Split(s, sep) == [s]
    ensures IndexOf(s, sep).Some? ==>
      Split(s, sep) == [s[..IndexOf(s, sep).value]] + Split(s[IndexOf(s, sep).value + |sep|..], sep)
  {
    match IndexOf(s, sep)
    case None =>
    case Some(i) =>
      SplitOnFirst(s, sep, i);
      SplitIsSplitOn(s, sep);
      SplitIsSplitOn(s[i + |sep|..], sep);
  }

  lemma SplitIsSplitOn(s: string, sep: string)
    requires sep != []
    ensures Split(s, sep) == SplitOn(s, sep)
  {
  }

  lemma SplitOnFirst(s: string, sep: string, i: nat)
    requires sep != [] && IndexOf(s, sep) == Some(i)
    ensures SplitOn(s, sep) == [s[..i]] + SplitOn(s[i + |sep|..], sep)
  {
  }

  /** The text before the first occurrence of a pattern does not contain it. */
  lemma PrefixBeforeFirstAvoids(s: string, sep: string, i: nat)
    requires sep != [] && IndexOf(s, sep) == Some(i)
    ensures !Includes(s[..i], sep)
  {
    var head := s[..i];
    forall j: nat | OccursAt(head, sep, j) ensures false {
      assert head[j..j + |sep|] == s[j..j + |sep|];
      assert OccursAt(s, sep, j);
    }
  }

  /** With a non-empty separator, no piece contains the separator. */
  lemma {:induction false} SplitPiecesAvoidSeparator(s: string, sep: string, k: nat)
    requires sep != [] && k < |Split(s, sep)|
    ensures !Includes(Split(s, sep)[k], sep)
    decreases |s|
  {
    var parts := SplitOn(s, sep);
    match IndexOf(s, sep)
    case None =>
      assert parts[k] == s;
    case Some(i) =>
      var rest := s[i + |sep|..];
      assert parts == [s[..i]] + SplitOn(rest, sep);
      if k == 0 {
        PrefixBeforeFirstAvoids(s, sep, i);
      } else {
        assert parts[k] == SplitOn(rest, sep)[k - 1];
        SplitPiecesAvoidSeparator(rest, sep, k - 1);
      }
  }

  /** With a non-empty separator, the split has one piece exactly when the separator is absent. */
  lemma SplitSingleIffAbsent(s: string, sep: string)
    requires sep != []
    ensures |Split(s, sep)| == 1 <==> !Includes(s, sep)
  {
    match IndexOf(s, sep)
    case None =>
    case Some(i) =>
      assert |SplitOn(s[i + |sep|..], sep)| >= 1;
  }
}
