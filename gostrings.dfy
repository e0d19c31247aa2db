/**
 * The parts of Go's `strings` package the chat handler relies on, over
 * strings as sequences of Unicode characters.
 */
module GoStrings {

  /** `strings.HasPrefix`. */
  predicate HasPrefix(s: string, p: string) {
    |p| <= |s| && s[..|p|] == p
  }

  /** `strings.HasSuffix`. */
  predicate HasSuffix(s: string, p: string) {
    |p| <= |s| && s[|s| - |p|..] == p
  }

  /** `strings.TrimPrefix`: drops `p` once if `s` starts with it. */
  function TrimPrefix(s: string, p: string): (r: string)
    ensures HasPrefix(s, p) ==> s == p + r
    ensures !HasPrefix(s, p) ==> r == s
  {
    if HasPrefix(s, p) then s[|p|..] else s
  }

  /** `strings.TrimSuffix`: drops `p` once if `s` ends with it. */
  function TrimSuffix(s: string, p: string): (r: string)
    ensures HasSuffix(s, p) ==> s == r + p
    ensures !HasSuffix(s, p) ==> r == s
  {
    if HasSuffix(s, p) then s[..|s| - |p|] else s
  }

  /** `strings.TrimLeft(s, cutset)`: the longest suffix of `s` that does not start with a cut character. */
  function TrimLeft(s: string, cut: set<char>): (r: string)
    ensures |r| <= |s| && r == s[|s| - |r|..]
    ensures forall i :: 0 <= i < |s| - |r| ==> s[i] in cut
    ensures r != [] ==> r[0] !in cut
    decreases |s|
  {
    if s != [] && s[0] in cut then TrimLeft(s[1..], cut) else s
  }

  /** `strings.TrimRight(s, cutset)`: the longest prefix of `s` that does not end with a cut character. */
  function TrimRight(s: string, cut: set<char>): (r: string)
    ensures |r| <= |s| && r == s[..|r|]
    ensures forall i :: |r| <= i < |s| ==> s[i] in cut
    ensures r != [] ==> r[|r| - 1] !in cut
    decreases |s|
  {
    if s != [] && s[|s| - 1] in cut then TrimRight(s[..|s| - 1], cut) else s
  }

  /** `strings.Trim(s, cutset)`. */
  function Trim(s: string, cut: set<char>): string {
    TrimRight(TrimLeft(s, cut), cut)
  }

  /** The characters Go's `unicode.IsSpace` accepts. */
  const Whitespace: set<char> := {
    '\t', '\n', '\U{000B}', '\U{000C}', '\r', ' ', '\U{0085}', '\U{00A0}',
    '\U{1680}', '\U{2000}', '\U{2001}', '\U{2002}', '\U{2003}', '\U{2004}',
    '\U{2005}', '\U{2006}', '\U{2007}', '\U{2008}', '\U{2009}', '\U{200A}',
    '\U{2028}', '\U{2029}', '\U{202F}', '\U{205F}', '\U{3000}'
  }

  /** `strings.TrimSpace`. */
  function TrimSpace(s: string): string {
    Trim(s, Whitespace)
  }

  /** Every character of `s` is a cut character. */
  predicate AllIn(s: string, cut: set<char>) {
    forall i :: 0 <= i < |s| ==> s[i] in cut
  }

  /** `s` neither starts nor ends with a cut character. */
  predicate Unpadded(s: string, cut: set<char>) {
    s != [] ==> s[0] !in cut && s[|s| - 1] !in cut
  }

  /** Cutting from the left stops at the first character that is not cut. */
  lemma {:induction false} TrimLeftPadded(pre: string, rest: string, cut: set<char>)
    requires AllIn(pre, cut) && (rest == [] || rest[0] !in cut)
    ensures TrimLeft(pre + rest, cut) == rest
    decreases |pre|
  {
    if pre == [] {
      assert pre + rest == rest;
    } else {
      assert (pre + rest)[0] == pre[0];
      assert (pre + rest)[1..] == pre[1..] + rest;
      TrimLeftPadded(pre[1..], rest, cut);
    }
  }

  /** Cutting from the right stops at the last character that is not cut. */
  lemma {:induction false} TrimRightPadded(rest: string, post: string, cut: set<char>)
    requires AllIn(post, cut) && (rest == [] || rest[|rest| - 1] !in cut)
    ensures TrimRight(rest + post, cut) == rest
    decreases |post|
  {
    if post == [] {
      assert rest + post == rest;
    } else {
      var n := |rest + post|;
      assert (rest + post)[n - 1] == post[|post| - 1];
      assert (rest + post)[..n - 1] == rest + post[..|post| - 1];
      TrimRightPadded(rest, post[..|post| - 1], cut);
    }
  }

  /** Trimming strips exactly the padding around an unpadded core. */
  lemma {:induction false} TrimPadded(pre: string, core: string, post: string, cut: set<char>)
    requires AllIn(pre, cut) && AllIn(post, cut) && Unpadded(core, cut)
    ensures Trim(pre + core + post, cut) == core
  {
    if core == [] {
      assert pre + core + post == (pre + post) + [];
      TrimLeftPadded(pre + post, [], cut);
      TrimRightPadded([], [], cut);
    } else {
      assert pre + core + post == pre + (core + post);
      TrimLeftPadded(pre, core + post, cut);
      TrimRightPadded(core, post, cut);
    }
  }

  /** Trimming leaves a string with no cut character at either end. */
  lemma TrimUnpadded(s: string, cut: set<char>)
    ensures Unpadded(Trim(s, cut), cut)
  {
    var l := TrimLeft(s, cut);
    var r := TrimRight(l, cut);
    if r != [] {
      assert r[0] == l[0];
    }
  }

  /** Trimming twice is trimming once. */
  lemma TrimIdempotent(s: string, cut: set<char>)
    ensures Trim(Trim(s, cut), cut) == Trim(s, cut)
  {
    TrimUnpadded(s, cut);
    TrimPadded([], Trim(s, cut), [], cut);
    assert [] + Trim(s, cut) + [] == Trim(s, cut);
  }

  /** `strings.Join(parts, string(sep))`. */
  function Join(parts: seq<string>, sep: char): string
    decreases |parts|
  {
    if parts == [] then []
    else if |parts| == 1 then parts[0]
    else parts[0] + [sep] + Join(parts[1..], sep)
  }

  /** `strings.Split(s, string(sep))`: the pieces between separators, never empty. */
  function Split(s: string, sep: char): (parts: seq<string>)
    ensures |parts| >= 1
    ensures forall i :: 0 <= i < |parts| ==> sep !in parts[i]
    decreases |s|
  {
    if s == [] then [[]]
    else
      var rest := Split(s[1..], sep);
      if s[0] == sep then [[]] + rest
      else [[s[0]] + rest[0]] + rest[1..]
  }

  /** Number of occurrences of `c` in `s`. */
  function Count(s: string, c: char): nat
    decreases |s|
  {
    if s == [] then 0 else (if s[0] == c then 1 else 0) + Count(s[1..], c)
  }

  /** Splitting yields one more piece than there are separators. */
  lemma {:induction false} SplitCount(s: string, sep: char)
    ensures |Split(s, sep)| == Count(s, sep) + 1
    decreases |s|
  {
    if s != [] {
      SplitCount(s[1..], sep);
    }
  }

  /** Joining the pieces of a split gives back the string. */
  lemma {:induction false} JoinSplit(s: string, sep: char)
    ensures Join(Split(s, sep), sep) == s
    decreases |s|
  {
    if s != [] {
      var rest := Split(s[1..], sep);
      JoinSplit(s[1..], sep);
      if s[0] == sep {
        assert ([[]] + rest)[1..] == rest;
        assert s == [sep] + s[1..];
      } else {
        var parts := [[s[0]] + rest[0]] + rest[1..];
        assert parts[1..] == rest[1..];
        if |rest| == 1 {
          assert s == [s[0]] + s[1..];
        } else {
          assert Join(rest, sep) == rest[0] + [sep] + Join(rest[1..], sep);
          assert s == [s[0]] + s[1..];
        }
      }
    }
  }

  /** A string with no separator splits into itself. */
  lemma {:induction false} SplitNoSep(s: string, sep: char)
    requires sep !in s
    ensures Split(s, sep) == [s]
    decreases |s|
  {
    if s != [] {
      SplitNoSep(s[1..], sep);
      assert [s[0]] + s[1..] == s;
    }
  }

  /** A separator after a separator-free head ends the first piece. */
  lemma {:induction false} SplitAfterHead(head: string, sep: char, tail: string)
    requires sep !in head
    ensures Split(head + [sep] + tail, sep) == [head] + Split(tail, sep)
    decreases |head|
  {
    var s := head + [sep] + tail;
    if head == [] {
      assert s[1..] == tail;
    } else {
      assert s[1..] == head[1..] + [sep] + tail;
      SplitAfterHead(head[1..], sep, tail);
      assert [head[0]] + head[1..] == head;
    }
  }

  /** Splitting a join of separator-free pieces gives back the pieces. */
  lemma {:induction false} SplitJoin(parts: seq<string>, sep: char)
    requires |parts| >= 1
    requires forall i :: 0 <= i < |parts| ==> sep !in parts[i]
    ensures Split(Join(parts, sep), sep) == parts
    decreases |parts|
  {
    if |parts| == 1 {
      SplitNoSep(parts[0], sep);
    } else {
      SplitJoin(parts[1..], sep);
      SplitAfterHead(parts[0], sep, Join(parts[1..], sep));
      assert [parts[0]] + parts[1..] == parts;
    }
  }
}
