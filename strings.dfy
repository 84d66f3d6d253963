/** The Python string operations the extractors and the harvester rely on:
    `str.upper`, `str.replace`, `str.split`, `str.join` and `str.strip(chars)`. */
module PyStrings {

  /** `p` occurs as a contiguous part of `s`. */
  ghost predicate Occurs(s: string, p: string)
  {
    exists i :: 0 <= i && OccursAt(s, p, i)
  }

  /** `p` occurs in `s` starting at index `i`. */
  ghost predicate OccursAt(s: string, p: string, i: nat)
  {
    i + |p| <= |s| && s[i..i + |p|] == p
  }

  function UpperChar(c: char): char
  {
    if 'a' <= c <= 'z' then (c as int - 32) as char else c
  }

  /** `s.upper()` on the ASCII letters. */
  function Upper(s: string): (r: string)
    ensures |r| == |s|
  {
    seq(|s|, i requires 0 <= i < |s| => UpperChar(s[i]))
  }

  /** `s.replace(p, r)`: every occurrence of `p`, found left to right without
      overlap, is replaced by `r`. */
  function Replace(s: string, p: string, r: string): string
    requires p != []
    decreases |s|
  {
    if |s| < |p| then s
    else if s[..|p|] == p then r + Replace(s[|p|..], p, r)
    else [s[0]] + Replace(s[1..], p, r)
  }

  /** `s.split(p)`: the pieces between the occurrences of `p`, found left to
      right without overlap. The first piece is a prefix of `s`. */
  function Split(s: string, p: string): (parts: seq<string>)
    requires p != []
    ensures |parts| >= 1 && parts[0] <= s
    decreases |s|
  {
    if |s| < |p| then [s]
    else if s[..|p|] == p then [""] + Split(s[|p|..], p)
    else
      var t := Split(s[1..], p);
      [[s[0]] + t[0]] + t[1..]
  }

  /** `sep.join(parts)` for a non-empty list of parts. */
  function Join(parts: seq<string>, sep: string): string
    requires |parts| >= 1
    decreases |parts|
  {
    if |parts| == 1 then parts[0] else parts[0] + sep + Join(parts[1..], sep)
  }

  /** Every string of `ss`, each followed by `sep`: what a loop of
      `value = value + s + sep` builds from the empty string. */
  function Terminated(ss: seq<string>, sep: string): string
  {
    if ss == [] then "" else Terminated(ss[..|ss| - 1], sep) + ss[|ss| - 1] + sep
  }

  function CharsOf(s: string): set<char>
  {
    set c | c in s
  }

  /** `s.lstrip(chars)`: drops the longest prefix made of characters in `cs`. */
  function StripLeft(s: string, cs: set<char>): (r: string)
    ensures |r| <= |s|
    ensures r != [] ==> r[0] !in cs
    ensures forall i :: 0 <= i < |s| - |r| ==> s[i] in cs
  {
    if s != [] && s[0] in cs then StripLeft(s[1..], cs) else s
  }

  /** `s.rstrip(chars)`: drops the longest suffix made of characters in `cs`. */
  function StripRight(s: string, cs: set<char>): (r: string)
    ensures |r| <= |s|
    ensures r != [] ==> r[|r| - 1] !in cs
    ensures forall i :: |r| <= i < |s| ==> s[i] in cs
  {
    if s != [] && s[|s| - 1] in cs then StripRight(s[..|s| - 1], cs) else s
  }

  /** What `StripLeft` keeps is a suffix of its input. */
  lemma {:induction false} StripLeftSuffix(s: string, cs: set<char>)
    ensures StripLeft(s, cs) == s[|s| - |StripLeft(s, cs)|..]
    decreases |s|
  {
    if s != [] && s[0] in cs {
      StripLeftSuffix(s[1..], cs);
    }
  }

  /** What `StripRight` keeps is a prefix of its input. */
  lemma {:induction false} StripRightPrefix(s: string, cs: set<char>)
    ensures StripRight(s, cs) == s[..|StripRight(s, cs)|]
    decreases |s|
  {
    if s != [] && s[|s| - 1] in cs {
      StripRightPrefix(s[..|s| - 1], cs);
    }
  }

  /** `s.strip(chars)`: the part of `s` left once every leading and trailing
      character in `cs` is removed; with an empty `cs` nothing is removed. */
  function Strip(s: string, cs: set<char>): (r: string)
    ensures r != [] ==> r[0] !in cs && r[|r| - 1] !in cs
  {
    var l := StripLeft(s, cs);
    var r := StripRight(l, cs);
    StripRightPrefix(l, cs);
    assert r != [] ==> r[0] == l[0];
    r
  }

  /** What `Strip` removes is made of characters in `cs`, at both ends only. */
  lemma StripRemovesEnds(s: string, cs: set<char>)
    ensures exists i, j :: 0 <= i <= j <= |s| && Strip(s, cs) == s[i..j]
              && (forall k :: 0 <= k < i ==> s[k] in cs)
              && (forall k :: j <= k < |s| ==> s[k] in cs)
  {
    var l := StripLeft(s, cs);
    var r := StripRight(l, cs);
    var i := |s| - |l|;
    StripLeftSuffix(s, cs);
    StripRightPrefix(l, cs);
    assert r == s[i..i + |r|];
  }

  // ---------------------------------------------------------------- lemmas

  /** Replacing `p` by itself changes nothing. */
  lemma {:induction false} ReplaceSelf(s: string, p: string)
    requires p != []
    ensures Replace(s, p, p) == s
    decreases |s|
  {
    if |s| < |p| {
    } else if s[..|p|] == p {
      ReplaceSelf(s[|p|..], p);
      assert s == s[..|p|] + s[|p|..];
    } else {
      ReplaceSelf(s[1..], p);
      assert s == [s[0]] + s[1..];
    }
  }

  /** Replacing a pattern that does not occur changes nothing. */
  lemma {:induction false} ReplaceAbsent(s: string, p: string, r: string)
    requires p != [] && !Occurs(s, p)
    ensures Replace(s, p, r) == s
    decreases |s|
  {
    if |s| >= |p| {
      assert !OccursAt(s, p, 0);
      assert s[..|p|] != p;
      forall i: nat | OccursAt(s[1..], p, i)
        ensures false
      {
        assert s[1..][i..i + |p|] == s[i + 1..i + 1 + |p|];
        assert OccursAt(s, p, i + 1);
      }
      ReplaceAbsent(s[1..], p, r);
      assert s == [s[0]] + s[1..];
    }
  }

  /** `s.replace(p, r) == r.join(s.split(p))`. */
  lemma {:induction false} ReplaceIsJoinOfSplit(s: string, p: string, r: string)
    requires p != []
    ensures Replace(s, p, r) == Join(Split(s, p), r)
    decreases |s|
  {
    if |s| < |p| {
    } else if s[..|p|] == p {
      ReplaceIsJoinOfSplit(s[|p|..], p, r);
      JoinAfterEmpty(Split(s[|p|..], p), r);
    } else {
      ReplaceIsJoinOfSplit(s[1..], p, r);
      var t := Split(s[1..], p);
      assert Replace(s, p, r) == [s[0]] + Join(t, r);
      JoinExtendFirst(t, [s[0]], r);
    }
  }

  lemma JoinAfterEmpty(t: seq<string>, r: string)
    requires |t| >= 1
    ensures Join([""] + t, r) == r + Join(t, r)
  {
    assert ([""] + t)[1..] == t;
  }

  lemma JoinExtendFirst(t: seq<string>, x: string, r: string)
    requires |t| >= 1
    ensures Join([x + t[0]] + t[1..], r) == x + Join(t, r)
  {
    var parts := [x + t[0]] + t[1..];
    if |t| > 1 {
      assert parts[1..] == t[1..];
    }
  }

  /** Joining the pieces of a split with the same separator rebuilds the string. */
  lemma JoinOfSplit(s: string, p: string)
    requires p != []
    ensures Join(Split(s, p), p) == s
  {
    ReplaceSelf(s, p);
    ReplaceIsJoinOfSplit(s, p, p);
  }

  lemma ShortNoOccurrence(s: string, p: string)
    requires |s| < |p|
    ensures !Occurs(s, p)
  {
  }

  /** No piece of `s.split(p)` contains `p`. */
  lemma {:induction false} SplitPiecesFree(s: string, p: string)
    requires p != []
    ensures forall k :: 0 <= k < |Split(s, p)| ==> !Occurs(Split(s, p)[k], p)
    decreases |s|
  {
    if |s| < |p| {
      ShortNoOccurrence(s, p);
    } else if s[..|p|] == p {
      SplitPiecesFree(s[|p|..], p);
      ShortNoOccurrence("", p);
      var t := Split(s[|p|..], p);
      assert Split(s, p) == [""] + t;
    } else {
      SplitPiecesFree(s[1..], p);
      var t := Split(s[1..], p);
      var first := [s[0]] + t[0];
      assert Split(s, p) == [first] + t[1..];
      assert first <= s;
      forall i: nat | OccursAt(first, p, i)
        ensures false
      {
        if i > 0 {
          assert first[i..i + |p|] == t[0][i - 1..i - 1 + |p|];
          assert OccursAt(t[0], p, i - 1);
        }
      }
    }
  }

  /** The first character of a join is that of its first non-empty part. */
  lemma {:induction false} JoinFirst(ss: seq<string>, sep: string)
    requires |ss| >= 1 && ss[0] != []
    ensures Join(ss, sep) != [] && Join(ss, sep)[0] == ss[0][0]
  {
  }

  /** The last character of a join is that of its non-empty last part. */
  lemma {:induction false} JoinLast(ss: seq<string>, sep: string)
    requires |ss| >= 1 && ss[|ss| - 1] != []
    ensures Join(ss, sep) != [] && Join(ss, sep)[|Join(ss, sep)| - 1] == ss[|ss| - 1][|ss[|ss| - 1]| - 1]
    decreases |ss|
  {
    if |ss| > 1 {
      JoinLast(ss[1..], sep);
    }
  }

  /** Joining one more part adds the separator and that part at the end. */
  lemma {:induction false} JoinSnoc(ss: seq<string>, x: string, sep: string)
    requires |ss| >= 1
    ensures Join(ss + [x], sep) == Join(ss, sep) + sep + x
    decreases |ss|
  {
    if |ss| > 1 {
      JoinSnoc(ss[1..], x, sep);
      assert (ss + [x])[1..] == ss[1..] + [x];
    }
  }

  /** A terminated list is the join of its strings with one separator more. */
  lemma {:induction false} TerminatedIsJoin(ss: seq<string>, sep: string)
    requires |ss| >= 1
    ensures Terminated(ss, sep) == Join(ss, sep) + sep
    decreases |ss|
  {
    var n := |ss|;
    if n > 1 {
      TerminatedIsJoin(ss[..n - 1], sep);
      JoinSnoc(ss[..n - 1], ss[n - 1], sep);
      assert ss[..n - 1] + [ss[n - 1]] == ss;
    } else {
      assert ss[..0] == [];
    }
  }

  lemma {:induction false} TerminatedAppend(xs: seq<string>, ys: seq<string>, sep: string)
    ensures Terminated(xs + ys, sep) == Terminated(xs, sep) + Terminated(ys, sep)
    decreases |ys|
  {
    if ys == [] {
      assert xs + ys == xs;
    } else {
      var n := |ys|;
      TerminatedAppend(xs, ys[..n - 1], sep);
      assert (xs + ys)[..|xs + ys| - 1] == xs + ys[..n - 1];
    }
  }

  /** Stripping `c` from `x + c`, where `x` neither starts nor ends with a
      character to strip, gives back `x`. */
  lemma StripTrailing(x: string, c: char, cs: set<char>)
    requires x != [] && x[0] !in cs && x[|x| - 1] !in cs && c in cs
    ensures Strip(x + [c], cs) == x
  {
    var y := x + [c];
    StripLeftKeeps(y, cs);
    StripRightDrops(x, c, cs);
  }

  lemma StripLeftKeeps(y: string, cs: set<char>)
    requires y != [] && y[0] !in cs
    ensures StripLeft(y, cs) == y
  {
  }

  lemma StripRightDrops(x: string, c: char, cs: set<char>)
    requires x != [] && x[|x| - 1] !in cs && c in cs
    ensures StripRight(x + [c], cs) == x
  {
    var y := x + [c];
    assert y[..|y| - 1] == x;
  }

  /** Splitting on a character that no part contains undoes the join. */
  lemma {:induction false} SplitOfJoin(ss: seq<string>, c: char)
    requires |ss| >= 1
    requires forall k :: 0 <= k < |ss| ==> c !in ss[k]
    ensures Split(Join(ss, [c]), [c]) == ss
    decreases |ss|
  {
    if |ss| == 1 {
      SplitFree(ss[0], [], c);
    } else {
      SplitOfJoin(ss[1..], c);
      SplitFree(ss[0], Join(ss[1..], [c]), c);
      assert ss == [ss[0]] + ss[1..];
    }
  }

  /** Splitting `x + c + y` on `c`, where `x` holds no `c`, gives `x` first. */
  lemma {:induction false} SplitFree(x: string, y: string, c: char)
    requires c !in x
    ensures Split(x, [c]) == [x]
    ensures Split(x + [c] + y, [c]) == [x] + Split(y, [c])
    decreases |x|
  {
    if x == [] {
      assert (x + [c] + y)[..1] == [c];
      assert (x + [c] + y)[1..] == y;
    } else {
      SplitFree(x[1..], y, c);
      assert (x + [c] + y)[1..] == x[1..] + [c] + y;
      assert [x[0]] + x[1..] == x;
      assert x[..1] != [c];
      assert (x + [c] + y)[..1] == x[..1];
    }
  }

  /** A prefix that cannot start an occurrence is copied unchanged. */
  lemma {:induction false} ReplaceSkips(x: string, z: string, p: string, r: string)
    requires p != [] && p[0] !in x
    ensures Replace(x + z, p, r) == x + Replace(z, p, r)
    decreases |x|
  {
    if x != [] {
      var s := x + z;
      if |s| >= |p| {
        assert s[..|p|][0] == x[0];
      }
      assert s[1..] == x[1..] + z;
      ReplaceSkips(x[1..], z, p, r);
      assert x == [x[0]] + x[1..];
    } else {
      assert x + z == z;
    }
  }

  /** With one occurrence of `p`, directly between two parts that cannot
      start one, `replace` substitutes exactly that occurrence. */
  lemma ReplaceSingle(x: string, p: string, y: string, r: string)
    requires p != [] && p[0] !in x && p[0] !in y
    ensures Replace(x + p + y, p, r) == x + r + y
  {
    ReplaceSkips(x, p + y, p, r);
    assert (p + y)[..|p|] == p && (p + y)[|p|..] == y;
    ReplaceSkips(y, [], p, r);
    assert y + [] == y;
    assert Replace(p + y, p, r) == r + y;
    assert x + p + y == x + (p + y);
  }
}
