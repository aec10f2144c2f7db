/** Splitting and joining strings on a one-character separator, as
    JavaScript's `String.prototype.split` and `Array.prototype.join` do it for
    string pieces. */
module Strings {

  /** `s.split(d)`: the pieces of `s` between occurrences of `d`, in order.
      There is always at least one piece (`"".split(d)` is `[""]`) and no
      piece contains the separator. */
  function Split(s: string, d: char): (parts: seq<string>)
    ensures |parts| >= 1
    ensures forall i | 0 <= i < |parts| :: d !in parts[i]
    decreases |s|
  {
    if |s| == 0 then [""]
    else
      var rest := Split(s[1..], d);
      if s[0] == d then [""] + rest
      else [[s[0]] + rest[0]] + rest[1..]
  }

  /** `parts.join(d)`: the pieces in order, one separator between each two.
      The result starts with the first piece, and holds the separator exactly
      when there are two pieces or more, or some piece holds it. */
  function Join(parts: seq<string>, d: char): (s: string)
    ensures |parts| == 0 ==> s == ""
    ensures |parts| > 0 ==> parts[0] <= s
    ensures d in s <==> |parts| > 1 || exists i | 0 <= i < |parts| :: d in parts[i]
    decreases |parts|
  {
    if |parts| == 0 then ""
    else if |parts| == 1 then parts[0]
    else parts[0] + [d] + Join(parts[1..], d)
  }

  /** The position of the first `d` in `s`. */
  function FirstIndex(s: string, d: char): (i: nat)
    requires d in s
    ensures i < |s| && s[i] == d && d !in s[..i]
    decreases |s|
  {
    if s[0] == d then 0
    else
      assert s == [s[0]] + s[1..];
      var j := FirstIndex(s[1..], d);
      assert s[..j + 1] == [s[0]] + s[1..][..j];
      j + 1
  }

  /** Two pieces join around one separator. */
  lemma JoinTwo(a: string, b: string, d: char)
    ensures Join([a, b], d) == a + [d] + b
  {
    assert [a, b][1..] == [b];
  }

  /** A string without the separator splits into itself. */
  lemma {:induction false} SplitNoSeparator(s: string, d: char)
    requires d !in s
    ensures Split(s, d) == [s]
    decreases |s|
  {
    if |s| > 0 {
      assert d !in s[1..] by { assert forall c | c in s[1..] :: c in s; }
      SplitNoSeparator(s[1..], d);
      assert [s[0]] + s[1..] == s;
    }
  }

  /** A separator-free prefix glues onto the first piece of what follows. */
  lemma {:induction false} SplitPrefix(p: string, t: string, d: char)
    requires d !in p
    ensures Split(p + t, d) == [p + Split(t, d)[0]] + Split(t, d)[1..]
    decreases |p|
  {
    if |p| == 0 {
      assert p + t == t;
      assert p + Split(t, d)[0] == Split(t, d)[0];
      assert [Split(t, d)[0]] + Split(t, d)[1..] == Split(t, d);
    } else {
      assert (p + t)[1..] == p[1..] + t;
      assert d !in p[1..] by { assert forall c | c in p[1..] :: c in p; }
      SplitPrefix(p[1..], t, d);
      assert [p[0]] + (p[1..] + Split(t, d)[0]) == p + Split(t, d)[0];
    }
  }

  /** Splitting at the first separator: the part before it is the first
      piece, the rest is split on its own. */
  lemma SplitAtSeparator(p: string, t: string, d: char)
    requires d !in p
    ensures Split(p + [d] + t, d) == [p] + Split(t, d)
  {
    SplitPrefix(p, [d] + t, d);
    assert p + [d] + t == p + ([d] + t);
    assert ([d] + t)[1..] == t;
    assert Split([d] + t, d) == [""] + Split(t, d);
    assert p + "" == p;
  }

  /** `s.split(d)` has exactly one piece iff `s` does not contain `d`. */
  lemma SplitIsSingle(s: string, d: char)
    ensures |Split(s, d)| == 1 <==> d !in s
  {
    if d in s {
      var i := FirstIndex(s, d);
      assert s == s[..i] + [d] + s[i + 1..];
      SplitAtSeparator(s[..i], s[i + 1..], d);
    } else {
      SplitNoSeparator(s, d);
    }
  }

  /** Joining the pieces of a split gives the string back. */
  lemma {:induction false} JoinSplit(s: string, d: char)
    ensures Join(Split(s, d), d) == s
    decreases |s|
  {
    if d !in s {
      SplitNoSeparator(s, d);
    } else {
      var i := FirstIndex(s, d);
      var p, t := s[..i], s[i + 1..];
      assert s == p + [d] + t;
      SplitAtSeparator(p, t, d);
      JoinSplit(t, d);
      assert ([p] + Split(t, d))[1..] == Split(t, d);
    }
  }

  /** Splitting a join of separator-free pieces gives the pieces back. */
  lemma {:induction false} SplitJoin(parts: seq<string>, d: char)
    requires |parts| >= 1
    requires forall i | 0 <= i < |parts| :: d !in parts[i]
    ensures Split(Join(parts, d), d) == parts
    decreases |parts|
  {
    if |parts| == 1 {
      SplitNoSeparator(parts[0], d);
    } else {
      SplitJoin(parts[1..], d);
      SplitAtSeparator(parts[0], Join(parts[1..], d), d);
      assert [parts[0]] + parts[1..] == parts;
    }
  }

  /** The first piece of `s.split(d)` is a given separator-free `h` iff `s`
      is `h` or starts with `h` followed by the separator. */
  lemma SplitHead(s: string, d: char, h: string)
    requires d !in h
    ensures Split(s, d)[0] == h <==> s == h || (|s| > |h| && s[..|h| + 1] == h + [d])
  {
    if d !in s {
      SplitNoSeparator(s, d);
      NoSeparatorAfter(s, d, h);
    } else {
      var i := FirstIndex(s, d);
      assert s == s[..i] + [d] + s[i + 1..];
      SplitAtSeparator(s[..i], s[i + 1..], d);
      FirstSeparatorAt(s, d, h, i);
    }
  }

  /** Helper of `SplitHead`: an `s` without the separator does not start with `h` and the separator. */
  lemma NoSeparatorAfter(s: string, d: char, h: string)
    requires d !in s
    ensures !(|s| > |h| && s[..|h| + 1] == h + [d])
  {
    if |s| > |h| {
      assert s[..|h| + 1][|h|] == s[|h|];
    }
  }

  /** Helper of `SplitHead`: the first separator of `s` sits at `i`. */
  lemma FirstSeparatorAt(s: string, d: char, h: string, i: nat)
    requires d !in h
    requires i < |s| && s[i] == d && d !in s[..i]
    ensures s[..i] == h <==> s == h || (|s| > |h| && s[..|h| + 1] == h + [d])
  {
    if i == |h| {
      assert s[..i + 1] == s[..i] + [d];
    } else if i < |h| {
      assert h[i] != d;
      assert (h + [d])[i] == h[i];
      assert |s| > |h| ==> s[..|h| + 1][i] == s[i];
    } else {
      assert (h + [d])[|h|] == d;
      assert s[..|h| + 1][|h|] == s[|h|] == s[..i][|h|];
    }
  }
}
