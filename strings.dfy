/**
 * The Python string operations the engine relies on: `sep.join(xs)`,
 * `s.split(c)`, `s.splitlines()` (on "\n" only) and plain concatenation.
 */
module Strings {

  /** Concatenation regrouped, for terms the solver does not regroup by itself. */
  lemma Assoc<T>(x: seq<T>, y: seq<T>, z: seq<T>)
    ensures (x + y) + z == x + (y + z)
  {
  }

  /** A non-empty sequence is all but its last element, then that element. */
  lemma Snoc<T>(xs: seq<T>)
    requires xs != []
    ensures xs[..|xs| - 1] + [xs[|xs| - 1]] == xs
  {
  }

  /** `sep.join(xs)`. Defined by peeling off the last piece, the way writers append. */
  function Join(sep: string, xs: seq<string>): string
    decreases |xs|
  {
    if |xs| == 0 then ""
    else if |xs| == 1 then xs[0]
    else Join(sep, xs[..|xs| - 1]) + sep + xs[|xs| - 1]
  }

  /** Appending one more piece adds a separator only when something was there before. */
  lemma JoinSnoc(sep: string, xs: seq<string>, x: string)
    ensures Join(sep, xs + [x]) == if xs == [] then x else Join(sep, xs) + sep + x
  {
    assert (xs + [x])[..|xs|] == xs;
  }

  /** Prepending one piece to a non-empty list puts exactly one separator after it. */
  lemma {:induction false} JoinCons(sep: string, x: string, xs: seq<string>)
    requires xs != []
    ensures Join(sep, [x] + xs) == x + sep + Join(sep, xs)
    decreases |xs|
  {
    var ys := [x] + xs;
    if |xs| == 1 {
      assert ys[..|ys| - 1] == [x];
    } else {
      var init := xs[..|xs| - 1];
      assert ys[..|ys| - 1] == [x] + init;
      JoinCons(sep, x, init);
    }
  }

  /** Number of occurrences of `c` in `s`. */
  function Count(s: string, c: char): nat
  {
    if s == [] then 0 else (if s[0] == c then 1 else 0) + Count(s[1..], c)
  }

  /** Python's `s.split(c)` for a one-character separator: never empty, "" gives [""]. */
  function Split(s: string, c: char): (pieces: seq<string>)
    ensures |pieces| >= 1
  {
    if s == [] then [""]
    else if s[0] == c then [""] + Split(s[1..], c)
    else
      var rest := Split(s[1..], c);
      [[s[0]] + rest[0]] + rest[1..]
  }

  /** Moving a prefix of the first piece out of a join. */
  lemma JoinHead(sep: string, a: string, b: string, ys: seq<string>)
    ensures Join(sep, [a + b] + ys) == a + Join(sep, [b] + ys)
  {
    if ys == [] {
      assert [a + b] + ys == [a + b];
      assert [b] + ys == [b];
    } else {
      JoinCons(sep, a + b, ys);
      JoinCons(sep, b, ys);
    }
  }

  /** Joining the pieces with the separator gives the input back. */
  lemma {:induction false} SplitJoin(s: string, c: char)
    ensures Join([c], Split(s, c)) == s
  {
    if s != [] {
      var rest := Split(s[1..], c);
      SplitJoin(s[1..], c);
      if s[0] == c {
        JoinCons([c], "", rest);
        assert [c] + s[1..] == s;
      } else {
        JoinHead([c], [s[0]], rest[0], rest[1..]);
        assert [rest[0]] + rest[1..] == rest;
        assert [s[0]] + s[1..] == s;
      }
    }
  }

  /** There is one more piece than there are separators. */
  lemma {:induction false} SplitCount(s: string, c: char)
    ensures |Split(s, c)| == Count(s, c) + 1
  {
    if s != [] {
      SplitCount(s[1..], c);
    }
  }

  /** No piece contains the separator. */
  lemma {:induction false} SplitPiecesFree(s: string, c: char)
    ensures forall i :: 0 <= i < |Split(s, c)| ==> c !in Split(s, c)[i]
  {
    if s != [] {
      SplitPiecesFree(s[1..], c);
      var rest := Split(s[1..], c);
      if s[0] != c {
        assert c !in rest[0];
        assert c !in [s[0]] + rest[0];
      }
    }
  }

  /** Splitting text whose first line holds no separator yields that line first. */
  lemma {:induction false} SplitAfter(a: string, c: char, b: string)
    requires c !in a
    ensures Split(a + [c] + b, c) == [a] + Split(b, c)
  {
    if a == [] {
      assert a + [c] + b == [c] + b;
    } else {
      SplitAfter(a[1..], c, b);
      assert (a + [c] + b)[1..] == a[1..] + [c] + b;
      assert [a[0]] + a[1..] == a;
    }
  }

  /** Text without the separator is a single piece. */
  lemma {:induction false} SplitFree(a: string, c: char)
    requires c !in a
    ensures Split(a, c) == [a]
  {
    if a != [] {
      SplitFree(a[1..], c);
      assert [a[0]] + a[1..] == a;
    }
  }

  /** Joining pieces free of the separator and splitting again gives the pieces back. */
  lemma {:induction false} JoinSplit(xs: seq<string>, c: char)
    requires xs != []
    requires forall i :: 0 <= i < |xs| ==> c !in xs[i]
    ensures Split(Join([c], xs), c) == xs
    decreases |xs|
  {
    if |xs| == 1 {
      SplitFree(xs[0], c);
    } else {
      JoinCons([c], xs[0], xs[1..]);
      SplitAfter(xs[0], c, Join([c], xs[1..]));
      JoinSplit(xs[1..], c);
      assert [xs[0]] + xs[1..] == xs;
    }
  }

  /** A trailing separator ends the split with one empty piece. */
  lemma {:induction false} SplitTrailing(a: string, c: char)
    ensures Split(a + [c], c) == Split(a, c) + [""]
  {
    if a == [] {
      assert a + [c] == [c];
    } else {
      SplitTrailing(a[1..], c);
      assert (a + [c])[1..] == a[1..] + [c];
    }
  }

  /**
   * Python's `s.splitlines()` when "\n" is the only line break in `s`:
   * the split on "\n" without the empty piece after a final newline.
   */
  function SplitLines(s: string): seq<string>
  {
    if s == [] then []
    else
      var pieces := Split(s, '\n');
      if s[|s| - 1] == '\n' then pieces[..|pieces| - 1] else pieces
  }

  /** Text that ends in a newline is its lines rejoined with "\n", plus that final newline. */
  lemma SplitLinesJoin(s: string)
    requires s != [] && s[|s| - 1] == '\n'
    ensures |SplitLines(s)| >= 1
    ensures Join("\n", SplitLines(s)) + "\n" == s
  {
    var a := s[..|s| - 1];
    assert a + ['\n'] == s;
    SplitTrailing(a, '\n');
    SplitJoin(a, '\n');
    var pieces := Split(s, '\n');
    assert pieces[..|pieces| - 1] == Split(a, '\n');
    JoinSnoc("\n", Split(a, '\n'), "");
  }

  /** Python's `lines[1:]`: everything after the first element (nothing for no elements). */
  function Rest<T>(xs: seq<T>): seq<T>
  {
    if xs == [] then [] else xs[1..]
  }

  /** Each line followed by "\n", one after the other: a JSON Lines body. */
  function Lines(ls: seq<string>): string
    decreases |ls|
  {
    if ls == [] then "" else Lines(ls[..|ls| - 1]) + ls[|ls| - 1] + "\n"
  }

  lemma LinesSnoc(ls: seq<string>, l: string)
    ensures Lines(ls + [l]) == Lines(ls) + l + "\n"
  {
    assert (ls + [l])[..|ls|] == ls;
  }

  lemma {:induction false} LinesCons(l: string, ls: seq<string>)
    ensures Lines([l] + ls) == l + "\n" + Lines(ls)
    decreases |ls|
  {
    if ls == [] {
      assert ([l] + ls)[..0] == [];
    } else {
      var init := ls[..|ls| - 1];
      assert ([l] + ls)[..|ls|] == [l] + init;
      LinesCons(l, init);
    }
  }

  /**
   * Lines free of "\n" written one per line are read back by `splitlines`
   * exactly: the number of lines equals the number of entries.
   */
  lemma {:induction false} LinesSplit(ls: seq<string>)
    requires forall i :: 0 <= i < |ls| ==> '\n' !in ls[i]
    ensures Split(Lines(ls), '\n') == ls + [""]
    ensures SplitLines(Lines(ls)) == ls
    decreases |ls|
  {
    if ls != [] {
      LinesSplit(ls[1..]);
      assert [ls[0]] + ls[1..] == ls;
      LinesCons(ls[0], ls[1..]);
      SplitAfter(ls[0], '\n', Lines(ls[1..]));
      assert ls[0] + "\n" + Lines(ls[1..]) == ls[0] + ['\n'] + Lines(ls[1..]);
      var s := Lines(ls);
      assert s[|s| - 1] == '\n';
    }
  }
}
