/**
 The few `java.lang.String` operations the client and its test servers rely
 on: `String.join`, `String.split` with a one-character separator (which
 Java takes on a fast path with no regular-expression behaviour),
 `startsWith`, and the case-insensitive comparison used for HTTP header names.
 */
module JavaStrings {

  /** `String.join(sep, xs)`: the elements separated by `sep`; "" for no elements. */
  function Join(xs: seq<string>, sep: string): string
  {
    if |xs| == 0 then ""
    else if |xs| == 1 then xs[0]
    else xs[0] + sep + Join(xs[1..], sep)
  }

  /** The text between consecutive occurrences of `c` in `s`, empty pieces
      included. `String.split` starts from these pieces. */
  function Pieces(s: string, c: char): (r: seq<string>)
    ensures |r| >= 1
    ensures forall i :: 0 <= i < |r| ==> c !in r[i]
    ensures Join(r, [c]) == s
    decreases |s|
  {
    if |s| == 0 then [""]
    else
      var rest := Pieces(s[1..], c);
      if s[0] == c then
        JoinAfterEmpty(rest, c);
        [""] + rest
      else
        JoinExtendHead(s[0], rest, c);
        [[s[0]] + rest[0]] + rest[1..]
  }

  /** Joining a list with a head separates the head from the rest. */
  lemma JoinCons(h: string, t: seq<string>, sep: string)
    requires |t| >= 1
    ensures Join([h] + t, sep) == h + sep + Join(t, sep)
  {
    assert ([h] + t)[1..] == t;
  }

  lemma JoinAfterEmpty(rest: seq<string>, c: char)
    requires |rest| >= 1
    ensures Join([""] + rest, [c]) == [c] + Join(rest, [c])
  {
    var j := Join(rest, [c]);
    JoinCons("", rest, [c]);
    assert "" + [c] + j == [c] + j;
  }

  lemma JoinExtendHead(ch: char, rest: seq<string>, c: char)
    requires |rest| >= 1
    ensures Join([[ch] + rest[0]] + rest[1..], [c]) == [ch] + Join(rest, [c])
  {
    if |rest| > 1 {
      assert rest == [rest[0]] + rest[1..];
      JoinPrefixHead([ch], rest[0], rest[1..], [c]);
    } else {
      assert [[ch] + rest[0]] + rest[1..] == [[ch] + rest[0]];
    }
  }

  /** Text put in front of the first element comes out in front of the join. */
  lemma JoinPrefixHead(p: string, h: string, t: seq<string>, sep: string)
    requires |t| >= 1
    ensures Join([p + h] + t, sep) == p + Join([h] + t, sep)
  {
    var j := Join(t, sep);
    JoinCons(p + h, t, sep);
    JoinCons(h, t, sep);
    assert (p + h) + sep + j == p + (h + sep + j);
  }

  /** Removes the empty strings at the end of `ps`, as `String.split` does
      when called without a limit. */
  function DropTrailingEmpty(ps: seq<string>): (r: seq<string>)
    ensures |r| <= |ps| && r == ps[..|r|]
    ensures |r| > 0 ==> r[|r| - 1] != ""
    ensures forall i :: |r| <= i < |ps| ==> ps[i] == ""
    decreases |ps|
  {
    if |ps| > 0 && ps[|ps| - 1] == "" then DropTrailingEmpty(ps[..|ps| - 1]) else ps
  }

  /** `s.split(String.valueOf(c))` for a separator that is not a regular
      expression metacharacter: a string without the separator comes back
      whole (even when it is empty); otherwise the pieces come back with the
      trailing empty ones removed. */
  function Split(s: string, c: char): (r: seq<string>)
    ensures forall i :: 0 <= i < |r| ==> c !in r[i]
    ensures c !in s ==> r == [s]
    ensures c in s ==> |r| == 0 || r[|r| - 1] != ""
  {
    if c !in s then [s] else DropTrailingEmpty(Pieces(s, c))
  }

  /** `s.startsWith(p)`. */
  predicate StartsWith(s: string, p: string)
  {
    |p| <= |s| && s[..|p|] == p
  }

  function AsciiLower(ch: char): char
  {
    if 'A' <= ch <= 'Z' then (ch as int + 32) as char else ch
  }

  /** Header names are compared without regard to ASCII case. */
  predicate EqualsIgnoreCase(a: string, b: string)
  {
    |a| == |b| && forall i :: 0 <= i < |a| ==> AsciiLower(a[i]) == AsciiLower(b[i])
  }

  // ---------------------------------------------------------------------
  // Split undoes Join

  /** A string without the separator is a single piece. */
  lemma {:induction false} PiecesWithoutSeparator(a: string, c: char)
    requires c !in a
    ensures Pieces(a, c) == [a]
    decreases |a|
  {
    if |a| > 0 {
      PiecesWithoutSeparator(a[1..], c);
    }
  }

  /** The first separator ends the first piece. */
  lemma {:induction false} PiecesAtFirstSeparator(a: string, b: string, c: char)
    requires c !in a
    ensures Pieces(a + [c] + b, c) == [a] + Pieces(b, c)
    decreases |a|
  {
    var s := a + [c] + b;
    if |a| == 0 {
      assert s[1..] == b;
    } else {
      assert s[1..] == a[1..] + [c] + b;
      PiecesAtFirstSeparator(a[1..], b, c);
      assert [s[0]] + a[1..] == a;
    }
  }

  /** Cutting a join at its separator gives back the joined elements. */
  lemma {:induction false} PiecesOfJoin(xs: seq<string>, c: char)
    requires |xs| >= 1
    requires forall i :: 0 <= i < |xs| ==> c !in xs[i]
    ensures Pieces(Join(xs, [c]), c) == xs
    decreases |xs|
  {
    if |xs| == 1 {
      PiecesWithoutSeparator(xs[0], c);
    } else {
      PiecesOfJoin(xs[1..], c);
      PiecesAtFirstSeparator(xs[0], Join(xs[1..], [c]), c);
      assert [xs[0]] + xs[1..] == xs;
    }
  }

  /** A string with at least two separators splits into the text before the
      first and, when that is not empty, the text between the first two;
      whatever follows does not matter. */
  lemma SplitFirstTwo(a: string, b: string, w: string, c: char)
    requires c !in a && c !in b && b != ""
    ensures var r := Split(a + [c] + (b + [c] + w), c);
      |r| >= 2 && r[0] == a && r[1] == b
  {
    var s := a + [c] + (b + [c] + w);
    assert s[|a|] == c;
    PiecesAtFirstSeparator(a, b + [c] + w, c);
    PiecesAtFirstSeparator(b, w, c);
    var ps := Pieces(s, c);
    assert ps[0] == a && ps[1] == b;
    var r := DropTrailingEmpty(ps);
    assert ps[1] != "";
    assert |r| >= 2;
  }

  /** Splitting the join of a non-empty list whose elements do not contain the
      separator, and whose last element is not empty, returns the list. */
  lemma SplitOfJoin(xs: seq<string>, c: char)
    requires |xs| >= 1
    requires forall i :: 0 <= i < |xs| ==> c !in xs[i]
    requires xs[|xs| - 1] != ""
    ensures Split(Join(xs, [c]), c) == xs
  {
    if |xs| == 1 {
      assert Join(xs, [c]) == xs[0];
    } else {
      var s := Join(xs, [c]);
      assert s == xs[0] + [c] + Join(xs[1..], [c]);
      assert s[|xs[0]|] == c;
      PiecesOfJoin(xs, c);
    }
  }
}
