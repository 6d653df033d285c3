/** Python's split, count and `in` on strings, and how they see text joined from pieces. */
module Text {

  /** `p in s` */
  predicate Contains(s: string, p: string) {
    p <= s || (s != [] && Contains(s[1..], p))
  }

  /** `s.split(c)` for a one-character separator */
  function Split(s: string, c: char): (r: seq<string>)
    ensures |r| >= 1
  {
    if s == [] then [""]
    else
      var rest := Split(s[1..], c);
      if s[0] == c then [""] + rest else [[s[0]] + rest[0]] + rest[1..]
  }

  /** `s.split(p)` for a longer separator: cut at the leftmost occurrences */
  function SplitOn(s: string, p: string): (r: seq<string>)
    requires p != []
    ensures |r| >= 1
    decreases |s|
  {
    if p <= s then [""] + SplitOn(s[|p|..], p)
    else if s == [] then [""]
    else
      var rest := SplitOn(s[1..], p);
      [[s[0]] + rest[0]] + rest[1..]
  }

  /** `s.count(p)` */
  function Count(s: string, p: string): nat
    requires p != []
  {
    |SplitOn(s, p)| - 1
  }

  /** `sum(l.count(p) for l in ls)` */
  function CountAll(ls: seq<string>, p: string): nat
    requires p != []
  {
    if ls == [] then 0 else Count(ls[0], p) + CountAll(ls[1..], p)
  }

  /** Lines, each with its newline. */
  function Unlines(ls: seq<string>): string {
    if ls == [] then "" else ls[0] + "\n" + Unlines(ls[1..])
  }

  /** `d.join(pieces)` */
  function Join(pieces: seq<string>, d: string): string
    requires pieces != []
  {
    if |pieces| == 1 then pieces[0] else pieces[0] + d + Join(pieces[1..], d)
  }

  lemma JoinFirst(a: string, rest: seq<string>, d: string)
    requires rest != []
    ensures Join([a] + rest, d) == a + d + Join(rest, d)
  {
    assert ([a] + rest)[1..] == rest;
  }

  // ----- what these functions are

  /** `p in s`: p stands somewhere in s. */
  lemma {:induction false} ContainsIff(s: string, p: string)
    ensures Contains(s, p) <==> exists k :: 0 <= k <= |s| && p <= s[k..]
  {
    if p <= s {
      assert s[0..] == s;
    } else if s != [] {
      ContainsIff(s[1..], p);
      if k :| 0 <= k <= |s[1..]| && p <= s[1..][k..] {
        assert s[1..][k..] == s[k + 1..];
      }
      if k :| 0 <= k <= |s| && p <= s[k..] {
        assert k > 0 by {
          assert s[0..] == s;
        }
        assert s[1..][k - 1..] == s[k..];
      }
    }
  }

  lemma JoinHead(x: char, rest: seq<string>, d: string)
    requires rest != []
    ensures Join([[x] + rest[0]] + rest[1..], d) == [x] + Join(rest, d)
  {
    if |rest| > 1 {
      assert ([[x] + rest[0]] + rest[1..])[1..] == rest[1..];
      assert ([x] + rest[0]) + d + Join(rest[1..], d) == [x] + (rest[0] + d + Join(rest[1..], d));
    }
  }

  /** `s.split(c)`: pieces without c, which c joins to s again. No other pieces are. */
  lemma {:induction false} SplitIs(s: string, c: char)
    ensures Join(Split(s, c), [c]) == s
    ensures forall k :: 0 <= k < |Split(s, c)| ==> c !in Split(s, c)[k]
  {
    if s != [] {
      SplitIs(s[1..], c);
      var rest := Split(s[1..], c);
      if s[0] == c {
        JoinFirst("", rest, [c]);
        assert "" + [c] + s[1..] == s;
      } else {
        JoinHead(s[0], rest, [c]);
        assert [s[0]] + s[1..] == s;
      }
    }
  }

  /** The first piece is a prefix of the text. */
  lemma {:induction false} FirstPiece(s: string, p: string)
    requires p != []
    ensures SplitOn(s, p)[0] <= s
    decreases |s|
  {
    if !(p <= s) && s != [] {
      FirstPiece(s[1..], p);
    }
  }

  lemma HeadLacks(s: string, p: string)
    requires p != [] && s != [] && !(p <= s) && !Contains(SplitOn(s[1..], p)[0], p)
    ensures !Contains([s[0]] + SplitOn(s[1..], p)[0], p)
  {
    FirstPiece(s[1..], p);
    var first := SplitOn(s[1..], p)[0];
    assert ([s[0]] + first)[1..] == first;
    assert [s[0]] + first <= s;
  }

  /** `s.split(p)`: p joins the pieces to s again, and each p was the leftmost in what was left. */
  lemma {:induction false} SplitOnIs(s: string, p: string)
    requires p != []
    ensures Join(SplitOn(s, p), p) == s
    ensures forall k :: 0 <= k < |SplitOn(s, p)| ==> !Contains(SplitOn(s, p)[k], p)
    decreases |s|
  {
    if p <= s {
      SplitOnIs(s[|p|..], p);
      JoinFirst("", SplitOn(s[|p|..], p), p);
      assert "" + p + s[|p|..] == s;
    } else if s != [] {
      SplitOnIs(s[1..], p);
      var rest := SplitOn(s[1..], p);
      JoinHead(s[0], rest, p);
      assert [s[0]] + s[1..] == s;
      HeadLacks(s, p);
    }
  }

  // ----- one-character separators

  lemma {:induction false} SplitAtFirst(a: string, c: char, b: string)
    requires c !in a
    ensures Split(a + [c] + b, c) == [a] + Split(b, c)
  {
    if a == [] {
      assert ([] + [c] + b)[1..] == b;
    } else {
      SplitAtFirst(a[1..], c, b);
      assert (a + [c] + b)[1..] == a[1..] + [c] + b;
      assert [a[0]] + a[1..] == a;
    }
  }

  lemma {:induction false} SplitNone(a: string, c: char)
    requires c !in a
    ensures Split(a, c) == [a]
  {
    if a != [] {
      SplitNone(a[1..], c);
      assert [a[0]] + a[1..] == a;
    }
  }

  lemma UnlinesHead(ls: seq<string>, t: string)
    requires ls != []
    ensures Unlines(ls) + t == ls[0] + ['\n'] + (Unlines(ls[1..]) + t)
  {
  }

  lemma HeadAgain<T>(s: seq<T>, t: seq<T>)
    requires s != []
    ensures [s[0]] + (s[1..] + t) == s + t
  {
  }

  lemma {:induction false} SplitLines(ls: seq<string>, t: string)
    requires forall l :: l in ls ==> '\n' !in l
    ensures Split(Unlines(ls) + t, '\n') == ls + Split(t, '\n')
  {
    if ls == [] {
      assert "" + t == t;
    } else {
      hide Split, Unlines;
      UnlinesHead(ls, t);
      SplitLines(ls[1..], t);
      SplitAtFirst(ls[0], '\n', Unlines(ls[1..]) + t);
      HeadAgain(ls, Split(t, '\n'));
    }
  }

  // ----- a character the pattern lacks keeps occurrences apart

  lemma PrefixApart(a: string, c: char, b: string, p: string)
    requires p != [] && c !in p
    ensures p <= a + [c] + b <==> p <= a
  {
    var s := a + [c] + b;
    if |p| > |a| {
      assert s[|a|] == c && p[|a|] in p;
    }
  }

  lemma {:induction false} ContainsApart(a: string, c: char, b: string, p: string)
    requires p != [] && c !in p
    ensures Contains(a + [c] + b, p) <==> Contains(a, p) || Contains(b, p)
  {
    var s := a + [c] + b;
    PrefixApart(a, c, b, p);
    if a == [] {
      assert s[1..] == b;
    } else {
      assert s[1..] == a[1..] + [c] + b;
      ContainsApart(a[1..], c, b, p);
    }
  }

  lemma {:induction false} CountApart(a: string, c: char, b: string, p: string)
    requires p != [] && c !in p
    ensures Count(a + [c] + b, p) == Count(a, p) + Count(b, p)
    decreases |a|
  {
    var s := a + [c] + b;
    PrefixApart(a, c, b, p);
    if p <= a {
      assert s[|p|..] == a[|p|..] + [c] + b;
      CountApart(a[|p|..], c, b, p);
    } else if a == [] {
      assert s[1..] == b;
    } else {
      assert s[1..] == a[1..] + [c] + b;
      CountApart(a[1..], c, b, p);
    }
  }

  lemma {:induction false} FirstOf(s: string, c: char) returns (a: string, b: string)
    requires c in s
    ensures s == a + [c] + b && c !in a
  {
    if s[0] == c {
      a, b := "", s[1..];
    } else {
      a, b := FirstOf(s[1..], c);
      a := [s[0]] + a;
    }
  }

  /** Occurrences of a pattern without c are those in the pieces of a split at c. */
  lemma {:induction false} CountSplit(s: string, c: char, p: string)
    requires p != [] && c !in p
    ensures Count(s, p) == CountAll(Split(s, c), p)
    decreases |s|
  {
    if c in s {
      var a, b := FirstOf(s, c);
      CountApart(a, c, b, p);
      SplitAtFirst(a, c, b);
      CountSplit(b, c, p);
      hide Split, SplitOn;
      assert ([a] + Split(b, c))[1..] == Split(b, c);
    } else {
      SplitNone(s, c);
      hide Split, SplitOn;
      assert [s][1..] == [];
    }
  }

  lemma {:induction false} AbsentFirst(s: string, p: string)
    requires p != [] && p[0] !in s
    ensures !Contains(s, p) && Count(s, p) == 0
  {
    if s != [] {
      AbsentFirst(s[1..], p);
    }
  }

  lemma {:induction false} NotContainedCount(s: string, p: string)
    requires p != []
    ensures SplitOn(s, p) == [s] <==> !Contains(s, p)
    ensures Count(s, p) == 0 <==> !Contains(s, p)
    decreases |s|
  {
    if !(p <= s) && s != [] {
      NotContainedCount(s[1..], p);
      var rest := SplitOn(s[1..], p);
      assert [s[0]] + s[1..] == s;
      if SplitOn(s, p) == [s] {
        assert |rest| == 1 && ([s[0]] + rest[0])[1..] == s[1..];
      }
    }
  }

  // ----- a pattern as a record separator

  lemma SkipOne(s: string, p: string, first: string, tail: seq<string>)
    requires p != [] && s != [] && !(p <= s) && SplitOn(s[1..], p) == [first] + tail
    ensures SplitOn(s, p) == [[s[0]] + first] + tail
  {
  }

  lemma CutHere(p: string, b: string)
    requires p != []
    ensures SplitOn(p + b, p) == [""] + SplitOn(b, p)
  {
    assert (p + b)[|p|..] == b;
  }

  /** Where a record ends with a character the pattern lacks, the next pattern is found where it was put. */
  lemma {:induction false} SplitOnRecord(a: string, c: char, p: string, b: string)
    requires p != [] && c !in p && !Contains(a, p)
    ensures SplitOn(a + [c] + (p + b), p) == [a + [c]] + SplitOn(b, p)
  {
    hide SplitOn;
    var s := a + [c] + (p + b);
    PrefixApart(a, c, p + b, p);
    if a == [] {
      CutHere(p, b);
      assert s[1..] == p + b;
      SkipOne(s, p, "", SplitOn(b, p));
      assert [s[0]] + "" == a + [c];
    } else {
      SplitOnRecord(a[1..], c, p, b);
      assert s[1..] == a[1..] + [c] + (p + b);
      SkipOne(s, p, a[1..] + [c], SplitOn(b, p));
      assert [s[0]] + (a[1..] + [c]) == a + [c];
    }
  }
}
