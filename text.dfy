/** Plain string helpers used by the serialisers: prefixes, Python's
    `" ".join(...)`, `str.split(" ")` and `str.replace(pattern, "")`. */
module Text {

  /** `s.startswith(p)` */
  predicate StartsWith(s: string, p: string)
  {
    |p| <= |s| && s[..|p|] == p
  }

  /** Two strings whose first characters differ share no non-empty prefix. */
  lemma DifferentHeads(s: string, p: string)
    requires |s| > 0 && |p| > 0 && s[0] != p[0]
    ensures !StartsWith(s, p)
  {
    assert |p| <= |s| ==> s[..|p|][0] == s[0];
  }

  /** A prefix of a prefix is a prefix. */
  lemma PrefixOfConcat(p: string, q: string, r: string)
    ensures StartsWith(p + q + r, p)
  {
    assert (p + q + r)[..|p|] == p;
  }

  /** `" ".join(fields)`: the fields separated by single spaces. */
  function Join(fields: seq<string>): string
  {
    if |fields| == 0 then ""
    else if |fields| == 1 then fields[0]
    else fields[0] + " " + Join(fields[1..])
  }

  /** `s.split(" ")`: the maximal pieces between single spaces, empty pieces kept. */
  function Split(s: string): (r: seq<string>)
    ensures |r| >= 1
  {
    if |s| == 0 then [""]
    else if s[0] == ' ' then [""] + Split(s[1..])
    else
      var rest := Split(s[1..]);
      [[s[0]] + rest[0]] + rest[1..]
  }

  /** True when `s` has no space character, so it is one field once split. */
  predicate NoSpace(s: string)
  {
    forall i | 0 <= i < |s| :: s[i] != ' '
  }

  lemma {:induction false} SplitNoSpace(s: string)
    requires NoSpace(s)
    ensures Split(s) == [s]
  {
    if |s| > 0 {
      assert NoSpace(s[1..]) by {
        forall i | 0 <= i < |s[1..]| ensures s[1..][i] != ' ' {
          assert s[1..][i] == s[i + 1];
        }
      }
      SplitNoSpace(s[1..]);
      assert [s[0]] + s[1..] == s;
    }
  }

  /** Splitting distributes over a separating space. */
  lemma {:induction false} SplitAtSpace(a: string, b: string)
    ensures Split(a + " " + b) == Split(a) + Split(b)
  {
    if |a| == 0 {
      assert a + " " + b == " " + b;
      assert (" " + b)[1..] == b;
    } else {
      var s := a + " " + b;
      assert s[0] == a[0];
      assert s[1..] == a[1..] + " " + b;
      SplitAtSpace(a[1..], b);
    }
  }

  /** Three space-free words and a rest, separated by single spaces, split as the
      words followed by the pieces of the rest. */
  lemma SplitThree(a: string, b: string, c: string, rest: string)
    requires NoSpace(a) && NoSpace(b) && NoSpace(c)
    ensures Split(a + " " + b + " " + c + " " + rest) == [a, b, c] + Split(rest)
  {
    assert a + " " + b + " " + c + " " + rest == a + " " + (b + " " + (c + " " + rest));
    SplitAtSpace(a, b + " " + (c + " " + rest));
    SplitAtSpace(b, c + " " + rest);
    SplitAtSpace(c, rest);
    SplitNoSpace(a);
    SplitNoSpace(b);
    SplitNoSpace(c);
  }

  /** Splitting a joined line gives back its fields when none holds a space. */
  lemma {:induction false} SplitJoin(fields: seq<string>)
    requires |fields| >= 1
    requires forall i | 0 <= i < |fields| :: NoSpace(fields[i])
    ensures Split(Join(fields)) == fields
  {
    SplitNoSpace(fields[0]);
    if |fields| > 1 {
      SplitAtSpace(fields[0], Join(fields[1..]));
      SplitJoin(fields[1..]);
      assert [fields[0]] + fields[1..] == fields;
    }
  }

  /** Joining the pieces of a split gives back the string. */
  lemma {:induction false} JoinSplit(s: string)
    ensures Join(Split(s)) == s
  {
    if |s| > 0 {
      var rest := Split(s[1..]);
      JoinSplit(s[1..]);
      if s[0] == ' ' {
        assert Join([""] + rest) == "" + " " + Join(rest);
      } else {
        var r := [[s[0]] + rest[0]] + rest[1..];
        assert r[1..] == rest[1..];
        if |rest| == 1 {
          assert Join(r) == [s[0]] + rest[0];
        } else {
          assert Join(rest) == rest[0] + " " + Join(rest[1..]);
        }
        assert [s[0]] + s[1..] == s;
      }
    }
  }

  /** True when `p` occurs in `s` starting at index `i`. */
  predicate OccursAt(s: string, p: string, i: int)
  {
    0 <= i && i + |p| <= |s| && s[i..i + |p|] == p
  }

  /** True when `p` occurs somewhere in `s`. */
  ghost predicate Occurs(s: string, p: string)
  {
    exists i :: OccursAt(s, p, i)
  }

  /** `s.replace(p, "")`: one left-to-right pass deleting every non-overlapping occurrence of `p`. */
  function RemoveAll(s: string, p: string): (r: string)
    requires |p| > 0
    ensures |r| <= |s|
  {
    if |s| == 0 then ""
    else if StartsWith(s, p) then RemoveAll(s[|p|..], p)
    else [s[0]] + RemoveAll(s[1..], p)
  }

  /** Removing a pattern that does not occur changes nothing. */
  lemma {:induction false} RemoveAbsent(s: string, p: string)
    requires |p| > 0 && !Occurs(s, p)
    ensures RemoveAll(s, p) == s
  {
    if |s| > 0 {
      assert !OccursAt(s, p, 0);
      assert !StartsWith(s, p) by {
        assert |p| <= |s| ==> s[..|p|] == s[0..0 + |p|];
      }
      forall i ensures !OccursAt(s[1..], p, i) {
        assert !OccursAt(s, p, i + 1);
        if 0 <= i && i + |p| <= |s[1..]| {
          assert s[i + 1..i + 1 + |p|] == s[1..][i..i + |p|];
        }
      }
      RemoveAbsent(s[1..], p);
      assert [s[0]] + s[1..] == s;
    }
  }

  /** No proper suffix of `p` is also a prefix of it, so two occurrences of `p`
      never overlap. */
  predicate Unbordered(p: string)
  {
    forall k | 0 < k < |p| :: p[k..] != p[..|p| - k]
  }

  /** Removing an unbordered pattern from `a + p + b` removes that `p` whole and
      treats `a` and `b` apart: no occurrence can straddle either end of `p`. */
  lemma {:induction false} RemoveAround(a: string, p: string, b: string)
    requires |p| > 0 && Unbordered(p)
    ensures RemoveAll(a + p + b, p) == RemoveAll(a, p) + RemoveAll(b, p)
  {
    var t := a + p + b;
    if |a| == 0 {
      assert t == p + b;
      assert StartsWith(t, p);
      assert t[|p|..] == b;
    } else if |a| >= |p| {
      assert t[..|p|] == a[..|p|];
      if StartsWith(a, p) {
        assert t[|p|..] == a[|p|..] + p + b;
        RemoveAround(a[|p|..], p, b);
      } else {
        assert t[1..] == a[1..] + p + b;
        RemoveAround(a[1..], p, b);
      }
    } else {
      var k := |a|;
      assert t[..|p|][k..] == t[k..|p|] == p[..|p| - k];
      assert p[k..] != p[..|p| - k];
      assert !StartsWith(t, p);
      assert t[1..] == a[1..] + p + b;
      RemoveAround(a[1..], p, b);
    }
  }
}
