/** Strings as sequences of characters: prefixes, occurrences of a pattern,
    and the global literal replacement that `String.prototype.replace` performs
    with a `/…/g` regular expression made only of literal characters. */
module Text {

  /** `s.startsWith(p)`. */
  predicate StartsWith(s: string, p: string)
  {
    |p| <= |s| && s[..|p|] == p
  }

  /** One of the two strings is a prefix of the other: they agree on every
      position both of them have. */
  predicate Compatible(a: string, b: string)
  {
    StartsWith(a, b) || StartsWith(b, a)
  }

  /** `q` occurs nowhere in `s`. */
  predicate NoOccurrence(q: string, s: string)
  {
    forall k | 0 <= k <= |s| :: !StartsWith(s[k..], q)
  }

  /** The text `s` with every occurrence of `p` replaced by `r`, scanning from
      the left and resuming after each replaced occurrence, so occurrences
      never overlap. The replacement is inserted as it is. */
  function ReplaceAll(s: string, p: string, r: string): (t: string)
    requires p != []
    ensures r == p ==> t == s
    ensures |r| >= |p| ==> |t| >= |s|
    decreases |s|
  {
    if s == [] then []
    else if StartsWith(s, p) then
      assert s == s[..|p|] + s[|p|..];
      r + ReplaceAll(s[|p|..], p, r)
    else
      assert s == [s[0]] + s[1..];
      [s[0]] + ReplaceAll(s[1..], p, r)
  }

  /** Text without any occurrence of the pattern is left as it is. */
  lemma {:induction false} ReplaceAllAbsent(s: string, p: string, r: string)
    requires p != []
    requires NoOccurrence(p, s)
    ensures ReplaceAll(s, p, r) == s
  {
    if s != [] {
      assert !StartsWith(s[0..], p);
      assert s[0..] == s;
      assert NoOccurrence(p, s[1..]) by {
        forall k | 0 <= k <= |s[1..]| ensures !StartsWith(s[1..][k..], p) {
          assert s[1..][k..] == s[k + 1..];
        }
      }
      ReplaceAllAbsent(s[1..], p, r);
    }
  }

  /** The leftmost occurrence of the pattern is replaced and the text in front
      of it is kept: if the first occurrence of `p` in `a + p + b` starts right
      after `a`, the result is `a`, then `r`, then the rest replaced. */
  lemma {:induction false} ReplaceAllFirst(a: string, b: string, p: string, r: string)
    requires p != []
    requires forall k | 0 <= k < |a| :: !StartsWith((a + p + b)[k..], p)
    ensures ReplaceAll(a + p + b, p, r) == a + r + ReplaceAll(b, p, r)
  {
    var s := a + p + b;
    if a == [] {
      assert s == p + b;
      assert s[..|p|] == p;
      assert s[|p|..] == b;
    } else {
      assert s[0..] == s;
      assert !StartsWith(s, p);
      assert s[1..] == a[1..] + p + b;
      forall k | 0 <= k < |a[1..]| ensures !StartsWith((a[1..] + p + b)[k..], p) {
        assert (a[1..] + p + b)[k..] == s[k + 1..];
      }
      ReplaceAllFirst(a[1..], b, p, r);
      assert [s[0]] + a[1..] == a;
    }
  }

  /** A replacement that is compatible with no proper suffix of `q` cannot make
      the result begin with such a suffix: if the result begins with `q[j..]`,
      so did the text. */
  lemma {:induction false} ReplaceAllKeepsSuffixStart(s: string, p: string, r: string, q: string, j: nat)
    requires p != []
    requires 1 <= j < |q|
    requires forall i | 1 <= i < |q| :: !Compatible(r, q[i..])
    requires StartsWith(ReplaceAll(s, p, r), q[j..])
    ensures StartsWith(s, q[j..])
    decreases |s|
  {
    var t := ReplaceAll(s, p, r);
    if s == [] {
      assert false;
    } else if StartsWith(s, p) {
      assert false;
    } else {
      var rest := ReplaceAll(s[1..], p, r);
      assert t == [s[0]] + rest;
      assert s[0] == q[j];
      if j + 1 < |q| {
        assert StartsWith(rest, q[j + 1..]) by {
          assert q[j + 1..] == q[j..][1..];
          assert rest[..|q[j + 1..]|] == t[1..|q[j..]|];
        }
        ReplaceAllKeepsSuffixStart(s[1..], p, r, q, j + 1);
        assert s[..|q[j..]|] == [s[0]] + s[1..][..|q[j + 1..]|];
        assert q[j..] == [q[j]] + q[j + 1..];
      } else {
        assert q[j..] == [s[0]];
      }
    }
  }

  /** An occurrence of `q` that starts inside `r` would make the rest of `r`
      from there compatible with `q`. */
  lemma NotStartingWithin(r: string, rest: string, q: string, k: nat)
    requires k < |r|
    requires !Compatible(r[k..], q)
    ensures !StartsWith((r + rest)[k..], q)
  {
    var u := (r + rest)[k..];
    assert u[..|r[k..]|] == r[k..];
    if |r[k..]| <= |q| {
      assert q[..|r[k..]|] != r[k..];
      assert |q| <= |u| ==> u[..|q|][..|r[k..]|] == r[k..];
    } else {
      assert r[k..][..|q|] != q;
      assert u[..|q|] == r[k..][..|q|];
    }
  }

  /** If `[c] + rest` starts with `q`, then `s` starts with `q` as soon as `s`
      has the same first character and its tail starts with what follows it. */
  lemma ConsStartsWith(s: string, rest: string, q: string)
    requires s != [] && q != []
    requires |q| > 1 && StartsWith(rest, q[1..]) ==> StartsWith(s[1..], q[1..])
    ensures StartsWith([s[0]] + rest, q) ==> StartsWith(s, q)
  {
    if StartsWith([s[0]] + rest, q) {
      assert s[0] == q[0];
      if |q| > 1 {
        assert rest[..|q[1..]|] == ([s[0]] + rest)[1..|q|];
        assert s[..|q|] == [s[0]] + s[1..][..|q[1..]|];
        assert q == [q[0]] + q[1..];
      } else {
        assert s[..|q|] == [s[0]];
      }
    }
  }

  /** Inserting `r` can neither complete nor contain an occurrence of `q`:
      no suffix of `r` is compatible with `q` (so no occurrence starts inside
      `r`), and `r` is compatible with no proper suffix of `q` (so no
      occurrence started before `r` runs into it). */
  predicate Isolated(q: string, r: string)
  {
    && (forall k | 0 <= k < |r| :: !Compatible(r[k..], q))
    && (forall i | 1 <= i < |q| :: !Compatible(r, q[i..]))
  }

  /** No occurrence of `q` survives a replacement by a text isolated from
      `q`, or is created by it. `q` is either the pattern itself or a text
      that was absent before. */
  lemma {:induction false} NoOccurrenceAfterReplace(s: string, p: string, r: string, q: string)
    requires p != [] && q != []
    requires q == p || NoOccurrence(q, s)
    requires Isolated(q, r)
    ensures NoOccurrence(q, ReplaceAll(s, p, r))
    decreases |s|
  {
    var t := ReplaceAll(s, p, r);
    if s == [] {
      forall k | 0 <= k <= |t| ensures !StartsWith(t[k..], q) { }
    } else if StartsWith(s, p) {
      var rest := ReplaceAll(s[|p|..], p, r);
      assert q == p || NoOccurrence(q, s[|p|..]) by {
        if q != p {
          forall k | 0 <= k <= |s[|p|..]| ensures !StartsWith(s[|p|..][k..], q) {
            assert s[|p|..][k..] == s[|p| + k..];
          }
        }
      }
      NoOccurrenceAfterReplace(s[|p|..], p, r, q);
      assert t == r + rest;
      forall k | 0 <= k <= |t| ensures !StartsWith(t[k..], q) {
        if k < |r| {
          NotStartingWithin(r, rest, q, k);
        } else {
          assert t[k..] == rest[k - |r|..];
        }
      }
    } else {
      var rest := ReplaceAll(s[1..], p, r);
      assert q == p || NoOccurrence(q, s[1..]) by {
        if q != p {
          forall k | 0 <= k <= |s[1..]| ensures !StartsWith(s[1..][k..], q) {
            assert s[1..][k..] == s[1 + k..];
          }
        }
      }
      NoOccurrenceAfterReplace(s[1..], p, r, q);
      assert t == [s[0]] + rest;
      forall k | 0 <= k <= |t| ensures !StartsWith(t[k..], q) {
        if k == 0 {
          assert s[0..] == s;
          if 1 < |q| {
            if StartsWith(rest, q[1..]) {
              ReplaceAllKeepsSuffixStart(s[1..], p, r, q, 1);
            }
          }
          ConsStartsWith(s, rest, q);
        } else {
          assert t[k..] == rest[k - 1..];
        }
      }
    }
  }

  /** No character `c` of `s` is immediately followed by `d`. */
  predicate NoPair(s: string, c: char, d: char)
  {
    forall i | 0 <= i < |s| - 1 :: !(s[i] == c && s[i + 1] == d)
  }

  /** A text without `c` has no pair starting with `c`; two texts without the
      pair keep that when joined, unless the first ends with `c` and the second
      starts with `d`. */
  lemma NoPairConcat(x: string, y: string, c: char, d: char)
    requires NoPair(x, c, d) && NoPair(y, c, d)
    requires x != [] && y != [] ==> !(x[|x| - 1] == c && y[0] == d)
    ensures NoPair(x + y, c, d)
  {
    var s := x + y;
    forall i | 0 <= i < |s| - 1 ensures !(s[i] == c && s[i + 1] == d) {
      if i + 1 < |x| {
        assert s[i] == x[i] && s[i + 1] == x[i + 1];
      } else if i + 1 == |x| {
        assert s[i] == x[|x| - 1] && s[i + 1] == y[0];
      } else {
        assert s[i] == y[i - |x|] && s[i + 1] == y[i + 1 - |x|];
      }
    }
  }

  /** If every occurrence of `q` would contain the pair `c d` at offset `a`,
      a text without that pair can only be compatible with `q` from a
      position too close to its end for the pair to fit; there it is a suffix
      of `tail`, so `tail` decides. */
  lemma {:induction false} AnchoredIncompatible(q: string, r: string, tail: string, a: nat, c: char, d: char)
    requires a + 1 < |q| && q[a] == c && q[a + 1] == d
    requires NoPair(r, c, d)
    requires a + 1 <= |tail| <= |r| && r[|r| - |tail|..] == tail
    requires forall m | |tail| - (a + 1) <= m < |tail| :: !Compatible(tail[m..], q)
    ensures forall k | 0 <= k < |r| :: !Compatible(r[k..], q)
  {
    forall k | 0 <= k < |r| ensures !Compatible(r[k..], q) {
      if k + a + 1 < |r| {
        assert !(r[k + a] == c && r[k + a + 1] == d);
        assert r[k..][a] == r[k + a] && r[k..][a + 1] == r[k + a + 1];
        if |r[k..]| <= |q| {
          assert q[..|r[k..]|][a] == q[a];
        } else {
          assert r[k..][..|q|][a] == r[k..][a];
          assert r[k..][..|q|][a + 1] == r[k..][a + 1];
        }
      } else {
        var m := k - (|r| - |tail|);
        assert r[k..] == tail[m..];
      }
    }
  }

  /** `s.replace(/\/+/g, '/')`: every run of `/` shortened to a single
      `/`. */
  function CollapseSlashes(s: string): (t: string)
    ensures |t| <= |s|
    ensures s != [] ==> t != [] && t[0] == s[0]
    decreases |s|
  {
    if |s| < 2 then s
    else if s[0] == '/' && s[1] == '/' then CollapseSlashes(s[1..])
    else [s[0]] + CollapseSlashes(s[1..])
  }

  /** No `//` is left after collapsing. */
  lemma {:induction false} CollapseLeavesNoDoubleSlash(s: string)
    ensures NoPair(CollapseSlashes(s), '/', '/')
    decreases |s|
  {
    if |s| >= 2 {
      CollapseLeavesNoDoubleSlash(s[1..]);
      if !(s[0] == '/' && s[1] == '/') {
        NoPairConcat([s[0]], CollapseSlashes(s[1..]), '/', '/');
      }
    }
  }

  /** A text without `//` is its own collapse. */
  lemma {:induction false} CollapseKeepsSingleSlashes(s: string)
    requires NoPair(s, '/', '/')
    ensures CollapseSlashes(s) == s
    decreases |s|
  {
    if |s| >= 2 {
      assert !(s[0] == '/' && s[1] == '/');
      NoPairTail(s, '/', '/');
      CollapseKeepsSingleSlashes(s[1..]);
      assert s == [s[0]] + s[1..];
    }
  }

  /** Collapsing text that follows a prefix without `//` and not ending in
      `/` leaves the prefix alone. */
  lemma {:induction false} CollapseAfter(a: string, b: string)
    requires a != [] && a[|a| - 1] != '/' && NoPair(a, '/', '/')
    ensures CollapseSlashes(a + b) == a + CollapseSlashes(b)
  {
    var s := a + b;
    if |a| == 1 {
      if b != [] {
        assert s[0] == a[0] && s[1..] == b;
        assert CollapseSlashes(s) == [s[0]] + CollapseSlashes(s[1..]);
      }
    } else {
      CollapseStep(a, b);
      NoPairTail(a, '/', '/');
      CollapseAfter(a[1..], b);
      assert a == [a[0]] + a[1..];
    }
  }

  /** The first character of a prefix without `//` survives the collapse. */
  lemma CollapseStep(a: string, b: string)
    requires |a| >= 2 && NoPair(a, '/', '/')
    ensures CollapseSlashes(a + b) == [a[0]] + CollapseSlashes(a[1..] + b)
  {
    var s := a + b;
    assert s[0] == a[0] && s[1] == a[1];
    assert !(a[0] == '/' && a[1] == '/');
    assert s[1..] == a[1..] + b;
  }

  /** Dropping the first character keeps a text free of a pair. */
  lemma NoPairTail(s: string, c: char, d: char)
    requires s != [] && NoPair(s, c, d)
    ensures NoPair(s[1..], c, d)
  {
    forall i | 0 <= i < |s[1..]| - 1 ensures !(s[1..][i] == c && s[1..][i + 1] == d) {
      assert s[1..][i] == s[i + 1] && s[1..][i + 1] == s[i + 2];
    }
  }

  /** `s.split(c)[0]`: the text in front of the first `c`, or all of `s`
      when it has none. */
  function Before(s: string, c: char): (b: string)
    ensures StartsWith(s, b)
    ensures c !in b
    ensures |b| < |s| ==> s[|b|] == c
  {
    if s == [] || s[0] == c then [] else [s[0]] + Before(s[1..], c)
  }

  /** The first field of `a`, a separator and anything is `a`. */
  lemma {:induction false} BeforeSeparator(a: string, c: char, x: string)
    requires c !in a
    ensures Before(a + [c] + x, c) == a
  {
    if a != [] {
      assert (a + [c] + x)[1..] == a[1..] + [c] + x;
      BeforeSeparator(a[1..], c, x);
    }
  }
}
