/** Python's `str.replace(old, new)` on strings, the primitive of every fill
    step (main.py:159 and main.py:180). */
module Replace {
  import opened Text

  /** `t` occurs in `s` starting at position `p`. */
  predicate OccursAt(s: string, t: string, p: nat)
  {
    p + |t| <= |s| && s[p..p + |t|] == t
  }

  /** `t` occurs nowhere in `s`. */
  ghost predicate Absent(s: string, t: string)
  {
    forall p: nat :: !OccursAt(s, t, p)
  }

  /** In `x + t` the first occurrence of `t` is the appended copy: none starts inside `x`. */
  predicate FirstAtEnd(x: string, t: string)
  {
    forall p: nat :: p < |x| ==> !OccursAt(x + t, t, p)
  }

  /** `s.replace(t, v)` for a non-empty `t`: the occurrences of `t` are found
      from the left and replaced without overlap, and scanning resumes after
      each inserted `v`, so `v` itself is never searched. */
  function ReplaceAll(s: string, t: string, v: string): string
    requires |t| > 0
    decreases |s|
  {
    if |s| < |t| then s
    else if s[..|t|] == t then v + ReplaceAll(s[|t|..], t, v)
    else [s[0]] + ReplaceAll(s[1..], t, v)
  }

  lemma {:induction false} OccursShift(s: string, t: string, k: nat, p: nat)
    requires k <= |s|
    ensures OccursAt(s[k..], t, p) <==> OccursAt(s, t, p + k)
  {
    if p + k + |t| <= |s| {
      assert s[k..][p..p + |t|] == s[p + k..p + k + |t|];
    }
  }

  lemma {:induction false} OccursInPrefix(s: string, u: string, t: string, p: nat)
    requires p + |t| <= |s|
    ensures OccursAt(s + u, t, p) <==> OccursAt(s, t, p)
  {
    assert (s + u)[p..p + |t|] == s[p..p + |t|];
  }

  /** A string in which the searched text does not occur comes back unchanged. */
  lemma {:induction false} AbsentUnchanged(s: string, t: string, v: string)
    requires |t| > 0 && Absent(s, t)
    ensures ReplaceAll(s, t, v) == s
  {
    if |s| >= |t| {
      assert !OccursAt(s, t, 0);
      forall p: nat ensures !OccursAt(s[1..], t, p) {
        OccursShift(s, t, 1, p);
      }
      AbsentUnchanged(s[1..], t, v);
      assert s == [s[0]] + s[1..];
    }
  }

  /** Replacing a text by itself changes nothing. */
  lemma {:induction false} ReplaceByItself(s: string, t: string)
    requires |t| > 0
    ensures ReplaceAll(s, t, t) == s
    decreases |s|
  {
    if |s| >= |t| {
      if s[..|t|] == t {
        ReplaceByItself(s[|t|..], t);
        assert s == s[..|t|] + s[|t|..];
      } else {
        ReplaceByItself(s[1..], t);
        assert s == [s[0]] + s[1..];
      }
    }
  }

  /** A prefix in which no occurrence starts is copied through. */
  lemma {:induction false} CopyPrefix(m: string, y: string, t: string, v: string)
    requires |t| > 0
    requires forall p: nat :: p < |m| ==> !OccursAt(m + y, t, p)
    ensures ReplaceAll(m + y, t, v) == m + ReplaceAll(y, t, v)
  {
    if |m| == 0 {
      assert m + y == y;
    } else {
      var s := m + y;
      assert !OccursAt(s, t, 0);
      if |s| >= |t| {
        assert s[1..] == m[1..] + y;
        forall p: nat | p < |m| - 1 ensures !OccursAt(m[1..] + y, t, p) {
          OccursShift(s, t, 1, p);
        }
        CopyPrefix(m[1..], y, t, v);
        MissStep(s, t, v);
        ConsAssoc(m[0], m[1..], ReplaceAll(y, t, v));
      } else {
        assert ReplaceAll(y, t, v) == y;
      }
    }
  }

  /** `[c] + (a + b) == ([c] + a) + b`, with `[c] + a` a string split at its head. */
  lemma ConsAssoc(c: char, a: string, b: string)
    ensures [c] + (a + b) == ([c] + a) + b
  {
  }

  /** Scanning resumes after the replaced occurrence: when `x + t` has its first
      `t` at the end, `x` is kept, that `t` becomes `v` and nothing of `v` is
      rescanned. */
  lemma {:induction false} ReplaceFirst(x: string, t: string, y: string, v: string)
    requires |t| > 0 && FirstAtEnd(x, t)
    ensures ReplaceAll(x + t + y, t, v) == x + v + ReplaceAll(y, t, v)
  {
    var s := x + (t + y);
    assert s == (x + t) + y;
    forall p: nat | p < |x| ensures !OccursAt(s, t, p) {
      OccursInPrefix(x + t, y, t, p);
    }
    CopyPrefix(x, t + y, t, v);
    assert (t + y)[..|t|] == t;
    assert (t + y)[|t|..] == y;
  }

  /** The reference definition `v.join(s.split(t))`: a string made of parts
      separated by `t`, cut where the left-to-right search finds `t`, is turned
      into the same parts separated by `v`. */
  lemma {:induction false} ReplaceIsSplitJoin(parts: seq<string>, t: string, v: string)
    requires |t| > 0 && |parts| > 0
    requires forall i :: 0 <= i < |parts| - 1 ==> FirstAtEnd(parts[i], t)
    requires Absent(parts[|parts| - 1], t)
    ensures ReplaceAll(Join(parts, t), t, v) == Join(parts, v)
  {
    if |parts| == 1 {
      AbsentUnchanged(parts[0], t, v);
    } else {
      ReplaceIsSplitJoin(parts[1..], t, v);
      ReplaceFirst(parts[0], t, Join(parts[1..], t), v);
    }
  }

  /** A middle part `m` in which no occurrence of `t` starts, and across whose
      edges none reaches, separates the replacement into two independent ones. */
  lemma {:induction false} ReplaceAround(x: string, m: string, y: string, t: string, v: string)
    requires |t| > 0
    requires forall p: nat :: p < |x| + |m| && |x| < p + |t| ==> !OccursAt(x + m + y, t, p)
    ensures ReplaceAll(x + m + y, t, v) == ReplaceAll(x, t, v) + m + ReplaceAll(y, t, v)
    decreases |x|
  {
    var s := x + m + y;
    if |x| == 0 {
      assert s == m + y;
      CopyPrefix(m, y, t, v);
    } else if |s| >= |t| {
      if s[..|t|] == t {
        AroundAfterMatch(x, m, y, t, v);
      } else {
        AroundAfterMiss(x, m, y, t, v);
      }
    }
  }

  /** Dropping `k` characters of `x` keeps the middle part free of occurrences. */
  lemma {:induction false} GapShift(x: string, m: string, y: string, t: string, k: nat)
    requires k <= |x|
    requires forall p: nat :: p < |x| + |m| && |x| < p + |t| ==> !OccursAt(x + m + y, t, p)
    ensures forall p: nat :: p < |x| - k + |m| && |x| - k < p + |t| ==> !OccursAt(x[k..] + m + y, t, p)
  {
    var s := x + m + y;
    assert s[k..] == x[k..] + m + y;
    forall p: nat | p < |x| - k + |m| && |x| - k < p + |t| ensures !OccursAt(x[k..] + m + y, t, p) {
      OccursShift(s, t, k, p);
    }
  }

  lemma {:induction false} AroundAfterMatch(x: string, m: string, y: string, t: string, v: string)
    requires |t| > 0 && |x| > 0 && OccursAt(x + m + y, t, 0)
    requires forall p: nat :: p < |x| + |m| && |x| < p + |t| ==> !OccursAt(x + m + y, t, p)
    ensures ReplaceAll(x + m + y, t, v) == ReplaceAll(x, t, v) + m + ReplaceAll(y, t, v)
    decreases |x|, 0
  {
    MatchSteps(x, m, y, t, v);
    var x' := x[|t|..];
    GapShift(x, m, y, t, |t|);
    ReplaceAround(x', m, y, t, v);
    var rx, ry := ReplaceAll(x', t, v), ReplaceAll(y, t, v);
    assert v + (rx + m + ry) == (v + rx) + m + ry;
  }

  /** An occurrence at the start of `x + m + y` that lies inside `x` is
      replaced in both, and both go on after it. */
  lemma {:induction false} MatchSteps(x: string, m: string, y: string, t: string, v: string)
    requires |t| > 0 && |x| > 0 && OccursAt(x + m + y, t, 0)
    requires forall p: nat :: p < |x| + |m| && |x| < p + |t| ==> !OccursAt(x + m + y, t, p)
    ensures |t| <= |x|
    ensures ReplaceAll(x + m + y, t, v) == v + ReplaceAll(x[|t|..] + m + y, t, v)
    ensures ReplaceAll(x, t, v) == v + ReplaceAll(x[|t|..], t, v)
  {
    var s := x + m + y;
    assert |t| <= |x|;
    assert x[..|t|] == s[..|t|] == t;
    assert s[|t|..] == x[|t|..] + m + y;
  }

  lemma {:induction false} AroundAfterMiss(x: string, m: string, y: string, t: string, v: string)
    requires |t| > 0 && |x| > 0 && |x + m + y| >= |t| && !OccursAt(x + m + y, t, 0)
    requires forall p: nat :: p < |x| + |m| && |x| < p + |t| ==> !OccursAt(x + m + y, t, p)
    ensures ReplaceAll(x + m + y, t, v) == ReplaceAll(x, t, v) + m + ReplaceAll(y, t, v)
    decreases |x|, 0
  {
    GapShift(x, m, y, t, 1);
    ReplaceAround(x[1..], m, y, t, v);
    MissCombine(x, m, y, t, v);
  }

  /** The step of AroundAfterMiss once the rest is known to split. */
  lemma {:induction false} MissCombine(x: string, m: string, y: string, t: string, v: string)
    requires |t| > 0 && |x| > 0 && |x + m + y| >= |t| && !OccursAt(x + m + y, t, 0)
    requires ReplaceAll(x[1..] + m + y, t, v) == ReplaceAll(x[1..], t, v) + m + ReplaceAll(y, t, v)
    ensures ReplaceAll(x + m + y, t, v) == ReplaceAll(x, t, v) + m + ReplaceAll(y, t, v)
  {
    MissTail(x, m, y, t, v);
    MissHead(x, m, y, t, v);
    ConsAssoc(x[0], ReplaceAll(x[1..], t, v), m + ReplaceAll(y, t, v));
  }

  lemma {:induction false} MissTail(x: string, m: string, y: string, t: string, v: string)
    requires |t| > 0 && |x| > 0 && |x + m + y| >= |t| && !OccursAt(x + m + y, t, 0)
    ensures ReplaceAll(x + m + y, t, v) == [x[0]] + ReplaceAll(x[1..] + m + y, t, v)
  {
    var s := x + m + y;
    assert s[0] == x[0] && s[1..] == x[1..] + m + y;
    MissStep(s, t, v);
  }

  /** The first character of `x` starts no occurrence either. */
  lemma {:induction false} MissHead(x: string, m: string, y: string, t: string, v: string)
    requires |t| > 0 && |x| > 0 && |x + m + y| >= |t| && !OccursAt(x + m + y, t, 0)
    ensures ReplaceAll(x, t, v) == [x[0]] + ReplaceAll(x[1..], t, v)
  {
    if |x| >= |t| {
      assert x[..|t|] == (x + m + y)[..|t|];
      MissStep(x, t, v);
    } else {
      assert x == [x[0]] + x[1..];
    }
  }

  /** One character that does not start an occurrence is copied. */
  lemma {:induction false} MissStep(s: string, t: string, v: string)
    requires |t| > 0 && |s| >= |t| && !OccursAt(s, t, 0)
    ensures ReplaceAll(s, t, v) == [s[0]] + ReplaceAll(s[1..], t, v)
  {
    assert s[..|t|] != t;
  }

  /** A value that contains its own token is inserted once and not expanded again. */
  lemma NoSelfReexpansion()
    ensures ReplaceAll("{{k}}", "{{k}}", "x{{k}}") == "x{{k}}"
  {
    ReplaceFirst("", "{{k}}", "", "x{{k}}");
    assert "" + "{{k}}" + "" == "{{k}}";
  }

  /** A token can re-form across the edge of an inserted value: the source's
      replacement does not guarantee that a token disappears even when the
      value holds no `{{`. */
  lemma TokenCanReform()
    ensures ReplaceAll("{{{k}}", "{{k}}", "{k}}") == "{{k}}"
  {
    assert "{{{k}}"[..5][2] != "{{k}}"[2];
    assert "{{{k}}"[1..] == "{{k}}";
    ReplaceFirst("", "{{k}}", "", "{k}}");
    assert "" + "{{k}}" + "" == "{{k}}";
  }
}
