/**
 * Rescaling the probability column to the target churn rate: every
 * probability is multiplied by `target / mean` and the product is clipped
 * into [0, 1].
 */
module Scaling {
  import opened Sampling

  function Sum(s: seq<real>): real
  {
    if s == [] then 0.0 else s[0] + Sum(s[1..])
  }

  /** NumPy's `mean`: the sum divided by the length. */
  function Mean(s: seq<real>): real
    requires |s| > 0
  {
    Sum(s) / |s| as real
  }

  /** The multiplier `target / mean` that moves the column's mean to the target. */
  function ScalingFactor(probs: seq<real>, target: real): real
    requires |probs| > 0 && Mean(probs) != 0.0
  {
    target / Mean(probs)
  }

  /** A column times a scalar, entry by entry. */
  function Scale(s: seq<real>, k: real): (r: seq<real>)
    ensures |r| == |s|
  {
    if s == [] then [] else [s[0] * k] + Scale(s[1..], k)
  }

  /** Entry `i` of a scaled column is the input's entry `i` times the factor. */
  lemma {:induction false} ScaleAt(s: seq<real>, k: real, i: int)
    requires 0 <= i < |s|
    ensures Scale(s, k)[i] == s[i] * k
  {
    if i > 0 {
      ScaleAt(s[1..], k, i - 1);
    }
  }

  /** NumPy's `clip(column, 0, 1)`. */
  function ClipAll(s: seq<real>): (r: seq<real>)
    ensures |r| == |s|
    ensures forall i :: 0 <= i < |s| ==> 0.0 <= r[i] <= 1.0
  {
    if s == [] then [] else [Clip(s[0], 0.0, 1.0)] + ClipAll(s[1..])
  }

  /** Entry `i` of a clipped column is the input's entry `i` clipped into [0, 1]. */
  lemma {:induction false} ClipAllAt(s: seq<real>, i: int)
    requires 0 <= i < |s|
    ensures ClipAll(s)[i] == Clip(s[i], 0.0, 1.0)
  {
    if i > 0 {
      ClipAllAt(s[1..], i - 1);
    }
  }

  /** The probability column rescaled to mean `target` and clipped into [0, 1]. */
  function ScaleAndClip(probs: seq<real>, target: real): (r: seq<real>)
    requires |probs| > 0 && Mean(probs) != 0.0
    ensures |r| == |probs|
    ensures forall i :: 0 <= i < |r| ==> 0.0 <= r[i] <= 1.0
  {
    ClipAll(Scale(probs, ScalingFactor(probs, target)))
  }

  lemma ScaleMonotone(x: real, y: real, k: real)
    requires x <= y && k >= 0.0
    ensures x * k <= y * k
  {
  }

  /** With a non-negative factor (a non-negative target over a positive mean), rescaling and clipping keeps the order of the entries. */
  lemma ScaleAndClipKeepsOrder(probs: seq<real>, target: real, i: int, j: int)
    requires |probs| > 0 && Mean(probs) != 0.0
    requires ScalingFactor(probs, target) >= 0.0
    requires 0 <= i < |probs| && 0 <= j < |probs| && probs[i] <= probs[j]
    ensures ScaleAndClip(probs, target)[i] <= ScaleAndClip(probs, target)[j]
  {
    ClipScaleKeepsOrder(probs, ScalingFactor(probs, target), i, j);
  }

  lemma ClipScaleKeepsOrder(s: seq<real>, k: real, i: int, j: int)
    requires k >= 0.0
    requires 0 <= i < |s| && 0 <= j < |s| && s[i] <= s[j]
    ensures ClipAll(Scale(s, k))[i] <= ClipAll(Scale(s, k))[j]
  {
    ScaleKeepsOrder(s, k, i, j);
    ClipAllKeepsOrder(Scale(s, k), i, j);
  }

  lemma ScaleKeepsOrder(s: seq<real>, k: real, i: int, j: int)
    requires k >= 0.0
    requires 0 <= i < |s| && 0 <= j < |s| && s[i] <= s[j]
    ensures Scale(s, k)[i] <= Scale(s, k)[j]
  {
    var x, y := s[i], s[j];
    assert x * k <= y * k;
    ScaleAt(s, k, i);
    ScaleAt(s, k, j);
  }

  lemma ClipAllKeepsOrder(s: seq<real>, i: int, j: int)
    requires 0 <= i < |s| && 0 <= j < |s| && s[i] <= s[j]
    ensures ClipAll(s)[i] <= ClipAll(s)[j]
  {
    ClipAllAt(s, i);
    ClipAllAt(s, j);
    ClipMonotone(s[i], s[j], 0.0, 1.0);
  }

  /** The sum of a scaled column is the scaled sum. */
  lemma {:induction false} SumScale(s: seq<real>, k: real)
    ensures Sum(Scale(s, k)) == k * Sum(s)
  {
    if s != [] {
      var r := Scale(s, k);
      assert r[1..] == Scale(s[1..], k);
      SumScale(s[1..], k);
      assert k * Sum(s) == k * s[0] + k * Sum(s[1..]);
    }
  }

  /** Entry `i` of the tail is entry `i + 1` of the column. */
  lemma TailEntry(s: seq<real>, i: int)
    requires s != [] && 0 <= i < |s| - 1
    ensures s[1..][i] == s[i + 1]
  {
  }

  /**
   * On a non-negative column, clipping into [0, 1] can only lower the sum,
   * and it leaves the sum unchanged exactly when no entry exceeds 1.
   */
  lemma {:induction false} SumClipAll(s: seq<real>)
    requires forall i :: 0 <= i < |s| ==> s[i] >= 0.0
    ensures Sum(ClipAll(s)) <= Sum(s)
    ensures Sum(ClipAll(s)) == Sum(s) <==> forall i :: 0 <= i < |s| ==> s[i] <= 1.0
  {
    if s != [] {
      var r := ClipAll(s);
      var t := s[1..];
      forall i | 0 <= i < |t| ensures t[i] >= 0.0 {
        TailEntry(s, i);
      }
      assert r[1..] == ClipAll(t);
      SumClipAll(t);
      if forall i :: 0 <= i < |s| ==> s[i] <= 1.0 {
        forall i | 0 <= i < |t| ensures t[i] <= 1.0 {
          TailEntry(s, i);
        }
      } else {
        var j :| 0 <= j < |s| && s[j] > 1.0;
        if j > 0 {
          TailEntry(s, j - 1);
        }
      }
    }
  }

  /** Clipping leaves a column already inside [0, 1] as it is. */
  lemma ClipAllInside(s: seq<real>)
    requires forall i :: 0 <= i < |s| ==> 0.0 <= s[i] <= 1.0
    ensures ClipAll(s) == s
  {
    forall i | 0 <= i < |s| ensures ClipAll(s)[i] == s[i] {
      ClipAllAt(s, i);
    }
  }

  /** The scaling factor times the mean is the target, so the scaled column's mean is the target. */
  lemma ScaledMeanIsTarget(probs: seq<real>, target: real)
    requires |probs| > 0 && Mean(probs) != 0.0
    ensures Mean(Scale(probs, ScalingFactor(probs, target))) == target
  {
    var k := ScalingFactor(probs, target);
    assert k * Mean(probs) == target by { FactorTimesMean(probs, target); }
    assert Mean(Scale(probs, k)) == target by { MeanOfScaleIs(probs, k, target); }
  }

  lemma FactorTimesMean(probs: seq<real>, target: real)
    requires |probs| > 0 && Mean(probs) != 0.0
    ensures ScalingFactor(probs, target) * Mean(probs) == target
  {
    QuotientTimesDivisor(target, Mean(probs));
  }

  lemma MeanOfScaleIs(probs: seq<real>, k: real, target: real)
    requires |probs| > 0 && k * Mean(probs) == target
    ensures Mean(Scale(probs, k)) == target
  {
    MeanOfScale(probs, k);
  }

  /** Scaling a column scales its mean. */
  lemma MeanOfScale(s: seq<real>, k: real)
    requires |s| > 0
    ensures Mean(Scale(s, k)) == k * Mean(s)
  {
    var n := |s| as real;
    var t := Scale(s, k);
    var total := Sum(s);
    calc {
      Mean(t);
      Sum(t) / n;
      { SumScale(s, k); }
      (k * total) / n;
      { MeanOfMultiple(total, k, n); }
      k * (total / n);
    }
  }

  /** `(k * a) / n == k * (a / n)`. */
  lemma MeanOfMultiple(a: real, k: real, n: real)
    requires n != 0.0
    ensures (k * a) / n == k * (a / n)
  {
  }

  /** `(t / m) * m == t`. */
  lemma QuotientTimesDivisor(t: real, m: real)
    requires m != 0.0
    ensures (t / m) * m == t
  {
  }

  /** When no scaled entry leaves [0, 1], the rescaled column's mean is exactly the target. */
  lemma ScaleAndClipHitsTarget(probs: seq<real>, target: real)
    requires |probs| > 0 && Mean(probs) != 0.0
    requires forall i :: 0 <= i < |probs| ==> 0.0 <= Scale(probs, ScalingFactor(probs, target))[i] <= 1.0
    ensures Mean(ScaleAndClip(probs, target)) == target
  {
    var scaled := Scale(probs, ScalingFactor(probs, target));
    ClipAllInside(scaled);
    ScaledMeanIsTarget(probs, target);
  }

  /**
   * For a non-negative column and target, the rescaled mean never exceeds the
   * target, and it equals the target exactly when no scaled entry exceeds 1:
   * clipping at 1 only ever pulls the achieved rate below the target.
   */
  lemma ScaleAndClipMeanAtMostTarget(probs: seq<real>, target: real)
    requires |probs| > 0 && Mean(probs) != 0.0
    requires target >= 0.0 && forall i :: 0 <= i < |probs| ==> probs[i] >= 0.0
    ensures Mean(ScaleAndClip(probs, target)) <= target
    ensures Mean(ScaleAndClip(probs, target)) == target <==>
              forall i :: 0 <= i < |probs| ==> Scale(probs, ScalingFactor(probs, target))[i] <= 1.0
  {
    var k := ScalingFactor(probs, target);
    NonNegativeFactor(probs, target);
    ScaledEntries(probs, k);
    ScaledMeanIsTarget(probs, target);
    ClippedMeanAtMost(Scale(probs, k), target);
  }

  /** Clipping a non-negative column of mean `target` gives mean at most `target`, equal exactly when nothing exceeds 1. */
  lemma ClippedMeanAtMost(s: seq<real>, target: real)
    requires |s| > 0 && Mean(s) == target && forall i :: 0 <= i < |s| ==> s[i] >= 0.0
    ensures Mean(ClipAll(s)) <= target
    ensures Mean(ClipAll(s)) == target <==> forall i :: 0 <= i < |s| ==> s[i] <= 1.0
  {
    SumClipAll(s);
    DivideMonotone(Sum(ClipAll(s)), Sum(s), |s| as real);
  }

  /** A non-negative target over the mean of a non-negative column gives a non-negative factor. */
  lemma NonNegativeFactor(probs: seq<real>, target: real)
    requires |probs| > 0 && Mean(probs) != 0.0
    requires target >= 0.0 && forall i :: 0 <= i < |probs| ==> probs[i] >= 0.0
    ensures ScalingFactor(probs, target) >= 0.0
  {
    NonNegativeSum(probs);
    var m := Mean(probs);
    assert m > 0.0;
    assert target / m >= 0.0;
  }

  /** A non-negative column scaled by a non-negative factor stays non-negative. */
  lemma ScaledEntries(probs: seq<real>, k: real)
    requires k >= 0.0 && forall i :: 0 <= i < |probs| ==> probs[i] >= 0.0
    ensures forall i :: 0 <= i < |probs| ==> Scale(probs, k)[i] >= 0.0
  {
    forall i | 0 <= i < |probs| ensures Scale(probs, k)[i] >= 0.0 {
      var x := probs[i];
      assert x * k >= 0.0;
      ScaleAt(probs, k, i);
    }
  }

  lemma DivideMonotone(a: real, b: real, n: real)
    requires a <= b && n > 0.0
    ensures a / n <= b / n
    ensures a / n == b / n <==> a == b
  {
  }

  lemma {:induction false} NonNegativeSum(s: seq<real>)
    requires forall i :: 0 <= i < |s| ==> s[i] >= 0.0
    ensures Sum(s) >= 0.0
    ensures Sum(s) > 0.0 <==> exists i :: 0 <= i < |s| && s[i] > 0.0
  {
    if s != [] {
      forall i | 0 <= i < |s| - 1 ensures s[1..][i] >= 0.0 {
        TailEntry(s, i);
      }
      NonNegativeSum(s[1..]);
      if exists i :: 0 <= i < |s[1..]| && s[1..][i] > 0.0 {
        var i :| 0 <= i < |s[1..]| && s[1..][i] > 0.0;
        TailEntry(s, i);
      }
      if exists i :: 0 <= i < |s| && s[i] > 0.0 {
        var i :| 0 <= i < |s| && s[i] > 0.0;
        if i > 0 {
          TailEntry(s, i - 1);
        }
      }
    }
  }

  /** Replacing one entry changes the sum by the difference. */
  lemma {:induction false} SumUpdate(s: seq<real>, i: int, v: real)
    requires 0 <= i < |s|
    ensures Sum(s[i := v]) == Sum(s) - s[i] + v
  {
    if i > 0 {
      assert s[i := v][1..] == s[1..][i - 1 := v];
      SumUpdate(s[1..], i - 1, v);
    } else {
      assert s[i := v][1..] == s[1..];
    }
  }

  /** A column of positive entries has a positive mean. */
  lemma PositiveMean(s: seq<real>)
    requires |s| > 0 && forall i :: 0 <= i < |s| ==> s[i] > 0.0
    ensures Mean(s) > 0.0
  {
    NonNegativeSum(s);
    assert s[0] > 0.0;
  }

  /**
   * Raising one positive entry of a positive column never lowers that entry's
   * rescaled value, although it also raises the mean the factor divides by.
   */
  lemma ScaleAndClipEntryMonotone(p: seq<real>, target: real, i: int, x: real)
    requires |p| > 0 && forall j :: 0 <= j < |p| ==> p[j] > 0.0
    requires 0 <= i < |p| && p[i] <= x && target >= 0.0
    ensures Mean(p) > 0.0 && Mean(p[i := x]) > 0.0
    ensures ScaleAndClip(p, target)[i] <= ScaleAndClip(p[i := x], target)[i]
  {
    PositiveMean(p);
    PositiveMean(p[i := x]);
    ScaledEntryGrows(p, target, i, x);
    ClipScaledEntryMonotone(p, ScalingFactor(p, target), p[i := x], ScalingFactor(p[i := x], target), i);
  }

  lemma ClipScaledEntryMonotone(p: seq<real>, k: real, q: seq<real>, k': real, i: int)
    requires 0 <= i < |p| && 0 <= i < |q| && p[i] * k <= q[i] * k'
    ensures ClipAll(Scale(p, k))[i] <= ClipAll(Scale(q, k'))[i]
  {
    var a, b := p[i] * k, q[i] * k';
    ScaleEntry(p, k, i);
    ScaleEntry(q, k', i);
    ClipMonotone(a, b, 0.0, 1.0);
  }

  /** Before clipping: the raised entry's scaled value is at least the old one. */
  lemma ScaledEntryGrows(p: seq<real>, target: real, i: int, x: real)
    requires |p| > 0 && forall j :: 0 <= j < |p| ==> p[j] > 0.0
    requires 0 <= i < |p| && p[i] <= x && target >= 0.0
    requires Mean(p) > 0.0 && Mean(p[i := x]) > 0.0
    ensures p[i] * ScalingFactor(p, target) <= x * ScalingFactor(p[i := x], target)
  {
    var others := Sum(p[i := 0.0]);
    OthersSum(p, i, x);
    ShareGrows(p[i], x, others, target, |p| as real);
  }

  /** The sum of the entries other than `i` is non-negative, and entry `i` adds to it. */
  lemma OthersSum(p: seq<real>, i: int, x: real)
    requires forall j :: 0 <= j < |p| ==> p[j] > 0.0
    requires 0 <= i < |p|
    ensures Sum(p[i := 0.0]) >= 0.0
    ensures Sum(p) == Sum(p[i := 0.0]) + p[i]
    ensures Sum(p[i := x]) == Sum(p[i := 0.0]) + x
  {
    var z := p[i := 0.0];
    forall j | 0 <= j < |z| ensures z[j] >= 0.0 {
    }
    NonNegativeSum(z);
    SumUpdate(p, i, 0.0);
    SumUpdate(p, i, x);
  }

  lemma ScaleEntry(s: seq<real>, k: real, i: int)
    requires 0 <= i < |s|
    ensures ClipAll(Scale(s, k))[i] == Clip(s[i] * k, 0.0, 1.0)
  {
    ScaleAt(s, k, i);
    ClipAllAt(Scale(s, k), i);
  }

  /**
   * The arithmetic of ScaleAndClipEntryMonotone: with `c` the sum of the other
   * entries, an entry's scaled value `a * target / ((c + a) / n)` grows with `a`.
   */
  lemma ShareGrows(a: real, x: real, c: real, target: real, n: real)
    requires 0.0 < a <= x && c >= 0.0 && target >= 0.0 && n > 0.0
    ensures a * (target / ((c + a) / n)) <= x * (target / ((c + x) / n))
  {
    FactorForm(a, target, c + a, n);
    FactorForm(x, target, c + x, n);
    ShareMonotone(a, x, c);
    ScaleMonotone(a / (c + a), x / (c + x), target * n);
  }

  /** `a * (t / (s / n)) == (a / s) * (t * n)`. */
  lemma FactorForm(a: real, t: real, s: real, n: real)
    requires s > 0.0 && n > 0.0
    ensures a * (t / (s / n)) == (a / s) * (t * n)
  {
    assert t / (s / n) == t * n / s;
  }

  /** `a / (c + a)` grows with `a` when `c` is non-negative. */
  lemma ShareMonotone(a: real, x: real, c: real)
    requires 0.0 < a <= x && c >= 0.0
    ensures a / (c + a) <= x / (c + x)
  {
    assert a * (c + x) <= x * (c + a) by {
      ScaleMonotone(a, x, c);
    }
    CrossMultiply(a, c + a, x, c + x);
  }

  /** `a / b <= x / y` follows from `a * y <= x * b` for positive `b` and `y`. */
  lemma CrossMultiply(a: real, b: real, x: real, y: real)
    requires b > 0.0 && y > 0.0 && a * y <= x * b
    ensures a / b <= x / y
  {
    assert a / b == (a * y) / (b * y);
    assert x / y == (x * b) / (b * y);
  }
}
