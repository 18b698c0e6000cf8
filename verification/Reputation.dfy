/** Proportional reputation: the share of good events, a weak penalty counting one bad event and a strong one three. */
module Reputation {

  datatype Proportional = Proportional(good: real, total: real) {
    function Reward(): Proportional {
      Proportional(good + 1.0, total + 1.0)
    }

    function WeakPenalize(): Proportional {
      Proportional(good, total + 1.0)
    }

    function StrongPenalize(): Proportional {
      Proportional(good, total + 3.0)
    }

    function Value(): real {
      if total == 0.0 then 1.0 else good / total
    }
  }

  const NEW := Proportional(0.0, 0.0)

  const FLOOR := 0.5

  datatype Mark = Good | Weak | Strong

  function Record(r: Proportional, m: Mark): Proportional {
    match m
    case Good => r.Reward()
    case Weak => r.WeakPenalize()
    case Strong => r.StrongPenalize()
  }

  /** A new reputation after some marks, oldest first. */
  function After(marks: seq<Mark>): Proportional {
    if marks == [] then NEW else Record(After(marks[..|marks| - 1]), marks[|marks| - 1])
  }

  function Count(marks: seq<Mark>, m: Mark): nat {
    if marks == [] then 0
    else Count(marks[..|marks| - 1], m) + if marks[|marks| - 1] == m then 1 else 0
  }

  lemma {:induction false} AfterCounts(marks: seq<Mark>)
    ensures
      var (r, w, s) := (Count(marks, Good), Count(marks, Weak), Count(marks, Strong));
      && After(marks) == Proportional(r as real, (r + w + 3 * s) as real)
      && (r + w + s == |marks|)
  {
    if marks != [] {
      AfterCounts(marks[..|marks| - 1]);
    }
  }

  lemma QuotientAtLeast(a: real, b: real, v: real)
    requires b > 0.0
    ensures a / b >= v <==> a >= v * b
  {
  }

  lemma QuotientAtMost(a: real, b: real, v: real)
    requires b > 0.0
    ensures a / b <= v <==> a <= v * b
  {
  }

  lemma Share(r: int, t: int)
    requires 0 <= r <= t && 0 < t
    ensures 0.0 <= r as real / t as real <= 1.0
    ensures r as real / t as real >= FLOOR <==> 2 * r >= t
  {
    QuotientAtLeast(r as real, t as real, 0.0);
    QuotientAtMost(r as real, t as real, 1.0);
    QuotientAtLeast(r as real, t as real, FLOOR);
    assert r as real >= 0.5 * t as real <==> (2 * r) as real >= t as real;
  }

  /** Any marks in any order give r / (r + w + 3s), or 1 when there are none: always within [0, 1], and at the
      trust floor or above exactly when the rewards are worth the penalties. */
  lemma ValueAfter(marks: seq<Mark>)
    ensures
      var (r, w, s) := (Count(marks, Good), Count(marks, Weak), Count(marks, Strong));
      var v := After(marks).Value();
      && v == (if marks == [] then 1.0 else r as real / (r + w + 3 * s) as real)
      && 0.0 <= v <= 1.0
      && (v >= FLOOR <==> r >= w + 3 * s)
  {
    AfterCounts(marks);
    if marks != [] {
      Share(Count(marks, Good), Count(marks, Good) + Count(marks, Weak) + 3 * Count(marks, Strong));
    }
  }

  lemma QuotientsOrdered(a: real, b: real, c: real, d: real)
    requires b > 0.0 && d > 0.0 && a * d <= c * b
    ensures a / b <= c / d
  {
  }

  lemma RewardRaises(g: real, t: real)
    requires 0.0 <= g <= t && t > 0.0
    ensures g / t <= (g + 1.0) / (t + 1.0)
  {
    assert g * (t + 1.0) == g * t + g && (g + 1.0) * t == g * t + t;
    QuotientsOrdered(g, t, g + 1.0, t + 1.0);
  }

  lemma PenaltyLowers(g: real, t: real, p: real)
    requires 0.0 <= g <= t && t > 0.0 && p > 0.0
    ensures g / (t + p) <= g / t
  {
    assert g * (t + p) == g * t + g * p && g * p >= 0.0;
    QuotientsOrdered(g, t + p, g, t);
  }

  /** After any history, a reward never lowers the value and a penalty never raises it. */
  lemma MarksMoveValue(marks: seq<Mark>, m: Mark)
    ensures m == Good ==> After(marks + [m]).Value() >= After(marks).Value()
    ensures m != Good ==> After(marks + [m]).Value() <= After(marks).Value()
  {
    var before, after := After(marks), After(marks + [m]);
    assert (marks + [m])[..|marks|] == marks;
    assert after == Record(before, m);
    AfterCounts(marks);
    if marks == [] {
      assert before.good == before.total == 0.0;
    } else {
      assert 0.0 <= before.good <= before.total && before.total > 0.0;
      match m
      case Good => RewardRaises(before.good, before.total);
      case Weak => PenaltyLowers(before.good, before.total, 1.0);
      case Strong => PenaltyLowers(before.good, before.total, 3.0);
    }
  }
}
