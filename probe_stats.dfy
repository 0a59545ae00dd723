/**
 * The statistics TCPing gathers over its connection attempts, stated as pure
 * functions of the sequence of attempt outcomes, together with the facts the
 * summary relies on: the counters add up, the total is the sum of the
 * successful times, and the minimum and maximum bound every successful time
 * and are attained by one of them.
 */
module ProbeStats {

  /** Long.MAX_VALUE, the sentinel the minimum starts from. */
  const LongMax: int := 0x7FFF_FFFF_FFFF_FFFF

  /** A duration in milliseconds as `Duration.toMillis` reports it: a non-negative Java long. */
  type Millis = x: int | 0 <= x <= LongMax

  /** The outcome of one connection attempt: whether it connected and how long it took. */
  datatype Attempt = Attempt(reachable: bool, elapsed: Millis)

  /** The five counters the probe loop keeps. */
  datatype Stats = Stats(successCount: nat, failCount: nat, totalTime: nat, minTime: Millis, maxTime: Millis)

  /** The counters before the first attempt. */
  const Initial: Stats := Stats(0, 0, 0, LongMax, 0)

  function Min(a: Millis, b: Millis): (m: Millis)
    ensures m <= a && m <= b && (m == a || m == b)
  {
    if a <= b then a else b
  }

  function Max(a: Millis, b: Millis): (m: Millis)
    ensures a <= m && b <= m && (m == a || m == b)
  {
    if a <= b then b else a
  }

  /** The elapsed times of the successful attempts, in the order they happened. */
  function Successes(s: seq<Attempt>): seq<Millis>
  {
    if s == [] then []
    else
      var last := s[|s| - 1];
      Successes(s[..|s| - 1]) + (if last.reachable then [last.elapsed] else [])
  }

  /** The number of failed attempts. */
  function Failures(s: seq<Attempt>): nat
  {
    if s == [] then 0
    else Failures(s[..|s| - 1]) + (if s[|s| - 1].reachable then 0 else 1)
  }

  function Sum(xs: seq<Millis>): nat
  {
    if xs == [] then 0 else Sum(xs[..|xs| - 1]) + xs[|xs| - 1]
  }

  /** The least element, or the sentinel Long.MAX_VALUE for an empty sequence. */
  function Minimum(xs: seq<Millis>): Millis
  {
    if xs == [] then LongMax else Min(Minimum(xs[..|xs| - 1]), xs[|xs| - 1])
  }

  /** The greatest element, or 0 for an empty sequence. */
  function Maximum(xs: seq<Millis>): Millis
  {
    if xs == [] then 0 else Max(Maximum(xs[..|xs| - 1]), xs[|xs| - 1])
  }

  /** The counters as they stand after the attempts `s`. */
  function StatsOf(s: seq<Attempt>): Stats
  {
    var t := Successes(s);
    Stats(|t|, Failures(s), Sum(t), Minimum(t), Maximum(t))
  }

  /** A time is among the successes exactly when some reachable attempt took that long. */
  lemma {:induction false} SuccessesMembers(s: seq<Attempt>, x: Millis)
    ensures x in Successes(s) <==> exists j :: 0 <= j < |s| && s[j].reachable && s[j].elapsed == x
  {
    if s != [] {
      var init := s[..|s| - 1];
      SuccessesMembers(init, x);
      if x in Successes(init) {
        var j :| 0 <= j < |init| && init[j].reachable && init[j].elapsed == x;
        assert s[j] == init[j];
      }
      if exists j :: 0 <= j < |s| && s[j].reachable && s[j].elapsed == x {
        var j :| 0 <= j < |s| && s[j].reachable && s[j].elapsed == x;
        if j < |init| {
          assert init[j] == s[j];
        }
      }
    }
  }

  /** Every attempt is either a success or a failure. */
  lemma {:induction false} CountsAddUp(s: seq<Attempt>)
    ensures |Successes(s)| + Failures(s) == |s|
  {
    if s != [] {
      CountsAddUp(s[..|s| - 1]);
    }
  }

  lemma {:induction false} MinimumBounds(xs: seq<Millis>)
    ensures forall i :: 0 <= i < |xs| ==> Minimum(xs) <= xs[i]
    ensures xs != [] ==> Minimum(xs) in xs
  {
    if xs != [] {
      var init := xs[..|xs| - 1];
      MinimumBounds(init);
      assert forall i :: 0 <= i < |init| ==> xs[i] == init[i];
      if init != [] && Minimum(xs) == Minimum(init) {
        var i :| 0 <= i < |init| && init[i] == Minimum(init);
        assert xs[i] == Minimum(xs);
      }
    }
  }

  lemma {:induction false} MaximumBounds(xs: seq<Millis>)
    ensures forall i :: 0 <= i < |xs| ==> xs[i] <= Maximum(xs)
    ensures xs != [] ==> Maximum(xs) in xs
  {
    if xs != [] {
      var init := xs[..|xs| - 1];
      MaximumBounds(init);
      assert forall i :: 0 <= i < |init| ==> xs[i] == init[i];
      if init != [] && Maximum(xs) == Maximum(init) {
        var i :| 0 <= i < |init| && init[i] == Maximum(init);
        assert xs[i] == Maximum(xs);
      }
    }
  }

  /**
   * The average lies between the extremes: the minimum times the number of
   * successes is at most the total, which is at most the maximum times it.
   */
  lemma {:induction false} SumBetweenExtremes(xs: seq<Millis>)
    requires xs != []
    ensures Minimum(xs) * |xs| <= Sum(xs) <= Maximum(xs) * |xs|
  {
    var init, x := xs[..|xs| - 1], xs[|xs| - 1];
    if init != [] {
      SumBetweenExtremes(init);
      ScaledStep(Minimum(xs), Minimum(init), |init|);
      ScaledStep(Maximum(init), Maximum(xs), |init|);
    }
  }

  /** Multiplication by a count is monotone and distributes over one more step. */
  lemma ScaledStep(a: int, b: int, n: nat)
    requires a <= b
    ensures a * n <= b * n
    ensures a * (n + 1) == a * n + a && b * (n + 1) == b * n + b
  {
  }

  /**
   * What TCPing promises of its counters after any sequence of attempts:
   * they add up to the number of attempts, the total is the sum of the
   * successful times, and when there was a success the minimum and maximum
   * bound every successful time and each is the time of some success; when
   * there was none, the counters keep their starting values.
   */
  lemma StatsFacts(s: seq<Attempt>)
    ensures StatsOf(s).successCount + StatsOf(s).failCount == |s|
    ensures forall j :: 0 <= j < |s| && s[j].reachable ==>
      StatsOf(s).minTime <= s[j].elapsed <= StatsOf(s).maxTime
    ensures StatsOf(s).successCount > 0 ==>
      (exists j :: 0 <= j < |s| && s[j].reachable && s[j].elapsed == StatsOf(s).minTime) &&
      (exists j :: 0 <= j < |s| && s[j].reachable && s[j].elapsed == StatsOf(s).maxTime) &&
      StatsOf(s).minTime <= StatsOf(s).maxTime
    ensures StatsOf(s).successCount == 0 ==>
      StatsOf(s).minTime == LongMax && StatsOf(s).maxTime == 0 && StatsOf(s).totalTime == 0
  {
    var t := Successes(s);
    CountsAddUp(s);
    MinimumBounds(t);
    MaximumBounds(t);
    forall j | 0 <= j < |s| && s[j].reachable
      ensures Minimum(t) <= s[j].elapsed <= Maximum(t)
    {
      SuccessesMembers(s, s[j].elapsed);
    }
    if t != [] {
      SuccessesMembers(s, Minimum(t));
      SuccessesMembers(s, Maximum(t));
    }
  }

  /** A failed attempt changes only the failure count. */
  lemma FailedAttempt(s: seq<Attempt>, a: Attempt)
    requires !a.reachable
    ensures StatsOf(s + [a]) == StatsOf(s).(failCount := StatsOf(s).failCount + 1)
  {
    assert (s + [a])[..|s|] == s;
    assert Successes(s) + [] == Successes(s);
  }

  /**
   * A successful attempt adds one success, adds its time to the total and
   * folds it into the minimum and the maximum; the failure count is unchanged.
   */
  lemma SuccessfulAttempt(s: seq<Attempt>, a: Attempt)
    requires a.reachable
    ensures var st := StatsOf(s);
      StatsOf(s + [a]) == Stats(st.successCount + 1, st.failCount, st.totalTime + a.elapsed,
                                Min(st.minTime, a.elapsed), Max(st.maxTime, a.elapsed))
  {
  }

  /** The counters after the first i + 1 attempts, from those after the first i. */
  lemma NextAttempt(s: seq<Attempt>, i: nat)
    requires i < |s|
    ensures var st, a := StatsOf(s[..i]), s[i];
      StatsOf(s[..i + 1]) ==
        if a.reachable then
          Stats(st.successCount + 1, st.failCount, st.totalTime + a.elapsed,
                Min(st.minTime, a.elapsed), Max(st.maxTime, a.elapsed))
        else st.(failCount := st.failCount + 1)
  {
    assert s[..i + 1] == s[..i] + [s[i]];
    if s[i].reachable {
      SuccessfulAttempt(s[..i], s[i]);
    } else {
      FailedAttempt(s[..i], s[i]);
    }
  }
}
