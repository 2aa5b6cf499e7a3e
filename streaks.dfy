/** Checks over time: a run is a sequence of probes, each a site and the outcome
    its probe produced, applied one after the other.  The lemmas here state what
    the per-check policy of module Policy amounts to over a whole run: a counter
    is the length of its site's current failure streak, and alerts come exactly
    on the failures that bring the streak to `AlertThreshold` or beyond. */
module Streaks {
  import opened Policy

  datatype Probe = Probe(site: string, outcome: Outcome)

  /** The number of trailing failures in `os`: the outcomes since the last
      success, or all of them if none succeeded. */
  function Streak(os: seq<Outcome>): (n: nat)
    ensures n <= |os|
    ensures forall i :: |os| - n <= i < |os| ==> !Succeeded(os[i])
    ensures n < |os| ==> Succeeded(os[|os| - 1 - n])
    decreases |os|
  {
    if |os| == 0 || Succeeded(os[|os| - 1]) then 0
    else Streak(os[..|os| - 1]) + 1
  }

  /** The outcomes the probes of `site` produced, in order. */
  function OutcomesOf(probes: seq<Probe>, site: string): (os: seq<Outcome>)
    ensures |os| <= |probes|
    decreases |probes|
  {
    if |probes| == 0 then []
    else
      var last := probes[|probes| - 1];
      OutcomesOf(probes[..|probes| - 1], site)
        + (if last.site == site then [last.outcome] else [])
  }

  /** The state after checking every probe of `probes` in order: the alerts
      already sent stay in place, and each probe adds at most one. */
  function Run(st: State, probes: seq<Probe>): (r: State)
    ensures |st.sent| <= |r.sent| <= |st.sent| + |probes|
    ensures r.sent[..|st.sent|] == st.sent
    decreases |probes|
  {
    if |probes| == 0 then st
    else
      var last := probes[|probes| - 1];
      Check(Run(st, probes[..|probes| - 1]), last.site, last.outcome)
  }

  /** The probes of one tick: site `sites[i]` answered `outcomes[i]`. */
  function Probes(sites: seq<string>, outcomes: seq<Outcome>): (ps: seq<Probe>)
    requires |outcomes| == |sites|
    ensures |ps| == |sites|
    ensures forall i :: 0 <= i < |ps| ==> ps[i] == Probe(sites[i], outcomes[i])
  {
    seq(|sites|, i requires 0 <= i < |sites| => Probe(sites[i], outcomes[i]))
  }

  /** The sites probed in `probes`. */
  function SitesOf(probes: seq<Probe>): set<string>
    decreases |probes|
  {
    if |probes| == 0 then {} else SitesOf(probes[..|probes| - 1]) + {probes[|probes| - 1].site}
  }

  /** The alerts for `k` consecutive failures with outcome `o`, the first of them
      bringing the counter to `first`. */
  function Reports(site: string, o: Outcome, first: int, k: nat): seq<Alert>
    requires !Succeeded(o)
  {
    if k == 0 then [] else Reports(site, o, first, k - 1) + [Report(site, o, first + k - 1)]
  }

  function Max(a: int, b: int): int {
    if a < b then b else a
  }

  /** Checking one more probe after a run. */
  lemma RunSnoc(st: State, probes: seq<Probe>, p: Probe)
    ensures Run(st, probes + [p]) == Check(Run(st, probes), p.site, p.outcome)
  {
  }

  /** After a run, a site's counter is the length of its current failure streak,
      plus its starting value if the site has not succeeded during the run.
      Probes of other sites play no part. */
  lemma {:induction false} RunCount(st: State, probes: seq<Probe>, site: string)
    ensures var os := OutcomesOf(probes, site);
      CountOf(Run(st, probes).counts, site)
        == Streak(os) + (if Streak(os) == |os| then CountOf(st.counts, site) else 0)
    decreases |probes|
  {
    if |probes| > 0 {
      var prefix := probes[..|probes| - 1];
      var last := probes[|probes| - 1];
      RunCount(st, prefix, site);
      var os := OutcomesOf(prefix, site);
      if last.site == site {
        var os' := os + [last.outcome];
        assert OutcomesOf(probes, site) == os';
        assert os'[..|os'| - 1] == os;
      } else {
        assert OutcomesOf(probes, site) == os;
      }
    }
  }

  /** Starting from the initial counters, where every configured site is 0 and
      any other site reads as 0 as well, a site's counter is exactly the number
      of failures since its last success. */
  lemma CountIsStreak(sites: seq<string>, sent: seq<Alert>, probes: seq<Probe>, site: string)
    ensures CountOf(Run(State(Initialize(map[], sites), sent), probes).counts, site)
      == Streak(OutcomesOf(probes, site))
  {
    RunCount(State(Initialize(map[], sites), sent), probes, site);
  }

  /** A run keeps every counter non-negative. */
  lemma {:induction false} RunNonNegative(st: State, probes: seq<Probe>)
    requires NonNegative(st.counts)
    ensures NonNegative(Run(st, probes).counts)
    decreases |probes|
  {
    if |probes| > 0 {
      var last := probes[|probes| - 1];
      RunNonNegative(st, probes[..|probes| - 1]);
      NextNonNegative(Run(st, probes[..|probes| - 1]).counts, last.site, last.outcome);
    }
  }

  /** A run adds to the map exactly the sites it probes; nothing is removed. */
  lemma {:induction false} RunKeys(st: State, probes: seq<Probe>)
    ensures Run(st, probes).counts.Keys == st.counts.Keys + SitesOf(probes)
    decreases |probes|
  {
    if |probes| > 0 {
      var last := probes[|probes| - 1];
      RunKeys(st, probes[..|probes| - 1]);
    }
  }

  /** A run leaves the entry of every site it does not probe as it was. */
  lemma {:induction false} RunUntouched(st: State, probes: seq<Probe>, site: string)
    requires site !in SitesOf(probes)
    ensures site in Run(st, probes).counts <==> site in st.counts
    ensures site in st.counts ==> Run(st, probes).counts[site] == st.counts[site]
    decreases |probes|
  {
    if |probes| > 0 {
      var last := probes[|probes| - 1];
      RunUntouched(st, probes[..|probes| - 1], site);
    }
  }

  /** A run only appends to the alerts already sent, and what it appends and
      the counters it leaves depend on the starting counters alone. */
  lemma {:induction false} RunAppends(st: State, probes: seq<Probe>)
    ensures Run(st, probes).counts == Run(State(st.counts, []), probes).counts
    ensures Run(st, probes).sent == st.sent + Run(State(st.counts, []), probes).sent
    decreases |probes|
  {
    if |probes| > 0 {
      var prefix := probes[..|probes| - 1];
      var last := probes[|probes| - 1];
      RunAppends(st, prefix);
      var alone := Run(State(st.counts, []), prefix);
      var tail := AlarmSeq(Alarm(alone.counts, last.site, last.outcome));
      assert Run(st, probes).sent == st.sent + alone.sent + tail;
      assert st.sent + alone.sent + tail == st.sent + (alone.sent + tail);
    }
  }

  /** Starting from the initial counters, the check of probe `i` requests an
      alert exactly when it is a failure and its site's failure streak,
      counting this probe, has reached `AlertThreshold`. */
  lemma AlertIffLongStreak(sites: seq<string>, sent: seq<Alert>, probes: seq<Probe>, i: nat)
    requires i < |probes|
    ensures var p := probes[i];
      (Alarm(Run(State(Initialize(map[], sites), sent), probes[..i]).counts, p.site, p.outcome).Some?
       <==> !Succeeded(p.outcome) && Streak(OutcomesOf(probes[..i + 1], p.site)) >= AlertThreshold)
  {
    var init := State(Initialize(map[], sites), sent);
    var p := probes[i];
    assert probes[..i + 1] == probes[..i] + [p];
    RunSnoc(init, probes[..i], p);
    CountIsStreak(sites, sent, probes[..i + 1], p.site);
  }

  /** A run in which every probe succeeds requests no alert. */
  lemma {:induction false} NoAlertWhileUp(st: State, probes: seq<Probe>)
    requires forall i :: 0 <= i < |probes| ==> Succeeded(probes[i].outcome)
    ensures Run(st, probes).sent == st.sent
    decreases |probes|
  {
    if |probes| > 0 {
      NoAlertWhileUp(st, probes[..|probes| - 1]);
    }
  }

  /** A success of a site resets its counter to 0 and requests no alert,
      whatever the counter was. */
  lemma SuccessAfterRun(st: State, probes: seq<Probe>, p: Probe)
    requires Succeeded(p.outcome)
    ensures CountOf(Run(st, probes + [p]).counts, p.site) == 0
    ensures Run(st, probes + [p]).sent == Run(st, probes).sent
  {
  }

  /** Consecutive failures of one site, from a counter `c`, bring the counter
      to `c` plus their number. */
  lemma {:induction false} RepeatCount(st: State, p: Probe, probes: seq<Probe>)
    requires !Succeeded(p.outcome)
    requires forall i :: 0 <= i < |probes| ==> probes[i] == p
    ensures CountOf(Run(st, probes).counts, p.site) == CountOf(st.counts, p.site) + |probes|
    decreases |probes|
  {
    if |probes| > 0 {
      RepeatCount(st, p, probes[..|probes| - 1]);
    }
  }

  /** `n` consecutive failures of one site, from a counter `c >= 0`, request one
      alert per failure whose new count is at least `AlertThreshold`, each
      describing that failure with its count: none while `c + n` stays below the
      threshold, then one for every count from `Max(c + 1, AlertThreshold)` up to
      `c + n`. */
  lemma {:induction false} ConsecutiveFailures(counts: map<string, int>, p: Probe, probes: seq<Probe>)
    requires !Succeeded(p.outcome)
    requires CountOf(counts, p.site) >= 0
    requires forall i :: 0 <= i < |probes| ==> probes[i] == p
    ensures var c := CountOf(counts, p.site);
      Run(State(counts, []), probes).sent
        == Reports(p.site, p.outcome, Max(c + 1, AlertThreshold), AlertsAfter(c, |probes|))
    decreases |probes|
  {
    if |probes| > 0 {
      var prefix := probes[..|probes| - 1];
      ConsecutiveFailures(counts, p, prefix);
      RepeatCount(State(counts, []), p, prefix);
      ConsecutiveStep(counts, p, probes);
    }
  }

  /** One more failure extends the alerts of the failures before it: the
      induction step of `ConsecutiveFailures`. */
  lemma ConsecutiveStep(counts: map<string, int>, p: Probe, probes: seq<Probe>)
    requires !Succeeded(p.outcome)
    requires CountOf(counts, p.site) >= 0
    requires |probes| > 0 && probes[|probes| - 1] == p
    requires var c := CountOf(counts, p.site);
      var before := Run(State(counts, []), probes[..|probes| - 1]);
      && CountOf(before.counts, p.site) == c + |probes| - 1
      && before.sent == Reports(p.site, p.outcome, Max(c + 1, AlertThreshold), AlertsAfter(c, |probes| - 1))
    ensures var c := CountOf(counts, p.site);
      Run(State(counts, []), probes).sent
        == Reports(p.site, p.outcome, Max(c + 1, AlertThreshold), AlertsAfter(c, |probes|))
  {
    var c := CountOf(counts, p.site);
    var n := |probes|;
    var before := Run(State(counts, []), probes[..n - 1]);
    AlarmAt(before.counts, p.site, p.outcome);
    ReportsStep(p.site, p.outcome, c, n);
  }

  /** How many of `n` consecutive failures, from a counter `c`, bring the counter
      to `AlertThreshold` or beyond. */
  function AlertsAfter(c: int, n: nat): nat
    requires c >= 0
  {
    Max(0, c + n - (AlertThreshold - 1)) - Max(0, c - (AlertThreshold - 1))
  }

  /** The `n`-th consecutive failure adds its report exactly when it brings the
      counter to `AlertThreshold` or beyond. */
  lemma ReportsStep(site: string, o: Outcome, c: int, n: nat)
    requires !Succeeded(o) && c >= 0 && n > 0
    ensures Reports(site, o, Max(c + 1, AlertThreshold), AlertsAfter(c, n))
      == Reports(site, o, Max(c + 1, AlertThreshold), AlertsAfter(c, n - 1))
         + (if c + n >= AlertThreshold then [Report(site, o, c + n)] else [])
  {
    if c + n >= AlertThreshold {
      assert AlertsAfter(c, n) == AlertsAfter(c, n - 1) + 1;
      assert Max(c + 1, AlertThreshold) + AlertsAfter(c, n - 1) == c + n;
    }
  }

  /** The alert of one failing check, by the counter before it. */
  lemma AlarmAt(counts: map<string, int>, site: string, o: Outcome)
    requires !Succeeded(o)
    ensures AlarmSeq(Alarm(counts, site, o))
      == if CountOf(counts, site) + 1 >= AlertThreshold then [Report(site, o, CountOf(counts, site) + 1)] else []
  {
  }
}
