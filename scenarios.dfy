/** Concrete runs of one site from the initial state, each a consequence of the
    general lemmas of module Streaks: the threshold is reached on the fifth
    consecutive failure, every later failure alerts again because the counter
    is not reset after an alert, and one success clears the streak. */
module Scenarios {
  import opened Policy
  import opened Streaks

  /** The state right after start-up: every configured site at 0, nothing sent. */
  function Start(sites: seq<string>): (st: State)
    ensures st.sent == []
    ensures forall s :: CountOf(st.counts, s) == 0
  {
    var m := Initialize(map[], sites);
    assert forall s :: s in m ==> s in sites;
    State(m, [])
  }

  /** A site that answers 500 on every check: four failures give a counter of 4
      and no alert, the fifth gives 5 and one alert naming the code, the sixth
      gives 6 and a second alert. */
  lemma ServerErrorStreak(sites: seq<string>, site: string, probes: seq<Probe>)
    requires forall i :: 0 <= i < |probes| ==> probes[i] == Probe(site, Code(500))
    ensures |probes| == 4 ==>
      CountOf(Run(Start(sites), probes).counts, site) == 4 && Run(Start(sites), probes).sent == []
    ensures |probes| == 5 ==>
      CountOf(Run(Start(sites), probes).counts, site) == 5
      && Run(Start(sites), probes).sent == [DownWithCode(site, 500)]
    ensures |probes| == 6 ==>
      CountOf(Run(Start(sites), probes).counts, site) == 6
      && Run(Start(sites), probes).sent == [DownWithCode(site, 500), DownWithCode(site, 500)]
  {
    var p := Probe(site, Code(500));
    RepeatCount(Start(sites), p, probes);
    ConsecutiveFailures(Start(sites).counts, p, probes);
    var down := DownWithCode(site, 500);
    assert Reports(site, Code(500), AlertThreshold, 1) == [down];
    assert Reports(site, Code(500), AlertThreshold, 2) == [down] + [down];
  }

  /** Five 500s and then a 200: the counter is back at 0 and the only alert is
      the one of the fifth failure. */
  lemma RecoveryAfterAlert(sites: seq<string>, site: string, probes: seq<Probe>)
    requires |probes| == 5
    requires forall i :: 0 <= i < |probes| ==> probes[i] == Probe(site, Code(500))
    ensures CountOf(Run(Start(sites), probes + [Probe(site, Code(200))]).counts, site) == 0
    ensures Run(Start(sites), probes + [Probe(site, Code(200))]).sent == [DownWithCode(site, 500)]
  {
    ServerErrorStreak(sites, site, probes);
    SuccessAfterRun(Start(sites), probes, Probe(site, Code(200)));
  }

  /** Five timeouts in a row: the counter is 5 and the one alert is a timeout
      alert carrying the streak, not an HTTP-failure alert. */
  lemma TimeoutStreak(sites: seq<string>, site: string, probes: seq<Probe>)
    requires |probes| == 5
    requires forall i :: 0 <= i < |probes| ==> probes[i] == Probe(site, Timeout)
    ensures CountOf(Run(Start(sites), probes).counts, site) == 5
    ensures Run(Start(sites), probes).sent == [TimedOut(site, 5)]
  {
    var p := Probe(site, Timeout);
    RepeatCount(Start(sites), p, probes);
    ConsecutiveFailures(Start(sites).counts, p, probes);
    assert Reports(site, Timeout, AlertThreshold, 1)
      == Reports(site, Timeout, AlertThreshold, 0) + [TimedOut(site, 5)];
  }

  /** A site that answers 200 on every check keeps a counter of 0 and is never
      reported, however many checks there are. */
  lemma HealthySite(sites: seq<string>, site: string, probes: seq<Probe>)
    requires forall i :: 0 <= i < |probes| ==> probes[i] == Probe(site, Code(200))
    ensures CountOf(Run(Start(sites), probes).counts, site) == 0
    ensures Run(Start(sites), probes).sent == []
  {
    NoAlertWhileUp(Start(sites), probes);
    RunCount(Start(sites), probes, site);
    AllUpStreak(probes, site);
  }

  /** A site whose every probe succeeded has no current failure streak. */
  lemma {:induction false} AllUpStreak(probes: seq<Probe>, site: string)
    requires forall i :: 0 <= i < |probes| ==> Succeeded(probes[i].outcome)
    ensures Streak(OutcomesOf(probes, site)) == 0
    decreases |probes|
  {
    if |probes| > 0 {
      AllUpStreak(probes[..|probes| - 1], site);
    }
  }
}
