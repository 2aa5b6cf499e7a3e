/** The monitor itself: one object owning the map of failure counters, updated
    in place by each check.  The notifier is abstract: sending an alert appends
    it to a ghost log and answers with a delivery flag the monitor ignores. */
module WebsiteMonitor {
  import opened Policy
  import opened Streaks

  class Monitor {
    /** The failure counter of every site, consecutive failures since its last
        success. */
    var failureCounts: map<string, int>
    /** Every alert handed to the notifier, oldest first. */
    ghost var sent: seq<Alert>

    /** The abstract state the pure policy talks about. */
    ghost function Model(): State
      reads this
    {
      State(failureCounts, sent)
    }

    /** No counter is ever negative. */
    ghost predicate Valid()
      reads this
    {
      NonNegative(failureCounts)
    }

    /** The counter map starts empty and nothing has been sent. */
    constructor ()
      ensures Valid()
      ensures failureCounts == map[] && sent == []
    {
      failureCounts := map[];
      sent := [];
    }

    /** Sets the counter of every configured site to 0, one site at a time. */
    method Init(sites: seq<string>)
      requires Valid()
      modifies this
      ensures Valid()
      ensures failureCounts == Initialize(old(failureCounts), sites)
      ensures sent == old(sent)
    {
      for i := 0 to |sites|
        invariant failureCounts == Initialize(old(failureCounts), sites[..i])
        invariant sent == old(sent)
      {
        assert sites[..i + 1][..i] == sites[..i];
        failureCounts := failureCounts[sites[i] := 0];
      }
      assert sites[..|sites|] == sites;
    }

    /** Hands `alert` to the notifier.  Whether it was delivered is not known to
        the model, and the caller does not look at it. */
    method SendAlert(alert: Alert) returns (delivered: bool)
      modifies this`sent
      ensures sent == old(sent) + [alert]
    {
      sent := sent + [alert];
      delivered :| true;
    }

    /** One check of `site`, whose probe produced `outcome`: a status code in
        [200, 400) resets the site's counter to 0; a failing code, a timeout or
        another error adds one to it, and once the new count is at least
        `AlertThreshold` an alert describing the outcome is sent. */
    method CheckWebsiteAndNotify(site: string, outcome: Outcome)
      requires Valid()
      modifies this
      ensures Valid()
      ensures Model() == Check(old(Model()), site, outcome)
    {
      NextNonNegative(failureCounts, site, outcome);
      match outcome
      case Code(code) =>
        if IsDownCode(code) {
          var failures := CountOf(failureCounts, site) + 1;
          failureCounts := failureCounts[site := failures];
          if failures >= AlertThreshold {
            var _ := SendAlert(DownWithCode(site, code));
          }
        } else {
          failureCounts := failureCounts[site := 0];
        }
      case Timeout =>
        var failures := CountOf(failureCounts, site) + 1;
        failureCounts := failureCounts[site := failures];
        if failures >= AlertThreshold {
          var _ := SendAlert(TimedOut(site, failures));
        }
      case Error(message) =>
        var failures := CountOf(failureCounts, site) + 1;
        failureCounts := failureCounts[site := failures];
        if failures >= AlertThreshold {
          var _ := SendAlert(Failed(site, message, failures));
        }
    }

    /** One scheduled round: checks every configured site in turn, site
        `sites[i]` with the outcome `outcomes[i]` its probe produced. */
    method Tick(sites: seq<string>, outcomes: seq<Outcome>)
      requires Valid()
      requires |outcomes| == |sites|
      modifies this
      ensures Valid()
      ensures Model() == Run(old(Model()), Probes(sites, outcomes))
    {
      var probes := Probes(sites, outcomes);
      for i := 0 to |sites|
        invariant Valid()
        invariant Model() == Run(old(Model()), probes[..i])
      {
        assert probes[..i + 1] == probes[..i] + [probes[i]];
        RunSnoc(old(Model()), probes[..i], probes[i]);
        CheckWebsiteAndNotify(sites[i], outcomes[i]);
      }
      assert probes[..|sites|] == probes;
    }
  }
}
