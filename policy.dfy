/** The decision made for one endpoint on one check: how its consecutive-failure
    counter changes and whether an alert is requested.  Everything here is a
    value; the mutable monitor that applies these decisions is in module
    WebsiteMonitor. */
module Policy {

  /** Number of consecutive failures at which alerts start; the counter is not
      reset after an alert, so every further failure alerts again. */
  const AlertThreshold: int := 5

  datatype Option<T> = None | Some(value: T)

  /** What one probe of an endpoint produced: the HTTP status code it read, a
      connect timeout, or any other exception with its message. */
  datatype Outcome =
    | Code(code: int)
    | Timeout
    | Error(message: string)

  /** An alert handed to the notifier, kept as its parts rather than as text.
      The HTTP-failure alert names the code but not the streak; the timeout
      alert names the streak; the generic-error alert names the exception
      message and the streak. */
  datatype Alert =
    | DownWithCode(site: string, code: int)
    | TimedOut(site: string, failures: int)
    | Failed(site: string, message: string, failures: int)

  /** The failure test on a status code, as the monitor writes it. */
  predicate IsDownCode(code: int) {
    code < 200 || code >= 400
  }

  /** A probe succeeded when it returned a status code that is not a failure. */
  predicate Succeeded(o: Outcome) {
    o.Code? && !IsDownCode(o.code)
  }

  lemma SuccessRange(o: Outcome)
    ensures Succeeded(o) <==> exists c :: o == Code(c) && 200 <= c < 400
  {
  }

  /** The counter of `site`, a site missing from the map reading as 0. */
  function CountOf(counts: map<string, int>, site: string): int {
    if site in counts then counts[site] else 0
  }

  /** The counters after one check of `site` with outcome `o`: the checked site
      is in the map afterwards, a success sets its counter to exactly 0 whatever
      it was, any other outcome sets it to one more than before (a missing site
      counting as 0, so it becomes 1), and every other site keeps its counter. */
  function Next(counts: map<string, int>, site: string, o: Outcome): (r: map<string, int>)
    ensures r.Keys == counts.Keys + {site}
    ensures forall s :: s in counts && s != site ==> r[s] == counts[s]
    ensures Succeeded(o) ==> r[site] == 0
    ensures !Succeeded(o) ==> r[site] == CountOf(counts, site) + 1
    ensures !Succeeded(o) && site !in counts ==> r[site] == 1
  {
    if Succeeded(o) then counts[site := 0]
    else counts[site := CountOf(counts, site) + 1]
  }

  /** The alert describing a failing outcome after `failures` consecutive failures. */
  function Report(site: string, o: Outcome, failures: int): (r: Alert)
    requires !Succeeded(o)
    ensures r.site == site
    ensures r.DownWithCode? <==> o.Code?
    ensures r.TimedOut? <==> o.Timeout?
    ensures r.Failed? <==> o.Error?
    ensures r.DownWithCode? ==> r.code == o.code && IsDownCode(r.code)
    ensures !r.DownWithCode? ==> r.failures == failures
    ensures r.Failed? ==> r.message == o.message
  {
    match o
    case Code(c) => DownWithCode(site, c)
    case Timeout => TimedOut(site, failures)
    case Error(m) => Failed(site, m, failures)
  }

  /** The alert requested by one check of `site` with outcome `o`, if any. */
  function Alarm(counts: map<string, int>, site: string, o: Outcome): (a: Option<Alert>)
    ensures a.Some? <==> !Succeeded(o) && Next(counts, site, o)[site] >= AlertThreshold
    ensures a.Some? ==> a.value.site == site
    ensures a.Some? && o.Code? ==> a.value == DownWithCode(site, o.code)
    ensures a.Some? && o.Timeout? ==> a.value == TimedOut(site, Next(counts, site, o)[site])
    ensures a.Some? && o.Error? ==> a.value == Failed(site, o.message, Next(counts, site, o)[site])
  {
    var failures := CountOf(counts, site) + 1;
    if Succeeded(o) || failures < AlertThreshold then None
    else Some(Report(site, o, failures))
  }

  /** The alerts of one check as a (possibly empty) sequence. */
  function AlarmSeq(a: Option<Alert>): seq<Alert> {
    match a
    case None => []
    case Some(x) => [x]
  }

  /** The monitor's state: the failure counter of every site and the alerts
      handed to the notifier so far, oldest first. */
  datatype State = State(counts: map<string, int>, sent: seq<Alert>)

  /** One check of `site` whose probe produced `o`: the counters move as `Next`
      says, and the sent log gains at most one alert, about `site`, exactly when
      the check failed and brought the site's streak to `AlertThreshold` or
      beyond. */
  function Check(st: State, site: string, o: Outcome): (r: State)
    ensures forall s :: s != site ==> CountOf(r.counts, s) == CountOf(st.counts, s)
    ensures CountOf(r.counts, site) == if Succeeded(o) then 0 else CountOf(st.counts, site) + 1
    ensures |st.sent| <= |r.sent| <= |st.sent| + 1
    ensures r.sent[..|st.sent|] == st.sent
    ensures |r.sent| == |st.sent| + 1
      <==> !Succeeded(o) && CountOf(st.counts, site) + 1 >= AlertThreshold
    ensures |r.sent| == |st.sent| + 1 ==> r.sent[|st.sent|] == Report(site, o, CountOf(st.counts, site) + 1)
  {
    State(Next(st.counts, site, o), st.sent + AlarmSeq(Alarm(st.counts, site, o)))
  }

  /** The counters after setting every configured site to 0, one site after the
      other. */
  function Initialize(counts: map<string, int>, sites: seq<string>): (r: map<string, int>)
    ensures r.Keys == counts.Keys + set s | s in sites
    ensures forall s :: s in sites ==> r[s] == 0
    ensures forall s :: s in counts && s !in sites ==> r[s] == counts[s]
    decreases |sites|
  {
    if |sites| == 0 then counts
    else Initialize(counts, sites[..|sites| - 1])[sites[|sites| - 1] := 0]
  }

  /** Every counter is non-negative. */
  predicate NonNegative(counts: map<string, int>) {
    forall s :: s in counts ==> counts[s] >= 0
  }

  /** One check keeps every counter non-negative. */
  lemma NextNonNegative(counts: map<string, int>, site: string, o: Outcome)
    requires NonNegative(counts)
    ensures NonNegative(Next(counts, site, o))
  {
  }

  /** Once a site has failed at least `AlertThreshold - 1` times in a row, every
      further failure requests an alert and the counter keeps growing. */
  lemma RepeatAlert(counts: map<string, int>, site: string, o: Outcome)
    requires !Succeeded(o)
    requires CountOf(counts, site) >= AlertThreshold - 1
    ensures Next(counts, site, o)[site] == CountOf(counts, site) + 1 >= AlertThreshold
    ensures Alarm(counts, site, o) == Some(Report(site, o, CountOf(counts, site) + 1))
  {
  }
}
