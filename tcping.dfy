/**
 * TCPing's `main`: argument and port validation, the loop of at most four
 * connection attempts with its counters and interruptible pause, and the
 * guard on the closing summary. The socket connect, the clock, the DNS
 * lookup, `Integer.parseInt` and the interrupt are inputs.
 */
module TCPing {
  import opened ProbeStats

  const DefaultPort: int := 80
  const DefaultTimeout: int := 5000
  const DefaultCount: nat := 4
  const DefaultInterval: int := 1000
  const MinPort: int := 1
  const MaxPort: int := 65535
  const HelpFlag: string := "--h"

  datatype Option<T> = None | Some(value: T)

  /** How validation of the command line ends. */
  datatype Outcome =
    | Run(host: string, port: int)   // probing goes ahead against host:port
    | Help                           // wrong number of arguments: usage is printed, nothing is probed
    | BadFormat                      // the port does not parse as an integer
    | BadRange                       // the port parses but lies outside [1, 65535]

  predicate InRange(port: int)
  {
    MinPort <= port <= MaxPort
  }

  /**
   * Validates the arguments; `parseInt` stands for `Integer.parseInt`, giving
   * None where it throws NumberFormatException.
   */
  function Validate(args: seq<string>, parseInt: string -> Option<int>): (r: Outcome)
    ensures r == Help <==> !(1 <= |args| <= 2)
    ensures r.Run? ==> r.host == args[0] && InRange(r.port)
    ensures |args| == 1 ==> r == Run(args[0], DefaultPort)
    ensures |args| == 2 ==> (r == BadFormat <==> parseInt(args[1]).None?)
    ensures |args| == 2 ==> (r == BadRange <==> parseInt(args[1]).Some? && !InRange(parseInt(args[1]).value))
    ensures |args| == 2 && r.Run? ==> parseInt(args[1]) == Some(r.port)
  {
    if |args| < 1 || |args| > 2 then Help
    else if |args| == 1 then Run(args[0], DefaultPort)
    else
      match parseInt(args[1])
      case None => BadFormat
      case Some(port) => if port < MinPort || port > MaxPort then BadRange else Run(args[0], port)
  }

  /**
   * Whether usage text is printed: on a wrong number of arguments, and also
   * when the host is the help flag, in which case the run is not stopped.
   */
  function ShowsHelp(args: seq<string>): (shown: bool)
    ensures !(1 <= |args| <= 2) ==> shown
    ensures 1 <= |args| <= 2 ==> (shown <==> args[0] == HelpFlag)
  {
    !(1 <= |args| <= 2) || args[0] == HelpFlag
  }

  /** The help flag prints usage and then probing goes ahead with "--h" as the host. */
  lemma HelpFlagDoesNotStop(args: seq<string>, parseInt: string -> Option<int>)
    requires 1 <= |args| <= 2 && args[0] == HelpFlag
    requires |args| == 2 ==> parseInt(args[1]).Some? && InRange(parseInt(args[1]).value)
    ensures ShowsHelp(args)
    ensures Validate(args, parseInt).Run? && Validate(args, parseInt).host == HelpFlag
  {
  }

  /**
   * True when the pause after attempt `after` is cut short: `interrupt` is
   * Some(k) when an interrupt of the main thread, from outside `main`, arrives
   * once k attempts have been performed, and Thread.sleep throws at once
   * while an interrupt is pending.
   */
  predicate InterruptPending(interrupt: Option<nat>, after: nat)
  {
    interrupt.Some? && interrupt.value <= after
  }

  /**
   * The number of attempts the loop performs: the first attempt whose pause
   * is interrupted, or the full budget. No pause follows the last attempt, so
   * an interrupt arriving after it does not shorten the run.
   */
  function AttemptsPerformed(interrupt: Option<nat>): (n: nat)
    ensures 1 <= n <= DefaultCount
    ensures n < DefaultCount ==> InterruptPending(interrupt, n)
    ensures forall j :: 1 <= j < n ==> !InterruptPending(interrupt, j)
    ensures interrupt.None? ==> n == DefaultCount
    ensures interrupt.Some? && 1 <= interrupt.value < DefaultCount ==> n == interrupt.value
    ensures interrupt.Some? && interrupt.value >= DefaultCount ==> n == DefaultCount
  {
    match interrupt
    case None => DefaultCount
    case Some(k) => if k == 0 then 1 else if k < DefaultCount then k else DefaultCount
  }

  /**
   * The probe loop. `outcomes[i]` is what the connect and the clock report
   * for attempt i + 1; only the attempts actually performed are consulted.
   */
  method Probe(outcomes: seq<Attempt>, interrupt: Option<nat>) returns (stats: Stats, performed: nat)
    requires |outcomes| == DefaultCount
    ensures performed == AttemptsPerformed(interrupt)
    ensures stats == StatsOf(outcomes[..performed])
  {
    var successCount: nat := 0;
    var failCount: nat := 0;
    var totalTime: nat := 0;
    var minTime: Millis := LongMax;
    var maxTime: Millis := 0;
    var i := 0;
    while i < DefaultCount
      invariant 0 <= i <= DefaultCount
      invariant i <= AttemptsPerformed(interrupt)
      invariant 0 < i < DefaultCount ==> i < AttemptsPerformed(interrupt)
      // the counters are the success count, failure count, sum, minimum and
      // maximum of the successful times among the first i attempts
      invariant Stats(successCount, failCount, totalTime, minTime, maxTime) == StatsOf(outcomes[..i])
    {
      var a := outcomes[i];
      NextAttempt(outcomes, i);
      if a.reachable {
        successCount := successCount + 1;
        totalTime := totalTime + a.elapsed;
        minTime := Min(minTime, a.elapsed);
        maxTime := Max(maxTime, a.elapsed);
      } else {
        failCount := failCount + 1;
      }
      i := i + 1;
      // i now counts the attempts performed; a pause follows every attempt
      // but the last, and Thread.sleep throws if an interrupt is pending
      if i < DefaultCount && InterruptPending(interrupt, i) {
        assert AttemptsPerformed(interrupt) == i;
        break;
      }
    }
    performed := i;
    stats := Stats(successCount, failCount, totalTime, minTime, maxTime);
  }

  /**
   * The closing summary. The loss percentage printed is lossNumerator /
   * lossDenominator and the average is totalTime / successCount, both as
   * doubles rounded by "%.0f".
   */
  datatype Summary = Summary(sent: nat, received: nat, lost: nat,
                             lossNumerator: nat, lossDenominator: nat,
                             minTime: Millis, maxTime: Millis, totalTime: nat, successCount: nat)

  /** The summary is printed only when some attempt succeeded. */
  function Summarize(stats: Stats): (r: Option<Summary>)
    ensures r.Some? <==> stats.successCount > 0
    ensures r.Some? ==> r.value.sent == DefaultCount && r.value.lossDenominator == DefaultCount
    ensures r.Some? ==> r.value.received == stats.successCount && r.value.lost == stats.failCount
    ensures r.Some? ==> r.value.lossNumerator == 100 * r.value.lost && r.value.successCount > 0
    ensures r.Some? ==> r.value.minTime == stats.minTime && r.value.maxTime == stats.maxTime
    ensures r.Some? ==> r.value.totalTime == stats.totalTime && r.value.successCount == stats.successCount
  {
    if stats.successCount > 0 then
      Some(Summary(DefaultCount, stats.successCount, stats.failCount,
                   stats.failCount * 100, DefaultCount,
                   stats.minTime, stats.maxTime, stats.totalTime, stats.successCount))
    else None
  }

  /**
   * What a printed summary reports after the loop: "sent" is always the
   * budget of four even when an interrupt stopped the loop early, received
   * and lost add up to the attempts performed, the loss is below 100%, and
   * the average lies between the minimum and the maximum.
   */
  lemma SummaryAfterProbe(outcomes: seq<Attempt>, interrupt: Option<nat>)
    requires |outcomes| == DefaultCount
    ensures var s := Summarize(StatsOf(outcomes[..AttemptsPerformed(interrupt)]));
      s.Some? ==>
        s.value.sent == DefaultCount &&
        s.value.received + s.value.lost == AttemptsPerformed(interrupt) <= s.value.sent &&
        s.value.lossNumerator < 100 * s.value.lossDenominator &&
        s.value.minTime * s.value.successCount <= s.value.totalTime <= s.value.maxTime * s.value.successCount
  {
    var done := outcomes[..AttemptsPerformed(interrupt)];
    StatsFacts(done);
    if Successes(done) != [] {
      SumBetweenExtremes(Successes(done));
    }
  }

  /** Everything `main` computes, without its console text. */
  datatype Report = Report(outcome: Outcome, helpShown: bool, performed: nat,
                           stats: Stats, summary: Option<Summary>)

  /**
   * `main` end to end: validate, and only on Run perform the probe loop and
   * decide on the summary. `parseInt`, `outcomes` and `interrupt` stand for
   * Integer.parseInt, the connects with their timings, and the interrupt.
   */
  method Execute(args: seq<string>, parseInt: string -> Option<int>,
                 outcomes: seq<Attempt>, interrupt: Option<nat>) returns (report: Report)
    requires |outcomes| == DefaultCount
    ensures report.outcome == Validate(args, parseInt)
    ensures report.helpShown == ShowsHelp(args)
    ensures !report.outcome.Run? ==> report.performed == 0 && report.stats == Initial && report.summary.None?
    ensures report.outcome.Run? ==>
      report.performed == AttemptsPerformed(interrupt) &&
      report.stats == StatsOf(outcomes[..report.performed]) &&
      report.summary == Summarize(report.stats)
  {
    var help := ShowsHelp(args);
    var outcome := Validate(args, parseInt);
    if !outcome.Run? {
      return Report(outcome, help, 0, Initial, None);
    }
    var stats, performed := Probe(outcomes, interrupt);
    report := Report(outcome, help, performed, stats, Summarize(stats));
  }
}
