# TCPing, modelled in Dafny

TCPing is a command-line "ping" that works at the TCP layer: `tcping <host> [port]`
resolves the host for display, tries four times to open a TCP connection to
`host:port` (5000 ms timeout, 1000 ms pause between attempts), prints one line per
attempt, and finally prints the packet counts, the loss percentage and the
minimum, maximum and average connect time, provided at least one attempt connected.

This project models the two parts of `main` that have precise behaviour apart from
sockets and the console:

- **Argument and port validation** (`TCPing.Validate`, `TCPing.ShowsHelp`). One or two
  arguments are accepted; the port defaults to 80; a given port must parse as an
  integer in [1, 65535]. A wrong argument count gives `Help`, an unparsable port
  `BadFormat`, an out-of-range port `BadRange`; only `Run(host, port)` goes on to probe.
  The host `--h` prints the usage text but does not stop the run, exactly as written.
- **The probe loop and its statistics** (`TCPing.Probe`, module `ProbeStats`). The loop
  is an imperative `while` over a sequence of attempt outcomes `(reachable, elapsed)`,
  updating `successCount`, `failCount`, `totalTime`, `minTime` (starting at
  Long.MAX_VALUE) and `maxTime` (starting at 0). Its invariants tie every counter to a
  pure function of the attempts performed so far (`Successes`, `Failures`, `Sum`,
  `Minimum`, `Maximum`, gathered in `StatsOf`). The pause after each attempt but the
  last can be interrupted; the interrupt, which can only come from outside `main`, is an
  input `Option<nat>`: `Some(k)` says it arrives once `k` attempts have been performed, and since `Thread.sleep`
  throws at once while an interrupt is pending, the first pause after attempt
  `max(k, 1)` ends the loop. `TCPing.Summarize` is the guard on the summary: it exists
  exactly when some attempt succeeded, and its "sent" field is always 4.

`TCPing.Execute` puts the two together as `main` does: nothing is probed unless
validation yields `Run`.

Inputs that stand for I/O: `parseInt: string -> Option<int>` is `Integer.parseInt`
(`None` where it throws); `outcomes[i]` is what the connect (`isReachable`) and the
clock report for attempt `i + 1`; `interrupt` is the interrupt.

## Model

| member | source | states |
|---|---|---|
| TCPing.Validate | src/main/java/org/example/TCPing.java:18-40 | Help exactly when there are fewer than 1 or more than 2 arguments; one argument gives Run(host, 80); with two, BadFormat exactly when the port does not parse and BadRange exactly when it parses outside [1, 65535]; otherwise Run with the parsed port unchanged; every Run has host = first argument and a port in range |
| TCPing.ShowsHelp | src/main/java/org/example/TCPing.java:18-26 | usage is printed exactly on a wrong argument count or when the first argument is "--h", whatever the port |
| TCPing.HelpFlagDoesNotStop | src/main/java/org/example/TCPing.java:23-27 | with the host "--h" and an absent or valid port, usage is shown and the outcome is still Run with host "--h" |
| TCPing.AttemptsPerformed | src/main/java/org/example/TCPing.java:63-87 | the number of attempts is between 1 and 4; it is the first attempt whose following pause sees a pending interrupt, else 4; an interrupt after attempt k (1 <= k < 4) gives exactly k; none, or one after the fourth attempt, gives 4 (no pause follows the last attempt) |
| TCPing.Probe | src/main/java/org/example/TCPing.java:57-88 | the loop performs AttemptsPerformed(interrupt) attempts and leaves each of the five counters equal to the specification function of exactly those attempts |
| TCPing.Summarize | src/main/java/org/example/TCPing.java:90-97 | a summary exists if and only if successCount > 0; its "sent" is the budget 4, received and lost are the success and failure counts, the loss numerator is 100 times lost over the denominator 4, and the average's denominator is positive |
| TCPing.SummaryAfterProbe | src/main/java/org/example/TCPing.java:90-96 | after the loop, a printed summary reports sent = 4 even after an interrupt, received + lost = attempts performed <= 4, loss below 100%, and minTime * successCount <= totalTime <= maxTime * successCount (the average lies between min and max) |
| TCPing.Execute | src/main/java/org/example/TCPing.java:17-97 | validation decides first; when it does not yield Run, no attempt is made, the counters keep their initial values and no summary is printed; on Run, the attempts, counters and summary are those of Probe and Summarize; help is shown exactly on a wrong argument count or the host "--h" |
| ProbeStats.StatsFacts | src/main/java/org/example/TCPing.java:57-79 | after any attempts, successCount + failCount equals their number; with a success, minTime <= e <= maxTime for every successful elapsed e and both are attained by some success; with none, minTime = Long.MAX_VALUE, maxTime = 0 and totalTime = 0 |
| ProbeStats.FailedAttempt | src/main/java/org/example/TCPing.java:76-79 | a failed attempt increments failCount and leaves successCount, totalTime, minTime and maxTime unchanged |
| ProbeStats.SuccessfulAttempt | src/main/java/org/example/TCPing.java:70-74 | a successful attempt increments successCount, adds its elapsed time to totalTime, takes the min and max with it, and leaves failCount unchanged |
| ProbeStats.NextAttempt | src/main/java/org/example/TCPing.java:70-79 | the counters after one more attempt follow from those before it: a success updates count, total, minimum and maximum, a failure only the failure count |
| ProbeStats.CountsAddUp | src/main/java/org/example/TCPing.java:70-79 | every attempt is counted once, as a success or as a failure |
| ProbeStats.SuccessesMembers | src/main/java/org/example/TCPing.java:70-72 | a time is among the recorded successful times exactly when some reachable attempt took that long |
| ProbeStats.MinimumBounds | src/main/java/org/example/TCPing.java:60-73 | the running minimum is at most every recorded time and, when there is one, equals one of them |
| ProbeStats.MaximumBounds | src/main/java/org/example/TCPing.java:61-74 | the running maximum is at least every recorded time and, when there is one, equals one of them |
| ProbeStats.SumBetweenExtremes | src/main/java/org/example/TCPing.java:72-74 | for a non-empty list of times, minimum * count <= sum <= maximum * count |

## Left out

- `isReachable` (the socket connect with its 5000 ms timeout): replaced by the input flag `reachable` of each attempt.
- `resolveIP` (the DNS lookup): it only feeds display text and does not affect any counter.
- Wall-clock timing with `Instant.now` and `Duration.toMillis`: `elapsed` is an input, a non-negative Java long (`Millis`); a negative duration from a clock step backwards is not modelled.
- The shutdown hook, the `ExecutorService`, `awaitTermination` and `Thread.sleep` itself. The hook (TCPing.java:42-53) interrupts nothing: the executor never receives a task, so `shutdownNow` has no worker thread to interrupt, and the main thread is never interrupted by the program itself. On Ctrl-C the JVM runs the hook, prints its closing line and halts, so no summary is printed; that path is not modelled. `Some(k)` stands for an interrupt of the main thread from outside `main`, which is the only way the catch at TCPing.java:84-86 is reached. An interrupt during the connect or the DNS lookup is not modelled separately; it counts as arriving after that attempt.
- `Integer.parseInt`: an input function; its sign and overflow rules are not modelled.
- All console text (`printf`, `println`, `printHelp`) and the floating-point rendering with `%.0f` of the loss percentage and the average: the summary carries their integer numerators and denominators instead.
- TCPing.Probe: `totalTime` is an unbounded integer; the Java `long` sum could wrap only if the elapsed times of four attempts added up to more than 2^63 - 1 ms.
- The exit status: the program returns normally on every path, so there is nothing to model.
