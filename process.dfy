/** `run_command` and the three probe adapters built on it (netiV3/app/logic.py). */
module Process {
  import opened Wrappers
  import opened Text

  /** What `subprocess.run` produced for one argument vector: an exit with its
      captured streams, the 30-second timeout, or any other exception (binary
      missing, permission denied, ...) with its `str(e)`. */
  datatype ProcessOutcome =
    | Exited(code: int, out: string, err: string)
    | TimedOut
    | LaunchFailed(msg: string)

  /** The `{'stdout': ..., 'stderr': ...}` dict every process-backed adapter and
      the port scan adapter return. */
  datatype Envelope = Envelope(stdout: Option<string>, stderr: Option<string>)

  predicate ExactlyOnePopulated(e: Envelope) {
    e.stdout.Some? != e.stderr.Some?
  }

  const TimeoutMessage := "Error: Command timed out after 30 seconds."
  const UnexpectedPrefix := "An unexpected error occurred: "

  /** `run_command`: classify a process outcome into an envelope. Exactly one field
      is populated; success passes stdout through verbatim (stderr dropped), a
      non-zero exit reports trimmed stdout, a newline and stderr. */
  function RunCommand(outcome: ProcessOutcome): (e: Envelope)
    ensures ExactlyOnePopulated(e)
    ensures e.stdout.Some? <==> outcome.Exited? && outcome.code == 0
    ensures outcome.Exited? && outcome.code == 0 ==> e.stdout == Some(outcome.out)
    ensures outcome.Exited? && outcome.code != 0 ==>
              e.stderr == Some(Trim(outcome.out + "\n" + outcome.err))
    ensures outcome.TimedOut? ==> e.stderr == Some(TimeoutMessage)
    ensures outcome.LaunchFailed? ==> e.stderr == Some(UnexpectedPrefix + outcome.msg)
  {
    match outcome
    case Exited(code, out, err) =>
      if code == 0 then Envelope(Some(out), None)
      else Envelope(None, Some(Trim(out + "\n" + err)))
    case TimedOut => Envelope(None, Some(TimeoutMessage))
    case LaunchFailed(msg) => Envelope(None, Some(UnexpectedPrefix + msg))
  }

  /** A failing command whose combined output is only whitespace yields an empty,
      yet present, stderr. */
  lemma BlankFailureGivesEmptyStderr(code: int, out: string, err: string)
    requires code != 0 && AllSpace(out) && AllSpace(err)
    ensures RunCommand(Exited(code, out, err)) == Envelope(None, Some(""))
  {
    var joined := out + "\n" + err;
    assert forall k :: 0 <= k < |joined| ==> IsSpace(joined[k]) by {
      forall k | 0 <= k < |joined| ensures IsSpace(joined[k]) {
        if k < |out| { assert joined[k] == out[k]; }
        else if k > |out| { assert joined[k] == err[k - |out| - 1]; }
      }
    }
  }

  // The three probes pass the target through `shlex.quote` (`quote`) and run the
  // vector through the operating system (`exec`); both are parameters of the model.

  function PingCommand(q: string): seq<string> { ["ping", "-c", "4", q] }
  function TracerouteCommand(q: string): seq<string> { ["traceroute", q] }
  function NslookupCommand(q: string): seq<string> { ["nslookup", q] }

  /** `perform_ping_scan`: one run of `ping -c 4 <quoted target>`, its envelope
      returned unchanged. */
  function PingScan(target: string, quote: string -> string,
                    exec: seq<string> -> ProcessOutcome): (e: Envelope)
    ensures ExactlyOnePopulated(e)
    ensures e == RunCommand(exec(["ping", "-c", "4", quote(target)]))
  {
    RunCommand(exec(PingCommand(quote(target))))
  }

  /** `perform_traceroute_scan`: one run of `traceroute <quoted target>`. */
  function TracerouteScan(target: string, quote: string -> string,
                          exec: seq<string> -> ProcessOutcome): (e: Envelope)
    ensures ExactlyOnePopulated(e)
    ensures e == RunCommand(exec(["traceroute", quote(target)]))
  {
    RunCommand(exec(TracerouteCommand(quote(target))))
  }

  /** `perform_nslookup_scan`: one run of `nslookup <quoted target>`. */
  function NslookupScan(target: string, quote: string -> string,
                        exec: seq<string> -> ProcessOutcome): (e: Envelope)
    ensures ExactlyOnePopulated(e)
    ensures e == RunCommand(exec(["nslookup", quote(target)]))
  {
    RunCommand(exec(NslookupCommand(quote(target))))
  }

  /** The quoted target is one discrete token, the last of each vector, and the
      other tokens do not depend on the target: nothing is interpolated into a
      shell string. */
  lemma ProbeVectorsIsolateTarget(t1: string, t2: string, quote: string -> string)
    ensures var p1, p2 := PingCommand(quote(t1)), PingCommand(quote(t2));
            p1[..3] == p2[..3] && p1[3] == quote(t1) && |p1| == 4
    ensures var r1, r2 := TracerouteCommand(quote(t1)), TracerouteCommand(quote(t2));
            r1[..1] == r2[..1] && r1[1] == quote(t1) && |r1| == 2
    ensures var n1, n2 := NslookupCommand(quote(t1)), NslookupCommand(quote(t2));
            n1[..1] == n2[..1] && n1[1] == quote(t1) && |n1| == 2
  {
  }

  /** Each probe's envelope is determined by what its one vector produced: two
      process environments that agree on that vector give the same envelope. */
  lemma ProbesDependOnlyOnTheirVector(target: string, quote: string -> string,
                                      e1: seq<string> -> ProcessOutcome,
                                      e2: seq<string> -> ProcessOutcome)
    ensures e1(PingCommand(quote(target))) == e2(PingCommand(quote(target))) ==>
              PingScan(target, quote, e1) == PingScan(target, quote, e2)
    ensures e1(TracerouteCommand(quote(target))) == e2(TracerouteCommand(quote(target))) ==>
              TracerouteScan(target, quote, e1) == TracerouteScan(target, quote, e2)
    ensures e1(NslookupCommand(quote(target))) == e2(NslookupCommand(quote(target))) ==>
              NslookupScan(target, quote, e1) == NslookupScan(target, quote, e2)
  {
  }
}
