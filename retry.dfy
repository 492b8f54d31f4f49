/** The `while True` retry loop shared by both create_thread functions: each attempt runs main()
    once, and an except clause then decides whether the loop breaks, retries (possibly after a
    sleep), or raises out of the loop. */
module Retry {
  import opened Wrappers
  import opened Errors
  import opened Http
  import Utils

  /** What the loop does once an attempt is over. */
  datatype Action =
    /** main() returned: `break`. */
    | Break
    /** An except clause logged and the loop goes round again, after time.sleep(n) when sleep is Some(n). */
    | Retry(sleep: Option<Duration>)
    /** The catch-all `except Exception` clause logged and broke out. */
    | Stop(error: Error)
    /** The except clause itself raised; the exception leaves create_thread. */
    | Escape(error: Error)

  /** One attempt: what main() sent and logged, and what the except clauses made of its outcome. */
  datatype Attempt = Attempt(trace: Trace, action: Action)

  /** How create_thread ended, or Retrying while the loop still runs after the attempts seen. */
  datatype Ending = Finished | Stopped(error: Error) | Escaped(error: Error) | Retrying

  datatype Report = Report(attempts: nat, trace: Trace, ending: Ending)

  function SleepEvents(a: Action): Trace {
    if a.Retry? && a.sleep.Some? then [Slept(a.sleep.value)] else []
  }

  function EndingOf(a: Action): Ending
    requires !a.Retry?
  {
    match a
    case Break => Finished
    case Stop(e) => Stopped(e)
    case Escape(e) => Escaped(e)
  }

  /** The loop over a sequence of attempt outcomes: it makes attempts until one does not retry. */
  function Run(attempts: seq<Attempt>): (r: Report)
    ensures r.attempts <= |attempts|
    ensures r.ending == Retrying <==> r.attempts == |attempts| && forall i :: 0 <= i < |attempts| ==> attempts[i].action.Retry?
  {
    if attempts == [] then Report(0, [], Retrying)
    else
      var a := attempts[0];
      if a.action.Retry? then
        var rest := Run(attempts[1..]);
        assert forall i :: 1 <= i < |attempts| ==> attempts[i] == attempts[1..][i - 1];
        Report(rest.attempts + 1, a.trace + SleepEvents(a.action) + rest.trace, rest.ending)
      else Report(1, a.trace, EndingOf(a.action))
  }

  /** The index of the first attempt that does not retry, or the number of attempts if all retry. */
  function FirstFinal(attempts: seq<Attempt>): (k: nat)
    ensures k <= |attempts|
    ensures forall i :: 0 <= i < k ==> attempts[i].action.Retry?
    ensures k < |attempts| ==> !attempts[k].action.Retry?
  {
    if attempts == [] || !attempts[0].action.Retry? then 0 else 1 + FirstFinal(attempts[1..])
  }

  /** What the attempts send, log and sleep, one after the other. */
  function Transcript(attempts: seq<Attempt>): Trace {
    if attempts == [] then [] else attempts[0].trace + SleepEvents(attempts[0].action) + Transcript(attempts[1..])
  }

  /** The loop makes every attempt up to and including the first that does not retry, and no
      other; it ends as that attempt's except clause says; its trace is the attempts' traces in
      order, each retry's sleep between that attempt and the next. */
  lemma {:induction false} RunStopsAtFirstFinal(attempts: seq<Attempt>)
    ensures var k := FirstFinal(attempts); var r := Run(attempts);
      && r.attempts == (if k < |attempts| then k + 1 else k)
      && r.ending == (if k < |attempts| then EndingOf(attempts[k].action) else Retrying)
      && r.trace == Transcript(attempts[..r.attempts])
  {
    if attempts != [] {
      var r := Run(attempts);
      if attempts[0].action.Retry? {
        RunStopsAtFirstFinal(attempts[1..]);
        assert attempts[..r.attempts][1..] == attempts[1..][..r.attempts - 1];
        assert attempts[..r.attempts][0] == attempts[0];
      } else {
        var one := attempts[..1];
        assert one[1..] == [];
        assert Transcript(one) == attempts[0].trace + [] + [];
      }
    }
  }

  /** The seconds a retry sleeps. */
  function SleepOf(a: Action): Duration {
    if a.Retry? && a.sleep.Some? then a.sleep.value else 0.0
  }

  function TotalSleep(attempts: seq<Attempt>): Duration {
    if attempts == [] then 0.0 else SleepOf(attempts[0].action) + TotalSleep(attempts[1..])
  }

  /** When main() itself never sleeps, the loop waits exactly the sum of its retries' sleeps. */
  lemma {:induction false} WaitedIsTotalSleep(attempts: seq<Attempt>)
    requires forall i :: 0 <= i < |attempts| ==> Waited(attempts[i].trace) == 0.0
    ensures Waited(Transcript(attempts)) == TotalSleep(attempts)
  {
    if attempts != [] {
      var a := attempts[0];
      WaitedAppend(a.trace + SleepEvents(a.action), Transcript(attempts[1..]));
      WaitedAppend(a.trace, SleepEvents(a.action));
      assert Waited(SleepEvents(a.action)) == SleepOf(a.action) by {
        if a.action.Retry? && a.action.sleep.Some? {
          assert SleepEvents(a.action)[1..] == [];
        }
      }
      WaitedIsTotalSleep(attempts[1..]);
    }
  }

  /** The loop state after i attempts that all retried: their count and trace, followed by the
      loop over the remaining attempts. */
  function Shift(done: nat, t: Trace, r: Report): Report {
    Report(r.attempts + done, t + r.trace, r.ending)
  }

  /** One more retrying attempt moves from the remaining attempts to the loop state. */
  lemma RunRetryStep(attempts: seq<Attempt>, i: nat, t: Trace)
    requires i < |attempts| && attempts[i].action.Retry?
    requires Run(attempts) == Shift(i, t, Run(attempts[i..]))
    ensures Run(attempts) == Shift(i + 1, t + attempts[i].trace + SleepEvents(attempts[i].action), Run(attempts[i + 1..]))
  {
    var a, after := attempts[i], Run(attempts[i + 1..]);
    RunRetryAt(attempts, i);
    TraceRegroup(t, a.trace, SleepEvents(a.action), after.trace);
  }

  lemma TraceRegroup(t: Trace, x: Trace, y: Trace, z: Trace)
    ensures t + (x + y + z) == (t + x + y) + z
  {
  }

  /** The loop from a retrying attempt on: that attempt's trace and sleep, then the loop over the
      attempts after it. */
  lemma RunRetryAt(attempts: seq<Attempt>, i: nat)
    requires i < |attempts| && attempts[i].action.Retry?
    ensures var a, after := attempts[i], Run(attempts[i + 1..]);
      Run(attempts[i..]) == Report(after.attempts + 1, a.trace + SleepEvents(a.action) + after.trace, after.ending)
  {
    var rest := attempts[i..];
    assert rest[0] == attempts[i] && rest[1..] == attempts[i + 1..];
  }

  /** An attempt that does not retry ends the loop. */
  lemma RunFinalStep(attempts: seq<Attempt>, i: nat, t: Trace)
    requires i < |attempts| && !attempts[i].action.Retry?
    requires Run(attempts) == Shift(i, t, Run(attempts[i..]))
    ensures Run(attempts) == Report(i + 1, t + attempts[i].trace, EndingOf(attempts[i].action))
  {
    assert attempts[i..][0] == attempts[i];
  }

  /** A retry followed by a normal return: two attempts, the retry's sleep between them. */
  lemma RetryThenBreak(first: Attempt, second: Attempt)
    requires first.action.Retry? && second.action == Break
    ensures Run([first, second]) == Report(2, first.trace + SleepEvents(first.action) + second.trace, Finished)
  {
    assert [first, second][1..] == [second];
    assert [second][1..] == [];
  }

  /** What create_thread hands to log_wrapper once it is over: an escaped exception is raised,
      every other ending returns None. */
  function ThreadCall(r: Report): (c: Utils.Outcome<()>)
    requires r.ending != Retrying
    ensures c.Raised? <==> r.ending.Escaped?
    ensures c.Raised? ==> c.error == r.ending.error
  {
    if r.ending.Escaped? then Utils.Raised(r.ending.error) else Utils.Returned(())
  }
}
