/**
 * The bookkeeping of `runCommand` (src/server.js): the two output buffers
 * that keep only their last 20000 characters, and the `settled` flag that
 * lets the first of timeout, error and close decide the outcome.
 *
 * The child process is a sequence of events; the timer is one more event.
 * Spawning, killing and wall-clock time are not modelled.
 */
module Runner {
  import opened Results
  import opened Text

  const MaxOutput := 20000
  const RunTimeoutMs := 20 * 60 * 1000

  /** The rejection raised when the timer fires first: the timeout in whole seconds. */
  const TimeoutMessage := "Update timeout after " + NatToString(RunTimeoutMs / 1000) + "s"

  /** What the child process (and the timer) can do. A close carries no code when the child was killed by a signal. */
  datatype Event =
    | StdoutData(chunk: string)
    | StderrData(chunk: string)
    | ChildError(message: string)
    | Close(code: Option<int>)
    | TimerFired

  /** How the promise of `runCommand` settles. */
  datatype Settlement = Resolved(code: int, stdout: string, stderr: string) | Rejected(message: string)

  /** `Number(code) || 0`: a missing code counts as success. */
  function ExitCode(code: Option<int>): (c: int)
    ensures code.Some? ==> c == code.value
    ensures code.None? ==> c == 0
  {
    match code
    case None => 0
    case Some(n) => n
  }

  /** Keeps the last `MaxOutput` characters. */
  function Tail(s: string): (r: string)
  {
    if |s| > MaxOutput then s[|s| - MaxOutput..] else s
  }

  /** The kept text is at most `MaxOutput` long, is the end of the input, and is all of it when that fits. */
  lemma TailBounds(s: string)
    ensures |Tail(s)| <= MaxOutput && EndsWith(s, Tail(s))
    ensures |s| <= MaxOutput ==> Tail(s) == s
    ensures |s| > MaxOutput ==> |Tail(s)| == MaxOutput
  {
  }

  /** Trimming as chunks arrive keeps the same text as trimming the whole concatenation once. */
  lemma TailOfTail(a: string, b: string)
    ensures Tail(Tail(a) + b) == Tail(a + b)
  {
    if |a| > MaxOutput {
      var t := Tail(a);
      assert t == a[|a| - MaxOutput..];
      if b == [] {
        assert t + b == t;
        assert a + b == a;
      } else {
        assert (t + b)[|t + b| - MaxOutput..] == (a + b)[|a + b| - MaxOutput..];
      }
    }
  }

  /** All text received on standard output, in order. */
  function OutText(events: seq<Event>): string {
    if events == [] then ""
    else
      var last := events[|events| - 1];
      OutText(events[..|events| - 1]) + (if last.StdoutData? then last.chunk else "")
  }

  /** All text received on standard error, in order. */
  function ErrText(events: seq<Event>): string {
    if events == [] then ""
    else
      var last := events[|events| - 1];
      ErrText(events[..|events| - 1]) + (if last.StderrData? then last.chunk else "")
  }

  predicate Settles(e: Event) {
    e.ChildError? || e.Close? || e.TimerFired?
  }

  /** The settlement an event produces when nothing has settled before it. */
  function SettleOn(before: seq<Event>, e: Event): (r: Option<Settlement>)
    ensures r.Some? <==> Settles(e)
  {
    match e
    case ChildError(m) => Some(Rejected(m))
    case Close(c) => Some(Resolved(ExitCode(c), Tail(OutText(before)), Tail(ErrText(before))))
    case TimerFired => Some(Rejected(TimeoutMessage))
    case _ => None
  }

  /** The settlement after a run of events, event by event: once set, it never changes. */
  function Outcome(events: seq<Event>): Option<Settlement> {
    if events == [] then None
    else
      var before := events[..|events| - 1];
      if Outcome(before).Some? then Outcome(before) else SettleOn(before, events[|events| - 1])
  }

  /** Whether the timer's handler killed the child: the timer was the first to settle. */
  function Killed(events: seq<Event>): bool {
    if events == [] then false
    else
      var before := events[..|events| - 1];
      Killed(before) || (Outcome(before).None? && events[|events| - 1].TimerFired?)
  }

  // ---------------------------------------------------------------------
  // The first settling event decides
  // ---------------------------------------------------------------------

  /** Event `i` is the first that settles. */
  predicate FirstSettlesAt(events: seq<Event>, i: nat) {
    i < |events| && Settles(events[i]) && forall j :: 0 <= j < i ==> !Settles(events[j])
  }

  /** A reference definition: scan from the front for the first settling event. */
  function FirstSettling(events: seq<Event>): (r: Option<nat>)
    ensures r.Some? ==> FirstSettlesAt(events, r.value)
    ensures r.None? ==> forall j :: 0 <= j < |events| ==> !Settles(events[j])
  {
    if events == [] then None
    else if Settles(events[0]) then Some(0)
    else match FirstSettling(events[1..])
      case None => None
      case Some(i) => Some(i + 1)
  }

  /** Nothing settles without a settling event, and the child is not killed. */
  lemma {:induction false} QuietRun(events: seq<Event>)
    requires forall j :: 0 <= j < |events| ==> !Settles(events[j])
    ensures Outcome(events).None? && !Killed(events)
  {
    if events != [] {
      QuietRun(events[..|events| - 1]);
    }
  }

  /** The first settling event decides the outcome, and the child is killed exactly when that event is the timer. */
  lemma {:induction false} FirstSettlingWins(events: seq<Event>, i: nat)
    requires FirstSettlesAt(events, i)
    ensures Outcome(events) == SettleOn(events[..i], events[i])
    ensures Killed(events) == events[i].TimerFired?
  {
    var before := events[..|events| - 1];
    if |events| == i + 1 {
      QuietRun(before);
      assert before == events[..i];
    } else {
      assert FirstSettlesAt(before, i);
      FirstSettlingWins(before, i);
      assert before[..i] == events[..i];
    }
  }

  /** Settle-once: after the promise settles, later events change neither the outcome nor the kill. */
  lemma {:induction false} SettleOnce(events: seq<Event>, later: seq<Event>)
    requires Outcome(events).Some?
    ensures Outcome(events + later) == Outcome(events)
    ensures Killed(events + later) == Killed(events)
    decreases |later|
  {
    if later == [] {
      assert events + later == events;
    } else {
      var all := events + later;
      SettleOnce(events, later[..|later| - 1]);
      assert all[..|all| - 1] == events + later[..|later| - 1];
    }
  }

  /** One more event extends each history function by one step. */
  lemma AppendEvent(seen: seq<Event>, e: Event)
    ensures OutText(seen + [e]) == OutText(seen) + (if e.StdoutData? then e.chunk else "")
    ensures ErrText(seen + [e]) == ErrText(seen) + (if e.StderrData? then e.chunk else "")
    ensures Outcome(seen + [e]) == if Outcome(seen).Some? then Outcome(seen) else SettleOn(seen, e)
    ensures Killed(seen + [e]) == (Killed(seen) || (Outcome(seen).None? && e.TimerFired?))
  {
    var next := seen + [e];
    assert next[..|next| - 1] == seen;
  }

  // ---------------------------------------------------------------------
  // The callbacks, as a class
  // ---------------------------------------------------------------------

  /** The closure state of one `runCommand` call. */
  class Run {
    var stdout: string
    var stderr: string
    var settled: bool
    /** The value handed to `resolve` or `reject`, once settled. */
    var result: Option<Settlement>
    var killed: bool
    /** The events delivered so far. */
    ghost var seen: seq<Event>

    ghost predicate Valid()
      reads this
    {
      && stdout == Tail(OutText(seen))
      && stderr == Tail(ErrText(seen))
      && result == Outcome(seen)
      && settled == result.Some?
      && killed == Killed(seen)
    }

    constructor ()
      ensures Valid() && seen == []
      ensures stdout == "" && stderr == "" && !settled && !killed
    {
      stdout := "";
      stderr := "";
      settled := false;
      result := None;
      killed := false;
      seen := [];
    }

    /** `child.stdout.on('data')`: append, then keep the tail. Runs whether or not the promise has settled. */
    method OnStdout(chunk: string)
      requires Valid()
      modifies this
      ensures Valid() && seen == old(seen) + [StdoutData(chunk)]
      ensures stdout == Tail(old(stdout) + chunk)
      ensures stderr == old(stderr) && settled == old(settled) && result == old(result) && killed == old(killed)
    {
      ghost var next := seen + [StdoutData(chunk)];
      AppendEvent(seen, StdoutData(chunk));
      TailOfTail(OutText(seen), chunk);
      assert ErrText(next) == ErrText(seen) + "" == ErrText(seen);
      assert Outcome(next) == Outcome(seen) && Killed(next) == Killed(seen);
      var grown := stdout + chunk;
      if |grown| > MaxOutput { grown := grown[|grown| - MaxOutput..]; }
      assert grown == Tail(OutText(next));
      stdout := grown;
      seen := next;
    }

    /** `child.stderr.on('data')`. */
    method OnStderr(chunk: string)
      requires Valid()
      modifies this
      ensures Valid() && seen == old(seen) + [StderrData(chunk)]
      ensures stderr == Tail(old(stderr) + chunk)
      ensures stdout == old(stdout) && settled == old(settled) && result == old(result) && killed == old(killed)
    {
      ghost var next := seen + [StderrData(chunk)];
      AppendEvent(seen, StderrData(chunk));
      TailOfTail(ErrText(seen), chunk);
      assert OutText(next) == OutText(seen) + "" == OutText(seen);
      assert Outcome(next) == Outcome(seen) && Killed(next) == Killed(seen);
      var grown := stderr + chunk;
      if |grown| > MaxOutput { grown := grown[|grown| - MaxOutput..]; }
      assert grown == Tail(ErrText(next));
      stderr := grown;
      seen := next;
    }

    /** `child.on('error')`: reject with the error unless already settled. */
    method OnError(message: string)
      requires Valid()
      modifies this
      ensures Valid() && seen == old(seen) + [ChildError(message)]
      ensures stdout == old(stdout) && stderr == old(stderr) && killed == old(killed)
      ensures old(settled) ==> result == old(result)
      ensures !old(settled) ==> result == Some(Rejected(message))
      ensures settled
    {
      ghost var next := seen + [ChildError(message)];
      AppendEvent(seen, ChildError(message));
      assert OutText(next) == OutText(seen) + "" == OutText(seen);
      assert ErrText(next) == ErrText(seen) + "" == ErrText(seen);
      seen := next;
      if settled { return; }
      settled := true;
      result := Some(Rejected(message));
    }

    /** `child.on('close')`: resolve with the code and both buffers unless already settled. */
    method OnClose(code: Option<int>)
      requires Valid()
      modifies this
      ensures Valid() && seen == old(seen) + [Close(code)]
      ensures stdout == old(stdout) && stderr == old(stderr) && killed == old(killed)
      ensures old(settled) ==> result == old(result)
      ensures !old(settled) ==> result == Some(Resolved(ExitCode(code), stdout, stderr))
      ensures settled
    {
      ghost var next := seen + [Close(code)];
      AppendEvent(seen, Close(code));
      assert OutText(next) == OutText(seen) + "" == OutText(seen);
      assert ErrText(next) == ErrText(seen) + "" == ErrText(seen);
      seen := next;
      if settled { return; }
      settled := true;
      result := Some(Resolved(ExitCode(code), stdout, stderr));
    }

    /** The timer: unless already settled, kill the child and reject with the timeout message. */
    method OnTimer()
      requires Valid()
      modifies this
      ensures Valid() && seen == old(seen) + [TimerFired]
      ensures stdout == old(stdout) && stderr == old(stderr)
      ensures old(settled) ==> result == old(result) && killed == old(killed)
      ensures !old(settled) ==> result == Some(Rejected(TimeoutMessage)) && killed
      ensures settled
    {
      ghost var next := seen + [TimerFired];
      AppendEvent(seen, TimerFired);
      assert OutText(next) == OutText(seen) + "" == OutText(seen);
      assert ErrText(next) == ErrText(seen) + "" == ErrText(seen);
      assert Killed(next) == (Killed(seen) || !settled);
      assert Outcome(next) == if settled then result else Some(Rejected(TimeoutMessage));
      seen := next;
      if !settled {
        settled := true;
        killed := true;
        result := Some(Rejected(TimeoutMessage));
      }
    }

    method Deliver(e: Event)
      requires Valid()
      modifies this
      ensures Valid() && seen == old(seen) + [e]
    {
      match e
      case StdoutData(c) => OnStdout(c);
      case StderrData(c) => OnStderr(c);
      case ChildError(m) => OnError(m);
      case Close(code) => OnClose(code);
      case TimerFired => OnTimer();
    }
  }

  /** How a run ends: its events, then the timer, which fires unless cleared. */
  function Settled(events: seq<Event>): Settlement {
    var all := events + [TimerFired];
    assert all[..|all| - 1] == events;
    Outcome(all).value
  }

  /** The timer ends every run that neither errors nor closes; otherwise the first settling event decides. */
  lemma TimedRun(events: seq<Event>)
    ensures FirstSettling(events).None? ==>
      Settled(events) == Rejected(TimeoutMessage) && Killed(events + [TimerFired])
    ensures FirstSettling(events).Some? ==>
      var i := FirstSettling(events).value;
      Some(Settled(events)) == SettleOn(events[..i], events[i]) &&
      Killed(events + [TimerFired]) == events[i].TimerFired?
  {
    var all := events + [TimerFired];
    match FirstSettling(events)
    case None =>
      assert FirstSettlesAt(all, |events|);
      FirstSettlingWins(all, |events|);
      assert all[..|events|] == events;
    case Some(k) =>
      assert FirstSettlesAt(all, k);
      FirstSettlingWins(all, k);
      assert all[..k] == events[..k];
  }

  /**
   * `runCommand(cmd)` fed the child's events: the first error or close
   * settles the promise; if neither comes, the timer kills the child and
   * rejects. Later events are ignored.
   */
  method RunCommand(events: seq<Event>) returns (s: Settlement, killed: bool)
    ensures s == Settled(events)
    ensures killed == Killed(events + [TimerFired])
  {
    var run := new Run();
    var i := 0;
    while i < |events|
      invariant 0 <= i <= |events|
      invariant run.Valid() && run.seen == events[..i]
    {
      run.Deliver(events[i]);
      i := i + 1;
      assert events[..i] == events[..i - 1] + [events[i - 1]];
    }
    assert events[..i] == events;
    run.OnTimer();
    s := run.result.value;
    killed := run.killed;
  }
}
