/** The supervisor's poll loop: it watches the logs of a runtime it started and classifies how
    the run ended. The runtime, the clock and the controller are a trace of observations. */
module Runner {
  import opened Wrappers
  import opened Text

  const MAX_LOG_BYTES := 8 * 1024 * 1024
  const PANIC := "Kernel panic - not syncing"
  const VERIFY_MS := 2000
  const POLL_MS := 100

  datatype Mode = Run | Smoke

  datatype Exit = Exit(success: bool, code: Option<int>)

  /** What one turn of the loop can observe, in the order in which it looks: both logs, the
      clock when the marker is noted, the exit status, both logs again after an exit, the stop
      request, and the clock at the two time checks. */
  datatype Turn = Turn(
    out: string, err: string, markerClock: nat,
    exited: Option<Exit>, lastOut: string, lastErr: string,
    stop: bool, verifyClock: nat, timeoutClock: nat)

  /** An execution: logs only grow, the clock never runs back, and each turn ends in a sleep of
      at least 100 ms. */
  ghost predicate Behaved(start: nat, turns: nat -> Turn) {
    start <= turns(0).markerClock && forall i: nat :: Follows(turns(i), turns(i + 1))
  }

  predicate Follows(t: Turn, next: Turn) {
    && t.markerClock <= t.verifyClock <= t.timeoutClock
    && t.timeoutClock + POLL_MS <= next.markerClock
    && t.out <= t.lastOut <= next.out && t.err <= t.lastErr <= next.err
  }

  /** Both logs as one text, or None when together they exceed the limit. */
  function ReadTranscript(out: string, err: string): Option<string> {
    if |out| + |err| > MAX_LOG_BYTES then None else Some(out + "\n" + err)
  }

  /** The bounded reads: at most one byte past what is still allowed is taken from each log. */
  method ReadLogs(out: string, err: string) returns (text: Option<string>)
    ensures text == ReadTranscript(out, err)
  {
    var outBytes := if |out| <= MAX_LOG_BYTES + 1 then out else out[..MAX_LOG_BYTES + 1];
    if |outBytes| > MAX_LOG_BYTES {
      return None;
    }
    var allowed := MAX_LOG_BYTES - |outBytes| + 1;
    var errBytes := if |err| <= allowed then err else err[..allowed];
    if |outBytes| + |errBytes| > MAX_LOG_BYTES {
      return None;
    }
    return Some(outBytes + "\n" + errBytes);
  }

  datatype Reason =
    | LogLimit | GuestKernelPanic | GuestExit | UnverifiedExit
    | StopRequested | VerifiedThenStopped | TimedOut

  datatype Report = Report(success: bool, reason: Reason, code: Option<int>, markerSeen: bool)

  /** What a transcript tells the loop. */
  datatype Look = TooLong | Readable(panics: bool, shows: bool)

  function LookAt(out: string, err: string, marker: Option<string>): Look {
    match ReadTranscript(out, err)
    case None => TooLong
    case Some(text) => Readable(Contains(text, PANIC), marker.Some? && Contains(text, marker.value))
  }

  method Inspect(out: string, err: string, marker: Option<string>) returns (look: Look)
    ensures look == LookAt(out, err, marker)
  {
    var text := ReadLogs(out, err);
    if text.None? {
      return TooLong;
    }
    return Readable(Contains(text.value, PANIC), marker.Some? && Contains(text.value, marker.value));
  }

  /** A run to be watched: its trace and what the caller asked for. */
  datatype Watch = Watch(start: nat, turns: nat -> Turn, marker: Option<string>, mode: Mode, timeout: nat)

  function First(w: Watch, i: nat): Look {
    LookAt(w.turns(i).out, w.turns(i).err, w.marker)
  }

  function Second(w: Watch, i: nat): Look {
    LookAt(w.turns(i).lastOut, w.turns(i).lastErr, w.marker)
  }

  predicate Shows(w: Watch, i: nat) {
    First(w, i).Readable? && First(w, i).shows
  }

  /** The first of the first n turns whose text shows the marker. */
  function FirstMarker(w: Watch, n: nat): Option<nat> {
    if n == 0 then None else
      var before := FirstMarker(w, n - 1);
      if before.Some? then before else if Shows(w, n - 1) then Some(n - 1) else None
  }

  predicate Seen(w: Watch, n: nat) {
    FirstMarker(w, n).Some?
  }

  /** The marker was first seen at least two seconds before the check of turn i. */
  predicate LongVerified(w: Watch, i: nat) {
    match FirstMarker(w, i + 1)
    case None => false
    case Some(k) => w.turns(i).verifyClock - w.turns(k).markerClock >= VERIFY_MS
  }

  /** Nothing ends the loop in turn i. */
  predicate Continues(w: Watch, i: nat) {
    && First(w, i).Readable? && !First(w, i).panics
    && w.turns(i).exited.None? && !w.turns(i).stop
    && !(w.mode == Smoke && LongVerified(w, i))
    && w.turns(i).timeoutClock - w.start < w.timeout
  }

  /** The report due when the runtime has exited and both logs were read once more. */
  function ExitReport(w: Watch, i: nat, exit: Exit): Report {
    var seen := Seen(w, i + 1);
    match Second(w, i)
    case TooLong => Report(false, LogLimit, exit.code, seen)
    case Readable(panics, shows) =>
      if panics then Report(false, GuestKernelPanic, exit.code, seen)
      else
        var good := exit.success && (w.marker.None? || seen || shows);
        Report(good, if good then GuestExit else UnverifiedExit, exit.code, seen || shows)
  }

  /** The report turn i must give if it is the first that ends the loop. The checks come in the
      order log limit, panic, exit, stop request, verification, timeout. */
  function EndReport(w: Watch, i: nat): Report {
    var seen := Seen(w, i + 1);
    if First(w, i).TooLong? then Report(false, LogLimit, None, Seen(w, i))
    else if First(w, i).panics then Report(false, GuestKernelPanic, None, seen)
    else if w.turns(i).exited.Some? then ExitReport(w, i, w.turns(i).exited.value)
    else if w.turns(i).stop then Report(true, StopRequested, None, seen)
    else if w.mode == Smoke && LongVerified(w, i) then Report(true, VerifiedThenStopped, None, seen)
    else Report(false, TimedOut, None, seen)
  }

  /** The poll loop. last is the first turn that ends the run; the report is the one due in it.
      notified counts the MarkerSeen events sent before the report. */
  method Poll(w: Watch) returns (report: Report, last: nat, notified: nat)
    requires Behaved(w.start, w.turns)
    requires 0 < w.timeout
    requires w.mode == Smoke ==> w.marker.Some?
    ensures forall j: nat | j < last :: Continues(w, j)
    ensures !Continues(w, last) && report == EndReport(w, last)
    ensures notified == (if Seen(w, last + 1) then 1 else 0) && (notified == 1 ==> report.markerSeen)
    ensures last * POLL_MS < w.timeout + POLL_MS
  {
    var markerSeen := false;
    var markerTime: Option<nat> := None;
    notified, last := 0, 0;
    while true
      invariant forall j: nat | j < last :: Continues(w, j)
      invariant markerSeen == Seen(w, last) && markerTime.Some? == markerSeen
      invariant notified == if markerSeen then 1 else 0
      invariant markerSeen ==> markerTime.value == w.turns(FirstMarker(w, last).value).markerClock
      invariant w.start + last * POLL_MS <= w.turns(last).markerClock
      invariant last * POLL_MS < w.timeout + POLL_MS
      decreases w.timeout + POLL_MS - last * POLL_MS
    {
      var t := w.turns(last);
      assert Follows(t, w.turns(last + 1));
      var look := Inspect(t.out, t.err, w.marker);
      if look.TooLong? {
        return Report(false, LogLimit, None, markerSeen), last, notified;
      }
      if look.shows {
        markerSeen := true;
        if markerTime.None? {
          markerTime, notified := Some(t.markerClock), notified + 1;
        }
      }
      assert markerSeen == Seen(w, last + 1);
      if look.panics {
        return Report(false, GuestKernelPanic, None, markerSeen), last, notified;
      }
      if t.exited.Some? {
        var code := t.exited.value.code;
        var again := Inspect(t.lastOut, t.lastErr, w.marker);
        if again.TooLong? {
          return Report(false, LogLimit, code, markerSeen), last, notified;
        }
        if again.panics {
          return Report(false, GuestKernelPanic, code, markerSeen), last, notified;
        }
        markerSeen := markerSeen || again.shows;
        var good := t.exited.value.success && (w.marker.None? || markerSeen);
        return Report(good, if good then GuestExit else UnverifiedExit, code, markerSeen), last, notified;
      }
      if t.stop {
        return Report(true, StopRequested, None, markerSeen), last, notified;
      }
      if w.mode == Smoke && markerTime.Some? && t.verifyClock - markerTime.value >= VERIFY_MS {
        return Report(true, VerifiedThenStopped, None, markerSeen), last, notified;
      }
      if t.timeoutClock - w.start >= w.timeout {
        return Report(false, TimedOut, None, markerSeen), last, notified;
      }
      last := last + 1;
    }
  }

  // ---- What a report is worth -------------------------------------------------------------

  lemma {:induction false} FirstMarkerIsFirst(w: Watch, n: nat)
    ensures forall k | FirstMarker(w, n) == Some(k) :: k < n && Shows(w, k) && forall j: nat | j < k :: !Shows(w, j)
    ensures FirstMarker(w, n) == None ==> forall j: nat | j < n :: !Shows(w, j)
  {
    if n > 0 {
      FirstMarkerIsFirst(w, n - 1);
    }
  }

  /** The last text the loop read before it reported, in the turn that ended the run. */
  function LastText(w: Watch, i: nat): Option<string> {
    var t := w.turns(i);
    if First(w, i).Readable? && !First(w, i).panics && t.exited.Some?
    then ReadTranscript(t.lastOut, t.lastErr) else ReadTranscript(t.out, t.err)
  }

  /** The run ended in turn i, and not before. */
  ghost predicate EndsIn(w: Watch, i: nat) {
    !Continues(w, i) && forall j: nat | j < i :: Continues(w, j)
  }

  /** Success is never reported on a transcript over the limit or with a kernel panic in it, and
      each reason for success has its evidence. */
  lemma SuccessIsSound(w: Watch, i: nat)
    requires Behaved(w.start, w.turns) && EndsIn(w, i) && EndReport(w, i).success
    ensures LastText(w, i).Some? && !Contains(LastText(w, i).value, PANIC)
    ensures var r := EndReport(w, i);
      match r.reason
      case GuestExit =>
        && w.turns(i).exited.Some? && w.turns(i).exited.value.success
        && (w.marker.Some? ==> r.markerSeen)
        && (w.marker.Some? && !Contains(LastText(w, i).value, w.marker.value)
            ==> exists k: nat :: k <= i && Shows(w, k))
      case StopRequested => w.turns(i).exited.None? && w.turns(i).stop
      case VerifiedThenStopped =>
        && w.mode == Smoke && w.marker.Some? && w.turns(i).exited.None? && !w.turns(i).stop
        && exists k: nat :: k <= i && Shows(w, k) && (forall j: nat | j < k :: !Shows(w, j))
                            && w.turns(k).markerClock + VERIFY_MS <= w.turns(i).verifyClock
      case _ => false
  {
    FirstMarkerIsFirst(w, i + 1);
  }

  lemma {:induction false} ClocksGrow(w: Watch, j: nat, k: nat)
    requires Behaved(w.start, w.turns) && j <= k
    ensures w.turns(j).markerClock <= w.turns(k).markerClock <= w.turns(k).verifyClock
    decreases k
  {
    assert Follows(w.turns(k), w.turns(k + 1));
    if j < k {
      ClocksGrow(w, j, k - 1);
      assert Follows(w.turns(k - 1), w.turns(k));
    }
  }

  /** No turn up to i saw an exit or a stop request, or read a text over the limit or with a panic
      in it. */
  ghost predicate Undisturbed(w: Watch, i: nat) {
    forall k: nat | k <= i ::
      First(w, k).Readable? && !First(w, k).panics && w.turns(k).exited.None? && !w.turns(k).stop
  }

  /** Failure is reported for a reason that holds of the whole run. An unverified exit was a failed
      one, or no text of the run ever showed the marker. A timeout came with nothing else to end
      the run, and in smoke mode no text showed the marker as long as two seconds before. */
  lemma FailureIsSound(w: Watch, i: nat)
    requires Behaved(w.start, w.turns) && EndsIn(w, i) && !EndReport(w, i).success
    ensures match EndReport(w, i).reason
      case LogLimit => LastText(w, i).None?
      case GuestKernelPanic => LastText(w, i).Some? && Contains(LastText(w, i).value, PANIC)
      case UnverifiedExit =>
        && w.turns(i).exited.Some?
        && (w.turns(i).exited.value.success ==>
              && w.marker.Some? && LastText(w, i).Some? && !Contains(LastText(w, i).value, w.marker.value)
              && forall k: nat | k <= i :: !Shows(w, k))
      case TimedOut =>
        && w.turns(i).timeoutClock - w.start >= w.timeout && Undisturbed(w, i)
        && (w.mode == Smoke ==>
              forall k: nat | k <= i && Shows(w, k) :: w.turns(i).verifyClock < w.turns(k).markerClock + VERIFY_MS)
      case _ => false
  {
    FirstMarkerIsFirst(w, i + 1);
    if EndReport(w, i).reason == TimedOut && w.mode == Smoke {
      forall k: nat | k <= i && Shows(w, k) ensures w.turns(i).verifyClock < w.turns(k).markerClock + VERIFY_MS {
        var first := FirstMarker(w, i + 1);
        assert first == Some(first.value) && !LongVerified(w, i);
        ClocksGrow(w, first.value, k);
      }
    }
    if EndReport(w, i).reason == TimedOut {
      forall k: nat | k <= i
        ensures First(w, k).Readable? && !First(w, k).panics && w.turns(k).exited.None? && !w.turns(k).stop
      {
        assert k < i ==> Continues(w, k);
      }
    }
  }

  /** The marker is reported as seen exactly when some text the loop read shows it. */
  lemma MarkerIsExact(w: Watch, i: nat)
    requires EndsIn(w, i)
    ensures EndReport(w, i).markerSeen <==>
      (exists k: nat :: k <= i && Shows(w, k))
      || (LastText(w, i).Some? && w.marker.Some? && EndReport(w, i).reason in {GuestExit, UnverifiedExit}
          && Contains(LastText(w, i).value, w.marker.value))
  {
    FirstMarkerIsFirst(w, i);
    FirstMarkerIsFirst(w, i + 1);
  }

  /** A pattern without a line break is found in both logs together exactly if it is in one. */
  lemma LogsAreSearched(out: string, err: string, pattern: string)
    requires |out| + |err| <= MAX_LOG_BYTES && '\n' !in pattern
    ensures ReadTranscript(out, err).Some?
    ensures Contains(ReadTranscript(out, err).value, pattern) <==> Contains(out, pattern) || Contains(err, pattern)
  {
    var text := out + "\n" + err;
    if i :| 0 <= i <= |out| && StartsWith(out[i..], pattern) {
      assert text[i..][..|pattern|] == out[i..][..|pattern|];
    }
    if i :| 0 <= i <= |err| && StartsWith(err[i..], pattern) {
      assert text[|out| + 1 + i..] == err[i..];
    }
    if i :| 0 <= i <= |text| && StartsWith(text[i..], pattern) {
      FoundInOneLog(out, err, pattern, i);
    }
  }

  lemma FoundInOneLog(out: string, err: string, pattern: string, i: nat)
    requires '\n' !in pattern && i <= |out| + 1 + |err| && StartsWith((out + "\n" + err)[i..], pattern)
    ensures Contains(out, pattern) || Contains(err, pattern)
  {
    var text := out + "\n" + err;
    if |out| < i {
      assert text[i..] == err[i - |out| - 1..];
    } else if i + |pattern| <= |out| {
      assert out[i..][..|pattern|] == text[i..][..|pattern|];
    } else {
      BreakIsFound(text, pattern, i, |out|);
      assert false;
    }
  }

  lemma BreakIsFound(text: string, pattern: string, i: nat, at: nat)
    requires i <= at < i + |pattern| && i <= |text| && StartsWith(text[i..], pattern)
    ensures at < |text| && text[at] in pattern
  {
    assert text[i..][..|pattern|][at - i] == text[at];
  }

  lemma PanicIsOneLine()
    ensures '\n' !in PANIC
  {
  }

  /** A look at the logs reports a panic in either of them, and the marker if it is a line of text,
      unless together they are too long to be read. */
  lemma LookIsExact(out: string, err: string, marker: Option<string>)
    ensures LookAt(out, err, marker).TooLong? <==> |out| + |err| > MAX_LOG_BYTES
    ensures var look := LookAt(out, err, marker);
      look.Readable? ==>
        && (look.panics <==> Contains(out, PANIC) || Contains(err, PANIC))
        && (marker.None? ==> !look.shows)
        && (marker.Some? && '\n' !in marker.value ==>
              (look.shows <==> Contains(out, marker.value) || Contains(err, marker.value)))
  {
    if |out| + |err| <= MAX_LOG_BYTES {
      PanicIsOneLine();
      LogsAreSearched(out, err, PANIC);
      if marker.Some? && '\n' !in marker.value {
        LogsAreSearched(out, err, marker.value);
      }
    }
  }

  /** The loop gets to see an exit in a turn whose first text is readable and shows no panic. Then
      the report has the code of that exit, whatever else it says; otherwise it has none. */
  lemma ExitCodeIsReported(w: Watch, i: nat)
    requires EndsIn(w, i)
    ensures EndReport(w, i).code
         == if First(w, i).Readable? && !First(w, i).panics && w.turns(i).exited.Some?
            then w.turns(i).exited.value.code else None
    ensures EndReport(w, i).reason in {GuestExit, UnverifiedExit} ==>
      w.turns(i).exited.Some? && EndReport(w, i).code == w.turns(i).exited.value.code
  {
  }
}
