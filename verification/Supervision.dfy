/** The poll loop inside the registry protocol: how a watched run ends is one of the ends that the
    protocol lets a supervisor have, and what is saved of it is what was reported. */
module Supervision {
  import opened Wrappers
  import opened Registry
  import opened RegistryInvariant
  import Runner

  /** The supervisor of a run that is watched up to turn i: the runtime was started, and the marker
      is announced as soon as a text shows it. */
  predicate Watches(sup: Sup, w: Runner.Watch, i: nat) {
    sup.started && sup.verified == Runner.Seen(w, i + 1)
  }

  function EndOf(r: Runner.Report): Edit {
    Finish(Report(r.success, r.markerSeen))
  }

  lemma ReportShowsAnnounced(w: Runner.Watch, i: nat)
    requires Runner.EndsIn(w, i)
    ensures Runner.Seen(w, i + 1) ==> Runner.EndReport(w, i).markerSeen
  {
    Runner.FirstMarkerIsFirst(w, i);
    Runner.FirstMarkerIsFirst(w, i + 1);
  }

  /** A watched run may end in the protocol as its report says: the report shows an announced
      marker. Saving it moves the run to Stopped or Failed as the report succeeds or not, and
      records the marker as reported. */
  lemma WatchedRunEnds(w: Runner.Watch, i: nat, s: State, p: Pid, sup: Sup)
    requires Runner.EndsIn(w, i) && Watches(sup, w, i) && ProcOf(s, p) == Supervising(sup)
    ensures var r := Runner.EndReport(w, i);
      ProcOf(Step(s, p, End(Report(r.success, r.markerSeen))), p) == SaveWait(sup, EndOf(r))
    ensures forall stored: RunState :: Matches(sup, stored) ==>
      var r := Runner.EndReport(w, i); var saved := Edited(stored, EndOf(r));
      && saved.state == (if r.success then Stopped else Failed) && saved.verified == r.markerSeen
      && (stored.verified ==> saved.verified)
  {
    ReportShowsAnnounced(w, i);
  }

  /** A run stopped by request ends as the protocol ends it when it polls the request. */
  lemma StoppedRunEnds(w: Runner.Watch, i: nat, s: State, p: Pid, sup: Sup)
    requires Runner.EndsIn(w, i) && Watches(sup, w, i) && ProcOf(s, p) == Supervising(sup)
    requires Runner.EndReport(w, i).reason == Runner.StopRequested
    requires sup.name in s.dirs && s.dirs[sup.name].stop == Some(sup.run)
    ensures ProcOf(Step(s, p, PollStop), p) == SaveWait(sup, EndOf(Runner.EndReport(w, i)))
  {
  }
}
