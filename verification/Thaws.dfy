/**
 What a thaw notification does, undisturbed: it reaches every outage recorded while the
 project was frozen, and a second one changes nothing (back/internal/incident/incident.go:187-202).
 */
module Thaws {
  import opened Outcomes
  import opened Incidents

  /** `after` has the same incidents, but that some were closed or notified. */
  predicate OnlyMarked(before: seq<Incident>, after: seq<Incident>) {
    |after| == |before|
    && forall i :: 0 <= i < |before| ==>
         after[i].(open := before[i].open, notified := before[i].notified) == before[i]
         && (after[i].open ==> before[i].open) && (before[i].notified ==> after[i].notified)
  }

  lemma NotifiedOnlyMarks(s: State, incident: nat, aud: Audience)
    requires incident < |s.incidents|
    ensures OnlyMarked(s.incidents, Notified(s, incident, aud).incidents)
    ensures forall i :: 0 <= i < |s.incidents| ==>
              Notified(s, incident, aud).incidents[i].open == s.incidents[i].open
    ensures Notified(s, incident, aud).frozen == s.frozen && Notified(s, incident, aud).monitors == s.monitors
  {
  }

  lemma {:induction false} ThawOnlyMarks(s: State, project: nat, aud: Audience, n: nat)
    requires n <= |s.incidents|
    ensures OnlyMarked(s.incidents, ThawedUpTo(s, project, aud, n).incidents)
    ensures ThawedUpTo(s, project, aud, n).frozen == s.frozen && ThawedUpTo(s, project, aud, n).monitors == s.monitors
    ensures forall i :: n <= i < |s.incidents| ==> ThawedUpTo(s, project, aud, n).incidents[i] == s.incidents[i]
    decreases n
  {
    if n > 0 {
      ThawOnlyMarks(s, project, aud, n - 1);
      NotifiedOnlyMarks(ThawedUpTo(s, project, aud, n - 1), n - 1, aud);
    }
  }

  lemma NotifiedAdds(s: State, incident: nat, aud: Audience, row: Delivery)
    requires incident < |s.incidents|
    ensures s.queue <= Notified(s, incident, aud).queue
    ensures DistinctRows(s.queue) ==> DistinctRows(Notified(s, incident, aud).queue)
    ensures row in Notified(s, incident, aud).queue && row !in s.queue ==>
              row.incident == incident && s.incidents[incident].project !in s.frozen
              && HeardBy(aud, s.incidents[incident].shape, row.channel)
  {
    var inc := s.incidents[incident];
    EnqueueAllAdds(s.queue, incident, inc.shape, aud, |aud.chans|);
  }

  /** The incident is paged to everyone who hears of it. */
  predicate FullyPaged(queue: seq<Delivery>, incident: nat, shape: Shape, aud: Audience) {
    forall i :: 0 <= i < |aud.chans| && Hears(aud, shape, aud.chans[i]) ==>
      HasPage(queue, incident, aud.chans[i].seat.id)
  }

  lemma {:induction false} ThawPages(s: State, project: nat, aud: Audience, n: nat, inc: nat)
    requires n <= |s.incidents| && inc < n && project !in s.frozen
    requires Undelivered(s, s.incidents[inc], project)
    ensures FullyPaged(ThawedUpTo(s, project, aud, n).queue, inc, s.incidents[inc].shape, aud)
    decreases n
  {
    var before := ThawedUpTo(s, project, aud, n - 1);
    ThawOnlyMarks(s, project, aud, n - 1);
    if inc == n - 1 {
      EnqueueAllAdds(before.queue, inc, s.incidents[inc].shape, aud, |aud.chans|);
    } else {
      ThawPages(s, project, aud, n - 1, inc);
      if Undelivered(s, s.incidents[n - 1], project) {
        NotifiedAdds(before, n - 1, aud, Delivery(0, 0, Page));
      }
    }
  }

  /** On a live project, every outage recorded while it was frozen reaches every destination that hears of it. */
  lemma ThawReachesEveryone(s: State, project: nat, aud: Audience, inc: nat)
    requires project !in s.frozen && inc < |s.incidents| && Undelivered(s, s.incidents[inc], project)
    ensures FullyPaged(Next(s, NotifyThawed(project, aud)).queue, inc, s.incidents[inc].shape, aud)
  {
    ThawPages(s, project, aud, |s.incidents|, inc);
  }

  /** A visited incident is notified afterwards, or nobody hears of it. */
  lemma {:induction false} ThawVisits(s: State, project: nat, aud: Audience, n: nat, inc: nat)
    requires n <= |s.incidents| && inc < n && Undelivered(s, s.incidents[inc], project)
    ensures var s' := ThawedUpTo(s, project, aud, n);
            s'.incidents[inc].notified || project in s.frozen || !AnyoneHears(aud, s.incidents[inc].shape, |aud.chans|)
    decreases n
  {
    var before := ThawedUpTo(s, project, aud, n - 1);
    ThawOnlyMarks(s, project, aud, n - 1);
    if inc < n - 1 {
      ThawVisits(s, project, aud, n - 1, inc);
      if Undelivered(s, s.incidents[n - 1], project) {
        NotifiedOnlyMarks(before, n - 1, aud);
      }
    }
  }

  lemma {:induction false} NobodyHears(queue: seq<Delivery>, incident: nat, shape: Shape, aud: Audience, n: nat)
    requires n <= |aud.chans| && !AnyoneHears(aud, shape, |aud.chans|)
    ensures EnqueueAll(queue, incident, shape, aud, n) == queue
    decreases n
  {
    if n > 0 {
      assert !Hears(aud, shape, aud.chans[n - 1]);
      NobodyHears(queue, incident, shape, aud, n - 1);
    }
  }

  lemma {:induction false} NothingLeftToThaw(s: State, project: nat, aud: Audience, n: nat)
    requires n <= |s.incidents|
    requires forall i :: 0 <= i < |s.incidents| && Undelivered(s, s.incidents[i], project) ==>
               project in s.frozen || !AnyoneHears(aud, s.incidents[i].shape, |aud.chans|)
    ensures ThawedUpTo(s, project, aud, n) == s
    decreases n
  {
    if n > 0 {
      NothingLeftToThaw(s, project, aud, n - 1);
      if Undelivered(s, s.incidents[n - 1], project) {
        NobodyHearsUnlessFrozen(s, n - 1, aud);
      }
    }
  }

  lemma NobodyHearsUnlessFrozen(s: State, incident: nat, aud: Audience)
    requires incident < |s.incidents|
    requires s.incidents[incident].project in s.frozen || !AnyoneHears(aud, s.incidents[incident].shape, |aud.chans|)
    ensures Notified(s, incident, aud) == s
  {
    if s.incidents[incident].project !in s.frozen {
      NobodyHears(s.queue, incident, s.incidents[incident].shape, aud, |aud.chans|);
    }
  }

  /** A second NotifyThawed changes nothing. */
  lemma ThawIsIdempotent(s: State, project: nat, aud: Audience)
    ensures var e := NotifyThawed(project, aud); Next(Next(s, e), e) == Next(s, e)
  {
    var s' := Next(s, NotifyThawed(project, aud));
    ThawOnlyMarks(s, project, aud, |s.incidents|);
    forall i | 0 <= i < |s'.incidents| && Undelivered(s', s'.incidents[i], project)
      ensures project in s'.frozen || !AnyoneHears(aud, s'.incidents[i].shape, |aud.chans|)
    {
      assert Undelivered(s, s.incidents[i], project);
      ThawVisits(s, project, aud, |s.incidents|, i);
    }
    NothingLeftToThaw(s', project, aud, |s'.incidents|);
  }
}
