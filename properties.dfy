/** What the reconciler promises, stated on the functions of Reconciler. */
module ReconcilerProperties {
  import opened Messages
  import opened Reconciler

  /** An update that has no `playParams` throws before touching anything. */
  lemma MissingPlayParamsIsNoOp(s: State, reg: Registry, p: Payload)
    requires p.playParams.None?
    ensures Step(s, reg, p) == Unchanged(s)
  {
  }

  /** "No id found" while the stop timer is pending: nothing happens at all. */
  lemma SentinelWhileStopPendingIsNoOp(s: State, reg: Registry, p: Payload)
    requires IsSentinel(p) && s.stopPending
    ensures Step(s, reg, p) == Unchanged(s)
  {
  }

  /** "No id found" with no stop timer pending: no call, no request, exactly
      one stop timer started, `lastTrackId` set to the sentinel, the backfill
      timer untouched. */
  lemma SentinelStartsStopTimer(s: State, reg: Registry, p: Payload)
    requires IsSentinel(p) && !s.stopPending
    ensures var o := Step(s, reg, p);
      o.emitted == [] && o.sent == [] &&
      o.state.stopPending &&
      o.state.lastTrackId == Some(NoIdFound) &&
      o.state.pendingBackfill == s.pendingBackfill
  {
  }

  /** Any update with a real id cancels a pending stop timer. */
  lemma RealIdCancelsStop(s: State, reg: Registry, p: Payload)
    requires HasId(p) && !IsSentinel(p)
    ensures !Step(s, reg, p).state.stopPending
  {
  }

  /** The stop timer is only ever started by a "no id found" update. */
  lemma OnlySentinelStartsStop(s: State, reg: Registry, p: Payload)
    requires !s.stopPending && !IsSentinel(p)
    ensures !Step(s, reg, p).state.stopPending
  {
  }

  /** An update is never itself a stop: handler calls of a step are never PlaybackStop. */
  lemma StepNeverStops(s: State, reg: Registry, p: Payload)
    ensures forall i :: 0 <= i < |Step(s, reg, p).emitted| ==> !Step(s, reg, p).emitted[i].event.PlaybackStop?
  {
  }

  /** "No id found" followed by a real id: the stop timer is gone, so it can
      no longer fire, and neither update called a stop handler. */
  lemma SentinelThenRealIdNeverStops(s: State, reg: Registry, sentinel: Payload, p: Payload)
    requires IsSentinel(sentinel) && HasId(p) && !IsSentinel(p)
    ensures var o := Run(s, reg, [sentinel, p]);
      !o.state.stopPending &&
      forall i :: 0 <= i < |o.emitted| ==> !o.emitted[i].event.PlaybackStop?
  {
    var o1 := Step(s, reg, sentinel);
    var o2 := Step(o1.state, reg, p);
    StepNeverStops(s, reg, sentinel);
    StepNeverStops(o1.state, reg, p);
    assert [sentinel, p][1..] == [p];
    assert Run(o1.state, reg, [p]) == o2 by {
      assert [p][1..] == [];
    }
    assert o1.emitted == [];
  }

  /** An update for the current track never calls the track-changed handlers
      and never moves `lastTrackId`; it calls each timeline handler once with
      `position = duration - remaining` if its remaining time is truthy, and
      calls nothing otherwise. */
  lemma SameTrackOnlyUpdatesTimeline(s: State, reg: Registry, p: Payload)
    requires HasId(p) && !IsSentinel(p) && IdOf(p) == s.lastTrackId
    ensures var o := Step(s, reg, p);
      o.state == s.(stopPending := false) && o.sent == [] &&
      (Truthy(p.remainingTime) ==>
        |o.emitted| == |reg.timeline| &&
        forall i :: 0 <= i < |reg.timeline| ==>
          o.emitted[i] == Emission(reg.timeline[i],
            TimelineUpdate(p.durationInMillis, p.durationInMillis - p.remainingTime.value))) &&
      (!Truthy(p.remainingTime) ==> o.emitted == [])
  {
  }

  /** Re-delivering any update leaves the state as the first delivery left
      it, sends nothing, and calls at most the timeline handlers; with no
      truthy remaining time it calls nothing at all. */
  lemma RedeliveryIsIdempotent(s: State, reg: Registry, p: Payload)
    ensures var o1 := Step(s, reg, p); var o2 := Step(o1.state, reg, p);
      o2.state == o1.state && o2.sent == [] &&
      (o2.emitted == [] || o2.emitted == Timeline(reg, p)) &&
      (!Truthy(p.remainingTime) ==> o2.emitted == [])
  {
  }

  /** A new track lacking artwork and not marked complete calls nothing and
      keeps `lastTrackId`; it asks for the complete attributes and starts the
      backfill timer unless a backfill is already pending, in which case it
      changes nothing but the stop timer. */
  lemma IncompleteNewTrackRequestsBackfill(s: State, reg: Registry, p: Payload)
    requires HasId(p) && !IsSentinel(p) && IdOf(p) != s.lastTrackId && IsIncomplete(p)
    ensures var o := Step(s, reg, p);
      o.emitted == [] && o.state.lastTrackId == s.lastTrackId && !o.state.stopPending &&
      (s.pendingBackfill.Some? ==> o.sent == [] && o.state == s.(stopPending := false)) &&
      (s.pendingBackfill.None? ==>
        o.sent == [MusickitApi("song", IdOf(p), map[], true)] &&
        o.state.pendingBackfill == Some(p))
  {
  }

  /** A backfill pending for one candidate swallows a second, different
      incomplete candidate: no request for it, and the timer still holds the
      first one. */
  lemma SecondCandidateIgnoredDuringBackfill(s: State, reg: Registry, p: Payload)
    requires Inv(s) && s.pendingBackfill.Some?
    requires HasId(p) && !IsSentinel(p) && IdOf(p) != s.lastTrackId && IsIncomplete(p)
    requires IdOf(p) != IdOf(s.pendingBackfill.value)
    ensures var o := Step(s, reg, p);
      o.sent == [] && o.emitted == [] && o.state.pendingBackfill == s.pendingBackfill
  {
  }

  /** A complete update for a new track clears any pending backfill (for
      whichever track), makes the track current, calls every track-changed
      handler in order, and then the timeline handlers iff its remaining
      time is truthy. */
  lemma CompleteNewTrackChangesTrack(s: State, reg: Registry, p: Payload)
    requires HasId(p) && !IsSentinel(p) && IdOf(p) != s.lastTrackId && IsComplete(p)
    ensures var o := Step(s, reg, p);
      o.state == State(IdOf(p), false, None) && o.sent == [] &&
      o.emitted == Broadcast(reg.trackChanged, TrackChanged(p)) + Timeline(reg, p) &&
      (Truthy(p.remainingTime) ==> |o.emitted| == |reg.trackChanged| + |reg.timeline|) &&
      (!Truthy(p.remainingTime) ==> |o.emitted| == |reg.trackChanged|)
  {
  }

  /** A new track whose payload has no `artwork` object throws after the
      stop timer was cleared: only that stays done. */
  lemma MissingArtworkOnlyCancelsStop(s: State, reg: Registry, p: Payload)
    requires HasId(p) && !IsSentinel(p) && IdOf(p) != s.lastTrackId && p.artwork.None?
    ensures Step(s, reg, p) == Unchanged(s.(stopPending := false))
  {
  }

  /** `lastTrackId` moves only at the sentinel branch (to the sentinel) or
      at a track change (to the new id). */
  lemma LastTrackIdChangesOnlyOnSentinelOrTrackChange(s: State, reg: Registry, p: Payload)
    ensures var o := Step(s, reg, p);
      o.state.lastTrackId != s.lastTrackId <==>
        (IsSentinel(p) && !s.stopPending && s.lastTrackId != Some(NoIdFound)) ||
        (HasId(p) && !IsSentinel(p) && IdOf(p) != s.lastTrackId && IsComplete(p))
    ensures var o := Step(s, reg, p);
      o.state.lastTrackId != s.lastTrackId ==>
        o.state.lastTrackId == Some(NoIdFound) || o.state.lastTrackId == IdOf(p)
  {
  }

  /** Handlers are only ever called for the track that is then current: a
      step that calls anything leaves `lastTrackId` at the update's id. */
  lemma EmissionsOnlyForCurrentTrack(s: State, reg: Registry, p: Payload)
    ensures var o := Step(s, reg, p);
      o.emitted != [] ==> HasId(p) && !IsSentinel(p) && o.state.lastTrackId == IdOf(p)
  {
  }

  /** Every step keeps the backfill invariant. */
  lemma StepKeepsInv(s: State, reg: Registry, p: Payload)
    requires Inv(s)
    ensures Inv(Step(s, reg, p).state)
  {
  }

  lemma FireStopKeepsInv(s: State, reg: Registry)
    requires Inv(s) && s.stopPending
    ensures Inv(FireStop(s, reg).state)
  {
  }

  /** The backfill timer publishes the held track: it becomes current, the
      track-changed handlers get the payload marked complete, and the timer
      is cleared. */
  lemma FireBackfillPublishesCandidate(s: State, reg: Registry)
    requires Inv(s) && s.pendingBackfill.Some?
    ensures var c := s.pendingBackfill.value; var o := FireBackfill(s, reg);
      o.state == State(IdOf(c), false, None) && o.sent == [] &&
      o.emitted == Broadcast(reg.trackChanged, TrackChanged(MarkedValid(c))) + Timeline(reg, c) &&
      Inv(o.state)
  {
    var c := s.pendingBackfill.value;
    CompleteNewTrackChangesTrack(s, reg, MarkedValid(c));
  }

  /** The backfill race: an incomplete new track is published exactly once,
      either by the song response for it (after which no backfill timer is
      left to fire) or by the timer (after which a late song response only
      updates the timeline). */
  lemma BackfillPublishesExactlyOnce(s: State, reg: Registry, p: Payload, response: Payload)
    requires Inv(s) && s.pendingBackfill.None?
    requires HasId(p) && !IsSentinel(p) && IdOf(p) != s.lastTrackId && IsIncomplete(p)
    requires HasId(response) && IdOf(response) == IdOf(p) && response.artwork.Some?
    ensures var o1 := Step(s, reg, p);
      o1.emitted == [] && o1.state.pendingBackfill == Some(p)
    ensures var o1 := Step(s, reg, p);
      var o2 := Receive(o1.state, reg, Frame("musickitapi.song", response));
      o2.state.pendingBackfill.None? && o2.state.lastTrackId == IdOf(p) &&
      o2.emitted == Broadcast(reg.trackChanged, TrackChanged(MarkedValid(response))) + Timeline(reg, response)
    ensures var o1 := Step(s, reg, p);
      var o2 := FireBackfill(o1.state, reg);
      var o3 := Receive(o2.state, reg, Frame("musickitapi.song", response));
      o2.emitted == Broadcast(reg.trackChanged, TrackChanged(MarkedValid(p))) + Timeline(reg, p) &&
      o3.state.lastTrackId == IdOf(p) && o3.state.pendingBackfill.None? &&
      o3.emitted == Timeline(reg, response)
  {
    var o1 := Step(s, reg, p);
    IncompleteNewTrackRequestsBackfill(s, reg, p);
    StepKeepsInv(s, reg, p);
    var pending := o1.state;
    assert pending.pendingBackfill == Some(p) && pending.lastTrackId == s.lastTrackId;
    var marked := MarkedValid(response);
    var song := Frame("musickitapi.song", response);

    // the response arrives first
    CompleteNewTrackChangesTrack(pending, reg, marked);

    // the timer fires first, the response comes late
    FireBackfillPublishesCandidate(pending, reg);
    var o2 := FireBackfill(pending, reg);
    assert o2.state == State(IdOf(p), false, None);
    SameTrackOnlyUpdatesTimeline(o2.state, reg, marked);
    assert Timeline(reg, marked) == Timeline(reg, response);
  }

  lemma RunCons(s: State, reg: Registry, ps: seq<Payload>)
    requires ps != []
    ensures var o := Step(s, reg, ps[0]); var rest := Run(o.state, reg, ps[1..]);
      Run(s, reg, ps) == Outcome(rest.state, o.emitted + rest.emitted, o.sent + rest.sent)
  {
  }

  /** Updates that all name the current (real) track keep it current, send
      nothing, and only call the timeline handlers, once per update with a
      truthy remaining time. */
  lemma {:induction false} SameTrackRun(s: State, reg: Registry, ps: seq<Payload>)
    requires s.lastTrackId != Some(NoIdFound)
    requires forall i :: 0 <= i < |ps| ==> HasId(ps[i]) && IdOf(ps[i]) == s.lastTrackId
    decreases |ps|
    ensures var o := Run(s, reg, ps);
      o.state.lastTrackId == s.lastTrackId &&
      o.state.pendingBackfill == s.pendingBackfill &&
      o.state.stopPending == (s.stopPending && ps == []) &&
      o.sent == [] && o.emitted == TimelineAll(reg, ps)
  {
    if ps != [] {
      var o := Step(s, reg, ps[0]);
      SameTrackOnlyUpdatesTimeline(s, reg, ps[0]);
      SameTrackRun(o.state, reg, ps[1..]);
    }
  }

  /** A stream of updates for one track, the first complete: the
      track-changed handlers are called once, for the first update, and the
      timeline handlers once for each update with a truthy remaining time. */
  lemma {:induction false} ConstantTrackChangesOnce(s: State, reg: Registry, ps: seq<Payload>)
    requires |ps| > 0 && HasId(ps[0]) && !IsSentinel(ps[0]) && IsComplete(ps[0])
    requires IdOf(ps[0]) != s.lastTrackId
    requires forall i :: 0 <= i < |ps| ==> HasId(ps[i]) && IdOf(ps[i]) == IdOf(ps[0])
    ensures var o := Run(s, reg, ps);
      o.state == State(IdOf(ps[0]), false, None) && o.sent == [] &&
      o.emitted == Broadcast(reg.trackChanged, TrackChanged(ps[0])) + TimelineAll(reg, ps)
  {
    var tail := ps[1..];
    var id := IdOf(ps[0]);
    assert forall i :: 0 <= i < |tail| ==> HasId(tail[i]) && IdOf(tail[i]) == id by {
      forall i | 0 <= i < |tail| ensures HasId(tail[i]) && IdOf(tail[i]) == id {
        assert tail[i] == ps[i + 1];
      }
    }
    var o := Step(s, reg, ps[0]);
    CompleteNewTrackChangesTrack(s, reg, ps[0]);
    var first := State(id, false, None);
    assert o == Outcome(first, Broadcast(reg.trackChanged, TrackChanged(ps[0])) + Timeline(reg, ps[0]), []);
    SameTrackRun(first, reg, tail);
    RunCons(s, reg, ps);
    var tc := Broadcast(reg.trackChanged, TrackChanged(ps[0]));
    assert TimelineAll(reg, ps) == Timeline(reg, ps[0]) + TimelineAll(reg, tail);
    Concat3(tc, Timeline(reg, ps[0]), TimelineAll(reg, tail));
  }

  lemma Concat3<T>(a: seq<T>, b: seq<T>, c: seq<T>)
    ensures (a + b) + c == a + (b + c)
  {
  }

  /** The worked scenario: "no id found", then a complete update for track
      "A" with 1000 ms left of 3000 ms: no stop, one track change for "A",
      one timeline update at position 2000. */
  lemma SentinelThenTrackScenario(reg: Registry, sentinel: Payload, a: Payload)
    requires sentinel.playParams == Some(PlayParams(Some(NoIdFound)))
    requires a == Payload(Some(PlayParams(Some("A"))), 3000, Some(1000), Some(Artwork(true)), false)
    ensures var o := Run(Initial, reg, [sentinel, a]);
      o.state == State(Some("A"), false, None) && o.sent == [] &&
      o.emitted == Broadcast(reg.trackChanged, TrackChanged(a)) + Broadcast(reg.timeline, TimelineUpdate(3000, 2000))
  {
    var o1 := Step(Initial, reg, sentinel);
    var o2 := Step(o1.state, reg, a);
    assert o1 == Unchanged(State(Some(NoIdFound), true, None));
    CompleteNewTrackChangesTrack(o1.state, reg, a);
    assert o2.emitted == Broadcast(reg.trackChanged, TrackChanged(a)) + Broadcast(reg.timeline, TimelineUpdate(3000, 2000));
    assert [sentinel, a][1..] == [a];
    assert Run(o1.state, reg, [a]) == o2 by {
      assert [a][1..] == [];
    }
  }

  /** The backfill timer as written never clears itself and calls nothing:
      after it fires for "A", a later incomplete update for "B" is never
      requested nor published. */
  lemma BackfillAsWrittenStaysPending(reg: Registry, a: Payload, b: Payload)
    requires a == Payload(Some(PlayParams(Some("A"))), 3000, Some(1000), Some(Artwork(false)), false)
    requires b == Payload(Some(PlayParams(Some("B"))), 4000, Some(4000), Some(Artwork(false)), false)
    ensures var o1 := Step(Initial, reg, a);
      var o2 := FireBackfillAsWritten(o1.state, reg);
      var o3 := Step(o2.state, reg, b);
      o1.sent == [BackfillRequest(Some("A"))] &&
      o2.emitted == [] && o2.state.pendingBackfill.Some? && o2.state.lastTrackId == None &&
      o3.sent == [] && o3.emitted == [] && o3.state.lastTrackId == None
  {
  }

  /** The corrected timer on the same input: "A" is published when the timer
      fires, and the later update for "B" gets its own backfill request. */
  lemma BackfillCorrectedPublishes(reg: Registry, a: Payload, b: Payload)
    requires a == Payload(Some(PlayParams(Some("A"))), 3000, Some(1000), Some(Artwork(false)), false)
    requires b == Payload(Some(PlayParams(Some("B"))), 4000, Some(4000), Some(Artwork(false)), false)
    ensures var o1 := Step(Initial, reg, a);
      var o2 := FireBackfill(o1.state, reg);
      var o3 := Step(o2.state, reg, b);
      o2.emitted == Broadcast(reg.trackChanged, TrackChanged(MarkedValid(a))) + Timeline(reg, a) &&
      o2.state == State(Some("A"), false, None) &&
      o3.sent == [BackfillRequest(Some("B"))]
  {
    FireBackfillPublishesCandidate(Step(Initial, reg, a).state, reg);
  }

  /** The backfill timer as written leaves a backfill pending for good: after
      it fires, every incomplete candidate for a new track is neither
      requested nor published, until a complete update arrives. */
  lemma BackfillAsWrittenBlocksCandidates(s: State, reg: Registry, p: Payload)
    requires s.pendingBackfill.Some?
    requires HasId(p) && !IsSentinel(p) && IdOf(p) != s.lastTrackId && IsIncomplete(p)
    ensures var o1 := FireBackfillAsWritten(s, reg); var o2 := Step(o1.state, reg, p);
      o2.sent == [] && o2.emitted == [] &&
      o2.state.pendingBackfill == o1.state.pendingBackfill && o2.state.lastTrackId == s.lastTrackId
  {
  }

  /** Nothing ties a song response to the backfill that asked for it. While
      "A" waits for its backfill, a complete update for another track "C"
      becomes current and clears A's backfill; the late response for "A" then
      makes "A" current again and calls the track-changed handlers with it,
      although "C" is playing. */
  lemma StaleBackfillResponseRepublishes(s: State, reg: Registry, a: Payload, c: Payload, response: Payload)
    requires Inv(s) && s.pendingBackfill == Some(a)
    requires HasId(c) && !IsSentinel(c) && IdOf(c) != s.lastTrackId && IsComplete(c) && IdOf(c) != IdOf(a)
    requires HasId(response) && IdOf(response) == IdOf(a) && response.artwork.Some?
    ensures var o1 := Step(s, reg, c);
      var o2 := Receive(o1.state, reg, Frame("musickitapi.song", response));
      o1.state.lastTrackId == IdOf(c) && o1.state.pendingBackfill.None? &&
      o2.state.lastTrackId == IdOf(a) &&
      o2.emitted == Broadcast(reg.trackChanged, TrackChanged(MarkedValid(response))) + Timeline(reg, response)
  {
    var o1 := Step(s, reg, c);
    CompleteNewTrackChangesTrack(s, reg, c);
    CompleteNewTrackChangesTrack(o1.state, reg, MarkedValid(response));
  }

  /** The same race after the timer already published "A": the late response
      publishes "A" a second time once "C" has become current. */
  lemma StaleBackfillResponseAfterTimerPublishesTwice(s: State, reg: Registry, c: Payload, response: Payload)
    requires Inv(s) && s.pendingBackfill.Some?
    requires var a := s.pendingBackfill.value;
      HasId(c) && !IsSentinel(c) && IsComplete(c) && IdOf(c) != IdOf(a)
    requires HasId(response) && IdOf(response) == IdOf(s.pendingBackfill.value) && response.artwork.Some?
    ensures var a := s.pendingBackfill.value;
      var o1 := FireBackfill(s, reg);
      var o2 := Step(o1.state, reg, c);
      var o3 := Receive(o2.state, reg, Frame("musickitapi.song", response));
      o1.emitted == Broadcast(reg.trackChanged, TrackChanged(MarkedValid(a))) + Timeline(reg, a) &&
      o2.state.lastTrackId == IdOf(c) &&
      o3.state.lastTrackId == IdOf(a) &&
      o3.emitted == Broadcast(reg.trackChanged, TrackChanged(MarkedValid(response))) + Timeline(reg, response)
  {
    var o1 := FireBackfill(s, reg);
    FireBackfillPublishesCandidate(s, reg);
    CompleteNewTrackChangesTrack(o1.state, reg, c);
    var o2 := Step(o1.state, reg, c);
    CompleteNewTrackChangesTrack(o2.state, reg, MarkedValid(response));
  }

  /** The same race with the timer as written: the timer publishes nothing,
      "C" becomes current, and the late response for "A" publishes "A" once,
      over "C". */
  lemma StaleBackfillResponseAfterTimerAsWritten(s: State, reg: Registry, c: Payload, response: Payload)
    requires Inv(s) && s.pendingBackfill.Some?
    requires var a := s.pendingBackfill.value;
      HasId(c) && !IsSentinel(c) && IsComplete(c) && IdOf(c) != IdOf(a) && IdOf(c) != s.lastTrackId
    requires HasId(response) && IdOf(response) == IdOf(s.pendingBackfill.value) && response.artwork.Some?
    ensures var a := s.pendingBackfill.value;
      var o1 := FireBackfillAsWritten(s, reg);
      var o2 := Step(o1.state, reg, c);
      var o3 := Receive(o2.state, reg, Frame("musickitapi.song", response));
      o1.emitted == [] &&
      o2.state.lastTrackId == IdOf(c) &&
      o2.emitted == Broadcast(reg.trackChanged, TrackChanged(c)) + Timeline(reg, c) &&
      o3.state.lastTrackId == IdOf(a) &&
      o3.emitted == Broadcast(reg.trackChanged, TrackChanged(MarkedValid(response))) + Timeline(reg, response)
  {
    var o1 := FireBackfillAsWritten(s, reg);
    CompleteNewTrackChangesTrack(o1.state, reg, c);
    var o2 := Step(o1.state, reg, c);
    CompleteNewTrackChangesTrack(o2.state, reg, MarkedValid(response));
  }
}
