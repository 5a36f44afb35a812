/** The playback-update reconciliation state machine as a function on
    values: what one update, one timer expiry or one incoming frame does to
    the reconciliation state, which handler calls it makes and which
    requests it sends. The class in CiderWebsocket is proved against it. */
module Reconciler {
  import opened Messages

  /** `lastTrackId`, whether the "no id found" stop timer is pending, and the
      pending backfill timer together with the payload its callback holds. */
  datatype State = State(
    lastTrackId: Option<string>,
    stopPending: bool,
    pendingBackfill: Option<Payload>)

  /** The module-level state as the script loads it: every variable undefined. */
  const Initial: State := State(None, false, None)

  /** The three handler lists, in registration order. */
  datatype Registry = Registry(
    trackChanged: seq<HandlerId>,
    timeline: seq<HandlerId>,
    stop: seq<HandlerId>)

  /** The new state, the handler calls made and the requests sent. */
  datatype Outcome = Outcome(state: State, emitted: seq<Emission>, sent: seq<Request>)

  function Unchanged(s: State): Outcome {
    Outcome(s, [], [])
  }

  /** A payload whose `playParams.id` can be read (otherwise line 89 throws). */
  predicate HasId(p: Payload) {
    p.playParams.Some?
  }

  function IdOf(p: Payload): Option<string>
    requires HasId(p)
  {
    p.playParams.value.id
  }

  predicate IsSentinel(p: Payload) {
    HasId(p) && IdOf(p) == Some(NoIdFound)
  }

  /** Artwork present with a URL, or attributes already marked complete.
      A payload without an `artwork` object is neither: line 127 throws on it. */
  predicate IsComplete(p: Payload) {
    p.artwork.Some? && (p.artwork.value.hasUrl || p.validAttributes)
  }

  predicate IsIncomplete(p: Payload) {
    p.artwork.Some? && !p.artwork.value.hasUrl && !p.validAttributes
  }

  function MarkedValid(p: Payload): Payload {
    p.(validAttributes := true)
  }

  /** The timeline fan-out for `p`: each timeline handler once, in order,
      with `position = duration - remaining`, if the remaining time is truthy. */
  function Timeline(reg: Registry, p: Payload): (r: seq<Emission>)
    ensures Truthy(p.remainingTime) ==>
      |r| == |reg.timeline| &&
      forall i :: 0 <= i < |r| ==>
        r[i].handler == reg.timeline[i] &&
        r[i].event == TimelineUpdate(p.durationInMillis, p.durationInMillis - p.remainingTime.value)
    ensures !Truthy(p.remainingTime) ==> r == []
  {
    if Truthy(p.remainingTime) then
      Broadcast(reg.timeline, TimelineUpdate(p.durationInMillis, p.durationInMillis - p.remainingTime.value))
    else []
  }

  /** `playbackStateUpdate(p)`. */
  function Step(s: State, reg: Registry, p: Payload): (r: Outcome)
    ensures |r.sent| <= 1
    ensures r.sent != [] ==> r.emitted == [] && HasId(p) && r.sent == [BackfillRequest(IdOf(p))]
  {
    if !HasId(p) then Unchanged(s)
    else if IdOf(p) == Some(NoIdFound) then
      if s.stopPending then Unchanged(s)
      else Unchanged(s.(stopPending := true, lastTrackId := Some(NoIdFound)))
    else
      var s1 := s.(stopPending := false);
      if IdOf(p) == s.lastTrackId then Outcome(s1, Timeline(reg, p), [])
      else if p.artwork.None? then Unchanged(s1)
      else if IsIncomplete(p) then
        if s.pendingBackfill.Some? then Unchanged(s1)
        else Outcome(s1.(pendingBackfill := Some(p)), [], [BackfillRequest(IdOf(p))])
      else
        Outcome(s1.(pendingBackfill := None, lastTrackId := IdOf(p)),
                Broadcast(reg.trackChanged, TrackChanged(p)) + Timeline(reg, p), [])
  }

  /** Expiry of the "no id found" timer: every stop handler is called once,
      in registration order, and the timer clears; nothing else changes. */
  function FireStop(s: State, reg: Registry): (r: Outcome)
    requires s.stopPending
    ensures |r.emitted| == |reg.stop|
    ensures forall i :: 0 <= i < |reg.stop| ==> r.emitted[i] == Emission(reg.stop[i], PlaybackStop)
    ensures r.sent == [] && r.state == s.(stopPending := false)
  {
    Outcome(s.(stopPending := false), Broadcast(reg.stop, PlaybackStop), [])
  }

  /** Expiry of the backfill timer as its callback is evidently meant to
      work: re-enter with the held payload marked complete, then clear the timer.
      Under `Inv` the held payload has an id and an artwork object, so the
      re-entry cannot throw before the timer is cleared. */
  function FireBackfill(s: State, reg: Registry): (r: Outcome)
    requires Inv(s) && s.pendingBackfill.Some?
    ensures r.state.pendingBackfill.None? && r.sent == []
  {
    var o := Step(s, reg, MarkedValid(s.pendingBackfill.value));
    Outcome(o.state.(pendingBackfill := None), o.emitted, o.sent)
  }

  /** Expiry of the backfill timer as written: the held payload is marked
      complete, then `playbackStateUpdate(true)` throws reading
      `true.playParams.id`, so the timer variable is never cleared. The
      timer has still run: applying this more than once to the same pending
      backfill models no behaviour of the source. */
  function FireBackfillAsWritten(s: State, reg: Registry): (r: Outcome)
    requires s.pendingBackfill.Some?
    ensures r.emitted == [] && r.sent == []
    ensures r.state.pendingBackfill.Some? && r.state.pendingBackfill.value.validAttributes
    ensures r.state.lastTrackId == s.lastTrackId && r.state.stopPending == s.stopPending
  {
    Unchanged(s.(pendingBackfill := Some(MarkedValid(s.pendingBackfill.value))))
  }

  /** `socket.onmessage` on a parsed frame: a playback update is one update,
      a song response is one update marked complete, any other frame changes
      nothing. */
  function Receive(s: State, reg: Registry, f: Frame): (r: Outcome)
    ensures f.kind == "playbackStateUpdate" ==> r == Step(s, reg, f.payload)
    ensures f.kind == "musickitapi.song" ==> r == Step(s, reg, MarkedValid(f.payload))
    ensures f.kind != "playbackStateUpdate" && f.kind != "musickitapi.song" ==> r == Unchanged(s)
  {
    match Route(f)
    case Some(p) => Step(s, reg, p)
    case None => Unchanged(s)
  }

  /** A sequence of updates delivered one after the other. */
  function Run(s: State, reg: Registry, ps: seq<Payload>): Outcome
    decreases |ps|
  {
    if ps == [] then Unchanged(s)
    else
      var o := Step(s, reg, ps[0]);
      var rest := Run(o.state, reg, ps[1..]);
      Outcome(rest.state, o.emitted + rest.emitted, o.sent + rest.sent)
  }

  /** The timeline fan-outs of each update of `ps`, in order. */
  function TimelineAll(reg: Registry, ps: seq<Payload>): seq<Emission>
    decreases |ps|
  {
    if ps == [] then [] else Timeline(reg, ps[0]) + TimelineAll(reg, ps[1..])
  }

  /** The payload a pending backfill timer holds is an incomplete update for
      a real track that is not the current one. */
  predicate Inv(s: State) {
    s.pendingBackfill.Some? ==>
      var c := s.pendingBackfill.value;
      HasId(c) && IdOf(c) != Some(NoIdFound) && IdOf(c) != s.lastTrackId && IsIncomplete(c)
  }
}
