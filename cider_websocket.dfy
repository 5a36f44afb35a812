/** The client script's module-level state and its entry points: the three
    handler registries, the socket callbacks, the reconciler entry point and
    the two timer callbacks, each proved to do what Reconciler specifies. */
module CiderWebsocket {
  import opened Messages
  import opened Reconciler

  class Connection {
    var lastTrackId: Option<string>
    var stopPending: bool
    var pendingBackfill: Option<Payload>

    var onTrackChangedHandlers: seq<HandlerId>
    var onTrackTimelineUpdateHandlers: seq<HandlerId>
    var onPlaybackStopHandlers: seq<HandlerId>

    /** Reconnect timers started by `onclose` and not yet fired. */
    var reconnectsScheduled: nat

    /** Everything sent on the socket, and every handler call, in order. */
    var sent: seq<Request>
    var emitted: seq<Emission>

    function Snapshot(): Reconciler.State
      reads this`lastTrackId, this`stopPending, this`pendingBackfill
    {
      State(lastTrackId, stopPending, pendingBackfill)
    }

    function Handlers(): Registry
      reads this`onTrackChangedHandlers, this`onTrackTimelineUpdateHandlers, this`onPlaybackStopHandlers
    {
      Registry(onTrackChangedHandlers, onTrackTimelineUpdateHandlers, onPlaybackStopHandlers)
    }

    ghost predicate Valid()
      reads this`lastTrackId, this`stopPending, this`pendingBackfill
    {
      Inv(Snapshot())
    }

    constructor ()
      ensures Valid() && Snapshot() == Initial && Handlers() == Registry([], [], [])
      ensures reconnectsScheduled == 0 && sent == [] && emitted == []
    {
      lastTrackId, stopPending, pendingBackfill := None, false, None;
      onTrackChangedHandlers, onTrackTimelineUpdateHandlers, onPlaybackStopHandlers := [], [], [];
      reconnectsScheduled := 0;
      sent, emitted := [], [];
    }

    method OnTrackChanged(h: HandlerId)
      modifies this`onTrackChangedHandlers
      ensures onTrackChangedHandlers == old(onTrackChangedHandlers) + [h]
    {
      onTrackChangedHandlers := onTrackChangedHandlers + [h];
    }

    method OnTrackTimelineUpdate(h: HandlerId)
      modifies this`onTrackTimelineUpdateHandlers
      ensures onTrackTimelineUpdateHandlers == old(onTrackTimelineUpdateHandlers) + [h]
    {
      onTrackTimelineUpdateHandlers := onTrackTimelineUpdateHandlers + [h];
    }

    method OnPlaybackStop(h: HandlerId)
      modifies this`onPlaybackStopHandlers
      ensures onPlaybackStopHandlers == old(onPlaybackStopHandlers) + [h]
    {
      onPlaybackStopHandlers := onPlaybackStopHandlers + [h];
    }

    /** `handlers.forEach((handler) => handler(e))`. */
    method Publish(handlers: seq<HandlerId>, e: Event)
      modifies this`emitted
      ensures emitted == old(emitted) + Broadcast(handlers, e)
    {
      for i := 0 to |handlers|
        invariant emitted == old(emitted) + Broadcast(handlers[..i], e)
      {
        assert handlers[..i + 1] == handlers[..i] + [handlers[i]];
        BroadcastAppend(handlers[..i], handlers[i], e);
        emitted := emitted + [Emission(handlers[i], e)];
      }
      assert handlers[..|handlers|] == handlers;
    }

    /** `playbackStateUpdate(p)`. */
    method HandleUpdate(p: Payload)
      requires Valid()
      modifies this`lastTrackId, this`stopPending, this`pendingBackfill, this`emitted, this`sent
      ensures Valid()
      ensures var o := Step(old(Snapshot()), Handlers(), p);
        Snapshot() == o.state && emitted == old(emitted) + o.emitted && sent == old(sent) + o.sent
    {
      if p.playParams.None? {
        // reading `data.playParams.id` throws
        return;
      }
      var trackId := p.playParams.value.id;

      if trackId == Some(NoIdFound) {
        if stopPending {
          return;
        }
        stopPending := true;
        lastTrackId := Some(NoIdFound);
        return;
      }

      if stopPending {
        stopPending := false;
      }

      if trackId == lastTrackId {
        if !Truthy(p.remainingTime) {
          return;
        }
        Publish(onTrackTimelineUpdateHandlers,
          TimelineUpdate(p.durationInMillis, p.durationInMillis - p.remainingTime.value));
        return;
      }

      if p.artwork.None? {
        // reading `data.artwork.url` throws
        return;
      }
      if !p.artwork.value.hasUrl && !p.validAttributes {
        if pendingBackfill.Some? {
          return;
        }
        sent := sent + [BackfillRequest(trackId)];
        pendingBackfill := Some(p);
        return;
      }

      if pendingBackfill.Some? {
        pendingBackfill := None;
      }
      lastTrackId := trackId;
      Publish(onTrackChangedHandlers, TrackChanged(p));
      if Truthy(p.remainingTime) {
        Publish(onTrackTimelineUpdateHandlers,
          TimelineUpdate(p.durationInMillis, p.durationInMillis - p.remainingTime.value));
      }
    }

    /** The "no id found" timer expires. */
    method FireStopTimer()
      requires Valid() && stopPending
      modifies this`stopPending, this`emitted
      ensures Valid()
      ensures var o := FireStop(old(Snapshot()), Handlers());
        Snapshot() == o.state && emitted == old(emitted) + o.emitted
    {
      Publish(onPlaybackStopHandlers, PlaybackStop);
      stopPending := false;
    }

    /** The backfill timer expires: the held payload is published marked
        complete (the evidently intended callback; see FireBackfillAsWritten). */
    method FireBackfillTimer()
      requires Valid() && pendingBackfill.Some?
      modifies this`lastTrackId, this`stopPending, this`pendingBackfill, this`emitted, this`sent
      ensures Valid()
      ensures var o := FireBackfill(old(Snapshot()), Handlers());
        Snapshot() == o.state && emitted == old(emitted) + o.emitted && sent == old(sent) + o.sent
    {
      var data := MarkedValid(pendingBackfill.value);
      HandleUpdate(data);
      pendingBackfill := None;
    }

    /** `socket.onmessage` on a parsed frame. */
    method OnMessage(f: Frame)
      requires Valid()
      modifies this`lastTrackId, this`stopPending, this`pendingBackfill, this`emitted, this`sent
      ensures Valid()
      ensures var o := Receive(old(Snapshot()), Handlers(), f);
        Snapshot() == o.state && emitted == old(emitted) + o.emitted && sent == old(sent) + o.sent
    {
      match f.kind
      case "playbackStateUpdate" =>
        HandleUpdate(f.payload);
      case "musickitapi.song" =>
        var attributes := f.payload.(validAttributes := true);
        HandleUpdate(attributes);
      case _ =>
    }

    /** `socket.onopen`: identify first, then ask for the current item. */
    method OnOpen()
      modifies this`sent
      ensures sent == old(sent) + [Identify("Cider-NowPlaying", "PZeide", "1.0.0"), GetCurrentMediaItem]
    {
      sent := sent + [IdentifyRequest];
      sent := sent + [GetCurrentMediaItem];
    }

    /** `socket.onclose`: start a reconnect timer and call every stop handler;
        the reconciliation state, and so a pending stop timer, is kept. */
    method OnClose()
      modifies this`reconnectsScheduled, this`emitted
      ensures reconnectsScheduled == old(reconnectsScheduled) + 1
      ensures emitted == old(emitted) + Broadcast(onPlaybackStopHandlers, PlaybackStop)
    {
      reconnectsScheduled := reconnectsScheduled + 1;
      Publish(onPlaybackStopHandlers, PlaybackStop);
    }

    /** A reconnect timer expires and `connect()` opens a new socket; the
        reconciliation state and the handler lists carry over. */
    method FireReconnectTimer()
      requires reconnectsScheduled > 0
      modifies this`reconnectsScheduled
      ensures reconnectsScheduled == old(reconnectsScheduled) - 1
    {
      reconnectsScheduled := reconnectsScheduled - 1;
    }
  }
}
