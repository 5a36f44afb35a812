/** The values exchanged by the Cider now-playing client: the playback
    payloads the player pushes over its WebSocket, the frames that carry
    them, the requests sent back to the player, and the events fanned out
    to the subscribed handlers. */
module Messages {

  datatype Option<+T> = None | Some(value: T)

  /** The track id the player reports while it cannot resolve a track. */
  const NoIdFound: string := "no-id-found"

  /** JavaScript truthiness of `remainingTime`: absent and 0 are both falsy. */
  predicate Truthy(r: Option<nat>) {
    r.Some? && r.value != 0
  }

  /** `data.playParams`; a missing `id` property is `None` (JavaScript `undefined`). */
  datatype PlayParams = PlayParams(id: Option<string>)

  /** `data.artwork`; only whether its `url` is truthy matters. */
  datatype Artwork = Artwork(hasUrl: bool)

  /** One `playbackStateUpdate` payload (or the `attributes` of a
      `musickitapi.song` response). A missing `playParams` or `artwork`
      object is `None`; a missing `_validAttributes` is `false`. */
  datatype Payload = Payload(
    playParams: Option<PlayParams>,
    durationInMillis: int,
    remainingTime: Option<nat>,
    artwork: Option<Artwork>,
    validAttributes: bool)

  /** Registered handlers are named by an identity; what they do is not modelled. */
  type HandlerId = nat

  datatype Event =
    | TrackChanged(track: Payload)
    | TimelineUpdate(duration: int, position: int)
    | PlaybackStop

  /** One handler invocation: `handler` was called with `event`. */
  datatype Emission = Emission(handler: HandlerId, event: Event)

  datatype Request =
    | Identify(name: string, author: string, version: string)
    | GetCurrentMediaItem
    | MusickitApi(apiMethod: string, id: Option<string>, params: map<string, string>, library: bool)

  const IdentifyRequest: Request := Identify("Cider-NowPlaying", "PZeide", "1.0.0")

  /** The request for the complete attributes of a track (a backfill). */
  function BackfillRequest(id: Option<string>): Request {
    MusickitApi("song", id, map[], true)
  }

  /** A parsed incoming frame: its `type` and the payload it carries
      (`data` of a playback update, `data.attributes` of a song response). */
  datatype Frame = Frame(kind: string, payload: Payload)

  /** The handler call sequence of a `forEach` over `handlers`: every
      handler exactly once, in registration order, with the same event. */
  function Broadcast(handlers: seq<HandlerId>, e: Event): (r: seq<Emission>)
    ensures |r| == |handlers|
    ensures forall i :: 0 <= i < |r| ==> r[i] == Emission(handlers[i], e)
  {
    if handlers == [] then [] else [Emission(handlers[0], e)] + Broadcast(handlers[1..], e)
  }

  lemma BroadcastAppend(handlers: seq<HandlerId>, h: HandlerId, e: Event)
    ensures Broadcast(handlers + [h], e) == Broadcast(handlers, e) + [Emission(h, e)]
  {
    var l, r := Broadcast(handlers + [h], e), Broadcast(handlers, e) + [Emission(h, e)];
    assert |l| == |r|;
    forall i | 0 <= i < |l| ensures l[i] == r[i] {
      if i < |handlers| {
        assert (handlers + [h])[i] == handlers[i];
      }
    }
  }

  /** The frame router: a playback update is forwarded as it is, a song
      response is forwarded marked as complete, any other frame is dropped. */
  function Route(f: Frame): (r: Option<Payload>)
    ensures r.Some? <==> f.kind == "playbackStateUpdate" || f.kind == "musickitapi.song"
    ensures f.kind == "playbackStateUpdate" ==> r == Some(f.payload)
    ensures f.kind == "musickitapi.song" ==>
      r.Some? && r.value.validAttributes && r.value.(validAttributes := f.payload.validAttributes) == f.payload
  {
    match f.kind
    case "playbackStateUpdate" => Some(f.payload)
    case "musickitapi.song" => Some(f.payload.(validAttributes := true))
    case _ => None
  }
}
