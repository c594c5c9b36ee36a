/**
 * The iOS audio adapter (`iosAudioUtils.ts`): permission-gated engine setup
 * with its five remote-control bindings, the playback-state queries, and the
 * queue operations, over an abstract audio engine.
 */
module IosAudio {
  import opened Native
  import opened Uris
  import opened IosPermissions

  /** The engine's `State` values. */
  datatype PlaybackState = StateNone | Ready | Playing | Paused | Stopped | Loading | Buffering | Error | Ended

  /** Remote-control events delivered through the engine's event stream. */
  datatype RemoteEvent = RemotePlay | RemotePause | RemoteStop | RemoteNext | RemotePrevious

  /** Transport commands of the engine. */
  datatype Transport = Play | Pause | Stop | SkipToNext | SkipToPrevious

  /** A registered event listener that forwards its event to one transport command. */
  datatype Listener = Listener(event: RemoteEvent, command: Transport)

  /** Entries of `iosCapabilities`. */
  datatype Capability =
    | CanPlay | CanPause | CanStop | CanSkipToNext | CanSkipToPrevious
    | CanSeekTo | CanSeekForward | CanSeekBackward

  datatype PlayerOptions = PlayerOptions(iosCategory: string, iosCategoryOptions: seq<string>, iosCapabilities: seq<Capability>)

  /** The engine calls that may reject. */
  datatype EngineCall = SetupCall | AddCall | ResetCall | GetStateCall

  /** The configuration `setupIOSAudioPlayer` passes to the engine. */
  const IosPlayerOptions: PlayerOptions :=
    PlayerOptions(
      "playback",
      ["allowAirPlay", "allowBluetooth", "allowBluetoothA2DP", "mixWithOthers"],
      [CanPlay, CanPause, CanStop, CanSkipToNext, CanSkipToPrevious, CanSeekTo, CanSeekForward, CanSeekBackward])

  /** The forwarding rule of the remote-control handlers. */
  function CommandFor(event: RemoteEvent): Transport {
    match event
    case RemotePlay => Play
    case RemotePause => Pause
    case RemoteStop => Stop
    case RemoteNext => SkipToNext
    case RemotePrevious => SkipToPrevious
  }

  /** The five listeners one successful setup registers, in registration order. */
  const RemoteBindings: seq<Listener> :=
    [Listener(RemotePlay, Play), Listener(RemotePause, Pause), Listener(RemoteStop, Stop),
     Listener(RemoteNext, SkipToNext), Listener(RemotePrevious, SkipToPrevious)]

  /**
   * The transport commands run when `event` is delivered: one per listener
   * registered for it, in registration order. No registered listener is
   * dropped and nothing unregistered runs.
   */
  function Fired(listeners: seq<Listener>, event: RemoteEvent): (commands: seq<Transport>)
    ensures |commands| <= |listeners|
    ensures forall c <- commands :: Listener(event, c) in listeners
    ensures forall l <- listeners :: l.event == event ==> l.command in commands
  {
    if listeners == [] then []
    else if listeners[0].event == event then [listeners[0].command] + Fired(listeners[1..], event)
    else Fired(listeners[1..], event)
  }

  /** A command runs once for each listener registered for it, and no more. */
  lemma {:induction false} FiredCounts(listeners: seq<Listener>, event: RemoteEvent, c: Transport)
    ensures multiset(Fired(listeners, event))[c] == multiset(listeners)[Listener(event, c)]
  {
    if listeners != [] {
      assert listeners == [listeners[0]] + listeners[1..];
      FiredCounts(listeners[1..], event, c);
    }
  }

  /** Listeners registered later run after those registered earlier. */
  lemma {:induction false} FiredAppend(a: seq<Listener>, b: seq<Listener>, event: RemoteEvent)
    ensures Fired(a + b, event) == Fired(a, event) + Fired(b, event)
  {
    if a == [] {
      assert a + b == b;
    } else {
      assert (a + b)[1..] == a[1..] + b;
      FiredAppend(a[1..], b, event);
    }
  }

  /** The bindings of one setup forward every remote event to exactly its own command. */
  lemma BindingsForwardOnce(event: RemoteEvent)
    ensures Fired(RemoteBindings, event) == [CommandFor(event)]
  {
    var b := RemoteBindings;
    assert Fired(b[4..], event) == if event == RemotePrevious then [SkipToPrevious] else [] by {
      assert b[4..][1..] == [];
    }
    assert b[3..][1..] == b[4..];
    assert Fired(b[3..], event) == if event in {RemoteNext, RemotePrevious} then [CommandFor(event)] else [];
    assert b[2..][1..] == b[3..];
    assert Fired(b[2..], event) == if event in {RemoteStop, RemoteNext, RemotePrevious} then [CommandFor(event)] else [];
    assert b[1..][1..] == b[2..];
    assert Fired(b[1..], event) == if event == RemotePlay then [] else [CommandFor(event)];
  }

  /**
   * Each successful setup adds exactly one more forwarding per remote event
   * to whatever listeners are already registered.
   */
  lemma SetupAddsOneForwarding(listeners: seq<Listener>, event: RemoteEvent)
    ensures Fired(listeners + RemoteBindings, event) == Fired(listeners, event) + [CommandFor(event)]
  {
    FiredAppend(listeners, RemoteBindings, event);
    BindingsForwardOnce(event);
  }

  /** The caller-supplied metadata; `None` for a missing field or a missing object. */
  datatype Metadata = Metadata(
    title: Option<string>, artist: Option<string>, album: Option<string>,
    artwork: Option<string>, duration: Option<real>)

  /** A queue entry of the engine. */
  datatype Track = Track(url: string, title: string, artist: string, album: string, artwork: Option<string>, duration: real)

  const UnknownTitle: string := "未知标题"
  const UnknownArtist: string := "未知艺术家"
  const UnknownAlbum: string := "未知专辑"

  /** JavaScript truthiness of an optional string: present and non-empty. */
  predicate TruthyText(v: Option<string>) {
    v.Some? && v.value != ""
  }

  /** JavaScript truthiness of an optional number: present and non-zero. */
  predicate TruthyNumber(v: Option<real>) {
    v.Some? && v.value != 0.0
  }

  /** `metadata?.field || fallback` for a string field. */
  function TextOr(v: Option<string>, fallback: string): string {
    if TruthyText(v) then v.value else fallback
  }

  /**
   * The track object literal: the url verbatim, and each metadata field when
   * truthy, its default when falsy or missing.
   */
  function BuildTrack(url: string, metadata: Option<Metadata>): (track: Track)
    ensures track.url == url
    ensures track.title != "" && track.artist != "" && track.album != ""
    ensures metadata.None? ==> track == Track(url, UnknownTitle, UnknownArtist, UnknownAlbum, None, 0.0)
    ensures metadata.Some? ==>
              && track.title == (if TruthyText(metadata.value.title) then metadata.value.title.value else UnknownTitle)
              && track.artist == (if TruthyText(metadata.value.artist) then metadata.value.artist.value else UnknownArtist)
              && track.album == (if TruthyText(metadata.value.album) then metadata.value.album.value else UnknownAlbum)
              && track.artwork == (if TruthyText(metadata.value.artwork) then metadata.value.artwork else None)
              && track.duration == (if TruthyNumber(metadata.value.duration) then metadata.value.duration.value else 0.0)
  {
    match metadata
    case None => Track(url, UnknownTitle, UnknownArtist, UnknownAlbum, None, 0.0)
    case Some(m) =>
      Track(url, TextOr(m.title, UnknownTitle), TextOr(m.artist, UnknownArtist), TextOr(m.album, UnknownAlbum),
            if TruthyText(m.artwork) then m.artwork else None,
            if TruthyNumber(m.duration) then m.duration.value else 0.0)
  }

  /** The track `addLocalAudioToQueue` builds: a `file://` url and the metadata defaults. */
  function LocalTrack(filePath: string, metadata: Option<Metadata>): (track: Track)
    ensures HasFileScheme(track.url)
    ensures HasFileScheme(filePath) ==> track.url == filePath
    ensures !HasFileScheme(filePath) ==> track.url == FileScheme + filePath
    ensures track == BuildTrack(track.url, metadata)
  {
    BuildTrack(FormatFileUri(filePath), metadata)
  }

  /** The local track of a plain path, without metadata, has the scheme once and every default. */
  lemma LocalTrackExample()
    ensures LocalTrack("/tmp/song.mp3", None) == Track("file:///tmp/song.mp3", UnknownTitle, UnknownArtist, UnknownAlbum, None, 0.0)
    ensures LocalTrack("file:///a.mp3", Some(Metadata(None, None, None, None, None))).url == "file:///a.mp3"
  {
    FormatFileUriExample();
  }

  /**
   * The audio engine, as state: its configuration, its play queue, its
   * listener table, its playback state, and which of its calls reject.
   */
  class Engine {
    var options: Option<PlayerOptions>
    var queue: seq<Track>
    var listeners: seq<Listener>
    var state: PlaybackState
    var faults: set<EngineCall>

    constructor (state: PlaybackState, faults: set<EngineCall>)
      ensures options == None && queue == [] && listeners == []
      ensures this.state == state && this.faults == faults
    {
      options := None;
      queue := [];
      listeners := [];
      this.state := state;
      this.faults := faults;
    }

    /** `TrackPlayer.setupPlayer(options)`. */
    method SetupPlayer(o: PlayerOptions) returns (ok: bool)
      modifies this
      ensures ok == (SetupCall !in faults)
      ensures options == if ok then Some(o) else old(options)
      ensures queue == old(queue) && listeners == old(listeners) && state == old(state) && faults == old(faults)
    {
      ok := SetupCall !in faults;
      if ok {
        options := Some(o);
      }
    }

    /** `TrackPlayer.addEventListener(event, handler)`. */
    method AddEventListener(l: Listener)
      modifies this
      ensures listeners == old(listeners) + [l]
      ensures options == old(options) && queue == old(queue) && state == old(state) && faults == old(faults)
    {
      listeners := listeners + [l];
    }

    /** `TrackPlayer.add(track)`: appends to the queue unless the call rejects. */
    method Add(t: Track) returns (ok: bool)
      modifies this
      ensures ok == (AddCall !in faults)
      ensures queue == if ok then old(queue) + [t] else old(queue)
      ensures options == old(options) && listeners == old(listeners) && state == old(state) && faults == old(faults)
    {
      ok := AddCall !in faults;
      if ok {
        queue := queue + [t];
      }
    }

    /** `TrackPlayer.reset()`: stops playback and empties the queue unless the call rejects. */
    method Reset() returns (ok: bool)
      modifies this
      ensures ok == (ResetCall !in faults)
      ensures ok ==> queue == [] && state == StateNone
      ensures !ok ==> queue == old(queue) && state == old(state)
      ensures options == old(options) && listeners == old(listeners) && faults == old(faults)
    {
      ok := ResetCall !in faults;
      if ok {
        queue := [];
        state := StateNone;
      }
    }
  }

  /** Setup succeeds iff on iOS, media-library permission is ensured, and the engine accepts the configuration. */
  function SetupSucceeds(os: Os, engine: Engine, broker: Broker): bool
    reads engine, broker
  {
    os == IOS && EnsureGrants(os, MediaLibrary, broker) && SetupCall !in engine.faults
  }

  /** The whole effect of `setupIOSAudioPlayer`. */
  twostate predicate PlayerSetUp(os: Os, engine: Engine, broker: Broker, toasts: Toasts, ok: bool)
    reads engine, broker, toasts
  {
    && ok == old(SetupSucceeds(os, engine, broker))
    && (os != IOS ==> unchanged(engine) && unchanged(broker) && unchanged(toasts))
    && (os == IOS ==> Ensured(os, MediaLibrary, broker) && toasts.shown == old(toasts.shown) + old(GateNotices(os, MediaLibrary, broker)))
    && engine.queue == old(engine.queue) && engine.state == old(engine.state) && engine.faults == old(engine.faults)
    && (ok ==> engine.options == Some(IosPlayerOptions) && engine.listeners == old(engine.listeners) + RemoteBindings)
    && (!ok ==> engine.options == old(engine.options) && engine.listeners == old(engine.listeners))
  }

  /**
   * `setupIOSAudioPlayer`: false off iOS; without media-library permission the
   * engine is neither configured nor given listeners; on success the engine
   * holds the fixed configuration and the five remote-control bindings.
   */
  method SetupIosAudioPlayer(os: Os, engine: Engine, broker: Broker, toasts: Toasts) returns (ok: bool)
    modifies engine, broker, toasts
    ensures PlayerSetUp(os, engine, broker, toasts, ok)
  {
    if os != IOS {
      return false;
    }
    var hasPermission := EnsurePermission(os, MediaLibrary, broker, toasts);
    if !hasPermission {
      return false;
    }
    ok := engine.SetupPlayer(IosPlayerOptions);
    if !ok {
      // the catch block: logged only
      return false;
    }
    engine.AddEventListener(Listener(RemotePlay, Play));
    engine.AddEventListener(Listener(RemotePause, Pause));
    engine.AddEventListener(Listener(RemoteStop, Stop));
    engine.AddEventListener(Listener(RemoteNext, SkipToNext));
    engine.AddEventListener(Listener(RemotePrevious, SkipToPrevious));
    return true;
  }

  /** `getIOSPlaybackState`: the engine's state on iOS, null off iOS or when the call rejects. */
  function PlaybackStateOf(os: Os, engine: Engine): (state: Option<PlaybackState>)
    reads engine
    ensures state.Some? <==> os == IOS && GetStateCall !in engine.faults
    ensures state.Some? ==> state.value == engine.state
  {
    if os != IOS then None
    else if GetStateCall in engine.faults then None
    else Some(engine.state)
  }

  /** `isIOSPlaying`: true iff on iOS the state query succeeds and reports Playing. */
  function IsPlaying(os: Os, engine: Engine): (playing: bool)
    reads engine
    ensures playing <==> os == IOS && GetStateCall !in engine.faults && engine.state == Playing
  {
    if os != IOS then false
    else PlaybackStateOf(os, engine) == Some(Playing)
  }

  /** The whole effect of adding `track`: appended alone on success, one notice on failure. */
  twostate predicate Enqueued(os: Os, track: Track, engine: Engine, toasts: Toasts, ok: bool)
    reads engine, toasts
  {
    && ok == (os == IOS && AddCall !in old(engine.faults))
    && engine.queue == (if ok then old(engine.queue) + [track] else old(engine.queue))
    && engine.options == old(engine.options) && engine.listeners == old(engine.listeners)
    && engine.state == old(engine.state) && engine.faults == old(engine.faults)
    && toasts.shown == old(toasts.shown) + (if os == IOS && !ok then [AddToQueueFailed] else [])
  }

  /** The shared body of the two add operations, from the engine call on. */
  method AddTrack(track: Track, engine: Engine, toasts: Toasts) returns (ok: bool)
    modifies engine, toasts
    ensures Enqueued(IOS, track, engine, toasts, ok)
  {
    ok := engine.Add(track);
    if !ok {
      toasts.Show(AddToQueueFailed);
    }
  }

  /** `addLocalAudioToQueue`: enqueues the `file://`-normalised local track. */
  method AddLocalAudio(os: Os, filePath: string, metadata: Option<Metadata>, engine: Engine, toasts: Toasts) returns (ok: bool)
    modifies engine, toasts
    ensures Enqueued(os, LocalTrack(filePath, metadata), engine, toasts, ok)
  {
    if os != IOS {
      return false;
    }
    ok := AddTrack(LocalTrack(filePath, metadata), engine, toasts);
  }

  /** `addStreamingAudioToQueue`: enqueues a track whose url is the given one, verbatim. */
  method AddStreamingAudio(os: Os, url: string, metadata: Option<Metadata>, engine: Engine, toasts: Toasts) returns (ok: bool)
    modifies engine, toasts
    ensures Enqueued(os, BuildTrack(url, metadata), engine, toasts, ok)
  {
    if os != IOS {
      return false;
    }
    ok := AddTrack(BuildTrack(url, metadata), engine, toasts);
  }

  /** `clearIOSPlayQueue`: empties the queue; false with the engine untouched off iOS or when reset rejects. */
  method ClearQueue(os: Os, engine: Engine) returns (ok: bool)
    modifies engine
    ensures ok == (os == IOS && ResetCall !in old(engine.faults))
    ensures ok ==> engine.queue == [] && engine.state == StateNone
    ensures !ok ==> engine.queue == old(engine.queue) && engine.state == old(engine.state)
    ensures engine.options == old(engine.options) && engine.listeners == old(engine.listeners) && engine.faults == old(engine.faults)
  {
    if os != IOS {
      return false;
    }
    ok := engine.Reset();
  }

  /** Two adds, a clear, and one more add leave exactly the last track queued. */
  method ClearThenAdd(engine: Engine, toasts: Toasts, first: string, second: string, third: string)
    requires engine.faults == {}
    modifies engine, toasts
    ensures engine.queue == [LocalTrack(third, None)]
    ensures toasts.shown == old(toasts.shown)
  {
    var ok := AddLocalAudio(IOS, first, None, engine, toasts);
    ok := AddLocalAudio(IOS, second, None, engine, toasts);
    ok := ClearQueue(IOS, engine);
    assert engine.queue == [];
    ok := AddLocalAudio(IOS, third, None, engine, toasts);
  }
}
