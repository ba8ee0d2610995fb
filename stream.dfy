/**
 * The single-stream relay of routes/stream.js. One module-level record,
 * `activeStream`, says which channel's ffmpeg command is live; the playlist
 * request handler, the `start`/`error`/`end` events of each command, the
 * ticks of its playlist poll, the deferred directory clean-ups and
 * `gracefulShutdown` are each one step on it.
 *
 * The world outside is reduced to what the steps observe: what a
 * `fs.pathExists` probe says, what the catalog lookup gives, and the set of
 * directories that exist. Commands are numbered handles; a SIGTERM is
 * recorded in `killed`; a scheduled deletion waits in `pendingCleanups`
 * until its timer fires. Every step runs to completion, so the model
 * explores exactly the interleavings of events the event loop allows.
 */
module Stream {
  import opened Js

  // ---------------------------------------------------------------------
  // Names
  // ---------------------------------------------------------------------

  /** `stream_data/<id>`, where ffmpeg writes a channel's HLS output. */
  function OutputDir(channelId: int): string {
    "stream_data/" + IntToString(channelId)
  }

  /** `stream_data/<id>/playlist.m3u8` */
  function PlaylistPath(channelId: int): string {
    OutputDir(channelId) + "/playlist.m3u8"
  }

  /** `/hls/<id>/playlist.m3u8`, where clients are redirected. */
  function HlsLocation(channelId: int): string {
    "/hls/" + IntToString(channelId) + "/playlist.m3u8"
  }

  /** Different channels never share a directory, a playlist or a redirect target; the playlist lies in the directory. */
  lemma NamesAreDistinct(a: int, b: int)
    ensures OutputDir(a) == OutputDir(b) <==> a == b
    ensures PlaylistPath(a) == PlaylistPath(b) <==> a == b
    ensures HlsLocation(a) == HlsLocation(b) <==> a == b
    ensures StartsWith(PlaylistPath(a), OutputDir(a) + "/")
  {
    var sa, sb := IntToString(a), IntToString(b);
    if OutputDir(a) == OutputDir(b) {
      assert sa == OutputDir(a)[12..] && sb == OutputDir(b)[12..];
      IntToStringInjective(a, b);
    }
    if PlaylistPath(a) == PlaylistPath(b) {
      assert |OutputDir(a)| == |OutputDir(b)|;
      assert OutputDir(a) == PlaylistPath(a)[..|OutputDir(a)|];
      assert OutputDir(b) == PlaylistPath(b)[..|OutputDir(b)|];
      assert sa == OutputDir(a)[12..] && sb == OutputDir(b)[12..];
      IntToStringInjective(a, b);
    }
    if HlsLocation(a) == HlsLocation(b) {
      assert |sa| == |sb|;
      assert sa == HlsLocation(a)[5..5 + |sa|] && sb == HlsLocation(b)[5..5 + |sb|];
      IntToStringInjective(a, b);
    }
    assert PlaylistPath(a)[..|OutputDir(a)| + 1] == OutputDir(a) + "/";
  }

  // ---------------------------------------------------------------------
  // State
  // ---------------------------------------------------------------------

  /** The `activeStream` record. `ffmpegProcess` is the handle of the command whose `start` committed it. */
  datatype ActiveStream = ActiveStream(
    channelId: Option<int>, ffmpegProcess: Option<nat>, playlistPath: Option<string>,
    outputDir: Option<string>, timeoutId: Option<nat>, cleanupScheduled: bool)

  /** The record `stopActiveStream` leaves (and the one at load, `cleanupScheduled` being falsy there). */
  const Idle := ActiveStream(None, None, None, None, None, false)

  /**
   * What holds of the record between steps: the four stream fields are set
   * together, for one channel, and the clean-up flag is clear.
   */
  predicate Coherent(a: ActiveStream) {
    && (a.channelId.Some? <==> a.ffmpegProcess.Some?)
    && (a.channelId.Some? <==> a.playlistPath.Some?)
    && (a.channelId.Some? <==> a.outputDir.Some?)
    && (a.channelId.Some? ==> a.playlistPath == Some(PlaylistPath(a.channelId.value))
                              && a.outputDir == Some(OutputDir(a.channelId.value)))
    && !a.cleanupScheduled
  }

  /** What a response carries. */
  datatype Reply =
    | BadRequest(text: string)     // 400
    | NotFound(text: string)       // 404
    | Redirect(location: string)   // 302
    | ServerError(text: string)    // 500
    | PassedOn                     // next(err)

  /** Where an ffmpeg command is: spawned, `start` fired, or `error`/`end` fired. */
  datatype Phase = Spawned | Started | Finished

  /**
   * One playlist request that launched an ffmpeg command: its channel and
   * the locals its event handlers share (`streamStarted`, `errorSent`,
   * `checkCount`, whether the poll interval is still set), and the response
   * sent for it, if any (`res.headersSent`).
   */
  datatype Launch = Launch(
    channelId: int, sourceUrl: string, phase: Phase, streamStarted: bool, errorSent: bool,
    checkCount: nat, polling: bool, reply: Option<Reply>)

  /** A command just spawned for `channelId` from `sourceUrl`. */
  function Spawn(channelId: int, sourceUrl: string): Launch {
    Launch(channelId, sourceUrl, Spawned, false, false, 0, false, None)
  }

  /** `maxChecks` of the playlist poll. */
  const MaxChecks: nat := 20

  /** What the catalog query for the requested id gives (`LookupFails`: it, or `ensureDir`, throws). */
  datatype Lookup = NoRow | Row(url: string) | LookupFails

  /** What `fs.pathExists(playlistPath)` gives. */
  datatype Probe = Exists | Missing | ProbeFails

  /** What the playlist handler does, decided from the record before it runs. */
  datatype Route =
    | Invalid               // 400
    | ToActive(active: int) // another channel is live: redirect there
    | ToSame(channel: int)  // this channel is live and its playlist exists: redirect
    | Restart(channel: int) // this channel is live but its playlist is gone: stop, then start
    | Broken(channel: int)  // this channel is live and the probe throws: stop, pass the error on
    | Fresh(channel: int)   // nothing is live: start
    | Stalled               // this channel is live without a playlist path: no response

  /** The route of a request whose id parsed to `requested`. */
  function RouteFor(a: ActiveStream, requested: int, probe: Probe): Route {
    if a.channelId.Some? && a.channelId.value != requested then ToActive(a.channelId.value)
    else if a.channelId == Some(requested) && Truthy(a.playlistPath) then
      (match probe
       case Exists => ToSame(requested)
       case Missing => Restart(requested)
       case ProbeFails => Broken(requested))
    else if a.channelId.None? then Fresh(requested)
    else Stalled
  }

  /** The route of a request for the raw path segment `rawId`. */
  function RouteOf(a: ActiveStream, rawId: string, probe: Probe): Route {
    match ParseInt(rawId)
    case None => Invalid
    case Some(requested) => RouteFor(a, requested, probe)
  }

  /**
   * Routing: a request for another channel is sent to the live one instead
   * of taking it over; a live channel is served as it is while its playlist
   * exists and restarted when it is gone; only an idle relay starts a
   * command; and a coherent record never leaves a request unanswered.
   */
  lemma RouteCases(a: ActiveStream, requested: int, probe: Probe)
    requires Coherent(a)
    ensures RouteFor(a, requested, probe).ToActive? <==> a.channelId.Some? && a.channelId.value != requested
    ensures RouteFor(a, requested, probe).ToActive? ==> Some(RouteFor(a, requested, probe).active) == a.channelId
    ensures a.channelId == Some(requested) ==>
              RouteFor(a, requested, probe)
              == (match probe
                  case Exists => ToSame(requested)
                  case Missing => Restart(requested)
                  case ProbeFails => Broken(requested))
    ensures RouteFor(a, requested, probe).Fresh? <==> a.channelId.None?
    ensures RouteFor(a, requested, probe) != Stalled && RouteFor(a, requested, probe) != Invalid
  {
    if a.channelId.Some? {
      assert a.playlistPath.value == PlaylistPath(a.channelId.value);
      assert |a.playlistPath.value| > 0;
    }
  }

  /** Exactly the ids `parseInt` rejects are refused with 400. */
  lemma InvalidIffUnparsable(a: ActiveStream, rawId: string, probe: Probe)
    requires Coherent(a)
    ensures RouteOf(a, rawId, probe) == Invalid <==> ParseInt(rawId).None?
  {
    if ParseInt(rawId).Some? {
      RouteCases(a, ParseInt(rawId).value, probe);
    }
  }

  /** The routes after which the handler changes nothing. */
  predicate Answered(r: Route) {
    r.Invalid? || r.ToActive? || r.ToSame?
  }

  /** The response sent at once on each answered route. */
  function ImmediateReply(r: Route): Reply
    requires Answered(r)
  {
    match r
    case Invalid => BadRequest("Invalid Channel ID")
    case ToActive(active) => Redirect(HlsLocation(active))
    case ToSame(channel) => Redirect(HlsLocation(channel))
  }

  /** The handle a SIGTERM goes to when the record is stopped: the held command, if any. */
  function Victims(a: ActiveStream): seq<nat> {
    if a.ffmpegProcess.Some? then [a.ffmpegProcess.value] else []
  }

  /** The deletion stopping the record schedules: its directory, unless one is already scheduled. */
  function Cleanups(a: ActiveStream): seq<string> {
    if a.outputDir.Some? && !a.cleanupScheduled then [a.outputDir.value] else []
  }

  /**
   * The relay's invariant: a coherent record that holds a command which was
   * launched for its channel and has started; handles below the next one;
   * a poll only after `start` and before its last tick.
   */
  ghost predicate Sound(a: ActiveStream, launches: map<nat, Launch>, nextHandle: nat) {
    && Coherent(a)
    && (forall h :: h in launches ==> h < nextHandle)
    && (a.ffmpegProcess.Some? ==>
          a.ffmpegProcess.value in launches
          && launches[a.ffmpegProcess.value].channelId == a.channelId.value
          && launches[a.ffmpegProcess.value].phase != Spawned)
    && (forall h :: h in launches ==> LaunchSound(launches[h]))
  }

  predicate LaunchSound(l: Launch) {
    && (l.phase == Spawned ==> !l.streamStarted)
    && (l.phase == Started ==> l.streamStarted)
    && (l.polling ==> l.streamStarted && l.checkCount < MaxChecks)
  }

  /** Replacing one launch by a sound one for the same channel keeps the invariant. */
  lemma LaunchUpdateSound(a: ActiveStream, launches: map<nat, Launch>, n: nat, h: nat, l: Launch)
    requires Sound(a, launches, n) && h in launches && LaunchSound(l)
    requires l.channelId == launches[h].channelId
    requires a.ffmpegProcess == Some(h) ==> l.phase != Spawned
    ensures Sound(a, launches[h := l], n)
  {
  }

  // ---------------------------------------------------------------------
  // The playlist poll
  // ---------------------------------------------------------------------

  const TimeoutText := "Failed to start stream: Playlist not created in time"
  const ProbeErrorText := "Failed to start stream: Error checking playlist"

  /** Whether a launch may still answer: nothing sent and no error reported. */
  predicate Free(l: Launch) {
    l.reply.None? && !l.errorSent
  }

  /** A tick that gives up on a launch still free to answer: the last tick without a playlist, or a failed check. */
  predicate GivesUp(l: Launch, probe: Probe) {
    Free(l) && (probe == ProbeFails || (probe == Missing && l.checkCount + 1 >= MaxChecks))
  }

  /**
   * What one tick of the poll does to its launch: it counts, keeps the
   * launch's identity, never replaces a sent response nor answers after an
   * error, redirects once the playlist exists, and stops polling exactly
   * when the playlist is found, the check fails or the count reaches
   * `MaxChecks`.
   */
  function Tick(l: Launch, probe: Probe): (t: Launch)
    ensures t.checkCount == l.checkCount + 1
    ensures t.channelId == l.channelId && t.sourceUrl == l.sourceUrl
    ensures t.phase == l.phase && t.streamStarted == l.streamStarted
    ensures !Free(l) ==> t.reply == l.reply && t.errorSent == l.errorSent
    ensures t.polling <==> l.polling && probe == Missing && l.checkCount + 1 < MaxChecks
    ensures Free(l) && probe == Exists ==> t.reply == Some(Redirect(HlsLocation(l.channelId)))
    ensures GivesUp(l, probe) <==> Free(l) && t.errorSent
    ensures Free(l) && !t.polling && (l.polling || probe != Missing) ==> t.reply.Some?
    ensures l.polling && LaunchSound(l) ==> LaunchSound(t)
  {
    var l1 := l.(checkCount := l.checkCount + 1);
    match probe
    case Exists =>
      l1.(polling := false, reply := if Free(l) then Some(Redirect(HlsLocation(l.channelId))) else l.reply)
    case Missing =>
      if l1.checkCount < MaxChecks then l1
      else l1.(polling := false, errorSent := l.errorSent || Free(l),
               reply := if Free(l) then Some(ServerError(TimeoutText)) else l.reply)
    case ProbeFails =>
      l1.(polling := false, errorSent := l.errorSent || Free(l),
          reply := if Free(l) then Some(ServerError(ProbeErrorText)) else l.reply)
  }

  /** The launch after the poll has run on `probes`, one per tick, for as long as its interval stays set. */
  function Polled(l: Launch, probes: seq<Probe>): Launch
    decreases |probes|
  {
    if |probes| == 0 || !l.polling then l
    else Polled(Tick(l, probes[0]), probes[1..])
  }

  /** The poll never runs more than `MaxChecks` ticks in all. */
  lemma {:induction false} PollEndsWithin(l: Launch, probes: seq<Probe>)
    requires LaunchSound(l)
    requires |probes| >= MaxChecks - l.checkCount
    ensures !Polled(l, probes).polling
    ensures Polled(l, probes).checkCount <= MaxChecks || Polled(l, probes) == l
    decreases |probes|
  {
    if |probes| > 0 && l.polling {
      PollEndsWithin(Tick(l, probes[0]), probes[1..]);
    }
  }

  /** Once a launch has answered, or reported an error, the poll sends nothing more. */
  lemma {:induction false} AnswersOnce(l: Launch, probes: seq<Probe>)
    requires !Free(l)
    ensures Polled(l, probes).reply == l.reply
    ensures Polled(l, probes).errorSent == l.errorSent
    decreases |probes|
  {
    if |probes| > 0 && l.polling {
      AnswersOnce(Tick(l, probes[0]), probes[1..]);
    }
  }

  /** A launch still free to answer when its poll ends has been answered by the poll. */
  lemma {:induction false} PollAnswers(l: Launch, probes: seq<Probe>)
    requires Free(l) && l.polling && LaunchSound(l)
    requires !Polled(l, probes).polling
    ensures Polled(l, probes).reply.Some?
    decreases |probes|
  {
    var t := Tick(l, probes[0]);
    if t.polling {
      PollAnswers(t, probes[1..]);
    } else {
      AnswersOnce(t, probes[1..]);
    }
  }

  /** With the playlist never appearing, a free launch is answered with the time-out 500 on the last tick. */
  lemma {:induction false} PollTimesOut(l: Launch, probes: seq<Probe>)
    requires Free(l) && l.polling && LaunchSound(l)
    requires |probes| == MaxChecks - l.checkCount
    requires forall i :: 0 <= i < |probes| ==> probes[i] == Missing
    ensures Polled(l, probes).reply == Some(ServerError(TimeoutText))
    ensures Polled(l, probes).checkCount == MaxChecks
    decreases |probes|
  {
    var t := Tick(l, probes[0]);
    if t.polling {
      PollTimesOut(t, probes[1..]);
    } else {
      AnswersOnce(t, probes[1..]);
    }
  }

  // ---------------------------------------------------------------------
  // Errors of the ffmpeg command
  // ---------------------------------------------------------------------

  const RuntimeErrorText := "Failed to start stream: FFmpeg runtime error"

  /** An error the relay caused itself, by sending SIGTERM. */
  predicate IsSigterm(message: string) {
    Contains(message, "SIGTERM")
  }

  /**
   * What an `error` event does to its launch: it is finished; a SIGTERM is
   * not reported; any other error is reported once, with a 500 when no
   * response was sent yet.
   */
  function AfterError(l: Launch, message: string): (t: Launch)
    ensures t.phase == Finished && t.channelId == l.channelId && t.polling == l.polling
    ensures IsSigterm(message) ==> t.errorSent == l.errorSent && t.reply == l.reply
    ensures !IsSigterm(message) ==> t.errorSent
    ensures l.reply.Some? ==> t.reply == l.reply
    ensures t.reply != l.reply <==> !IsSigterm(message) && Free(l)
    ensures t.reply != l.reply ==> t.reply == Some(ServerError(RuntimeErrorText))
    ensures LaunchSound(l) ==> LaunchSound(t)
  {
    if IsSigterm(message) then l.(phase := Finished)
    else if l.errorSent then l.(phase := Finished)
    else l.(phase := Finished, errorSent := true,
            reply := if l.reply.None? then Some(ServerError(RuntimeErrorText)) else l.reply)
  }

  /** Whether an `error` event of launch `l` stops the record `a`: always, unless it is a SIGTERM for a channel `a` does not hold. */
  predicate ErrorStops(a: ActiveStream, l: Launch, message: string) {
    !IsSigterm(message) || a.channelId == Some(l.channelId)
  }

  // ---------------------------------------------------------------------
  // The relay
  // ---------------------------------------------------------------------

  class StreamManager {
    var activeStream: ActiveStream
    var shuttingDown: bool
    /** Every ffmpeg command launched so far, by handle. */
    var launches: map<nat, Launch>
    var nextHandle: nat
    /** The handles SIGTERM was sent to, in order. */
    var killed: seq<nat>
    /** Directories whose deletion is scheduled and has not run. */
    var pendingCleanups: seq<string>
    /** The directories that exist. */
    var dirs: set<string>
    /** `process.exit(0)` is scheduled. */
    var exitScheduled: bool

    ghost predicate Valid()
      reads this
    {
      Sound(activeStream, launches, nextHandle)
    }

    constructor()
      ensures Valid()
      ensures activeStream == Idle && !shuttingDown && launches == map[] && nextHandle == 0
      ensures killed == [] && pendingCleanups == [] && dirs == {} && !exitScheduled
    {
      activeStream := Idle;
      shuttingDown := false;
      launches := map[];
      nextHandle := 0;
      killed := [];
      pendingCleanups := [];
      dirs := {};
      exitScheduled := false;
    }

    /** `GET /status`: the live channel; one is reported only while its command is held. */
    function Status(): (activeChannelId: Option<int>)
      reads this
      requires Valid()
      ensures activeChannelId.Some? <==> activeStream.ffmpegProcess.Some?
      ensures activeChannelId.Some? ==> launches[activeStream.ffmpegProcess.value].channelId == activeChannelId.value
    {
      activeStream.channelId
    }

    /**
     * `stopActiveStream`: SIGTERM to the held command (a failure to send it
     * is swallowed), the timer cleared, the output directory's deletion
     * scheduled unless one is already, and the record reset.
     */
    method StopActiveStream()
      modifies this
      requires Valid()
      ensures Valid()
      ensures activeStream == Idle
      ensures killed == old(killed) + Victims(old(activeStream))
      ensures pendingCleanups == old(pendingCleanups) + Cleanups(old(activeStream))
      ensures launches == old(launches) && nextHandle == old(nextHandle) && dirs == old(dirs)
      ensures shuttingDown == old(shuttingDown) && exitScheduled == old(exitScheduled)
    {
      if activeStream.ffmpegProcess.Some? {
        killed := killed + [activeStream.ffmpegProcess.value];
        activeStream := activeStream.(ffmpegProcess := None);
      }
      if activeStream.timeoutId.Some? {
        activeStream := activeStream.(timeoutId := None);
      }
      if activeStream.outputDir.Some? {
        var dirToClean := activeStream.outputDir.value;
        var cleanupScheduled := activeStream.cleanupScheduled;
        activeStream := activeStream.(outputDir := None, cleanupScheduled := true);
        if !cleanupScheduled {
          pendingCleanups := pendingCleanups + [dirToClean];
        }
      }
      activeStream := Idle;
    }

    /**
     * The start path of the playlist handler, entered with nothing live:
     * the catalog lookup, then a 404, or the output directory and a new
     * command whose events will answer; a lookup that throws stops the
     * (idle) record and passes the error on.
     */
    method StartStream(requestedChannelId: int, lookup: Lookup) returns (reply: Option<Reply>)
      modifies this
      requires Valid() && activeStream.channelId.None?
      ensures Valid()
      ensures activeStream == if lookup.LookupFails? then Idle else old(activeStream)
      ensures killed == old(killed) && pendingCleanups == old(pendingCleanups)
      ensures match lookup
        case LookupFails =>
          reply == Some(PassedOn)
          && launches == old(launches) && nextHandle == old(nextHandle) && dirs == old(dirs)
        case NoRow =>
          reply == Some(NotFound("Channel not found"))
          && launches == old(launches) && nextHandle == old(nextHandle) && dirs == old(dirs)
        case Row(url) =>
          reply.None?
          && old(nextHandle) !in old(launches)
          && launches == old(launches)[old(nextHandle) := Spawn(requestedChannelId, url)]
          && nextHandle == old(nextHandle) + 1
          && dirs == old(dirs) + {OutputDir(requestedChannelId)}
      ensures shuttingDown == old(shuttingDown) && exitScheduled == old(exitScheduled)
    {
      match lookup
      case LookupFails =>
        StopActiveStream();
        reply := Some(PassedOn);
      case NoRow =>
        reply := Some(NotFound("Channel not found"));
      case Row(sourceUrl) =>
        var outputDir := OutputDir(requestedChannelId);
        dirs := dirs + {outputDir};
        launches := launches[nextHandle := Spawn(requestedChannelId, sourceUrl)];
        nextHandle := nextHandle + 1;
        reply := None;
    }

    /**
     * `GET /:channelId/playlist.m3u8`. `probe` is what `fs.pathExists` says
     * of the live playlist and `lookup` what the catalog gives. The result is
     * the response sent by the handler itself; `None` when it launched a
     * command, whose events answer later.
     */
    method RequestPlaylist(rawId: string, probe: Probe, lookup: Lookup) returns (reply: Option<Reply>)
      modifies this
      requires Valid()
      ensures Valid()
      ensures Handled(RouteOf(old(activeStream), rawId, probe), lookup, reply)
    {
      var parsed := ParseInt(rawId);
      if parsed.None? {
        return Some(BadRequest("Invalid Channel ID"));
      }
      reply := ServeChannel(parsed.value, probe, lookup);
    }

    /** The handler once the id parsed to `requestedChannelId`. */
    method ServeChannel(requestedChannelId: int, probe: Probe, lookup: Lookup) returns (reply: Option<Reply>)
      modifies this
      requires Valid()
      ensures Valid()
      ensures Handled(RouteFor(old(activeStream), requestedChannelId, probe), lookup, reply)
    {
      RouteCases(activeStream, requestedChannelId, probe);
      if activeStream.channelId.Some? && activeStream.channelId.value != requestedChannelId {
        // no hijack: send the client to the live stream
        return Some(Redirect(HlsLocation(activeStream.channelId.value)));
      } else if activeStream.channelId == Some(requestedChannelId) && Truthy(activeStream.playlistPath) {
        match probe
        case Exists =>
          return Some(Redirect(HlsLocation(requestedChannelId)));
        case Missing =>
          StopActiveStream();
        case ProbeFails =>
          // the catch block: stop, then pass the error on
          StopActiveStream();
          return Some(PassedOn);
      }

      reply := None;
      if activeStream.channelId.None? {
        reply := StartStream(requestedChannelId, lookup);
      }
    }

    /**
     * What the handler did on `route`: an answered route changes nothing; a
     * restart or a broken probe stops the live stream; the start path is
     * taken only from an idle record.
     */
    twostate predicate Handled(route: Route, lookup: Lookup, new reply: Option<Reply>)
      reads this
    {
      && (Answered(route) ==> reply == Some(ImmediateReply(route)) && unchanged(this))
      && (route.Restart? || route.Broken? ==>
            killed == old(killed) + Victims(old(activeStream))
            && pendingCleanups == old(pendingCleanups) + [OutputDir(route.channel)]
            && activeStream == Idle)
      && (route.Broken? ==>
            reply == Some(PassedOn)
            && launches == old(launches) && nextHandle == old(nextHandle) && dirs == old(dirs))
      && (route.Fresh? ==>
            killed == old(killed) && pendingCleanups == old(pendingCleanups)
            && activeStream == if lookup.LookupFails? then Idle else old(activeStream))
      && (route.Restart? || route.Fresh? ==>
            activeStream.channelId.None? && StartedFrom(route.channel, lookup, reply, old(launches), old(nextHandle), old(dirs)))
      && shuttingDown == old(shuttingDown) && exitScheduled == old(exitScheduled)
    }

    /** What the start path left, stated over the values before it. */
    ghost predicate StartedFrom(channel: int, lookup: Lookup, reply: Option<Reply>,
                                launches0: map<nat, Launch>, handle0: nat, dirs0: set<string>)
      reads this
    {
      match lookup
      case LookupFails =>
        reply == Some(PassedOn) && launches == launches0 && nextHandle == handle0 && dirs == dirs0
      case NoRow =>
        reply == Some(NotFound("Channel not found")) && launches == launches0 && nextHandle == handle0 && dirs == dirs0
      case Row(url) =>
        reply.None? && handle0 !in launches0
        && launches == launches0[handle0 := Spawn(channel, url)]
        && nextHandle == handle0 + 1 && dirs == dirs0 + {OutputDir(channel)}
    }

    /**
     * The `start` event of command `h`: the record is committed to it,
     * whatever it held before, and the playlist poll begins.
     */
    method OnStart(h: nat)
      modifies this
      requires Valid() && h in launches && launches[h].phase == Spawned
      ensures Valid()
      ensures var ch := old(launches)[h].channelId;
        activeStream == old(activeStream).(channelId := Some(ch), ffmpegProcess := Some(h),
                                           playlistPath := Some(PlaylistPath(ch)), outputDir := Some(OutputDir(ch)),
                                           cleanupScheduled := false)
      ensures launches == old(launches)[h := old(launches)[h].(phase := Started, streamStarted := true, checkCount := 0, polling := true)]
      ensures killed == old(killed) && pendingCleanups == old(pendingCleanups) && dirs == old(dirs)
      ensures nextHandle == old(nextHandle) && shuttingDown == old(shuttingDown) && exitScheduled == old(exitScheduled)
    {
      var ch := launches[h].channelId;
      activeStream := activeStream.(channelId := Some(ch), ffmpegProcess := Some(h),
                                    playlistPath := Some(PlaylistPath(ch)), outputDir := Some(OutputDir(ch)),
                                    cleanupScheduled := false);
      launches := launches[h := launches[h].(phase := Started, streamStarted := true, checkCount := 0, polling := true)];
    }

    /**
     * One tick of command `h`'s playlist poll: the launch becomes
     * `Tick(launch, probe)`, and when the tick gives up on a launch that has
     * not answered yet, whatever stream is live by then is stopped.
     */
    method PollTick(h: nat, probe: Probe)
      modifies this
      requires Valid() && h in launches && launches[h].polling
      ensures Valid()
      ensures launches == old(launches)[h := Tick(old(launches)[h], probe)]
      ensures if GivesUp(old(launches)[h], probe)
              then activeStream == Idle && killed == old(killed) + Victims(old(activeStream))
                   && pendingCleanups == old(pendingCleanups) + Cleanups(old(activeStream))
              else activeStream == old(activeStream) && killed == old(killed) && pendingCleanups == old(pendingCleanups)
      ensures nextHandle == old(nextHandle) && dirs == old(dirs)
      ensures shuttingDown == old(shuttingDown) && exitScheduled == old(exitScheduled)
    {
      var l := launches[h];
      l := l.(checkCount := l.checkCount + 1);
      var free := l.reply.None? && !l.errorSent;
      match probe
      case Exists =>
        l := l.(polling := false);
        if free {
          l := l.(reply := Some(Redirect(HlsLocation(l.channelId))));
        }
        LaunchUpdateSound(activeStream, launches, nextHandle, h, l);
        launches := launches[h := l];
      case Missing =>
        if l.checkCount >= MaxChecks {
          l := l.(polling := false);
          if free {
            l := l.(errorSent := true);
            LaunchUpdateSound(activeStream, launches, nextHandle, h, l);
            launches := launches[h := l];
            StopActiveStream();
            l := l.(reply := Some(ServerError(TimeoutText)));
          }
        }
        LaunchUpdateSound(activeStream, launches, nextHandle, h, l);
        launches := launches[h := l];
      case ProbeFails =>
        l := l.(polling := false);
        if free {
          l := l.(errorSent := true);
          LaunchUpdateSound(activeStream, launches, nextHandle, h, l);
          launches := launches[h := l];
          StopActiveStream();
          l := l.(reply := Some(ServerError(ProbeErrorText)));
        }
        LaunchUpdateSound(activeStream, launches, nextHandle, h, l);
        launches := launches[h := l];
    }

    /**
     * The `error` event of command `h`: the launch becomes
     * `AfterError(launch, message)`, and the record is stopped when
     * `ErrorStops` says so.
     */
    method OnError(h: nat, message: string)
      modifies this
      requires Valid() && h in launches && launches[h].phase != Finished
      ensures Valid()
      ensures launches == old(launches)[h := AfterError(old(launches)[h], message)]
      ensures if ErrorStops(old(activeStream), old(launches)[h], message)
              then activeStream == Idle && killed == old(killed) + Victims(old(activeStream))
                   && pendingCleanups == old(pendingCleanups) + Cleanups(old(activeStream))
              else activeStream == old(activeStream) && killed == old(killed) && pendingCleanups == old(pendingCleanups)
      ensures nextHandle == old(nextHandle) && dirs == old(dirs)
      ensures shuttingDown == old(shuttingDown) && exitScheduled == old(exitScheduled)
    {
      var l := launches[h].(phase := Finished);
      if Contains(message, "SIGTERM") {
        LaunchUpdateSound(activeStream, launches, nextHandle, h, l);
        launches := launches[h := l];
        if activeStream.channelId == Some(l.channelId) {
          StopActiveStream();
        }
        return;
      }
      if !l.errorSent {
        l := l.(errorSent := true);
        if l.reply.None? {
          l := l.(reply := Some(ServerError(RuntimeErrorText)));
        }
      }
      LaunchUpdateSound(activeStream, launches, nextHandle, h, l);
      launches := launches[h := l];
      StopActiveStream();
    }

    /** The `end` event of command `h`: the record is stopped, whichever channel it holds. */
    method OnEnd(h: nat)
      modifies this
      requires Valid() && h in launches && launches[h].phase != Finished
      ensures Valid()
      ensures activeStream == Idle
      ensures launches == old(launches)[h := old(launches)[h].(phase := Finished)]
      ensures killed == old(killed) + Victims(old(activeStream))
      ensures pendingCleanups == old(pendingCleanups) + Cleanups(old(activeStream))
      ensures nextHandle == old(nextHandle) && dirs == old(dirs)
      ensures shuttingDown == old(shuttingDown) && exitScheduled == old(exitScheduled)
    {
      launches := launches[h := launches[h].(phase := Finished)];
      if activeStream.channelId == Some(launches[h].channelId) && !launches[h].errorSent {
        // ended unexpectedly
        StopActiveStream();
      }
      StopActiveStream();
    }

    /** The timer of the `k`-th scheduled deletion fires: the directory is removed if it exists. */
    method FireCleanup(k: nat)
      modifies this
      requires Valid() && k < |pendingCleanups|
      ensures Valid()
      ensures pendingCleanups == old(pendingCleanups[..k] + pendingCleanups[k + 1..])
      ensures dirs == old(dirs) - {old(pendingCleanups[k])}
      ensures activeStream == old(activeStream) && launches == old(launches) && killed == old(killed)
      ensures nextHandle == old(nextHandle) && shuttingDown == old(shuttingDown) && exitScheduled == old(exitScheduled)
    {
      var dirToClean := pendingCleanups[k];
      pendingCleanups := pendingCleanups[..k] + pendingCleanups[k + 1..];
      if dirToClean in dirs {
        dirs := dirs - {dirToClean};
      }
    }

    /** `gracefulShutdown`: the first signal stops the stream and schedules the exit; later ones do nothing. */
    method GracefulShutdown()
      modifies this
      requires Valid()
      ensures Valid()
      ensures old(shuttingDown) ==> unchanged(this)
      ensures !old(shuttingDown) ==>
        && shuttingDown && exitScheduled && activeStream == Idle
        && killed == old(killed) + Victims(old(activeStream))
        && pendingCleanups == old(pendingCleanups) + Cleanups(old(activeStream))
        && launches == old(launches) && nextHandle == old(nextHandle) && dirs == old(dirs)
    {
      if shuttingDown {
        return;
      }
      shuttingDown := true;
      StopActiveStream();
      exitScheduled := true;
    }
  }

  // ---------------------------------------------------------------------
  // Interleavings the handler allows
  // ---------------------------------------------------------------------

  /**
   * Two first requests, for `a` and `b`, both arrive before any `start`:
   * both take the start path, so two commands run; the record holds only
   * the later one to start, the earlier is never sent SIGTERM, and when it
   * ends its `end` handler stops the other channel's stream.
   */
  method RaceBeforeStart(a: int, b: int, urlA: string, urlB: string)
    returns (replyA: Option<Reply>, replyB: Option<Reply>, shown: Option<int>, sigterms: seq<nat>, after: Option<int>)
    ensures replyA.None? && replyB.None?
    ensures shown == Some(b)
    ensures sigterms == [1] && after.None?
  {
    var m := new StreamManager();
    replyA := m.ServeChannel(a, Missing, Row(urlA));
    replyB := m.ServeChannel(b, Missing, Row(urlB));
    m.OnStart(0);
    m.OnStart(1);
    shown := m.Status();
    m.OnEnd(0);
    sigterms := m.killed;
    after := m.Status();
  }

  /**
   * A live channel `c` whose playlist has gone missing is restarted: the
   * old command is sent SIGTERM and its directory's deletion is scheduled,
   * and the new command writes to the same directory. When the deletion
   * fires it removes the new stream's output; when the old command's
   * SIGTERM error arrives after the new `start`, it stops the new stream.
   */
  method RestartRace(c: int, url: string, message: string)
    returns (liveDir: Option<string>, dirsAfterCleanup: set<string>, sigterms: seq<nat>, after: Option<int>)
    requires IsSigterm(message)
    ensures liveDir == Some(OutputDir(c)) && OutputDir(c) !in dirsAfterCleanup
    ensures sigterms == [0, 1] && after.None?
  {
    var m := new StreamManager();
    var reply := m.ServeChannel(c, Missing, Row(url));
    assert m.launches == map[0 := Spawn(c, url)] && m.dirs == {OutputDir(c)};
    m.OnStart(0);
    assert RouteFor(m.activeStream, c, Missing) == Restart(c) by {
      assert |PlaylistPath(c)| > 0;
    }
    reply := m.ServeChannel(c, Missing, Row(url));
    assert m.killed == [0] && m.pendingCleanups == [OutputDir(c)] && 1 in m.launches;
    m.OnStart(1);
    m.FireCleanup(0);
    liveDir := m.activeStream.outputDir;
    dirsAfterCleanup := m.dirs;
    assert m.activeStream.channelId == Some(c) && m.launches[0].channelId == c && m.killed == [0];
    m.OnError(0, message);
    sigterms := m.killed;
    after := m.Status();
  }

  /**
   * With channel `a` live and its playlist present, a request for another
   * channel `b` and repeated requests for `a` all get `a`'s playlist, and
   * nothing is stopped or launched.
   */
  method LiveChannelIsKept(a: int, b: int, url: string, lookup: Lookup)
    returns (forOther: Option<Reply>, first: Option<Reply>, second: Option<Reply>, shown: Option<int>, sigterms: seq<nat>)
    requires a != b
    ensures forOther == first == second == Some(Redirect(HlsLocation(a)))
    ensures shown == Some(a) && sigterms == []
  {
    var m := new StreamManager();
    var reply := m.ServeChannel(a, Missing, Row(url));
    m.OnStart(0);
    forOther := m.ServeChannel(b, Exists, lookup);
    first := m.ServeChannel(a, Exists, lookup);
    second := m.ServeChannel(a, Exists, lookup);
    shown := m.Status();
    sigterms := m.killed;
  }
}
