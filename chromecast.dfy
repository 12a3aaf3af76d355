/**
 * Casting support (src/Chromecast.tsx): how a selection becomes a play request
 * for the receiver, which warnings that emits, how the single tracked warning
 * snackbar is replaced, and how replies from the receiver are dispatched.
 *
 * The Cast SDK is outside the model: a session is a flag, sent messages are
 * recorded in `sent`, replies arrive already parsed, and the snackbars this
 * component enqueues or closes are recorded in `snackbars`.
 */
module Chromecast {
  import opened Wrappers
  import opened Assoc
  import BamApi
  import opened StreamManager
  import Player = OvenPlayerTypes

  /** This revision's `StreamProtocol`, which adds HLS. */
  datatype CastProtocol = Hls | LlHls | WebRtcUdp | WebRtcTcp

  predicate IsWebRtc(p: CastProtocol) {
    p == WebRtcUdp || p == WebRtcTcp
  }

  /** `PROTOCOL_TO_CONTENT_TYPE` */
  function ContentTypeOf(p: CastProtocol): (r: string)
    ensures r == "application/webrtc" || r == "application/x-mpegurl"
    ensures r == "application/webrtc" <==> IsWebRtc(p)
  {
    match p
    case Hls => "application/x-mpegurl"
    case LlHls => "application/x-mpegurl"
    case WebRtcUdp => "application/webrtc"
    case WebRtcTcp => "application/webrtc"
  }

  /** `PROTOCOL_TO_OVENPLAYER_TYPE` */
  function PlayerTypeOf(p: CastProtocol): (r: Player.SourceType)
    ensures r == Player.WebRtc <==> IsWebRtc(p)
    ensures r == Player.Hls <==> p == Hls
    ensures r == Player.LlHls <==> p == LlHls
  {
    match p
    case Hls => Player.Hls
    case LlHls => Player.LlHls
    case WebRtcUdp => Player.WebRtc
    case WebRtcTcp => Player.WebRtc
  }

  /** The two tables classify the protocols alike, and the player-type table tells HLS from LLHLS. */
  lemma TablesAgree(p: CastProtocol, q: CastProtocol)
    ensures ContentTypeOf(p) == "application/webrtc" <==> PlayerTypeOf(p) == Player.WebRtc
    ensures ContentTypeOf(p) == "application/x-mpegurl" <==> !IsWebRtc(p)
    ensures PlayerTypeOf(p) == PlayerTypeOf(q) && p != q ==> IsWebRtc(p) && IsWebRtc(q)
  {
  }

  /** The receiver's answer to `getSupportedFormats`; a missing entry reads as false. */
  datatype SupportedFormats = SupportedFormats(
    h265At2160p60: bool, h265At2160p30: bool, h264At2160p30: bool,
    h264At1080p60: bool, h264At1080p30: bool, h264At720p60: bool)

  /** notistack's `VariantType` */
  datatype Variant = DefaultVariant | ErrorVariant | SuccessVariant | WarningVariant | InfoVariant

  /** The messages this component shows; the last two carry the text they append. */
  datatype Notice =
    | HlsLatency | WebRtcUnsupported | LlHlsUncertain | No1080p60
    | SendFailed(error: string) | NonsenseReply(message: string)

  datatype Warning = Warning(notice: Notice, variant: Variant)

  /**
   * The protocol the play request uses: WebRTC becomes HLS on a receiver that
   * lacks H265/2160/30; nothing else is rewritten.
   */
  function FinalProtocol(p: CastProtocol, f: SupportedFormats): (q: CastProtocol)
    ensures q != p ==> IsWebRtc(p) && !f.h265At2160p30 && q == Hls
    ensures IsWebRtc(p) && !f.h265At2160p30 ==> q == Hls
    ensures IsWebRtc(q) ==> f.h265At2160p30
  {
    if !f.h265At2160p30 && IsWebRtc(p) then Hls else p
  }

  /** `PlayRequest` */
  datatype PlayRequest = PlayRequest(query: string, url: Option<string>, protocol: Player.SourceType)

  /** The requests this component sends to the receiver. */
  datatype CastRequest = SupportedFormatsQuery | PlayQuery(play: PlayRequest)

  function QueryOf(r: CastRequest): string {
    match r
    case SupportedFormatsQuery => "getSupportedFormats"
    case PlayQuery(p) => p.query
  }

  /** The play request for a selection on a receiver with the given formats. */
  function PlayRequestFor(s: Selection<CastProtocol>, f: SupportedFormats): (r: PlayRequest)
    ensures r.query == "play"
    ensures r.protocol == Player.WebRtc ==> f.h265At2160p30
    ensures r.protocol == Player.Hls <==> s.protocol == Hls || (IsWebRtc(s.protocol) && !f.h265At2160p30)
    ensures r.protocol == PlayerTypeOf(FinalProtocol(s.protocol, f))
    ensures r.url.Some? <==> HasKey(BamApi.ProtocolsAt(s.stream, BamApi.MainQuality), FinalProtocol(s.protocol, f))
    ensures r.url.Some? ==>
              var urls := BamApi.ProtocolsAt(s.stream, BamApi.MainQuality);
              exists j :: 0 <= j < |urls| && urls[j] == Pair(FinalProtocol(s.protocol, f), r.url.value)
  {
    var protocol := FinalProtocol(s.protocol, f);
    PlayRequest("play", BamApi.UrlAt(s.stream, BamApi.MainQuality, protocol), PlayerTypeOf(protocol))
  }

  /** The warning `w` when `condition` holds, and none otherwise. */
  function Guarded(condition: bool, w: Warning): seq<Warning> {
    if condition then [w] else []
  }

  /** The warnings streamSelectionToPlayRequest emits, in emission order. */
  function PlayWarnings(s: Selection<CastProtocol>, f: SupportedFormats): (ws: seq<Warning>)
    ensures forall i :: 0 <= i < |ws| ==> (ws[i].variant == InfoVariant <==> ws[i].notice == HlsLatency)
    ensures forall i :: 0 <= i < |ws| ==> ws[i].variant in {InfoVariant, WarningVariant}
  {
    Guarded(s.protocol == Hls, Warning(HlsLatency, InfoVariant))
    + Guarded(!f.h265At2160p30 && IsWebRtc(s.protocol), Warning(WebRtcUnsupported, WarningVariant))
    + Guarded(!f.h264At1080p60 && FinalProtocol(s.protocol, f) == LlHls, Warning(LlHlsUncertain, WarningVariant))
    + Guarded(!f.h264At1080p60 && s.stream.video.width > 1280 && s.stream.video.framerate > 30.0,
              Warning(No1080p60, WarningVariant))
  }

  /**
   * When each warning fires: the latency note only for a stream requested as
   * HLS, the WebRTC warning exactly when the protocol is rewritten, the LLHLS
   * warning only on receivers without H264/1080/60, the 1080p60 warning for wide
   * high-framerate streams on such receivers. At most two are emitted.
   */
  lemma PlayWarningConditions(s: Selection<CastProtocol>, f: SupportedFormats)
    ensures Warning(HlsLatency, InfoVariant) in PlayWarnings(s, f) <==> s.protocol == Hls
    ensures Warning(WebRtcUnsupported, WarningVariant) in PlayWarnings(s, f) <==> FinalProtocol(s.protocol, f) != s.protocol
    ensures Warning(LlHlsUncertain, WarningVariant) in PlayWarnings(s, f) <==> s.protocol == LlHls && !f.h264At1080p60
    ensures Warning(No1080p60, WarningVariant) in PlayWarnings(s, f) <==>
              !f.h264At1080p60 && s.stream.video.width > 1280 && s.stream.video.framerate > 30.0
    ensures |PlayWarnings(s, f)| <= 2
  {
  }

  /** A stream downgraded from WebRTC gets neither the HLS latency note nor the LLHLS warning. */
  lemma DowngradeWarnsOnce(s: Selection<CastProtocol>, f: SupportedFormats)
    requires FinalProtocol(s.protocol, f) != s.protocol
    ensures Warning(HlsLatency, InfoVariant) !in PlayWarnings(s, f)
    ensures Warning(LlHlsUncertain, WarningVariant) !in PlayWarnings(s, f)
    ensures PlayWarnings(s, f)[0] == Warning(WebRtcUnsupported, WarningVariant)
  {
  }

  /**
   * The guards streamSelectionToPlayRequest evaluates one by one, with the
   * protocol variable rewritten in between, compose to `PlayWarnings` and
   * leave the variable at `FinalProtocol`.
   */
  lemma StepsMatchPlayWarnings(s: Selection<CastProtocol>, f: SupportedFormats,
                               downgrade: bool, protocol: CastProtocol, uncertain: bool, wide: bool)
    requires downgrade == (!f.h265At2160p30 && (s.protocol == WebRtcTcp || s.protocol == WebRtcUdp))
    requires protocol == if downgrade then Hls else s.protocol
    requires uncertain == (!f.h264At1080p60 && protocol == LlHls)
    requires wide == (!f.h264At1080p60 && s.stream.video.width > 1280 && s.stream.video.framerate > 30.0)
    ensures protocol == FinalProtocol(s.protocol, f)
    ensures [] + Guarded(s.protocol == Hls, Warning(HlsLatency, InfoVariant))
            + Guarded(downgrade, Warning(WebRtcUnsupported, WarningVariant))
            + Guarded(uncertain, Warning(LlHlsUncertain, WarningVariant))
            + Guarded(wide, Warning(No1080p60, WarningVariant))
            == PlayWarnings(s, f)
  {
  }

  /** What the reply dispatcher does for a query. */
  datatype ReplyAction = StartStreamAction | IgnoreReply | ReportReply

  /** The `messageListener` switch. */
  function Dispatch(query: string): (a: ReplyAction)
    ensures a == StartStreamAction <==> query == "getSupportedFormats"
    ensures a == IgnoreReply <==> query == "play"
    ensures a == ReportReply <==> query != "getSupportedFormats" && query != "play"
  {
    if query == "getSupportedFormats" then StartStreamAction
    else if query == "play" then IgnoreReply
    else ReportReply
  }

  /** A reply echoing the query of any request this component sends is never reported as nonsense. */
  lemma OwnQueriesNeverReported(r: CastRequest)
    requires r.PlayQuery? ==> r.play.query == "play"
    ensures Dispatch(QueryOf(r)) != ReportReply
  {
  }

  /** A reply from the receiver, already parsed from JSON. */
  datatype Reply = Reply(query: string, formats: SupportedFormats)

  /** What toggleConnect asks of the Cast context. */
  datatype ConnectAction = NoAction | EndSession | RequestSession

  function ToggleConnect(hasContext: bool, ccConnected: bool): (a: ConnectAction)
    ensures a == NoAction <==> !hasContext
    ensures hasContext ==> (a == EndSession <==> ccConnected)
    ensures hasContext ==> (a == RequestSession <==> !ccConnected)
  {
    if !hasContext then NoAction
    else if ccConnected then EndSession
    else RequestSession
  }

  type SnackbarKey = nat

  /** One call into the snackbar provider. */
  datatype SnackbarEvent = Enqueued(key: SnackbarKey, warning: Warning) | Closed(key: SnackbarKey)

  /** The snackbars of this component that are still on screen after `log`. */
  function OpenSnackbars(log: seq<SnackbarEvent>): set<SnackbarKey> {
    if log == [] then {}
    else
      var rest := OpenSnackbars(log[..|log| - 1]);
      match log[|log| - 1]
      case Enqueued(k, _) => rest + {k}
      case Closed(k) => rest - {k}
  }

  /** The warnings enqueued in `log`, in order. */
  function WarningsOf(log: seq<SnackbarEvent>): seq<Warning> {
    if log == [] then []
    else
      var rest := WarningsOf(log[..|log| - 1]);
      match log[|log| - 1]
      case Enqueued(_, w) => rest + [w]
      case Closed(_) => rest
  }

  /** Every snackbar still open after `log` is one that `log` enqueued. */
  lemma {:induction false} OpenSnackbarsWereEnqueued(log: seq<SnackbarEvent>, k: SnackbarKey)
    requires k in OpenSnackbars(log)
    ensures exists i :: 0 <= i < |log| && log[i].Enqueued? && log[i].key == k
  {
    var rest := log[..|log| - 1];
    var last := log[|log| - 1];
    if last.Enqueued? && last.key == k {
      assert log[|log| - 1].Enqueued? && log[|log| - 1].key == k;
    } else {
      assert k in OpenSnackbars(rest);
      OpenSnackbarsWereEnqueued(rest, k);
      var i :| 0 <= i < |rest| && rest[i].Enqueued? && rest[i].key == k;
      assert log[i] == rest[i];
    }
  }

  lemma AppendEvent(log: seq<SnackbarEvent>, e: SnackbarEvent)
    ensures OpenSnackbars(log + [e]) == if e.Enqueued? then OpenSnackbars(log) + {e.key} else OpenSnackbars(log) - {e.key}
    ensures WarningsOf(log + [e]) == if e.Enqueued? then WarningsOf(log) + [e.warning] else WarningsOf(log)
  {
  }

  /**
   * Going from snackbar log `log0` with tracked key `status0` to `log` and
   * `status` enqueued exactly the warnings `ws`, and the tracked snackbar is
   * the one showing the last of them (nothing changed when `ws` is empty).
   */
  ghost predicate EmittedFrom(log0: seq<SnackbarEvent>, status0: Option<SnackbarKey>,
                              log: seq<SnackbarEvent>, status: Option<SnackbarKey>, ws: seq<Warning>)
  {
    && WarningsOf(log) == WarningsOf(log0) + ws
    && (ws == [] ==> log == log0 && status == status0)
    && (ws != [] ==> status.Some? && |log| > 0 && log[|log| - 1] == Enqueued(status.value, ws[|ws| - 1]))
  }

  lemma EmittedInSequence(log0: seq<SnackbarEvent>, status0: Option<SnackbarKey>,
                          log1: seq<SnackbarEvent>, status1: Option<SnackbarKey>,
                          log2: seq<SnackbarEvent>, status2: Option<SnackbarKey>,
                          ws1: seq<Warning>, ws2: seq<Warning>)
    requires EmittedFrom(log0, status0, log1, status1, ws1)
    requires EmittedFrom(log1, status1, log2, status2, ws2)
    ensures EmittedFrom(log0, status0, log2, status2, ws1 + ws2)
  {
  }

  class ChromecastSupport {
    /** `statusSnackbar.current` */
    var statusSnackbar: Option<SnackbarKey>
    /** The key the snackbar provider hands out next. */
    var nextSnackbarKey: SnackbarKey
    var snackbars: seq<SnackbarEvent>
    /** `querySentForStream.current`; null and undefined both read as `None`. */
    var querySentForStream: Option<Selection<CastProtocol>>
    /** Whether `ccSession.current` is set. */
    var hasSession: bool
    var sent: seq<CastRequest>

    /** Of the snackbars this component enqueued, only the tracked one is still on screen. */
    ghost predicate Valid()
      reads this
    {
      && (forall i :: 0 <= i < |snackbars| ==> snackbars[i].key < nextSnackbarKey)
      && (statusSnackbar.Some? ==> statusSnackbar.value < nextSnackbarKey)
      && OpenSnackbars(snackbars) == (if statusSnackbar.Some? then {statusSnackbar.value} else {})
    }

    /** The snackbar the component tracks was enqueued by it, and is the only one still open. */
    lemma TrackedSnackbarWasEnqueued()
      requires Valid()
      requires statusSnackbar.Some?
      ensures exists i :: 0 <= i < |snackbars| && snackbars[i].Enqueued? && snackbars[i].key == statusSnackbar.value
      ensures forall k :: k in OpenSnackbars(snackbars) <==> k == statusSnackbar.value
    {
      OpenSnackbarsWereEnqueued(snackbars, statusSnackbar.value);
    }

    constructor ()
      ensures Valid()
      ensures statusSnackbar == None && snackbars == [] && querySentForStream == None
      ensures !hasSession && sent == []
    {
      statusSnackbar := None;
      nextSnackbarKey := 0;
      snackbars := [];
      querySentForStream := None;
      hasSession := false;
      sent := [];
    }

    /**
     * Closes the tracked snackbar, if any, then enqueues and tracks the new
     * warning, or tracks nothing when there is none.
     */
    method EmitWarning(warning: Option<Warning>)
      requires Valid()
      modifies this
      ensures Valid()
      ensures snackbars == old(snackbars)
                + (if old(statusSnackbar).Some? then [Closed(old(statusSnackbar).value)] else [])
                + (if warning.Some? then [Enqueued(old(nextSnackbarKey), warning.value)] else [])
      ensures statusSnackbar == if warning.Some? then Some(old(nextSnackbarKey)) else None
      ensures WarningsOf(snackbars) == WarningsOf(old(snackbars)) + (if warning.Some? then [warning.value] else [])
      ensures OpenSnackbars(snackbars) == if warning.Some? then {old(nextSnackbarKey)} else {}
      ensures warning.Some? ==> EmittedFrom(old(snackbars), old(statusSnackbar), snackbars, statusSnackbar, [warning.value])
      ensures querySentForStream == old(querySentForStream) && hasSession == old(hasSession) && sent == old(sent)
    {
      if statusSnackbar.Some? {
        AppendEvent(snackbars, Closed(statusSnackbar.value));
        snackbars := snackbars + [Closed(statusSnackbar.value)];
      }
      if warning.Some? {
        AppendEvent(snackbars, Enqueued(nextSnackbarKey, warning.value));
        snackbars := snackbars + [Enqueued(nextSnackbarKey, warning.value)];
        statusSnackbar := Some(nextSnackbarKey);
        nextSnackbarKey := nextSnackbarKey + 1;
      } else {
        statusSnackbar := None;
      }
    }

    /**
     * One `if (...) emitWarning(...)` step of streamSelectionToPlayRequest,
     * continuing a run that has emitted `ws` since `log0` and `status0`.
     */
    method EmitWhen(condition: bool, warning: Warning,
                    ghost log0: seq<SnackbarEvent>, ghost status0: Option<SnackbarKey>, ghost ws: seq<Warning>)
      requires Valid()
      requires EmittedFrom(log0, status0, snackbars, statusSnackbar, ws)
      modifies this
      ensures Valid()
      ensures EmittedFrom(log0, status0, snackbars, statusSnackbar, ws + Guarded(condition, warning))
      ensures querySentForStream == old(querySentForStream) && hasSession == old(hasSession) && sent == old(sent)
    {
      if condition {
        ghost var log1, status1 := snackbars, statusSnackbar;
        EmitWarning(Some(warning));
        EmittedInSequence(log0, status0, log1, status1, snackbars, statusSnackbar, ws, [warning]);
      } else {
        assert ws + Guarded(condition, warning) == ws;
      }
    }

    method CloseWarning()
      requires Valid()
      modifies this
      ensures Valid()
      ensures statusSnackbar == None && OpenSnackbars(snackbars) == {}
      ensures snackbars == old(snackbars) + (if old(statusSnackbar).Some? then [Closed(old(statusSnackbar).value)] else [])
      ensures WarningsOf(snackbars) == WarningsOf(old(snackbars))
      ensures querySentForStream == old(querySentForStream) && hasSession == old(hasSession) && sent == old(sent)
    {
      EmitWarning(None);
    }

    /**
     * streamSelectionToPlayRequest: no request for no selection; otherwise the
     * play request for the final protocol, after emitting the warnings one by
     * one, so that only the last of them stays on screen.
     */
    method StreamSelectionToPlayRequest(selection: Option<Selection<CastProtocol>>, formats: SupportedFormats)
      returns (request: Option<PlayRequest>)
      requires Valid()
      modifies this
      ensures Valid()
      ensures selection.None? ==> request.None? && snackbars == old(snackbars) && statusSnackbar == old(statusSnackbar)
      ensures selection.Some? ==> request == Some(PlayRequestFor(selection.value, formats))
      ensures selection.Some? ==>
                EmittedFrom(old(snackbars), old(statusSnackbar), snackbars, statusSnackbar, PlayWarnings(selection.value, formats))
      ensures querySentForStream == old(querySentForStream) && hasSession == old(hasSession) && sent == old(sent)
    {
      if selection.None? {
        return None;
      }
      var s := selection.value;
      var protocol := s.protocol;
      ghost var log0, status0 := snackbars, statusSnackbar;
      assert WarningsOf(log0) + [] == WarningsOf(log0);
      ghost var emitted: seq<Warning> := [];

      EmitWhen(protocol == Hls, Warning(HlsLatency, InfoVariant), log0, status0, emitted);
      emitted := emitted + Guarded(protocol == Hls, Warning(HlsLatency, InfoVariant));

      var downgrade := !formats.h265At2160p30 && (protocol == WebRtcTcp || protocol == WebRtcUdp);
      EmitWhen(downgrade, Warning(WebRtcUnsupported, WarningVariant), log0, status0, emitted);
      emitted := emitted + Guarded(downgrade, Warning(WebRtcUnsupported, WarningVariant));
      if downgrade {
        protocol := Hls;
      }

      var uncertain := !formats.h264At1080p60 && protocol == LlHls;
      EmitWhen(uncertain, Warning(LlHlsUncertain, WarningVariant), log0, status0, emitted);
      emitted := emitted + Guarded(uncertain, Warning(LlHlsUncertain, WarningVariant));

      var wide := !formats.h264At1080p60 && s.stream.video.width > 1280 && s.stream.video.framerate > 30.0;
      EmitWhen(wide, Warning(No1080p60, WarningVariant), log0, status0, emitted);
      emitted := emitted + Guarded(wide, Warning(No1080p60, WarningVariant));

      StepsMatchPlayWarnings(s, formats, downgrade, protocol, uncertain, wide);
      request := Some(PlayRequest("play", BamApi.UrlAt(s.stream, BamApi.MainQuality, protocol), PlayerTypeOf(protocol)));
    }

    /** sendRequest: a request goes out only while a session is set. */
    method SendRequest(request: CastRequest)
      modifies this
      ensures sent == if hasSession then old(sent) + [request] else old(sent)
      ensures statusSnackbar == old(statusSnackbar) && nextSnackbarKey == old(nextSnackbarKey)
      ensures snackbars == old(snackbars) && querySentForStream == old(querySentForStream)
      ensures hasSession == old(hasSession)
    {
      if hasSession {
        sent := sent + [request];
      }
    }

    /** A sent message was rejected: the failure replaces the tracked warning. */
    method OnSendFailed(error: string)
      requires Valid()
      modifies this
      ensures Valid()
      ensures EmittedFrom(old(snackbars), old(statusSnackbar), snackbars, statusSnackbar, [Warning(SendFailed(error), ErrorVariant)])
      ensures OpenSnackbars(snackbars) == {statusSnackbar.value}
      ensures querySentForStream == old(querySentForStream) && hasSession == old(hasSession) && sent == old(sent)
    {
      EmitWarning(Some(Warning(SendFailed(error), ErrorVariant)));
    }

    /**
     * startStream: nothing happens while no selection is pending; otherwise the
     * pending selection's play request is sent.
     */
    method StartStream(formats: SupportedFormats)
      requires Valid()
      modifies this
      ensures Valid()
      ensures querySentForStream == old(querySentForStream) && hasSession == old(hasSession)
      ensures old(querySentForStream).None? ==>
                snackbars == old(snackbars) && statusSnackbar == old(statusSnackbar) && sent == old(sent)
      ensures old(querySentForStream).Some? ==>
                var s := old(querySentForStream).value;
                && WarningsOf(snackbars) == WarningsOf(old(snackbars)) + PlayWarnings(s, formats)
                && sent == old(sent) + (if hasSession then [PlayQuery(PlayRequestFor(s, formats))] else [])
    {
      var streamSelection := querySentForStream;
      if streamSelection.None? {
        return;
      }
      var playRequest := StreamSelectionToPlayRequest(streamSelection, formats);
      if playRequest.Some? {
        SendRequest(PlayQuery(playRequest.value));
      }
    }

    /**
     * messageListener: a formats reply starts the pending stream, a play reply
     * is ignored, anything else is reported as an error.
     */
    method MessageListener(reply: Reply, messageString: string)
      requires Valid()
      modifies this
      ensures Valid()
      ensures querySentForStream == old(querySentForStream) && hasSession == old(hasSession)
      ensures Dispatch(reply.query) == IgnoreReply ==>
                snackbars == old(snackbars) && statusSnackbar == old(statusSnackbar) && sent == old(sent)
      ensures Dispatch(reply.query) == ReportReply ==>
                && WarningsOf(snackbars) == WarningsOf(old(snackbars)) + [Warning(NonsenseReply(messageString), ErrorVariant)]
                && statusSnackbar.Some? && OpenSnackbars(snackbars) == {statusSnackbar.value}
                && sent == old(sent)
      ensures Dispatch(reply.query) == StartStreamAction && querySentForStream.None? ==>
                snackbars == old(snackbars) && statusSnackbar == old(statusSnackbar) && sent == old(sent)
      ensures Dispatch(reply.query) == StartStreamAction && querySentForStream.Some? ==>
                var s := querySentForStream.value;
                && WarningsOf(snackbars) == WarningsOf(old(snackbars)) + PlayWarnings(s, reply.formats)
                && sent == old(sent) + (if hasSession then [PlayQuery(PlayRequestFor(s, reply.formats))] else [])
    {
      match Dispatch(reply.query)
      case StartStreamAction =>
        StartStream(reply.formats);
      case IgnoreReply =>
      case ReportReply =>
        EmitWarning(Some(Warning(NonsenseReply(messageString), ErrorVariant)));
    }

    /**
     * The session effect: without a connection or a context the warning is
     * closed and the session forgotten; with a started or resumed session it is
     * kept (and its message listener installed).
     */
    method SessionEffect(ccConnected: bool, hasContext: bool, sessionActive: bool)
      requires Valid()
      modifies this
      ensures Valid()
      ensures !ccConnected || !hasContext ==> !hasSession && statusSnackbar == None && OpenSnackbars(snackbars) == {}
      ensures ccConnected && hasContext ==>
                hasSession == (old(hasSession) || sessionActive) &&
                snackbars == old(snackbars) && statusSnackbar == old(statusSnackbar)
      ensures WarningsOf(snackbars) == WarningsOf(old(snackbars))
      ensures querySentForStream == old(querySentForStream) && sent == old(sent)
    {
      if !ccConnected || !hasContext {
        CloseWarning();
        hasSession := false;
        return;
      }
      if sessionActive {
        hasSession := true;
      }
    }

    /** A new selection closes the tracked warning. */
    method SelectionChangedEffect()
      requires Valid()
      modifies this
      ensures Valid()
      ensures statusSnackbar == None && OpenSnackbars(snackbars) == {}
      ensures WarningsOf(snackbars) == WarningsOf(old(snackbars))
      ensures querySentForStream == old(querySentForStream) && hasSession == old(hasSession) && sent == old(sent)
    {
      CloseWarning();
    }

    /** With a session, remember the selection as pending and ask the receiver for its formats. */
    method QueryEffect(selection: Option<Selection<CastProtocol>>)
      modifies this
      ensures !old(hasSession) ==> querySentForStream == old(querySentForStream) && sent == old(sent)
      ensures old(hasSession) ==> querySentForStream == selection && sent == old(sent) + [SupportedFormatsQuery]
      ensures statusSnackbar == old(statusSnackbar) && nextSnackbarKey == old(nextSnackbarKey)
      ensures snackbars == old(snackbars) && hasSession == old(hasSession)
    {
      if !hasSession {
        return;
      }
      querySentForStream := selection;
      SendRequest(SupportedFormatsQuery);
    }
  }
}
