/**
 * The stream manager (src/StreamManager.ts): it holds the latest stream map,
 * the current selection and the auto-start flag, polls the endpoint on a timer
 * and reports changes to two listeners.
 *
 * The timer, the network fetch, the clock and local storage are outside the
 * model: the interval handle is a `TimerState`, a fetch is counted when it is
 * issued and its continuation is the method `OnStreamsFetched`, which receives
 * the delivered map and the current time. Listeners are opaque identities and
 * every call of a listener is recorded in `notifications`.
 */
module StreamManager {
  import opened Wrappers
  import opened Assoc
  import opened BamApi

  /** `DEFAULT_PROTOCOL` */
  const DefaultProtocol: Protocol := WebRtcUdp

  /** `StreamSelectionRequest`; the quality field exists only in the later revisions. */
  datatype Request<P> = Request(key: Option<string>, protocol: Option<P>, quality: Option<string>)

  /** `NO_SELECTION` */
  function NoSelection<P>(): Request<P> {
    Request(None, None, None)
  }

  /** A non-null `StreamSelection`; `quality` exists only in the later revisions. */
  datatype Selection<P> = Selection(key: string, stream: StreamSpec<P>, quality: string, protocol: P)

  /** `AvailableStreamUpdate` */
  datatype StreamsUpdate = StreamsUpdate(streamMap: StreamMap<Protocol>, refreshTimestamp: int)

  /** The identity of a listener callback; 0 is the no-op listener installed at construction. */
  type ListenerId = nat

  const NoOpListener: ListenerId := 0

  /** One call of a listener, with the value it was given. */
  datatype Notification =
    | StreamsNotified(listener: ListenerId, update: StreamsUpdate)
    | SelectionNotified(listener: ListenerId, selection: Option<Selection<Protocol>>)

  /** Whether the stream offers protocol `p` in its `main` table. */
  predicate Offers(s: StreamSpec<Protocol>, p: Protocol) {
    HasKey(ProtocolsAt(s, MainQuality), p)
  }

  /**
   * The selection `requestStreamSelection` installs for `request` against the
   * current map: none for a null or unknown key, otherwise that key's stream with
   * the requested protocol when the stream offers it and the default protocol
   * when it does not.
   */
  function SelectionFor(request: Request<Protocol>, streams: StreamMap<Protocol>): (r: Option<Selection<Protocol>>)
    ensures r.None? <==> request.key.None? || !HasKey(streams, request.key.value)
    ensures r.Some? ==> Some(r.value.key) == request.key && Lookup(streams, r.value.key) == Some(r.value.stream)
    ensures r.Some? ==> r.value.quality == MainQuality
    ensures r.Some? && request.protocol.Some? && Offers(r.value.stream, request.protocol.value) ==>
              r.value.protocol == request.protocol.value
    ensures r.Some? && (request.protocol.None? || !Offers(r.value.stream, request.protocol.value)) ==>
              r.value.protocol == DefaultProtocol
  {
    match request.key
    case None => None
    case Some(key) =>
      match Lookup(streams, key)
      case None => None
      case Some(stream) =>
        var protocol :=
          if request.protocol.Some? && Offers(stream, request.protocol.value)
          then request.protocol.value else DefaultProtocol;
        Some(Selection(key, stream, MainQuality, protocol))
  }

  /** What every selection this manager installs satisfies. */
  predicate WellFormed(s: Selection<Protocol>) {
    s.quality == MainQuality && (Offers(s.stream, s.protocol) || s.protocol == DefaultProtocol)
  }

  /** A selected protocol is one the stream offers, unless it is the fallback. */
  lemma SelectionForIsWellFormed(request: Request<Protocol>, streams: StreamMap<Protocol>)
    ensures SelectionFor(request, streams).Some? ==> WellFormed(SelectionFor(request, streams).value)
  {
  }

  /**
   * The fallback is not checked against the stream: requesting the default
   * protocol keeps it even when the stream does not offer it, so "the chosen
   * protocol is the requested one" does not imply that the stream offers it.
   */
  lemma DefaultKeptWhenNotOffered(key: string, streams: StreamMap<Protocol>)
    requires HasKey(streams, key)
    requires !Offers(Lookup(streams, key).value, DefaultProtocol)
    ensures var r := SelectionFor(Request(Some(key), Some(DefaultProtocol), None), streams);
            r.Some? && r.value.protocol == DefaultProtocol && !Offers(r.value.stream, r.value.protocol)
  {
  }

  /** Whether checkAutoStart installs a selection. */
  predicate AutoStartApplies(autoStart: bool, selected: Option<Selection<Protocol>>, streams: StreamMap<Protocol>) {
    autoStart && selected.None? && |streams| > 0
  }

  /** The selection checkAutoStart installs: the first entry with the default protocol. */
  function AutoStartSelection(streams: StreamMap<Protocol>): (s: Selection<Protocol>)
    requires |streams| > 0
    ensures s.key == streams[0].key && s.stream == streams[0].value && s.protocol == DefaultProtocol
    ensures WellFormed(s)
  {
    Selection(streams[0].key, streams[0].value, MainQuality, DefaultProtocol)
  }

  /**
   * Auto-start selects what a request for the first stream without a protocol
   * preference would select.
   */
  lemma AutoStartIsFirstStreamRequest(streams: StreamMap<Protocol>)
    requires |streams| > 0
    ensures SelectionFor(Request(Some(streams[0].key), None, None), streams) == Some(AutoStartSelection(streams))
  {
  }

  /**
   * The interval handle: `Unset` until startUpdates installs it, `Running` while
   * it fires, `Cleared` once stopUpdates cleared it (the handle stays set).
   */
  datatype TimerState = Unset | Running | Cleared

  /** startUpdates installs the interval only when no handle is set. */
  function AfterStart(t: TimerState): (r: TimerState)
    ensures r != Unset
    ensures t == Unset ==> r == Running
    ensures t != Unset ==> r == t
  {
    if t == Unset then Running else t
  }

  /** stopUpdates as written: it clears the interval and keeps the handle. */
  function AfterStop(t: TimerState): (r: TimerState)
    ensures r != Running
    ensures r == Unset <==> t == Unset
  {
    if t == Unset then Unset else Cleared
  }

  /** stopUpdates as evidently intended: clear the interval and forget the handle. */
  function AfterStopAndReset(t: TimerState): (r: TimerState)
    ensures r == Unset
  {
    Unset
  }

  /** The timer state after `n` calls of startUpdates. */
  function StartedTimes(t: TimerState, n: nat): TimerState {
    if n == 0 then t else AfterStart(StartedTimes(t, n - 1))
  }

  /** As written, once updates were stopped no number of later startUpdates calls restarts them. */
  lemma {:induction false} StopIsPermanent(t: TimerState, n: nat)
    requires t != Unset
    ensures AfterStart(AfterStop(t)) == Cleared
    ensures StartedTimes(AfterStop(t), n) == Cleared
  {
    if n > 0 {
      StopIsPermanent(t, n - 1);
    }
  }

  /** With the handle forgotten, the next startUpdates installs a running interval again. */
  lemma StopAndResetThenStartRuns(t: TimerState)
    ensures AfterStopAndReset(t) != Running
    ensures AfterStart(AfterStopAndReset(t)) == Running
  {
  }

  class StreamManager {
    var timer: TimerState
    /** Number of fetches issued so far. */
    var fetchesStarted: nat
    var refreshTimestamp: int
    var availableStreams: StreamMap<Protocol>
    var selectedStream: Option<Selection<Protocol>>
    var availableStreamListener: ListenerId
    var selectedStreamListener: ListenerId
    /** `_autoStart` */
    var autoStartFlag: bool
    var notifications: seq<Notification>

    ghost predicate Valid()
      reads this
    {
      selectedStream.Some? ==> WellFormed(selectedStream.value)
    }

    /** `storedAutoStart` is whether local storage held autoStart = '1'. */
    constructor (storedAutoStart: bool)
      ensures Valid()
      ensures timer == Running && fetchesStarted == 1
      ensures refreshTimestamp == 0 && availableStreams == [] && selectedStream == None
      ensures availableStreamListener == NoOpListener && selectedStreamListener == NoOpListener
      ensures autoStartFlag == storedAutoStart && notifications == []
    {
      timer := Unset;
      fetchesStarted := 0;
      refreshTimestamp := 0;
      availableStreams := [];
      selectedStream := None;
      availableStreamListener := NoOpListener;
      selectedStreamListener := NoOpListener;
      autoStartFlag := storedAutoStart;
      notifications := [];
      new;
      StartUpdates();
    }

    /** The request half of updateStreamsOnce: a fetch is issued. */
    method UpdateStreamsOnce()
      modifies this
      ensures fetchesStarted == old(fetchesStarted) + 1
      ensures timer == old(timer) && refreshTimestamp == old(refreshTimestamp)
      ensures availableStreams == old(availableStreams) && selectedStream == old(selectedStream)
      ensures availableStreamListener == old(availableStreamListener)
      ensures selectedStreamListener == old(selectedStreamListener)
      ensures autoStartFlag == old(autoStartFlag) && notifications == old(notifications)
    {
      fetchesStarted := fetchesStarted + 1;
    }

    /**
     * The continuation of updateStreamsOnce: the delivered map replaces the
     * current one, the streams listener hears it with the new timestamp, and
     * then checkAutoStart runs.
     */
    method OnStreamsFetched(streams: StreamMap<Protocol>, now: int)
      requires Valid()
      modifies this
      ensures Valid()
      ensures availableStreams == streams && refreshTimestamp == now
      ensures var heard := old(notifications) + [StreamsNotified(availableStreamListener, StreamsUpdate(streams, now))];
              if AutoStartApplies(autoStartFlag, old(selectedStream), streams) then
                selectedStream == Some(AutoStartSelection(streams)) &&
                notifications == heard + [SelectionNotified(selectedStreamListener, selectedStream)]
              else
                selectedStream == old(selectedStream) && notifications == heard
      ensures timer == old(timer) && fetchesStarted == old(fetchesStarted)
      ensures availableStreamListener == old(availableStreamListener)
      ensures selectedStreamListener == old(selectedStreamListener)
      ensures autoStartFlag == old(autoStartFlag)
    {
      refreshTimestamp := now;
      availableStreams := streams;
      notifications := notifications + [StreamsNotified(availableStreamListener, StreamsUpdate(streams, refreshTimestamp))];
      CheckAutoStart();
    }

    /**
     * With auto-start on, nothing selected and at least one stream, select the
     * first stream with the default protocol and tell the selection listener;
     * otherwise change nothing.
     */
    method CheckAutoStart()
      requires Valid()
      modifies this
      ensures Valid()
      ensures AutoStartApplies(autoStartFlag, old(selectedStream), availableStreams) ==>
                selectedStream == Some(AutoStartSelection(availableStreams)) &&
                notifications == old(notifications) + [SelectionNotified(selectedStreamListener, selectedStream)]
      ensures !AutoStartApplies(autoStartFlag, old(selectedStream), availableStreams) ==>
                selectedStream == old(selectedStream) && notifications == old(notifications)
      ensures timer == old(timer) && fetchesStarted == old(fetchesStarted)
      ensures refreshTimestamp == old(refreshTimestamp) && availableStreams == old(availableStreams)
      ensures availableStreamListener == old(availableStreamListener)
      ensures selectedStreamListener == old(selectedStreamListener)
      ensures autoStartFlag == old(autoStartFlag)
    {
      if autoStartFlag {
        if selectedStream.None? && |availableStreams| > 0 {
          selectedStream := Some(Selection(availableStreams[0].key, availableStreams[0].value, MainQuality, DefaultProtocol));
          notifications := notifications + [SelectionNotified(selectedStreamListener, selectedStream)];
        }
      }
    }

    /** Installs the interval and fetches at once, but only when no handle is set. */
    method StartUpdates()
      modifies this
      ensures timer == AfterStart(old(timer))
      ensures fetchesStarted == if old(timer) == Unset then old(fetchesStarted) + 1 else old(fetchesStarted)
      ensures refreshTimestamp == old(refreshTimestamp) && availableStreams == old(availableStreams)
      ensures selectedStream == old(selectedStream)
      ensures availableStreamListener == old(availableStreamListener)
      ensures selectedStreamListener == old(selectedStreamListener)
      ensures autoStartFlag == old(autoStartFlag) && notifications == old(notifications)
    {
      if timer == Unset {
        timer := Running;
        UpdateStreamsOnce();
      }
    }

    /** Clears the interval when a handle is set; the handle itself is kept. */
    method StopUpdates()
      modifies this
      ensures timer == AfterStop(old(timer))
      ensures fetchesStarted == old(fetchesStarted)
      ensures refreshTimestamp == old(refreshTimestamp) && availableStreams == old(availableStreams)
      ensures selectedStream == old(selectedStream)
      ensures availableStreamListener == old(availableStreamListener)
      ensures selectedStreamListener == old(selectedStreamListener)
      ensures autoStartFlag == old(autoStartFlag) && notifications == old(notifications)
    {
      if timer != Unset {
        timer := Cleared;
      }
    }

    /** stopUpdates corrected: the handle is forgotten so that startUpdates can install a new one. */
    method StopUpdatesAndReset()
      modifies this
      ensures timer == AfterStopAndReset(old(timer))
      ensures fetchesStarted == old(fetchesStarted)
      ensures refreshTimestamp == old(refreshTimestamp) && availableStreams == old(availableStreams)
      ensures selectedStream == old(selectedStream)
      ensures availableStreamListener == old(availableStreamListener)
      ensures selectedStreamListener == old(selectedStreamListener)
      ensures autoStartFlag == old(autoStartFlag) && notifications == old(notifications)
    {
      timer := Unset;
    }

    /** One firing of the interval; only a running interval fires. */
    method OnTimerTick()
      requires timer == Running
      modifies this
      ensures fetchesStarted == old(fetchesStarted) + 1
      ensures timer == old(timer) && refreshTimestamp == old(refreshTimestamp)
      ensures availableStreams == old(availableStreams) && selectedStream == old(selectedStream)
      ensures availableStreamListener == old(availableStreamListener)
      ensures selectedStreamListener == old(selectedStreamListener)
      ensures autoStartFlag == old(autoStartFlag) && notifications == old(notifications)
    {
      UpdateStreamsOnce();
    }

    /** Fetches at once; restarting the interval's period is not modelled. */
    method UpdateNow()
      modifies this
      ensures fetchesStarted == old(fetchesStarted) + 1
      ensures timer == old(timer) && refreshTimestamp == old(refreshTimestamp)
      ensures availableStreams == old(availableStreams) && selectedStream == old(selectedStream)
      ensures availableStreamListener == old(availableStreamListener)
      ensures selectedStreamListener == old(selectedStreamListener)
      ensures autoStartFlag == old(autoStartFlag) && notifications == old(notifications)
    {
      UpdateStreamsOnce();
    }

    /** Installs the streams listener and replays the current map and timestamp to it. */
    method SetAvailableStreamListener(listener: ListenerId)
      modifies this
      ensures availableStreamListener == listener
      ensures notifications == old(notifications) + [StreamsNotified(listener, StreamsUpdate(availableStreams, refreshTimestamp))]
      ensures timer == old(timer) && fetchesStarted == old(fetchesStarted)
      ensures refreshTimestamp == old(refreshTimestamp) && availableStreams == old(availableStreams)
      ensures selectedStream == old(selectedStream)
      ensures selectedStreamListener == old(selectedStreamListener)
      ensures autoStartFlag == old(autoStartFlag)
    {
      availableStreamListener := listener;
      notifications := notifications + [StreamsNotified(availableStreamListener, StreamsUpdate(availableStreams, refreshTimestamp))];
    }

    /** Installs the selection listener and replays the current selection to it. */
    method SetSelectedStreamListener(listener: ListenerId)
      modifies this
      ensures selectedStreamListener == listener
      ensures notifications == old(notifications) + [SelectionNotified(listener, selectedStream)]
      ensures timer == old(timer) && fetchesStarted == old(fetchesStarted)
      ensures refreshTimestamp == old(refreshTimestamp) && availableStreams == old(availableStreams)
      ensures selectedStream == old(selectedStream)
      ensures availableStreamListener == old(availableStreamListener)
      ensures autoStartFlag == old(autoStartFlag)
    {
      selectedStreamListener := listener;
      notifications := notifications + [SelectionNotified(selectedStreamListener, selectedStream)];
    }

    /**
     * Validates the request against the current map, installs the resulting
     * selection (possibly none) and tells the selection listener exactly once.
     */
    method RequestStreamSelection(request: Request<Protocol>)
      requires Valid()
      modifies this
      ensures Valid()
      ensures selectedStream == SelectionFor(request, availableStreams)
      ensures notifications == old(notifications) + [SelectionNotified(selectedStreamListener, selectedStream)]
      ensures timer == old(timer) && fetchesStarted == old(fetchesStarted)
      ensures refreshTimestamp == old(refreshTimestamp) && availableStreams == old(availableStreams)
      ensures availableStreamListener == old(availableStreamListener)
      ensures selectedStreamListener == old(selectedStreamListener)
      ensures autoStartFlag == old(autoStartFlag)
    {
      if request.key.None? || !HasKey(availableStreams, request.key.value) {
        selectedStream := None;
      } else {
        var key := request.key.value;
        var stream := Lookup(availableStreams, key).value;
        var protocol: Protocol;
        if request.protocol.Some? && Offers(stream, request.protocol.value) {
          protocol := request.protocol.value;
        } else {
          protocol := DefaultProtocol;
        }
        selectedStream := Some(Selection(key, stream, MainQuality, protocol));
      }
      notifications := notifications + [SelectionNotified(selectedStreamListener, selectedStream)];
    }

    method IsStreamAvailable(key: string) returns (available: bool)
      ensures available <==> HasKey(availableStreams, key)
    {
      available := HasKey(availableStreams, key);
    }

    /** The `autoStart` getter. */
    method AutoStart() returns (enabled: bool)
      ensures enabled == autoStartFlag
    {
      enabled := autoStartFlag;
    }

    /** The `autoStart` setter; the write to local storage is not modelled. */
    method SetAutoStart(enabled: bool)
      modifies this
      ensures autoStartFlag == enabled
      ensures timer == old(timer) && fetchesStarted == old(fetchesStarted)
      ensures refreshTimestamp == old(refreshTimestamp) && availableStreams == old(availableStreams)
      ensures selectedStream == old(selectedStream)
      ensures availableStreamListener == old(availableStreamListener)
      ensures selectedStreamListener == old(selectedStreamListener)
      ensures notifications == old(notifications)
    {
      autoStartFlag := enabled;
    }
  }
}
