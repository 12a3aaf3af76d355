/**
 * The older class-based stream selector (src/StreamSelector.js): a drawer
 * that polls the stream list while open and remembers a stream and protocol
 * chosen by the card and protocol buttons.
 *
 * Protocols are plain strings here, as in that revision. Timers and fetches
 * are modelled as pending work: the constructor and the callbacks record what
 * they schedule, and the `On...` methods are the moments it completes.
 */
module StreamSelectorJs {
  import opened Wrappers
  import opened Assoc
  import opened BamApi

  /**
   * The `selectStream` toggle on (stream, protocol): choosing the pair already
   * held clears both, anything else is stored as given. `None` stands for both
   * null and undefined, which `==` does not tell apart.
   */
  function Toggled(current: (Option<string>, Option<string>), stream: Option<string>, protocol: Option<string>)
    : (r: (Option<string>, Option<string>))
    ensures r == (None, None) <==> current == (stream, protocol) || (stream, protocol) == (None, None)
    ensures current != (stream, protocol) ==> r == (stream, protocol)
  {
    if current == (stream, protocol) then (None, None) else (stream, protocol)
  }

  /** Choosing the same pair twice from the unselected state leaves nothing selected. */
  lemma SelectTwiceFromUnselected(stream: Option<string>, protocol: Option<string>)
    ensures Toggled(Toggled((None, None), stream, protocol), stream, protocol) == (None, None)
  {
  }

  /**
   * Choosing the same pair twice from any state: the pair stays selected when
   * it was already held, otherwise the selection ends up empty.
   */
  lemma SelectTwice(current: (Option<string>, Option<string>), stream: Option<string>, protocol: Option<string>)
    ensures Toggled(Toggled(current, stream, protocol), stream, protocol) ==
            if current == (stream, protocol) then (stream, protocol) else (None, None)
  {
  }

  /** One stream card: its key, name, thumbnail, selected flag and protocol buttons. */
  datatype StreamCard = StreamCard(key: string, name: string, thumbnail: Option<string>, selected: bool, protocols: seq<string>)

  datatype SelectorContent = WaitingBox | StreamCards(cards: seq<StreamCard>)

  datatype SelectorView = SelectorView(drawerOpen: bool, content: SelectorContent)

  /** The protocol names offered for the `main` rendition, in map order. */
  function MainProtocolNames(s: StreamSpec<string>): (names: seq<string>)
    ensures |names| == |ProtocolsAt(s, MainQuality)|
    ensures forall j :: 0 <= j < |names| ==> names[j] == ProtocolsAt(s, MainQuality)[j].key
  {
    var ps := ProtocolsAt(s, MainQuality);
    seq(|ps|, j requires 0 <= j < |ps| => ps[j].key)
  }

  /** A thumbnail is shown only when it is a non-empty string. */
  function ShownThumbnail(thumbnail: Option<string>): (r: Option<string>)
    ensures r.Some? <==> thumbnail.Some? && thumbnail.value != ""
    ensures r.Some? ==> r == thumbnail
  {
    if thumbnail.Some? && thumbnail.value != "" then thumbnail else None
  }

  class StreamSelector {
    var open: bool
    var streams: StreamMap<string>
    var selectedStream: Option<string>
    var selectedProtocol: Option<string>
    var updateScheduled: bool
    var refreshKey: int
    /** Whether the constructor's deferred `open()` is still pending. */
    var openDeferred: bool
    /** Reschedule timers installed by `updateStreams` and not yet fired. */
    var pendingTimers: nat
    /** Fetches in flight started by `updateStreamsOnce` alone. */
    var plainFetches: nat
    /** Fetches in flight started by `updateStreams`, which may reschedule on completion. */
    var reschedulingFetches: nat

    /** A reschedule timer is pending exactly while `updateScheduled` is set, so there is at most one. */
    ghost predicate Valid()
      reads this
    {
      pendingTimers == if updateScheduled then 1 else 0
    }

    /**
     * Starts closed, with no streams and no selection; either defers `open()`
     * or starts a single fetch.
     */
    constructor (defaultOpen: bool, now: int)
      ensures Valid()
      ensures !open && streams == [] && selectedStream == None && selectedProtocol == None
      ensures !updateScheduled && refreshKey == now && pendingTimers == 0 && reschedulingFetches == 0
      ensures openDeferred == defaultOpen && plainFetches == if defaultOpen then 0 else 1
    {
      open := false;
      streams := [];
      selectedStream := None;
      selectedProtocol := None;
      updateScheduled := false;
      refreshKey := now;
      pendingTimers := 0;
      reschedulingFetches := 0;
      if defaultOpen {
        openDeferred := true;
        plainFetches := 0;
      } else {
        openDeferred := false;
        plainFetches := 1;
      }
    }

    /** `open()`: opens the drawer and starts a fetch that may reschedule. */
    method Open()
      requires Valid()
      modifies this
      ensures Valid()
      ensures open && reschedulingFetches == old(reschedulingFetches) + 1
      ensures streams == old(streams) && selectedStream == old(selectedStream) && selectedProtocol == old(selectedProtocol)
      ensures updateScheduled == old(updateScheduled) && pendingTimers == old(pendingTimers)
      ensures refreshKey == old(refreshKey) && plainFetches == old(plainFetches) && openDeferred == old(openDeferred)
    {
      open := true;
      UpdateStreams();
    }

    /** The constructor's deferred `open()` runs. */
    method OnDeferredOpen()
      requires Valid() && openDeferred
      modifies this
      ensures Valid()
      ensures open && !openDeferred && reschedulingFetches == old(reschedulingFetches) + 1
      ensures streams == old(streams) && selectedStream == old(selectedStream) && selectedProtocol == old(selectedProtocol)
      ensures updateScheduled == old(updateScheduled) && pendingTimers == old(pendingTimers)
      ensures refreshKey == old(refreshKey) && plainFetches == old(plainFetches)
    {
      openDeferred := false;
      Open();
    }

    /** `close()`: only the open flag changes; pending timers and fetches stay. */
    method Close()
      modifies this
      ensures !open
      ensures streams == old(streams) && selectedStream == old(selectedStream) && selectedProtocol == old(selectedProtocol)
      ensures updateScheduled == old(updateScheduled) && pendingTimers == old(pendingTimers)
      ensures refreshKey == old(refreshKey) && openDeferred == old(openDeferred)
      ensures plainFetches == old(plainFetches) && reschedulingFetches == old(reschedulingFetches)
    {
      open := false;
    }

    /** `updateStreams()`: starts a fetch whose completion may reschedule. */
    method UpdateStreams()
      modifies this
      ensures reschedulingFetches == old(reschedulingFetches) + 1
      ensures open == old(open) && streams == old(streams)
      ensures selectedStream == old(selectedStream) && selectedProtocol == old(selectedProtocol)
      ensures updateScheduled == old(updateScheduled) && pendingTimers == old(pendingTimers)
      ensures refreshKey == old(refreshKey) && plainFetches == old(plainFetches) && openDeferred == old(openDeferred)
    {
      reschedulingFetches := reschedulingFetches + 1;
    }

    /** `updateStreamsOnce()` on its own: starts a fetch that never reschedules. */
    method UpdateStreamsOnce()
      modifies this
      ensures plainFetches == old(plainFetches) + 1
      ensures open == old(open) && streams == old(streams)
      ensures selectedStream == old(selectedStream) && selectedProtocol == old(selectedProtocol)
      ensures updateScheduled == old(updateScheduled) && pendingTimers == old(pendingTimers)
      ensures refreshKey == old(refreshKey) && reschedulingFetches == old(reschedulingFetches)
      ensures openDeferred == old(openDeferred)
    {
      plainFetches := plainFetches + 1;
    }

    /**
     * A fetch completes with `fetched` at time `now`: the map and the refresh
     * key are replaced; a rescheduling fetch that finds the drawer open installs
     * a timer unless one is already pending, and marks one as scheduled.
     */
    method OnFetchCompleted(fetched: StreamMap<string>, now: int, rescheduling: bool)
      requires Valid()
      requires if rescheduling then reschedulingFetches > 0 else plainFetches > 0
      modifies this
      ensures Valid()
      ensures streams == fetched && refreshKey == now
      ensures rescheduling ==> reschedulingFetches == old(reschedulingFetches) - 1 && plainFetches == old(plainFetches)
      ensures !rescheduling ==> plainFetches == old(plainFetches) - 1 && reschedulingFetches == old(reschedulingFetches)
      ensures updateScheduled == (old(updateScheduled) || (rescheduling && open))
      ensures pendingTimers == if rescheduling && open && !old(updateScheduled) then 1 else old(pendingTimers)
      ensures open == old(open) && selectedStream == old(selectedStream) && selectedProtocol == old(selectedProtocol)
      ensures openDeferred == old(openDeferred)
    {
      refreshKey := now;
      streams := fetched;
      if rescheduling {
        reschedulingFetches := reschedulingFetches - 1;
        if open {
          if !updateScheduled {
            pendingTimers := pendingTimers + 1;
          }
          updateScheduled := true;
        }
      } else {
        plainFetches := plainFetches - 1;
      }
    }

    /** The reschedule timer fires: the flag is cleared and a new rescheduling fetch starts. */
    method OnRescheduleTimer()
      requires Valid() && pendingTimers > 0
      modifies this
      ensures Valid()
      ensures !updateScheduled && pendingTimers == 0
      ensures reschedulingFetches == old(reschedulingFetches) + 1
      ensures open == old(open) && streams == old(streams)
      ensures selectedStream == old(selectedStream) && selectedProtocol == old(selectedProtocol)
      ensures refreshKey == old(refreshKey) && plainFetches == old(plainFetches) && openDeferred == old(openDeferred)
    {
      pendingTimers := pendingTimers - 1;
      updateScheduled := false;
      UpdateStreams();
    }

    /** `selectStream(stream, protocol)` */
    method SelectStream(stream: Option<string>, protocol: Option<string>)
      modifies this
      ensures (selectedStream, selectedProtocol) == Toggled((old(selectedStream), old(selectedProtocol)), stream, protocol)
      ensures open == old(open) && streams == old(streams)
      ensures updateScheduled == old(updateScheduled) && pendingTimers == old(pendingTimers)
      ensures refreshKey == old(refreshKey) && openDeferred == old(openDeferred)
      ensures plainFetches == old(plainFetches) && reschedulingFetches == old(reschedulingFetches)
    {
      if stream == selectedStream && selectedProtocol == protocol {
        selectedStream, selectedProtocol := None, None;
      } else {
        selectedStream, selectedProtocol := stream, protocol;
      }
    }

    /**
     * `render()`: the drawer follows `open`; an empty map shows the waiting box,
     * otherwise there is one card per stream, in map order, selected exactly
     * when its key is the selected stream, with one button per protocol of `main`.
     */
    function Render(): (v: SelectorView)
      reads this
      ensures v.drawerOpen == open
      ensures v.content.WaitingBox? <==> |streams| == 0
      ensures v.content.StreamCards? ==> |v.content.cards| == |streams|
      ensures v.content.StreamCards? ==> forall i :: 0 <= i < |streams| ==>
                && v.content.cards[i].key == streams[i].key
                && v.content.cards[i].name == streams[i].value.name
                && v.content.cards[i].thumbnail == ShownThumbnail(streams[i].value.thumbnail)
                && (v.content.cards[i].selected <==> selectedStream == Some(streams[i].key))
                && v.content.cards[i].protocols == MainProtocolNames(streams[i].value)
    {
      var content :=
        if |streams| == 0 then WaitingBox
        else StreamCards(seq(|streams|, i requires 0 <= i < |streams| reads this =>
          StreamCard(streams[i].key, streams[i].value.name, ShownThumbnail(streams[i].value.thumbnail),
                     selectedStream == Some(streams[i].key), MainProtocolNames(streams[i].value))));
      SelectorView(open, content)
    }
  }

  /** With distinct keys, at most one card is shown as selected. */
  lemma AtMostOneCardSelected(s: StreamSelector, i: nat, j: nat)
    requires UniqueKeys(s.streams)
    requires s.Render().content.StreamCards?
    requires i < |s.Render().content.cards| && j < |s.Render().content.cards|
    requires s.Render().content.cards[i].selected && s.Render().content.cards[j].selected
    ensures i == j
  {
  }
}
