/**
 * The decisions of the top-level component (src/App.tsx): which sources the
 * player gets, when the player must be rebuilt, when the drawer is forced open,
 * when a selected stream counts as ended and when polling runs.
 */
module App {
  import opened Wrappers
  import opened Assoc
  import opened BamApi
  import opened StreamManager
  import opened StreamSelector
  import Player = OvenPlayerTypes

  /** `PROTOCOL_TO_OVENPLAYER_TYPE` */
  function PlayerTypeOf(p: Protocol): (r: Player.SourceType)
    ensures r != Player.Hls
    ensures r == Player.LlHls <==> p == LlHls
    ensures r == Player.WebRtc <==> p != LlHls
  {
    match p
    case LlHls => Player.LlHls
    case WebRtcUdp => Player.WebRtc
    case WebRtcTcp => Player.WebRtc
  }

  /**
   * `streamSelectionToOvenPlayerSourceList`: nothing for no selection, else the
   * one source of the selected quality and protocol.
   */
  function SourceListOf(selection: Option<Selection<Protocol>>): (r: seq<Player.Source>)
    ensures selection.None? <==> r == []
    ensures selection.Some? ==> |r| == 1
    ensures selection.Some? ==> (r[0].sourceType == Player.WebRtc <==> selection.value.protocol != LlHls)
    ensures selection.Some? ==> (r[0].sourceType == Player.LlHls <==> selection.value.protocol == LlHls)
    ensures selection.Some? ==>
              var s := selection.value;
              (r[0].file.Some? <==> HasKey(ProtocolsAt(s.stream, s.quality), s.protocol))
    ensures selection.Some? && r[0].file.Some? ==>
              var s := selection.value;
              exists j :: 0 <= j < |ProtocolsAt(s.stream, s.quality)| &&
                ProtocolsAt(s.stream, s.quality)[j] == Pair(s.protocol, r[0].file.value)
  {
    match selection
    case None => []
    case Some(s) => [Player.Source(PlayerTypeOf(s.protocol), UrlAt(s.stream, s.quality, s.protocol))]
  }

  /** `SourcesList` */
  datatype SourcesList = SourcesList(sources: seq<Player.Source>, isPlaceholder: bool)

  /**
   * The list the source-list effect computes: the selection's sources, or a
   * placeholder that plays the idle stream as LLHLS when there is one and
   * placeholders are enabled.
   */
  function NextSourcesList(selection: Option<Selection<Protocol>>, idleStreamUrl: Option<string>,
                           usePlaceholderVideo: bool): (r: SourcesList)
    ensures selection.Some? ==> !r.isPlaceholder && r.sources == SourceListOf(selection)
    ensures selection.None? ==> r.isPlaceholder
    ensures selection.None? ==> (r.sources == [] <==> idleStreamUrl.None? || !usePlaceholderVideo)
    ensures selection.None? && r.sources != [] ==> r.sources == [Player.Source(Player.LlHls, idleStreamUrl)]
  {
    if selection.Some? then SourcesList(SourceListOf(selection), false)
    else if idleStreamUrl.None? || !usePlaceholderVideo then SourcesList([], true)
    else SourcesList([Player.Source(Player.LlHls, idleStreamUrl)], true)
  }

  /** `every((v, i) => v.type == ys[i].type && v.file == ys[i].file)` */
  function SameSources(xs: seq<Player.Source>, ys: seq<Player.Source>): (r: bool)
    requires |xs| == |ys|
    ensures r <==> forall i :: 0 <= i < |xs| ==> xs[i].sourceType == ys[i].sourceType && xs[i].file == ys[i].file
  {
    |xs| == 0 || (xs[0].sourceType == ys[0].sourceType && xs[0].file == ys[0].file && SameSources(xs[1..], ys[1..]))
  }

  /** The `same` check: it holds exactly when the two lists are equal as values. */
  function Same(a: SourcesList, b: SourcesList): (r: bool)
    ensures r <==> a == b
  {
    var r := a.isPlaceholder == b.isPlaceholder && |a.sources| == |b.sources| && SameSources(a.sources, b.sources);
    assert r ==> a.sources == b.sources;
    r
  }

  lemma SameIsReflexive(a: SourcesList)
    ensures Same(a, a)
  {
  }

  predicate UserWantsDrawer(mouseOnDrawer: bool, mouseActiveOnDrawerOpener: bool) {
    mouseOnDrawer || mouseActiveOnDrawerOpener
  }

  predicate UserNeedsDrawer(sourcesList: SourcesList, ccConnected: bool, playerState: Player.PlayerState) {
    |sourcesList.sources| == 0 || ccConnected || playerState == Player.Error
  }

  /** The drawer state the drawer effect sets. */
  function DrawerOpenAfterEffect(mouseOnDrawer: bool, mouseActiveOnDrawerOpener: bool, sourcesList: SourcesList,
                                 ccConnected: bool, playerState: Player.PlayerState): (open: bool)
    ensures UserNeedsDrawer(sourcesList, ccConnected, playerState) ==> open
    ensures UserWantsDrawer(mouseOnDrawer, mouseActiveOnDrawerOpener) ==> open
    ensures !open ==> |sourcesList.sources| > 0 && !ccConnected && playerState != Player.Error
    ensures open <==> UserWantsDrawer(mouseOnDrawer, mouseActiveOnDrawerOpener) ||
                      UserNeedsDrawer(sourcesList, ccConnected, playerState)
  {
    UserWantsDrawer(mouseOnDrawer, mouseActiveOnDrawerOpener) || UserNeedsDrawer(sourcesList, ccConnected, playerState)
  }

  /** A click on the backdrop closes the drawer unless the user needs it. */
  function DrawerOpenAfterBackdropClick(open: bool, sourcesList: SourcesList, ccConnected: bool,
                                        playerState: Player.PlayerState): (r: bool)
    ensures UserNeedsDrawer(sourcesList, ccConnected, playerState) ==> r == open
    ensures !UserNeedsDrawer(sourcesList, ccConnected, playerState) ==> !r
  {
    if UserNeedsDrawer(sourcesList, ccConnected, playerState) then open else false
  }

  /** With nothing selected and no idle video to show, the drawer cannot be closed. */
  lemma NothingToPlayForcesDrawer(idleStreamUrl: Option<string>, usePlaceholderVideo: bool,
                                  mouseOnDrawer: bool, mouseActiveOnDrawerOpener: bool,
                                  ccConnected: bool, playerState: Player.PlayerState)
    requires idleStreamUrl.None? || !usePlaceholderVideo
    ensures var l := NextSourcesList(None, idleStreamUrl, usePlaceholderVideo);
            DrawerOpenAfterEffect(mouseOnDrawer, mouseActiveOnDrawerOpener, l, ccConnected, playerState)
  {
  }

  /**
   * The stream-ended rule: the selected key (when it is a non-empty string) is
   * gone from the current map.
   */
  predicate StreamVanished(selection: Option<Selection<Protocol>>, streamMap: StreamMap<Protocol>) {
    selection.Some? && selection.value.key != "" && !HasKey(streamMap, selection.value.key)
  }

  /** A selection just resolved against a map never counts as ended against that map. */
  lemma FreshSelectionNotVanished(request: Request<Protocol>, streams: StreamMap<Protocol>)
    ensures !StreamVanished(SelectionFor(request, streams), streams)
  {
  }

  /** Polling runs while the drawer is open or nothing is selected. */
  predicate PollingWanted(drawerOpen: bool, selection: Option<Selection<Protocol>>) {
    drawerOpen || selection.None?
  }

  /** `onStreamRequested`: the viewer's protocol preference overrides the request's. */
  function ForwardedRequest(request: Request<Protocol>, selectedProtocol: Protocol): (r: Request<Protocol>)
    ensures r.key == request.key && r.quality == request.quality && r.protocol == Some(selectedProtocol)
  {
    request.(protocol := Some(selectedProtocol))
  }

  /**
   * Clicking the card of an available stream selects that stream with the
   * preferred protocol (when offered), and clicking the same card again
   * deselects it.
   */
  lemma CardClickTwiceDeselects(key: string, streams: StreamMap<Protocol>, preferred: Protocol)
    requires HasKey(streams, key)
    ensures var first := SelectionFor(ForwardedRequest(CardClick(key, None), preferred), streams);
            && first.Some? && first.value.key == key
            && (Offers(first.value.stream, preferred) ==> first.value.protocol == preferred)
            && SelectionFor(ForwardedRequest(CardClick(key, first), preferred), streams).None?
  {
  }

  /**
   * The requested protocol may silently fall back to the default one that the
   * stream does not offer; the player then gets a source without a file.
   */
  lemma FallbackCanLeaveSourceWithoutFile()
    ensures var stream := StreamSpec("s", [Pair(MainQuality, [Pair(LlHls, "u")])], "",
                                     VideoParams(0, 0, "", 0.0, 0), AudioParams(0, "", 0, 0), None);
            var selection := SelectionFor(Request(Some("k"), Some(WebRtcTcp), None), [Pair("k", stream)]);
            && selection.Some? && selection.value.protocol == WebRtcUdp
            && SourceListOf(selection)[0].file.None?
  {
  }

  /** `effectivelyMuted` */
  function EffectivelyMuted(muted: bool, canPlayAudio: bool): (r: bool)
    ensures !r <==> !muted && canPlayAudio
  {
    muted || !canPlayAudio
  }

  /**
   * The mute checkbox shows `effectivelyMuted` and a click stores its negation;
   * once audio is unblocked the shown state is the negation of what was shown.
   */
  lemma MuteClickTogglesShownState(muted: bool, canPlayAudio: bool)
    ensures EffectivelyMuted(!EffectivelyMuted(muted, canPlayAudio), true) == !EffectivelyMuted(muted, canPlayAudio)
  {
  }

  /**
   * The polling effect, driving the manager with the corrected stopUpdates:
   * afterwards the interval runs exactly when polling is wanted.
   */
  method ApplyPollingRule(manager: StreamManager, drawerOpen: bool, selection: Option<Selection<Protocol>>)
    requires manager.timer != Cleared
    modifies manager
    ensures manager.timer != Cleared
    ensures manager.timer == Running <==> PollingWanted(drawerOpen, selection)
    ensures manager.fetchesStarted == old(manager.fetchesStarted) +
              (if old(manager.timer) == Unset && PollingWanted(drawerOpen, selection) then 1 else 0)
    ensures manager.availableStreams == old(manager.availableStreams)
    ensures manager.selectedStream == old(manager.selectedStream)
    ensures manager.notifications == old(manager.notifications)
    ensures manager.refreshTimestamp == old(manager.refreshTimestamp)
    ensures manager.availableStreamListener == old(manager.availableStreamListener)
    ensures manager.selectedStreamListener == old(manager.selectedStreamListener)
    ensures manager.autoStartFlag == old(manager.autoStartFlag)
  {
    if drawerOpen || selection.None? {
      manager.StartUpdates();
    } else {
      manager.StopUpdatesAndReset();
    }
  }

  /** The component state that the effects and the render body update in place. */
  class PlayerView {
    var sourcesList: SourcesList
    var streamEnded: bool
    var rebuildOvenPlayer: bool
    /** `playerWasUsedRef.current` */
    var playerWasUsed: bool
    /** Timeouts scheduled to clear `rebuildOvenPlayer`. */
    var rebuildResetsPending: nat
    var playerState: Player.PlayerState

    constructor ()
      ensures sourcesList == SourcesList([], false) && !streamEnded && !rebuildOvenPlayer
      ensures !playerWasUsed && rebuildResetsPending == 0 && playerState == Player.Idle
    {
      sourcesList := SourcesList([], false);
      streamEnded := false;
      rebuildOvenPlayer := false;
      playerWasUsed := false;
      rebuildResetsPending := 0;
      playerState := Player.Idle;
    }

    /**
     * The source-list effect: store the new list, clear streamEnded when a
     * stream is selected, and ask for a rebuild only when the player was used
     * and the list changed.
     */
    method SourcesEffect(selection: Option<Selection<Protocol>>, idleStreamUrl: Option<string>, usePlaceholderVideo: bool)
      modifies this
      ensures sourcesList == NextSourcesList(selection, idleStreamUrl, usePlaceholderVideo)
      ensures streamEnded == (if selection.Some? then false else old(streamEnded))
      ensures rebuildOvenPlayer == (old(rebuildOvenPlayer) || (old(playerWasUsed) && old(sourcesList) != sourcesList))
      ensures playerWasUsed == old(playerWasUsed) && rebuildResetsPending == old(rebuildResetsPending)
      ensures playerState == old(playerState)
    {
      var newSourcesList: SourcesList;
      if selection.Some? {
        streamEnded := false;
        newSourcesList := SourcesList(SourceListOf(selection), false);
      } else if idleStreamUrl.None? || !usePlaceholderVideo {
        newSourcesList := SourcesList([], true);
      } else {
        newSourcesList := SourcesList([Player.Source(Player.LlHls, idleStreamUrl)], true);
      }
      var same := Same(sourcesList, newSourcesList);
      if playerWasUsed && !same {
        rebuildOvenPlayer := true;
      }
      sourcesList := newSourcesList;
    }

    /**
     * The stream-ended effect: when the selected stream vanished from the map,
     * set streamEnded and return the `NO_SELECTION` request sent to the manager.
     */
    method StreamEndedEffect(selection: Option<Selection<Protocol>>, streamMap: StreamMap<Protocol>)
      returns (request: Option<Request<Protocol>>)
      modifies this
      ensures request.Some? <==> StreamVanished(selection, streamMap)
      ensures request.Some? ==> request.value == NoSelection()
      ensures streamEnded == (old(streamEnded) || StreamVanished(selection, streamMap))
      ensures sourcesList == old(sourcesList) && rebuildOvenPlayer == old(rebuildOvenPlayer)
      ensures playerWasUsed == old(playerWasUsed) && rebuildResetsPending == old(rebuildResetsPending)
      ensures playerState == old(playerState)
    {
      request := None;
      if selection.Some? && selection.value.key != "" && !HasKey(streamMap, selection.value.key) {
        streamEnded := true;
        request := Some(NoSelection());
      }
    }

    /**
     * The render body: a pending rebuild forgets that the player was used and
     * schedules clearing the rebuild flag; otherwise a player with a source
     * counts as used.
     */
    method Render()
      modifies this
      ensures playerWasUsed == if old(rebuildOvenPlayer) then false
                               else if |sourcesList.sources| > 0 then true
                               else old(playerWasUsed)
      ensures rebuildResetsPending == if old(rebuildOvenPlayer) then old(rebuildResetsPending) + 1
                                      else old(rebuildResetsPending)
      ensures rebuildOvenPlayer ==> !playerWasUsed
      ensures sourcesList == old(sourcesList) && streamEnded == old(streamEnded)
      ensures rebuildOvenPlayer == old(rebuildOvenPlayer) && playerState == old(playerState)
    {
      if rebuildOvenPlayer {
        playerWasUsed := false;
        rebuildResetsPending := rebuildResetsPending + 1;
      }
      if !rebuildOvenPlayer && |sourcesList.sources| > 0 {
        playerWasUsed := true;
      }
    }

    /** The rebuild effect: a rebuild puts the player state back to idle. */
    method RebuildEffect()
      modifies this
      ensures playerState == if rebuildOvenPlayer then Player.Idle else old(playerState)
      ensures sourcesList == old(sourcesList) && streamEnded == old(streamEnded)
      ensures rebuildOvenPlayer == old(rebuildOvenPlayer) && playerWasUsed == old(playerWasUsed)
      ensures rebuildResetsPending == old(rebuildResetsPending)
    {
      if rebuildOvenPlayer {
        playerState := Player.Idle;
      }
    }

    /** One scheduled timeout clears the rebuild flag. */
    method OnRebuildReset()
      requires rebuildResetsPending > 0
      modifies this
      ensures !rebuildOvenPlayer && rebuildResetsPending == old(rebuildResetsPending) - 1
      ensures sourcesList == old(sourcesList) && streamEnded == old(streamEnded)
      ensures playerWasUsed == old(playerWasUsed) && playerState == old(playerState)
    {
      rebuildOvenPlayer := false;
      rebuildResetsPending := rebuildResetsPending - 1;
    }

    /** `onStateChanged` from the player. */
    method OnStateChanged(newState: Player.PlayerState)
      modifies this
      ensures playerState == newState
      ensures sourcesList == old(sourcesList) && streamEnded == old(streamEnded)
      ensures rebuildOvenPlayer == old(rebuildOvenPlayer) && playerWasUsed == old(playerWasUsed)
      ensures rebuildResetsPending == old(rebuildResetsPending)
    {
      playerState := newState;
    }
  }
}
