/**
 * The stream selector component (src/StreamSelector.tsx): which request a
 * click emits, and what the drawer shows for a given stream map.
 */
module StreamSelector {
  import opened Wrappers
  import opened Assoc
  import opened BamApi
  import opened StreamManager

  /** `currentStream?.key === key` */
  predicate IsSelected(key: string, current: Option<Selection<Protocol>>) {
    current.Some? && current.value.key == key
  }

  /** A quality button is highlighted when its card is selected at that quality. */
  predicate QualityHighlighted(key: string, quality: string, current: Option<Selection<Protocol>>) {
    IsSelected(key, current) && current.value.quality == quality
  }

  /**
   * Re-selecting the current stream at its current quality, or without naming a
   * quality, toggles the selection off.
   */
  predicate TogglesOff(stream: string, quality: Option<string>, current: Option<Selection<Protocol>>) {
    IsSelected(stream, current) && (quality.None? || quality.value == current.value.quality)
  }

  /** The one request selectStream hands to `onStreamRequested`. */
  function SelectStream(stream: Option<string>, protocol: Option<Protocol>, quality: Option<string>,
                        current: Option<Selection<Protocol>>): (r: Request<Protocol>)
    ensures r == NoSelection() <==> stream.None? || TogglesOff(stream.value, quality, current)
    ensures r != NoSelection() ==> r == Request(stream, protocol, quality)
  {
    if stream.None? || TogglesOff(stream.value, quality, current) then NoSelection()
    else Request(stream, protocol, quality)
  }

  /** The request a click on a stream card emits. */
  function CardClick(key: string, current: Option<Selection<Protocol>>): (r: Request<Protocol>)
    ensures r.protocol.None? && r.quality.None?
    ensures r.key.Some? <==> !IsSelected(key, current)
    ensures r.key.Some? ==> r.key.value == key
  {
    if IsSelected(key, current) then SelectStream(None, None, None, current)
    else SelectStream(Some(key), None, None, current)
  }

  /** The request a click on a quality button of a card emits. */
  function QualityClick(key: string, quality: string, current: Option<Selection<Protocol>>): (r: Request<Protocol>)
    ensures r.protocol.None?
    ensures r.key.None? <==> QualityHighlighted(key, quality, current)
    ensures r.key.Some? ==> r.key == Some(key) && r.quality == Some(quality)
  {
    SelectStream(Some(key), None, Some(quality), current)
  }

  /** A selected card deselects; an unselected card asks for its stream with no protocol or quality. */
  lemma CardClickRule(key: string, current: Option<Selection<Protocol>>)
    ensures IsSelected(key, current) ==> CardClick(key, current) == NoSelection()
    ensures !IsSelected(key, current) ==> CardClick(key, current) == Request(Some(key), None, None)
  {
  }

  /** The highlighted quality button deselects; every other one asks for its quality. */
  lemma QualityClickRule(key: string, quality: string, current: Option<Selection<Protocol>>)
    ensures QualityHighlighted(key, quality, current) <==> QualityClick(key, quality, current) == NoSelection()
    ensures !QualityHighlighted(key, quality, current) ==>
              QualityClick(key, quality, current) == Request(Some(key), None, Some(quality))
  {
  }

  /** `qualityNames.get(quality) || quality` */
  function QualityLabel(quality: string): (shown: string)
    ensures quality == "abr" ==> shown == "auto"
    ensures quality != "abr" ==> shown == quality
  {
    if quality == "abr" then "auto" else quality
  }

  /** Two qualities share a label only when they are "abr" and "auto". */
  lemma QualityLabelsCollide(q1: string, q2: string)
    requires q1 != q2 && QualityLabel(q1) == QualityLabel(q2)
    ensures (q1 == "abr" && q2 == "auto") || (q1 == "auto" && q2 == "abr")
  {
  }

  datatype QualityButton = QualityButton(quality: string, caption: string, highlighted: bool)

  datatype Card = Card(key: string, name: string, selected: bool, buttons: seq<QualityButton>)

  /** The three boxes, or one card per stream. */
  datatype View = ErrorBox | EndedBox | WaitingBox | Cards(cards: seq<Card>)

  /** One button per quality of the stream, in entry order. */
  function ButtonsFor(key: string, qualities: Assoc<string, Assoc<Protocol, string>>,
                      current: Option<Selection<Protocol>>): (r: seq<QualityButton>)
    ensures |r| == |qualities|
    ensures forall j :: 0 <= j < |r| ==>
              && r[j].quality == qualities[j].key
              && r[j].caption == QualityLabel(qualities[j].key)
              && (r[j].highlighted <==> QualityHighlighted(key, qualities[j].key, current))
  {
    seq(|qualities|, j requires 0 <= j < |qualities| =>
      QualityButton(qualities[j].key, QualityLabel(qualities[j].key), QualityHighlighted(key, qualities[j].key, current)))
  }

  function CardFor(entry: Pair<string, StreamSpec<Protocol>>, current: Option<Selection<Protocol>>): (c: Card)
    ensures c.key == entry.key && c.name == entry.value.name
    ensures c.selected <==> IsSelected(entry.key, current)
    ensures |c.buttons| == |entry.value.streams|
    ensures c.buttons == ButtonsFor(entry.key, entry.value.streams, current)
  {
    Card(entry.key, entry.value.name, IsSelected(entry.key, current), ButtonsFor(entry.key, entry.value.streams, current))
  }

  /**
   * The selector's content: an error box when no map could be fetched, the
   * "ended" or the "waiting" box for an empty map, and otherwise one card per
   * stream in entry order.
   */
  function Content(streams: Option<StreamMap<Protocol>>, streamEnded: bool,
                   current: Option<Selection<Protocol>>): (r: View)
    ensures r.ErrorBox? <==> streams.None?
    ensures r.EndedBox? <==> streams.Some? && |streams.value| == 0 && streamEnded
    ensures r.WaitingBox? <==> streams.Some? && |streams.value| == 0 && !streamEnded
    ensures r.Cards? <==> streams.Some? && |streams.value| > 0
    ensures r.Cards? ==> |r.cards| == |streams.value|
    ensures r.Cards? ==> forall i :: 0 <= i < |r.cards| ==> r.cards[i] == CardFor(streams.value[i], current)
  {
    match streams
    case None => ErrorBox
    case Some(m) =>
      if |m| == 0 then (if streamEnded then EndedBox else WaitingBox)
      else Cards(seq(|m|, i requires 0 <= i < |m| => CardFor(m[i], current)))
  }

  /** With unique stream keys, at most one card is marked selected. */
  lemma AtMostOneCardSelected(streams: StreamMap<Protocol>, streamEnded: bool,
                              current: Option<Selection<Protocol>>, i: nat, j: nat)
    requires UniqueKeys(streams)
    requires Content(Some(streams), streamEnded, current).Cards?
    requires i < j < |Content(Some(streams), streamEnded, current).cards|
    ensures !(Content(Some(streams), streamEnded, current).cards[i].selected &&
              Content(Some(streams), streamEnded, current).cards[j].selected)
  {
  }

  /** Within a card whose qualities are distinct, at most one quality button is highlighted. */
  lemma AtMostOneQualityHighlighted(key: string, qualities: Assoc<string, Assoc<Protocol, string>>,
                                    current: Option<Selection<Protocol>>, i: nat, j: nat)
    requires UniqueKeys(qualities)
    requires i < j < |qualities|
    ensures !(ButtonsFor(key, qualities, current)[i].highlighted && ButtonsFor(key, qualities, current)[j].highlighted)
  {
  }
}
