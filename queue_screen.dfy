/**
 * The "Now Playing" queue modal: what it copies from the playback state
 * when it opens, how each row is labelled and keyed, its duration format,
 * and the calls its buttons make into the playback queue (which is not
 * part of this model; the calls are returned as values).
 */
module Queue {
  import opened Text
  import opened Library

  const UnknownTitle: string := "Unknown Title"
  const UnknownArtist: string := "Unknown Artist"
  const NoDuration: string := "--:--"

  /** The queue's duration format: "--:--" for a missing or zero duration,
      "m:ss" otherwise. */
  function FormatDuration(seconds: nat): (r: string)
    ensures seconds == 0 ==> r == NoDuration
    ensures seconds > 0 ==> ReadsAsClock(r, seconds)
  {
    if seconds == 0 then NoDuration
    else
      ClockRoundTrip(seconds);
      Clock(seconds)
  }

  /** The placeholder is never a real duration. */
  lemma PlaceholderIsNotAClock(seconds: nat)
    requires seconds > 0
    ensures FormatDuration(seconds) != NoDuration
  {
    assert IndexOf(NoDuration, ':') == 2;
    assert !IsDigit(NoDuration[0]);
    assert ParseClock(NoDuration).None?;
  }

  /** What the leading cell of a row shows. */
  datatype Lead = PlayingMarker | Position(n: nat)

  datatype Row = Row(key: string, lead: Lead, title: string, artist: string, duration: string)

  /** `${item.id}-${index}`. */
  function RowKey(id: nat, index: nat): string {
    NatToString(id) + "-" + NatToString(index)
  }

  /** Two rows have the same key only if they have the same id and the same
      position, so a song queued twice still gets two keys. */
  lemma RowKeyInjective(id1: nat, i1: nat, id2: nat, i2: nat)
    requires RowKey(id1, i1) == RowKey(id2, i2)
    ensures id1 == id2 && i1 == i2
  {
    var a, b := NatToString(id1), NatToString(id2);
    var k := RowKey(id1, i1);
    assert forall j :: 0 <= j < |a| ==> k[j] == a[j] && k[j] != '-';
    assert forall j :: 0 <= j < |b| ==> k[j] == b[j] && k[j] != '-';
    assert k[|a|] == '-' && k[|b|] == '-';
    assert IndexOf(k, '-') == |a|;
    assert IndexOf(k, '-') == |b|;
    assert k[..|a|] == a && k[..|b|] == b;
    NatToStringInjective(id1, id2);
    assert k[|a| + 1..] == NatToString(i1) && k[|b| + 1..] == NatToString(i2);
    NatToStringInjective(i1, i2);
  }

  /** The rendered rows of the queue list. */
  function Rows(queue: seq<Song>, playingIndex: int): (r: seq<Row>)
    ensures |r| == |queue|
    ensures forall i :: 0 <= i < |queue| ==> (r[i].lead == PlayingMarker <==> i == playingIndex)
    ensures forall i :: 0 <= i < |queue| && i != playingIndex ==> r[i].lead == Position(i + 1)
    ensures forall i :: 0 <= i < |queue| ==>
      r[i].title == OrDefault(queue[i].title, UnknownTitle) &&
      r[i].artist == OrDefault(queue[i].artistNameString, UnknownArtist) &&
      r[i].duration == FormatDuration(queue[i].duration)
    ensures forall i :: 0 <= i < |queue| ==> r[i].key == RowKey(queue[i].id, i)
  {
    seq(|queue|, i requires 0 <= i < |queue| =>
      Row(RowKey(queue[i].id, i),
          if i == playingIndex then PlayingMarker else Position(i + 1),
          OrDefault(queue[i].title, UnknownTitle),
          OrDefault(queue[i].artistNameString, UnknownArtist),
          FormatDuration(queue[i].duration)))
  }

  /** Every row of the list has its own key. */
  lemma RowKeysDistinct(queue: seq<Song>, playingIndex: int)
    ensures var r := Rows(queue, playingIndex);
      forall i, j :: 0 <= i < j < |r| ==> r[i].key != r[j].key
  {
    var r := Rows(queue, playingIndex);
    forall i, j | 0 <= i < j < |r|
      ensures r[i].key != r[j].key
    {
      if r[i].key == r[j].key {
        RowKeyInjective(queue[i].id, i, queue[j].id, j);
      }
    }
  }

  /** At most one row is marked as playing. */
  lemma AtMostOnePlaying(queue: seq<Song>, playingIndex: int, i: nat, j: nat)
    requires i < |queue| && j < |queue|
    requires Rows(queue, playingIndex)[i].lead == PlayingMarker
    requires Rows(queue, playingIndex)[j].lead == PlayingMarker
    ensures i == j
  {
  }

  /** A call the modal makes into the playback state or to its parent. */
  datatype Call = PlayFromQueue(index: nat) | ClearQueue | Close

  /** `handleClearQueue`: clear and close, but only when the playback state
      provides `clearQueue`. */
  function ClearQueueCalls(hasClearQueue: bool): (r: seq<Call>)
    ensures hasClearQueue ==> r == [ClearQueue, Close]
    ensures !hasClearQueue ==> r == []
  {
    if hasClearQueue then [ClearQueue, Close] else []
  }

  /** `handleSongPress`: jump to that entry, without closing the modal. */
  function SongPressCalls(hasPlaySongFromQueue: bool, index: nat): (r: seq<Call>)
    ensures Close !in r
    ensures hasPlaySongFromQueue <==> r == [PlayFromQueue(index)]
    ensures !hasPlaySongFromQueue ==> r == []
  {
    if hasPlaySongFromQueue then [PlayFromQueue(index)] else []
  }

  /** The modal's own copy of the queue and the playing position. */
  class QueueView {
    var queue: seq<Song>
    var playingIndex: int

    constructor ()
      ensures queue == [] && playingIndex == -1
    {
      queue, playingIndex := [], -1;
    }

    /** The effect run when `visible`, `currentQueue` or `currentIndex`
        changes: copy them in while the modal is visible. A missing
        `currentIndex`, like 0, gives 0. */
    method Refresh(visible: bool, currentQueue: Option<seq<Song>>, currentIndex: Option<int>)
      modifies this
      ensures visible ==> queue == currentQueue.GetOr([]) && playingIndex == currentIndex.GetOr(0)
      ensures !visible ==> queue == old(queue) && playingIndex == old(playingIndex)
    {
      if visible {
        queue := currentQueue.GetOr([]);
        playingIndex := currentIndex.GetOr(0);
      }
    }

    /** The header's song count and its noun. */
    function CountLabel(): (r: (nat, string))
      reads this
      ensures r.0 == |queue|
      ensures r.1 == "song" <==> |queue| == 1
      ensures r.1 == "song" || r.1 == "songs"
    {
      (|queue|, if |queue| == 1 then "song" else "songs")
    }
  }
}
