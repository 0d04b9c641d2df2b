/** Lookups in the document store's collections by their unique key: the
    store's `by(field, value)`, which gives the record holding that key, or
    nothing. Records are kept in insertion order. */
module Store {
  import opened Values

  /** `speakers.by("twitter", handle)`. */
  function FindSpeaker(speakers: seq<Speaker>, handle: string): (r: Option<Speaker>)
    ensures r.Some? ==> r.value in speakers && r.value.twitter == handle
    ensures r.None? <==> forall i :: 0 <= i < |speakers| ==> speakers[i].twitter != handle
  {
    if speakers == [] then None
    else if speakers[0].twitter == handle then Some(speakers[0])
    else FindSpeaker(speakers[1..], handle)
  }

  /** `channels.by("id", id)`. */
  function FindChannel(channels: seq<Channel>, id: string): (r: Option<Channel>)
    ensures r.Some? ==> r.value in channels && r.value.id == id
    ensures r.None? <==> forall i :: 0 <= i < |channels| ==> channels[i].id != id
  {
    if channels == [] then None
    else if channels[0].id == id then Some(channels[0])
    else FindChannel(channels[1..], id)
  }

  /** `videos.by("objectID", id)`. */
  function FindVideo(videos: seq<Video>, id: string): (r: Option<Video>)
    ensures r.Some? ==> r.value in videos && r.value.objectID == id
    ensures r.None? <==> forall i :: 0 <= i < |videos| ==> videos[i].objectID != id
  {
    if videos == [] then None
    else if videos[0].objectID == id then Some(videos[0])
    else FindVideo(videos[1..], id)
  }

  lemma {:induction false} FindSpeakerAppend(speakers: seq<Speaker>, s: Speaker, handle: string)
    ensures FindSpeaker(speakers + [s], handle) ==
      if FindSpeaker(speakers, handle).Some? then FindSpeaker(speakers, handle)
      else if s.twitter == handle then Some(s) else None
  {
    if speakers != [] {
      assert (speakers + [s])[1..] == speakers[1..] + [s];
      FindSpeakerAppend(speakers[1..], s, handle);
    }
  }

  lemma {:induction false} FindChannelAppend(channels: seq<Channel>, c: Channel, id: string)
    ensures FindChannel(channels + [c], id) ==
      if FindChannel(channels, id).Some? then FindChannel(channels, id)
      else if c.id == id then Some(c) else None
  {
    if channels != [] {
      assert (channels + [c])[1..] == channels[1..] + [c];
      FindChannelAppend(channels[1..], c, id);
    }
  }

  /** Video `n` has the `objectID` of an earlier video. */
  predicate Repeats(videos: seq<Video>, n: nat)
    requires n < |videos|
  {
    exists i :: 0 <= i < n && videos[i].objectID == videos[n].objectID
  }

  /** No video repeats the `objectID` of an earlier one: what the unique
      index enforces. */
  predicate DistinctIds(videos: seq<Video>) {
    forall n :: 0 <= n < |videos| ==> !Repeats(videos, n)
  }

  /** The same, stated on pairs. */
  lemma DistinctPairs(videos: seq<Video>, i: nat, j: nat)
    requires DistinctIds(videos) && i < j < |videos|
    ensures videos[i].objectID != videos[j].objectID
  {
    assert !Repeats(videos, j);
  }

  /** In a collection without repeated keys, `by` finds the one record with
      the key, whatever its position. */
  lemma {:induction false} FindVideoUnique(videos: seq<Video>, i: nat)
    requires DistinctIds(videos) && i < |videos|
    ensures FindVideo(videos, videos[i].objectID) == Some(videos[i])
  {
    if i > 0 {
      DistinctPairs(videos, 0, i);
      DistinctTail(videos);
      assert videos[1..][i - 1] == videos[i];
      FindVideoUnique(videos[1..], i - 1);
    }
  }

  lemma DistinctTail(videos: seq<Video>)
    requires DistinctIds(videos) && videos != []
    ensures DistinctIds(videos[1..])
  {
    var tail := videos[1..];
    forall n | 0 <= n < |tail| ensures !Repeats(tail, n) {
      forall i | 0 <= i < n ensures tail[i].objectID != tail[n].objectID {
        DistinctPairs(videos, i + 1, n + 1);
      }
    }
  }
}
