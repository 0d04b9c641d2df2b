/** What the single ingestion pass leaves in each side collection, as
    functions of the documents ingested so far, and what that means: one
    speaker per handle and one channel per id, each taken from the first
    document that carries the key; the tag set is the union of all tag lists.
    Each `...Of` function folds one step of the pass over the documents, last
    document last, as the constructor's loop does. */
module Ingestion {
  import opened Values
  import opened Store

  /** The speaker step: a video's speaker is inserted unless one with the same
      handle is already stored. */
  function AddSpeaker(speakers: seq<Speaker>, v: Video): seq<Speaker> {
    if v.speaker.Some? && FindSpeaker(speakers, v.speaker.value.twitter).None?
    then speakers + [v.speaker.value]
    else speakers
  }

  /** The channel step: a channel record is inserted unless one with the same
      id is already stored. */
  function AddChannel(channels: seq<Channel>, v: Video): seq<Channel> {
    if FindChannel(channels, v.channelId).None?
    then channels + [Channel(v.channelId, v.channelTitle)]
    else channels
  }

  /** `Set.add`: a set keeps its first insertion order and ignores repeats. */
  function AddTag(tags: seq<string>, t: string): seq<string> {
    if t in tags then tags else tags + [t]
  }

  /** Adding each tag of a list in turn. */
  function AddTags(tags: seq<string>, ts: seq<string>): seq<string>
    decreases |ts|
  {
    if ts == [] then tags else AddTag(AddTags(tags, ts[..|ts| - 1]), ts[|ts| - 1])
  }

  /** The tag step: a video without tags adds nothing. */
  function AddVideoTags(tags: seq<string>, v: Video): seq<string> {
    if v.tags.Some? then AddTags(tags, v.tags.value) else tags
  }

  function SpeakersOf(docs: seq<Video>): seq<Speaker>
    decreases |docs|
  {
    if docs == [] then [] else AddSpeaker(SpeakersOf(docs[..|docs| - 1]), docs[|docs| - 1])
  }

  function ChannelsOf(docs: seq<Video>): seq<Channel>
    decreases |docs|
  {
    if docs == [] then [] else AddChannel(ChannelsOf(docs[..|docs| - 1]), docs[|docs| - 1])
  }

  function TagsOf(docs: seq<Video>): seq<string>
    decreases |docs|
  {
    if docs == [] then [] else AddVideoTags(TagsOf(docs[..|docs| - 1]), docs[|docs| - 1])
  }

  /** One more document is one more step of each fold. */
  lemma IngestStep(docs: seq<Video>, v: Video)
    ensures SpeakersOf(docs + [v]) == AddSpeaker(SpeakersOf(docs), v)
    ensures ChannelsOf(docs + [v]) == AddChannel(ChannelsOf(docs), v)
    ensures TagsOf(docs + [v]) == AddVideoTags(TagsOf(docs), v)
  {
    assert (docs + [v])[..|docs|] == docs;
  }

  /** The position of the first document whose `objectID` an earlier document
      already has: where the unique index makes ingestion fail. */
  function FirstDuplicate(docs: seq<Video>): (r: Option<nat>)
    ensures r.None? <==> DistinctIds(docs)
    ensures r.Some? ==> r.value < |docs| && Repeats(docs, r.value)
    ensures r.Some? ==> forall n :: 0 <= n < r.value ==> !Repeats(docs, n)
  {
    DuplicateBeforeSpec(docs, |docs|);
    DuplicateBefore(docs, |docs|)
  }

  /** The first repeated key among the first `m` documents. */
  function DuplicateBefore(docs: seq<Video>, m: nat): (r: Option<nat>)
    requires m <= |docs|
    ensures r.Some? ==> r.value < m
    decreases m
  {
    if m == 0 then None
    else
      var before := DuplicateBefore(docs, m - 1);
      if before.Some? then before
      else if Repeats(docs, m - 1) then Some(m - 1)
      else None
  }

  lemma {:induction false} DuplicateBeforeSpec(docs: seq<Video>, m: nat)
    requires m <= |docs|
    ensures DuplicateBefore(docs, m).None? <==> forall n :: 0 <= n < m ==> !Repeats(docs, n)
    ensures var r := DuplicateBefore(docs, m);
      r.Some? ==> Repeats(docs, r.value) && forall n :: 0 <= n < r.value ==> !Repeats(docs, n)
    decreases m
  {
    if m > 0 {
      DuplicateBeforeSpec(docs, m - 1);
    }
  }

  /** The first repeated key is at `n` when no document before `n` repeats a
      key and document `n` does. */
  lemma FirstDuplicateAt(docs: seq<Video>, n: nat)
    requires n < |docs| && Repeats(docs, n)
    requires forall m :: 0 <= m < n ==> !Repeats(docs, m)
    ensures FirstDuplicate(docs) == Some(n)
  {
    DuplicateBeforeSpec(docs, n);
    DuplicateBeforeGrow(docs, n + 1, |docs|);
  }

  /** A document whose key the distinct prefix before it already holds is
      the first duplicate of the whole sequence. */
  lemma FirstDuplicateRefused(docs: seq<Video>, done: seq<Video>, v: Video)
    requires |done| < |docs| && docs[..|done|] == done && docs[|done|] == v
    requires DistinctIds(done) && FindVideo(done, v.objectID).Some?
    ensures FirstDuplicate(docs) == Some(|done|)
  {
    var n := |done|;
    DistinctPrefix(docs, n);
    var k :| 0 <= k < n && docs[..n][k].objectID == docs[n].objectID;
    assert docs[..n][k] == docs[k];
    assert Repeats(docs, n);
    FirstDuplicateAt(docs, n);
  }

  lemma {:induction false} DuplicateBeforeGrow(docs: seq<Video>, m: nat, k: nat)
    requires m <= k <= |docs| && DuplicateBefore(docs, m).Some?
    ensures DuplicateBefore(docs, k) == DuplicateBefore(docs, m)
    decreases k
  {
    if k > m {
      DuplicateBeforeGrow(docs, m, k - 1);
    }
  }

  lemma {:induction false} DuplicateBeforeAgree(a: seq<Video>, b: seq<Video>, m: nat)
    requires m <= |a| && m <= |b|
    requires forall i :: 0 <= i < m ==> a[i] == b[i]
    ensures DuplicateBefore(a, m) == DuplicateBefore(b, m)
    decreases m
  {
    if m > 0 {
      DuplicateBeforeAgree(a, b, m - 1);
      assert Repeats(a, m - 1) ==> Repeats(b, m - 1);
      assert Repeats(b, m - 1) ==> Repeats(a, m - 1);
    }
  }

  /** A duplicate, once met, stays the first one whatever follows. */
  lemma FirstDuplicateExtend(docs: seq<Video>, more: seq<Video>)
    requires FirstDuplicate(docs).Some?
    ensures FirstDuplicate(docs + more) == FirstDuplicate(docs)
  {
    DuplicateBeforeAgree(docs, docs + more, |docs|);
    DuplicateBeforeGrow(docs + more, |docs|, |docs + more|);
  }

  /** The documents of a prefix without repeated keys repeat no key in the
      whole sequence either. */
  lemma DistinctPrefix(docs: seq<Video>, k: nat)
    requires k <= |docs| && DistinctIds(docs[..k])
    ensures forall n :: 0 <= n < k ==> !Repeats(docs, n)
  {
    forall n | 0 <= n < k ensures !Repeats(docs, n) {
      assert !Repeats(docs[..k], n);
      forall i | 0 <= i < n ensures docs[i].objectID != docs[n].objectID {
        assert docs[..k][i] == docs[i] && docs[..k][n] == docs[n];
      }
    }
  }

  /** Storing a video whose key the store does not hold keeps keys distinct. */
  lemma DistinctAppend(videos: seq<Video>, v: Video)
    requires DistinctIds(videos)
    requires forall i :: 0 <= i < |videos| ==> videos[i].objectID != v.objectID
    ensures DistinctIds(videos + [v])
  {
    var next := videos + [v];
    forall n | 0 <= n < |next| ensures !Repeats(next, n) {
      if n < |videos| {
        assert !Repeats(videos, n);
        forall i | 0 <= i < n ensures next[i].objectID != next[n].objectID {
          assert next[i] == videos[i] && next[n] == videos[n];
        }
      } else {
        forall i | 0 <= i < n ensures next[i].objectID != next[n].objectID {
          assert next[i] == videos[i] && next[n] == v;
        }
      }
    }
  }

  /** The reference definition of the first-wins rule for speakers: the speaker
      of the first document that has one with the handle. */
  function FirstSpeaker(docs: seq<Video>, handle: string): (r: Option<Speaker>)
    ensures r.Some? <==> exists i :: 0 <= i < |docs| && docs[i].speaker.Some? && docs[i].speaker.value.twitter == handle
    ensures r.Some? ==> exists i :: (0 <= i < |docs| && docs[i].speaker == r
              && docs[i].speaker.Some? && docs[i].speaker.value.twitter == handle
              && forall j :: 0 <= j < i ==> docs[j].speaker.None? || docs[j].speaker.value.twitter != handle)
  {
    if docs == [] then None
    else if docs[0].speaker.Some? && docs[0].speaker.value.twitter == handle then docs[0].speaker
    else
      var r := FirstSpeaker(docs[1..], handle);
      assert forall i :: 1 <= i < |docs| ==> docs[1..][i - 1] == docs[i];
      if r.Some? then
        var i :| 0 <= i < |docs[1..]| && docs[1..][i].speaker == r
                 && docs[1..][i].speaker.Some? && docs[1..][i].speaker.value.twitter == handle
                 && forall j :: 0 <= j < i ==> docs[1..][j].speaker.None? || docs[1..][j].speaker.value.twitter != handle;
        assert docs[i + 1].speaker == r;
        r
      else
        r
  }

  /** The reference definition of the first-wins rule for channels: the channel
      built from the first document with the id. */
  function FirstChannel(docs: seq<Video>, id: string): (r: Option<Channel>)
    ensures r.Some? <==> exists i :: 0 <= i < |docs| && docs[i].channelId == id
    ensures r.Some? ==> exists i :: (0 <= i < |docs| && r.value == Channel(id, docs[i].channelTitle)
              && docs[i].channelId == id
              && forall j :: 0 <= j < i ==> docs[j].channelId != id)
  {
    if docs == [] then None
    else if docs[0].channelId == id then Some(Channel(id, docs[0].channelTitle))
    else
      var r := FirstChannel(docs[1..], id);
      assert forall i :: 1 <= i < |docs| ==> docs[1..][i - 1] == docs[i];
      if r.Some? then
        var i :| 0 <= i < |docs[1..]| && r.value == Channel(id, docs[1..][i].channelTitle)
                 && docs[1..][i].channelId == id
                 && forall j :: 0 <= j < i ==> docs[1..][j].channelId != id;
        assert docs[i + 1].channelId == id;
        r
      else
        r
  }

  lemma {:induction false} FirstSpeakerAppend(docs: seq<Video>, d: Video, handle: string)
    ensures FirstSpeaker(docs + [d], handle) ==
      if FirstSpeaker(docs, handle).Some? then FirstSpeaker(docs, handle)
      else if d.speaker.Some? && d.speaker.value.twitter == handle then d.speaker else None
  {
    if docs != [] {
      assert (docs + [d])[1..] == docs[1..] + [d];
      FirstSpeakerAppend(docs[1..], d, handle);
    }
  }

  lemma {:induction false} FirstChannelAppend(docs: seq<Video>, d: Video, id: string)
    ensures FirstChannel(docs + [d], id) ==
      if FirstChannel(docs, id).Some? then FirstChannel(docs, id)
      else if d.channelId == id then Some(Channel(id, d.channelTitle)) else None
  {
    if docs != [] {
      assert (docs + [d])[1..] == docs[1..] + [d];
      FirstChannelAppend(docs[1..], d, id);
    }
  }

  /** The speaker stored under a handle is the speaker of the first document
      with that handle; with no such document there is none. */
  lemma {:induction false} SpeakersFirstWins(docs: seq<Video>, handle: string)
    ensures FindSpeaker(SpeakersOf(docs), handle) == FirstSpeaker(docs, handle)
    decreases |docs|
  {
    if docs != [] {
      var n := |docs| - 1;
      var prefix, d := docs[..n], docs[n];
      assert docs == prefix + [d];
      SpeakersFirstWins(prefix, handle);
      FirstSpeakerAppend(prefix, d, handle);
      var before := SpeakersOf(prefix);
      if d.speaker.Some? && FindSpeaker(before, d.speaker.value.twitter).None? {
        FindSpeakerAppend(before, d.speaker.value, handle);
      } else if d.speaker.Some? && d.speaker.value.twitter == handle {
        assert FindSpeaker(before, handle).Some?;
      }
    }
  }

  /** The channel stored under an id is built from the first document with
      that id; with no such document there is none. */
  lemma {:induction false} ChannelsFirstWins(docs: seq<Video>, id: string)
    ensures FindChannel(ChannelsOf(docs), id) == FirstChannel(docs, id)
    decreases |docs|
  {
    if docs != [] {
      var n := |docs| - 1;
      var prefix, d := docs[..n], docs[n];
      assert docs == prefix + [d];
      ChannelsFirstWins(prefix, id);
      FirstChannelAppend(prefix, d, id);
      var before := ChannelsOf(prefix);
      if FindChannel(before, d.channelId).None? {
        FindChannelAppend(before, Channel(d.channelId, d.channelTitle), id);
      } else if d.channelId == id {
        assert FindChannel(before, id).Some?;
      }
    }
  }

  predicate HandlesUnique(speakers: seq<Speaker>) {
    forall i, j :: 0 <= i < j < |speakers| ==> speakers[i].twitter != speakers[j].twitter
  }

  predicate ChannelIdsUnique(channels: seq<Channel>) {
    forall i, j :: 0 <= i < j < |channels| ==> channels[i].id != channels[j].id
  }

  /** At most one speaker record per handle. */
  lemma {:induction false} SpeakersUnique(docs: seq<Video>)
    ensures HandlesUnique(SpeakersOf(docs))
    decreases |docs|
  {
    if docs != [] {
      var n := |docs| - 1;
      SpeakersUnique(docs[..n]);
      var before, d := SpeakersOf(docs[..n]), docs[n];
      if d.speaker.Some? && FindSpeaker(before, d.speaker.value.twitter).None? {
        var ss := before + [d.speaker.value];
        assert SpeakersOf(docs) == ss;
        forall i, j | 0 <= i < j < |ss| ensures ss[i].twitter != ss[j].twitter {
          assert ss[i] == before[i];
          if j == |before| {
            assert ss[j].twitter == d.speaker.value.twitter;
          } else {
            assert ss[j] == before[j];
          }
        }
      } else {
        assert SpeakersOf(docs) == before;
      }
    }
  }

  /** At most one channel record per id. */
  lemma {:induction false} ChannelsUnique(docs: seq<Video>)
    ensures ChannelIdsUnique(ChannelsOf(docs))
    decreases |docs|
  {
    if docs != [] {
      var n := |docs| - 1;
      ChannelsUnique(docs[..n]);
      var before, d := ChannelsOf(docs[..n]), docs[n];
      if FindChannel(before, d.channelId).None? {
        var cs := before + [Channel(d.channelId, d.channelTitle)];
        assert ChannelsOf(docs) == cs;
        forall i, j | 0 <= i < j < |cs| ensures cs[i].id != cs[j].id {
          assert cs[i] == before[i];
          if j == |before| {
            assert cs[j].id == d.channelId;
          } else {
            assert cs[j] == before[j];
          }
        }
      } else {
        assert ChannelsOf(docs) == before;
      }
    }
  }

  /** A video without a speaker adds no speaker record. */
  lemma NoSpeakerNoRecord(docs: seq<Video>, v: Video)
    requires v.speaker.None?
    ensures SpeakersOf(docs + [v]) == SpeakersOf(docs)
  {
    assert (docs + [v])[..|docs|] == docs;
  }

  /** Ingesting more documents only appends speaker records: the ones already
      stored keep their place and value. */
  lemma {:induction false} SpeakersOfPrefix(docs: seq<Video>, more: seq<Video>)
    ensures SpeakersOf(docs) <= SpeakersOf(docs + more)
    decreases |more|
  {
    if more == [] {
      assert docs + more == docs;
    } else {
      var n := |more| - 1;
      SpeakersOfPrefix(docs, more[..n]);
      assert (docs + more)[..|docs + more| - 1] == docs + more[..n];
    }
  }

  /** Ingesting more documents only appends channel records: a later video with
      a known channel id never changes that channel's title. */
  lemma {:induction false} ChannelsOfPrefix(docs: seq<Video>, more: seq<Video>)
    ensures ChannelsOf(docs) <= ChannelsOf(docs + more)
    decreases |more|
  {
    if more == [] {
      assert docs + more == docs;
    } else {
      var n := |more| - 1;
      ChannelsOfPrefix(docs, more[..n]);
      assert (docs + more)[..|docs + more| - 1] == docs + more[..n];
    }
  }

  /** No element twice. */
  predicate NoDuplicates(s: seq<string>) {
    forall i, j :: 0 <= i < j < |s| ==> s[i] != s[j]
  }

  lemma {:induction false} AddTagsContents(tags: seq<string>, ts: seq<string>)
    requires NoDuplicates(tags)
    ensures NoDuplicates(AddTags(tags, ts))
    ensures forall t :: t in AddTags(tags, ts) <==> t in tags || t in ts
    decreases |ts|
  {
    if ts != [] {
      var n := |ts| - 1;
      AddTagsContents(tags, ts[..n]);
      assert ts == ts[..n] + [ts[n]];
    }
  }

  /** The tag set holds each tag once, and exactly the tags of the ingested
      videos; a video with absent tags contributes nothing. */
  lemma {:induction false} TagsUnion(docs: seq<Video>)
    ensures NoDuplicates(TagsOf(docs))
    ensures forall t :: t in TagsOf(docs) <==>
      exists i :: 0 <= i < |docs| && docs[i].tags.Some? && t in docs[i].tags.value
    decreases |docs|
  {
    if docs != [] {
      var n := |docs| - 1;
      var prefix, d := docs[..n], docs[n];
      TagsUnion(prefix);
      assert forall i :: 0 <= i < n ==> prefix[i] == docs[i];
      if d.tags.Some? {
        AddTagsContents(TagsOf(prefix), d.tags.value);
      }
    }
  }
}
