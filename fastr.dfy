/** The search facade: one object built from the whole corpus in a single
    ingestion pass, then queried read-only. */
module Fastr {
  import opened Values
  import opened Order
  import opened Sorting
  import opened Window
  import opened Store
  import opened Ingestion
  import opened Query

  /** The full-text engine's `search`: given the documents added to the index
      and a query string, the references of the matching documents, most
      relevant first. How it tokenises, weighs fields and scores is its own. */
  type TextSearch = (seq<Video>, string) -> seq<string>

  class Fastr {
    /** The video collection, unique on `objectID`, in insertion order. */
    var videos: seq<Video>
    /** The speaker collection, one record per `twitter` handle. */
    var speakers: seq<Speaker>
    /** The channel collection, one record per channel `id`. */
    var channels: seq<Channel>
    /** The tag set, in first-insertion order. */
    var tags: seq<string>
    /** The documents added to the full-text index, in order. */
    var indexed: seq<Video>

    /** Every collection is what ingesting `videos` in order leaves behind. */
    ghost predicate Valid()
      reads this
    {
      && indexed == videos
      && DistinctIds(videos)
      && speakers == SpeakersOf(videos)
      && channels == ChannelsOf(videos)
      && tags == TagsOf(videos)
    }

    /** The empty collections and the empty tag set. */
    constructor ()
      ensures Valid()
      ensures videos == [] && speakers == [] && channels == [] && tags == [] && indexed == []
    {
      videos, speakers, channels, tags, indexed := [], [], [], [], [];
    }

    /** One step of the ingestion pass, for one document: add it to the
        full-text index; store its speaker unless the handle is known; store
        its channel unless the id is known; add its tags to the set; store the
        video, which the unique index on `objectID` refuses (`stored` false)
        when the key is already there. */
    method AddDocument(video: Video) returns (stored: bool)
      requires Valid()
      modifies this
      ensures var next := old(videos) + [video];
        && indexed == next
        && speakers == SpeakersOf(next)
        && channels == ChannelsOf(next)
        && tags == TagsOf(next)
        && (stored <==> FindVideo(old(videos), video.objectID).None?)
        && videos == (if stored then next else old(videos))
      ensures stored ==> Valid()
    {
      ghost var done := videos;
      IngestStep(done, video);
      indexed := indexed + [video];
      if video.speaker.Some? && FindSpeaker(speakers, video.speaker.value.twitter).None? {
        speakers := speakers + [video.speaker.value];
      }
      if FindChannel(channels, video.channelId).None? {
        channels := channels + [Channel(video.channelId, video.channelTitle)];
      }
      if video.tags.Some? {
        AddTagList(video.tags.value);
      }
      stored := FindVideo(videos, video.objectID).None?;
      if stored {
        videos := videos + [video];
        DistinctAppend(done, video);
      }
    }

    /** Each tag of a list added to the tag set in turn. */
    method AddTagList(ts: seq<string>)
      modifies this`tags
      ensures tags == AddTags(old(tags), ts)
    {
      var j := 0;
      while j < |ts|
        invariant 0 <= j <= |ts|
        invariant tags == AddTags(old(tags), ts[..j])
      {
        assert ts[..j + 1][..j] == ts[..j];
        if ts[j] !in tags {
          tags := tags + [ts[j]];
        }
        j := j + 1;
      }
      assert ts[..j] == ts;
    }

    /** The ingestion pass: each document in order, until the unique index
        refuses one, which ends the pass with that document half-ingested. */
    method Ingest(docs: seq<Video>) returns (outcome: Outcome<IngestError>)
      requires Valid()
      modifies this
      ensures var all := old(videos) + docs; var dup := FirstDuplicate(all);
        && (outcome.Pass? <==> dup.None?)
        && (dup.None? ==> Valid() && videos == all)
        && (dup.Some? ==>
              && outcome == Fail(DuplicateObjectID(all[dup.value].objectID))
              && videos == all[..dup.value]
              && indexed == all[..dup.value + 1]
              && speakers == SpeakersOf(all[..dup.value + 1])
              && channels == ChannelsOf(all[..dup.value + 1])
              && tags == TagsOf(all[..dup.value + 1]))
    {
      ghost var all := old(videos) + docs;
      ghost var start := |videos|;
      var i := 0;
      while i < |docs|
        invariant 0 <= i <= |docs|
        invariant videos == all[..start + i]
        invariant Valid()
      {
        ghost var done := videos;
        assert all[..|done| + 1] == done + [docs[i]] by {
          assert all[..|done|] == done && all[|done|] == docs[i];
        }
        var stored := AddDocument(docs[i]);
        if !stored {
          FirstDuplicateRefused(all, done, docs[i]);
          return Fail(DuplicateObjectID(docs[i].objectID));
        }
        i := i + 1;
      }
      assert videos == all;
      outcome := Pass;
    }

    /** The constructor as a whole: build the collections from the corpus, or
        fail on the first repeated `objectID`, in which case no facade exists. */
    static method Create(docs: seq<Video>) returns (r: Result<Fastr, IngestError>)
      ensures r.Success? <==> DistinctIds(docs)
      ensures r.Success? ==> fresh(r.value) && r.value.Valid() && r.value.videos == docs
      ensures r.Failure? ==> FirstDuplicate(docs).Some?
                             && r.error == DuplicateObjectID(docs[FirstDuplicate(docs).value].objectID)
    {
      var f := new Fastr();
      assert f.videos + docs == docs;
      var outcome := f.Ingest(docs);
      if outcome.Pass? {
        r := Success(f);
      } else {
        r := Failure(outcome.error);
      }
    }

    /** All channels, ordered by title ascending. */
    function SearchChannels(): (r: seq<Channel>)
      reads this
      ensures SortedBy(r, TitleKey, false)
      ensures multiset(r) == multiset(channels)
      ensures forall k :: WithKey(r, TitleKey, k) == WithKey(channels, TitleKey, k)
    {
      Sort(channels, TitleKey, false)
    }

    /** All tags, ascending. */
    function SearchTags(): (r: seq<string>)
      requires Valid()
      reads this
      ensures forall i, j :: 0 <= i < j < |r| ==> StrLt(r[i], r[j])
      ensures forall t :: t in r <==> t in tags
      ensures |r| == |tags|
    {
      TagsUnion(videos);
      SortedTags(tags);
      Sort(tags, TagKey, false)
    }

    /** All speakers, ordered by name ascending. */
    function SearchSpeakers(): (r: seq<Speaker>)
      reads this
      ensures SortedBy(r, NameKey, false)
      ensures multiset(r) == multiset(speakers)
      ensures forall k :: WithKey(r, NameKey, k) == WithKey(speakers, NameKey, k)
    {
      Sort(speakers, NameKey, false)
    }

    /** The records a query picks before sorting and paging: without a query
        string, the stored videos that satisfy the refinement; with one, the
        stored videos the full-text hits refer to, most relevant first. */
    function Candidates(query: string, refinement: Refinement, lunr: TextSearch): seq<Video>
      reads this
    {
      if query == "" then Find(videos, refinement) else Resolve(lunr(indexed, query), videos)
    }

    /** Without a query string and with the default refinement `{}`, every
        stored video is a candidate, in collection order. */
    lemma DefaultRefinementKeepsAll(lunr: TextSearch)
      ensures Candidates("", map[], lunr) == videos
    {
      FindAll(videos);
    }

    /** With a query string the refinement plays no part: it is not handed
        on to the full-text path. */
    lemma TextQueryIgnoresRefinement(query: string, refinement: Refinement, other: Refinement,
                                     sortProperty: string, page: int, maxHitsPerPage: int,
                                     maxHitsPerQuery: int, lunr: TextSearch)
      requires query != ""
      ensures Search(query, refinement, sortProperty, page, maxHitsPerPage, maxHitsPerQuery, lunr)
              == Search(query, other, sortProperty, page, maxHitsPerPage, maxHitsPerQuery, lunr)
    {
    }

    /** The full-text engine only returns references of documents it was
        given; as every indexed document is stored, each hit finds its video
        and none is lost. */
    lemma NoHitLost(query: string, refinement: Refinement, lunr: TextSearch)
      requires Valid() && query != ""
      requires forall i :: 0 <= i < |lunr(indexed, query)| ==> FindVideo(indexed, lunr(indexed, query)[i]).Some?
      ensures |Candidates(query, refinement, lunr)| == |lunr(indexed, query)|
      ensures forall i :: 0 <= i < |lunr(indexed, query)| ==>
                Candidates(query, refinement, lunr)[i].objectID == lunr(indexed, query)[i]
    {
    }

    /** A query. Without a query string: filter by the refinement, sort by the
        sort property descending, skip `page * maxHitsPerPage`, keep at most
        `maxHitsPerQuery`. With one: the full-text path. */
    function Search(query: string, refinement: Refinement, sortProperty: string, page: int,
                    maxHitsPerPage: int, maxHitsPerQuery: int, lunr: TextSearch): (r: seq<Video>)
      reads this
      ensures forall v :: v in r ==> v in videos
      ensures query == "" ==> forall v :: v in r ==> Matches(v, refinement)
      ensures query != "" ==> forall v :: v in r ==> v.objectID in lunr(indexed, query)
      ensures SortedBy(r, PropertyKey(sortProperty), true)
      ensures maxHitsPerQuery >= 0 ==> |r| <= maxHitsPerQuery
      ensures page * maxHitsPerPage >= 0 && maxHitsPerQuery >= 0 ==>
        exists ranked ::
          && SortedBy(ranked, PropertyKey(sortProperty), true)
          && multiset(ranked) == multiset(Candidates(query, refinement, lunr))
          && r == Page(ranked, page * maxHitsPerPage, maxHitsPerQuery)
    {
      if query == "" then
        var descending := true;
        var found := Find(videos, refinement);
        var ranked := Sort(found, PropertyKey(sortProperty), descending);
        var r := Limit(Offset(ranked, page * maxHitsPerPage), maxHitsPerQuery);
        OffsetLimitWindow(found, PropertyKey(sortProperty), page * maxHitsPerPage, maxHitsPerQuery);
        r
      else
        SearchInLunr(query, sortProperty, page, maxHitsPerPage, maxHitsPerQuery, lunr)
    }

    /** The full-text path: look the hits up in the store, re-sort them by the
        sort property descending (relevance then only orders ties), and cut the
        window `[page * maxHitsPerPage, page * maxHitsPerPage + maxHitsPerQuery)`. */
    function SearchInLunr(query: string, sortProperty: string, page: int,
                          maxHitsPerPage: int, maxHitsPerQuery: int, lunr: TextSearch): (r: seq<Video>)
      reads this
      ensures forall v :: v in r ==> v in videos && v.objectID in lunr(indexed, query)
      ensures SortedBy(r, PropertyKey(sortProperty), true)
      ensures maxHitsPerQuery >= 0 ==> |r| <= maxHitsPerQuery
      ensures page * maxHitsPerPage >= 0 && maxHitsPerQuery >= 0 ==>
        exists ranked ::
          && SortedBy(ranked, PropertyKey(sortProperty), true)
          && multiset(ranked) == multiset(Resolve(lunr(indexed, query), videos))
          && (forall k :: WithKey(ranked, PropertyKey(sortProperty), k)
                          == WithKey(Resolve(lunr(indexed, query), videos), PropertyKey(sortProperty), k))
          && r == Page(ranked, page * maxHitsPerPage, maxHitsPerQuery)
    {
      var hits := lunr(indexed, query);
      var found := Resolve(hits, videos);
      var ranked := Sort(found, PropertyKey(sortProperty), true);
      var start := page * maxHitsPerPage;
      SliceWindow(found, PropertyKey(sortProperty), start, maxHitsPerQuery);
      Slice(ranked, start, start + maxHitsPerQuery)
    }
  }

  /** What the path without a query string promises of its window over the
      sorted candidates. */
  lemma OffsetLimitWindow(found: seq<Video>, key: Video -> Option<Scalar>, skip: int, count: int)
    ensures var ranked := Sort(found, key, true);
      var r := Limit(Offset(ranked, skip), count);
      && SortedBy(r, key, true)
      && (forall v :: v in r ==> v in found)
      && (count >= 0 ==> |r| <= count)
      && (skip >= 0 && count >= 0 ==> r == Page(ranked, skip, count))
  {
    var ranked := Sort(found, key, true);
    var r := Limit(Offset(ranked, skip), count);
    var lo := Bound(skip, |ranked|);
    SortedWindow(ranked, key, lo, r);
    MembersOfSorted(found, key);
    PaginationAgrees(ranked, skip, count);
  }

  /** What the full-text path promises of its window over the sorted hits. */
  lemma SliceWindow(found: seq<Video>, key: Video -> Option<Scalar>, start: int, count: int)
    ensures var ranked := Sort(found, key, true);
      var r := Slice(ranked, start, start + count);
      && SortedBy(r, key, true)
      && (forall v :: v in r ==> v in found)
      && (count >= 0 ==> |r| <= count)
      && (start >= 0 && count >= 0 ==> r == Page(ranked, start, count))
  {
    var ranked := Sort(found, key, true);
    var r := Slice(ranked, start, start + count);
    SortedWindow(ranked, key, Bound(start, |ranked|), r);
    MembersOfSorted(found, key);
    PaginationAgrees(ranked, start, count);
  }

  lemma MembersOfSorted(found: seq<Video>, key: Video -> Option<Scalar>)
    ensures forall v :: v in Sort(found, key, true) ==> v in found
  {
    var ranked := Sort(found, key, true);
    forall v | v in ranked ensures v in found {
      assert v in multiset(ranked);
    }
  }

  /** Sorting a set of tags ascending orders them strictly and keeps each. */
  lemma SortedTags(s: seq<string>)
    requires NoDuplicates(s)
    ensures var r := Sort(s, TagKey, false);
      && (forall i, j :: 0 <= i < j < |r| ==> StrLt(r[i], r[j]))
      && (forall t :: t in r <==> t in s)
      && |r| == |s|
  {
    var r := Sort(s, TagKey, false);
    PermutationMembers(s, r);
    forall i, j | 0 <= i < j < |r| ensures StrLt(r[i], r[j]) {
      PermutationDistinct(s, r, i, j);
      assert Precedes(TagKey(r[i]), TagKey(r[j]), false);
    }
  }

  /** A permutation has the length and the members of the original. */
  lemma PermutationMembers(s: seq<string>, r: seq<string>)
    requires multiset(r) == multiset(s)
    ensures |r| == |s| && forall t :: t in r <==> t in s
  {
    assert |r| == |multiset(r)| == |multiset(s)| == |s|;
    forall t ensures t in r <==> t in s {
      assert t in r <==> t in multiset(r);
    }
  }

  /** A permutation of a sequence without repeats has none either. */
  lemma PermutationDistinct(s: seq<string>, r: seq<string>, i: nat, j: nat)
    requires NoDuplicates(s) && multiset(r) == multiset(s) && i < j < |r|
    ensures r[i] != r[j]
  {
    if r[i] == r[j] {
      assert multiset(r)[r[i]] >= 2 by {
        assert r == r[..j] + r[j..];
        assert r[i] in multiset(r[..j]);
        assert r[j] in multiset(r[j..]);
      }
      DistinctCount(s, r[i]);
    }
  }

  /** In a sequence without repeats every element occurs once. */
  lemma {:induction false} DistinctCount(s: seq<string>, t: string)
    requires NoDuplicates(s)
    ensures multiset(s)[t] <= 1
    decreases |s|
  {
    if s != [] {
      assert s == [s[0]] + s[1..];
      DistinctCount(s[1..], t);
    }
  }

  /** A contiguous run of a sorted sequence is sorted, and holds only elements
      of the sequence. */
  lemma SortedWindow<T>(s: seq<T>, key: T -> Option<Scalar>, lo: nat, w: seq<T>)
    requires SortedBy(s, key, true)
    requires lo + |w| <= |s| && forall i :: 0 <= i < |w| ==> w[i] == s[lo + i]
    ensures SortedBy(w, key, true)
    ensures forall v :: v in w ==> v in s
  {
    forall v | v in w ensures v in s {
      var i :| 0 <= i < |w| && w[i] == v;
      assert s[lo + i] == v;
    }
  }
}
