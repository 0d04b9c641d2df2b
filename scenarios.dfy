/** Small worked corpora: what the search facade answers on them. */
module Scenarios {
  import opened Values
  import opened Order
  import opened Sorting
  import opened Window
  import opened Ingestion
  import opened Query
  import opened Store
  import opened Fastr

  /** A video on `channel` (titled `channelTitle`) with a satisfaction score. */
  function Doc(id: string, channel: string, channelTitle: string, satisfaction: int): Video {
    Video(id, "Talk " + id, None, None, channel, channelTitle, map["satisfaction" := Num(satisfaction)])
  }

  /** Three videos, two on channel `c1` titled "Chan", one on `c2` titled
      "Alpha": two channel records, "Alpha" first. */
  lemma TwoChannels(f: Fastr)
    requires f.Valid() && f.videos == [Doc("a", "c1", "Chan", 1), Doc("b", "c1", "Chan", 2), Doc("c", "c2", "Alpha", 3)]
    ensures f.SearchChannels() == [Channel("c2", "Alpha"), Channel("c1", "Chan")]
  {
    ChannelRecords(f.videos);
    var chan, alpha := Channel("c1", "Chan"), Channel("c2", "Alpha");
    assert !Precedes(TitleKey(chan), TitleKey(alpha), false) by {
      assert !StrLe("Chan", "Alpha");
    }
    SortOne(alpha, TitleKey, false);
    InsertAfter(chan, alpha, TitleKey, false);
    SortStep(chan, [alpha], [chan, alpha], [alpha], [alpha, chan], TitleKey, false);
  }

  lemma ChannelRecords(docs: seq<Video>)
    requires docs == [Doc("a", "c1", "Chan", 1), Doc("b", "c1", "Chan", 2), Doc("c", "c2", "Alpha", 3)]
    ensures ChannelsOf(docs) == [Channel("c1", "Chan"), Channel("c2", "Alpha")]
  {
    assert docs[..2][..1] == [docs[0]];
    assert docs[..1][..0] == [];
    assert ChannelsOf(docs[..1]) == [Channel("c1", "Chan")];
    assert ChannelsOf(docs[..2]) == [Channel("c1", "Chan")];
  }

  /** Videos `a`, `b`, `c` on channel `c1` among two videos on other
      channels: the `c1` refinement keeps those three, in collection order. */
  lemma FilterChannel(a: Video, x: Video, b: Video, y: Video, c: Video, r: Refinement)
    requires r == map["channelId" := Text("c1")]
    requires a.channelId == b.channelId == c.channelId == "c1"
    requires x.channelId != "c1" && y.channelId != "c1"
    ensures Find([a, x, b, y, c], r) == [a, b, c]
  {
    ChannelMatches(a, r); ChannelMatches(x, r); ChannelMatches(b, r);
    ChannelMatches(y, r); ChannelMatches(c, r);
    FindKeep(c, [], r, []);
    FindSkip(y, [c], r, [c]);
    FindKeep(b, [y, c], r, [c]);
    FindSkip(x, [b, y, c], r, [b, c]);
    FindKeep(a, [x, b, y, c], r, [b, c]);
  }

  /** A matching video heads the filtered sequence. */
  lemma FindKeep(v: Video, rest: seq<Video>, r: Refinement, found: seq<Video>)
    requires Matches(v, r) && Find(rest, r) == found
    ensures Find([v] + rest, r) == [v] + found
  {
    FindCons(v, rest, r);
  }

  /** A video that does not match is filtered out. */
  lemma FindSkip(v: Video, rest: seq<Video>, r: Refinement, found: seq<Video>)
    requires !Matches(v, r) && Find(rest, r) == found
    ensures Find([v] + rest, r) == found
  {
    FindCons(v, rest, r);
  }

  /** A video matches the one-key channel refinement exactly when it carries
      that channel. */
  lemma ChannelMatches(v: Video, r: Refinement)
    requires r == map["channelId" := Text("c1")]
    ensures Matches(v, r) <==> v.channelId == "c1"
  {
    assert "channelId" in r && r["channelId"] == Text("c1");
  }

  lemma FindCons(v: Video, rest: seq<Video>, r: Refinement)
    ensures Find([v] + rest, r) == (if Matches(v, r) then [v] else []) + Find(rest, r)
  {
    assert ([v] + rest)[1..] == rest;
  }

  /** Keys 1, 3 and 2 sort descending to 3, 2, 1. */
  lemma RankThree<T>(a: T, b: T, c: T, key: T -> Option<Scalar>)
    requires key(a) == Some(Num(1)) && key(b) == Some(Num(3)) && key(c) == Some(Num(2))
    ensures Sort([a, b, c], key, true) == [b, c, a]
  {
    SortOne(c, key, true);
    InsertAhead(b, c, key, true);
    SortStep(b, [c], [b, c], [c], [b, c], key, true);
    InsertLast(a, b, c, key);
    SortStep(a, [b, c], [a, b, c], [b, c], [b, c, a], key, true);
  }

  /** One step of the insertion sort, on named intermediate results. */
  lemma SortStep<T>(x: T, t: seq<T>, s: seq<T>, sorted: seq<T>, out: seq<T>,
                    key: T -> Option<Scalar>, descending: bool)
    requires s == [x] + t
    requires Sort(t, key, descending) == sorted && Insert(x, sorted, key, descending) == out
    ensures Sort(s, key, descending) == out
  {
    SortCons(x, t, key, descending);
  }

  lemma InsertAhead<T>(x: T, h: T, key: T -> Option<Scalar>, descending: bool)
    requires Precedes(key(x), key(h), descending)
    ensures Insert(x, [h], key, descending) == [x, h]
  {
    assert [x] + [h] == [x, h];
  }

  lemma InsertLast<T>(x: T, h: T, k: T, key: T -> Option<Scalar>)
    requires !Precedes(key(x), key(h), true) && !Precedes(key(x), key(k), true)
    ensures Insert(x, [h, k], key, true) == [h, k, x]
  {
    InsertPast(x, h, [k], key, true);
    InsertAfter(x, k, key, true);
    assert [h] + [k] == [h, k];
    assert [h] + [k, x] == [h, k, x];
  }

  lemma InsertAfter<T>(x: T, h: T, key: T -> Option<Scalar>, descending: bool)
    requires !Precedes(key(x), key(h), descending)
    ensures Insert(x, [h], key, descending) == [h, x]
  {
    InsertPast(x, h, [], key, descending);
    assert [h] + [] == [h];
    assert [h] + [x] == [h, x];
  }

  lemma SortCons<T>(x: T, t: seq<T>, key: T -> Option<Scalar>, descending: bool)
    ensures Sort([x] + t, key, descending) == Insert(x, Sort(t, key, descending), key, descending)
  {
    assert ([x] + t)[1..] == t;
  }

  lemma InsertPast<T>(x: T, h: T, t: seq<T>, key: T -> Option<Scalar>, descending: bool)
    requires !Precedes(key(x), key(h), descending)
    ensures Insert(x, [h] + t, key, descending) == [h] + Insert(x, t, key, descending)
  {
    assert ([h] + t)[1..] == t;
  }

  lemma SortOne<T>(x: T, key: T -> Option<Scalar>, descending: bool)
    ensures Sort([x], key, descending) == [x]
  {
    SortCons(x, [], key, descending);
    assert [x] + [] == [x];
  }

  /** Five videos, three on channel `c1` with satisfaction 1, 3 and 2: the
      first page of the `c1` refinement sorted by satisfaction holds exactly
      those three, highest first. */
  lemma RefinedPage(f: Fastr, a: Video, x: Video, b: Video, y: Video, c: Video, lunr: TextSearch)
    requires f.videos == [a, x, b, y, c]
    requires a.channelId == b.channelId == c.channelId == "c1"
    requires x.channelId != "c1" && y.channelId != "c1"
    requires Attribute(a, "satisfaction") == Some(Num(1))
    requires Attribute(b, "satisfaction") == Some(Num(3))
    requires Attribute(c, "satisfaction") == Some(Num(2))
    ensures f.Search("", map["channelId" := Text("c1")], "satisfaction", 0, 10, 10, lunr) == [b, c, a]
  {
    FilterChannel(a, x, b, y, c, map["channelId" := Text("c1")]);
    RankThree(a, b, c, PropertyKey("satisfaction"));
    assert Limit(Offset([b, c, a], 0), 10) == [b, c, a];
  }

  /** A full-text query matching two stored videos, the less satisfying one
      more relevant: the page holds both, by satisfaction, relevance order
      discarded. */
  lemma TextQueryPage(f: Fastr, lo: Video, hi: Video, refinement: Refinement, lunr: TextSearch)
    requires f.Valid() && lo in f.videos && hi in f.videos
    requires lunr(f.indexed, "intro") == [lo.objectID, hi.objectID]
    requires Attribute(lo, "satisfaction") == Some(Num(1))
    requires Attribute(hi, "satisfaction") == Some(Num(5))
    ensures f.Search("intro", refinement, "satisfaction", 0, 5, 5, lunr) == [hi, lo]
  {
    RankedHits(f.videos, lo, hi, lunr(f.indexed, "intro"));
    LunrPage(f, "intro", refinement, "satisfaction", 0, 5, 5, lunr, [hi, lo]);
    SliceAll([hi, lo], 0 + 5);
  }

  /** A slice from the start past the end is the whole sequence. */
  lemma SliceAll<T>(s: seq<T>, end: int)
    requires |s| <= end
    ensures Slice(s, 0, end) == s
  {
  }

  /** The full-text page is the window over the ranked resolved hits. */
  lemma LunrPage(f: Fastr, query: string, refinement: Refinement, sortProperty: string, page: int,
                 maxHitsPerPage: int, maxHitsPerQuery: int, lunr: TextSearch, ranked: seq<Video>)
    requires query != ""
    requires Sort(Resolve(lunr(f.indexed, query), f.videos), PropertyKey(sortProperty), true) == ranked
    ensures f.Search(query, refinement, sortProperty, page, maxHitsPerPage, maxHitsPerQuery, lunr)
            == Slice(ranked, page * maxHitsPerPage, page * maxHitsPerPage + maxHitsPerQuery)
  {
  }

  /** Two stored hits, the first less satisfying, rank the other way round. */
  lemma RankedHits(videos: seq<Video>, lo: Video, hi: Video, refs: seq<string>)
    requires DistinctIds(videos) && lo in videos && hi in videos
    requires refs == [lo.objectID, hi.objectID]
    requires Attribute(lo, "satisfaction") == Some(Num(1))
    requires Attribute(hi, "satisfaction") == Some(Num(5))
    ensures Sort(Resolve(refs, videos), PropertyKey("satisfaction"), true) == [hi, lo]
  {
    ResolveTwo(videos, lo, hi);
    RankTwo(lo, hi, PropertyKey("satisfaction"));
  }

  /** Two references to stored videos resolve to those videos, in order. */
  lemma ResolveTwo(videos: seq<Video>, lo: Video, hi: Video)
    requires DistinctIds(videos) && lo in videos && hi in videos
    ensures Resolve([lo.objectID, hi.objectID], videos) == [lo, hi]
  {
    var i :| 0 <= i < |videos| && videos[i] == lo;
    var j :| 0 <= j < |videos| && videos[j] == hi;
    FindVideoUnique(videos, i);
    FindVideoUnique(videos, j);
    var refs := [lo.objectID, hi.objectID];
    assert refs[1..] == [hi.objectID] && refs[1..][1..] == [];
  }

  /** Of two records, the one with the greater numeric key comes first. */
  lemma RankTwo<T>(lo: T, hi: T, key: T -> Option<Scalar>)
    requires key(lo).Some? && key(lo).value.Num? && key(hi).Some? && key(hi).value.Num?
    requires key(lo).value.n < key(hi).value.n
    ensures Sort([lo, hi], key, true) == [hi, lo]
  {
    SortOne(hi, key, true);
    InsertAfter(lo, hi, key, true);
    SortCons(lo, [hi], key, true);
    assert [lo] + [hi] == [lo, hi];
  }

  /** A query the full-text engine matches nowhere yields an empty page. */
  lemma NoMatch(f: Fastr, query: string, refinement: Refinement, sortProperty: string,
                page: int, maxHitsPerPage: int, maxHitsPerQuery: int, lunr: TextSearch)
    requires query != "" && lunr(f.indexed, query) == []
    ensures f.Search(query, refinement, sortProperty, page, maxHitsPerPage, maxHitsPerQuery, lunr) == []
  {
    assert Resolve([], f.videos) == [];
    assert Sort([], PropertyKey(sortProperty), true) == [];
  }
}
