# Fastr: the in-memory search facade

This project models the core of `src/Fastr.ts` in Dafny. `Fastr` is the search facade of a video catalogue. It is built once from a corpus of video documents:

- a document store holds three collections with unique keys: videos by `objectID`, speakers by `twitter` handle, and channels by `id`;
- a tag set collects tags;
- a full-text index covers the same documents.

After construction the facade is only queried:

- `searchChannels` lists the channels by title;
- `searchSpeakers` lists the speakers by name;
- `searchTags` lists the tags in ascending order;
- `search` answers a query in one of two ways:
  - without a query string, it filters by a refinement, sorts by a property in descending order and cuts a page;
  - with one, it resolves the full-text hits to stored videos, re-sorts them by the property in descending order and cuts the same kind of page.

## Modules

- `Values`: the records (`Video`, `Speaker`, `Channel`), the scalar field values, `Option`/`Result`/`Outcome`, and the refinement test `Matches`.
- `Order`: the order of sort keys. It is a total preorder:
  - an absent value comes first;
  - numbers come before strings;
  - strings are ordered character by character.
- `Sorting`: the store's `simplesort` and the array `sort` with a `firstBy` comparator, both modelled as one stable insertion sort by key, ascending or descending.
- `Window`: JavaScript's `Array.prototype.slice` (with negative and out-of-range bounds), and the store's `offset`/`limit`, which are built from it.
- `Store`: `by(field, value)` lookups in the collections, and key distinctness.
- `Ingestion`: what the constructor's loop leaves in each side collection, as folds over the documents ingested so far. This module also proves the first-wins and union properties of those folds, and locates the first repeated `objectID`.
- `Query`: the store's `find(refinement)`, the resolution of hit references to videos, and the sort keys.
- `Fastr`: the class itself.
  - Its fields are updated in place by the ingestion loop: `AddDocument` handles one document, `AddTagList` one tag list, and `Ingest` runs the loop.
  - `Create` is the constructor as a whole. It fails when the unique index rejects a document.
  - The queries are functions of the built state.
- `Scenarios`: small worked cases of the query paths on concrete records.

The full-text engine is a parameter of type `TextSearch`. It maps the indexed documents and a query string to the matching references, most relevant first.

## Model

| member | source | states |
|---|---|---|
| Fastr.Fastr.constructor | src/Fastr.ts:41-45 | The collections and the tag set start empty, and the empty state satisfies the ingestion invariant. |
| Fastr.Fastr.AddDocument | src/Fastr.ts:80-97 | One loop step. The document is indexed. Its speaker is stored only if the handle is new, and its channel only if the id is new; its tags join the set. The video is stored exactly when no stored video has its `objectID`, and then the ingestion invariant holds again. |
| Fastr.Fastr.AddTagList | src/Fastr.ts:93-95 | Adding a tag list one tag at a time leaves the set equal to the old set extended by the new tags, each once, in order. |
| Fastr.Fastr.Ingest | src/Fastr.ts:80-97 | The pass completes exactly when no document repeats an earlier `objectID`, and then every collection is what ingesting all documents leaves. Otherwise it stops at the first repeat and reports that key. The repeated document has already reached the index, the speakers, the channels and the tags, but not the videos. |
| Fastr.Fastr.Create | src/Fastr.ts:25-100 | A facade exists exactly when the corpus has distinct `objectID`s. It then holds the corpus in order and satisfies the invariant; otherwise the error names the first repeated key. |
| Fastr.Fastr.SearchChannels | src/Fastr.ts:102-104 | The result is a permutation of the stored channels, ordered by title ascending. Channels with equal titles keep their insertion order. |
| Fastr.Fastr.SearchTags | src/Fastr.ts:106-108 | The result is strictly ascending, so it has no duplicates, and it holds exactly the tags of the set. |
| Fastr.Fastr.SearchSpeakers | src/Fastr.ts:110-112 | The result is a permutation of the stored speakers, ordered by name ascending. Speakers with equal names keep their insertion order. |
| Fastr.Fastr.Search | src/Fastr.ts:114-133 | Every result is a stored video. Without a query string, each result satisfies the refinement; with one, each result is a full-text hit. The result is ordered by the sort property, descending, and holds at most `maxHitsPerQuery` records. For non-negative numbers it is the window at `page * maxHitsPerPage` of a sorted permutation of the candidates. |
| Fastr.Fastr.SearchInLunr | src/Fastr.ts:135-143 | The results are stored videos among the hits, ordered descending by the sort property. Ties keep relevance order. At most `maxHitsPerQuery` are returned. For non-negative numbers the result is the window `[page * maxHitsPerPage, page * maxHitsPerPage + maxHitsPerQuery)` of the stably sorted resolved hits. |
| Fastr.Fastr.DefaultRefinementKeepsAll | src/Fastr.ts:114-120 | With the default refinement `{}` and no query string, every stored video is a candidate, in collection order. |
| Fastr.Fastr.TextQueryIgnoresRefinement | src/Fastr.ts:128-130 | With a query string, two different refinements give the same result. |
| Fastr.Fastr.NoHitLost | src/Fastr.ts:136-140 | If the full-text engine only returns references of indexed documents, then after a valid ingestion every hit resolves to its video, in hit order. |
| Fastr.OffsetLimitWindow | src/Fastr.ts:118-124 | `offset` then `limit` on the sorted candidates gives a sorted run of candidates of at most `count` records. For non-negative arguments it is exactly the page window. |
| Fastr.SliceWindow | src/Fastr.ts:139-142 | `slice(start, start + count)` on the sorted hits gives a sorted run of hits of at most `count` records. For non-negative arguments it is exactly the page window. |
| Fastr.SortedTags | src/Fastr.ts:107 | Sorting a duplicate-free tag sequence ascending gives a strictly ascending sequence with the same members and length. |
| Sorting.Sort | src/Fastr.ts:103-141 | The result is sorted by the key in the requested direction and is a permutation of the input. For every key value, the records with that key keep their input order (stability). |
| Order.PrecedesTotal | src/Fastr.ts:121-141 | Any two keys are comparable in either direction. |
| Order.PrecedesTransitive | src/Fastr.ts:121-141 | The key order is transitive in either direction. |
| Order.PrecedesAntisymmetric | src/Fastr.ts:121-141 | Keys that precede each other are equal. |
| Order.StrLeTotal | src/Fastr.ts:103-111 | Any two strings are comparable. |
| Order.StrLeAntisymmetric | src/Fastr.ts:103-111 | Strings that are each at most the other are equal. |
| Order.StrLeTransitive | src/Fastr.ts:103-111 | The string order is transitive. |
| Window.Bound | src/Fastr.ts:142 | A slice bound resolves into `[0, len]`. A negative bound counts from the end; a bound past the end is clamped to the length. |
| Window.Slice | src/Fastr.ts:142 | The slice has length `hi - lo` when the resolved bounds are in order, and is empty otherwise. It holds the elements from `lo` on. |
| Window.Offset | src/Fastr.ts:122 | For a non-negative position, the store's `offset(pos)` keeps everything from `pos` on, or nothing when `pos` is past the end. For negative positions the contract says nothing directly; `Window.Slice` and `Window.PaginationDivergesOnNegativeSkip` cover that case. |
| Window.Limit | src/Fastr.ts:123 | For a non-negative quantity, the store's `limit(qty)` keeps the first `qty` records, or all of them when there are fewer. For negative quantities the contract says nothing directly; `Window.Slice` covers that case. |
| Window.Page | src/Fastr.ts:122-123 | A page holds at most `count` elements, with the exact length given by the skip, the count and the input length. Its elements are the input's from `skip` on. |
| Window.PaginationAgrees | src/Fastr.ts:122-142 | For non-negative skip and count, the store's `offset`+`limit` and the array `slice` cut the same page. |
| Window.PaginationDivergesOnNegativeSkip | src/Fastr.ts:122-142 | With a negative skip, the two cuts differ (`[8, 9]` versus `[]` on ten records). |
| Store.FindSpeaker | src/Fastr.ts:82 | `by("twitter", h)` finds a stored speaker with handle `h`, and finds nothing exactly when none is stored. |
| Store.FindChannel | src/Fastr.ts:86 | `by("id", id)` finds a stored channel with that id, and finds nothing exactly when none is stored. |
| Store.FindVideo | src/Fastr.ts:140 | `by("objectID", ref)` finds a stored video with that key, and finds nothing exactly when none is stored. |
| Store.FindVideoUnique | src/Fastr.ts:140 | In a collection with distinct keys, a lookup by key returns the one record that holds it. |
| Store.FindSpeakerAppend | src/Fastr.ts:82-83 | Appending a speaker changes a lookup only when the handle was absent and the new speaker has it. |
| Store.FindChannelAppend | src/Fastr.ts:86-90 | Appending a channel changes a lookup only when the id was absent and the new channel has it. |
| Ingestion.IngestStep | src/Fastr.ts:80-97 | Ingesting one more document is one step of each side-collection fold. |
| Ingestion.SpeakersFirstWins | src/Fastr.ts:82-84 | The stored speaker for a handle is the speaker of the first document with that handle, and there is none if no document has it. |
| Ingestion.ChannelsFirstWins | src/Fastr.ts:86-91 | The stored channel for an id carries the `channelTitle` of the first document with that channel id, and there is none if no document has it. |
| Ingestion.SpeakersUnique | src/Fastr.ts:82-84 | The stored speakers have pairwise distinct handles. |
| Ingestion.ChannelsUnique | src/Fastr.ts:86-91 | The stored channels have pairwise distinct ids. |
| Ingestion.NoSpeakerNoRecord | src/Fastr.ts:82 | A document without a speaker adds no speaker record. |
| Ingestion.SpeakersOfPrefix | src/Fastr.ts:82-84 | Later documents only append speakers and never change a stored one. |
| Ingestion.ChannelsOfPrefix | src/Fastr.ts:86-91 | Later documents only append channels and never change a stored one (no later title wins). |
| Ingestion.AddTagsContents | src/Fastr.ts:94 | Adding a tag list to a duplicate-free tag set keeps it duplicate-free, and its members are the old members plus the list's. |
| Ingestion.TagsUnion | src/Fastr.ts:93-95 | The tag set is duplicate-free and holds exactly the tags of the documents that have tags. |
| Ingestion.FirstDuplicate | src/Fastr.ts:28-31 | Where the unique index on `objectID` makes ingestion fail. There is no such position exactly when the keys are distinct. Otherwise the position is inside the corpus, repeats an earlier key, and no earlier position does. |
| Ingestion.FirstDuplicateAt | src/Fastr.ts:96 | The first position that repeats an earlier key is the one reported. |
| Ingestion.FirstDuplicateRefused | src/Fastr.ts:96 | A document whose key its distinct prefix already holds is the first duplicate of the whole sequence. |
| Ingestion.FirstDuplicateExtend | src/Fastr.ts:80-97 | Documents after the first duplicate do not change which document is reported. |
| Ingestion.DistinctAppend | src/Fastr.ts:96 | Storing a video whose key is absent keeps the keys distinct. |
| Ingestion.FirstSpeaker | src/Fastr.ts:82-84 | Some speaker is found for a handle exactly when some document has a speaker with that handle. The one found is the speaker of a document whose speaker has that handle, and no earlier document has a speaker with it. |
| Ingestion.FirstChannel | src/Fastr.ts:86-91 | Some channel is found for an id exactly when some document has that channel id, and its title is such a document's `channelTitle`. |
| Query.Find | src/Fastr.ts:120 | A video is in the result exactly when it is stored and satisfies every equality of the refinement. |
| Query.FindCounts | src/Fastr.ts:120 | Each matching video is kept as often as it is stored, and each other video is dropped. |
| Query.FindAll | src/Fastr.ts:114-120 | The empty refinement keeps the collection unchanged. |
| Query.Resolve | src/Fastr.ts:140 | Each resolved video is stored and is among the hits. When every hit is stored, the result has one video per hit, in hit order. |
| Values.Attribute | src/Fastr.ts:120-141 | Reading `video[name]` gives the video's own `objectID`, `title`, `channelId` and `channelTitle` values. The speaker object and the tag list read as absent. Any other name reads the record's field of that name, and is absent when the record has none. |
| Scenarios.TwoChannels | src/Fastr.ts:86-104 | Three videos on channels `c1` ("Chan", twice) and `c2` ("Alpha") list `Alpha` before `Chan`. |
| Scenarios.FilterChannel | src/Fastr.ts:120 | Refining by `channelId` keeps the three matching videos out of five, in collection order. |
| Scenarios.RankThree | src/Fastr.ts:121 | Keys 1, 3 and 2 sort descending to 3, 2 and 1. |
| Scenarios.RefinedPage | src/Fastr.ts:116-124 | Without a query string, the first page of the `c1` refinement sorted by satisfaction holds those three videos, highest first. |
| Scenarios.TextQueryPage | src/Fastr.ts:135-143 | Two hits, the less satisfying one more relevant, come back ordered by satisfaction, whatever the refinement. |
| Scenarios.NoMatch | src/Fastr.ts:135-143 | A query with no full-text hits yields an empty page. |

## Notes on the source

- **Falsy query.** The two branches of `search` test `!query` and `query`. In the model the query is a string, and the falsy query is the empty string.
- **Unresolved hits.** The source maps a hit whose reference the store does not hold to `undefined`, with no filtering. The model drops such hits, so that a missing cross-reference is filtered out rather than passed on. `Fastr.Fastr.NoHitLost` shows this never happens after a valid ingestion: every indexed document is stored, so every reference the engine returns resolves. The two readings therefore agree.
- **`maxHitsPerPage` and `maxHitsPerQuery`.** The source uses `maxHitsPerPage` for the skip and `maxHitsPerQuery` for the take. The model keeps both as independent parameters, as the source has them.
- **Indexing a rejected document.** The document that the unique index rejects has already been added to the full-text index and the side collections by then. Construction then aborts, so no facade exposes that state. `Fastr.Fastr.Ingest` still states it.

## Left out

- Directory walk and file reading in `docLoader` (src/Fastr.ts:47-68): this is filesystem I/O. Ingestion takes the documents as a sequence of records. The `toJSON()` at line 62 gives a Buffer's JSON form, not a parsed document; that belongs to the I/O layer and is not modelled.
- `Logger` calls (src/Fastr.ts:57-64): they only log.
- Full-text engine internals: tokenisation, field extractors (the speaker extractor at line 76), field weighting, the query grammar, relevance scoring and query syntax errors. The engine is the `TextSearch` parameter.
- Document store and comparator internals: index maintenance, the binary index on `satisfaction`, and the rest of JavaScript's comparison semantics. Keys are compared by the total preorder in `Order`: absent < numbers < strings, with strings compared by character. Ties are broken stably in both paths. For the path without a query string, that tie order is a modelling choice; the store itself does not promise one.
- Floating-point field values: numeric fields are integers.
- Strings compare by Unicode code point per character. JavaScript compares UTF-16 code units; the two differ only outside the Basic Multilingual Plane.
- Refinement operators other than equality (`$gt`, `$in`, ...): a refinement is a map from field name to required value.
- Speakers without a `twitter` handle and videos without a `channelId`: the store's unique index skips undefined keys. In the model every speaker has a handle and every video a channel id.
- Non-integer `page` and hit counts: these are integers.
- The unused locals `hitsTotal` and `sortPropertyDesc` (src/Fastr.ts:137-138): they have no effect.
- Store metadata (`$loki`, `meta`) attached to stored records: the model returns the records as ingested.
- Concurrency: there is none in the source.
