/** The records the search facade works on: videos as loaded from the corpus,
    the speaker and channel records derived from them, and the small
    failure-carrying wrappers the operations return. */
module Values {

  datatype Option<+T> = None | Some(value: T)

  datatype Result<+T, +E> = Success(value: T) | Failure(error: E)

  datatype Outcome<+E> = Pass | Fail(error: E)

  /** A scalar field value of a document: what a refinement compares against
      and what a sort reads. */
  datatype Scalar = Num(n: int) | Text(s: string)

  /** A speaker record, copied verbatim from the first video that names it;
      `details` holds whatever other scalar fields the source document carries. */
  datatype Speaker = Speaker(name: string, twitter: string, details: map<string, Scalar>)

  /** A channel record, built from a video's `channelId` and `channelTitle`. */
  datatype Channel = Channel(id: string, title: string)

  /** A video document. `speaker` and `tags` may be absent; `fields` holds the
      remaining scalar fields (a numeric `satisfaction`, for one). */
  datatype Video = Video(
    objectID: string,
    title: string,
    speaker: Option<Speaker>,
    tags: Option<seq<string>>,
    channelId: string,
    channelTitle: string,
    fields: map<string, Scalar>)

  /** The one error ingestion can raise: the unique index on `objectID`
      refused a second document with the same key. */
  datatype IngestError = DuplicateObjectID(objectID: string)

  /** The names of the video's own properties; `fields` holds the others. */
  const Named: set<string> := {"objectID", "title", "speaker", "tags", "channelId", "channelTitle"}

  /** The value a property lookup `video[name]` yields, if it is a scalar.
      The speaker object and the tag list are not scalars, so they never
      satisfy an equality refinement and sort as absent; an entry of
      `fields` under one of the video's own property names is shadowed by
      that property. */
  function Attribute(v: Video, name: string): (r: Option<Scalar>)
    ensures name == "objectID" ==> r == Some(Text(v.objectID))
    ensures name == "title" ==> r == Some(Text(v.title))
    ensures name == "channelId" ==> r == Some(Text(v.channelId))
    ensures name == "channelTitle" ==> r == Some(Text(v.channelTitle))
    ensures name == "speaker" || name == "tags" ==> r.None?
    ensures name !in Named && name in v.fields ==> r == Some(v.fields[name])
    ensures name !in Named && name !in v.fields ==> r.None?
  {
    if name == "objectID" then Some(Text(v.objectID))
    else if name == "title" then Some(Text(v.title))
    else if name == "channelId" then Some(Text(v.channelId))
    else if name == "channelTitle" then Some(Text(v.channelTitle))
    else if name == "speaker" || name == "tags" then None
    else if name in v.fields then Some(v.fields[name])
    else None
  }

  /** A refinement: field name to required value, all conditions ANDed. */
  type Refinement = map<string, Scalar>

  /** Whether a video satisfies every equality of a refinement. */
  predicate Matches(v: Video, refinement: Refinement) {
    forall name | name in refinement :: Attribute(v, name) == Some(refinement[name])
  }
}
