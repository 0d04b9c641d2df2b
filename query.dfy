/** The building blocks of the search paths: the store's equality filter, the
    resolution of full-text hits to stored videos, and the sort keys. */
module Query {
  import opened Values
  import opened Store

  /** The store's `find(refinement)`: the videos satisfying every equality of
      the refinement, each as often as it is stored, in collection order. */
  function Find(videos: seq<Video>, refinement: Refinement): (r: seq<Video>)
    ensures forall v {:trigger v in r} :: v in r <==> v in videos && Matches(v, refinement)
  {
    if videos == [] then []
    else
      (if Matches(videos[0], refinement) then [videos[0]] else []) + Find(videos[1..], refinement)
  }

  /** `find` keeps every matching record as often as it is stored and drops
      every other. */
  lemma {:induction false} FindCounts(videos: seq<Video>, refinement: Refinement)
    ensures forall v :: multiset(Find(videos, refinement))[v]
                        == if Matches(v, refinement) then multiset(videos)[v] else 0
  {
    if videos != [] {
      FindCounts(videos[1..], refinement);
      assert videos == [videos[0]] + videos[1..];
    }
  }

  /** Each full-text hit reference looked up by `objectID` in the store; a
      reference the store does not hold is left out. */
  function Resolve(refs: seq<string>, videos: seq<Video>): (r: seq<Video>)
    ensures |r| <= |refs|
    ensures forall v :: v in r ==> v in videos && v.objectID in refs
    ensures (forall i :: 0 <= i < |refs| ==> FindVideo(videos, refs[i]).Some?) ==>
              |r| == |refs| && forall i :: 0 <= i < |r| ==> r[i].objectID == refs[i]
  {
    if refs == [] then []
    else
      var found := FindVideo(videos, refs[0]);
      var rest := Resolve(refs[1..], videos);
      var r := (if found.Some? then [found.value] else []) + rest;
      assert (forall i :: 0 <= i < |refs| ==> FindVideo(videos, refs[i]).Some?) ==>
               |r| == |refs| && forall i :: 0 <= i < |r| ==> r[i].objectID == refs[i] by {
        if forall i :: 0 <= i < |refs| ==> FindVideo(videos, refs[i]).Some? {
          assert found.Some?;
          forall i | 0 <= i < |refs[1..]| ensures FindVideo(videos, refs[1..][i]).Some? {
            assert refs[1..][i] == refs[i + 1];
          }
          forall i | 0 <= i < |r| ensures r[i].objectID == refs[i] {
            if i > 0 {
              assert r[i] == rest[i - 1] && refs[1..][i - 1] == refs[i];
            }
          }
        }
      }
      r
  }

  /** The default refinement `{}` filters nothing out. */
  lemma {:induction false} FindAll(videos: seq<Video>)
    ensures Find(videos, map[]) == videos
  {
    if videos != [] {
      FindAll(videos[1..]);
      assert videos == [videos[0]] + videos[1..];
    }
  }

  /** The sort key of a video for a sort property: the property's value. */
  function PropertyKey(sortProperty: string): Video -> Option<Scalar> {
    v => Attribute(v, sortProperty)
  }

  function TitleKey(c: Channel): Option<Scalar> {
    Some(Text(c.title))
  }

  function NameKey(s: Speaker): Option<Scalar> {
    Some(Text(s.name))
  }

  function TagKey(t: string): Option<Scalar> {
    Some(Text(t))
  }
}
