/** The agent's Tag handler (pkg/server/images/tag.go): each requested tag becomes a copy of the source
    image's record under the new name, replacing any record already there. */
module ImageTag {
  import opened Outcomes
  import opened Stores
  import opened Containerd
  import opened ImagesApi

  /** One iteration of the loop (tag.go:28-41): Create, and on AlreadyExists Delete then Create again. */
  method TagOne(images: Store<string, Image>, img: Image, tag: string) returns (err: Option<Error>)
    requires ImageStore(images)
    modifies images`objects
    ensures ImageStore(images)
    ensures err.None? ==> images.objects == old(images.objects)[tag := img.(name := tag)]
    ensures err.Some? ==> images.objects == old(images.objects) || images.objects == old(images.objects) - {tag}
    ensures tag !in old(images.objects) && err.Some? ==> images.objects == old(images.objects)
  {
    var tagged := img.(name := tag);
    err := images.Create(tagged);
    if err.Some? {
      if err == Some(AlreadyExists) {
        err := images.Delete(tag);
        if err.Some? {
          return err;
        }
        err := images.Create(tagged);
      }
    }
  }

  /** The store agrees with `m` on every name outside `names`. */
  ghost predicate AgreesOutside(now: map<string, Image>, m: map<string, Image>, names: set<string>) {
    forall k | k !in names :: (k in now <==> k in m) && (k in now ==> now[k] == m[k])
  }

  /** Tag (tag.go:14-51). `request` is the name of the request's image, None when the request carries
      no image; `lease` is the outcome of taking the lease and `status` what ImageStatus reports for the
      requested image. `done` counts the tags completed. */
  method Tag(images: Store<string, Image>, request: Option<string>, tags: seq<string>, lease: Option<Error>,
             status: Result<Option<CriImage>>)
    returns (r: Result<Option<CriImage>>, ghost done: nat)
    requires ImageStore(images)
    modifies images`objects
    ensures ImageStore(images)
    ensures lease.Some? ==> r == Err(lease.value) && images.objects == old(images.objects)
    // The image is read only once the lease is held: a request without one panics there.
    ensures lease.None? && request.None? ==> r == Err(Panic(NilDereference)) && images.objects == old(images.objects)
    ensures request.Some? && request.value !in old(images.objects) ==> r.Err? && images.objects == old(images.objects)
    ensures done <= |tags|
    // The completed tags name copies of the source record, unless the failing tag repeats one of them.
    ensures done > 0 ==> (request.Some? && request.value in old(images.objects)
      && forall k | 0 <= k < done :: (done < |tags| && tags[k] == tags[done]) || (tags[k] in images.objects
           && images.objects[tags[k]] == old(images.objects)[request.value].(name := tags[k])))
    // Nothing is touched beyond the tag being processed when the loop stopped.
    ensures AgreesOutside(images.objects, old(images.objects), set k | 0 <= k < done + 1 && k < |tags| :: tags[k])
    ensures r.Ok? ==> done == |tags| && r == status
    // Once every tag is done, the response is the requested image's status, whatever it says.
    ensures lease.None? && done == |tags| && r != status ==> r.Err? && images.objects == old(images.objects)
    ensures r.Ok? ==> request.Some? && request.value in images.objects && images.objects[request.value] == old(images.objects)[request.value]
  {
    done := 0;
    if lease.Some? {
      return Err(lease.value), done;
    }
    if request.None? {
      return Err(Panic(NilDereference)), done;
    }
    var ref := request.value;
    var got := images.Get(ref);
    if got.Err? {
      return Err(got.error), done;
    }
    var img := got.value;
    var i := 0;
    while i < |tags|
      invariant i <= |tags|
      invariant ImageStore(images)
      invariant forall k | 0 <= k < i :: tags[k] in images.objects && images.objects[tags[k]] == img.(name := tags[k])
      invariant AgreesOutside(images.objects, old(images.objects), set k | 0 <= k < i :: tags[k])
    {
      var e := TagOne(images, img, tags[i]);
      if e.Some? {
        return Err(e.value), i;
      }
      assert (set k | 0 <= k < i + 1 :: tags[k]) == (set k | 0 <= k < i :: tags[k]) + {tags[i]};
      i := i + 1;
    }
    done := i;
    assert (set k | 0 <= k < done + 1 && k < |tags| :: tags[k]) == (set k | 0 <= k < i :: tags[k]);
    // Retagging the source under its own name writes the same record back.
    assert img.(name := ref) == img;
    return status, done;
  }
}
