/** The agent's Remove handler (pkg/server/images/remove.go): the requested name is deleted, together
    with the other names of the same image when their number or the request says so. */
module ImageRemove {
  import opened Outcomes
  import opened Stores
  import opened Containerd
  import opened ImagesApi
  import Text

  const IdPrefix: string := "sha256:"

  function Names(images: seq<Image>): (r: seq<string>)
    ensures |r| == |images| && forall i | 0 <= i < |images| :: r[i] == images[i].name
  {
    seq(|images|, i requires 0 <= i < |images| => images[i].name)
  }

  /** The names Remove deletes (remove.go:29-41), given the other names of the same target: the
      requested name first; then the other name if there is exactly one; else, for an image ID, all of
      them; else none. */
  function RefsToDelete(name: string, tags: seq<string>): (r: seq<string>)
    ensures |r| >= 1 && r[0] == name
    ensures forall x | x in r[1..] :: x in tags
    ensures |tags| == 1 ==> r == [name, tags[0]]
    ensures |tags| != 1 && Text.HasPrefix(name, IdPrefix) ==> r == [name] + tags
    ensures |tags| != 1 && !Text.HasPrefix(name, IdPrefix) ==> r == [name]
  {
    if |tags| == 1 then [name, tags[0]]
    else if Text.HasPrefix(name, IdPrefix) then [name] + tags
    else [name]
  }

  /** The image's other names: the ones the List filter `target.digest==<digest>,name!=<name>` selects. */
  predicate SharesTarget(img: Image, other: Image) {
    other.target.digest == img.target.digest && other.name != img.name
  }

  /** The store without the images named in `removed`. */
  function Without(m: map<string, Image>, removed: set<string>): map<string, Image> {
    map k | k in m && k !in removed :: m[k]
  }

  /** The chosen names, given a listing of the other stored images of the target, are stored, share
      the target, and are distinct. */
  lemma ChosenRefs(objects: map<string, Image>, img: Image, listing: seq<Image>)
    requires img.name in objects && objects[img.name] == img
    requires forall i | 0 <= i < |listing| :: listing[i].name in objects && objects[listing[i].name] == listing[i]
                                              && SharesTarget(img, listing[i])
    requires forall i, j | 0 <= i < j < |listing| :: listing[i].name != listing[j].name
    ensures var chosen := RefsToDelete(img.name, Names(listing));
      && (forall k | 0 <= k < |chosen| :: chosen[k] in objects && objects[chosen[k]].target.digest == img.target.digest)
      && (forall j, k | 0 <= j < k < |chosen| :: chosen[j] != chosen[k])
  {
    var tags := Names(listing);
    var chosen := RefsToDelete(img.name, tags);
    forall k | 0 <= k < |chosen|
      ensures chosen[k] in objects && objects[chosen[k]].target.digest == img.target.digest
    {
      if k > 0 {
        assert chosen[k] in chosen[1..];
        var j :| 0 <= j < |tags| && tags[j] == chosen[k];
        assert listing[j].name == chosen[k];
      }
    }
    if |tags| != 1 && Text.HasPrefix(img.name, IdPrefix) {
      assert forall k | 1 <= k < |chosen| :: chosen[k] == tags[k - 1];
    }
  }

  /** `listing` is exactly the other names of `img`'s target in the store: every image it holds is
      stored and shares the target, every stored image sharing the target is in it, each once. */
  ghost predicate OthersOfTarget(objects: map<string, Image>, img: Image, listing: seq<Image>) {
    && (forall i | 0 <= i < |listing| :: listing[i].name in objects && objects[listing[i].name] == listing[i]
                                         && SharesTarget(img, listing[i]))
    && (forall k | k in objects && SharesTarget(img, objects[k]) :: objects[k] in listing)
    && (forall i, j | 0 <= i < j < |listing| :: listing[i].name != listing[j].name)
  }

  /** The names of the image `requested` that Remove deletes (remove.go:25-41): RefsToDelete of the
      requested name and the names of the other images of its target. `listing` is the List answer
      those names come from. */
  method ChooseRefs(images: Store<string, Image>, requested: string) returns (r: Result<seq<string>>, ghost listing: seq<Image>)
    requires ImageStore(images)
    ensures requested !in images.objects ==> r.Err?
    ensures r.Ok? ==> requested in images.objects && OthersOfTarget(images.objects, images.objects[requested], listing)
    ensures r.Ok? ==> r.value == RefsToDelete(requested, Names(listing))
    ensures r.Ok? ==> forall k | 0 <= k < |r.value| :: (r.value[k] in images.objects
      && images.objects[r.value[k]].target.digest == images.objects[requested].target.digest)
    ensures r.Ok? ==> forall j, k | 0 <= j < k < |r.value| :: r.value[j] != r.value[k]
  {
    listing := [];
    var img := images.Get(requested);
    if img.Err? {
      return Err(img.error), listing;
    }
    var others := images.List(other => SharesTarget(img.value, other));
    if others.Err? {
      return Err(others.error), listing;
    }
    listing := others.value;
    var chosen := RefsToDelete(img.value.name, Names(others.value));
    ChosenRefs(images.objects, img.value, others.value);
    return Ok(chosen), listing;
  }

  /** The deletion loop (remove.go:42-48): names are deleted in order up to the first failure.
      `deleted` is how many were deleted. */
  method DeleteAll(images: Store<string, Image>, refs: seq<string>) returns (err: Option<Error>, ghost deleted: nat)
    requires ImageStore(images)
    modifies images`objects
    ensures ImageStore(images)
    ensures deleted <= |refs|
    ensures images.objects == Without(old(images.objects), set k | 0 <= k < deleted :: refs[k])
    ensures err.None? <==> deleted == |refs|
  {
    var i := 0;
    while i < |refs|
      invariant i <= |refs|
      invariant ImageStore(images)
      invariant images.objects == Without(old(images.objects), set k | 0 <= k < i :: refs[k])
    {
      var e := images.Delete(refs[i]);
      if e.Some? {
        return e, i;
      }
      assert (set k | 0 <= k < i + 1 :: refs[k]) == (set k | 0 <= k < i :: refs[k]) + {refs[i]};
      i := i + 1;
    }
    return None, i;
  }

  /** Remove (remove.go:15-50). `lease` is the outcome of taking the lease. `refs` are the names chosen
      for deletion and `deleted` how many of them were deleted before the loop ended. */
  method Remove(images: Store<string, Image>, req: Option<ImageSpec>, lease: Option<Error>)
    returns (err: Option<Error>, ghost refs: seq<string>, ghost deleted: nat, ghost listing: seq<Image>)
    requires ImageStore(images)
    modifies images`objects
    ensures ImageStore(images)
    ensures lease.Some? ==> err == lease && images.objects == old(images.objects)
    ensures lease.None? && req.None? ==> err.None? && images.objects == old(images.objects)
    ensures req.Some? && req.value.image !in old(images.objects) ==> err.Some? && images.objects == old(images.objects)
    // The deletions are a prefix of the chosen names, the requested one first.
    ensures deleted <= |refs|
    ensures images.objects == Without(old(images.objects), set k | 0 <= k < deleted :: refs[k])
    ensures refs != [] ==> req.Some? && refs[0] == req.value.image
    ensures err.None? ==> deleted == |refs|
    ensures err.None? && req.Some? && lease.None? ==> refs != []
    // Every chosen name is an image with the requested image's target, each chosen once.
    ensures refs != [] ==> refs[0] in old(images.objects) && forall k | 0 <= k < |refs| :: (refs[k] in old(images.objects)
      && old(images.objects)[refs[k]].target.digest == old(images.objects)[refs[0]].target.digest)
    ensures forall j, k | 0 <= j < k < |refs| :: refs[j] != refs[k]
    // They are the names RefsToDelete picks from the other images of the requested image's target.
    ensures refs != [] ==>
      OthersOfTarget(old(images.objects), old(images.objects)[refs[0]], listing) && refs == RefsToDelete(refs[0], Names(listing))
  {
    refs, deleted, listing := [], 0, [];
    if lease.Some? {
      return lease, refs, deleted, listing;
    }
    if req.None? {
      return None, refs, deleted, listing;
    }
    var chosen;
    chosen, listing := ChooseRefs(images, req.value.image);
    if chosen.Err? {
      return Some(chosen.error), refs, deleted, listing;
    }
    refs := chosen.value;
    err, deleted := DeleteAll(images, chosen.value);
  }
}
