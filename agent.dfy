/** The agent's content synchronisation engine and its listener set-up (pkg/server/agent_linux.go).

    Image events from the build executor's namespace trigger a copy of the image's whole descriptor
    graph into the servable namespace "k8s.io", after which the image record itself is upserted there.
    Each blob is copied only once the source reports it available. */
module ContentSync {
  import opened Outcomes
  import opened Stores
  import opened Containerd

  const UnmarshalMessage: string := "failed to unmarshal any"
  const AppendCaMessage: string := "failed to append ca certificate"

  // ---- availability wait (agent_linux.go:191-218) ----

  /** What images.Check reports for a descriptor: whether all its content is present, and which
      descriptors are missing. */
  datatype CheckReport = CheckReport(available: bool, missing: seq<Descriptor>)

  /** One turn of the wait's select: the context ends first, with its error, or the 100 ms timer fires
      and Info is looked up for the descriptor's digest, with the given outcome. A wait sees a finite
      sequence of turns; when they run out, the 3-minute deadline of its context has passed. */
  datatype Tick = Cancelled(cause: Error) | Elapsed(lookup: Result<Blob>)

  /** One pass of the labelled `next` loop from turn `i`: the turn after the first successful lookup,
      or the error that ends the wait. */
  function PollRound(ticks: seq<Tick>, i: nat): Result<nat>
    decreases |ticks| - i
  {
    if i >= |ticks| then Err(DeadlineExceeded)
    else match ticks[i]
      case Cancelled(e) => Err(e)
      case Elapsed(lookup) =>
        if lookup.Ok? then Ok(i + 1)
        else if lookup.error == NotFound then PollRound(ticks, i + 1)
        else Err(lookup.error)
  }

  /** A round ends at turn `j` when the lookup before it succeeded and every lookup between reported
      NotFound. */
  ghost predicate FoundAt(ticks: seq<Tick>, i: nat, j: nat) {
    && i < j <= |ticks| && ticks[j - 1].Elapsed? && ticks[j - 1].lookup.Ok?
    && forall m | i <= m < j - 1 :: ticks[m] == Elapsed(Err(NotFound))
  }

  lemma {:induction false} PollRoundFound(ticks: seq<Tick>, i: nat, j: nat)
    ensures PollRound(ticks, i) == Ok(j) <==> FoundAt(ticks, i, j)
    decreases |ticks| - i
  {
    if i < |ticks| {
      PollRoundFound(ticks, i + 1, j);
      if FoundAt(ticks, i, j) && j > i + 1 {
        assert ticks[i] == Elapsed(Err(NotFound));
        assert FoundAt(ticks, i + 1, j);
      }
      if PollRound(ticks, i) == Ok(j) && j > i + 1 {
        assert ticks[i] == Elapsed(Err(NotFound));
        assert FoundAt(ticks, i + 1, j);
      }
    }
  }

  /** A wait that only ever hears NotFound runs into the deadline. */
  lemma {:induction false} PollRoundTimesOut(ticks: seq<Tick>, i: nat)
    requires forall m | i <= m < |ticks| :: ticks[m] == Elapsed(Err(NotFound))
    ensures PollRound(ticks, i) == Err(DeadlineExceeded)
    decreases |ticks| - i
  {
    if i < |ticks| {
      PollRoundTimesOut(ticks, i + 1);
    }
  }

  /** After NotFound lookups only, a cancellation ends the round with the context's error and any
      other failed lookup with its own error. */
  lemma {:induction false} PollRoundAborts(ticks: seq<Tick>, i: nat, m: nat)
    requires i <= m < |ticks| && forall k | i <= k < m :: ticks[k] == Elapsed(Err(NotFound))
    ensures ticks[m].Cancelled? ==> PollRound(ticks, i) == Err(ticks[m].cause)
    ensures ticks[m].Elapsed? && ticks[m].lookup.Err? && ticks[m].lookup.error != NotFound ==>
      PollRound(ticks, i) == Err(ticks[m].lookup.error)
    decreases m - i
  {
    if i < m {
      PollRoundAborts(ticks, i + 1, m);
    }
  }

  /** `rounds` consecutive rounds, one per missing descriptor. */
  function PollRounds(ticks: seq<Tick>, i: nat, rounds: nat): Result<nat>
    decreases rounds
  {
    if rounds == 0 then Ok(i)
    else match PollRound(ticks, i)
      case Err(e) => Err(e)
      case Ok(j) => PollRounds(ticks, j, rounds - 1)
  }

  /** Each round takes at least one turn, so finishing the rounds takes at least as many turns as
      descriptors were missing, all within the context's deadline. */
  lemma {:induction false} PollRoundsLength(ticks: seq<Tick>, i: nat, rounds: nat)
    requires i <= |ticks|
    ensures PollRounds(ticks, i, rounds).Ok? ==> i + rounds <= PollRounds(ticks, i, rounds).value <= |ticks|
    decreases rounds
  {
    if rounds > 0 && PollRound(ticks, i).Ok? {
      var j := PollRound(ticks, i).value;
      PollRoundFound(ticks, i, j);
      PollRoundsLength(ticks, j, rounds - 1);
    }
  }

  /** The turns the wait takes before its final Info, or the error it returns. Content reported
      available, or nothing reported missing, takes no turn at all. */
  function WaitTicks(check: Result<CheckReport>, ticks: seq<Tick>): (r: Result<nat>)
    ensures check.Err? ==> r == Err(check.error)
    ensures check.Ok? && (check.value.available || |check.value.missing| == 0) ==> r == Ok(0)
    ensures check.Ok? && !check.value.available && |check.value.missing| > 0 ==> r == PollRounds(ticks, 0, |check.value.missing|)
  {
    match check
    case Err(e) => Err(e)
    case Ok(report) =>
      if !report.available && |report.missing| > 0 then PollRounds(ticks, 0, |report.missing|) else Ok(0)
  }

  /** Every round looks up the descriptor's own digest, not the missing entry's: the wait depends on
      how many entries are missing, never on which. */
  lemma WaitIgnoresMissingDigests(available: bool, missing1: seq<Descriptor>, missing2: seq<Descriptor>, ticks: seq<Tick>)
    requires |missing1| == |missing2|
    ensures WaitTicks(Ok(CheckReport(available, missing1)), ticks) == WaitTicks(Ok(CheckReport(available, missing2)), ticks)
  {
  }

  /** The labelled `next` loop: turns are taken until a lookup succeeds. */
  method AwaitLookup(ticks: seq<Tick>, start: nat) returns (r: Result<nat>)
    ensures r == PollRound(ticks, start)
  {
    var i := start;
    while true
      invariant start <= i
      invariant PollRound(ticks, i) == PollRound(ticks, start)
      decreases |ticks| - i
    {
      if i >= |ticks| {
        return Err(DeadlineExceeded);
      }
      if ticks[i].Cancelled? {
        return Err(ticks[i].cause);
      }
      var lookup := ticks[i].lookup;
      if lookup.Ok? {
        return Ok(i + 1);
      }
      if lookup.error != NotFound {
        return Err(lookup.error);
      }
      i := i + 1;
    }
  }

  /** waitImageContentInfo (agent_linux.go:191-218): the info returned is the source's final Info for
      the descriptor's digest. */
  method WaitContentInfo(src: Store<string, Blob>, desc: Descriptor, check: Result<CheckReport>, ticks: seq<Tick>)
    returns (r: Result<Blob>)
    requires ContentStore(src)
    ensures WaitTicks(check, ticks).Err? ==> r == Err(WaitTicks(check, ticks).error)
    ensures r.Ok? ==> WaitTicks(check, ticks).Ok? && desc.digest in src.objects && r.value == src.objects[desc.digest]
    ensures desc.digest !in src.objects ==> r.Err?
  {
    if check.Err? {
      return Err(check.error);
    }
    var report := check.value;
    if !report.available && |report.missing| > 0 {
      var i: nat := 0;
      var m := 0;
      while m < |report.missing|
        invariant 0 <= m <= |report.missing|
        invariant PollRounds(ticks, i, |report.missing| - m) == WaitTicks(check, ticks)
      {
        var next := AwaitLookup(ticks, i);
        if next.Err? {
          return Err(next.error);
        }
        i := next.value;
        m := m + 1;
      }
    }
    r := src.Get(desc.digest);
  }

  // ---- the copy handler (agent_linux.go:156-187) ----

  /** The options the destination writer is opened with. */
  datatype WriterOpts = WriterOpts(ref: string, descriptor: Option<Descriptor>)

  /** The full descriptor is supplied only when the destination's Info reports NotFound; any other
      outcome of that lookup leaves it out. */
  function WriterOptions(ref: string, desc: Descriptor, existing: Result<Blob>): (w: WriterOpts)
    ensures w.ref == ref
    ensures w.descriptor.Some? <==> existing == Err(NotFound)
    ensures w.descriptor.Some? ==> w.descriptor.value == desc
  {
    WriterOpts(ref, if existing == Err(NotFound) then Some(desc) else None)
  }

  /** The environment of a walk: what images.Check reports for each descriptor and the turns its wait
      sees. */
  datatype SyncEnv = SyncEnv(check: Descriptor -> Result<CheckReport>, ticks: Descriptor -> seq<Tick>)

  /** The destination only grows, and every blob it gains is the source's blob with that digest,
      labels included. */
  ghost predicate Mirrors(src: map<string, Blob>, before: map<string, Blob>, after: map<string, Blob>) {
    && before.Keys <= after.Keys
    && (forall k | k in before :: after[k] == before[k])
    && (forall k | k in after && k !in before :: k in src && after[k] == src[k])
  }

  /** copyImageContentHandler. `reached` says the source side (wait and reader) succeeded and the
      destination was looked up, with outcome `existing`, and written with options `opts`. */
  method CopyHandler(src: Store<string, Blob>, dst: Store<string, Blob>, img: Image, desc: Descriptor, env: SyncEnv)
    returns (err: Option<Error>, ghost reached: bool, ghost existing: Result<Blob>, ghost opts: WriterOpts)
    requires ContentStore(src) && ContentStore(dst) && src != dst
    modifies dst`objects
    ensures ContentStore(dst)
    ensures Mirrors(src.objects, old(dst.objects), dst.objects)
    ensures dst.objects.Keys <= old(dst.objects).Keys + {desc.digest}
    ensures err.None? ==> reached && desc.digest in dst.objects
    ensures !reached ==> err.Some? && dst.objects == old(dst.objects)
    ensures WaitTicks(env.check(desc), env.ticks(desc)).Err? ==>
      !reached && err == Some(WaitTicks(env.check(desc), env.ticks(desc)).error)
    ensures reached ==> desc.digest in src.objects && opts == WriterOptions(img.name, desc, existing)
    ensures reached && existing.Ok? ==> desc.digest in old(dst.objects)
    ensures reached && existing == Err(NotFound) ==> desc.digest !in old(dst.objects)
    // A copy that finds the blob already there is a success.
    ensures reached && desc.digest in old(dst.objects) ==> err.None?
  {
    reached, existing, opts := false, Err(NotFound), WriterOpts(img.name, None);
    var info := WaitContentInfo(src, desc, env.check(desc), env.ticks(desc));
    if info.Err? {
      return Some(info.error), reached, existing, opts;
    }
    var ra := src.Get(desc.digest);
    if ra.Err? {
      return Some(ra.error), reached, existing, opts;
    }
    var lookup := dst.Get(desc.digest);
    reached, existing, opts := true, lookup, WriterOptions(img.name, desc, lookup);
    err := dst.Create(ra.value.(labels := info.value.labels));
    if err == Some(AlreadyExists) {
      err := None;
    }
  }

  // ---- the walk (agent_linux.go:149-152) ----

  /** images.ChildrenHandler: a manifest or an index is read from the source to find its children;
      any other blob has none and is not read. */
  method ChildrenOf(src: Store<string, Blob>, desc: Descriptor) returns (r: Result<seq<Descriptor>>)
    requires ContentStore(src)
    ensures !IsParent(desc.mediaType) ==> r == Ok([])
    ensures IsParent(desc.mediaType) && r.Ok? ==> desc.digest in src.objects && r.value == src.objects[desc.digest].children
    ensures IsParent(desc.mediaType) && desc.digest !in src.objects ==> r.Err?
  {
    if !IsParent(desc.mediaType) {
      return Ok([]);
    }
    var blob := src.Get(desc.digest);
    if blob.Err? {
      return Err(blob.error);
    }
    return Ok(blob.value.children);
  }

  /** A descriptor has been copied with everything it references: its blob is in the destination and,
      for a manifest or an index, so is every child, recursively. */
  ghost predicate Copied(src: map<string, Blob>, dst: map<string, Blob>, rank: string -> nat, d: Descriptor)
    decreases rank(d.digest)
  {
    && d.digest in dst
    && (IsParent(d.mediaType) ==>
          d.digest in src
          && forall c | c in src[d.digest].children :: rank(c.digest) < rank(d.digest) && Copied(src, dst, rank, c))
  }

  lemma {:induction false} CopiedGrows(src: map<string, Blob>, dst1: map<string, Blob>, dst2: map<string, Blob>,
                                      rank: string -> nat, d: Descriptor)
    requires Copied(src, dst1, rank, d) && dst1.Keys <= dst2.Keys
    ensures Copied(src, dst2, rank, d)
    decreases rank(d.digest)
  {
    if IsParent(d.mediaType) {
      forall c | c in src[d.digest].children
        ensures rank(c.digest) < rank(d.digest) && Copied(src, dst2, rank, c)
      {
        CopiedGrows(src, dst1, dst2, rank, c);
      }
    }
  }

  /** One turn of the walk keeps what earlier turns copied and adds the descriptor it handled. */
  lemma CopiedStep(src: map<string, Blob>, rank: string -> nat, start: map<string, Blob>, now: map<string, Blob>,
                   descs: seq<Descriptor>, i: nat, children: seq<Descriptor>)
    requires i < |descs| && start.Keys <= now.Keys && descs[i].digest in now
    requires forall k | 0 <= k < i :: Copied(src, start, rank, descs[k])
    requires IsParent(descs[i].mediaType) ==> descs[i].digest in src && children == src[descs[i].digest].children
    requires Acyclic(src, rank)
    requires forall c | c in children :: Copied(src, now, rank, c)
    ensures forall k | 0 <= k < i + 1 :: Copied(src, now, rank, descs[k])
  {
    forall k | 0 <= k < i
      ensures Copied(src, now, rank, descs[k])
    {
      CopiedGrows(src, start, now, rank, descs[k]);
    }
  }

  /** A chain of references in the source: each step goes from a manifest or an index to one of its
      children. */
  ghost predicate IsPath(src: map<string, Blob>, p: seq<Descriptor>) {
    |p| > 0 && forall k | 0 <= k < |p| - 1 :: IsParent(p[k].mediaType) && p[k].digest in src && p[k + 1] in src[p[k].digest].children
  }

  /** Everything reachable from a copied descriptor is in the destination. */
  lemma {:induction false} CopiedCoversPaths(src: map<string, Blob>, dst: map<string, Blob>, rank: string -> nat,
                                             p: seq<Descriptor>)
    requires IsPath(src, p) && Copied(src, dst, rank, p[0])
    ensures p[|p| - 1].digest in dst
    decreases |p|
  {
    if |p| > 1 {
      assert IsPath(src, p[1..]) by {
        forall k | 0 <= k < |p[1..]| - 1
          ensures IsParent(p[1..][k].mediaType) && p[1..][k].digest in src && p[1..][k + 1] in src[p[1..][k].digest].children
        {
          assert p[1..][k] == p[k + 1] && p[1..][k + 1] == p[k + 2];
        }
      }
      assert p[1] in src[p[0].digest].children;
      CopiedCoversPaths(src, dst, rank, p[1..]);
    }
  }

  /** images.Walk with images.Handlers(ChildrenHandler, copy handler): for each descriptor in order,
      its children are found, it is copied, and then its children are walked; the first error ends
      the walk. */
  method Walk(src: Store<string, Blob>, dst: Store<string, Blob>, img: Image, descs: seq<Descriptor>, env: SyncEnv,
              ghost rank: string -> nat, ghost bound: nat)
    returns (err: Option<Error>)
    requires ContentStore(src) && ContentStore(dst) && src != dst && Acyclic(src.objects, rank)
    requires forall d | d in descs :: rank(d.digest) < bound
    modifies dst`objects
    ensures ContentStore(dst)
    ensures Mirrors(src.objects, old(dst.objects), dst.objects)
    ensures err.None? ==> forall d | d in descs :: Copied(src.objects, dst.objects, rank, d)
    decreases bound
  {
    var i := 0;
    while i < |descs|
      invariant 0 <= i <= |descs|
      invariant ContentStore(dst)
      invariant Mirrors(src.objects, old(dst.objects), dst.objects)
      invariant forall k | 0 <= k < i :: Copied(src.objects, dst.objects, rank, descs[k])
    {
      var desc := descs[i];
      ghost var start := dst.objects;
      var children := ChildrenOf(src, desc);
      if children.Err? {
        return Some(children.error);
      }
      var e, _, _, _ := CopyHandler(src, dst, img, desc, env);
      if e.Some? {
        return e;
      }
      if |children.value| > 0 {
        e := Walk(src, dst, img, children.value, env, rank, rank(desc.digest));
        if e.Some? {
          return e;
        }
      }
      CopiedStep(src.objects, rank, start, dst.objects, descs, i, children.value);
      i := i + 1;
    }
    return None;
  }

  // ---- the upsert and the image copy (agent_linux.go:109-154) ----

  /** The function handed to copyImageContent for both event kinds: Create, and Update only when
      Create reports AlreadyExists. `created` is what Create returned. */
  method Upsert(images: Store<string, Image>, img: Image) returns (err: Option<Error>, ghost created: Option<Error>)
    requires ImageStore(images)
    modifies images`objects
    ensures ImageStore(images)
    ensures err.None? ==> images.objects == old(images.objects)[img.name := img]
    ensures err.Some? ==> images.objects == old(images.objects)
    ensures created != Some(AlreadyExists) ==> err == created
    ensures img.name in old(images.objects) <==> created == Some(AlreadyExists)
  {
    err := images.Create(img);
    created := err;
    if err == Some(AlreadyExists) {
      err := images.Update(img);
    }
  }

  /** The outcome of syncing one image: content mirrored, and the record copied only after its whole
      graph is in the destination. */
  ghost predicate ImageSynced(srcContent: map<string, Blob>, srcImages: map<string, Image>, rank: string -> nat,
                              contentBefore: map<string, Blob>, contentAfter: map<string, Blob>,
                              imagesBefore: map<string, Image>, imagesAfter: map<string, Image>,
                              name: string, err: Option<Error>) {
    && Mirrors(srcContent, contentBefore, contentAfter)
    && (err.Some? ==> imagesAfter == imagesBefore)
    && (err.None? ==> name in srcImages && imagesAfter == imagesBefore[name := srcImages[name]]
                      && Copied(srcContent, contentAfter, rank, srcImages[name].target))
    && (name !in srcImages ==> err.Some? && contentAfter == contentBefore)
  }

  /** copyImageContent (agent_linux.go:139-154). `got` is the source lookup and `walked` the walk's
      outcome. */
  method CopyImageContent(c: Client, name: string, env: SyncEnv)
    returns (err: Option<Error>, ghost got: Result<Image>, ghost walked: Option<Error>)
    requires c.Valid()
    modifies c.k8sContent`objects, c.k8sImages`objects
    ensures c.Valid()
    ensures ImageSynced(c.buildkitContent.objects, c.buildkitImages.objects, c.rank,
                        old(c.k8sContent.objects), c.k8sContent.objects,
                        old(c.k8sImages.objects), c.k8sImages.objects, name, err)
    // A failed source lookup writes nothing.
    ensures got.Err? ==> (err == Some(got.error)
      && c.k8sContent.objects == old(c.k8sContent.objects) && c.k8sImages.objects == old(c.k8sImages.objects))
    ensures got.Ok? ==> name in c.buildkitImages.objects && got.value == c.buildkitImages.objects[name]
    // The record is written only after the walk succeeded.
    ensures walked.Some? ==> err == walked && c.k8sImages.objects == old(c.k8sImages.objects)
    ensures err.None? ==> got.Ok? && walked.None?
  {
    walked := None;
    var found := c.buildkitImages.Get(name);
    got := found;
    if found.Err? {
      return Some(found.error), got, walked;
    }
    var img := found.value;
    var e := Walk(c.buildkitContent, c.k8sContent, img, [img.target], env, c.rank, c.rank(img.target.digest) + 1);
    walked := e;
    if e.Some? {
      return e, got, walked;
    }
    ghost var created;
    err, created := Upsert(c.k8sImages, img);
  }

  /** An event as typeurl.UnmarshalAny decodes it. */
  datatype EventPayload = ImageCreate(name: string) | ImageUpdate(name: string) | OtherEvent(topic: string)
                        | Undecodable(cause: Error)

  predicate SyncsImage(p: EventPayload) {
    p.ImageCreate? || p.ImageUpdate?
  }

  /** handleImageEvent (agent_linux.go:109-137): both image events sync the named image the same way;
      any other event succeeds without effect. */
  method HandleImageEvent(c: Client, evt: EventPayload, env: SyncEnv) returns (err: Option<Error>)
    requires c.Valid()
    modifies c.k8sContent`objects, c.k8sImages`objects
    ensures c.Valid()
    ensures evt.Undecodable? ==> err == Some(Wrapped(UnmarshalMessage, evt.cause))
    ensures !SyncsImage(evt) ==>
      c.k8sContent.objects == old(c.k8sContent.objects) && c.k8sImages.objects == old(c.k8sImages.objects)
    ensures evt.OtherEvent? ==> err.None?
    ensures SyncsImage(evt) ==>
      ImageSynced(c.buildkitContent.objects, c.buildkitImages.objects, c.rank,
                  old(c.k8sContent.objects), c.k8sContent.objects,
                  old(c.k8sImages.objects), c.k8sImages.objects, evt.name, err)
  {
    match evt
    case Undecodable(cause) =>
      return Some(Wrapped(UnmarshalMessage, cause));
    case ImageCreate(name) =>
      ghost var got, walked;
      err, got, walked := CopyImageContent(c, name, env);
    case ImageUpdate(name) =>
      ghost var got, walked;
      err, got, walked := CopyImageContent(c, name, env);
    case OtherEvent(_) =>
      return None;
  }

  // ---- the subscription loop (agent_linux.go:84-107) ----

  /** One turn of the subscription's select. */
  datatype Selection = Done | FeedError(error: Error) | ErrorsClosed | Arrived(namespace: string, event: EventPayload)
                     | EventsClosed

  /** Cancellation or a closed channel ends the loop; nothing else does. */
  predicate Stops(s: Selection) {
    s.Done? || s.ErrorsClosed? || s.EventsClosed?
  }

  /** The event a selection hands on: one that arrived from the namespace watched. */
  function Arrival(s: Selection, namespace: string): seq<EventPayload> {
    if s.Arrived? && s.namespace == namespace then [s.event] else []
  }

  /** The events the loop hands to handleImageEvent, in order: those from `namespace` that arrive
      before the loop stops. */
  function Delivered(feed: seq<Selection>, namespace: string): seq<EventPayload>
    decreases |feed|
  {
    if |feed| == 0 || Stops(feed[0]) then []
    else Arrival(feed[0], namespace) + Delivered(feed[1..], namespace)
  }

  /** Delivered, from a position of the feed on. */
  function DeliveredAt(feed: seq<Selection>, i: nat, namespace: string): seq<EventPayload>
    decreases |feed| - i
  {
    if i >= |feed| || Stops(feed[i]) then [] else Arrival(feed[i], namespace) + DeliveredAt(feed, i + 1, namespace)
  }

  lemma {:induction false} DeliveredAtSuffix(feed: seq<Selection>, i: nat, namespace: string)
    requires i <= |feed|
    ensures DeliveredAt(feed, i, namespace) == Delivered(feed[i..], namespace)
    decreases |feed| - i
  {
    if i < |feed| {
      DeliveredAtSuffix(feed, i + 1, namespace);
      assert feed[i..][1..] == feed[i + 1..];
    }
  }

  /** An event is handled exactly when it arrives from the build executor's namespace before the first
      cancellation or closed channel; errors from the feed or from a handler do not stop the loop. */
  lemma {:induction false} DeliveredExactly(feed: seq<Selection>, namespace: string, p: EventPayload)
    ensures p in Delivered(feed, namespace) <==>
      exists i | 0 <= i < |feed| :: feed[i] == Arrived(namespace, p) && forall j | 0 <= j < i :: !Stops(feed[j])
    decreases |feed|
  {
    if |feed| > 0 && !Stops(feed[0]) {
      DeliveredExactly(feed[1..], namespace, p);
      if p in Delivered(feed, namespace) && feed[0] != Arrived(namespace, p) {
        var i :| 0 <= i < |feed[1..]| && feed[1..][i] == Arrived(namespace, p) && forall j | 0 <= j < i :: !Stops(feed[1..][j]);
        assert feed[i + 1] == Arrived(namespace, p);
        assert forall j | 0 <= j < i + 1 :: !Stops(feed[j]) by {
          forall j | 0 <= j < i + 1 ensures !Stops(feed[j]) {
            if j > 0 { assert feed[j] == feed[1..][j - 1]; }
          }
        }
      }
      if exists i | 0 <= i < |feed| :: feed[i] == Arrived(namespace, p) && forall j | 0 <= j < i :: !Stops(feed[j]) {
        var i :| 0 <= i < |feed| && feed[i] == Arrived(namespace, p) && forall j | 0 <= j < i :: !Stops(feed[j]);
        if i > 0 {
          assert feed[1..][i - 1] == Arrived(namespace, p);
          assert forall j | 0 <= j < i - 1 :: !Stops(feed[1..][j]) by {
            forall j | 0 <= j < i - 1 ensures !Stops(feed[1..][j]) {
              assert feed[1..][j] == feed[j + 1];
            }
          }
        }
      }
    } else if |feed| > 0 {
      assert !exists i | 0 <= i < |feed| :: feed[i] == Arrived(namespace, p) && forall j | 0 <= j < i :: !Stops(feed[j]);
    }
  }

  /** The names of the images a sequence of events syncs. */
  ghost function SyncedNames(events: seq<EventPayload>): set<string> {
    set p | p in events && SyncsImage(p) :: p.name
  }

  /** The destination keeps its records, and every record it gains or changes is the source's record
      of one of the names. */
  ghost predicate RecordsFrom(src: map<string, Image>, before: map<string, Image>, after: map<string, Image>, names: set<string>) {
    && before.Keys <= after.Keys
    && forall k | k in after :: (k in before && after[k] == before[k]) || (k in names && k in src && after[k] == src[k])
  }

  lemma MirrorsTrans(src: map<string, Blob>, a: map<string, Blob>, b: map<string, Blob>, c: map<string, Blob>)
    requires Mirrors(src, a, b) && Mirrors(src, b, c)
    ensures Mirrors(src, a, c)
  {
  }

  /** Records copied from the source for a name of a larger set, or no change at all, keep RecordsFrom. */
  lemma RecordsGrow(src: map<string, Image>, base: map<string, Image>, mid: map<string, Image>, after: map<string, Image>,
                    names: set<string>, names': set<string>)
    requires RecordsFrom(src, base, mid, names) && names <= names'
    requires after == mid || exists n | n in names' && n in src :: after == mid[n := src[n]]
    ensures RecordsFrom(src, base, after, names')
  {
    if after != mid {
      var n :| n in names' && n in src && after == mid[n := src[n]];
      assert forall k | k in after && k != n :: k in mid && after[k] == mid[k];
    }
  }

  lemma RecordsTrans(src: map<string, Image>, a: map<string, Image>, b: map<string, Image>, c: map<string, Image>,
                     names: set<string>, names': set<string>)
    requires RecordsFrom(src, a, b, names) && RecordsFrom(src, b, c, names') && names <= names'
    ensures RecordsFrom(src, a, c, names')
  {
  }

  /** One selection of the loop that does not stop it: an event from the watched namespace is handled,
      its error logged; anything else is passed over. */
  method HandleSelection(c: Client, namespace: string, s: Selection, env: SyncEnv, ghost handled: seq<EventPayload>)
    returns (ghost after: seq<EventPayload>)
    requires c.Valid() && !Stops(s)
    modifies c.k8sContent`objects, c.k8sImages`objects
    ensures c.Valid()
    ensures after == handled + Arrival(s, namespace) && SyncedNames(handled) <= SyncedNames(after)
    ensures Mirrors(c.buildkitContent.objects, old(c.k8sContent.objects), c.k8sContent.objects)
    ensures RecordsFrom(c.buildkitImages.objects, old(c.k8sImages.objects), c.k8sImages.objects, SyncedNames(after))
  {
    after := handled + Arrival(s, namespace);
    assert SyncedNames(handled) <= SyncedNames(after);
    if s.Arrived? && s.namespace == namespace {
      var _ := HandleImageEvent(c, s.event, env);
      if SyncsImage(s.event) {
        assert s.event.name in SyncedNames(after);
      }
      RecordsGrow(c.buildkitImages.objects, old(c.k8sImages.objects), old(c.k8sImages.objects), c.k8sImages.objects,
                  {}, SyncedNames(after));
    }
  }

  /** syncImageContent (agent_linux.go:84-107). The feed is finite; running out of it stands for
      cancellation. `handled` are the events handed to handleImageEvent. */
  method SyncImageContent(c: Client, namespace: string, feed: seq<Selection>, env: SyncEnv)
    returns (ghost handled: seq<EventPayload>)
    requires c.Valid()
    modifies c.k8sContent`objects, c.k8sImages`objects
    ensures c.Valid()
    ensures handled == Delivered(feed, namespace)
    ensures Mirrors(c.buildkitContent.objects, old(c.k8sContent.objects), c.k8sContent.objects)
    // Every record the destination gains or changes is the source's record of an image a handled event
    // named.
    ensures RecordsFrom(c.buildkitImages.objects, old(c.k8sImages.objects), c.k8sImages.objects, SyncedNames(handled))
  {
    handled := [];
    ghost var src, srcImages := c.buildkitContent.objects, c.buildkitImages.objects;
    ghost var content0, images0 := c.k8sContent.objects, c.k8sImages.objects;
    ghost var all := Delivered(feed, namespace);
    DeliveredAtSuffix(feed, 0, namespace);
    assert feed[0..] == feed;
    var i := 0;
    // Cancellation or a closed channel ends the loop.
    while i < |feed| && !Stops(feed[i])
      invariant 0 <= i <= |feed|
      invariant c.Valid() && c.buildkitContent.objects == src && c.buildkitImages.objects == srcImages
      invariant all == handled + DeliveredAt(feed, i, namespace)
      invariant Mirrors(src, content0, c.k8sContent.objects)
      invariant RecordsFrom(srcImages, images0, c.k8sImages.objects, SyncedNames(handled))
    {
      var s := feed[i];
      ghost var content, images := c.k8sContent.objects, c.k8sImages.objects;
      ghost var before := handled;
      handled := HandleSelection(c, namespace, s, env, handled);
      assert c.buildkitContent.objects == src && c.buildkitImages.objects == srcImages;
      assert all == handled + DeliveredAt(feed, i + 1, namespace) by {
        assert before + (Arrival(s, namespace) + DeliveredAt(feed, i + 1, namespace))
            == (before + Arrival(s, namespace)) + DeliveredAt(feed, i + 1, namespace);
      }
      MirrorsTrans(src, content0, content, c.k8sContent.objects);
      RecordsTrans(srcImages, images0, images, c.k8sImages.objects,
                   SyncedNames(before), SyncedNames(handled));
      i := i + 1;
    }
  }

  // ---- the listener's transport security (agent_linux.go:47-82) ----

  datatype ClientAuth = NoClientCert | RequireAndVerifyClientCert

  /** The TLS settings of the gRPC server. */
  datatype TlsSettings = TlsSettings(certFile: string, keyFile: string, clientCaFile: Option<string>, clientAuth: ClientAuth)

  /** The transport listenAndServe sets up before serving: None for plaintext. `listen`, `loadKeyPair`
      and `readCa` are the outcomes of opening the socket, loading the key pair and reading the CA
      file; `caAppended` says whether the CA file held a certificate. */
  function ServerTransport(tlscert: string, tlskey: string, tlscacert: string, listen: Option<Error>,
                           loadKeyPair: Option<Error>, readCa: Option<Error>, caAppended: bool)
    : (r: Result<Option<TlsSettings>>)
    ensures listen.Some? ==> r == Err(listen.value)
    ensures listen.None? ==> (r == Ok(None) <==> tlscert == "" || tlskey == "" || tlscacert == "")
    ensures r.Ok? && r.value.Some? ==>
      r.value.value == TlsSettings(tlscert, tlskey, Some(tlscacert), RequireAndVerifyClientCert)
    ensures listen.None? && tlscert != "" && tlskey != "" && tlscacert != "" ==>
      r == (if loadKeyPair.Some? then Err(loadKeyPair.value)
            else if readCa.Some? then Err(readCa.value)
            else if !caAppended then Err(Message(AppendCaMessage))
            else Ok(Some(TlsSettings(tlscert, tlskey, Some(tlscacert), RequireAndVerifyClientCert))))
  {
    if listen.Some? then Err(listen.value)
    else if tlscert != "" && tlskey != "" && tlscacert != "" then
      if loadKeyPair.Some? then Err(loadKeyPair.value)
      else
        var settings := TlsSettings(tlscert, tlskey, None, NoClientCert);
        if readCa.Some? then Err(readCa.value)
        else if !caAppended then Err(Message(AppendCaMessage))
        else Ok(Some(settings.(clientCaFile := Some(tlscacert), clientAuth := RequireAndVerifyClientCert)))
    else Ok(None)
  }
}
