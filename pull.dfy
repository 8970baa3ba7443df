/** The agent's pull handlers (pkg/server/images/pull.go): the choice of backend and platform, and the
    progress stream that reports content statuses until the image appears. */
module ImagePull {
  import opened Outcomes
  import opened ImagesApi

  const PullBackendKey: string := "images.cattle.io/pull-backend"
  const PullPlatformKey: string := "images.cattle.io/pull-platform"

  /** How an image is pulled: through the CRI image service, or by containerd directly for a platform. */
  datatype PullAttempt = ViaCri(spec: ImageSpec) | ViaContainerd(image: string, platform: string)

  /** Go's lookup of a possibly nil map: a missing key reads as "". */
  function Annotation(spec: ImageSpec, key: string): string {
    if spec.annotations.Some? && key in spec.annotations.value then spec.annotations.value[key] else ""
  }

  /** pullCTD's platform (pull.go:38-41): the default platform without annotations; with annotations the
      pull-platform annotation, which may be empty. */
  function PullPlatform(spec: ImageSpec, defaultPlatform: string): (p: string)
    ensures spec.annotations.None? ==> p == defaultPlatform
    ensures spec.annotations.Some? && PullPlatformKey in spec.annotations.value ==> p == spec.annotations.value[PullPlatformKey]
    ensures spec.annotations.Some? && PullPlatformKey !in spec.annotations.value ==> p == ""
  {
    if spec.annotations.None? then defaultPlatform else Annotation(spec, PullPlatformKey)
  }

  /** Pull's choice (pull.go:21-25): CRI exactly when the annotations exist and ask for it. */
  function ChooseAttempt(spec: ImageSpec, defaultPlatform: string): (a: PullAttempt)
    ensures a.ViaCri? <==> spec.annotations.Some? && PullBackendKey in spec.annotations.value
                           && spec.annotations.value[PullBackendKey] == "cri"
    ensures a.ViaCri? ==> a.spec == spec
    ensures a.ViaContainerd? ==> a.image == spec.image && a.platform == PullPlatform(spec, defaultPlatform)
  {
    if spec.annotations.Some? && Annotation(spec, PullBackendKey) == "cri" then ViaCri(spec)
    else ViaContainerd(spec.image, PullPlatform(spec, defaultPlatform))
  }

  /** Pull (pull.go:18-32). `request` is the request's image, None when it carries none; `backend` is the
      outcome of the chosen pull. A success echoes the requested image; a failure yields no response. */
  function Pull(request: Option<ImageSpec>, defaultPlatform: string, backend: PullAttempt -> Option<Error>): (r: Result<string>)
    ensures request.None? ==> r == Err(Panic(NilDereference))
    ensures request.Some? ==> (r.Ok? <==> backend(ChooseAttempt(request.value, defaultPlatform)).None?)
    ensures r.Ok? ==> request.Some? && r.value == request.value.image
    ensures request.Some? && r.Err? ==> r.error == backend(ChooseAttempt(request.value, defaultPlatform)).value
  {
    if request.None? then Err(Panic(NilDereference))
    else
      var err := backend(ChooseAttempt(request.value, defaultPlatform));
      if err.Some? then Err(err.value) else Ok(request.value.image)
  }

  // ---- PullProgress (pull.go:63-113) ----

  /** A content store ingest status. */
  datatype ContentStatus = ContentStatus(ref: string, offset: int, total: int, startedAt: int, updatedAt: int)

  /** The classification of an ingest (pull.go:92-97). */
  function StatusName(offset: int, total: int): (s: string)
    ensures s == "unpacking" <==> offset == total
    ensures s == "downloading" <==> offset != total && offset > 0
    ensures s == "waiting" <==> offset != total && offset <= 0
  {
    if offset == total then "unpacking" else if offset > 0 then "downloading" else "waiting"
  }

  function Describe(c: ContentStatus): ImageStatus {
    ImageStatus(StatusName(c.offset, c.total), c.ref, c.offset, c.total, c.startedAt, c.updatedAt)
  }

  /** The response for one listing: one entry per ingest, in listing order. */
  method Report(listing: seq<ContentStatus>) returns (res: Batch)
    ensures |res| == |listing|
    ensures forall i | 0 <= i < |listing| :: res[i] == Describe(listing[i])
  {
    res := [];
    for i := 0 to |listing|
      invariant |res| == i
      invariant forall k | 0 <= k < i :: res[k] == Describe(listing[k])
    {
      res := res + [Describe(listing[i])];
    }
  }

  /** One turn of the progress loop's select: the context ends, or the timer fires and the image status,
      the ingest listing and the send have the given outcomes (`present` says the image was reported).
      The turns are finite; running out of them stands for the caller's cancellation. */
  datatype ProgressTurn = Cancelled(cause: Error)
                        | Polled(present: Result<bool>, listing: Result<seq<ContentStatus>>, send: Option<Error>)

  /** A turn after which the loop goes on: nothing failed, the image is not there yet, and the report
      was sent. */
  predicate Continues(t: ProgressTurn) {
    t.Polled? && t.present == Ok(false) && t.listing.Ok? && t.send.None?
  }

  /** The loop's result from turn `i` on. */
  function ProgressFrom(turns: seq<ProgressTurn>, i: nat): Option<Error>
    decreases |turns| - i
  {
    if i >= |turns| then Some(Canceled)
    else match turns[i]
      case Cancelled(e) => Some(e)
      case Polled(present, listing, send) =>
        if present.Err? then Some(present.error)
        else if present.value then None
        else if listing.Err? then Some(listing.error)
        else if send.Some? then Some(send.value)
        else ProgressFrom(turns, i + 1)
  }

  /** The number of turns that end with a report sent, from turn `i` on. */
  function ContinuedFrom(turns: seq<ProgressTurn>, i: nat): (n: nat)
    ensures i + n <= |turns| || n == 0
    decreases |turns| - i
  {
    if i < |turns| && Continues(turns[i]) then 1 + ContinuedFrom(turns, i + 1) else 0
  }

  /** PullProgress succeeds exactly when the image is reported after turns that each sent a report. */
  lemma {:induction false} ProgressSucceeds(turns: seq<ProgressTurn>, i: nat)
    ensures ProgressFrom(turns, i).None? <==>
      exists j | i <= j < |turns| :: turns[j].Polled? && turns[j].present == Ok(true) && forall m | i <= m < j :: Continues(turns[m])
    decreases |turns| - i
  {
    if i < |turns| {
      ProgressSucceeds(turns, i + 1);
      if ProgressFrom(turns, i).None? && !(turns[i].Polled? && turns[i].present == Ok(true)) {
        var j :| i + 1 <= j < |turns| && turns[j].Polled? && turns[j].present == Ok(true) && forall m | i + 1 <= m < j :: Continues(turns[m]);
        assert forall m | i <= m < j :: Continues(turns[m]);
      }
      if exists j | i <= j < |turns| :: turns[j].Polled? && turns[j].present == Ok(true) && forall m | i <= m < j :: Continues(turns[m]) {
        var j :| i <= j < |turns| && turns[j].Polled? && turns[j].present == Ok(true) && forall m | i <= m < j :: Continues(turns[m]);
        if j > i {
          assert Continues(turns[i]);
        }
      }
    }
  }

  /** PullProgress (pull.go:63-113). `sent` are the responses delivered, one per turn that continued. */
  method PullProgress(turns: seq<ProgressTurn>) returns (err: Option<Error>, sent: seq<Batch>)
    ensures err == ProgressFrom(turns, 0)
    ensures |sent| == ContinuedFrom(turns, 0)
    ensures forall k | 0 <= k < |sent| ::
      Continues(turns[k]) && |sent[k]| == |turns[k].listing.value|
      && forall e | 0 <= e < |sent[k]| :: sent[k][e] == Describe(turns[k].listing.value[e])
  {
    sent := [];
    var i := 0;
    while true
      invariant i == |sent| && i <= |turns|
      invariant ProgressFrom(turns, i) == ProgressFrom(turns, 0)
      invariant ContinuedFrom(turns, 0) == i + ContinuedFrom(turns, i)
      invariant forall k | 0 <= k < i :: Continues(turns[k])
      invariant forall k | 0 <= k < |sent| ::
        |sent[k]| == |turns[k].listing.value| && forall e | 0 <= e < |sent[k]| :: sent[k][e] == Describe(turns[k].listing.value[e])
      decreases |turns| - i
    {
      if i == |turns| {
        return Some(Canceled), sent;
      }
      var turn := turns[i];
      if turn.Cancelled? {
        return Some(turn.cause), sent;
      }
      if turn.present.Err? {
        return Some(turn.present.error), sent;
      }
      if turn.present.value {
        return None, sent;
      }
      if turn.listing.Err? {
        return Some(turn.listing.error), sent;
      }
      var res := Report(turn.listing.value);
      if turn.send.Some? {
        return Some(turn.send.value), sent;
      }
      sent := sent + [res];
      i := i + 1;
    }
  }
}
