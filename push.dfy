/** The agent's push handlers (pkg/server/images/push.go): Push registers a progress tracker under the
    image's name before the transfer starts, and PushProgress relays the tracker's statuses to the
    caller, waiting a short grace period for a tracker to appear. */
module ImagePush {
  import opened Outcomes
  import opened Stores
  import opened Containerd
  import opened ImagesApi

  /** A progress tracker; what it reports is the `feed` handed to PushProgress. */
  datatype Tracker = Tracker(id: nat)

  /** Forwarding a tracker's feed: every batch in order, stopping at the first failed send. `send(k)`
      is the outcome of the k-th send. */
  method Relay(feed: seq<Batch>, send: nat -> Option<Error>) returns (err: Option<Error>, sent: seq<Batch>)
    ensures |sent| <= |feed| && sent == feed[..|sent|]
    ensures forall k | 0 <= k < |sent| :: send(k).None?
    ensures err.None? ==> sent == feed
    ensures err.Some? ==> |sent| < |feed| && err == send(|sent|)
  {
    sent := [];
    for k := 0 to |feed|
      invariant sent == feed[..k]
      invariant forall m | 0 <= m < k :: send(m).None?
    {
      var e := send(k);
      if e.Some? {
        return e, sent;
      }
      sent := sent + [feed[k]];
    }
    return None, sent;
  }

  /** One turn of PushProgress's select while no tracker is registered: the context ends, or the
      100 ms timer fires, by which time a concurrent Push may have registered a tracker for the image.
      The turns are finite; running out of them is the 15-second timeout. */
  datatype WaitTurn = Cancelled(cause: Error) | Elapsed(registered: Option<Tracker>)

  /** How the wait for a tracker ends. */
  datatype WaitEnd = Registered(tracker: Tracker) | TimedOut | Aborted(cause: Error)

  /** The wait for a tracker from turn `i` on: the first registration or cancellation decides it, and
      with neither the turns run out. */
  function WaitForTracker(turns: seq<WaitTurn>, i: nat): (r: WaitEnd)
    ensures r.Registered? ==> exists m | i <= m < |turns| ::
      (turns[m] == Elapsed(Some(r.tracker)) && forall j | i <= j < m :: turns[j] == Elapsed(None))
    ensures r.Aborted? ==> exists m | i <= m < |turns| ::
      (turns[m] == Cancelled(r.cause) && forall j | i <= j < m :: turns[j] == Elapsed(None))
    ensures r.TimedOut? <==> forall m | i <= m < |turns| :: turns[m] == Elapsed(None)
    decreases |turns| - i
  {
    if i >= |turns| then TimedOut
    else match turns[i]
      case Cancelled(e) => Aborted(e)
      case Elapsed(registered) => if registered.Some? then Registered(registered.value) else WaitForTracker(turns, i + 1)
  }

  /** The agent's images server: the containerd image store of "k8s.io" and the push-job registry. */
  class PushServer {
    const images: Store<string, Image>
    var pushJobs: map<string, Tracker>

    constructor (images: Store<string, Image>)
      ensures this.images == images && pushJobs == map[]
    {
      this.images := images;
      pushJobs := map[];
    }

    /** Push (push.go:22-47). `request` is the name of the request's image, None when the request
        carries no image; `tracker` is the new tracker and `transfer` the outcome of the transfer.
        `found` says the image lookup succeeded. */
    method Push(request: Option<string>, tracker: Tracker, transfer: Option<Error>) returns (r: Result<string>, ghost found: bool)
      requires ImageStore(images)
      modifies this`pushJobs
      ensures !found ==> r.Err? && pushJobs == old(pushJobs)
      ensures request.None? ==> r == Err(Panic(NilDereference))
      ensures request.Some? && request.value !in images.objects ==> !found
      // The tracker is stored, replacing any other, before the transfer, whatever its outcome.
      ensures found ==> (request.Some? && request.value in images.objects
        && pushJobs == old(pushJobs)[images.objects[request.value].name := tracker])
      ensures found && transfer.Some? ==> r == Err(transfer.value)
      ensures r.Ok? ==> found && transfer.None? && r.value == images.objects[request.value].name
    {
      if request.None? {
        return Err(Panic(NilDereference)), false;
      }
      var img := images.Get(request.value);
      if img.Err? {
        return Err(img.error), false;
      }
      found := true;
      pushJobs := pushJobs[img.value.name := tracker];
      if transfer.Some? {
        return Err(transfer.value), found;
      }
      return Ok(img.value.name), found;
    }

    /** PushProgress (push.go:50-76). `feed` is what each tracker reports and `send` the outcome of each
        send; `relayed` is the tracker whose feed was forwarded. */
    method PushProgress(name: string, turns: seq<WaitTurn>, feed: Tracker -> seq<Batch>, send: nat -> Option<Error>)
      returns (err: Option<Error>, sent: seq<Batch>, ghost relayed: Option<Tracker>)
      modifies this`pushJobs
      // The deferred Delete runs on every path.
      ensures pushJobs == old(pushJobs) - {name}
      ensures relayed == if name in old(pushJobs) then Some(old(pushJobs)[name])
                         else if WaitForTracker(turns, 0).Registered? then Some(WaitForTracker(turns, 0).tracker)
                         else None
      ensures relayed.None? && WaitForTracker(turns, 0).TimedOut? ==> err.None? && sent == []
      ensures relayed.None? && WaitForTracker(turns, 0).Aborted? ==> err == Some(WaitForTracker(turns, 0).cause) && sent == []
      ensures relayed.Some? ==> |sent| <= |feed(relayed.value)| && sent == feed(relayed.value)[..|sent|] && (forall k | 0 <= k < |sent| :: send(k).None?)
      ensures relayed.Some? && err.None? ==> sent == feed(relayed.value)
      ensures relayed.Some? && err.Some? ==> |sent| < |feed(relayed.value)| && err == send(|sent|)
    {
      var i := 0;
      while true
        invariant i <= |turns|
        invariant name in old(pushJobs) ==> name in pushJobs && pushJobs[name] == old(pushJobs)[name]
        invariant name in pushJobs && name !in old(pushJobs) ==> WaitForTracker(turns, 0) == Registered(pushJobs[name])
        invariant name !in pushJobs ==> name !in old(pushJobs) && WaitForTracker(turns, i) == WaitForTracker(turns, 0)
        invariant pushJobs - {name} == old(pushJobs) - {name}
        decreases |turns| - i, if name in pushJobs then 0 else 1
      {
        if name in pushJobs {
          var tracker := pushJobs[name];
          err, sent := Relay(feed(tracker), send);
          pushJobs := pushJobs - {name};
          return err, sent, Some(tracker);
        }
        if i == |turns| {
          pushJobs := pushJobs - {name};
          return None, [], None;
        }
        if turns[i].Cancelled? {
          pushJobs := pushJobs - {name};
          return Some(turns[i].cause), [], None;
        }
        if turns[i].registered.Some? {
          // A concurrent Push stored its tracker while this call waited.
          pushJobs := pushJobs[name := turns[i].registered.value];
        }
        i := i + 1;
      }
    }
  }
}
