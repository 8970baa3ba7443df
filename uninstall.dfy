/** The builder uninstaller (pkg/client/system/builder/uninstall.go): a guarded delete of kim's namespace
    followed by a wait for the deletion, and the removal of the builder role label from every node. */
module BuilderUninstall {
  import opened Outcomes
  import opened Stores
  import opened Kube
  import BuilderInstall

  const NotManagedMessage: string := "namespace not managed by kim"

  /** The uninstall guard: the namespace carries managed-by=kim. A nil label map, a missing key (read as
      "") and any other value all fail it. */
  predicate IsManaged(ns: Namespace) {
    ManagedByKey in LabelsOf(ns.labels) && LabelsOf(ns.labels)[ManagedByKey] == ManagedByValue
  }

  /** A namespace the installer created passes the guard; one it found and labelled passes it unless it
      already carried another managed-by value. */
  lemma InstalledNamespaceIsManaged(ns: Namespace)
    ensures IsManaged(Kube.Namespace(ns.name, Some(ManagedLabels)))
    ensures IsManaged(ns.(labels := Some(BuilderInstall.EnsureManaged(ns.labels)))) <==>
      (ManagedByKey !in LabelsOf(ns.labels) || LabelsOf(ns.labels)[ManagedByKey] == ManagedByValue)
  {
  }

  /** What the wait loop can observe, one select at a time: the caller's context ending with its error,
      the informer reporting the delete, or a 5-second tick whose Get returned `lookup`. */
  datatype WaitEvent = ContextDone(ctxErr: Error) | Deleted | Tick(lookup: Result<Namespace>)

  /** An event that ends the wait: the context ending, a delete notification or a NotFound tick. */
  predicate EndsWait(e: WaitEvent) {
    e.ContextDone? || e == Deleted || e == Tick(Err(NotFound))
  }

  /** The outcome of the wait from event `i` on: the first context end, delete notification or NotFound
      tick decides it; ticks that still find the namespace (or fail otherwise) keep it polling. The wait
      is taken to have ended by event `deadline`. An error is the error of a context end. */
  function WaitOutcome(events: nat -> WaitEvent, i: nat, deadline: nat): (r: Option<Error>)
    requires i <= deadline && EndsWait(events(deadline))
    ensures r.Some? ==> exists j | i <= j <= deadline :: events(j) == ContextDone(r.value)
    decreases deadline - i
  {
    match events(i)
    case ContextDone(e) => Some(e)
    case Deleted => None
    case Tick(lookup) => if lookup == Err(NotFound) then None else WaitOutcome(events, i + 1, deadline)
  }

  /** The wait ends without error exactly when a delete notification or a NotFound tick comes before any
      context end; it returns the error of the first context end when that comes first. */
  lemma {:induction false} WaitOutcomeCases(events: nat -> WaitEvent, i: nat, deadline: nat)
    requires i <= deadline && EndsWait(events(deadline))
    ensures WaitOutcome(events, i, deadline).None? <==>
      exists j | i <= j <= deadline :: (events(j) == Deleted || events(j) == Tick(Err(NotFound)))
        && forall m | i <= m < j :: events(m).Tick? && events(m).lookup != Err(NotFound)
    ensures WaitOutcome(events, i, deadline).Some? ==>
      exists j | i <= j <= deadline :: events(j).ContextDone? && WaitOutcome(events, i, deadline) == Some(events(j).ctxErr)
        && forall m | i <= m < j :: events(m).Tick? && events(m).lookup != Err(NotFound)
    decreases deadline - i
  {
    if events(i).Tick? && events(i).lookup != Err(NotFound) {
      assert i < deadline;
      WaitOutcomeCases(events, i + 1, deadline);
      if WaitOutcome(events, i, deadline).None? {
        var j :| i + 1 <= j <= deadline && (events(j) == Deleted || events(j) == Tick(Err(NotFound)))
          && forall m | i + 1 <= m < j :: events(m).Tick? && events(m).lookup != Err(NotFound);
        assert forall m | i <= m < j :: events(m).Tick? && events(m).lookup != Err(NotFound);
      } else {
        var j :| i + 1 <= j <= deadline && events(j).ContextDone? && WaitOutcome(events, i, deadline) == Some(events(j).ctxErr)
          && forall m | i + 1 <= m < j :: events(m).Tick? && events(m).lookup != Err(NotFound);
        assert forall m | i <= m < j :: events(m).Tick? && events(m).lookup != Err(NotFound);
      }
    }
  }

  /** The label edit of removeNodeRole: only the builder role key goes; a nil label map stays nil. */
  function StripRole(n: Node): (r: Node)
    ensures r.name == n.name && r.containerRuntimeVersion == n.containerRuntimeVersion && r.addresses == n.addresses
    ensures n.labels.None? ==> r.labels.None?
    ensures n.labels.Some? ==> r.labels.Some? && BuilderRoleLabel !in r.labels.value
    ensures forall key | key != BuilderRoleLabel ::
      (key in LabelsOf(r.labels) <==> key in LabelsOf(n.labels))
      && (key in LabelsOf(r.labels) ==> LabelsOf(r.labels)[key] == LabelsOf(n.labels)[key])
  {
    if n.labels.None? then n else n.(labels := Some(n.labels.value - {BuilderRoleLabel}))
  }

  lemma StripRoleIdempotent(n: Node)
    ensures StripRole(StripRole(n)) == StripRole(n)
  {
    if n.labels.Some? {
      assert n.labels.value - {BuilderRoleLabel} - {BuilderRoleLabel} == n.labels.value - {BuilderRoleLabel};
    }
  }

  /** A node without the role label is left as it is. */
  lemma StripRoleWithoutRole(n: Node)
    requires BuilderRoleLabel !in LabelsOf(n.labels)
    ensures StripRole(n) == n
  {
    if n.labels.Some? {
      assert n.labels.value - {BuilderRoleLabel} == n.labels.value;
    }
  }

  /** Stripping the role from a node the installer labelled gives back the labels the node had, provided
      it had a label map and no role label of its own. */
  lemma StripUndoesInstall(n: Node)
    requires n.labels.Some? && BuilderRoleLabel !in n.labels.value
    ensures StripRole(BuilderInstall.WithBuilderRole(n)) == n
  {
    assert BuilderInstall.WithBuilderRole(n).labels.value - {BuilderRoleLabel} == n.labels.value;
  }

  class Uninstall {
    const force: bool

    constructor (force: bool)
      ensures this.force == force
    {
      this.force := force;
    }

    /** Namespace: read the namespace, refuse one not managed by kim unless forced, delete it, then wait.
        `events` are the wait loop's observations, of which the one at `deadline` ends the wait. */
    method Namespace(k: Cluster, events: nat -> WaitEvent, deadline: nat) returns (err: Option<Error>, ghost got: Result<Kube.Namespace>)
      requires k.Valid() && EndsWait(events(deadline))
      modifies k.namespaces`objects
      ensures k.Valid()
      ensures got.Ok? ==> k.namespace in old(k.namespaces.objects) && got.value == old(k.namespaces.objects)[k.namespace]
      ensures got.Err? ==> err == Some(got.error) && k.namespaces.objects == old(k.namespaces.objects)
      ensures got.Ok? && !force && !IsManaged(got.value) ==>
        err == Some(Message(NotManagedMessage)) && k.namespaces.objects == old(k.namespaces.objects)
      ensures k.namespaces.objects == old(k.namespaces.objects)
        || (got.Ok? && (force || IsManaged(got.value)) && k.namespaces.objects == old(k.namespaces.objects) - {k.namespace})
      ensures got.Ok? && k.namespaces.objects != old(k.namespaces.objects) ==> err == WaitOutcome(events, 0, deadline)
    {
      var ns := k.namespaces.Get(k.namespace);
      got := ns;
      if ns.Err? {
        return Some(ns.error), got;
      }
      if !force && !IsManaged(ns.value) {
        return Some(Message(NotManagedMessage)), got;
      }
      var deleted := k.namespaces.Delete(k.namespace);
      if deleted.Some? {
        return deleted, got;
      }
      var i: nat := 0;
      while true
        invariant i <= deadline
        invariant WaitOutcome(events, i, deadline) == WaitOutcome(events, 0, deadline)
        decreases deadline - i
      {
        match events(i) {
          case ContextDone(e) => return Some(e), got;
          case Deleted => return None, got;
          case Tick(lookup) =>
            if lookup == Err(NotFound) {
              return None, got;
            }
        }
        i := i + 1;
      }
    }

    /** One attempt of removeNodeRole's closure: read the node; with labels, delete the role key and
        write it back. */
    method RemoveNodeRoleAttempt(nodes: Store<string, Node>, name: string) returns (err: Option<Error>)
      requires NodeStore(nodes)
      modifies nodes`objects
      ensures NodeStore(nodes)
      ensures err.Some? ==> nodes.objects == old(nodes.objects)
      ensures name !in old(nodes.objects) ==> err.Some?
      ensures err.None? ==>
        (name in old(nodes.objects) && nodes.objects == old(nodes.objects)[name := StripRole(old(nodes.objects)[name])])
      ensures name in old(nodes.objects) && old(nodes.objects)[name].labels.None? ==> nodes.objects == old(nodes.objects)
    {
      var node := nodes.Get(name);
      if node.Err? {
        return Some(node.error);
      }
      if node.value.labels.None? {
        return None;
      }
      err := nodes.Update(StripRole(node.value));
    }

    /** removeNodeRole under RetryOnConflict. */
    method RemoveNodeRole(nodes: Store<string, Node>, name: string) returns (err: Option<Error>)
      requires NodeStore(nodes)
      modifies nodes`objects
      ensures NodeStore(nodes)
      ensures err.Some? ==> nodes.objects == old(nodes.objects)
      ensures err.None? ==>
        (name in old(nodes.objects) && nodes.objects == old(nodes.objects)[name := StripRole(old(nodes.objects)[name])])
    {
      err := RemoveNodeRoleAttempt(nodes, name);
      var attempts := 1;
      while err == Some(Conflict) && attempts < BuilderInstall.DefaultRetrySteps
        invariant NodeStore(nodes)
        invariant err.Some? ==> nodes.objects == old(nodes.objects)
        invariant err.None? ==>
          (name in old(nodes.objects) && nodes.objects == old(nodes.objects)[name := StripRole(old(nodes.objects)[name])])
        decreases BuilderInstall.DefaultRetrySteps - attempts
      {
        err := RemoveNodeRoleAttempt(nodes, name);
        attempts := attempts + 1;
      }
    }

    /** The loop of NodeRole over the listed node names: removal is attempted on each, and a failure
        only skips that node. Every name ends up in exactly one of `stripped`, where a removal
        succeeded, and `failed`, where every removal failed and the node is left as it was. */
    method RemoveNodeRoles(nodes: Store<string, Node>, names: seq<string>) returns (ghost stripped: set<string>, ghost failed: set<string>)
      requires NodeStore(nodes)
      modifies nodes`objects
      ensures NodeStore(nodes)
      ensures nodes.objects.Keys == old(nodes.objects.Keys)
      ensures forall name | name in nodes.objects ::
        nodes.objects[name] == old(nodes.objects)[name] || nodes.objects[name] == StripRole(old(nodes.objects)[name])
      ensures forall name | name in nodes.objects && name !in names :: nodes.objects[name] == old(nodes.objects)[name]
      ensures stripped * failed == {} && stripped + failed == set name | name in names
      ensures forall name | name in stripped :: name in nodes.objects && nodes.objects[name] == StripRole(old(nodes.objects)[name])
      ensures forall name | name in failed && name in nodes.objects :: nodes.objects[name] == old(nodes.objects)[name]
    {
      stripped, failed := {}, {};
      var i := 0;
      while i < |names|
        invariant 0 <= i <= |names|
        invariant NodeStore(nodes)
        invariant nodes.objects.Keys == old(nodes.objects.Keys)
        invariant forall name | name in nodes.objects ::
          nodes.objects[name] == old(nodes.objects)[name] || nodes.objects[name] == StripRole(old(nodes.objects)[name])
        invariant forall name | name in nodes.objects && name !in names[..i] :: nodes.objects[name] == old(nodes.objects)[name]
        invariant stripped * failed == {} && stripped + failed == set name | name in names[..i]
        invariant forall name | name in stripped :: name in nodes.objects && nodes.objects[name] == StripRole(old(nodes.objects)[name])
        invariant forall name | name in failed && name in nodes.objects :: nodes.objects[name] == old(nodes.objects)[name]
      {
        var e := RemoveNodeRole(nodes, names[i]);
        if e.None? {
          StripRoleIdempotent(old(nodes.objects)[names[i]]);
          stripped, failed := stripped + {names[i]}, failed - {names[i]};
        } else if names[i] !in stripped {
          failed := failed + {names[i]};
        }
        assert names[..i + 1] == names[..i] + [names[i]];
        ghost var before, after := names[..i], names[..i + 1];
        assert (set name | name in after) == (set name | name in before) + {names[i]};
        i := i + 1;
      }
      assert names[..i] == names;
    }

    /** NodeRole: strip the builder role from every node carrying the label; a node that fails is
        skipped, and only a List error is returned. `listing` is the List outcome; after a listing,
        every labelled node is in it, and its names split into `stripped`, the nodes whose removal
        succeeded, and `failed`, the nodes left as they were. */
    method NodeRole(k: Cluster) returns (err: Option<Error>, ghost listing: Result<seq<Node>>,
                                         ghost stripped: set<string>, ghost failed: set<string>)
      requires k.Valid()
      modifies k.nodes`objects
      ensures k.Valid()
      ensures listing.Err? ==> err == Some(listing.error) && k.nodes.objects == old(k.nodes.objects)
      ensures listing.Ok? ==> err.None?
      ensures listing.Ok? ==> forall name | name in old(k.nodes.objects)
        && BuilderRoleLabel in LabelsOf(old(k.nodes.objects)[name].labels) :: old(k.nodes.objects)[name] in listing.value
      ensures listing.Ok? ==>
        stripped * failed == {} && stripped + failed == set i | 0 <= i < |listing.value| :: listing.value[i].name
      ensures k.nodes.objects.Keys == old(k.nodes.objects.Keys)
      ensures forall name | name in k.nodes.objects ::
        k.nodes.objects[name] == old(k.nodes.objects)[name] || k.nodes.objects[name] == StripRole(old(k.nodes.objects)[name])
      ensures forall name | name in k.nodes.objects && BuilderRoleLabel !in LabelsOf(old(k.nodes.objects)[name].labels) ::
        k.nodes.objects[name] == old(k.nodes.objects)[name]
      ensures forall name | name in stripped :: name in k.nodes.objects && k.nodes.objects[name] == StripRole(old(k.nodes.objects)[name])
      ensures forall name | name in failed && name in k.nodes.objects :: k.nodes.objects[name] == old(k.nodes.objects)[name]
    {
      stripped, failed := {}, {};
      var list := k.nodes.List((n: Node) => Matches([Exists(BuilderRoleLabel)], LabelsOf(n.labels)));
      listing := list;
      if list.Err? {
        return Some(list.error), listing, stripped, failed;
      }
      var names := seq(|list.value|, i requires 0 <= i < |list.value| => list.value[i].name);
      ghost var orig := k.nodes.objects;
      forall j | 0 <= j < |names|
        ensures names[j] in orig && BuilderRoleLabel in LabelsOf(orig[names[j]].labels)
      {
        assert k.nodes.keyOf(list.value[j]) == names[j];
        assert Matches([Exists(BuilderRoleLabel)], LabelsOf(list.value[j].labels));
        assert Satisfies(LabelsOf(list.value[j].labels), [Exists(BuilderRoleLabel)][0]);
      }
      forall name | name in orig && BuilderRoleLabel in LabelsOf(orig[name].labels)
        ensures orig[name] in list.value
      {
        assert Matches([Exists(BuilderRoleLabel)], LabelsOf(orig[name].labels));
      }
      assert (set name | name in names) == set i | 0 <= i < |list.value| :: list.value[i].name by {
        forall name | name in names ensures exists i | 0 <= i < |list.value| :: list.value[i].name == name {
          var j :| 0 <= j < |names| && names[j] == name;
          assert list.value[j].name == name;
        }
        forall i | 0 <= i < |list.value| ensures list.value[i].name in names {
          assert names[i] == list.value[i].name;
        }
      }
      stripped, failed := RemoveNodeRoles(k.nodes, names);
      err := None;
    }
  }
}
