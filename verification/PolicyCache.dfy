/** Concurrent refreshes of the policy cache: fetch, load the pointer, check, compare and swap. */
module PolicyCache {
  import opened Options

  /** A validated, detached bundle with its semantic digest. */
  datatype Fetched = Fetched(bundleId: string, version: int, activatedAt: int, digest: string, verifiedAt: int)

  /** Where one refresh stands. `seen` counts the snapshots published when it loaded the pointer. */
  datatype Refresh =
    | Fetching
    | Holding(bundle: Fetched)
    | Loaded(bundle: Fetched, seen: nat)
    | Checked(bundle: Fetched, seen: nat)
    | Published
    | Refused(reason: Refusal)

  datatype Refusal = Rollback | VersionChanged | ActivationCollision | OlderRefresh

  /** Every snapshot ever published, the active one last, and the refreshes in flight. */
  datatype Cache = Cache(history: seq<Fetched>, refreshes: map<nat, Refresh>)

  const EMPTY := Cache([], map[])

  /** Why a bundle may not follow the active snapshot. */
  function Objection(bundle: Fetched, current: Fetched): Option<Refusal> {
    if bundle.bundleId != current.bundleId || bundle.version < current.version ||
       bundle.activatedAt < current.activatedAt then
      Some(Rollback)
    else if bundle.version == current.version && bundle.digest != current.digest then Some(VersionChanged)
    else if bundle.activatedAt == current.activatedAt && bundle.version != current.version then
      Some(ActivationCollision)
    else if bundle.verifiedAt < current.verifiedAt then Some(OlderRefresh)
    else None
  }

  datatype Step = Begin(r: nat) | Fetch(r: nat, bundle: Fetched) | LoadPointer(r: nat) | Check(r: nat) | Swap(r: nat)

  /** One atomic action; steps out of order change nothing. */
  function Next(c: Cache, step: Step): Cache {
    var r := step.r;
    match step
    case Begin(_) => if r in c.refreshes then c else c.(refreshes := c.refreshes[r := Fetching])
    case Fetch(_, bundle) =>
      if r in c.refreshes && c.refreshes[r].Fetching? then c.(refreshes := c.refreshes[r := Holding(bundle)]) else c
    case LoadPointer(_) =>
      if r in c.refreshes && c.refreshes[r].Holding? then
        c.(refreshes := c.refreshes[r := Loaded(c.refreshes[r].bundle, |c.history|)])
      else c
    case Check(_) =>
      if r in c.refreshes && c.refreshes[r].Loaded? && c.refreshes[r].seen <= |c.history| then
        var f := c.refreshes[r];
        var objection := if f.seen == 0 then None else Objection(f.bundle, c.history[f.seen - 1]);
        var checked := if objection.Some? then Refused(objection.value) else Checked(f.bundle, f.seen);
        c.(refreshes := c.refreshes[r := checked])
      else c
    case Swap(_) =>
      if r in c.refreshes && c.refreshes[r].Checked? then
        var f := c.refreshes[r];
        if f.seen == |c.history| then Cache(c.history + [f.bundle], c.refreshes[r := Published])
        else c.(refreshes := c.refreshes[r := Holding(f.bundle)])
      else c
  }

  function Run(c: Cache, steps: seq<Step>): Cache {
    if steps == [] then c else Next(Run(c, steps[..|steps| - 1]), steps[|steps| - 1])
  }

  // ---- The invariant.

  /** Each published snapshot was acceptable after the one before it. */
  predicate Successive(history: seq<Fetched>) {
    forall i :: 0 < i < |history| ==> Objection(history[i], history[i - 1]).None?
  }

  predicate RefreshSound(c: Cache, f: Refresh) {
    match f
    case Loaded(_, seen) => seen <= |c.history|
    case Checked(bundle, seen) => seen <= |c.history| && (seen > 0 ==> Objection(bundle, c.history[seen - 1]).None?)
    case _ => true
  }

  predicate CacheInv(c: Cache) {
    Successive(c.history) && forall r :: r in c.refreshes ==> RefreshSound(c, c.refreshes[r])
  }

  lemma NextKeepsInv(c: Cache, step: Step)
    requires CacheInv(c)
    ensures CacheInv(Next(c, step))
  {
    hide Objection;
    var c' := Next(c, step);
    forall r | r in c'.refreshes ensures RefreshSound(c', c'.refreshes[r]) {
      if r in c.refreshes {
        assert RefreshSound(c, c.refreshes[r]);
      }
    }
    if |c'.history| > |c.history| {
      assert RefreshSound(c, c.refreshes[step.r]);
    }
  }

  lemma {:induction false} RunKeepsInv(steps: seq<Step>)
    ensures CacheInv(Run(EMPTY, steps))
  {
    hide Next;
    if steps != [] {
      RunKeepsInv(steps[..|steps| - 1]);
      NextKeepsInv(Run(EMPTY, steps[..|steps| - 1]), steps[|steps| - 1]);
    }
  }

  /** One lineage, nothing goes back, versions are immutable and activation times name one version. */
  predicate Ordered(a: Fetched, b: Fetched) {
    && b.bundleId == a.bundleId && b.version >= a.version && b.activatedAt >= a.activatedAt &&
       b.verifiedAt >= a.verifiedAt
    && (b.version == a.version ==> b.digest == a.digest)
    && (b.activatedAt == a.activatedAt ==> b.version == a.version)
  }

  lemma {:induction false} HistoryOrdered(history: seq<Fetched>, i: nat, j: nat)
    requires Successive(history) && i <= j < |history|
    ensures Ordered(history[i], history[j])
    decreases j - i
  {
    if i < j {
      HistoryOrdered(history, i, j - 1);
      assert Objection(history[j], history[j - 1]).None?;
    }
  }

  /** Under any interleaving of refreshes, any two snapshots of the whole history are ordered as they were published. */
  lemma PublishedHistoryIsMonotone(steps: seq<Step>, i: nat, j: nat)
    requires i <= j < |Run(EMPTY, steps).history|
    ensures Ordered(Run(EMPTY, steps).history[i], Run(EMPTY, steps).history[j])
  {
    hide Run, Ordered;
    RunKeepsInv(steps);
    HistoryOrdered(Run(EMPTY, steps).history, i, j);
  }

  /** Snapshots are only ever appended, one at a time, by a refresh whose bundle passed the check against the active
      one. */
  lemma OnlyCheckedBundlesArePublished(steps: seq<Step>, step: Step)
    ensures var c := Run(EMPTY, steps);
            var c' := Next(c, step);
            c'.history == c.history ||
            (step.Swap? && step.r in c.refreshes && c.refreshes[step.r].Checked? &&
             c'.history == c.history + [c.refreshes[step.r].bundle] && c'.refreshes[step.r] == Published &&
             (c.history != [] ==> Objection(c.refreshes[step.r].bundle, c.history[|c.history| - 1]).None?))
  {
    hide Run, Objection;
    RunKeepsInv(steps);
    var c := Run(EMPTY, steps);
    if step.r in c.refreshes {
      assert RefreshSound(c, c.refreshes[step.r]);
    }
  }

  /** The check lets through exactly the bundles that may follow, and says why it stops the others. */
  lemma ObjectionMeans(bundle: Fetched, current: Fetched)
    ensures Objection(bundle, current).None? <==> Ordered(current, bundle)
    ensures Objection(bundle, current) == Some(OlderRefresh) <==>
              bundle.verifiedAt < current.verifiedAt && Ordered(current, bundle.(verifiedAt := current.verifiedAt))
    ensures Objection(bundle, current) == Some(Rollback) <==>
              || bundle.bundleId != current.bundleId || bundle.version < current.version
              || bundle.activatedAt < current.activatedAt
    ensures Objection(bundle, current) == Some(VersionChanged) ==>
              bundle.version == current.version && bundle.digest != current.digest
    ensures Objection(bundle, current) == Some(ActivationCollision) ==>
              bundle.activatedAt == current.activatedAt && bundle.version > current.version
  {
  }

  /** A refresh that holds a bundle, or lost the pointer to another after its check, and is then left alone publishes
      its bundle exactly when that may follow the active snapshot. */
  lemma RefreshFinishes(c: Cache, r: nat)
    requires CacheInv(c) && r in c.refreshes && (c.refreshes[r].Holding? || c.refreshes[r].Checked?)
    ensures var c', bundle := Run(c, [Swap(r), LoadPointer(r), Check(r), Swap(r)]), c.refreshes[r].bundle;
            r in c'.refreshes &&
            if c.history == [] || Ordered(c.history[|c.history| - 1], bundle) then
              c'.history == c.history + [bundle] && c'.refreshes[r] == Published
            else c'.history == c.history && c'.refreshes[r].Refused?
  {
    hide Next, Ordered;
    var bundle := c.refreshes[r].bundle;
    var steps := [Swap(r), LoadPointer(r), Check(r), Swap(r)];
    var c1 := Next(c, Swap(r));
    var c2 := Next(c1, LoadPointer(r));
    var c3 := Next(c2, Check(r));
    assert steps[..1][..0] == [] && steps[..2][..1] == steps[..1] && steps[..3][..2] == steps[..2];
    assert Run(c, steps[..1]) == c1;
    assert Run(c, steps[..2]) == c2;
    assert Run(c, steps) == Next(c3, Swap(r));
    if c.history != [] {
      ObjectionMeans(bundle, c.history[|c.history| - 1]);
    }
    assert RefreshSound(c, c.refreshes[r]);
    TwoTries(c, r);
  }

  lemma TwoTries(c: Cache, r: nat)
    requires r in c.refreshes && RefreshSound(c, c.refreshes[r])
    requires c.refreshes[r].Holding? || c.refreshes[r].Checked?
    ensures var bundle := c.refreshes[r].bundle;
            var c' := Next(Next(Next(Next(c, Swap(r)), LoadPointer(r)), Check(r)), Swap(r));
            r in c'.refreshes &&
            if c.history == [] || Objection(bundle, c.history[|c.history| - 1]).None? then
              c'.history == c.history + [bundle] && c'.refreshes[r] == Published
            else c'.history == c.history && c'.refreshes[r].Refused?
  {
    hide Objection;
  }
}
