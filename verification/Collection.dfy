/** Garbage collection of stored artifacts (main.rs, cleanup_stale_state, and jobs.rs,
    cleanup_candidates) against what the registry still refers to. */
module Collection {
  import opened Wrappers
  import opened ArtifactTypes
  import opened Schema
  import opened Transactions
  import opened Histories
  import A = ArtifactStore

  // ---------------------------------------------------------------- references

  /** Job i is running or awaiting input and its saved checkpoint lists d. */
  predicate HoldsCandidate(db: Db, i: JobId, d: Digest) {
    && i in db.runs && i in db.jobs && db.jobs[i].status in {Running, AwaitingInput}
    && d in db.runs[i].checkpoint.agent.ws.candidateDigests
  }

  /** A published artifact, or a candidate of a job other than the excluded one. */
  ghost predicate Referenced(db: Db, d: Digest, excluded: Option<JobId>) {
    d in db.artifacts || exists i: JobId :: excluded != Some(i) && HoldsCandidate(db, i, d)
  }

  lemma ReferencedExactly(db: Db, d: Digest, excluded: Option<JobId>)
    ensures d in ReferencedDigests(db, excluded) <==> Referenced(db, d, excluded)
  {
    if i: JobId :| excluded != Some(i) && HoldsCandidate(db, i, d) { assert Protects(db, i, excluded); }
    if d in ReferencedDigests(db, excluded) && d !in db.artifacts {
      var i :| i in db.runs && Protects(db, i, excluded) && d in db.runs[i].checkpoint.agent.ws.candidateDigests;
      assert HoldsCandidate(db, i, d);
    }
  }

  // ---------------------------------------------------------------- the two cleanups

  /** The part of a store some set of digests refers to. */
  ghost function Kept(c: A.Contents, keep: set<Digest>): A.Contents {
    map d | d in c && d in keep :: c[d]
  }

  /** At the start of a worker: interrupted writes go, and every entry nothing refers to. */
  method CleanupStaleState(db: Db, store: A.Store)
    returns (removed: nat)
    requires store.Valid()
    modifies store
    ensures store.Valid() && store.View() == Kept(old(store.View()), ReferencedDigests(db, None))
    ensures forall n | n in store.dirs :: n.Final?
    ensures removed == |set d | d in old(store.View()) && d !in ReferencedDigests(db, None)|
  {
    var interrupted := store.CleanupTemporary();
    var referenced := ReferencedDigests(db, None);
    removed := RemoveUnreferenced(store, referenced);
  }

  /** The loop over the stored digests. */
  method RemoveUnreferenced(store: A.Store, referenced: set<Digest>)
    returns (removed: nat)
    requires store.Valid()
    modifies store
    ensures store.Valid() && store.View() == Kept(old(store.View()), referenced)
    ensures forall n | n in store.dirs :: n in old(store.dirs)
    ensures removed == |set d | d in old(store.View()) && d !in referenced|
  {
    var digests := store.ListDigests();
    ghost var was := store.View();
    ghost var gone: set<Digest> := {};
    removed := 0;
    var i := 0;
    while i < |digests|
      invariant i <= |digests| && store.Valid()
      invariant forall d :: d in gone <==> d in digests[..i] && d !in referenced
      invariant store.View() == was - gone && removed == |gone|
      invariant forall n | n in store.dirs :: n in old(store.dirs)
    {
      var d := digests[i];
      assert digests[..i + 1] == digests[..i] + [d];
      if d !in referenced {
        assert d in was && d !in gone;
        var ok := store.Remove(d);
        RemovedOneMore(was, gone, d);
        gone := gone + {d};
        if ok { removed := removed + 1; }
      }
      i := i + 1;
    }
    assert digests[..i] == digests;
    Survivors(was, gone, referenced);
  }

  lemma RemovedOneMore(c: A.Contents, gone: set<Digest>, d: Digest)
    ensures (c - gone) - {d} == c - (gone + {d})
  {
  }

  lemma Survivors(c: A.Contents, gone: set<Digest>, referenced: set<Digest>)
    requires forall d :: d in gone <==> d in c && d !in referenced
    ensures c - gone == Kept(c, referenced)
    ensures gone == set d | d in c && d !in referenced
  {
  }

  /** After a job: its own candidates go, but for the published one and what other jobs hold. */
  method CleanupCandidates(db: Db, store: A.Store, j: JobId, candidates: set<Digest>, published: Option<Digest>)
    requires store.Valid()
    modifies store
    ensures store.Valid()
    ensures store.View() ==
              old(store.View()) - (set d | d in candidates && published != Some(d) && d !in ReferencedDigests(db, Some(j)))
  {
    var referenced := ReferencedDigests(db, Some(j));
    RemoveCandidates(store, candidates, published, referenced);
  }

  /** The loop over the candidates of a job. */
  method RemoveCandidates(store: A.Store, candidates: set<Digest>, published: Option<Digest>, referenced: set<Digest>)
    requires store.Valid()
    modifies store
    ensures store.Valid()
    ensures store.View() == old(store.View()) - (set d | d in candidates && published != Some(d) && d !in referenced)
  {
    var todo := candidates;
    ghost var gone: set<Digest> := {};
    while todo != {}
      invariant todo <= candidates && store.Valid()
      invariant forall d :: d in gone <==> d in candidates - todo && published != Some(d) && d !in referenced
      invariant store.View() == old(store.View()) - gone
    {
      var d :| d in todo;
      todo := todo - {d};
      if published != Some(d) && d !in referenced {
        var ok := store.Remove(d);
        RemovedOneMore(old(store.View()), gone, d);
        gone := gone + {d};
      }
    }
    assert gone == set d | d in candidates && published != Some(d) && d !in referenced;
  }

  // ---------------------------------------------------------------- registry and store together

  datatype Site = Site(db: Db, now: Time, store: set<Digest>)

  /** Evaluation, from the put to the publication, and each cleanup are one step. */
  datatype SiteStep =
    | Registry(step: Step)
    | PutAndPublish(job: JobId, worker: WorkerId, bundle: Bundle, clean: bool)
    | StaleCleanup
    | CandidateCleanup(of: JobId, candidates: set<Digest>, published: Option<Digest>)

  function Artifact(b: Bundle): PublishedArtifact {
    PublishedArtifact(SemanticDigest(b), b.manifest, b.contract)
  }

  function SiteNext(s: Site, step: SiteStep): Site {
    match step
    case Registry(Tick(elapsed)) => s.(now := s.now + elapsed)
    case Registry(Act(a)) => if a.DoPublish? then s else s.(db := After(s.db, Attempt(s.db, s.now, a)))
    case PutAndPublish(j, w, b, clean) =>
      Site(if clean then After(s.db, Publish(s.db, j, w, Artifact(b), s.now)) else s.db, s.now, s.store + {SemanticDigest(b)})
    case StaleCleanup => s.(store := s.store * ReferencedDigests(s.db, None))
    case CandidateCleanup(j, candidates, published) =>
      s.(store := s.store - set d | d in candidates && published != Some(d) && d !in ReferencedDigests(s.db, Some(j)))
  }

  function SiteRun(s: Site, steps: seq<SiteStep>): Site {
    if steps == [] then s else SiteNext(SiteRun(s, steps[..|steps| - 1]), steps[|steps| - 1])
  }

  predicate Stocked(s: Site) {
    forall d | d in s.db.artifacts :: d in s.store
  }

  lemma RegistryKeepsArtifacts(db: Db, now: Time, a: Action)
    requires Attempt(db, now, a).Success? && !a.DoPublish?
    ensures Attempt(db, now, a).value.artifacts == db.artifacts
  {
    match a
    case DoRegister(_, _, _, _) =>
    case DoApproveCapability(_) =>
    case DoRevokeCapability(_, _) =>
    case _ => IndexesKept(db, now, a);
  }

  lemma NextStocked(s: Site, step: SiteStep)
    requires Stocked(s)
    ensures Stocked(SiteNext(s, step))
  {
    match step
    case Registry(Act(a)) =>
      if Attempt(s.db, s.now, a).Success? && !a.DoPublish? { RegistryKeepsArtifacts(s.db, s.now, a); }
    case PutAndPublish(j, w, b, clean) =>
      if clean && Publish(s.db, j, w, Artifact(b), s.now).Success? { PublishedIndexes(s.db, j, w, Artifact(b), s.now); }
    case StaleCleanup =>
      forall d | d in s.db.artifacts ensures d in ReferencedDigests(s.db, None) { ReferencedExactly(s.db, d, None); }
    case CandidateCleanup(j, _, _) =>
      forall d | d in s.db.artifacts ensures d in ReferencedDigests(s.db, Some(j)) { ReferencedExactly(s.db, d, Some(j)); }
    case _ =>
  }

  /** In every run every published artifact is in the store, whatever is cleaned up. */
  lemma {:induction false} PublishedStaysStored(steps: seq<SiteStep>)
    ensures Stocked(SiteRun(Site(EMPTY, 0, {}), steps))
  {
    if steps != [] {
      PublishedStaysStored(steps[..|steps| - 1]);
      NextStocked(SiteRun(Site(EMPTY, 0, {}), steps[..|steps| - 1]), steps[|steps| - 1]);
    }
  }

  /** A cleanup removes nothing that another running or awaiting job holds in its saved
      checkpoint; a cleanup at the start of a worker removes exactly what nothing refers to. */
  lemma CleanupSpares(s: Site, step: SiteStep, d: Digest)
    requires d in s.store
    ensures step.StaleCleanup? ==> (d in SiteNext(s, step).store <==> Referenced(s.db, d, None))
    ensures step.CandidateCleanup? ==>
              (d !in SiteNext(s, step).store <==>
                 d in step.candidates && step.published != Some(d) && !Referenced(s.db, d, Some(step.of)))
    ensures forall i | HoldsCandidate(s.db, i, d) ::
              step.StaleCleanup? || (step.CandidateCleanup? && step.of != i) ==> d in SiteNext(s, step).store
  {
    ReferencedExactly(s.db, d, None);
    if step.CandidateCleanup? { ReferencedExactly(s.db, d, Some(step.of)); }
  }

  /** Not so for a worker of the same job that has lost it: its cleanup removes every candidate of
      its own that only the job itself refers to, although the job is running under its successor
      and its saved checkpoint lists the candidate. */
  lemma OwnCleanupRemovesSuccessors(s: Site, j: JobId, candidates: set<Digest>, d: Digest)
    requires HoldsCandidate(s.db, j, d) && d in candidates
    requires d !in s.db.artifacts && forall i | i != j :: !HoldsCandidate(s.db, i, d)
    ensures d !in SiteNext(s, CandidateCleanup(j, candidates, None)).store
  {
    ReferencedExactly(s.db, d, Some(j));
  }

  /** Not so for an answered job that no worker has claimed yet: a candidate of its saved
      checkpoint that nothing else refers to is always removed. */
  lemma AnsweredJobIsUnprotected(s: Site, j: JobId, d: Digest)
    requires j in s.db.runs && d in s.db.runs[j].checkpoint.agent.ws.candidateDigests
    requires j in s.db.jobs && Resumes(s.db.jobs[j])
    requires d !in s.db.artifacts && forall i | i != j :: !HoldsCandidate(s.db, i, d)
    ensures d !in SiteNext(s, StaleCleanup).store
  {
    ReferencedExactly(s.db, d, None);
  }

  /** Nor for an evaluation that a starting worker interrupts: when nothing refers to the
      candidate yet, a cleanup between the put and the publication leaves a published version
      without its artifact. */
  lemma CleanupInsideEvaluation(s: Site, j: JobId, w: WorkerId, b: Bundle)
    requires !Referenced(s.db, SemanticDigest(b), None) && Publish(s.db, j, w, Artifact(b), s.now).Success?
    ensures var put := s.(store := s.store + {SemanticDigest(b)});
            var cleaned := SiteNext(put, StaleCleanup);
            var db := Publish(cleaned.db, j, w, Artifact(b), s.now).value;
            SemanticDigest(b) in db.artifacts && SemanticDigest(b) !in cleaned.store
  {
    ReferencedExactly(s.db, SemanticDigest(b), None);
    PublishedIndexes(s.db, j, w, Artifact(b), s.now);
  }
}
