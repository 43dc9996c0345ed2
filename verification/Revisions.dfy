/** Registrations, revisions and the stable pointer, over every run. */
module Revisions {
  import opened Wrappers
  import opened AgentTypes
  import opened Schema
  import opened Transactions
  import opened Coherence
  import opened Effects
  import opened Histories
  import opened Endings

  // ---------------------------------------------------------------- resolving a tool

  ghost predicate SomeReady(db: Db, tool: string) {
    exists r: nat :: ReadyAt(db, tool, r)
  }

  /** The revision asked for, or else the stable one. */
  function Wanted(db: Db, tool: string, requested: Option<nat>): Option<nat> {
    if requested.Some? then requested else if tool in db.tools then db.tools[tool].stable else None
  }

  /** The answer names this revision, and has the digest of its own artifact and the formats of its
      own request. */
  predicate Answers(db: Db, k: VersionKey, r: ResolvedTool) {
    && k in db.versions && r.revision == k.revision
    && db.versions[k].digest == Some(r.digest) && r.digest in db.artifacts
    && r.inputFormat == db.versions[k].request.inputFormat && r.outputFormat == db.versions[k].request.outputFormat
  }

  /** A tool resolves exactly when the wanted revision is ready, and then to that very revision,
      with the digest and the formats of its version; without a revision that is when any version
      of it is ready.  No request meets a broken invariant. */
  lemma ResolvesExactly(db: Db, tool: string, requested: Option<nat>)
    requires Coherent(db)
    ensures var r := ResolveTool(db, tool, requested); var at := Wanted(db, tool, requested);
            && (r.Success? <==> tool in db.tools && at.Some? && ReadyAt(db, tool, at.value))
            && (r.Success? ==> Answers(db, VersionKey(tool, at.value), r.value))
            && (r.Failure? ==> r.error == if tool in db.tools then ToolNotReady else ToolNotFound)
    ensures tool in db.tools ==> (ResolveTool(db, tool, None).Success? <==> SomeReady(db, tool))
  {
    assert StableAt(db, tool);
    if tool in db.tools && db.tools[tool].stable.Some? {
      var stable := db.tools[tool].stable.value;
      assert ArtifactOk(db, VersionKey(tool, stable)) && ReadyAt(db, tool, stable);
    }
    if requested.Some? { assert ArtifactOk(db, VersionKey(tool, requested.value)); }
  }

  lemma ResolvesExactlyInEveryRun(steps: seq<Step>, j: JobId, tool: string)
    requires WorkerStages(steps) && tool in Play(START, steps, j).db.tools
    ensures var db := Play(START, steps, j).db;
            && (ResolveTool(db, tool, None).Success? <==> SomeReady(db, tool))
            && (db.tools[tool].stable.None? <==> !SomeReady(db, tool))
  {
    ReachableOk(steps, j);
    var db := Play(START, steps, j).db;
    ResolvesExactly(db, tool, None);
    assert StableAt(db, tool);
  }

  /** After the stable revision is revoked the tool resolves to the greatest ready revision
      left, and to none exactly when none is left; revoking another one moves nothing. */
  lemma RevocationFallsBack(db: Db, d: Db, tool: string, revision: nat)
    requires Coherent(db) && RevokeVersion(db, tool, revision) == Success(d)
    ensures tool in d.tools && !ReadyAt(d, tool, revision)
    ensures db.tools[tool].stable != Some(revision) ==> d.tools[tool].stable == db.tools[tool].stable
    ensures db.tools[tool].stable == Some(revision) ==>
              match d.tools[tool].stable
              case Some(g) => ReadyAt(d, tool, g) && forall r: nat | ReadyAt(d, tool, r) :: r <= g
              case None => !SomeReady(d, tool)
  {
    var db1 := WithRevoked(db, VersionKey(tool, revision));
    assert forall r: nat :: ReadyAt(d, tool, r) == ReadyAt(db1, tool, r);
    if db.tools[tool].stable == Some(revision) {
      GreatestReadyIsGreatest(db1, tool, db.tools[tool].latest, revision);
      forall r: nat | ReadyAt(db1, tool, r) ensures r <= db.tools[tool].latest && r != revision {
        assert VersionOk(db, VersionKey(tool, r));
      }
    }
  }

  /** A publication points the tool at its own revision: that is the greatest ready one exactly
      when no greater revision was ready before. */
  lemma PublishedPointerIsGreatestExactly(db: Db, d: Db, j: JobId, w: WorkerId, a: PublishedArtifact, now: Time)
    requires Coherent(db) && Publish(db, j, w, a, now) == Success(d)
    ensures var k := db.jobs[j].version;
            && k.tool in d.tools && d.tools[k.tool].stable == Some(k.revision)
            && ((forall r: nat | ReadyAt(d, k.tool, r) :: r <= k.revision) <==>
                (forall r: nat | ReadyAt(db, k.tool, r) :: r <= k.revision))
  {
    PublishedVersion(db, j, w, a, now);
    PublishedReady(db, d, j, w, a, now);
  }

  lemma PublishedReady(db: Db, d: Db, j: JobId, w: WorkerId, a: PublishedArtifact, now: Time)
    requires Coherent(db) && Publish(db, j, w, a, now) == Success(d)
    ensures var k := db.jobs[j].version;
            forall r: nat :: ReadyAt(d, k.tool, r) <==> ReadyAt(db, k.tool, r) || r == k.revision
  {
    RowOf(db, j);
    var k := db.jobs[j].version;
    PublishEffect(db, j, w, a, now);
    forall r: nat ensures ReadyAt(d, k.tool, r) <==> ReadyAt(db, k.tool, r) || r == k.revision {
      assert VersionKey(k.tool, k.revision) == k;
    }
  }

  // ---------------------------------------------------------------- what registration fixes

  /** The tool, revision, key and fingerprint of a job never change. */
  predicate SameIdentity(db: Db, d: Db, j: JobId) {
    j in db.jobs ==>
      && j in d.jobs && d.jobs[j].version == db.jobs[j].version
      && d.jobs[j].key == db.jobs[j].key && d.jobs[j].fingerprint == db.jobs[j].fingerprint
  }

  lemma OwnIdentityKept(db: Db, now: Time, a: Action, j: JobId)
    requires Attempt(db, now, a).Success? && JobOf(a) == Some(j)
    ensures SameIdentity(db, Attempt(db, now, a).value, j)
  {
    match a
    case DoSuspend(_, w, input) => SuspendEffect(db, j, w, input, now);
    case DoAnswer(_, id, answer, bytes) => AnswerEffect(db, j, id, answer, bytes, now);
    case DoCancel(_, reason, bytes) => CancelEffect(db, j, reason, bytes, now);
    case DoAppendEvent(_, w, kind, bytes) => AppendOwnEffect(db, j, w, kind, bytes);
    case DoPublish(_, w, artifact) => PublishEffect(db, j, w, artifact, now);
    case DoClaim(_, w) => ClaimEffect(db, j, w, now);
    case DoSetStage(_, w, stage) => SetStageEffect(db, j, w, stage, now);
    case DoReject(_, w) => RejectEffect(db, j, w, now);
    case _ =>
  }

  lemma IdentityKept(db: Db, now: Time, a: Action, j: JobId)
    requires Attempt(db, now, a).Success?
    ensures SameIdentity(db, Attempt(db, now, a).value, j)
  {
    if JobOf(a) == Some(j) { OwnIdentityKept(db, now, a, j); } else { Isolation(db, now, a, j); }
  }

  /** Only a registration accepts a key. */
  lemma OthersKeepKeys(db: Db, now: Time, a: Action)
    requires Attempt(db, now, a).Success? && !a.DoRegister?
    ensures Attempt(db, now, a).value.jobByKey == db.jobByKey
  {
    match a
    case DoPublish(j, w, artifact) => PublishedIndexes(db, j, w, artifact, now);
    case DoApproveCapability(_) =>
    case DoRevokeCapability(_, _) =>
    case _ => IndexesKept(db, now, a);
  }

  /** An accepted key keeps its job, and that job its identity. */
  predicate KeyStays(db: Db, d: Db, key: string) {
    key in db.jobByKey && db.jobByKey[key] in db.jobs ==>
      key in d.jobByKey && d.jobByKey[key] == db.jobByKey[key] && SameIdentity(db, d, db.jobByKey[key])
  }

  lemma RegisterKeepsKey(db: Db, now: Time, a: Action, key: string)
    requires a.DoRegister? && Attempt(db, now, a).Success? && key in db.jobByKey && db.jobByKey[key] in db.jobs
    ensures var d := Attempt(db, now, a).value; key in d.jobByKey && d.jobByKey[key] == db.jobByKey[key]
  {
  }

  lemma KeyStaysAfter(db: Db, now: Time, a: Action, key: string)
    requires Coherent(db) && Attempt(db, now, a).Success?
    ensures KeyStays(db, Attempt(db, now, a).value, key)
  {
    if key in db.jobByKey && db.jobByKey[key] in db.jobs {
      IdentityKept(db, now, a, db.jobByKey[key]);
      if a.DoRegister? { RegisterKeepsKey(db, now, a, key); } else { OthersKeepKeys(db, now, a); }
    }
  }

  lemma {:induction false} KeyForever(w: World, steps: seq<Step>, j: JobId, key: string)
    requires WorldOk(w, j) && WorkerStages(steps)
    ensures KeyStays(w.db, Play(w, steps, j).db, key)
  {
    if steps != [] {
      var front, last := steps[..|steps| - 1], steps[|steps| - 1];
      assert forall i | 0 <= i < |front| :: front[i] == steps[i];
      KeyForever(w, front, j, key);
      RunKeeps(w, front, j);
      var v := Play(w, front, j);
      if last.Act? && Attempt(v.db, v.now, last.action).Success? {
        KeyStaysAfter(v.db, v.now, last.action, key);
      }
    }
  }

  /** Once a key is accepted, in every later state the same registration returns the same job
      and changes nothing, and a registration of anything else under that key is refused. */
  lemma ReplayedRegistration(w: World, j: JobId, name: string, request: Request, key: string, steps: seq<Step>,
                             name': string, request': Request, newJob: JobId)
    requires WorldOk(w, j) && WorkerStages(steps) && key !in w.db.jobByKey
    requires Attempt(w.db, w.now, DoRegister(name, request, key, j)).Success?
    ensures var v := Play(Next(w, Act(DoRegister(name, request, key, j)), j), steps, j);
            && key in v.db.jobByKey && v.db.jobByKey[key] == j && j in v.db.jobs
            && v.db.jobs[j].version == VersionKey(name, LatestRevision(w.db, name) + 1)
            && Register(v.db, name', request', key, newJob, v.now) ==
                 if name' == name && request' == request then Success(v.db) else Failure(IdempotencyConflict)
  {
    var step := Act(DoRegister(name, request, key, j));
    var w1 := Next(w, step, j);
    assert w1.db == Registered(w.db, name, request, key, j, w.now);
    NextKeeps(w, step, j);
    KeyForever(w1, steps, j, key);
  }

  // ---------------------------------------------------------------- counting

  /** The revisions of a tool are exactly 1 to the latest, and each has exactly one job. */
  lemma RevisionsExactly(db: Db, tool: string, r: nat)
    requires Coherent(db) && tool in db.tools
    ensures VersionKey(tool, r) in db.versions <==> 1 <= r <= db.tools[tool].latest
    ensures 1 <= r <= db.tools[tool].latest ==>
              exists j :: IsJobOf(db, j, VersionKey(tool, r)) && forall i | IsJobOf(db, i, VersionKey(tool, r)) :: i == j
  {
    var k := VersionKey(tool, r);
    assert VersionOk(db, k) && DenseOk(db, tool, r);
    if 1 <= r <= db.tools[tool].latest {
      var j :| IsJobOf(db, j, k);
      forall i | IsJobOf(db, i, k) ensures i == j { assert OwnVersion(db, i, j); }
    }
  }

  lemma {:induction false} SameSize(keys: map<string, JobId>, ids: set<JobId>)
    requires forall k | k in keys :: keys[k] in ids
    requires forall k, k' | k in keys && k' in keys && keys[k] == keys[k'] :: k == k'
    requires forall i | i in ids :: exists k :: k in keys && keys[k] == i
    ensures |keys| == |ids|
    decreases |keys|
  {
    if keys.Keys == {} {
      assert ids == {};
      assert |keys.Keys| == |keys|;
    } else {
      var k :| k in keys;
      var rest := keys - {k};
      assert rest.Keys == keys.Keys - {k};
      assert |rest| == |rest.Keys| && |keys| == |keys.Keys|;
      forall i | i in ids - {keys[k]} ensures exists k' :: k' in rest && rest[k'] == i {
        var k' :| k' in keys && keys[k'] == i;
        assert k' in rest;
      }
      SameSize(rest, ids - {keys[k]});
    }
  }

  /** The keys some registration of the run was accepted under. */
  ghost function AcceptedKeys(w: World, steps: seq<Step>, j: JobId): set<string> {
    if steps == [] then {}
    else
      var front, last := steps[..|steps| - 1], steps[|steps| - 1];
      var v := Play(w, front, j);
      AcceptedKeys(w, front, j) +
      if last.Act? && last.action.DoRegister? && Attempt(v.db, v.now, last.action).Success? then {last.action.key} else {}
  }

  lemma KeysAfter(v: World, s: Step, j: JobId)
    ensures Next(v, s, j).db.jobByKey.Keys == v.db.jobByKey.Keys +
              if s.Act? && s.action.DoRegister? && Attempt(v.db, v.now, s.action).Success? then {s.action.key} else {}
  {
    if s.Act? && Attempt(v.db, v.now, s.action).Success? {
      if !s.action.DoRegister? {
        OthersKeepKeys(v.db, v.now, s.action);
      } else {
        RegisteredKeys(v.db, s.action.name, s.action.request, s.action.key, s.action.newJob, v.now);
      }
    }
  }

  lemma RegisteredKeys(db: Db, name: string, request: Request, key: string, j: JobId, now: Time)
    requires Register(db, name, request, key, j, now).Success?
    ensures Register(db, name, request, key, j, now).value.jobByKey.Keys == db.jobByKey.Keys + {key}
  {
  }

  lemma {:induction false} KeysAreAccepted(steps: seq<Step>, j: JobId)
    ensures Play(START, steps, j).db.jobByKey.Keys == AcceptedKeys(START, steps, j)
  {
    if steps != [] {
      KeysAreAccepted(steps[..|steps| - 1], j);
      KeysAfter(Play(START, steps[..|steps| - 1], j), steps[|steps| - 1], j);
    }
  }

  /** In every run there are as many jobs as distinct keys were accepted. */
  lemma JobsCountAcceptedKeys(steps: seq<Step>, j: JobId)
    requires WorkerStages(steps)
    ensures |Play(START, steps, j).db.jobs| == |AcceptedKeys(START, steps, j)|
  {
    ReachableOk(steps, j);
    KeysAreAccepted(steps, j);
    var db := Play(START, steps, j).db;
    forall k | k in db.jobByKey ensures db.jobByKey[k] in db.jobs.Keys && db.jobs[db.jobByKey[k]].key == k { assert KeyOk(db, k); }
    forall i | i in db.jobs.Keys ensures exists k :: k in db.jobByKey && db.jobByKey[k] == i {
      assert JobOk(db, i);
      assert db.jobs[i].key in db.jobByKey;
    }
    SameSize(db.jobByKey, db.jobs.Keys);
    assert |db.jobByKey.Keys| == |db.jobByKey| && |db.jobs.Keys| == |db.jobs|;
  }
}
