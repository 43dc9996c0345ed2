/** The approval gate before an execution: what the count of approved capabilities means. */
module Approvals {
  import opened ArtifactTypes
  import opened AgentTypes
  import opened Schema
  import opened Transactions
  import opened ToolCalls
  import opened PlanIntegrity
  import opened Histories

  predicate Distinct(hashes: seq<CapabilityHash>) {
    forall i, k | 0 <= i < k < |hashes| :: hashes[i] != hashes[k]
  }

  function Elements(hashes: seq<CapabilityHash>): set<CapabilityHash> {
    set h | h in hashes
  }

  lemma {:induction false} FewElements(hashes: seq<CapabilityHash>)
    ensures |Elements(hashes)| <= |hashes|
    ensures |Elements(hashes)| == |hashes| <==> Distinct(hashes)
  {
    if hashes != [] {
      var front, last := hashes[..|hashes| - 1], hashes[|hashes| - 1];
      FewElements(front);
      assert hashes == front + [last];
      assert Elements(hashes) == Elements(front) + {last};
      if last in front {
        assert Elements(hashes) == Elements(front);
        assert !Distinct(hashes);
      } else {
        assert |Elements(hashes)| == |Elements(front)| + 1;
        assert Distinct(hashes) <==> Distinct(front) by {
          if Distinct(front) {
            forall i, k | 0 <= i < k < |hashes| ensures hashes[i] != hashes[k] {
              assert hashes[i] == front[i];
              assert k < |front| ==> hashes[k] == front[k];
            }
          }
          if Distinct(hashes) {
            forall i, k | 0 <= i < k < |front| ensures front[i] != front[k] {
              assert hashes[i] == front[i] && hashes[k] == front[k];
            }
          }
        }
      }
    }
  }

  /** The count of active rows equals the length of a list exactly when the list has no
      duplicate and every entry is active. */
  lemma CountMeansAllActive(db: Db, hashes: seq<CapabilityHash>)
    ensures AllCapabilitiesApproved(db, hashes) <==>
              Distinct(hashes) && forall i | 0 <= i < |hashes| :: ActiveCapability(db, hashes[i])
  {
    var active := set h | h in hashes && ActiveCapability(db, h);
    FewElements(hashes);
    assert active <= Elements(hashes);
    if forall i | 0 <= i < |hashes| :: ActiveCapability(db, hashes[i]) {
      assert active == Elements(hashes);
    } else {
      var i :| 0 <= i < |hashes| && !ActiveCapability(db, hashes[i]);
      assert hashes[i] in Elements(hashes) - active;
      assert active < Elements(hashes);
      ProperSubsetIsSmaller(active, Elements(hashes));
    }
  }

  lemma ProperSubsetIsSmaller(a: set<CapabilityHash>, b: set<CapabilityHash>)
    requires a < b
    ensures |a| < |b|
  {
    assert b == a + (b - a);
    assert b - a != {};
  }

  // ---------------------------------------------------------------- the gate

  function GrantHashes(grants: seq<Grant>): seq<CapabilityHash> {
    seq(|grants|, i requires 0 <= i < |grants| => grants[i].approvalHash)
  }

  /** execute_inner runs a stored artifact only if this holds. */
  predicate GateOpen(db: Db, manifest: Manifest) {
    manifest.grants == [] || AllCapabilitiesApproved(db, GrantHashes(manifest.grants))
  }

  /** For grants with distinct hashes the gate is open exactly when each of them is active. */
  lemma GateOpenExactly(db: Db, manifest: Manifest)
    requires DistinctHashes(manifest.grants)
    ensures GateOpen(db, manifest) <==>
              forall i | 0 <= i < |manifest.grants| :: ActiveCapability(db, manifest.grants[i].approvalHash)
  {
    var hashes := GrantHashes(manifest.grants);
    CountMeansAllActive(db, hashes);
    if forall i | 0 <= i < |hashes| :: ActiveCapability(db, hashes[i]) {
      forall i | 0 <= i < |manifest.grants| ensures ActiveCapability(db, manifest.grants[i].approvalHash) {
        assert hashes[i] == manifest.grants[i].approvalHash;
      }
    }
  }

  /** Every candidate of a reachable workspace passes the gate exactly when all its grants are
      active: requests, releases and replays keep their hashes distinct. */
  lemma CandidateGate(db: Db, task: Request, ws: Workspace, audit: Audit, draft: Draft, source: string, now: int)
    requires AgentOk(task, ws, audit)
    ensures GateOpen(db, CandidateBundle(task, ws, draft, source, now).manifest) <==>
              forall i | 0 <= i < |ws.httpCapabilities| :: ActiveCapability(db, ws.httpCapabilities[i].approvalHash)
  {
    GateOpenExactly(db, CandidateBundle(task, ws, draft, source, now).manifest);
  }

  predicate NeverApproves(steps: seq<Step>, hash: CapabilityHash) {
    forall i | 0 <= i < |steps| :: steps[i] != Act(DoApproveCapability(hash))
  }

  lemma OthersKeepApprovals(db: Db, now: Time, a: Action, hash: CapabilityHash)
    requires Attempt(db, now, a).Success? && a != DoApproveCapability(hash) && !ActiveCapability(db, hash)
    ensures !ActiveCapability(Attempt(db, now, a).value, hash)
  {
    match a
    case DoApproveCapability(_) =>
    case DoRevokeCapability(_, _) =>
    case DoRegister(_, _, _, _) =>
    case DoPublish(j, w, artifact) => PublishedIndexes(db, j, w, artifact, now);
    case _ => IndexesKept(db, now, a);
  }

  lemma {:induction false} InactiveStays(w: World, steps: seq<Step>, j: JobId, hash: CapabilityHash)
    requires !ActiveCapability(w.db, hash) && NeverApproves(steps, hash)
    ensures !ActiveCapability(Play(w, steps, j).db, hash)
  {
    if steps != [] {
      var front, last := steps[..|steps| - 1], steps[|steps| - 1];
      assert forall i | 0 <= i < |front| :: front[i] == steps[i];
      InactiveStays(w, front, j, hash);
      var v := Play(w, front, j);
      if last.Act? && Attempt(v.db, v.now, last.action).Success? {
        OthersKeepApprovals(v.db, v.now, last.action, hash);
      }
    }
  }

  /** Once one of its capabilities is revoked, an artifact stays closed through every run in
      which that capability is not approved again. */
  lemma RevokedCapabilityClosesGate(w: World, steps: seq<Step>, j: JobId, hash: CapabilityHash, reason: string,
                                    manifest: Manifest, i: nat)
    requires RevokeCapability(w.db, hash, reason).Success? && NeverApproves(steps, hash)
    requires i < |manifest.grants| && manifest.grants[i].approvalHash == hash
    ensures var w1 := Next(w, Act(DoRevokeCapability(hash, reason)), j);
            !GateOpen(Play(w1, steps, j).db, manifest)
  {
    var w1 := Next(w, Act(DoRevokeCapability(hash, reason)), j);
    InactiveStays(w1, steps, j, hash);
    var db := Play(w1, steps, j).db;
    CountMeansAllActive(db, GrantHashes(manifest.grants));
    assert GrantHashes(manifest.grants)[i] == hash;
  }
}
