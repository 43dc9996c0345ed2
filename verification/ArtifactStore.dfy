/** The content-addressed artifact store as directories that are written, renamed and removed
    one step at a time, with a crash or a write error possible at each step (jit-artifact,
    lib.rs).  One writer at a time; new artifacts only. */
module ArtifactStore {
  import opened Wrappers
  import opened ArtifactTypes
  import ToolCalls

  datatype DirName = Final(digest: Digest) | Temporary(id: nat)

  /** A directory holding the first `files` of the seven files rendered from a bundle; the
      first of them is bundle.json. */
  datatype Directory = Directory(bundle: Bundle, files: nat)

  const FILES: nat := 7

  /** The step at which a put stops: 0 creates the temporary directory, 1 to 7 write a file, 8
      renames.  After a crash nothing more runs; after an error the writer cleans up. */
  datatype Fault = Fault(step: nat, crash: bool)

  datatype StoreFailure = InvalidSource | Interrupted | Missing | DigestMismatch

  datatype StoredArtifact = StoredArtifact(digest: Digest, bundle: Bundle)

  datatype NewArtifact = NewArtifact(
    inputFormat: IoFormat,
    outputFormat: IoFormat,
    contract: Contract,
    source: string,
    tests: seq<TestCase>,
    validation: Validation,
    grants: seq<Grant>)

  function BundleOf(a: NewArtifact): Bundle {
    Bundle(Manifest(a.inputFormat, a.outputFormat, SourceHash(a.source), a.grants), a.contract, a.source, a.tests, a.validation)
  }

  // ---------------------------------------------------------------- the contents of a store

  type Contents = map<Digest, Bundle>

  /** Every entry is filed under the digest of its payload. */
  ghost predicate Addressed(c: Contents) {
    forall d | d in c :: SemanticDigest(c[d]) == d
  }

  /** The first bundle of a payload is the one that stays. */
  function WithBundle(c: Contents, b: Bundle): Contents {
    if SemanticDigest(b) in c then c else c[SemanticDigest(b) := b]
  }

  datatype StoreStep = PutStep(bundle: Bundle) | InterruptedStep | RemoveStep(digest: Digest)

  function StoreNext(c: Contents, s: StoreStep): Contents {
    match s
    case PutStep(b) => WithBundle(c, b)
    case InterruptedStep => c
    case RemoveStep(d) => c - {d}
  }

  function StoreRun(c: Contents, steps: seq<StoreStep>): Contents {
    if steps == [] then c else StoreNext(StoreRun(c, steps[..|steps| - 1]), steps[|steps| - 1])
  }

  // ---------------------------------------------------------------- what an entry is made of

  /** The counters of a validation that enter the digest. */
  predicate SameCounters(v: Validation, x: Validation) {
    && v.testsTotal == x.testsTotal && v.testsPassed == x.testsPassed
    && v.repairRounds == x.repairRounds && v.agentTurns == x.agentTurns
    && v.generatedTestCorrections == x.generatedTestCorrections && v.probesRun == x.probesRun
  }

  /** The bundle has the formats, grants, contract, source, tests and addressed counters of a. */
  predicate Carries(b: Bundle, a: NewArtifact) {
    && b.manifest.inputFormat == a.inputFormat && b.manifest.outputFormat == a.outputFormat && b.manifest.grants == a.grants
    && b.source == a.source && b.manifest.sourceHash.source == a.source
    && b.contract == a.contract && b.tests == a.tests && SameCounters(b.validation, a.validation)
  }

  /** The artifacts agree in all of these. */
  predicate SameArtifact(a: NewArtifact, x: NewArtifact) {
    && a.inputFormat == x.inputFormat && a.outputFormat == x.outputFormat && a.grants == x.grants
    && a.source == x.source && a.contract == x.contract && a.tests == x.tests && SameCounters(a.validation, x.validation)
  }

  function DigestOf(a: NewArtifact): Digest {
    SemanticDigest(BundleOf(a))
  }

  /** Two artifacts share a digest exactly when they agree in every addressed field, and a bundle
      has the digest of an artifact exactly when it carries those fields. */
  lemma DigestsExactly(a: NewArtifact, x: NewArtifact, b: Bundle)
    ensures DigestOf(a) == DigestOf(x) <==> SameArtifact(a, x)
    ensures SemanticDigest(b) == DigestOf(a) <==> Carries(b, a)
  {
  }

  /** Two puts share an entry exactly when their artifacts agree in every addressed field, whatever
      happens in between short of a removal; each then loads a bundle that carries its fields, and
      a new entry keeps the whole validation of the put that made it. */
  lemma {:induction false} PutsShareExactly(c: Contents, first: NewArtifact, steps: seq<StoreStep>, second: NewArtifact)
    requires Addressed(c) && RemoveStep(DigestOf(first)) !in steps
    ensures var c1 := WithBundle(c, BundleOf(first)); var c2 := StoreRun(c1, steps); var c3 := WithBundle(c2, BundleOf(second));
            && (DigestOf(first) == DigestOf(second) <==> SameArtifact(first, second))
            && DigestOf(first) in c3 && Carries(c3[DigestOf(first)], first)
            && DigestOf(second) in c3 && Carries(c3[DigestOf(second)], second)
            && (DigestOf(first) !in c ==> c3[DigestOf(first)].validation == first.validation)
            && (DigestOf(second) !in c2 ==> c3[DigestOf(second)].validation == second.validation)
  {
    var c1 := WithBundle(c, BundleOf(first));
    EntryStays(c1, steps, DigestOf(first));
    var c2 := StoreRun(c1, steps);
    var c3 := WithBundle(c2, BundleOf(second));
    assert Addressed(c3);
    DigestsExactly(first, second, c3[DigestOf(first)]);
    DigestsExactly(second, first, c3[DigestOf(second)]);
  }

  lemma {:induction false} EntryStays(c: Contents, steps: seq<StoreStep>, d: Digest)
    requires Addressed(c) && d in c && RemoveStep(d) !in steps
    ensures var c' := StoreRun(c, steps); Addressed(c') && d in c' && c'[d] == c[d]
  {
    if steps != [] {
      assert steps[|steps| - 1] in steps;
      EntryStays(c, steps[..|steps| - 1], d);
    }
  }

  /** Bundles that differ only in input samples and time of validation share their payload. */
  lemma UnaddressedFields(b: Bundle, total: nat, passed: nat, at: int, c: Contents)
    requires Addressed(c) && SemanticDigest(b) !in c
    ensures var b' := b.(validation := b.validation.(inputSamplesTotal := total, inputSamplesPassed := passed, validatedAt := at));
            SemanticDigest(b') == SemanticDigest(b) && WithBundle(WithBundle(c, b), b')[SemanticDigest(b')] == b
  {
  }

  // ---------------------------------------------------------------- the store

  class Store {
    var dirs: map<DirName, Directory>

    /** Every directory with a final name is complete and filed under its own digest. */
    ghost predicate Valid()
      reads this
    {
      forall d | Final(d) in dirs :: dirs[Final(d)].files == FILES && SemanticDigest(dirs[Final(d)].bundle) == d
    }

    ghost function View(): (c: Contents)
      reads this
    {
      ViewOf(dirs)
    }

    constructor ()
      ensures Valid() && View() == map[]
    {
      dirs := map[];
    }

    /** One fs::write into the temporary directory t. */
    method WriteFile(t: nat, n: nat, fault: Option<Fault>)
      returns (ok: bool)
      requires Temporary(t) in dirs && dirs[Temporary(t)].files == n
      modifies this
      ensures ok == !(fault.Some? && fault.value.step == n + 1)
      ensures dirs == if ok then old(dirs)[Temporary(t) := old(dirs)[Temporary(t)].(files := n + 1)] else old(dirs)
    {
      ok := !(fault.Some? && fault.value.step == n + 1);
      if ok {
        dirs := dirs[Temporary(t) := dirs[Temporary(t)].(files := n + 1)];
      }
    }

    /** The seven writes, stopping at the first that fails. */
    method WriteFiles(t: nat, fault: Option<Fault>)
      returns (ok: bool)
      requires Temporary(t) in dirs && dirs[Temporary(t)].files == 0
      modifies this
      ensures Temporary(t) in dirs && dirs == old(dirs)[Temporary(t) := dirs[Temporary(t)]]
      ensures dirs[Temporary(t)].bundle == old(dirs)[Temporary(t)].bundle
      ensures ok ==> dirs[Temporary(t)].files == FILES
      ensures ok <==> !(fault.Some? && 1 <= fault.value.step <= FILES)
    {
      ok := WriteFile(t, 0, fault);
      if ok { ok := WriteFile(t, 1, fault); }
      if ok { ok := WriteFile(t, 2, fault); }
      if ok { ok := WriteFile(t, 3, fault); }
      if ok { ok := WriteFile(t, 4, fault); }
      if ok { ok := WriteFile(t, 5, fault); }
      if ok { ok := WriteFile(t, 6, fault); }
    }

    /** An artifact is written under a temporary name and renamed when it is complete.  An
        interrupted put leaves the contents alone; only a crash leaves a temporary directory. */
    method Put(a: NewArtifact, t: nat, fault: Option<Fault>)
      returns (r: Result<StoredArtifact, StoreFailure>)
      requires Valid() && Temporary(t) !in dirs
      modifies this
      ensures Valid()
      ensures var b := BundleOf(a); var d := SemanticDigest(b);
              if !ToolCalls.ValidSource(a.source) then r == Failure(InvalidSource) && dirs == old(dirs)
              else if d in old(View()) then r == Success(StoredArtifact(d, old(View())[d])) && dirs == old(dirs)
              else if fault.Some? && fault.value.step <= FILES + 1 then r == Failure(Interrupted) && View() == old(View())
              else r == Success(StoredArtifact(d, b)) && View() == WithBundle(old(View()), b)
      ensures r.Success? ==>
                && r.value.digest in View() && View()[r.value.digest] == r.value.bundle && Carries(r.value.bundle, a)
                && (r.value.digest !in old(View()) ==> r.value.bundle.validation == a.validation)
                && (forall d | d in View() && d != r.value.digest :: d in old(View()) && View()[d] == old(View())[d])
      ensures forall n | n in dirs && n.Temporary? && n !in old(dirs) :: n == Temporary(t) && fault.Some? && fault.value.crash
    {
      if !ToolCalls.ValidSource(a.source) { return Failure(InvalidSource); }
      var b := BundleOf(a);
      var d := SemanticDigest(b);
      if Final(d) in dirs {
        r := Load(d);
        DigestsExactly(a, a, dirs[Final(d)].bundle);
        return;
      }
      if fault.Some? && fault.value.step == 0 { return Failure(Interrupted); }
      dirs := dirs[Temporary(t) := Directory(b, 0)];
      var ok := WriteFiles(t, fault);
      if ok && fault.Some? && fault.value.step == FILES + 1 { ok := false; }
      if ok {
        RenamedView(dirs, old(dirs), t, b);
        DigestsExactly(a, a, b);
        dirs := (dirs - {Temporary(t)})[Final(d) := dirs[Temporary(t)]];
        return Success(StoredArtifact(d, b));
      }
      SameView(dirs, old(dirs), t);
      if !fault.value.crash {
        SameView(dirs - {Temporary(t)}, old(dirs), t);
        dirs := dirs - {Temporary(t)};
      }
      return Failure(Interrupted);
    }

    /** An entry is read back and its digest recomputed. */
    method Load(d: Digest)
      returns (r: Result<StoredArtifact, StoreFailure>)
      requires Valid()
      ensures r == if d in View() then Success(StoredArtifact(d, View()[d])) else Failure(Missing)
    {
      if Final(d) !in dirs || dirs[Final(d)].files == 0 { return Failure(Missing); }
      var b := dirs[Final(d)].bundle;
      if SemanticDigest(b) != d { return Failure(DigestMismatch); }
      return Success(StoredArtifact(d, b));
    }

    method Remove(d: Digest)
      returns (removed: bool)
      requires Valid()
      modifies this
      ensures Valid() && removed == (d in old(View())) && View() == old(View()) - {d}
      ensures dirs == old(dirs) - {Final(d)}
    {
      if Final(d) !in dirs {
        assert dirs == dirs - {Final(d)};
        return false;
      }
      dirs := dirs - {Final(d)};
      return true;
    }

    /** The complete artifacts, each once. */
    method ListDigests()
      returns (digests: seq<Digest>)
      requires Valid()
      ensures forall d :: d in digests <==> d in View()
      ensures forall i, k | 0 <= i < k < |digests| :: digests[i] != digests[k]
    {
      digests := [];
      var entries := dirs.Keys;
      while entries != {}
        invariant entries <= dirs.Keys
        invariant forall d :: d in digests <==> Final(d) in dirs.Keys - entries
        invariant forall i, k | 0 <= i < k < |digests| :: digests[i] != digests[k]
      {
        var name :| name in entries;
        entries := entries - {name};
        if name.Final? {
          digests := digests + [name.digest];
        }
      }
    }

    /** Interrupted writes are removed and counted; complete artifacts are not touched. */
    method CleanupTemporary()
      returns (removed: nat)
      requires Valid()
      modifies this
      ensures Valid() && View() == old(View())
      ensures forall n | n in dirs :: n.Final?
      ensures removed == |Leftovers(old(dirs).Keys)|
    {
      removed := 0;
      var entries := dirs.Keys;
      ghost var gone: set<DirName> := {};
      while entries != {}
        invariant entries <= old(dirs).Keys
        invariant gone == Leftovers(old(dirs).Keys - entries)
        invariant dirs == old(dirs) - gone && removed == |gone|
        decreases |entries|
      {
        var name :| name in entries;
        OneMoreEntry(old(dirs).Keys, entries, name);
        entries := entries - {name};
        if name.Temporary? {
          dirs := dirs - {name};
          gone := gone + {name};
          removed := removed + 1;
        }
      }
      assert old(dirs).Keys - entries == old(dirs).Keys;
    }
  }

  /** The directories that an interrupted write left behind. */
  function Leftovers(names: set<DirName>): set<DirName> {
    set n | n in names && n.Temporary?
  }

  lemma OneMoreEntry(all: set<DirName>, entries: set<DirName>, name: DirName)
    requires name in entries && entries <= all
    ensures Leftovers(all - (entries - {name})) == Leftovers(all - entries) + if name.Temporary? then {name} else {}
    ensures name !in Leftovers(all - entries)
  {
  }

  /** Temporary directories are not part of the contents. */
  lemma SameView(dirs: map<DirName, Directory>, was: map<DirName, Directory>, t: nat)
    requires dirs - {Temporary(t)} == was - {Temporary(t)}
    ensures ViewOf(dirs) == ViewOf(was)
  {
    forall n: DirName | n.Final? ensures (n in dirs <==> n in was) && (n in was ==> dirs[n] == was[n]) {
      assert n in dirs <==> n in dirs - {Temporary(t)};
      assert n in was ==> dirs[n] == (dirs - {Temporary(t)})[n];
    }
  }

  /** The rename adds the bundle to the contents. */
  lemma RenamedView(dirs: map<DirName, Directory>, was: map<DirName, Directory>, t: nat, b: Bundle)
    requires Temporary(t) in dirs && dirs[Temporary(t)].bundle == b && Final(SemanticDigest(b)) !in was
    requires dirs - {Temporary(t)} == was - {Temporary(t)}
    ensures ViewOf((dirs - {Temporary(t)})[Final(SemanticDigest(b)) := dirs[Temporary(t)]]) == WithBundle(ViewOf(was), b)
  {
    SameView(dirs, was, t);
  }

  /** The bundles under final names. */
  ghost function ViewOf(dirs: map<DirName, Directory>): Contents {
    map n | n in dirs && n.Final? :: n.digest := dirs[n].bundle
  }
}
