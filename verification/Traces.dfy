/** The trace of a job: its byte budget, and what compaction conserves. */
module Traces {
  import opened Wrappers
  import opened AgentTypes
  import opened Schema
  import opened Transactions
  import opened Coherence
  import opened Effects
  import opened Histories
  import opened Endings
  import opened Revisions

  function TraceBytes(db: Db, j: JobId): int {
    if j in db.runs then db.runs[j].traceBytes else 0
  }

  // ---------------------------------------------------------------- what a transaction appends

  datatype Emission = Emission(job: JobId, kind: string, bytes: nat, limit: int)

  /** The event a transaction tries to append. */
  function Emits(db: Db, a: Action): Option<Emission> {
    match a
    case DoSuspend(j, _, input) =>
      if InputKey(j, input.call) in db.inputs then None
      else Some(Emission(j, "input_requested", input.bytes, ORDINARY_LIMIT))
    case DoAnswer(j, _, _, bytes) => Some(Emission(j, "input_answered", bytes, ORDINARY_LIMIT))
    case DoAppendEvent(j, _, kind, bytes) => Some(Emission(j, kind, bytes, ORDINARY_LIMIT))
    case DoCancel(j, _, bytes) => Some(Emission(j, "job_cancelled", bytes, TRACE_LIMIT))
    case DoPublish(j, _, _) => Some(Emission(j, "candidate_validated", PUBLISH_BYTES, TRACE_LIMIT))
    case _ => None
  }

  ghost predicate Quiet(db: Db, d: Db) {
    && d.events == db.events && d.nextEvent == db.nextEvent && d.archives == db.archives
    && forall i :: TraceBytes(d, i) == TraceBytes(db, i)
  }

  ghost predicate Adds(db: Db, d: Db, e: Event) {
    && e.id == db.nextEvent && d.events == db.events + [e] && d.nextEvent == db.nextEvent + 1 && d.archives == db.archives
    && TraceBytes(d, e.job) == TraceBytes(db, e.job) + PayloadSize(e.payload)
    && forall i | i != e.job :: TraceBytes(d, i) == TraceBytes(db, i)
  }

  ghost predicate Emitted(db: Db, d: Db, e: Emission) {
    var p := RecordedPayload(e.bytes, e.limit - TraceBytes(db, e.job));
    if p.None? then Quiet(db, d) else Adds(db, d, Event(db.nextEvent, e.job, e.kind, p.value))
  }

  lemma AppendEmits(db: Db, db1: Db, j: JobId, kind: string, bytes: nat, limit: int)
    requires Quiet(db, db1) && AppendEvent(db1, j, kind, bytes, limit).Success?
    ensures Emitted(db, AppendEvent(db1, j, kind, bytes, limit).value, Emission(j, kind, bytes, limit))
  {
    var p := RecordedPayload(bytes, limit - db1.runs[j].traceBytes);
    assert TraceBytes(db1, j) == TraceBytes(db, j);
    if p.None? {
      assert AppendEvent(db1, j, kind, bytes, limit) == Success(db1);
    } else {
      WithEventAdds(db1, j, kind, p.value);
      assert AppendEvent(db1, j, kind, bytes, limit) == Success(WithEvent(db1, j, kind, p.value));
    }
  }

  lemma WithEventAdds(db: Db, j: JobId, kind: string, p: EventPayload)
    requires j in db.runs
    ensures Adds(db, WithEvent(db, j, kind, p), Event(db.nextEvent, j, kind, p))
  {
  }

  /** Changing a job afterwards, or rows before, emits nothing more. */
  lemma SameTraceQuiet(db: Db, d: Db)
    requires d.events == db.events && d.nextEvent == db.nextEvent && d.archives == db.archives && d.runs == db.runs
    ensures Quiet(db, d)
  {
  }

  lemma SuspendEmits(db: Db, j: JobId, w: WorkerId, input: NewInput, now: Time)
    requires Suspend(db, j, w, input, now).Success?
    ensures var d := Suspend(db, j, w, input, now).value;
            if InputKey(j, input.call) in db.inputs then Quiet(db, d)
            else Emitted(db, d, Emission(j, "input_requested", input.bytes, ORDINARY_LIMIT))
  {
    if InputKey(j, input.call) !in db.inputs {
      var db1 := db.(inputs := db.inputs[InputKey(j, input.call) := Input(input.id, input.kind, input.context, db.jobs[j].stage, None)],
                     pendingCall := db.pendingCall[j := input.call]);
      SameTraceQuiet(db, db1);
      var r := AppendEvent(db1, j, "input_requested", input.bytes, ORDINARY_LIMIT);
      AppendEmits(db, db1, j, "input_requested", input.bytes, ORDINARY_LIMIT);
      SameTraceEmits(db, r.value, Suspend(db, j, w, input, now).value,
                     Emission(j, "input_requested", input.bytes, ORDINARY_LIMIT));
    }
  }

  lemma SameTraceEmits(db: Db, d: Db, d': Db, e: Emission)
    requires Emitted(db, d, e)
    requires d'.events == d.events && d'.nextEvent == d.nextEvent && d'.archives == d.archives && d'.runs == d.runs
    ensures Emitted(db, d', e)
  {
    assert forall i :: TraceBytes(d', i) == TraceBytes(d, i);
  }

  lemma AnswerEmits(db: Db, j: JobId, id: InputId, answer: Answer, bytes: nat, now: Time)
    requires AnswerInput(db, j, id, answer, bytes, now).Success?
    ensures Emitted(db, AnswerInput(db, j, id, answer, bytes, now).value, Emission(j, "input_answered", bytes, ORDINARY_LIMIT))
  {
    var input := db.inputs[InputKey(j, db.pendingCall[j])];
    var row := db.jobs[j].(status := Queued, stage := input.resumeStage, availableAt := now, worker := None,
                           leaseUntil := None, updatedAt := now);
    var db1 := WithJob(CloseInput(db, j, answer), j, row);
    SameTraceQuiet(db, db1);
    AppendEmits(db, db1, j, "input_answered", bytes, ORDINARY_LIMIT);
  }

  lemma CancelEmits(db: Db, j: JobId, reason: string, bytes: nat, now: Time)
    requires Cancel(db, j, reason, bytes, now).Success?
    ensures Emitted(db, Cancel(db, j, reason, bytes, now).value, Emission(j, "job_cancelled", bytes, TRACE_LIMIT))
  {
    CancelledQuiet(db, j, reason, now);
    AppendEmits(db, CancelledDb(db, j, reason, now), j, "job_cancelled", bytes, TRACE_LIMIT);
  }

  lemma CancelledQuiet(db: Db, j: JobId, reason: string, now: Time)
    requires j in db.jobs
    ensures Quiet(db, CancelledDb(db, j, reason, now))
  {
    CancelledEffect(db, j, reason, now);
  }

  lemma PublishEmits(db: Db, j: JobId, w: WorkerId, a: PublishedArtifact, now: Time)
    requires Publish(db, j, w, a, now).Success?
    ensures Emitted(db, Publish(db, j, w, a, now).value, Emission(j, "candidate_validated", PUBLISH_BYTES, TRACE_LIMIT))
  {
    SameTraceQuiet(db, PublishedDb(db, j, a, now));
    AppendEmits(db, PublishedDb(db, j, a, now), j, "candidate_validated", PUBLISH_BYTES, TRACE_LIMIT);
  }

  lemma SilentAction(db: Db, now: Time, a: Action)
    requires Attempt(db, now, a).Success? && !a.DoCompact?
    requires !(a.DoSuspend? || a.DoAnswer? || a.DoCancel? || a.DoAppendEvent? || a.DoPublish?)
    ensures Quiet(db, Attempt(db, now, a).value)
  {
    match a
    case DoSaveCheckpoint(_, _, _) =>
    case DoClaim(j, w) => ClaimEffect(db, j, w, now);
    case DoSetStage(j, w, stage) => SetStageEffect(db, j, w, stage, now);
    case DoReject(j, w) => RejectEffect(db, j, w, now);
    case DoRegister(_, _, _, _) => SameTraceQuiet(db, Attempt(db, now, a).value);
    case DoRevoke(_, _) => SameTraceQuiet(db, Attempt(db, now, a).value);
    case _ =>
  }

  /** A committed transaction other than a compaction records its event, as the budget allows,
      and otherwise leaves all traces alone. */
  lemma TraceEffect(db: Db, now: Time, a: Action)
    requires Attempt(db, now, a).Success? && !a.DoCompact?
    ensures var d := Attempt(db, now, a).value;
            if Emits(db, a).Some? then Emitted(db, d, Emits(db, a).value) else Quiet(db, d)
  {
    match a
    case DoSuspend(j, w, input) => SuspendEmits(db, j, w, input, now);
    case DoAnswer(j, id, answer, bytes) => AnswerEmits(db, j, id, answer, bytes, now);
    case DoCancel(j, reason, bytes) => CancelEmits(db, j, reason, bytes, now);
    case DoAppendEvent(j, _, kind, bytes) => AppendEmits(db, db, j, kind, bytes, ORDINARY_LIMIT);
    case DoPublish(j, w, artifact) => PublishEmits(db, j, w, artifact, now);
    case _ => SilentAction(db, now, a);
  }

  // ---------------------------------------------------------------- the budget

  /** The log of job j: every event ever recorded for it, in order. */
  function NewEvents(db: Db, d: Db, j: JobId): seq<Event> {
    if d.nextEvent > db.nextEvent && d.events != [] && d.events[|d.events| - 1].job == j then [d.events[|d.events| - 1]] else []
  }

  function LogOf(w: World, steps: seq<Step>, j: JobId): seq<Event> {
    if steps == [] then []
    else
      var front := steps[..|steps| - 1];
      var v := Play(w, front, j);
      LogOf(w, front, j) + NewEvents(v.db, Next(v, steps[|steps| - 1], j).db, j)
  }

  function Total(log: seq<Event>): int {
    if log == [] then 0 else Total(log[..|log| - 1]) + PayloadSize(log[|log| - 1].payload)
  }

  predicate BudgetOk(db: Db, j: JobId) {
    && 0 <= TraceBytes(db, j) <= TRACE_LIMIT
    && (j in db.jobs && !Terminal(db.jobs[j].status) ==> TraceBytes(db, j) <= ORDINARY_LIMIT)
    && (j !in db.jobs ==> TraceBytes(db, j) == 0)
  }

  lemma PayloadFits(bytes: nat, remaining: int)
    ensures var p := RecordedPayload(bytes, remaining); p.Some? ==> 0 <= PayloadSize(p.value) <= remaining
  {
  }

  lemma EmittedWithinLimit(db: Db, d: Db, e: Emission)
    requires Emitted(db, d, e) && BudgetOk(db, e.job) && e.limit <= TRACE_LIMIT
    ensures 0 <= TraceBytes(d, e.job) <= TRACE_LIMIT
    ensures TraceBytes(d, e.job) <= e.limit || TraceBytes(d, e.job) == TraceBytes(db, e.job)
  {
    PayloadFits(e.bytes, e.limit - TraceBytes(db, e.job));
  }

  /** Only a transaction that ends the job may use the reserve. */
  lemma ReserveEndsJob(db: Db, now: Time, a: Action, j: JobId)
    requires Attempt(db, now, a).Success? && JobOf(a) == Some(j)
    requires Emits(db, a).Some? && Emits(db, a).value.limit != ORDINARY_LIMIT
    ensures var d := Attempt(db, now, a).value; j in d.jobs && Terminal(d.jobs[j].status)
  {
    match a
    case DoCancel(_, reason, bytes) => CancelEffect(db, j, reason, bytes, now);
    case DoPublish(_, w, artifact) => PublishEffect(db, j, w, artifact, now);
  }

  /** An event of job j, or none at all. */
  lemma OwnBudgetStep(db: Db, now: Time, a: Action, j: JobId)
    requires Coherent(db) && BudgetOk(db, j) && Attempt(db, now, a).Success? && JobOf(a) == Some(j)
    ensures BudgetOk(Attempt(db, now, a).value, j)
  {
    var d := Attempt(db, now, a).value;
    TraceEffect(db, now, a);
    OwnIdentityKept(db, now, a, j);
    if j in db.jobs && Terminal(db.jobs[j].status) { TerminalRowKept(db, now, a, j); }
    if Emits(db, a).Some? {
      EmittedWithinLimit(db, d, Emits(db, a).value);
      EmitterExists(db, now, a, j);
      if Emits(db, a).value.limit != ORDINARY_LIMIT { ReserveEndsJob(db, now, a, j); }
    }
  }

  lemma EmitterExists(db: Db, now: Time, a: Action, j: JobId)
    requires Attempt(db, now, a).Success? && Emits(db, a).Some? && JobOf(a) == Some(j)
    ensures j in db.jobs && Emits(db, a).value.job == j
  {
    match a
    case DoAppendEvent(_, _, _, _) =>
    case _ => EmitsWhileLive(db, now, a, j);
  }

  lemma BudgetStep(db: Db, now: Time, a: Action, j: JobId)
    requires Coherent(db) && BudgetOk(db, j) && Attempt(db, now, a).Success?
    ensures BudgetOk(Attempt(db, now, a).value, j)
  {
    if JobOf(a) == Some(j) {
      OwnBudgetStep(db, now, a, j);
    } else {
      Isolation(db, now, a, j);
    }
  }

  lemma TotalExtends(log: seq<Event>, e: Event)
    ensures Total(log + [e]) == Total(log) + PayloadSize(e.payload)
  {
    assert (log + [e])[..|log|] == log;
  }

  lemma LogAddsBytes(db: Db, d: Db, e: Event, j: JobId, log: seq<Event>)
    requires Adds(db, d, e) && Total(log) == TraceBytes(db, j)
    ensures Total(log + NewEvents(db, d, j)) == TraceBytes(d, j)
  {
    assert d.events[|d.events| - 1] == e;
    if e.job == j {
      assert NewEvents(db, d, j) == [e];
      TotalExtends(log, e);
    } else {
      assert NewEvents(db, d, j) == [];
      assert log + [] == log;
    }
  }

  lemma LogQuietBytes(db: Db, d: Db, j: JobId, log: seq<Event>)
    requires d.nextEvent == db.nextEvent && TraceBytes(d, j) == TraceBytes(db, j) && Total(log) == TraceBytes(db, j)
    ensures Total(log + NewEvents(db, d, j)) == TraceBytes(d, j)
  {
    assert NewEvents(db, d, j) == [];
    assert log + [] == log;
  }

  lemma LogActionBytes(db: Db, now: Time, a: Action, j: JobId, log: seq<Event>)
    requires Attempt(db, now, a).Success? && !a.DoCompact? && Total(log) == TraceBytes(db, j)
    ensures var d := Attempt(db, now, a).value;
            Total(log + NewEvents(db, d, j)) == TraceBytes(d, j)
  {
    var d := Attempt(db, now, a).value;
    TraceEffect(db, now, a);
    if Emits(db, a).Some? {
      EmittedLog(db, d, Emits(db, a).value, j, log);
    } else {
      LogQuietBytes(db, d, j, log);
    }
  }

  lemma EmittedLog(db: Db, d: Db, e: Emission, j: JobId, log: seq<Event>)
    requires Emitted(db, d, e) && Total(log) == TraceBytes(db, j)
    ensures Total(log + NewEvents(db, d, j)) == TraceBytes(d, j)
  {
    var p := RecordedPayload(e.bytes, e.limit - TraceBytes(db, e.job));
    if p.None? {
      LogQuietBytes(db, d, j, log);
    } else {
      LogAddsBytes(db, d, Event(db.nextEvent, e.job, e.kind, p.value), j, log);
    }
  }

  lemma LogStep(v: World, s: Step, j: JobId, log: seq<Event>)
    requires Total(log) == TraceBytes(v.db, j)
    ensures Total(log + NewEvents(v.db, Next(v, s, j).db, j)) == TraceBytes(Next(v, s, j).db, j)
  {
    if s.Act? && Attempt(v.db, v.now, s.action).Success? && !s.action.DoCompact? {
      LogActionBytes(v.db, v.now, s.action, j, log);
    } else {
      LogQuietBytes(v.db, Next(v, s, j).db, j, log);
    }
  }

  /** In every run the byte counter of a job is the total size of its recorded events, is never
      above 512 KiB, and leaves the last 512 bytes free until the job ends. */
  lemma {:induction false} TraceBudget(steps: seq<Step>, j: JobId)
    requires WorkerStages(steps)
    ensures var db := Play(START, steps, j).db;
            TraceBytes(db, j) == Total(LogOf(START, steps, j)) && BudgetOk(db, j)
  {
    if steps != [] {
      var front, last := steps[..|steps| - 1], steps[|steps| - 1];
      assert forall i | 0 <= i < |front| :: front[i] == steps[i];
      TraceBudget(front, j);
      ReachableOk(front, j);
      var v := Play(START, front, j);
      LogStep(v, last, j, LogOf(START, front, j));
      if last.Act? && Attempt(v.db, v.now, last.action).Success? { BudgetStep(v.db, v.now, last.action, j); }
    }
  }

  /** So the event of a publication is always recorded in full, and that of a cancellation in
      full or as the omission marker. */
  lemma EndIsRecorded(steps: seq<Step>, j: JobId, a: Action)
    requires WorkerStages(steps) && (a.DoPublish? || a.DoCancel?) && JobOf(a) == Some(j)
    requires var v := Play(START, steps, j); Attempt(v.db, v.now, a).Success?
    ensures var v := Play(START, steps, j); var d := Attempt(v.db, v.now, a).value;
            && d.events != [] && var e := d.events[|d.events| - 1];
            && d.events == v.db.events + [e] && e.job == j
            && (a.DoPublish? ==> e.kind == "candidate_validated" && e.payload == Whole(PUBLISH_BYTES))
            && (a.DoCancel? ==> e.kind == "job_cancelled" && (e.payload == BoundedPayload(a.bytes) || e.payload == OverBudget))
  {
    TraceBudget(steps, j);
    var v := Play(START, steps, j);
    TraceEffect(v.db, v.now, a);
    EmitsWhileLive(v.db, v.now, a, j);
    EndFits(v.db, Attempt(v.db, v.now, a).value, Emits(v.db, a).value);
  }

  lemma EndFits(db: Db, d: Db, e: Emission)
    requires BudgetOk(db, e.job) && e.job in db.jobs && !Terminal(db.jobs[e.job].status)
    requires Emitted(db, d, e) && e.limit == TRACE_LIMIT
    ensures d.events != [] && var last := d.events[|d.events| - 1];
            && d.events == db.events + [last] && last.job == e.job && last.kind == e.kind
            && (last.payload == BoundedPayload(e.bytes) || last.payload == OverBudget)
            && (e.bytes == PUBLISH_BYTES ==> last.payload == Whole(PUBLISH_BYTES))
  {
    assert OMITTED_BYTES <= TERMINAL_RESERVE && PUBLISH_BYTES <= TERMINAL_RESERVE;
  }

  // ---------------------------------------------------------------- compaction

  lemma EventsOfExtends(events: seq<Event>, e: Event, j: JobId)
    ensures EventsOf(events + [e], j) == EventsOf(events, j) + if e.job == j then [e] else []
  {
    assert (events + [e])[..|events|] == events;
  }

  lemma {:induction false} WithoutArchivedKeeps(events: seq<Event>, archived: set<JobId>, j: JobId)
    ensures EventsOf(WithoutArchived(events, archived), j) == if j in archived then [] else EventsOf(events, j)
  {
    if events != [] {
      var front, e := events[..|events| - 1], events[|events| - 1];
      WithoutArchivedKeeps(front, archived, j);
      EventsOfExtends(front, e, j);
      assert events == front + [e];
      if e.job in archived {
        assert WithoutArchived(events, archived) == WithoutArchived(front, archived);
      } else {
        assert WithoutArchived(events, archived) == WithoutArchived(front, archived) + [e];
        EventsOfExtends(WithoutArchived(front, archived), e, j);
      }
    }
  }

  function ArchiveOf(db: Db, j: JobId): seq<Event> {
    if j in db.archives then db.archives[j] else []
  }

  lemma CompactEffect(db: Db, now: Time, j: JobId)
    ensures var d := Compact(db, now).value;
            && EventsOf(d.events, j) == (if j in db.archives || Archivable(db, j, now) then [] else EventsOf(db.events, j))
            && ArchiveOf(d, j) == (if j in db.archives then db.archives[j]
                                   else if Archivable(db, j, now) then EventsOf(db.events, j) else [])
            && (j in d.archives <==> j in db.archives || Archivable(db, j, now))
  {
    var archives := CompactedArchives(db, now);
    assert j in archives.Keys <==> j in db.archives || Archivable(db, j, now);
    WithoutArchivedKeeps(db.events, archives.Keys, j);
  }

  /** The job ended, was not touched for more than seven days, and has live events. */
  ghost predicate Due(db: Db, j: JobId, now: Time) {
    && j in db.jobs && (db.jobs[j].status == Ready || db.jobs[j].status == Rejected)
    && db.jobs[j].updatedAt < now - 604_800_000_000 && exists e :: e in db.events && e.job == j
  }

  lemma DueExactly(db: Db, j: JobId, now: Time)
    ensures Archivable(db, j, now) <==> Due(db, j, now)
  {
    EventsOfExactly(db.events, j);
    var live := EventsOf(db.events, j);
    if live != [] { assert live[0] in live; }
  }

  /** Exactly the jobs that are due are archived, each with all of its live events; an archive that
      exists is kept; then every event of a job with an archive goes, and the others stay. */
  lemma CompactionExactly(db: Db, now: Time, j: JobId)
    ensures var r := Attempt(db, now, DoCompact);
            && r.Success? && r.value == db.(archives := r.value.archives, events := r.value.events)
            && (j in r.value.archives <==> j in db.archives || Due(db, j, now))
            && (j in r.value.archives ==> r.value.archives[j] == if j in db.archives then db.archives[j] else EventsOf(db.events, j))
            && EventsOf(r.value.events, j) == (if j in r.value.archives then [] else EventsOf(db.events, j))
  {
    CompactEffect(db, now, j);
    DueExactly(db, j, now);
  }

  /** The events of a job are those of the sequence that name it. */
  lemma {:induction false} EventsOfExactly(events: seq<Event>, j: JobId)
    ensures forall e :: e in EventsOf(events, j) <==> e in events && e.job == j
  {
    if events != [] {
      EventsOfExactly(events[..|events| - 1], j);
      assert events == events[..|events| - 1] + [events[|events| - 1]];
    }
  }

  /** A compaction conserves the events of a job exactly when the job does not have both an
      archive and live events: then archive and live events together stay the same. */
  lemma CompactionConservesExactly(db: Db, now: Time, j: JobId)
    ensures var d := Compact(db, now).value;
            ArchiveOf(d, j) + EventsOf(d.events, j) == ArchiveOf(db, j) + EventsOf(db.events, j) <==>
              !(j in db.archives && EventsOf(db.events, j) != [])
  {
    CompactEffect(db, now, j);
    var d := Compact(db, now).value;
    var live := EventsOf(db.events, j);
    if j in db.archives && live != [] {
      assert |ArchiveOf(d, j) + EventsOf(d.events, j)| != |ArchiveOf(db, j) + live|;
    } else if j in db.archives {
      assert live == [];
    } else {
      assert [] + live == live && live + [] == live;
    }
  }

  /** Nothing is appended to the trace of a job that has ended. */
  ghost predicate NothingLate(w: World, steps: seq<Step>, j: JobId) {
    forall n | 0 <= n < |steps| && steps[n].Act? && steps[n].action.DoAppendEvent? && steps[n].action.job == j ::
      var db := Play(w, steps[..n], j).db; !(j in db.jobs && Terminal(db.jobs[j].status))
  }

  /** Each recorded event is live or archived, once, in the order of the ids. */
  ghost predicate LogOk(db: Db, log: seq<Event>, j: JobId) {
    && ArchiveOf(db, j) + EventsOf(db.events, j) == log
    && (j in db.archives ==> EventsOf(db.events, j) == [] && j in db.jobs && Terminal(db.jobs[j].status))
    && (forall n | 0 <= n < |log| :: log[n].job == j && log[n].id < db.nextEvent)
    && (forall m, n | 0 <= m < n < |log| :: log[m].id < log[n].id)
  }

  lemma LogCompacted(db: Db, log: seq<Event>, now: Time, j: JobId)
    requires LogOk(db, log, j)
    ensures LogOk(Compact(db, now).value, log, j)
  {
    CompactEffect(db, now, j);
    CompactionConservesExactly(db, now, j);
  }

  lemma LogQuiet(db: Db, d: Db, log: seq<Event>, j: JobId)
    requires LogOk(db, log, j) && Quiet(db, d)
    requires j in db.jobs && Terminal(db.jobs[j].status) ==> j in d.jobs && Terminal(d.jobs[j].status)
    ensures LogOk(d, log, j)
  {
  }

  lemma LogAdds(db: Db, d: Db, log: seq<Event>, e: Event, j: JobId)
    requires LogOk(db, log, j) && Adds(db, d, e)
    requires j in db.jobs && Terminal(db.jobs[j].status) ==> j in d.jobs && Terminal(d.jobs[j].status)
    requires e.job == j ==> !(j in db.jobs && Terminal(db.jobs[j].status))
    ensures LogOk(d, log + (if e.job == j then [e] else []), j)
  {
    EventsOfExtends(db.events, e, j);
    assert log + [] == log;
    assert j in db.archives ==> e.job != j;
    if e.job == j { assert [] + EventsOf(db.events, j) == log; }
  }

  lemma EmitsWhileLive(db: Db, now: Time, a: Action, j: JobId)
    requires Attempt(db, now, a).Success? && !a.DoAppendEvent? && Emits(db, a).Some? && Emits(db, a).value.job == j
    ensures j in db.jobs && !Terminal(db.jobs[j].status)
  {
    match a
    case DoSuspend(_, _, _) =>
    case DoAnswer(_, _, _, _) =>
    case DoCancel(_, _, _) =>
    case DoPublish(_, _, _) =>
  }

  lemma LogAfter(v: World, s: Step, log: seq<Event>, j: JobId)
    requires WorldOk(v, j) && LogOk(v.db, log, j)
    requires s.Act? && s.action.DoAppendEvent? && s.action.job == j ==> !(j in v.db.jobs && Terminal(v.db.jobs[j].status))
    ensures LogOk(Next(v, s, j).db, log + NewEvents(v.db, Next(v, s, j).db, j), j)
  {
    assert log + [] == log;
    if s.Act? && Attempt(v.db, v.now, s.action).Success? {
      if s.action.DoCompact? {
        LogCompacted(v.db, log, v.now, j);
      } else {
        LogAfterAction(v.db, v.now, s.action, log, j);
      }
    }
  }

  lemma LogAfterAction(db: Db, now: Time, a: Action, log: seq<Event>, j: JobId)
    requires Coherent(db) && LogOk(db, log, j) && Attempt(db, now, a).Success? && !a.DoCompact?
    requires a.DoAppendEvent? && a.job == j ==> !(j in db.jobs && Terminal(db.jobs[j].status))
    ensures var d := Attempt(db, now, a).value; LogOk(d, log + NewEvents(db, d, j), j)
  {
    var d := Attempt(db, now, a).value;
    TraceEffect(db, now, a);
    if j in db.jobs && Terminal(db.jobs[j].status) { TerminalRowKept(db, now, a, j); }
    if Emits(db, a).None? {
      assert NewEvents(db, d, j) == [] && log + [] == log;
      LogQuiet(db, d, log, j);
    } else {
      if Emits(db, a).value.job == j && !a.DoAppendEvent? { EmitsWhileLive(db, now, a, j); }
      LogEmitted(db, d, log, Emits(db, a).value, j);
    }
  }

  lemma LogEmitted(db: Db, d: Db, log: seq<Event>, e: Emission, j: JobId)
    requires LogOk(db, log, j) && Emitted(db, d, e)
    requires j in db.jobs && Terminal(db.jobs[j].status) ==> j in d.jobs && Terminal(d.jobs[j].status)
    requires e.job == j ==> !(j in db.jobs && Terminal(db.jobs[j].status))
    ensures LogOk(d, log + NewEvents(db, d, j), j)
  {
    var p := RecordedPayload(e.bytes, e.limit - TraceBytes(db, e.job));
    if p.None? {
      assert NewEvents(db, d, j) == [] && log + [] == log;
      LogQuiet(db, d, log, j);
    } else {
      var event := Event(db.nextEvent, e.job, e.kind, p.value);
      assert d.events[|d.events| - 1] == event;
      assert NewEvents(db, d, j) == if e.job == j then [event] else [];
      LogAdds(db, d, log, event, j);
    }
  }

  /** When nothing is appended to a job that has ended, over any run and any number of
      compactions every event ever recorded is archived or live exactly once, archived before
      live, in the order of the ids, and their sizes still add up to the byte counter. */
  lemma {:induction false} CompactionConserves(steps: seq<Step>, j: JobId)
    requires WorkerStages(steps) && NothingLate(START, steps, j)
    ensures var db := Play(START, steps, j).db;
            && LogOk(db, LogOf(START, steps, j), j)
            && Total(ArchiveOf(db, j) + EventsOf(db.events, j)) == TraceBytes(db, j)
  {
    if steps != [] {
      var front, last := steps[..|steps| - 1], steps[|steps| - 1];
      assert forall i | 0 <= i < |front| :: front[i] == steps[i];
      assert NothingLate(START, front, j) by {
        forall n | 0 <= n < |front| ensures front[..n] == steps[..n] {}
      }
      CompactionConserves(front, j);
      ReachableOk(front, j);
      assert steps[..|steps| - 1] == front;
      LogAfter(Play(START, front, j), last, LogOf(START, front, j), j);
    }
    TraceBudget(steps, j);
  }
}
