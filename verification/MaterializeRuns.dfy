/** What materialization promises over whole runs. */
module MaterializeRuns {
  import opened Codes
  import opened Ledger
  import opened MaterializeProtocol
  import opened Options

  ghost predicate Next(w: World, w': World) {
    exists a :: Enabled(w, a) && w' == Apply(w, a)
  }

  ghost predicate Step(ws: seq<World>, i: nat)
    requires 0 < i < |ws|
  {
    Next(ws[i - 1], ws[i])
  }

  ghost predicate Run(ws: seq<World>) {
    && |ws| > 0 && ws[0] == World(map[], ws[0].now, Open, map[], {}, {})
    && forall i :: 0 < i < |ws| ==> Step(ws, i)
  }

  ghost predicate Did(ws: seq<World>, acts: seq<Action>, i: nat)
    requires i + 1 < |ws| && i < |acts|
  {
    Enabled(ws[i], acts[i]) && ws[i + 1] == Apply(ws[i], acts[i])
  }

  /** A run with the actions that made it. */
  ghost predicate Acted(ws: seq<World>, acts: seq<Action>) {
    && |ws| == |acts| + 1 && ws[0] == World(map[], ws[0].now, Open, map[], {}, {})
    && forall i :: 0 <= i < |acts| ==> Did(ws, acts, i)
  }

  lemma ActedIsRun(ws: seq<World>, acts: seq<Action>)
    requires Acted(ws, acts)
    ensures Run(ws)
  {
    forall i | 0 < i < |ws| ensures Step(ws, i) {
      assert Did(ws, acts, i - 1);
    }
  }

  /** The process is not restarted from step `i` to step `j`. */
  ghost predicate OneRuntime(acts: seq<Action>, i: nat, j: nat) {
    forall m :: i <= m < j && m < |acts| ==> !acts[m].Restart?
  }

  lemma RunNext(ws: seq<World>, i: nat, w: World, w': World)
    requires Run(ws) && 0 < i < |ws| && w == ws[i - 1] && w' == ws[i]
    ensures Next(w, w')
  {
    assert Step(ws, i);
  }

  lemma NextKeeps(w: World, w': World)
    requires Inv(w) && Next(w, w')
    ensures Inv(w')
  {
    var a :| Enabled(w, a) && w' == Apply(w, a);
    ActionKeeps(w, a);
  }

  lemma RunStep(ws: seq<World>, i: nat, w: World, w': World)
    requires Run(ws) && 0 < i < |ws| && w == ws[i - 1] && w' == ws[i] && Inv(w)
    ensures Inv(w')
  {
    RunNext(ws, i, w, w');
    NextKeeps(w, w');
  }

  lemma {:induction false} RunKeeps(ws: seq<World>, i: nat)
    requires Run(ws) && i < |ws|
    ensures Inv(ws[i])
  {
    if i > 0 {
      RunKeeps(ws, i - 1);
      RunStep(ws, i, ws[i - 1], ws[i]);
    }
  }

  lemma JobKeepsRow(t: Table, now: Runtime, caller: CommandId, digest: Digest, job: Job, id: CommandId)
    requires id in t
    ensures RowKept(t, JobTable(t, now, caller, digest, job), id)
  {
  }

  lemma ActionRow(w: World, a: Action, id: CommandId)
    requires Enabled(w, a) && id in w.table
    ensures RowKept(w.table, Apply(w, a).table, id)
  {
    if (a.JobReturns? && Waiting(w.calls[a.k].at)) || a.RunOrphan? {
      JobKeepsRow(w.table, w.now, w.calls[a.k].id, w.calls[a.k].digest, w.calls[a.k].at.job, id);
    }
  }

  lemma NextRow(w: World, w': World, id: CommandId)
    requires Next(w, w') && id in w.table
    ensures RowKept(w.table, w'.table, id)
  {
    var a :| Enabled(w, a) && w' == Apply(w, a);
    ActionRow(w, a, id);
  }

  lemma {:induction false} RunRow(ws: seq<World>, i: nat, j: nat, id: CommandId)
    requires Run(ws) && i <= j < |ws| && id in ws[i].table
    ensures RowKept(ws[i].table, ws[j].table, id)
    decreases j
  {
    if i < j {
      RunRow(ws, i, j - 1, id);
      assert Step(ws, j);
      NextRow(ws[j - 1], ws[j], id);
    }
  }

  /** Publishing begins only under this runtime's claim for the same request, cleaning up only behind
      a durable completion of it. */
  lemma EffectsAreLicensed(ws: seq<World>, i: nat, e: Effect)
    requires Run(ws) && i < |ws| && e in ws[i].effects
    ensures e.Publish? ==> e.row == Some(Entry(Materialize, e.digest, e.now, Claimed))
    ensures e.Cleanup? ==> exists now, result :: e.row == Some(Entry(Materialize, e.digest, now, Completed(result)))
  {
    RunKeeps(ws, i);
    assert Licensed(e);
    if e.Cleanup? {
      assert e.row == Some(Entry(Materialize, e.digest, e.row.value.runtime, Completed(e.row.value.status.result)));
    }
  }

  /** Once a command is completed or rejected, no call ever holds its claim again, so none publishes. */
  lemma SettledNeverPublishes(ws: seq<World>, i: nat, j: nat, id: CommandId, k: nat)
    requires Run(ws) && i <= j < |ws| && id in ws[i].table && ws[i].table[id].op == Materialize
    requires ws[i].table[id].status.Completed? || ws[i].table[id].status.TerminalRejected?
    requires k in ws[j].calls && ws[j].calls[k].id == id
    ensures id in ws[j].table && ws[j].table[id] == ws[i].table[id]
    ensures !Guarded(ws[j].calls[k].at)
  {
    RunKeeps(ws, j);
    RunRow(ws, i, j, id);
  }

  /** At any moment a command has one holder. */
  lemma HolderIsUnique(ws: seq<World>, i: nat, j: nat, k: nat)
    requires Run(ws) && i < |ws| && j in ws[i].calls && k in ws[i].calls
    requires Guarded(ws[i].calls[j].at) && Guarded(ws[i].calls[k].at) && ws[i].calls[j].id == ws[i].calls[k].id
    ensures j == k
  {
    RunKeeps(ws, i);
  }

  /** All successes of a command return one stored result, and exclude a recorded rejection. */
  lemma AnswersAgree(ws: seq<World>, i: nat, a: Answer, b: Answer)
    requires Run(ws) && i < |ws| && a in ws[i].answers && b in ws[i].answers && a.id == b.id
    requires (a.outcome.Success? || a.settled) && (b.outcome.Success? || b.settled)
    ensures a.digest == b.digest
    ensures a.outcome.Success? <==> b.outcome.Success?
    ensures a.outcome.Success? ==> a.outcome.result == b.outcome.result
    ensures a.outcome.Failure? ==> a.outcome == b.outcome
  {
    RunKeeps(ws, i);
    assert Truthful(ws[i].table, a) && Truthful(ws[i].table, b);
  }

  // What the two longest steps leave alone

  /** Only the counter of call `k` moves, and not to a dropped job. */
  ghost predicate Moves(w: World, w': World, k: nat) {
    && k in w.calls && k in w'.calls && w'.calls == w.calls[k := w.calls[k].(at := w'.calls[k].at)]
    && !w'.calls[k].at.Dropped?
  }

  lemma ObserveMoves(w: World, k: nat, fate: Fate)
    requires k in w.calls
    ensures Moves(w, AfterObserve(w, k, fate), k)
  {
  }

  lemma JobMoves(w: World, k: nat, fate: Fate)
    requires k in w.calls && Waiting(w.calls[k].at)
    ensures Moves(w, AfterJob(w, k, fate), k)
  {
  }

  lemma ReplayOwn(w: World, a: Action, w': World, k: nat)
    requires Enabled(w, a) && w' == Apply(w, a) && OfCall(a) && a.k == k
    requires k in w.calls && (w.calls[k].at.Replaying? || w.calls[k].at.Ended?)
    ensures k in w'.calls && (w'.calls[k].at.Replaying? || w'.calls[k].at.Ended?)
    ensures w'.table == w.table && forall e :: e in w'.effects ==> e in w.effects || e.Cleanup?
  {
    assert a.FailEarly? || a.CleanReplay? || a.DropFuture?;
  }

  lemma ReplayBeside(w: World, a: Action, w': World, k: nat)
    requires Enabled(w, a) && w' == Apply(w, a) && OfCall(a) && a.k != k && k in w.calls
    ensures k in w'.calls && w'.calls[k] == w.calls[k]
  {
    match a
    case ObserveReturns(j, fate) => ObserveMoves(w, j, fate);
    case JobReturns(j, fate) => JobMoves(w, j, fate);
    case _ =>
  }

  lemma ReplayStep(w: World, a: Action, w': World, k: nat)
    requires Enabled(w, a) && w' == Apply(w, a) && !a.Restart?
    requires k in w.calls && (w.calls[k].at.Replaying? || w.calls[k].at.Ended?)
    ensures k in w'.calls && (w'.calls[k].at.Replaying? || w'.calls[k].at.Ended?)
    ensures OfCall(a) && a.k == k ==> w'.table == w.table && forall e :: e in w'.effects ==> e in w.effects || e.Cleanup?
  {
    if OfCall(a) && a.k == k {
      ReplayOwn(w, a, w', k);
    } else if OfCall(a) {
      ReplayBeside(w, a, w', k);
    }
  }

  /** From the moment a call replays a stored result it can only end, and until then no step of it
      touches the ledger or begins anything but cleaning up: it neither claims nor publishes. */
  lemma {:induction false} ReplayOnlyCleans(ws: seq<World>, acts: seq<Action>, i: nat, j: nat, k: nat)
    requires Acted(ws, acts) && i <= j < |ws| && OneRuntime(acts, i, j)
    requires k in ws[i].calls && ws[i].calls[k].at.Replaying?
    ensures k in ws[j].calls && (ws[j].calls[k].at.Replaying? || ws[j].calls[k].at.Ended?)
    ensures j < |acts| && OfCall(acts[j]) && acts[j].k == k ==>
              ws[j + 1].table == ws[j].table && forall e :: e in ws[j + 1].effects ==> e in ws[j].effects || e.Cleanup?
    decreases j
  {
    if i < j {
      ReplayOnlyCleans(ws, acts, i, j - 1, k);
      assert Did(ws, acts, j - 1);
      ReplayStep(ws[j - 1], acts[j - 1], ws[j], k);
    }
    if j < |acts| && OfCall(acts[j]) && acts[j].k == k {
      assert Did(ws, acts, j);
      ReplayStep(ws[j], acts[j], ws[j + 1], k);
    }
  }

  /** A guard is given up only over a resolved row or a failed runtime. */
  lemma GuardsResolve(ws: seq<World>, i: nat, k: nat)
    requires Run(ws) && i + 1 < |ws| && k in ws[i].calls && Guarded(ws[i].calls[k].at)
    requires k in ws[i + 1].calls && !Guarded(ws[i + 1].calls[k].at)
    ensures ws[i + 1].gate == Failed
            || (Bound(ws[i + 1].table, ws[i].calls[k].id, Materialize, ws[i].calls[k].digest)
                && ws[i + 1].table[ws[i].calls[k].id].status != Claimed)
  {
    RunKeeps(ws, i);
    assert Step(ws, i + 1);
    var a :| Enabled(ws[i], a) && ws[i + 1] == Apply(ws[i], a);
    assert Local(ws[i], k);
    GuardStepResolves(ws[i], a, k);
  }

  lemma GuardJobResolves(w: World, k: nat, fate: Fate)
    requires Local(w, k) && Guarded(w.calls[k].at) && Waiting(w.calls[k].at)
    requires !Guarded(AfterJob(w, k, fate).calls[k].at)
    ensures AfterJob(w, k, fate).gate == Failed
            || (Bound(AfterJob(w, k, fate).table, w.calls[k].id, Materialize, w.calls[k].digest)
                && AfterJob(w, k, fate).table[w.calls[k].id].status != Claimed)
  {
  }

  lemma GuardStepResolves(w: World, a: Action, k: nat)
    requires Enabled(w, a) && Local(w, k) && Guarded(w.calls[k].at)
    requires k in Apply(w, a).calls && !Guarded(Apply(w, a).calls[k].at)
    ensures Apply(w, a).gate == Failed
            || (Bound(Apply(w, a).table, w.calls[k].id, Materialize, w.calls[k].digest)
                && Apply(w, a).table[w.calls[k].id].status != Claimed)
  {
    match a
    case ObserveReturns(j, fate) => ObserveMoves(w, j, fate);
    case JobReturns(j, fate) =>
      JobMoves(w, j, fate);
      if j == k {
        GuardJobResolves(w, k, fate);
      }
    case _ =>
  }

  /** An obligation to recover can always be taken up: what is observed is what reacquiring accepts. */
  lemma RecoveryIsPossible(ws: seq<World>, i: nat, id: CommandId, digest: Digest)
    requires Run(ws) && i < |ws| && Bound(ws[i].table, id, Materialize, digest)
    requires ws[i].table[id].status.RecoveryRequired? || (ws[i].table[id].status == Claimed && ws[i].table[id].runtime != ws[i].now)
    ensures var o := Observe(ws[i].table, ws[i].now, id, digest);
            && o.Ok? && o.value.Candidate?
            && HeldBy(Reacquire(ws[i].table, ws[i].now, id, digest, o.value.seen).0, id, Materialize, digest, ws[i].now)
  {
    RunKeeps(ws, i);
  }

  // The codes of the answers

  /** A store error, a stop or a clock failure has a store code; a busy row has one of its own. */
  predicate AnswerCode(code: ErrorCode) {
    StoreCode(code) || code == CommandInProgress
  }

  predicate AnsweredWell(a: Answer) {
    a.outcome.Failure? ==> AnswerCode(a.outcome.code)
  }

  /** The codes of a stop. */
  predicate StopsWith(code: ErrorCode) {
    code == OperationCancelled || code == DeadlineExceeded
  }

  predicate RejectedWell(row: Entry) {
    row.op == Materialize && row.status.TerminalRejected? ==> StopsWith(row.status.code)
  }

  predicate FinishesWell(c: Counter) {
    (c.Finishing? || c.Dropped?) && c.job.FinishJob? ==> JobWell(c.job)
  }

  predicate JobWell(job: Job)
    requires job.FinishJob?
  {
    if job.terminal then StopsWith(job.code) else RecoveryCode(job.code)
  }

  ghost predicate CodesKept(w: World) {
    && (forall a :: a in w.answers ==> AnsweredWell(a))
    && (forall id :: id in w.table ==> RejectedWell(w.table[id]))
    && (forall k :: k in w.calls ==> FinishesWell(w.calls[k].at))
  }

  lemma CodesOfErrors(e: StoreError, stop: Stop)
    ensures StoreCode(CodeOf(e)) && RecoveryCode(RecoveryCodeOf(e)) && StopsWith(StopCode(stop))
  {
  }

  lemma ObserveCodes(w: World, k: nat, fate: Fate)
    requires CodesKept(w) && k in w.calls
    ensures CodesKept(AfterObserve(w, k, fate))
  {
    if !fate.Runs? {
      CodesOfErrors(if fate.Turned? then fate.error else fate.fatal, Cancelled);
    } else {
      var o := Observe(w.table, w.now, w.calls[k].id, w.calls[k].digest);
      if o.Err? {
        CodesOfErrors(o.error, Cancelled);
      }
    }
  }

  /** A job writes a rejection only as its caller told it to. */
  lemma JobRows(t: Table, now: Runtime, caller: CommandId, digest: Digest, job: Job, id: CommandId)
    requires job.FinishJob? ==> JobWell(job)
    requires id in JobTable(t, now, caller, digest, job) && (id in t ==> RejectedWell(t[id]))
    ensures RejectedWell(JobTable(t, now, caller, digest, job)[id])
  {
  }

  lemma JobTableCodes(t: Table, now: Runtime, caller: CommandId, digest: Digest, job: Job, u: Table)
    requires u == JobTable(t, now, caller, digest, job) && (job.FinishJob? ==> JobWell(job))
    requires forall id :: id in t ==> RejectedWell(t[id])
    ensures forall id :: id in u ==> RejectedWell(u[id])
  {
    forall id | id in u ensures RejectedWell(u[id]) {
      JobRows(t, now, caller, digest, job, id);
    }
  }

  lemma JobCodes(w: World, k: nat, fate: Fate)
    requires CodesKept(w) && InvJobs(w) && k in w.calls && Waiting(w.calls[k].at)
    ensures CodesKept(AfterJob(w, k, fate))
  {
    var c := w.calls[k];
    assert GoodJob(c.at) && FinishesWell(c.at);
    JobTableCodes(w.table, w.now, c.id, c.digest, c.at.job, JobTable(w.table, w.now, c.id, c.digest, c.at.job));
    var error := FateError(JobError(w.table, w.now, c.id, c.digest, c.at.job), fate);
    if error.Some? {
      CodesOfErrors(error.value, Cancelled);
    }
  }

  lemma OrphanCodes(w: World, k: nat)
    requires CodesKept(w) && k in w.calls && w.calls[k].at.Dropped?
    ensures CodesKept(AfterOrphan(w, k))
  {
    var c := w.calls[k];
    assert FinishesWell(c.at);
    JobTableCodes(w.table, w.now, c.id, c.digest, c.at.job, JobTable(w.table, w.now, c.id, c.digest, c.at.job));
  }

  /** The steps that submit a rejection or a recovery. */
  lemma FinishCodes(w: World, a: Action, w': World)
    requires CodesKept(w) && Enabled(w, a) && w' == Apply(w, a) && (a.StopHeld? || a.PublishStops? || a.PublishFails? || a.ClockFails?)
    ensures CodesKept(w')
  {
    CodesOfErrors(if a.PublishFails? then a.error else Internal, if a.StopHeld? || a.PublishStops? then a.stop else Cancelled);
  }

  /** The steps that only give an answer, or move on without one. */
  lemma QuietCodes(w: World, a: Action, w': World)
    requires CodesKept(w) && InvJobs(w) && Enabled(w, a) && w' == Apply(w, a) && OfCall(a)
    requires !a.ObserveReturns? && !a.JobReturns? && !a.RunOrphan?
    requires !a.StopHeld? && !a.PublishStops? && !a.PublishFails? && !a.ClockFails?
    ensures CodesKept(w')
  {
  }

  lemma OutsideCodes(w: World, a: Action, w': World)
    requires CodesKept(w) && Enabled(w, a) && w' == Apply(w, a) && !OfCall(a)
    ensures CodesKept(w')
  {
  }

  lemma StepCodes(w: World, a: Action, w': World)
    requires CodesKept(w) && InvJobs(w) && Enabled(w, a) && w' == Apply(w, a)
    ensures CodesKept(w')
  {
    if a.ObserveReturns? {
      ObserveCodes(w, a.k, a.fate);
    } else if a.JobReturns? {
      JobCodes(w, a.k, a.fate);
    } else if a.RunOrphan? {
      OrphanCodes(w, a.k);
    } else if a.StopHeld? || a.PublishStops? || a.PublishFails? || a.ClockFails? {
      FinishCodes(w, a, w');
    } else if OfCall(a) {
      QuietCodes(w, a, w');
    } else {
      OutsideCodes(w, a, w');
    }
  }

  lemma NextCodes(w: World, w': World)
    requires CodesKept(w) && InvJobs(w) && Next(w, w')
    ensures CodesKept(w')
  {
    var a :| Enabled(w, a) && w' == Apply(w, a);
    StepCodes(w, a, w');
  }

  lemma RunJobs(ws: seq<World>, i: nat)
    requires Run(ws) && i < |ws|
    ensures InvJobs(ws[i])
  {
    RunKeeps(ws, i);
  }

  lemma RunStepCodes(ws: seq<World>, i: nat, w: World, w': World)
    requires Run(ws) && 0 < i < |ws| && w == ws[i - 1] && w' == ws[i] && CodesKept(w)
    ensures CodesKept(w')
  {
    RunJobs(ws, i - 1);
    RunNext(ws, i, w, w');
    NextCodes(w, w');
  }

  lemma {:induction false} RunCodes(ws: seq<World>, i: nat)
    requires Run(ws) && i < |ws|
    ensures CodesKept(ws[i])
  {
    if i > 0 {
      RunCodes(ws, i - 1);
      RunStepCodes(ws, i, ws[i - 1], ws[i]);
    }
  }

  /** Only a stop is recorded as a rejection; every other failure leaves an obligation to recover. */
  lemma RejectionsAreStops(ws: seq<World>, i: nat, id: CommandId)
    requires Run(ws) && i < |ws| && id in ws[i].table && ws[i].table[id].op == Materialize
    ensures ws[i].table[id].status.TerminalRejected? ==> ws[i].table[id].status.code in {OperationCancelled, DeadlineExceeded}
    ensures ws[i].table[id].status.RecoveryRequired? ==> RecoveryCode(ws[i].table[id].status.code)
  {
    RunCodes(ws, i);
    RunKeeps(ws, i);
    assert RejectedWell(ws[i].table[id]);
  }

  /** Every failure a call answers gets retry advice that the encoder lets through, but for three codes on
      which the daemon ends the connection. */
  lemma AnswersAreEncodable(ws: seq<World>, i: nat, a: Answer)
    requires Run(ws) && i < |ws| && a in ws[i].answers && a.outcome.Failure?
    ensures MaterializeRetry(a.outcome.code).None? <==> a.outcome.code in {InternalError, InvalidTransition, RevisionExhausted}
    ensures MaterializeRetry(a.outcome.code).Some? ==> Encodable(a.outcome.code, MaterializeRetry(a.outcome.code).value)
  {
    RunCodes(ws, i);
    assert AnsweredWell(a);
  }

  // A claim whose caller is gone

  ghost predicate LostClaim(w: World, id: CommandId) {
    exists k :: k in w.calls && w.calls[k].id == id && w.calls[k].lost
  }

  /** Behind an open gate a claim of the running store has its guard, or it was granted to a call that had
      been dropped: the guard is made only after the claim returns. */
  lemma ClaimsAreAccounted(ws: seq<World>, i: nat, id: CommandId)
    requires Run(ws) && i < |ws| && ClaimedNow(ws[i].table, id, ws[i].now)
    ensures ws[i].gate != Open || LostClaim(ws[i], id)
            || exists k :: k in ws[i].calls && ws[i].calls[k].id == id && Guarded(ws[i].calls[k].at)
  {
    RunKeeps(ws, i);
    if ws[i].gate == Open {
      assert Accounted(ws[i], id);
      var k :| k in ws[i].calls && ws[i].calls[k].id == id && (Guarded(ws[i].calls[k].at) || ws[i].calls[k].lost);
    }
  }

  /** Until a restart nothing frees a stranded row; after it, the row is a candidate for recovery. */
  lemma StrandedStays(w: World, a: Action, id: CommandId)
    requires Inv(w) && Enabled(w, a) && Stranded(w, id)
    ensures !a.Restart? ==> Stranded(Apply(w, a), id)
    ensures a.Restart? ==> Observe(Apply(w, a).table, a.next, id, w.table[id].digest) == Ok(Candidate(None))
  {
    if !a.Arrive? && OfCall(a) {
      CallKeeps(w, a);
      StepStranded(w, Apply(w, a), a.k, id);
    }
  }

  /** The claim job of a call that is gone runs, and is granted its claim on `id`. */
  ghost predicate OrphanGrants(w: World, a: Action, id: CommandId) {
    && a.RunOrphan? && a.k in w.calls && w.calls[a.k].id == id && w.calls[a.k].at.Dropped?
    && var c := w.calls[a.k];
       && (c.at.job.NewJob? || c.at.job.ReacquireJob?)
       && JobError(w.table, w.now, c.id, c.digest, c.at.job).None?
  }

  /** The future of a call on `id` is dropped while it waits for its claim. */
  ghost predicate DropsClaim(w: World, a: Action, id: CommandId) {
    a.DropFuture? && a.k in w.calls && w.calls[a.k].id == id && w.calls[a.k].at.Claiming?
  }

  lemma GateWorsens(w: World, a: Action)
    requires Inv(w) && Enabled(w, a) && !a.Restart?
    ensures Worse(w.gate, Apply(w, a).gate)
  {
    if OfCall(a) && !a.Arrive? {
      CallKeeps(w, a);
    }
  }

  lemma AllowedStays(w: World, w': World, j: nat, k: nat)
    requires Allowed(w, w', j) && k in w.calls
    ensures k in w'.calls && w'.calls[k].id == w.calls[k].id
  {
  }

  lemma OutsideStays(w: World, a: Action, w': World, k: nat)
    requires Enabled(w, a) && w' == Apply(w, a) && (a.Arrive? || !OfCall(a)) && k in w.calls && k in w'.calls
    ensures w'.calls[k].id == w.calls[k].id
  {
  }

  lemma CallStays(w: World, a: Action, w': World, k: nat)
    requires Inv(w) && Enabled(w, a) && w' == Apply(w, a) && k in w.calls && k in w'.calls
    ensures w'.calls[k].id == w.calls[k].id
  {
    if OfCall(a) && !a.Arrive? {
      CallKeeps(w, a);
      AllowedStays(w, w', a.k, k);
    } else {
      OutsideStays(w, a, w', k);
    }
  }

  lemma LostByOrphan(w: World, a: Action, w': World, k: nat)
    requires Enabled(w, a) && w' == Apply(w, a) && k in w'.calls && w'.calls[k].lost
    requires k in w.calls ==> !w.calls[k].lost
    ensures OrphanGrants(w, a, w'.calls[k].id)
  {
    match a
    case ObserveReturns(j, fate) => ObserveMoves(w, j, fate);
    case JobReturns(j, fate) => JobMoves(w, j, fate);
    case _ =>
  }

  lemma RestartStrandsNone(w: World, a: Action, id: CommandId)
    requires Inv(w) && Enabled(w, a) && a.Restart?
    ensures !Stranded(Apply(w, a), id)
  {
  }

  /** Behind an open gate a step strands a row exactly when it grants a claim to a call that is gone. */
  lemma StrandingStep(w: World, a: Action, id: CommandId)
    requires Inv(w) && Enabled(w, a) && !Stranded(w, id) && Apply(w, a).gate == Open
    ensures Stranded(Apply(w, a), id) <==> OrphanGrants(w, a, id)
  {
    var w' := Apply(w, a);
    ActionKeeps(w, a);
    if OrphanGrants(w, a, id) {
      assert w'.calls[a.k].lost;
    }
    if Stranded(w', id) {
      assert Accounted(w', id);
      var k :| k in w'.calls && w'.calls[k].id == id && (Guarded(w'.calls[k].at) || w'.calls[k].lost);
      if k in w.calls {
        CallStays(w, a, w', k);
      }
      LostByOrphan(w, a, w', k);
    }
  }

  /** The claim was granted at step `j`, and the process has not been restarted up to step `i`. */
  ghost predicate GrantedAt(ws: seq<World>, acts: seq<Action>, j: nat, i: nat, id: CommandId)
    requires |ws| == |acts| + 1 && i < |ws|
  {
    j < i && OrphanGrants(ws[j], acts[j], id) && OneRuntime(acts, j, i)
  }

  ghost predicate Granted(ws: seq<World>, acts: seq<Action>, i: nat, id: CommandId)
    requires |ws| == |acts| + 1 && i < |ws|
  {
    exists j: nat :: GrantedAt(ws, acts, j, i, id)
  }

  lemma StrandedStep(ws: seq<World>, acts: seq<Action>, i: nat, id: CommandId)
    requires |ws| == |acts| + 1 && 0 < i < |ws| && Did(ws, acts, i - 1) && !acts[i - 1].Restart?
    requires Inv(ws[i - 1]) && ws[i].gate == Open
    requires Stranded(ws[i - 1], id) <==> Granted(ws, acts, i - 1, id)
    ensures Stranded(ws[i], id) <==> Granted(ws, acts, i, id)
  {
    var w, a := ws[i - 1], acts[i - 1];
    if Stranded(w, id) {
      StrandedStays(w, a, id);
      var j: nat :| GrantedAt(ws, acts, j, i - 1, id);
      assert GrantedAt(ws, acts, j, i, id);
    } else {
      StrandingStep(w, a, id);
      if OrphanGrants(w, a, id) {
        assert GrantedAt(ws, acts, i - 1, i, id);
      } else if j: nat :| GrantedAt(ws, acts, j, i, id) {
        assert GrantedAt(ws, acts, j, i - 1, id);
      }
    }
  }

  /** A row behind an open gate has no holder exactly when this process granted its claim to a call
      that was gone by then. */
  lemma {:induction false} StrandedExactly(ws: seq<World>, acts: seq<Action>, i: nat, id: CommandId)
    requires Acted(ws, acts) && i < |ws| && ws[i].gate == Open
    ensures Stranded(ws[i], id) <==> Granted(ws, acts, i, id)
    decreases i
  {
    if i > 0 {
      ActedIsRun(ws, acts);
      RunKeeps(ws, i - 1);
      var w, a := ws[i - 1], acts[i - 1];
      assert Did(ws, acts, i - 1);
      if a.Restart? {
        RestartStrandsNone(w, a, id);
      } else {
        GateWorsens(w, a);
        StrandedExactly(ws, acts, i - 1, id);
        StrandedStep(ws, acts, i, id);
      }
    }
  }

  lemma DropStep(w: World, a: Action, w': World, k: nat)
    requires InvJobs(w) && Enabled(w, a) && w' == Apply(w, a) && k in w'.calls && w'.calls[k].at.Dropped?
    requires w'.calls[k].at.job.NewJob? || w'.calls[k].at.job.ReacquireJob?
    ensures k in w.calls && (w.calls[k].at == w'.calls[k].at || (a == DropFuture(k) && w.calls[k].at.Claiming?))
  {
    match a
    case ObserveReturns(j, fate) => ObserveMoves(w, j, fate);
    case JobReturns(j, fate) => JobMoves(w, j, fate);
    case DropFuture(j) => assert GoodJob(w.calls[j].at);
    case _ =>
  }

  /** A claim job without a caller was left by a call dropped as it waited for that claim. */
  lemma {:induction false} OrphanWasDropped(ws: seq<World>, acts: seq<Action>, i: nat, k: nat) returns (m: nat)
    requires Acted(ws, acts) && i < |ws| && k in ws[i].calls && ws[i].calls[k].at.Dropped?
    requires ws[i].calls[k].at.job.NewJob? || ws[i].calls[k].at.job.ReacquireJob?
    ensures m < i && DropsClaim(ws[m], acts[m], ws[i].calls[k].id)
    decreases i
  {
    ActedIsRun(ws, acts);
    RunKeeps(ws, i - 1);
    assert Did(ws, acts, i - 1);
    DropStep(ws[i - 1], acts[i - 1], ws[i], k);
    CallStays(ws[i - 1], acts[i - 1], ws[i], k);
    if ws[i - 1].calls[k].at == ws[i].calls[k].at {
      m := OrphanWasDropped(ws, acts, i - 1, k);
    } else {
      m := i - 1;
    }
  }

  /** So a caller that lets its futures run while they wait for a claim strands nothing. */
  lemma NothingIsStranded(ws: seq<World>, acts: seq<Action>, i: nat, id: CommandId)
    requires Acted(ws, acts) && i < |ws| && ws[i].gate == Open
    requires forall m :: 0 <= m < i ==> !DropsClaim(ws[m], acts[m], id)
    ensures !Stranded(ws[i], id)
  {
    StrandedExactly(ws, acts, i, id);
    if j: nat :| GrantedAt(ws, acts, j, i, id) {
      var m := OrphanWasDropped(ws, acts, j, acts[j].k);
      assert false;
    }
  }

  function Lone(table: Table, call: Call): World {
    World(table, 0, Open, map[0 := call], {}, {})
  }

  lemma LoneStep(t: Table, c: Call, a: Action, u: Table, d: Call)
    requires Enabled(Lone(t, c), a) && Apply(Lone(t, c), a) == Lone(u, d)
    ensures Next(Lone(t, c), Lone(u, d))
  {
  }

  function StrandingRun(id: CommandId, digest: Digest): seq<World> {
    [World(map[], 0, Open, map[], {}, {}),
     Lone(map[], Call(id, digest, false, Begun)),
     Lone(map[], Call(id, digest, false, Resolving(NewJob))),
     Lone(map[], Call(id, digest, false, Claiming(NewJob))),
     Lone(map[], Call(id, digest, false, Dropped(NewJob))),
     Lone(map[id := Entry(Materialize, digest, 0, Claimed)], Call(id, digest, true, Ended))]
  }

  lemma StrandingEntry(id: CommandId, digest: Digest, ws: seq<World>)
    requires ws == StrandingRun(id, digest)
    ensures Next(ws[0], ws[1]) && Next(ws[1], ws[2]) && Next(ws[2], ws[3])
  {
    var c := Call(id, digest, false, Begun);
    assert Apply(ws[0], Arrive(0, id, digest)) == ws[1];
    LoneStep(map[], c, ObserveReturns(0, Runs), map[], c.(at := Resolving(NewJob)));
    LoneStep(map[], c.(at := Resolving(NewJob)), SubmitClaim(0), map[], c.(at := Claiming(NewJob)));
  }

  lemma StrandingDrop(id: CommandId, digest: Digest, ws: seq<World>)
    requires ws == StrandingRun(id, digest)
    ensures Next(ws[3], ws[4]) && Next(ws[4], ws[5])
  {
    var c := Call(id, digest, false, Dropped(NewJob));
    LoneStep(map[], c.(at := Claiming(NewJob)), DropFuture(0), map[], c);
    LoneStep(map[], c, RunOrphan(0), map[id := Entry(Materialize, digest, 0, Claimed)], Call(id, digest, true, Ended));
  }

  /** It does happen, to any command, in a runtime that never failed. */
  lemma SomeClaimIsStranded(id: CommandId, digest: Digest)
    ensures exists ws: seq<World> :: Run(ws) && ws[|ws| - 1].gate == Open && Stranded(ws[|ws| - 1], id)
  {
    var ws := StrandingRun(id, digest);
    StrandingEntry(id, digest, ws);
    StrandingDrop(id, digest, ws);
    assert Run(ws) && Stranded(ws[5], id);
  }
}
