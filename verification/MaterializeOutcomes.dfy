/** What a materialization call comes to: from the events it meets to the row and the answer it leaves,
    over runs with their actions and whatever other calls do in between. */
module MaterializeOutcomes {
  import opened Codes
  import opened Ledger
  import opened MaterializeProtocol
  import opened MaterializeRuns
  import opened Options

  /** A step of call `k` itself. */
  predicate Own(a: Action, k: nat) {
    OfCall(a) && a.k == k
  }

  lemma StepAt(ws: seq<World>, acts: seq<Action>, i: nat, w: World, a: Action, w': World)
    requires Acted(ws, acts) && i < |acts| && w == ws[i] && a == acts[i] && w' == ws[i + 1]
    ensures Enabled(w, a) && w' == Apply(w, a)
  {
    assert Did(ws, acts, i);
  }

  lemma InvAt(ws: seq<World>, acts: seq<Action>, i: nat, w: World)
    requires Acted(ws, acts) && i < |ws| && w == ws[i]
    ensures Inv(w)
  {
    ActedIsRun(ws, acts);
    RunKeeps(ws, i);
  }

  lemma GuardHolds(ws: seq<World>, acts: seq<Action>, i: nat, k: nat, w: World)
    requires Acted(ws, acts) && i < |ws| && w == ws[i] && k in w.calls && Guarded(w.calls[k].at)
    ensures HeldBy(w.table, w.calls[k].id, Materialize, w.calls[k].digest, w.now)
  {
    InvAt(ws, acts, i, w);
  }

  // Between the steps of a call

  ghost predicate Aloof(acts: seq<Action>, m: nat, k: nat)
    requires m < |acts|
  {
    !Own(acts[m], k) && !acts[m].Restart?
  }

  /** From step `i` to step `j` call `k` takes no step, and the process is not restarted. */
  ghost predicate Quiet(acts: seq<Action>, i: nat, j: nat, k: nat)
    requires j <= |acts|
  {
    forall m :: i <= m < j ==> Aloof(acts, m, k)
  }

  lemma OthersLeave(w: World, a: Action, w': World, k: nat)
    requires Enabled(w, a) && w' == Apply(w, a) && !Own(a, k) && !a.Restart? && k in w.calls
    ensures k in w'.calls && w'.calls[k] == w.calls[k] && w'.now == w.now
  {
    if OfCall(a) {
      CallLeaves(w, a, w', k);
    }
  }

  lemma CallLeaves(w: World, a: Action, w': World, k: nat)
    requires Enabled(w, a) && w' == Apply(w, a) && OfCall(a) && a.k != k && k in w.calls
    ensures k in w'.calls && w'.calls[k] == w.calls[k] && w'.now == w.now
  {
    match a
    case ObserveReturns(j, fate) => ObserveMoves(w, j, fate);
    case JobReturns(j, fate) => JobMoves(w, j, fate);
    case _ =>
  }

  lemma {:induction false} QuietStays(ws: seq<World>, acts: seq<Action>, i: nat, j: nat, k: nat)
    requires Acted(ws, acts) && i <= j < |ws| && Quiet(acts, i, j, k) && k in ws[i].calls
    ensures k in ws[j].calls && ws[j].calls[k] == ws[i].calls[k] && ws[j].now == ws[i].now
    decreases j
  {
    if i < j {
      QuietStays(ws, acts, i, j - 1, k);
      assert Aloof(acts, j - 1, k);
      StepAt(ws, acts, j - 1, ws[j - 1], acts[j - 1], ws[j]);
      OthersLeave(ws[j - 1], acts[j - 1], ws[j], k);
    }
  }

  lemma AnswersGrow(w: World, a: Action, w': World)
    requires Enabled(w, a) && w' == Apply(w, a)
    ensures w.answers <= w'.answers
  {
  }

  lemma {:induction false} AnswerStays(ws: seq<World>, acts: seq<Action>, i: nat, j: nat, x: Answer)
    requires Acted(ws, acts) && i <= j < |ws| && x in ws[i].answers
    ensures x in ws[j].answers
    decreases j
  {
    if i < j {
      AnswerStays(ws, acts, i, j - 1, x);
      StepAt(ws, acts, j - 1, ws[j - 1], acts[j - 1], ws[j]);
      AnswersGrow(ws[j - 1], acts[j - 1], ws[j]);
    }
  }

  /** A completed or rejected row stays as it is. */
  lemma RowStays(ws: seq<World>, acts: seq<Action>, i: nat, j: nat, id: CommandId, row: Entry)
    requires Acted(ws, acts) && i <= j < |ws| && id in ws[i].table && ws[i].table[id] == row
    requires row.op == Materialize && (row.status.Completed? || row.status.TerminalRejected?)
    ensures id in ws[j].table && ws[j].table[id] == row
  {
    ActedIsRun(ws, acts);
    RunRow(ws, i, j, id);
  }

  // The steps of a call

  /** The call is at `at`, otherwise as `c`. */
  predicate Stands(w: World, k: nat, c: Call, at: Counter) {
    k in w.calls && w.calls[k] == c.(at := at)
  }

  function Told(c: Call, outcome: Outcome, settled: bool): Answer {
    Answer(c.id, c.digest, outcome, settled)
  }

  /** What a call makes of the row it observes: it goes on to claim, replays, or answers at once. */
  datatype Course = Claims(job: Job) | Replays(result: CommandResult) | Answers(code: ErrorCode, settled: bool)

  function CourseOf(row: Option<Entry>, digest: Digest, now: Runtime): Course {
    match row
    case None => Claims(NewJob)
    case Some(e) =>
      if e.op != Materialize || e.digest != digest then Answers(Conflict, false)
      else
        match e.status
        case Claimed => if e.runtime == now then Answers(CommandInProgress, false) else Claims(ReacquireJob(None))
        case RecoveryRequired(code) => Claims(ReacquireJob(Some(code)))
        case Completed(result) => Replays(result)
        case TerminalRejected(code) => Answers(code, true)
  }

  /** The call takes the course the row sets, and an observation changes nothing. */
  lemma ObserveSetsCourse(w: World, w': World, k: nat, c: Call)
    requires At(w, k, Begun) && c == w.calls[k] && w' == Apply(w, ObserveReturns(k, Runs))
    ensures w'.table == w.table && w'.now == w.now && w'.gate == w.gate && w'.effects == w.effects
    ensures match CourseOf(RowAt(w.table, c.id), c.digest, w.now)
            case Claims(job) => Stands(w', k, c, Resolving(job))
            case Replays(result) => Stands(w', k, c, Replaying(result))
            case Answers(code, settled) => Stands(w', k, c, Ended) && Told(c, Failure(code), settled) in w'.answers
  {
  }

  lemma SubmitClaims(w: World, w': World, k: nat, job: Job)
    requires At(w, k, Resolving(job)) && w' == Apply(w, SubmitClaim(k))
    ensures Stands(w', k, w.calls[k], Claiming(job)) && w'.table == w.table && w'.now == w.now
  {
  }

  /** The row is as the claim job expects it. */
  predicate Claimable(t: Table, now: Runtime, c: Call, job: Job) {
    CourseOf(RowAt(t, c.id), c.digest, now) == Claims(job) && (job.ReacquireJob? && job.expected.Some? ==> RecoveryCode(job.expected.value))
  }

  lemma ClaimHolds(w: World, w': World, k: nat, job: Job)
    requires At(w, k, Claiming(job)) && Claimable(w.table, w.now, w.calls[k], job) && w' == Apply(w, JobReturns(k, Runs))
    ensures Stands(w', k, w.calls[k], Holding) && w'.now == w.now
    ensures w'.table == w.table[w.calls[k].id := Entry(Materialize, w.calls[k].digest, w.now, Claimed)]
  {
  }

  lemma StartMoves(w: World, w': World, k: nat)
    requires At(w, k, Holding) && w' == Apply(w, StartPublish(k))
    ensures Stands(w', k, w.calls[k], Publishing) && w'.table == w.table && w'.now == w.now
    ensures Publish(w.calls[k].id, w.calls[k].digest, w.now, RowAt(w.table, w.calls[k].id)) in w'.effects
  {
  }

  lemma PublishMoves(w: World, w': World, k: nat)
    requires At(w, k, Publishing) && w' == Apply(w, PublishDone(k))
    ensures Stands(w', k, w.calls[k], Published) && w'.table == w.table && w'.now == w.now
  {
  }

  lemma SubmitMoves(w: World, w': World, k: nat, result: CommandResult)
    requires At(w, k, Published) && w' == Apply(w, SubmitComplete(k, result))
    ensures Stands(w', k, w.calls[k], Completing(CompleteJob(result))) && w'.table == w.table && w'.now == w.now
  {
  }

  lemma CompleteMoves(w: World, w': World, k: nat, result: CommandResult)
    requires At(w, k, Completing(CompleteJob(result))) && HeldBy(w.table, w.calls[k].id, Materialize, w.calls[k].digest, w.now)
    requires w' == Apply(w, JobReturns(k, Runs))
    ensures Stands(w', k, w.calls[k], Cleaning(result)) && w'.now == w.now
    ensures w'.table == w.table[w.calls[k].id := w.table[w.calls[k].id].(status := Completed(result))]
  {
  }

  lemma CleanGives(w: World, w': World, k: nat, result: CommandResult, pending: bool)
    requires At(w, k, Cleaning(result)) && w' == Apply(w, CleanPublished(k, pending))
    ensures Stands(w', k, w.calls[k], Ended) && Told(w.calls[k], Success(result, false, pending), false) in w'.answers
    ensures w'.table == w.table && w'.now == w.now
    ensures w'.effects == w.effects + {Cleanup(w.calls[k].id, w.calls[k].digest, RowAt(w.table, w.calls[k].id))}
  {
  }

  /** A replay cleans up and answers the stored result. */
  lemma ReplayGives(w: World, w': World, k: nat, result: CommandResult, pending: bool)
    requires At(w, k, Replaying(result)) && w' == Apply(w, CleanReplay(k, pending))
    ensures Stands(w', k, w.calls[k], Ended) && Told(w.calls[k], Success(result, true, pending), false) in w'.answers
    ensures w'.table == w.table && w'.now == w.now
    ensures w'.effects == w.effects + {Cleanup(w.calls[k].id, w.calls[k].digest, RowAt(w.table, w.calls[k].id))}
  {
  }

  // Recovering

  lemma CandidatesAreClaimable(ws: seq<World>, acts: seq<Action>, i: nat, w: World, c: Call, job: Job)
    requires Acted(ws, acts) && i < |ws| && w == ws[i] && CourseOf(RowAt(w.table, c.id), c.digest, w.now) == Claims(job)
    ensures Claimable(w.table, w.now, c, job)
  {
    InvAt(ws, acts, i, w);
  }

  /** Call `k` observed a row to claim at step `i`, submitted its claim at `s`, and the claim ran at `j` on the
      row as it had been observed. */
  ghost predicate ClaimsAsObserved(ws: seq<World>, acts: seq<Action>, i: nat, s: nat, j: nat, k: nat, c: Call, job: Job)
    requires |ws| == |acts| + 1
  {
    && i < s < j < |acts| && At(ws[i], k, Begun) && c == ws[i].calls[k]
    && CourseOf(RowAt(ws[i].table, c.id), c.digest, ws[i].now) == Claims(job)
    && acts[i] == ObserveReturns(k, Runs) && acts[s] == SubmitClaim(k) && acts[j] == JobReturns(k, Runs)
    && Quiet(acts, i + 1, s, k) && Quiet(acts, s + 1, j, k)
    && RowAt(ws[j].table, c.id) == RowAt(ws[i].table, c.id)
  }

  /** Such a call holds the row: an absent one, an obligation to recover, or a claim another runtime left. */
  lemma ObservedIsHeld(ws: seq<World>, acts: seq<Action>, i: nat, s: nat, j: nat, k: nat, c: Call, job: Job)
    requires Acted(ws, acts) && ClaimsAsObserved(ws, acts, i, s, j, k, c, job)
    ensures Stands(ws[j + 1], k, c, Holding) && HeldBy(ws[j + 1].table, c.id, Materialize, c.digest, ws[j + 1].now)
  {
    StepAt(ws, acts, i, ws[i], acts[i], ws[i + 1]);
    ObserveSetsCourse(ws[i], ws[i + 1], k, c);
    QuietStays(ws, acts, i + 1, s, k);
    StepAt(ws, acts, s, ws[s], acts[s], ws[s + 1]);
    SubmitClaims(ws[s], ws[s + 1], k, job);
    QuietStays(ws, acts, s + 1, j, k);
    CandidatesAreClaimable(ws, acts, j, ws[j], c, job);
    StepAt(ws, acts, j, ws[j], acts[j], ws[j + 1]);
    ClaimHolds(ws[j], ws[j + 1], k, job);
  }

  // Failures under the guard

  /** What a failure under the guard records. */
  function FailingStatus(a: Action): Option<Status> {
    match a
    case StopHeld(_, stop) => Some(TerminalRejected(StopCode(stop)))
    case PublishStops(_, stop) => Some(TerminalRejected(StopCode(stop)))
    case PublishFails(_, e) => Some(RecoveryRequired(RecoveryCodeOf(e)))
    case ClockFails(_) => Some(RecoveryRequired(IdGenerationUnavailable))
    case _ => None
  }

  predicate Recording(status: Status) {
    status.TerminalRejected? || status.RecoveryRequired?
  }

  function JobFor(status: Status): Job
    requires Recording(status)
  {
    FinishJob(status.TerminalRejected?, status.code)
  }

  predicate Fails(a: Action, k: nat, status: Status) {
    Own(a, k) && FailingStatus(a) == Some(status) && Recording(status)
  }

  lemma FailureMoves(w: World, a: Action, w': World, k: nat, status: Status)
    requires Enabled(w, a) && w' == Apply(w, a) && Fails(a, k, status)
    ensures k in w.calls && Guarded(w.calls[k].at) && Stands(w', k, w.calls[k], Finishing(JobFor(status)))
    ensures w'.table == w.table && w'.now == w.now
  {
  }

  lemma FinishMoves(w: World, w': World, k: nat, status: Status)
    requires Recording(status) && At(w, k, Finishing(JobFor(status)))
    requires HeldBy(w.table, w.calls[k].id, Materialize, w.calls[k].digest, w.now) && w' == Apply(w, JobReturns(k, Runs))
    ensures Stands(w', k, w.calls[k], Ended) && w'.now == w.now
    ensures Told(w.calls[k], Failure(status.code), status.TerminalRejected?) in w'.answers
    ensures w'.table == w.table[w.calls[k].id := w.table[w.calls[k].id].(status := status)]
  {
  }

  /** The row an observer finds after the failure was recorded. */
  predicate Found(w: World, c: Call, status: Status) {
    Bound(w.table, c.id, Materialize, c.digest) && w.table[c.id].status == status
  }

  /** A stop, a failed publication or a failing clock under the guard: once its finish ran the row has just
      that record and the caller was told its code.  A stop is final; any other failure is observed as a
      candidate for recovery. */
  lemma FailureIsRecorded(ws: seq<World>, acts: seq<Action>, i: nat, f: nat, k: nat, c: Call, status: Status)
    requires Acted(ws, acts) && i < f < |acts| && k in ws[i].calls && c == ws[i].calls[k] && Fails(acts[i], k, status)
    requires acts[f] == JobReturns(k, Runs) && Quiet(acts, i + 1, f, k)
    ensures Found(ws[f + 1], c, status) && Told(c, Failure(status.code), status.TerminalRejected?) in ws[f + 1].answers
    ensures Observe(ws[f + 1].table, ws[f + 1].now, c.id, c.digest)
         == Ok(if status.TerminalRejected? then Refused(status.code) else Candidate(Some(status.code)))
  {
    StepAt(ws, acts, i, ws[i], acts[i], ws[i + 1]);
    FailureMoves(ws[i], acts[i], ws[i + 1], k, status);
    QuietStays(ws, acts, i + 1, f, k);
    GuardHolds(ws, acts, f, k, ws[f]);
    StepAt(ws, acts, f, ws[f], acts[f], ws[f + 1]);
    FinishMoves(ws[f], ws[f + 1], k, status);
  }

  /** A job that fails under the guard, or a claim given up, fails the runtime; the caller is told why. */
  lemma OtherwiseTheRuntimeFails(w: World, a: Action, w': World, k: nat)
    requires Enabled(w, a) && w' == Apply(w, a) && Own(a, k)
    requires a.AbandonClaim? || (a.JobReturns? && Guarded(w.calls[k].at) && !a.fate.Runs?)
    ensures k in w.calls && w'.gate == Failed && Stands(w', k, w.calls[k], Ended)
    ensures var code := if a.AbandonClaim? then a.code else CodeOf(if a.fate.Turned? then a.fate.error else a.fate.fatal);
            Told(w.calls[k], Failure(code), false) in w'.answers
  {
  }

  /** A store job that fails fatally closes the gate, whoever waited for it. */
  lemma FatalClosesTheGate(w: World, a: Action, w': World)
    requires Enabled(w, a) && w' == Apply(w, a) && (a.ObserveReturns? || a.JobReturns?)
    ensures w.gate == Failed ==> w'.gate == Failed
    ensures a.fate.Fatal? ==> w'.gate != Open
    ensures w.gate == Open && w'.gate != Open ==> a.fate.Fatal? || (a.JobReturns? && Guarded(w.calls[a.k].at))
  {
  }

  /** A failure before the claim is told as it is, and leaves the ledger alone unless the store failed. */
  lemma EarlyIsTold(w: World, a: Action, w': World, k: nat)
    requires Enabled(w, a) && w' == Apply(w, a) && Own(a, k)
    requires a.FailEarly? || (a.ObserveReturns? && !a.fate.Runs?) || (a.JobReturns? && w.calls[k].at.Claiming? && a.fate.Turned?)
    ensures k in w.calls && Stands(w', k, w.calls[k], Ended) && w'.table == w.table
    ensures var code := if a.FailEarly? then a.code else CodeOf(if a.fate.Turned? then a.fate.error else a.fate.fatal);
            Told(w.calls[k], Failure(code), false) in w'.answers
  {
  }

  // A call that goes right

  /** The steps of a call that holds its row and goes right, at the times `t`. */
  ghost predicate GoesRight(acts: seq<Action>, t: seq<nat>, k: nat, result: CommandResult, pending: bool) {
    && |t| == 5 && t[0] < t[1] < t[2] < t[3] < t[4] < |acts|
    && acts[t[0]] == StartPublish(k) && acts[t[1]] == PublishDone(k) && acts[t[2]] == SubmitComplete(k, result)
    && acts[t[3]] == JobReturns(k, Runs) && acts[t[4]] == CleanPublished(k, pending)
    && Quiet(acts, t[0] + 1, t[1], k) && Quiet(acts, t[1] + 1, t[2], k) && Quiet(acts, t[2] + 1, t[3], k)
    && Quiet(acts, t[3] + 1, t[4], k)
  }

  /** A call that held its row, published, and whose completion ran, whatever others did in between: the row has
      the result it submitted, and that is its answer, both for good. */
  lemma SuccessIsRecorded(ws: seq<World>, acts: seq<Action>, t: seq<nat>, k: nat, result: CommandResult, pending: bool, c: Call, j: nat)
    requires Acted(ws, acts) && GoesRight(acts, t, k, result, pending)
    requires At(ws[t[0]], k, Holding) && c == ws[t[0]].calls[k] && t[3] < j < |ws|
    ensures Found(ws[j], c, Completed(result))
    ensures t[4] < j ==> Told(c, Success(result, false, pending), false) in ws[j].answers
  {
    StepAt(ws, acts, t[0], ws[t[0]], acts[t[0]], ws[t[0] + 1]);
    StartMoves(ws[t[0]], ws[t[0] + 1], k);
    QuietStays(ws, acts, t[0] + 1, t[1], k);
    StepAt(ws, acts, t[1], ws[t[1]], acts[t[1]], ws[t[1] + 1]);
    PublishMoves(ws[t[1]], ws[t[1] + 1], k);
    QuietStays(ws, acts, t[1] + 1, t[2], k);
    StepAt(ws, acts, t[2], ws[t[2]], acts[t[2]], ws[t[2] + 1]);
    SubmitMoves(ws[t[2]], ws[t[2] + 1], k, result);
    QuietStays(ws, acts, t[2] + 1, t[3], k);
    GuardHolds(ws, acts, t[3], k, ws[t[3]]);
    StepAt(ws, acts, t[3], ws[t[3]], acts[t[3]], ws[t[3] + 1]);
    CompleteMoves(ws[t[3]], ws[t[3] + 1], k, result);
    RowStays(ws, acts, t[3] + 1, j, c.id, ws[t[3] + 1].table[c.id]);
    if t[4] < j {
      QuietStays(ws, acts, t[3] + 1, t[4], k);
      StepAt(ws, acts, t[4], ws[t[4]], acts[t[4]], ws[t[4] + 1]);
      CleanGives(ws[t[4]], ws[t[4] + 1], k, result, pending);
      AnswerStays(ws, acts, t[4] + 1, j, Told(c, Success(result, false, pending), false));
    }
  }

  // That it can

  /** The steps can be taken one after the other. */
  ghost predicate Feasible(w: World, script: seq<Action>)
    decreases |script|
  {
    script == [] || (Enabled(w, script[0]) && Feasible(Apply(w, script[0]), script[1..]))
  }

  ghost function After(w: World, script: seq<Action>): World
    requires Feasible(w, script)
    decreases |script|
  {
    if script == [] then w else After(Apply(w, script[0]), script[1..])
  }

  lemma FeasibleCons(w: World, a: Action, w': World, rest: seq<Action>)
    requires Enabled(w, a) && w' == Apply(w, a) && Feasible(w', rest)
    ensures Feasible(w, [a] + rest) && After(w, [a] + rest) == After(w', rest)
  {
    assert ([a] + rest)[1..] == rest;
  }

  lemma FeasibleOne(w: World, a: Action, w': World)
    requires Enabled(w, a) && w' == Apply(w, a)
    ensures Feasible(w, [a]) && After(w, [a]) == w'
  {
    FeasibleCons(w, a, w', []);
    assert [a] + [] == [a];
  }

  function ToComplete(k: nat, result: CommandResult, pending: bool): seq<Action> {
    [SubmitComplete(k, result)] + ([JobReturns(k, Runs)] + [CleanPublished(k, pending)])
  }

  function ToPublish(k: nat, result: CommandResult, pending: bool): seq<Action> {
    [StartPublish(k)] + ([PublishDone(k)] + ToComplete(k, result, pending))
  }

  function ToClaim(k: nat, result: CommandResult, pending: bool): seq<Action> {
    [SubmitClaim(k)] + ([JobReturns(k, Runs)] + ToPublish(k, result, pending))
  }

  function ToMaterialize(k: nat, id: CommandId, digest: Digest, result: CommandResult, pending: bool): seq<Action> {
    [Arrive(k, id, digest)] + ([ObserveReturns(k, Runs)] + ToClaim(k, result, pending))
  }

  /** The steps can be taken, and end in the answer and the row they should. */
  ghost predicate Ends(w: World, script: seq<Action>, c: Call, result: CommandResult, pending: bool) {
    && Feasible(w, script)
    && Told(c, Success(result, false, pending), false) in After(w, script).answers
    && Found(After(w, script), c, Completed(result))
  }

  lemma CanComplete(w: World, k: nat, c: Call, result: CommandResult, pending: bool)
    requires Stands(w, k, c, Published) && HeldBy(w.table, c.id, Materialize, c.digest, w.now)
    ensures Ends(w, ToComplete(k, result, pending), c, result, pending)
  {
    var w1 := Apply(w, SubmitComplete(k, result));
    SubmitMoves(w, w1, k, result);
    var w2 := Apply(w1, JobReturns(k, Runs));
    CompleteMoves(w1, w2, k, result);
    var w3 := Apply(w2, CleanPublished(k, pending));
    CleanGives(w2, w3, k, result, pending);
    FeasibleOne(w2, CleanPublished(k, pending), w3);
    FeasibleCons(w1, JobReturns(k, Runs), w2, [CleanPublished(k, pending)]);
    FeasibleCons(w, SubmitComplete(k, result), w1, [JobReturns(k, Runs)] + [CleanPublished(k, pending)]);
  }

  lemma CanPublish(w: World, k: nat, c: Call, result: CommandResult, pending: bool)
    requires Stands(w, k, c, Holding) && HeldBy(w.table, c.id, Materialize, c.digest, w.now)
    ensures Ends(w, ToPublish(k, result, pending), c, result, pending)
  {
    var w1 := Apply(w, StartPublish(k));
    StartMoves(w, w1, k);
    var w2 := Apply(w1, PublishDone(k));
    PublishMoves(w1, w2, k);
    CanComplete(w2, k, c, result, pending);
    FeasibleCons(w1, PublishDone(k), w2, ToComplete(k, result, pending));
    FeasibleCons(w, StartPublish(k), w1, [PublishDone(k)] + ToComplete(k, result, pending));
  }

  lemma CanClaim(w: World, k: nat, c: Call, job: Job, result: CommandResult, pending: bool)
    requires Stands(w, k, c, Resolving(job)) && Claimable(w.table, w.now, c, job)
    ensures Ends(w, ToClaim(k, result, pending), c, result, pending)
  {
    var w1 := Apply(w, SubmitClaim(k));
    SubmitClaims(w, w1, k, job);
    var w2 := Apply(w1, JobReturns(k, Runs));
    ClaimHolds(w1, w2, k, job);
    CanPublish(w2, k, c, result, pending);
    FeasibleCons(w1, JobReturns(k, Runs), w2, ToPublish(k, result, pending));
    FeasibleCons(w, SubmitClaim(k), w1, [JobReturns(k, Runs)] + ToPublish(k, result, pending));
  }

  /** The row is absent, an obligation to recover, or a claim another runtime left. */
  predicate Takeable(t: Table, now: Runtime, id: CommandId, digest: Digest) {
    CourseOf(RowAt(t, id), digest, now).Claims?
  }

  lemma TakeableIsClaimable(w: World, c: Call)
    requires Inv(w) && Takeable(w.table, w.now, c.id, c.digest)
    ensures Claimable(w.table, w.now, c, CourseOf(RowAt(w.table, c.id), c.digest, w.now).job)
  {
  }

  lemma CanObserve(w: World, k: nat, c: Call, result: CommandResult, pending: bool)
    requires Stands(w, k, c, Begun) && Takeable(w.table, w.now, c.id, c.digest)
    requires Claimable(w.table, w.now, c, CourseOf(RowAt(w.table, c.id), c.digest, w.now).job)
    ensures Ends(w, [ObserveReturns(k, Runs)] + ToClaim(k, result, pending), c, result, pending)
  {
    var w1 := Apply(w, ObserveReturns(k, Runs));
    ObserveSetsCourse(w, w1, k, w.calls[k]);
    CanClaim(w1, k, c, CourseOf(RowAt(w.table, c.id), c.digest, w.now).job, result, pending);
    FeasibleCons(w, ObserveReturns(k, Runs), w1, ToClaim(k, result, pending));
  }

  /** From every state of every run a new call on such a row can observe it, claim it, publish, complete and
      answer its result: so every obligation to recover can be met. */
  lemma MaterializeCanSucceed(w: World, k: nat, id: CommandId, digest: Digest, result: CommandResult, pending: bool, c: Call)
    requires Inv(w) && k !in w.calls && Takeable(w.table, w.now, id, digest) && c == Call(id, digest, false, Begun)
    ensures Ends(w, ToMaterialize(k, id, digest, result, pending), c, result, pending)
  {
    TakeableIsClaimable(w, c);
    var w1 := Apply(w, Arrive(k, id, digest));
    CanObserve(w1, k, c, result, pending);
    FeasibleCons(w, Arrive(k, id, digest), w1, [ObserveReturns(k, Runs)] + ToClaim(k, result, pending));
  }

  lemma Guards(w: World, k: nat)
    requires Inv(w) && k in w.calls && Guarded(w.calls[k].at)
    ensures HeldBy(w.table, w.calls[k].id, Materialize, w.calls[k].digest, w.now)
  {
  }

  /** From every state of every run a failure under the guard can be recorded and answered. */
  lemma FailureCanBeRecorded(w: World, a: Action, k: nat, c: Call, status: Status)
    requires Inv(w) && Enabled(w, a) && k in w.calls && c == w.calls[k] && Fails(a, k, status)
    ensures var script := [a] + [JobReturns(k, Runs)];
            && Feasible(w, script) && Found(After(w, script), c, status)
            && Told(c, Failure(status.code), status.TerminalRejected?) in After(w, script).answers
  {
    var w1 := Apply(w, a);
    FailureMoves(w, a, w1, k, status);
    Guards(w, k);
    var w2 := Apply(w1, JobReturns(k, Runs));
    FinishMoves(w1, w2, k, status);
    FeasibleOne(w1, JobReturns(k, Runs), w2);
    FeasibleCons(w, a, w1, [JobReturns(k, Runs)]);
  }

  // Where results come from

  /** The results submitted up to step `j`, by command. */
  ghost function Submitted(ws: seq<World>, acts: seq<Action>, j: nat): set<(CommandId, CommandResult)>
    requires j <= |acts| < |ws|
  {
    if j == 0 then {}
    else if acts[j - 1].SubmitComplete? && acts[j - 1].k in ws[j - 1].calls then
      Submitted(ws, acts, j - 1) + {(ws[j - 1].calls[acts[j - 1].k].id, acts[j - 1].result)}
    else Submitted(ws, acts, j - 1)
  }

  predicate RowFrom(row: Entry, id: CommandId, from: set<(CommandId, CommandResult)>) {
    row.op == Materialize && row.status.Completed? ==> (id, row.status.result) in from
  }

  predicate CallFrom(c: Call, from: set<(CommandId, CommandResult)>) {
    (c.at.Completing? || c.at.Dropped?) && c.at.job.CompleteJob? ==> (c.id, c.at.job.result) in from
  }

  ghost predicate ResultsFrom(w: World, from: set<(CommandId, CommandResult)>) {
    && (forall id :: id in w.table ==> RowFrom(w.table[id], id, from))
    && (forall k :: k in w.calls ==> CallFrom(w.calls[k], from))
  }

  lemma JobRowFrom(t: Table, now: Runtime, c: Call, job: Job, id: CommandId, from: set<(CommandId, CommandResult)>)
    requires job.CompleteJob? ==> (c.id, job.result) in from
    requires id in JobTable(t, now, c.id, c.digest, job) && (id in t ==> RowFrom(t[id], id, from))
    ensures RowFrom(JobTable(t, now, c.id, c.digest, job)[id], id, from)
  {
  }

  lemma JobResults(w: World, k: nat, fate: Fate, from: set<(CommandId, CommandResult)>)
    requires ResultsFrom(w, from) && InvJobs(w) && k in w.calls && Waiting(w.calls[k].at)
    ensures ResultsFrom(AfterJob(w, k, fate), from)
  {
    var c := w.calls[k];
    assert CallFrom(c, from) && GoodJob(c.at);
    forall id | id in JobTable(w.table, w.now, c.id, c.digest, c.at.job)
      ensures RowFrom(JobTable(w.table, w.now, c.id, c.digest, c.at.job)[id], id, from)
    {
      JobRowFrom(w.table, w.now, c, c.at.job, id, from);
    }
    JobMoves(w, k, fate);
  }

  lemma OrphanResults(w: World, k: nat, from: set<(CommandId, CommandResult)>)
    requires ResultsFrom(w, from) && k in w.calls && w.calls[k].at.Dropped?
    ensures ResultsFrom(AfterOrphan(w, k), from)
  {
    var c := w.calls[k];
    assert CallFrom(c, from);
    forall id | id in JobTable(w.table, w.now, c.id, c.digest, c.at.job)
      ensures RowFrom(JobTable(w.table, w.now, c.id, c.digest, c.at.job)[id], id, from)
    {
      JobRowFrom(w.table, w.now, c, c.at.job, id, from);
    }
  }

  lemma OutsideResults(w: World, a: Action, w': World, from: set<(CommandId, CommandResult)>)
    requires ResultsFrom(w, from) && Enabled(w, a) && w' == Apply(w, a) && !OfCall(a)
    ensures ResultsFrom(w', from)
  {
  }

  lemma SubmitResults(w: World, k: nat, result: CommandResult, from: set<(CommandId, CommandResult)>)
    requires ResultsFrom(w, from) && k in w.calls
    ensures ResultsFrom(Move(w, k, Completing(CompleteJob(result))), from + {(w.calls[k].id, result)})
  {
  }

  lemma DropResults(w: World, k: nat, from: set<(CommandId, CommandResult)>)
    requires ResultsFrom(w, from) && InvJobs(w) && k in w.calls
    ensures ResultsFrom(AfterDrop(w, k), from)
  {
    assert CallFrom(w.calls[k], from) && GoodJob(w.calls[k].at);
  }

  /** A move that leaves the ledger alone and submits nothing new. */
  lemma MoveResults(w: World, w': World, k: nat, from: set<(CommandId, CommandResult)>)
    requires ResultsFrom(w, from) && k in w'.calls && CallFrom(w'.calls[k], from)
    requires w'.calls == w.calls[k := w'.calls[k]] && w'.table == w.table
    ensures ResultsFrom(w', from)
  {
  }

  lemma CallMoves(w: World, a: Action, w': World)
    requires Enabled(w, a) && w' == Apply(w, a) && OfCall(a)
    requires !a.SubmitComplete? && !a.JobReturns? && !a.RunOrphan? && !a.DropFuture?
    ensures a.k in w'.calls && !w'.calls[a.k].at.Completing? && !w'.calls[a.k].at.Dropped?
    ensures w'.calls == w.calls[a.k := w'.calls[a.k]] && w'.table == w.table
  {
    if a.ObserveReturns? {
      ObserveMoves(w, a.k, a.fate);
    }
  }

  lemma StepResults(w: World, a: Action, w': World, from: set<(CommandId, CommandResult)>, from': set<(CommandId, CommandResult)>)
    requires ResultsFrom(w, from) && InvJobs(w) && Enabled(w, a) && w' == Apply(w, a)
    requires from' == if a.SubmitComplete? then from + {(w.calls[a.k].id, a.result)} else from
    ensures ResultsFrom(w', from')
  {
    if !OfCall(a) {
      OutsideResults(w, a, w', from);
    } else if a.SubmitComplete? {
      SubmitResults(w, a.k, a.result, from);
    } else if a.JobReturns? {
      JobResults(w, a.k, a.fate, from);
    } else if a.RunOrphan? {
      OrphanResults(w, a.k, from);
    } else if a.DropFuture? {
      DropResults(w, a.k, from);
    } else {
      CallMoves(w, a, w');
      MoveResults(w, w', a.k, from);
    }
  }

  lemma JobsAt(ws: seq<World>, acts: seq<Action>, i: nat, w: World)
    requires Acted(ws, acts) && i < |ws| && w == ws[i]
    ensures InvJobs(w)
  {
    InvAt(ws, acts, i, w);
  }

  lemma {:induction false} RunResults(ws: seq<World>, acts: seq<Action>, j: nat)
    requires Acted(ws, acts) && j < |ws|
    ensures ResultsFrom(ws[j], Submitted(ws, acts, j))
  {
    if j > 0 {
      RunResults(ws, acts, j - 1);
      JobsAt(ws, acts, j - 1, ws[j - 1]);
      StepAt(ws, acts, j - 1, ws[j - 1], acts[j - 1], ws[j]);
      StepResults(ws[j - 1], acts[j - 1], ws[j], Submitted(ws, acts, j - 1), Submitted(ws, acts, j));
    }
  }

  /** Step `m` submits this result for this command. */
  ghost predicate Submits(ws: seq<World>, acts: seq<Action>, m: nat, id: CommandId, result: CommandResult)
    requires m < |acts| < |ws|
  {
    acts[m].SubmitComplete? && acts[m].result == result && acts[m].k in ws[m].calls && ws[m].calls[acts[m].k].id == id
  }

  lemma {:induction false} SubmittedAt(ws: seq<World>, acts: seq<Action>, j: nat, id: CommandId, result: CommandResult) returns (m: nat)
    requires j <= |acts| < |ws| && (id, result) in Submitted(ws, acts, j)
    ensures m < j && Submits(ws, acts, m, id, result)
  {
    if (id, result) in Submitted(ws, acts, j - 1) {
      m := SubmittedAt(ws, acts, j - 1, id, result);
    } else {
      m := j - 1;
    }
  }

  /** Every success answered under an id, first or replayed, was submitted before by a call on that id. */
  lemma SuccessWasSubmitted(ws: seq<World>, acts: seq<Action>, j: nat, x: Answer) returns (m: nat)
    requires Acted(ws, acts) && j < |ws| && x in ws[j].answers && x.outcome.Success?
    ensures m < j && Submits(ws, acts, m, x.id, x.outcome.result)
  {
    InvAt(ws, acts, j, ws[j]);
    assert Truthful(ws[j].table, x);
    RunResults(ws, acts, j);
    assert RowFrom(ws[j].table[x.id], x.id, Submitted(ws, acts, j));
    m := SubmittedAt(ws, acts, j, x.id, x.outcome.result);
  }

  /** A restart opens the gate under a later runtime and keeps nothing but the ledger and the history, so
      every claim there was can be taken up. */
  lemma RestartRecovers(w: World, w': World, next: Runtime, id: CommandId)
    requires Inv(w) && Enabled(w, Restart(next)) && w' == Apply(w, Restart(next))
    ensures w'.table == w.table && w'.answers == w.answers && w'.effects == w.effects
    ensures w'.gate == Open && w'.calls == map[] && w'.now == next > w.now
    ensures id in w.table && w.table[id].op == Materialize && w.table[id].status == Claimed ==>
              Takeable(w'.table, w'.now, id, w.table[id].digest)
  {
  }

  // A call that is dropped

  /** A call dropped at a store job leaves the job to run, with the effect it would have had; under the guard
      the drop fails the runtime, before the claim returned it does not. */
  lemma DropLeavesTheJob(w: World, w': World, k: nat)
    requires Enabled(w, DropFuture(k)) && w' == Apply(w, DropFuture(k))
    ensures w'.table == w.table && w'.gate == if Guarded(w.calls[k].at) then Failed else w.gate
    ensures Waiting(w.calls[k].at) ==>
              && Stands(w', k, w.calls[k], Dropped(w.calls[k].at.job)) && Enabled(w', RunOrphan(k))
              && Apply(w', RunOrphan(k)).table == AfterJob(w, k, Runs).table
    ensures !Waiting(w.calls[k].at) ==> Stands(w', k, w.calls[k], Ended)
  {
    if Waiting(w.calls[k].at) {
      JobTables(w, k);
    }
  }

  lemma JobTables(w: World, k: nat)
    requires k in w.calls && Waiting(w.calls[k].at)
    ensures AfterJob(w, k, Runs).table == JobTable(w.table, w.now, w.calls[k].id, w.calls[k].digest, w.calls[k].at.job)
  {
  }
}
