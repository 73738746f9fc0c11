/** What an ingest call comes to: from the events it meets to the row and the answer it leaves, over
    runs with their actions and whatever other calls do in between. */
module IngestOutcomes {
  import opened Admission
  import opened Codes
  import opened IngestProtocol
  import opened IngestReplies
  import opened IngestRuns
  import opened Ledger
  import opened Options

  /** A step of call `k` itself. */
  predicate Own(a: Action, k: nat) {
    !a.RunOrphan? && !a.ClassifyRow? && !a.CloseGate? && !a.OtherCommand? && !a.Restart? && a.k == k
  }

  ghost predicate Did(limits: Limits, ws: seq<World>, acts: seq<Action>, i: nat)
    requires i + 1 < |ws| && i < |acts|
  {
    Enabled(ws[i], acts[i]) && ws[i + 1] == Apply(limits, ws[i], acts[i])
  }

  /** A run with the actions that made it. */
  ghost predicate Acted(limits: Limits, ws: seq<World>, acts: seq<Action>) {
    && |ws| == |acts| + 1 && Init(ws[0])
    && forall i :: 0 <= i < |acts| ==> Did(limits, ws, acts, i)
  }

  lemma ActedIsRun(limits: Limits, ws: seq<World>, acts: seq<Action>)
    requires Acted(limits, ws, acts)
    ensures Run(limits, ws)
  {
    forall i | 0 < i < |ws| ensures Step(limits, ws, i) {
      assert Did(limits, ws, acts, i - 1);
    }
  }

  lemma StepAt(limits: Limits, ws: seq<World>, acts: seq<Action>, i: nat, w: World, a: Action, w': World)
    requires Acted(limits, ws, acts) && i < |acts| && w == ws[i] && a == acts[i] && w' == ws[i + 1]
    ensures Enabled(w, a) && w' == Apply(limits, w, a)
  {
    assert Did(limits, ws, acts, i);
  }

  lemma InvAt(limits: Limits, ws: seq<World>, acts: seq<Action>, i: nat, w: World)
    requires Acted(limits, ws, acts) && i < |ws| && w == ws[i]
    ensures Inv(limits, w)
  {
    ActedIsRun(limits, ws, acts);
    RunKeeps(limits, ws, i);
  }

  // Between the steps of a call

  ghost predicate Aloof(acts: seq<Action>, m: nat, k: nat)
    requires m < |acts|
  {
    !Own(acts[m], k) && !acts[m].Restart?
  }

  /** From step `i` to step `j` call `k` takes no step, and the process is not restarted. */
  ghost predicate Quiet(acts: seq<Action>, i: nat, j: nat, k: nat)
    requires j <= |acts|
  {
    forall m :: i <= m < j ==> Aloof(acts, m, k)
  }

  lemma OthersLeave(limits: Limits, w: World, a: Action, w': World, k: nat)
    requires Enabled(w, a) && w' == Apply(limits, w, a) && !Own(a, k) && !a.Restart? && k in w.calls
    ensures k in w'.calls && w'.calls[k] == w.calls[k] && w'.now == w.now
  {
    if a.ClaimReturns? || a.CompleteReturns? || a.FinishReturns? {
      StoreMovesOne(w, a, w');
    }
  }

  lemma {:induction false} QuietStays(limits: Limits, ws: seq<World>, acts: seq<Action>, i: nat, j: nat, k: nat)
    requires Acted(limits, ws, acts) && i <= j < |ws| && Quiet(acts, i, j, k) && k in ws[i].calls
    ensures k in ws[j].calls && ws[j].calls[k] == ws[i].calls[k] && ws[j].now == ws[i].now
    decreases j
  {
    if i < j {
      QuietStays(limits, ws, acts, i, j - 1, k);
      assert Aloof(acts, j - 1, k);
      StepAt(limits, ws, acts, j - 1, ws[j - 1], acts[j - 1], ws[j]);
      OthersLeave(limits, ws[j - 1], acts[j - 1], ws[j], k);
    }
  }

  lemma AnswersGrow(limits: Limits, w: World, a: Action, w': World)
    requires Enabled(w, a) && w' == Apply(limits, w, a)
    ensures w.answers <= w'.answers
  {
    ActionEvolves(limits, w, a);
  }

  lemma {:induction false} AnswerStays(limits: Limits, ws: seq<World>, acts: seq<Action>, i: nat, j: nat, x: Answer)
    requires Acted(limits, ws, acts) && i <= j < |ws| && x in ws[i].answers
    ensures x in ws[j].answers
    decreases j
  {
    if i < j {
      AnswerStays(limits, ws, acts, i, j - 1, x);
      StepAt(limits, ws, acts, j - 1, ws[j - 1], acts[j - 1], ws[j]);
      AnswersGrow(limits, ws[j - 1], acts[j - 1], ws[j]);
    }
  }

  // The way to the answer

  /** The call is at `at`, otherwise as `c`. */
  predicate Stands(w: World, k: nat, c: Call, at: Counter) {
    k in w.calls && w.calls[k] == c.(at := at)
  }

  /** A call that is leaving, once released, has given its answer for good. */
  lemma LeavingAnswers(limits: Limits, ws: seq<World>, acts: seq<Action>, i: nat, j: nat, m: nat, k: nat, x: Answer)
    requires Acted(limits, ws, acts) && i <= j < m < |ws| && Quiet(acts, i, j, k) && acts[j] == ReleaseCall(k)
    requires k in ws[i].calls && ws[i].calls[k].at.Leaving? && x == AnswerOf(ws[i].calls[k])
    ensures x in ws[m].answers
  {
    QuietStays(limits, ws, acts, i, j, k);
    StepAt(limits, ws, acts, j, ws[j], acts[j], ws[j + 1]);
    ReleaseGives(limits, ws[j], ws[j + 1], k);
    AnswerStays(limits, ws, acts, j + 1, m, x);
  }

  lemma ReleaseGives(limits: Limits, w: World, w': World, k: nat)
    requires k in w.calls && w.calls[k].at.Leaving? && w' == Apply(limits, w, ReleaseCall(k))
    ensures AnswerOf(w.calls[k]) in w'.answers && k in w'.calls && w'.calls[k] == w.calls[k].(at := Returned)
    ensures w'.table == w.table && w'.now == w.now
  {
  }

  /** The claim of an absent id is granted: the call holds the row. */
  lemma ClaimGrants(limits: Limits, w: World, w': World, k: nat)
    requires At(w, k, Claiming) && w.calls[k].id !in w.table && w' == Apply(limits, w, ClaimReturns(k, Runs))
    ensures Stands(w', k, w.calls[k].(claimed := true), Holding) && w'.now == w.now
    ensures HeldBy(w'.table, w.calls[k].id, Ingest, w.calls[k].digest, w.now)
  {
  }

  lemma StartMoves(limits: Limits, w: World, w': World, k: nat)
    requires At(w, k, Holding) && w' == Apply(limits, w, StartIngest(k))
    ensures Stands(w', k, w.calls[k], Ingesting) && w'.table == w.table && w'.now == w.now
  {
  }

  lemma StoreMoves(limits: Limits, w: World, w': World, k: nat)
    requires At(w, k, Ingesting) && w' == Apply(limits, w, IngestStores(k))
    ensures Stands(w', k, w.calls[k], BlobStored) && w'.table == w.table && w'.now == w.now
  {
  }

  lemma SubmitMoves(limits: Limits, w: World, w': World, k: nat, result: nat)
    requires At(w, k, BlobStored) && w' == Apply(limits, w, SubmitComplete(k, result))
    ensures Stands(w', k, w.calls[k], Completing(result)) && w'.table == w.table && w'.now == w.now
  {
  }

  /** A completion that runs records the result, and the call leaves with it. */
  lemma CompleteMoves(limits: Limits, w: World, w': World, k: nat, result: nat)
    requires At(w, k, Completing(result)) && HeldBy(w.table, w.calls[k].id, Ingest, w.calls[k].digest, w.now)
    requires w' == Apply(limits, w, CompleteReturns(k, Runs))
    ensures Stands(w', k, w.calls[k], Leaving(Success(result), true)) && w'.now == w.now
    ensures w'.table == w.table[w.calls[k].id := w.table[w.calls[k].id].(status := Completed(Registration(result)))]
  {
  }

  /** The row has this ingest's result. */
  predicate Holds(w: World, id: CommandId, digest: Digest, result: nat) {
    Bound(w.table, id, Ingest, digest) && w.table[id].status == Completed(Registration(result))
  }

  lemma RowStays(limits: Limits, ws: seq<World>, acts: seq<Action>, i: nat, j: nat, id: CommandId, row: Entry)
    requires Acted(limits, ws, acts) && i <= j < |ws| && id in ws[i].table && ws[i].table[id] == row
    requires row.op == Ingest && row.status != Claimed
    ensures id in ws[j].table && ws[j].table[id] == row
  {
    ActedIsRun(limits, ws, acts);
    RunRow(limits, ws, i, j, id);
  }

  /** The six steps of a call that goes right, from its claim on, at the times `t`. */
  ghost predicate GoesRight(acts: seq<Action>, t: seq<nat>, k: nat, result: nat) {
    && |t| == 6 && t[0] < t[1] < t[2] < t[3] < t[4] < t[5] < |acts|
    && acts[t[0]] == ClaimReturns(k, Runs) && acts[t[1]] == StartIngest(k) && acts[t[2]] == IngestStores(k)
    && acts[t[3]] == SubmitComplete(k, result) && acts[t[4]] == CompleteReturns(k, Runs) && acts[t[5]] == ReleaseCall(k)
    && Quiet(acts, t[0] + 1, t[1], k) && Quiet(acts, t[1] + 1, t[2], k) && Quiet(acts, t[2] + 1, t[3], k)
    && Quiet(acts, t[3] + 1, t[4], k) && Quiet(acts, t[4] + 1, t[5], k)
  }

  /** Up to the completion: the call is on its way with the result it submitted. */
  lemma ReachesCompleting(limits: Limits, ws: seq<World>, acts: seq<Action>, t: seq<nat>, k: nat, result: nat, c: Call)
    requires Acted(limits, ws, acts) && GoesRight(acts, t, k, result)
    requires At(ws[t[0]], k, Claiming) && c == ws[t[0]].calls[k].(claimed := true) && c.id !in ws[t[0]].table
    ensures Stands(ws[t[4]], k, c, Completing(result))
  {
    StepAt(limits, ws, acts, t[0], ws[t[0]], acts[t[0]], ws[t[0] + 1]);
    ClaimGrants(limits, ws[t[0]], ws[t[0] + 1], k);
    QuietStays(limits, ws, acts, t[0] + 1, t[1], k);
    StepAt(limits, ws, acts, t[1], ws[t[1]], acts[t[1]], ws[t[1] + 1]);
    StartMoves(limits, ws[t[1]], ws[t[1] + 1], k);
    QuietStays(limits, ws, acts, t[1] + 1, t[2], k);
    StepAt(limits, ws, acts, t[2], ws[t[2]], acts[t[2]], ws[t[2] + 1]);
    StoreMoves(limits, ws[t[2]], ws[t[2] + 1], k);
    QuietStays(limits, ws, acts, t[2] + 1, t[3], k);
    StepAt(limits, ws, acts, t[3], ws[t[3]], acts[t[3]], ws[t[3] + 1]);
    SubmitMoves(limits, ws[t[3]], ws[t[3] + 1], k, result);
    QuietStays(limits, ws, acts, t[3] + 1, t[4], k);
  }

  lemma GuardHolds(limits: Limits, ws: seq<World>, acts: seq<Action>, i: nat, k: nat, w: World)
    requires Acted(limits, ws, acts) && i < |ws| && w == ws[i] && k in w.calls && Guarded(w.calls[k].at)
    ensures w.calls[k].claimed && HeldBy(w.table, w.calls[k].id, Ingest, w.calls[k].digest, w.now)
  {
    InvAt(limits, ws, acts, i, w);
  }

  /** A call whose claim ran on an absent id, whose ingest stored, and whose completion ran, whatever others
      did in between: its row has the result it submitted, and that is its answer, both for good. */
  lemma SuccessIsRecorded(limits: Limits, ws: seq<World>, acts: seq<Action>, t: seq<nat>, k: nat, result: nat, c: Call, j: nat)
    requires Acted(limits, ws, acts) && GoesRight(acts, t, k, result)
    requires At(ws[t[0]], k, Claiming) && c == ws[t[0]].calls[k].(claimed := true) && c.id !in ws[t[0]].table
    requires t[4] < j < |ws|
    ensures Holds(ws[j], c.id, c.digest, result)
    ensures t[5] < j ==> Answer(c.id, c.digest, true, Success(result), true) in ws[j].answers
  {
    ReachesCompleting(limits, ws, acts, t, k, result, c);
    GuardHolds(limits, ws, acts, t[4], k, ws[t[4]]);
    StepAt(limits, ws, acts, t[4], ws[t[4]], acts[t[4]], ws[t[4] + 1]);
    CompleteMoves(limits, ws[t[4]], ws[t[4] + 1], k, result);
    RowStays(limits, ws, acts, t[4] + 1, j, c.id, ws[t[4] + 1].table[c.id]);
    if t[5] < j {
      LeavingAnswers(limits, ws, acts, t[4] + 1, t[5], j, k, Answer(c.id, c.digest, true, Success(result), true));
    }
  }

  // That it can go right

  /** The steps can be taken one after the other. */
  ghost predicate Feasible(limits: Limits, w: World, script: seq<Action>)
    decreases |script|
  {
    script == [] || (Enabled(w, script[0]) && Feasible(limits, Apply(limits, w, script[0]), script[1..]))
  }

  ghost function After(limits: Limits, w: World, script: seq<Action>): World
    requires Feasible(limits, w, script)
    decreases |script|
  {
    if script == [] then w else After(limits, Apply(limits, w, script[0]), script[1..])
  }

  lemma FeasibleCons(limits: Limits, w: World, a: Action, w': World, rest: seq<Action>)
    requires Enabled(w, a) && w' == Apply(limits, w, a) && Feasible(limits, w', rest)
    ensures Feasible(limits, w, [a] + rest) && After(limits, w, [a] + rest) == After(limits, w', rest)
  {
    assert ([a] + rest)[1..] == rest;
  }

  function ToLeave(k: nat): seq<Action> {
    [ReleaseCall(k)]
  }

  function ToComplete(k: nat, result: nat): seq<Action> {
    [SubmitComplete(k, result)] + ([CompleteReturns(k, Runs)] + ToLeave(k))
  }

  function ToStore(k: nat, result: nat): seq<Action> {
    [StartIngest(k)] + ([IngestStores(k)] + ToComplete(k, result))
  }

  function ToClaim(k: nat, result: nat): seq<Action> {
    [SubmitClaim(k)] + ([ClaimReturns(k, Runs)] + ToStore(k, result))
  }

  function ToIngest(k: nat, id: CommandId, digest: Digest, result: nat): seq<Action> {
    [Arrive(k, id, digest)] + ([Acquire(k)] + ToClaim(k, result))
  }

  /** The steps can be taken, and end in the answer and the row they should. */
  ghost predicate Ends(limits: Limits, w: World, script: seq<Action>, c: Call, result: nat) {
    && Feasible(limits, w, script)
    && Answer(c.id, c.digest, true, Success(result), true) in After(limits, w, script).answers
    && Holds(After(limits, w, script), c.id, c.digest, result)
  }

  lemma CanLeave(limits: Limits, w: World, k: nat, c: Call, result: nat)
    requires Stands(w, k, c, Leaving(Success(result), true)) && c.claimed && Holds(w, c.id, c.digest, result)
    ensures Ends(limits, w, ToLeave(k), c, result)
  {
    var w' := Apply(limits, w, ReleaseCall(k));
    ReleaseGives(limits, w, w', k);
    FeasibleCons(limits, w, ReleaseCall(k), w', []);
    assert ToLeave(k) == [ReleaseCall(k)] + [];
  }

  lemma CanComplete(limits: Limits, w: World, k: nat, c: Call, result: nat)
    requires Stands(w, k, c, BlobStored) && c.claimed && HeldBy(w.table, c.id, Ingest, c.digest, w.now)
    ensures Ends(limits, w, ToComplete(k, result), c, result)
  {
    var w1 := Apply(limits, w, SubmitComplete(k, result));
    SubmitMoves(limits, w, w1, k, result);
    var w2 := Apply(limits, w1, CompleteReturns(k, Runs));
    CompleteMoves(limits, w1, w2, k, result);
    CanLeave(limits, w2, k, c, result);
    FeasibleCons(limits, w1, CompleteReturns(k, Runs), w2, ToLeave(k));
    FeasibleCons(limits, w, SubmitComplete(k, result), w1, [CompleteReturns(k, Runs)] + ToLeave(k));
  }

  lemma CanStore(limits: Limits, w: World, k: nat, c: Call, result: nat)
    requires Stands(w, k, c, Holding) && c.claimed && HeldBy(w.table, c.id, Ingest, c.digest, w.now)
    ensures Ends(limits, w, ToStore(k, result), c, result)
  {
    var w1 := Apply(limits, w, StartIngest(k));
    StartMoves(limits, w, w1, k);
    var w2 := Apply(limits, w1, IngestStores(k));
    StoreMoves(limits, w1, w2, k);
    CanComplete(limits, w2, k, c, result);
    FeasibleCons(limits, w1, IngestStores(k), w2, ToComplete(k, result));
    FeasibleCons(limits, w, StartIngest(k), w1, [IngestStores(k)] + ToComplete(k, result));
  }

  lemma ClaimSubmits(limits: Limits, w: World, w': World, k: nat)
    requires At(w, k, Admitted) && w' == Apply(limits, w, SubmitClaim(k))
    ensures Stands(w', k, w.calls[k], Claiming) && w'.table == w.table && w'.now == w.now
  {
  }

  lemma CanClaim(limits: Limits, w: World, k: nat, c: Call, result: nat)
    requires Stands(w, k, c.(claimed := false), Admitted) && c.claimed && c.id !in w.table
    ensures Ends(limits, w, ToClaim(k, result), c, result)
  {
    var w1 := Apply(limits, w, SubmitClaim(k));
    ClaimSubmits(limits, w, w1, k);
    var w2 := Apply(limits, w1, ClaimReturns(k, Runs));
    ClaimGrants(limits, w1, w2, k);
    CanStore(limits, w2, k, c, result);
    FeasibleCons(limits, w1, ClaimReturns(k, Runs), w2, ToStore(k, result));
    FeasibleCons(limits, w, SubmitClaim(k), w1, [ClaimReturns(k, Runs)] + ToStore(k, result));
  }

  /** The registry has room, and no binding for the id. */
  predicate HasRoom(s: State, limits: Limits, id: CommandId) {
    id !in s.bindings && |s.bindings| < limits.bindings && s.executions < limits.executions
  }

  lemma Admits(limits: Limits, w: World, w': World, k: nat)
    requires At(w, k, Entered) && HasRoom(w.registry, limits, w.calls[k].id) && w' == Apply(limits, w, Acquire(k))
    ensures Stands(w', k, w.calls[k], Admitted) && w'.table == w.table && w'.now == w.now
  {
  }

  /** From every state of every run a new call on an id that is neither bound nor recorded, with room in the
      registry, can be admitted, claim, ingest, complete and answer its result. */
  lemma IngestCanSucceed(limits: Limits, w: World, k: nat, id: CommandId, digest: Digest, result: nat)
    requires k !in w.calls && HasRoom(w.registry, limits, id) && id !in w.table
    ensures Ends(limits, w, ToIngest(k, id, digest, result), Call(id, digest, true, Returned), result)
  {
    var c := Call(id, digest, true, Returned);
    var w1 := Apply(limits, w, Arrive(k, id, digest));
    var w2 := Apply(limits, w1, Acquire(k));
    Admits(limits, w1, w2, k);
    CanClaim(limits, w2, k, c, result);
    FeasibleCons(limits, w1, Acquire(k), w2, ToClaim(k, result));
    FeasibleCons(limits, w, Arrive(k, id, digest), w1, [Acquire(k)] + ToClaim(k, result));
  }

  // Failures after the claim

  /** What a failure after the claim records, and what its caller is told. */
  function FailingVerdict(a: Action): Option<Verdict> {
    match a
    case StopHeld(_, stop) => Some(Record(true, StopCode(stop), Failure(StopCode(stop), FreshCommandAfterBoundedDelay)))
    case IngestStops(_, stop) => Some(Record(true, StopCode(stop), Failure(StopCode(stop), FreshCommandAfterBoundedDelay)))
    case IngestFails(_, e) => Some(MapBlobError(e))
    case IdsFail(_) =>
      Some(Record(false, IdGenerationUnavailable, Failure(IdGenerationUnavailable, AfterOperatorOrRuntimeAction)))
    case _ => None
  }

  predicate Fails(a: Action, k: nat, v: Verdict) {
    Own(a, k) && FailingVerdict(a) == Some(v) && v.Record?
  }

  lemma FailureMoves(limits: Limits, w: World, a: Action, w': World, k: nat, v: Verdict)
    requires Enabled(w, a) && w' == Apply(limits, w, a) && Fails(a, k, v)
    ensures k in w.calls && Guarded(w.calls[k].at) && Stands(w', k, w.calls[k], Finishing(v.terminal, v.code, v.reply))
    ensures w'.table == w.table && w'.now == w.now
  {
  }

  lemma FinishMoves(limits: Limits, w: World, w': World, k: nat, v: Verdict)
    requires v.Record? && At(w, k, Finishing(v.terminal, v.code, v.reply))
    requires HeldBy(w.table, w.calls[k].id, Ingest, w.calls[k].digest, w.now)
    requires w' == Apply(limits, w, FinishReturns(k, Runs))
    ensures Stands(w', k, w.calls[k], Leaving(v.reply, true)) && w'.now == w.now
    ensures w'.table == w.table[w.calls[k].id :=
                          w.table[w.calls[k].id].(status := if v.terminal then TerminalRejected(v.code) else RecoveryRequired(v.code))]
  {
  }

  /** The row has the failure's record. */
  predicate Records(w: World, id: CommandId, digest: Digest, v: Verdict)
    requires v.Record?
  {
    && Bound(w.table, id, Ingest, digest)
    && w.table[id].status == if v.terminal then TerminalRejected(v.code) else RecoveryRequired(v.code)
  }

  /** A stop, a storage error with a record, or a failing clock after the claim: once its finish ran the row
      has that record, and once released the caller was told what goes with it, both for good. */
  lemma FailureIsRecorded(limits: Limits, ws: seq<World>, acts: seq<Action>, i: nat, f: nat, l: nat, j: nat, k: nat, v: Verdict)
    requires Acted(limits, ws, acts) && i < f < l < |acts| && f < j < |ws| && Fails(acts[i], k, v)
    requires acts[f] == FinishReturns(k, Runs) && acts[l] == ReleaseCall(k)
    requires Quiet(acts, i + 1, f, k) && Quiet(acts, f + 1, l, k)
    ensures k in ws[i].calls && Records(ws[j], ws[i].calls[k].id, ws[i].calls[k].digest, v)
    ensures l < j ==> Answer(ws[i].calls[k].id, ws[i].calls[k].digest, true, v.reply, true) in ws[j].answers
  {
    StepAt(limits, ws, acts, i, ws[i], acts[i], ws[i + 1]);
    FailureMoves(limits, ws[i], acts[i], ws[i + 1], k, v);
    GuardHolds(limits, ws, acts, i, k, ws[i]);
    var c := ws[i].calls[k];
    QuietStays(limits, ws, acts, i + 1, f, k);
    GuardHolds(limits, ws, acts, f, k, ws[f]);
    StepAt(limits, ws, acts, f, ws[f], acts[f], ws[f + 1]);
    FinishMoves(limits, ws[f], ws[f + 1], k, v);
    RowStays(limits, ws, acts, f + 1, j, c.id, ws[f + 1].table[c.id]);
    if l < j {
      LeavingAnswers(limits, ws, acts, f + 1, l, j, k, Answer(c.id, c.digest, true, v.reply, true));
    }
  }

  function ToFinish(a: Action, k: nat): seq<Action> {
    [a] + ([FinishReturns(k, Runs)] + ToLeave(k))
  }

  lemma CanFinish(limits: Limits, w: World, k: nat, c: Call, v: Verdict)
    requires v.Record? && Stands(w, k, c, Finishing(v.terminal, v.code, v.reply)) && c.claimed
    requires HeldBy(w.table, c.id, Ingest, c.digest, w.now)
    ensures var script := [FinishReturns(k, Runs)] + ToLeave(k);
            && Feasible(limits, w, script)
            && Records(After(limits, w, script), c.id, c.digest, v)
            && Answer(c.id, c.digest, true, v.reply, true) in After(limits, w, script).answers
  {
    var w1 := Apply(limits, w, FinishReturns(k, Runs));
    FinishMoves(limits, w, w1, k, v);
    var w2 := Apply(limits, w1, ReleaseCall(k));
    ReleaseGives(limits, w1, w2, k);
    FeasibleCons(limits, w1, ReleaseCall(k), w2, []);
    assert ToLeave(k) == [ReleaseCall(k)] + [];
    FeasibleCons(limits, w, FinishReturns(k, Runs), w1, ToLeave(k));
  }

  lemma Guards(limits: Limits, w: World, k: nat)
    requires Inv(limits, w) && k in w.calls && Guarded(w.calls[k].at)
    ensures w.calls[k].claimed && HeldBy(w.table, w.calls[k].id, Ingest, w.calls[k].digest, w.now)
  {
  }

  /** From every state of every run such a failure can be recorded and answered. */
  lemma FailureCanBeRecorded(limits: Limits, w: World, a: Action, k: nat, v: Verdict)
    requires Inv(limits, w) && Enabled(w, a) && Fails(a, k, v)
    ensures k in w.calls && Feasible(limits, w, ToFinish(a, k))
    ensures Records(After(limits, w, ToFinish(a, k)), w.calls[k].id, w.calls[k].digest, v)
    ensures Answer(w.calls[k].id, w.calls[k].digest, true, v.reply, true) in After(limits, w, ToFinish(a, k)).answers
  {
    var w1 := Apply(limits, w, a);
    FailureMoves(limits, w, a, w1, k, v);
    Guards(limits, w, k);
    CanFinish(limits, w1, k, w.calls[k], v);
    FeasibleCons(limits, w, a, w1, [FinishReturns(k, Runs)] + ToLeave(k));
  }

  /** Anything else that goes wrong under the guard fails the runtime, and the call leaves without a response. */
  lemma OtherwiseTheRuntimeFails(limits: Limits, w: World, a: Action, w': World, k: nat)
    requires Enabled(w, a) && w' == Apply(limits, w, a) && Own(a, k)
    requires || a.AbandonClaim? || (a.IngestFails? && MapBlobError(a.error).Abandon?)
             || ((a.CompleteReturns? || a.FinishReturns?) && !a.fate.Runs?)
    ensures k in w.calls && w'.gate == Failed && Stands(w', k, w.calls[k], Leaving(RuntimeFailed, false))
  {
  }

  /** A store job that fails fatally closes the gate, whoever waited for it. */
  lemma FatalClosesTheGate(limits: Limits, w: World, a: Action, w': World)
    requires Enabled(w, a) && w' == Apply(limits, w, a) && (a.ClaimReturns? || a.CompleteReturns? || a.FinishReturns?)
    ensures a.fate.Fatal? ==> w'.gate != Open
    ensures w.gate == Failed ==> w'.gate == Failed
  {
  }

  // Answers without a claim

  /** What the claim of a recorded id is told, by the row. */
  function RowReply(row: Entry, digest: Digest, now: Runtime): (Reply, bool)
    requires row.status.Completed? ==> row.status.result.Registration? || row.op != Ingest || row.digest != digest
  {
    if row.op != Ingest || row.digest != digest then (Failure(Conflict, No), false)
    else
      match row.status
      case Claimed =>
        if row.runtime == now then (Failure(CommandInProgress, SameCommandAfterBoundedDelay), false)
        else (Failure(StorageConfigurationError, AfterOperatorOrRuntimeAction), true)
      case Completed(result) => (Success(result.value), true)
      case TerminalRejected(code) => (Failure(code, RetryForTerminal(code)), true)
      case RecoveryRequired(code) => (Failure(code, AfterOperatorOrRuntimeAction), true)
  }

  lemma RowTells(limits: Limits, w: World, w': World, k: nat, c: Call, row: Entry)
    requires At(w, k, Claiming) && c == w.calls[k] && c.id in w.table && row == w.table[c.id]
    requires (row.op == Ingest ==> Recordable(row.status)) && w' == Apply(limits, w, ClaimReturns(k, Runs))
    ensures var (reply, durable) := RowReply(row, c.digest, w.now); Stands(w', k, c, Leaving(reply, durable))
    ensures w'.table == if row.op == Ingest && row.digest == c.digest && row.runtime != w.now
                        then w.table[c.id := Settle(row)] else w.table
  {
  }

  /** A claim that runs on a recorded id changes nothing but a claim left by another runtime, and the call
      leaves with what the row says. */
  lemma ClaimIsTold(limits: Limits, w: World, w': World, k: nat, c: Call, row: Entry)
    requires Inv(limits, w) && At(w, k, Claiming) && c == w.calls[k] && c.id in w.table && row == w.table[c.id]
    requires w' == Apply(limits, w, ClaimReturns(k, Runs))
    ensures row.op == Ingest ==> Recordable(row.status)
    ensures var (reply, durable) := RowReply(row, c.digest, w.now); Stands(w', k, c, Leaving(reply, durable))
    ensures w'.table == if row.op == Ingest && row.digest == c.digest && row.runtime != w.now
                        then w.table[c.id := Settle(row)] else w.table
  {
    assert InvRows(w);
    RowTells(limits, w, w', k, c, row);
  }

  /** A claim the store turned down or failed at leaves with what its error says. */
  lemma ClaimErrorIsTold(limits: Limits, w: World, w': World, k: nat, fate: Fate)
    requires At(w, k, Claiming) && Enabled(w, ClaimReturns(k, fate)) && !fate.Runs?
    requires w' == Apply(limits, w, ClaimReturns(k, fate))
    ensures Stands(w', k, w.calls[k], Leaving(MapClaimError(if fate.Turned? then fate.error else fate.fatal), false))
    ensures fate.Turned? ==> w'.table == w.table && w'.gate == w.gate
    ensures fate.Fatal? ==> w'.gate != Open
    ensures var at := w'.calls[k].at; at.reply.Failure? ==> at.reply.code == CodeOf(if fate.Turned? then fate.error else fate.fatal)
  {
    ClaimErrorsKeepTheirCode(if fate.Turned? then fate.error else fate.fatal);
  }

  /** A second call for a request that is running is told so, one beyond a capacity to come back, and both
      leave everything else as it is. */
  lemma AdmissionIsTold(limits: Limits, w: World, w': World, k: nat, c: Call)
    requires Inv(limits, w) && At(w, k, Entered) && c == w.calls[k] && w' == Apply(limits, w, Acquire(k))
    ensures (exists j :: j in w.calls && Registered(w.calls[j].at) && w.calls[j].id == c.id && w.calls[j].digest == c.digest) ==>
              w' == Answered(w, k, Failure(CommandInProgress, SameCommandAfterBoundedDelay), false)
    ensures c.id !in w.registry.bindings && !HasRoom(w.registry, limits, c.id) ==>
              w' == Answered(w, k, Failure(Backpressure, SameCommandAfterBoundedDelay), false)
    ensures HasRoom(w.registry, limits, c.id) ==>
              Stands(w', k, c, Admitted) && w'.registry.bindings == w.registry.bindings[c.id := c.digest]
  {
    if j :| j in w.calls && Registered(w.calls[j].at) && w.calls[j].id == c.id && w.calls[j].digest == c.digest {
      assert w.registry.bindings[c.id] == c.digest;
    }
  }

  /** A call turned away early, or stopped between admission and claim, answers just that. */
  lemma EarlyIsTold(limits: Limits, w: World, k: nat, reply: Reply)
    requires k in w.calls
    ensures Enabled(w, TurnAway(k, reply)) ==>
              Answer(w.calls[k].id, w.calls[k].digest, w.calls[k].claimed, reply, false) in Apply(limits, w, TurnAway(k, reply)).answers
    ensures Enabled(w, Withdraw(k, reply)) ==>
              Stands(Apply(limits, w, Withdraw(k, reply)), k, w.calls[k], Leaving(reply, false))
  {
  }

  // Where results come from

  /** The results submitted up to step `j`, by command. */
  ghost function Submitted(ws: seq<World>, acts: seq<Action>, j: nat): set<(CommandId, nat)>
    requires j <= |acts| < |ws|
  {
    if j == 0 then {}
    else if acts[j - 1].SubmitComplete? && acts[j - 1].k in ws[j - 1].calls then
      Submitted(ws, acts, j - 1) + {(ws[j - 1].calls[acts[j - 1].k].id, acts[j - 1].result)}
    else Submitted(ws, acts, j - 1)
  }

  predicate RowFrom(row: Entry, id: CommandId, from: set<(CommandId, nat)>) {
    row.op == Ingest && row.status.Completed? && row.status.result.Registration? ==> (id, row.status.result.value) in from
  }

  predicate CallFrom(c: Call, from: set<(CommandId, nat)>) {
    c.at.Completing? ==> (c.id, c.at.result) in from
  }

  predicate JobFrom(job: Job, from: set<(CommandId, nat)>) {
    job.CompleteJob? ==> (job.id, job.result) in from
  }

  ghost predicate ResultsFrom(w: World, from: set<(CommandId, nat)>) {
    && (forall id :: id in w.table ==> RowFrom(w.table[id], id, from))
    && (forall k :: k in w.calls ==> CallFrom(w.calls[k], from))
    && (forall job :: job in w.orphans ==> JobFrom(job, from))
  }

  lemma ClaimResults(w: World, k: nat, fate: Fate, from: set<(CommandId, nat)>)
    requires ResultsFrom(w, from) && k in w.calls
    ensures ResultsFrom(AfterClaim(w, k, fate), from)
  {
  }

  lemma CompleteResults(w: World, k: nat, fate: Fate, from: set<(CommandId, nat)>)
    requires ResultsFrom(w, from) && k in w.calls && w.calls[k].at.Completing?
    ensures ResultsFrom(AfterComplete(w, k, fate), from)
  {
    assert CallFrom(w.calls[k], from);
  }

  lemma FinishResults(w: World, k: nat, fate: Fate, from: set<(CommandId, nat)>)
    requires ResultsFrom(w, from) && k in w.calls && w.calls[k].at.Finishing?
    ensures ResultsFrom(AfterFinish(w, k, fate), from)
  {
  }

  lemma StoreResults(limits: Limits, w: World, a: Action, w': World, from: set<(CommandId, nat)>)
    requires ResultsFrom(w, from) && Enabled(w, a) && w' == Apply(limits, w, a)
    requires a.ClaimReturns? || a.CompleteReturns? || a.FinishReturns?
    ensures ResultsFrom(w', from)
  {
    match a
    case ClaimReturns(k, fate) => ClaimResults(w, k, fate, from);
    case CompleteReturns(k, fate) => CompleteResults(w, k, fate, from);
    case FinishReturns(k, fate) => FinishResults(w, k, fate, from);
  }

  lemma OrphanResults(w: World, job: Job, w': World, from: set<(CommandId, nat)>)
    requires ResultsFrom(w, from) && job in w.orphans && w' == w.(table := JobTable(w, job), orphans := w.orphans - {job})
    ensures ResultsFrom(w', from)
  {
    assert JobFrom(job, from);
  }

  lemma OutsideResults(limits: Limits, w: World, a: Action, w': World, from: set<(CommandId, nat)>)
    requires ResultsFrom(w, from) && Enabled(w, a) && w' == Apply(limits, w, a)
    requires a.ClassifyRow? || a.CloseGate? || a.OtherCommand? || a.Restart?
    ensures ResultsFrom(w', from)
  {
  }

  /** A move that leaves the ledger alone and submits nothing new. */
  lemma MoveResults(w: World, w': World, k: nat, from: set<(CommandId, nat)>)
    requires ResultsFrom(w, from) && k in w'.calls && CallFrom(w'.calls[k], from)
    requires w'.calls == w.calls[k := w'.calls[k]] && w'.table == w.table && w'.orphans == w.orphans
    ensures ResultsFrom(w', from)
  {
  }

  lemma SubmitResults(w: World, k: nat, result: nat, from: set<(CommandId, nat)>)
    requires ResultsFrom(w, from) && k in w.calls
    ensures ResultsFrom(Move(w, k, Completing(result)), from + {(w.calls[k].id, result)})
  {
  }

  lemma DropResults(w: World, k: nat, from: set<(CommandId, nat)>)
    requires ResultsFrom(w, from) && k in w.calls
    ensures ResultsFrom(AfterDrop(w, k), from)
  {
    assert CallFrom(w.calls[k], from);
  }

  lemma CallMoves(limits: Limits, w: World, a: Action, w': World)
    requires Enabled(w, a) && w' == Apply(limits, w, a)
    requires !a.ClassifyRow? && !a.CloseGate? && !a.OtherCommand? && !a.Restart? && !a.RunOrphan? && !a.SubmitComplete?
    requires !a.ClaimReturns? && !a.CompleteReturns? && !a.FinishReturns? && !a.DropFuture?
    ensures a.k in w'.calls && !w'.calls[a.k].at.Completing?
    ensures w'.calls == w.calls[a.k := w'.calls[a.k]] && w'.table == w.table && w'.orphans == w.orphans
  {
  }

  lemma StepResults(limits: Limits, w: World, a: Action, w': World, from: set<(CommandId, nat)>, from': set<(CommandId, nat)>)
    requires ResultsFrom(w, from) && Enabled(w, a) && w' == Apply(limits, w, a)
    requires from' == if a.SubmitComplete? then from + {(w.calls[a.k].id, a.result)} else from
    ensures ResultsFrom(w', from')
  {
    if a.ClaimReturns? || a.CompleteReturns? || a.FinishReturns? {
      StoreResults(limits, w, a, w', from);
    } else if a.RunOrphan? {
      OrphanResults(w, a.job, w', from);
    } else if a.ClassifyRow? || a.CloseGate? || a.OtherCommand? || a.Restart? {
      OutsideResults(limits, w, a, w', from);
    } else if a.SubmitComplete? {
      SubmitResults(w, a.k, a.result, from);
    } else if a.DropFuture? {
      DropResults(w, a.k, from);
    } else {
      CallMoves(limits, w, a, w');
      MoveResults(w, w', a.k, from);
    }
  }

  lemma {:induction false} RunResults(limits: Limits, ws: seq<World>, acts: seq<Action>, j: nat)
    requires Acted(limits, ws, acts) && j < |ws|
    ensures ResultsFrom(ws[j], Submitted(ws, acts, j))
  {
    if j > 0 {
      RunResults(limits, ws, acts, j - 1);
      StepAt(limits, ws, acts, j - 1, ws[j - 1], acts[j - 1], ws[j]);
      StepResults(limits, ws[j - 1], acts[j - 1], ws[j], Submitted(ws, acts, j - 1), Submitted(ws, acts, j));
    }
  }

  /** Step `m` submits this result for this command. */
  ghost predicate Submits(ws: seq<World>, acts: seq<Action>, m: nat, id: CommandId, result: nat)
    requires m < |acts| < |ws|
  {
    acts[m].SubmitComplete? && acts[m].result == result && acts[m].k in ws[m].calls && ws[m].calls[acts[m].k].id == id
  }

  lemma {:induction false} SubmittedAt(ws: seq<World>, acts: seq<Action>, j: nat, id: CommandId, result: nat) returns (m: nat)
    requires j <= |acts| < |ws| && (id, result) in Submitted(ws, acts, j)
    ensures m < j && Submits(ws, acts, m, id, result)
  {
    if (id, result) in Submitted(ws, acts, j - 1) {
      m := SubmittedAt(ws, acts, j - 1, id, result);
    } else {
      m := j - 1;
    }
  }

  /** Every success answered under an id was submitted before by a call on that id. */
  lemma SuccessWasSubmitted(limits: Limits, ws: seq<World>, acts: seq<Action>, j: nat, x: Answer) returns (m: nat)
    requires Acted(limits, ws, acts) && j < |ws| && x in ws[j].answers && x.reply.Success?
    ensures m < j && Submits(ws, acts, m, x.id, x.reply.result)
  {
    InvAt(limits, ws, acts, j, ws[j]);
    assert Truthful(ws[j].table, x);
    RunResults(limits, ws, acts, j);
    assert RowFrom(ws[j].table[x.id], x.id, Submitted(ws, acts, j));
    m := SubmittedAt(ws, acts, j, x.id, x.reply.result);
  }

  // Admissions are given back

  ghost predicate IsAdmitted(w: World, id: CommandId) {
    exists k :: k in w.calls && Registered(w.calls[k].at) && w.calls[k].id == id
  }

  ghost predicate NoneLeaks(w: World) {
    forall id :: id in w.registry.bindings ==> IsAdmitted(w, id)
  }

  lemma KeepsAdmission(w: World, w': World, k: nat)
    requires NoneLeaks(w) && k in w'.calls && w'.calls == w.calls[k := w'.calls[k]] && w'.registry == w.registry
    requires k in w.calls ==> w'.calls[k].id == w.calls[k].id && (Registered(w.calls[k].at) ==> Registered(w'.calls[k].at))
    ensures NoneLeaks(w')
  {
    forall id | id in w'.registry.bindings ensures IsAdmitted(w', id) {
      var j :| j in w.calls && Registered(w.calls[j].at) && w.calls[j].id == id;
      assert j in w'.calls && Registered(w'.calls[j].at) && w'.calls[j].id == id;
    }
  }

  lemma GainsAdmission(limits: Limits, w: World, w': World, k: nat)
    requires NoneLeaks(w) && At(w, k, Entered) && Stands(w', k, w.calls[k], Admitted)
    requires w'.calls == w.calls[k := w'.calls[k]] && w'.registry == Admit(w.registry, w.calls[k].id, w.calls[k].digest)
    ensures NoneLeaks(w')
  {
    forall id | id in w'.registry.bindings ensures IsAdmitted(w', id) {
      if id == w.calls[k].id {
        assert Registered(w'.calls[k].at) && w'.calls[k].id == id;
      } else {
        var j :| j in w.calls && Registered(w.calls[j].at) && w.calls[j].id == id;
        assert j in w'.calls && Registered(w'.calls[j].at) && w'.calls[j].id == id;
      }
    }
  }

  lemma GivesBackAdmission(w: World, w': World, k: nat)
    requires NoneLeaks(w) && k in w.calls && k in w'.calls && w'.calls == w.calls[k := w'.calls[k]]
    requires w'.registry == Release(w.registry, w.calls[k].id)
    ensures NoneLeaks(w')
  {
    forall id | id in w'.registry.bindings ensures IsAdmitted(w', id) {
      var j :| j in w.calls && Registered(w.calls[j].at) && w.calls[j].id == id;
      assert j in w'.calls && Registered(w'.calls[j].at) && w'.calls[j].id == id;
    }
  }

  lemma OutsideAdmission(limits: Limits, w: World, a: Action, w': World)
    requires NoneLeaks(w) && Enabled(w, a) && w' == Apply(limits, w, a)
    requires a.RunOrphan? || a.ClassifyRow? || a.CloseGate? || a.OtherCommand? || a.Restart?
    ensures NoneLeaks(w')
  {
    forall id | id in w'.registry.bindings ensures IsAdmitted(w', id) {
      var j :| j in w.calls && Registered(w.calls[j].at) && w.calls[j].id == id;
      assert j in w'.calls && Registered(w'.calls[j].at) && w'.calls[j].id == id;
    }
  }

  /** A step of a call that stays admitted, or was not. */
  lemma StaysAdmitted(limits: Limits, w: World, a: Action, w': World)
    requires Enabled(w, a) && w' == Apply(limits, w, a)
    requires !a.RunOrphan? && !a.ClassifyRow? && !a.CloseGate? && !a.OtherCommand? && !a.Restart?
    requires !a.Acquire? && !a.ReleaseCall? && !a.DropFuture? && !a.ClaimReturns? && !a.CompleteReturns? && !a.FinishReturns?
    ensures a.k in w'.calls && w'.calls == w.calls[a.k := w'.calls[a.k]] && w'.registry == w.registry
    ensures a.k in w.calls ==> w'.calls[a.k].id == w.calls[a.k].id && (Registered(w.calls[a.k].at) ==> Registered(w'.calls[a.k].at))
  {
  }

  /** One call moved on, still admitted. */
  ghost predicate MovesAdmitted(w: World, w': World, k: nat) {
    && k in w.calls && k in w'.calls && w'.calls == w.calls[k := w'.calls[k]] && w'.registry == w.registry
    && w'.calls[k].id == w.calls[k].id && Registered(w'.calls[k].at)
  }

  lemma ClaimStaysAdmitted(w: World, k: nat, fate: Fate)
    requires k in w.calls
    ensures MovesAdmitted(w, AfterClaim(w, k, fate), k)
  {
  }

  lemma CompleteStaysAdmitted(w: World, k: nat, fate: Fate)
    requires k in w.calls && w.calls[k].at.Completing?
    ensures MovesAdmitted(w, AfterComplete(w, k, fate), k)
  {
  }

  lemma FinishStaysAdmitted(w: World, k: nat, fate: Fate)
    requires k in w.calls && w.calls[k].at.Finishing?
    ensures MovesAdmitted(w, AfterFinish(w, k, fate), k)
  {
  }

  lemma StoreStaysAdmitted(limits: Limits, w: World, a: Action, w': World)
    requires Enabled(w, a) && w' == Apply(limits, w, a) && (a.ClaimReturns? || a.CompleteReturns? || a.FinishReturns?)
    ensures MovesAdmitted(w, w', a.k)
  {
    match a
    case ClaimReturns(k, fate) => ClaimStaysAdmitted(w, k, fate);
    case CompleteReturns(k, fate) => CompleteStaysAdmitted(w, k, fate);
    case FinishReturns(k, fate) => FinishStaysAdmitted(w, k, fate);
  }

  lemma StepAdmission(limits: Limits, w: World, a: Action, w': World)
    requires NoneLeaks(w) && Enabled(w, a) && w' == Apply(limits, w, a)
    ensures NoneLeaks(w')
  {
    if a.RunOrphan? || a.ClassifyRow? || a.CloseGate? || a.OtherCommand? || a.Restart? {
      OutsideAdmission(limits, w, a, w');
    } else if a.ReleaseCall? || a.DropFuture? {
      GivesBackAdmission(w, w', a.k);
    } else if a.ClaimReturns? || a.CompleteReturns? || a.FinishReturns? {
      StoreStaysAdmitted(limits, w, a, w');
      KeepsAdmission(w, w', a.k);
    } else if a.Acquire? && Refusal(w.registry, limits, w.calls[a.k].id, w.calls[a.k].digest).None? {
      GainsAdmission(limits, w, w', a.k);
    } else if a.Acquire? {
      KeepsAdmission(w, w', a.k);
    } else {
      StaysAdmitted(limits, w, a, w');
      KeepsAdmission(w, w', a.k);
    }
  }

  lemma {:induction false} RunAdmission(limits: Limits, ws: seq<World>, acts: seq<Action>, i: nat)
    requires Acted(limits, ws, acts) && i < |ws|
    ensures NoneLeaks(ws[i])
  {
    if i > 0 {
      RunAdmission(limits, ws, acts, i - 1);
      StepAt(limits, ws, acts, i - 1, ws[i - 1], acts[i - 1], ws[i]);
      StepAdmission(limits, ws[i - 1], acts[i - 1], ws[i]);
    }
  }

  /** Over every run an id is bound in the registry exactly while some call on it is admitted and not over:
      no admission is lost or kept too long. */
  lemma BindingsAreCalls(limits: Limits, ws: seq<World>, acts: seq<Action>, i: nat, id: CommandId)
    requires Acted(limits, ws, acts) && i < |ws|
    ensures id in ws[i].registry.bindings <==> IsAdmitted(ws[i], id)
  {
    RunAdmission(limits, ws, acts, i);
    InvAt(limits, ws, acts, i, ws[i]);
  }

  /** A restart opens the gate under a later runtime and keeps nothing but the ledger and the history, so
      every claim there was is told as an obligation. */
  lemma RestartRecovers(limits: Limits, w: World, w': World, next: Runtime, id: CommandId)
    requires InvRows(w) && Enabled(w, Restart(next)) && w' == Apply(limits, w, Restart(next))
    ensures w'.table == w.table && w'.answers == w.answers && w'.starts == w.starts
    ensures w'.gate == Open && w'.calls == map[] && w'.registry == State(map[], 0) && w'.orphans == {} && w'.now == next > w.now
    ensures id in w.table && w.table[id].op == Ingest && w.table[id].status == Claimed ==>
              RowReply(w.table[id], w.table[id].digest, w'.now) == (Failure(StorageConfigurationError, AfterOperatorOrRuntimeAction), true)
  {
  }

  // A call that is dropped

  /** A call dropped at a store job gives back its admission and fails the runtime, and the job may still run,
      with the effect it would have had. */
  lemma DropLeavesTheJob(limits: Limits, w: World, w': World, k: nat, job: Job)
    requires Enabled(w, DropFuture(k)) && w' == Apply(limits, w, DropFuture(k)) && job == DropJob(w.calls[k])
    ensures w'.gate == Failed && Stands(w', k, w.calls[k], Dropped) && w'.table == w.table
    ensures w'.registry.bindings == w.registry.bindings - {w.calls[k].id}
    ensures Enabled(w', RunOrphan(job)) && Apply(limits, w', RunOrphan(job)).table == JobTable(w, job)
    ensures job.id == w.calls[k].id && job.digest == w.calls[k].digest
    ensures w.calls[k].at.Claiming? ==> JobTable(w, job) == AfterClaim(w, k, Runs).table
    ensures w.calls[k].at.Completing? ==> JobTable(w, job) == AfterComplete(w, k, Runs).table
    ensures w.calls[k].at.Finishing? ==> JobTable(w, job) == AfterFinish(w, k, Runs).table
  {
  }
}
