/** What the ingest protocol promises over whole runs: any number of calls, futures dropped at any
    await, store failures, other commands and restarts, in any order. */
module IngestRuns {
  import opened Admission
  import opened Codes
  import opened IngestProtocol
  import opened IngestReplies
  import opened Ledger

  ghost predicate Step(limits: Limits, ws: seq<World>, i: nat)
    requires 0 < i < |ws|
  {
    Next(limits, ws[i - 1], ws[i])
  }

  ghost predicate Run(limits: Limits, ws: seq<World>) {
    && |ws| > 0 && Init(ws[0])
    && forall i :: 0 < i < |ws| ==> Step(limits, ws, i)
  }

  lemma NextKeeps(limits: Limits, w: World, w': World)
    requires Inv(limits, w) && Next(limits, w, w')
    ensures Inv(limits, w')
  {
    var a :| Enabled(w, a) && w' == Apply(limits, w, a);
    ActionKeeps(limits, w, a);
  }

  lemma RunNext(limits: Limits, ws: seq<World>, i: nat, w: World, w': World)
    requires Run(limits, ws) && 0 < i < |ws| && w == ws[i - 1] && w' == ws[i]
    ensures Next(limits, w, w')
  {
    assert Step(limits, ws, i);
  }

  lemma RunStep(limits: Limits, ws: seq<World>, i: nat, w: World, w': World)
    requires Run(limits, ws) && 0 < i < |ws| && w == ws[i - 1] && w' == ws[i] && Inv(limits, w)
    ensures Inv(limits, w')
  {
    RunNext(limits, ws, i, w, w');
    NextKeeps(limits, w, w');
  }

  lemma {:induction false} RunKeeps(limits: Limits, ws: seq<World>, i: nat)
    requires Run(limits, ws) && i < |ws|
    ensures Inv(limits, ws[i])
  {
    if i > 0 {
      RunKeeps(limits, ws, i - 1);
      RunStep(limits, ws, i, ws[i - 1], ws[i]);
    }
  }

  lemma JobsEvolve(t: Table, now: Runtime, id: CommandId, digest: Digest, result: nat, terminal: bool, code: ErrorCode)
    ensures Evolves(t, ClaimExternal(t, now, id, digest).0)
    ensures Evolves(t, CompleteExternal(t, now, id, digest, Registration(result)).0)
    ensures Evolves(t, Finish(t, now, id, Ingest, digest, Disposition(terminal, code)).0)
    ensures Evolves(t, Classify(t, now, id))
  {
  }

  lemma ClaimEvolves(w: World, k: nat, fate: Fate)
    requires k in w.calls
    ensures Evolves(w.table, AfterClaim(w, k, fate).table) && w.answers == AfterClaim(w, k, fate).answers
  {
    JobsEvolve(w.table, w.now, w.calls[k].id, w.calls[k].digest, 0, true, Conflict);
  }

  lemma CompleteEvolves(w: World, k: nat, fate: Fate)
    requires k in w.calls && w.calls[k].at.Completing?
    ensures Evolves(w.table, AfterComplete(w, k, fate).table) && w.answers == AfterComplete(w, k, fate).answers
  {
    JobsEvolve(w.table, w.now, w.calls[k].id, w.calls[k].digest, w.calls[k].at.result, true, Conflict);
  }

  lemma FinishEvolves(w: World, k: nat, fate: Fate)
    requires k in w.calls && w.calls[k].at.Finishing?
    ensures Evolves(w.table, AfterFinish(w, k, fate).table) && w.answers == AfterFinish(w, k, fate).answers
  {
    JobsEvolve(w.table, w.now, w.calls[k].id, w.calls[k].digest, 0, w.calls[k].at.terminal, w.calls[k].at.code);
  }

  /** No step rebinds a row, changes a resolved one, or forgets an answer. */
  lemma ActionEvolves(limits: Limits, w: World, a: Action)
    requires Enabled(w, a)
    ensures Evolves(w.table, Apply(limits, w, a).table) && w.answers <= Apply(limits, w, a).answers
  {
    match a
    case ClaimReturns(k, fate) => ClaimEvolves(w, k, fate);
    case CompleteReturns(k, fate) => CompleteEvolves(w, k, fate);
    case FinishReturns(k, fate) => FinishEvolves(w, k, fate);
    case RunOrphan(job) =>
      JobsEvolve(w.table, w.now, job.id, job.digest, if job.CompleteJob? then job.result else 0,
                 job.FinishJob? && job.terminal, if job.FinishJob? then job.code else Conflict);
    case ClassifyRow(id) => JobsEvolve(w.table, w.now, id, 0, 0, true, Conflict);
    case _ =>
  }

  lemma NextRow(limits: Limits, w: World, w': World, id: CommandId)
    requires Next(limits, w, w') && id in w.table
    ensures RowKept(w.table, w'.table, id)
  {
    var a :| Enabled(w, a) && w' == Apply(limits, w, a);
    ActionEvolves(limits, w, a);
  }

  lemma {:induction false} RunRow(limits: Limits, ws: seq<World>, i: nat, j: nat, id: CommandId)
    requires Run(limits, ws) && i <= j < |ws| && id in ws[i].table
    ensures RowKept(ws[i].table, ws[j].table, id)
    decreases j
  {
    if i < j {
      RunRow(limits, ws, i, j - 1, id);
      assert Step(limits, ws, j);
      NextRow(limits, ws[j - 1], ws[j], id);
    }
  }

  /** The blob store starts at most one ingest per command id, restarts included. */
  lemma AtMostOneIngest(limits: Limits, ws: seq<World>, i: nat, id: CommandId)
    requires Run(limits, ws) && i < |ws|
    ensures ws[i].starts[id] <= 1
  {
    RunKeeps(limits, ws, i);
  }

  /** All recorded answers under one command id are the same answer to the same request. */
  lemma RecordedAnswersAgree(limits: Limits, ws: seq<World>, i: nat, a: Answer, b: Answer)
    requires Run(limits, ws) && i < |ws| && a in ws[i].answers && b in ws[i].answers && a.id == b.id
    requires a.reply != RuntimeFailed && b.reply != RuntimeFailed
    requires a.reply.Success? || a.durable || a.claimed
    requires b.reply.Success? || b.durable || b.claimed
    ensures a.digest == b.digest && a.reply == b.reply
  {
    RunKeeps(limits, ws, i);
    assert Truthful(ws[i].table, a) && Truthful(ws[i].table, b);
  }

  /** The answer a claiming call once gave is what every later claim of the command is told. */
  lemma ReplayRepeats(limits: Limits, ws: seq<World>, i: nat, j: nat, a: Answer, k: nat)
    requires Run(limits, ws) && i <= j < |ws| && a in ws[i].answers && a.claimed && a.reply != RuntimeFailed
    requires At(ws[j], k, Claiming) && ws[j].calls[k].id == a.id && ws[j].calls[k].digest == a.digest
    ensures AfterClaim(ws[j], k, Runs).calls[k].at == Leaving(a.reply, true)
    ensures AfterClaim(ws[j], k, Runs).table == ws[j].table
  {
    RunKeeps(limits, ws, i);
    assert Truthful(ws[i].table, a);
    RunRow(limits, ws, i, j, a.id);
    TruthStays(ws[i].table, ws[j].table, a);
  }

  /** The registry or the ledger binds the id to another request. */
  predicate BoundElsewhere(w: World, id: CommandId, digest: Digest) {
    || (id in w.registry.bindings && w.registry.bindings[id] != digest)
    || (id in w.table && (w.table[id].op != Ingest || w.table[id].digest != digest))
  }

  /** Under such a binding a request cannot claim, ingest or succeed, and a ledger binding is for good. */
  lemma MismatchNeverActs(limits: Limits, ws: seq<World>, i: nat, k: nat)
    requires Run(limits, ws) && i < |ws| && k in ws[i].calls
    requires BoundElsewhere(ws[i], ws[i].calls[k].id, ws[i].calls[k].digest)
    ensures !Guarded(ws[i].calls[k].at)
    ensures ws[i].calls[k].at.Leaving? ==> !ws[i].calls[k].at.reply.Success?
    ensures forall a :: Enabled(ws[i], a) && k in Apply(limits, ws[i], a).calls ==> !Guarded(Apply(limits, ws[i], a).calls[k].at)
  {
    RunKeeps(limits, ws, i);
    forall a | Enabled(ws[i], a) && k in Apply(limits, ws[i], a).calls
      ensures !Guarded(Apply(limits, ws[i], a).calls[k].at)
    {
      MismatchStep(limits, ws[i], k, a);
    }
  }

  lemma StoreMovesOne(w: World, a: Action, w': World)
    requires Enabled(w, a)
    requires match a
             case ClaimReturns(k, fate) => w' == AfterClaim(w, k, fate)
             case CompleteReturns(k, fate) => w' == AfterComplete(w, k, fate)
             case FinishReturns(k, fate) => w' == AfterFinish(w, k, fate)
             case _ => false
    ensures a.k in w'.calls && w'.calls == w.calls[a.k := w'.calls[a.k]] && w'.now == w.now
  {
  }

  /** Only a granted claim puts a call under guard. */
  lemma OnlyGrantsGuard(limits: Limits, w: World, k: nat, a: Action, w': World)
    requires k in w.calls && Enabled(w, a) && w' == Apply(limits, w, a) && k in w'.calls
    requires !Guarded(w.calls[k].at) && Guarded(w'.calls[k].at)
    ensures a.ClaimReturns? && a.k == k && w.calls[k].id !in w.table
  {
    if a.ClaimReturns? || a.CompleteReturns? || a.FinishReturns? {
      StoreMovesOne(w, a, w');
    }
    if a.ClaimReturns? && a.k == k {
      GrantNeedsNewRow(w, k, a.fate);
    }
  }

  lemma GrantNeedsNewRow(w: World, k: nat, fate: Fate)
    requires k in w.calls && Guarded(AfterClaim(w, k, fate).calls[k].at)
    ensures w.calls[k].id !in w.table
  {
  }

  lemma MismatchStep(limits: Limits, w: World, k: nat, a: Action)
    requires Inv(limits, w) && k in w.calls && Enabled(w, a) && k in Apply(limits, w, a).calls
    requires BoundElsewhere(w, w.calls[k].id, w.calls[k].digest)
    ensures !Guarded(Apply(limits, w, a).calls[k].at)
  {
    assert !Guarded(w.calls[k].at);
    if Guarded(Apply(limits, w, a).calls[k].at) {
      OnlyGrantsGuard(limits, w, k, a, Apply(limits, w, a));
    }
  }

  // What such a request is told

  const CONFLICT := Failure(Conflict, No)

  /** The step in which the registry refuses the call over another binding, or the ledger runs its claim. */
  ghost predicate Decides(limits: Limits, w: World, w': World, k: nat) {
    || (&& At(w, k, Entered) && w' == Apply(limits, w, Acquire(k))
        && w.calls[k].id in w.registry.bindings && w.registry.bindings[w.calls[k].id] != w.calls[k].digest)
    || (At(w, k, Claiming) && Enabled(w, ClaimReturns(k, Runs)) && w' == Apply(limits, w, ClaimReturns(k, Runs)))
  }

  /** The conflict has been answered, or the call is about to answer it. */
  ghost predicate Told(w: World, k: nat, c: Call) {
    || Answer(c.id, c.digest, c.claimed, CONFLICT, false) in w.answers
    || (k in w.calls && w.calls[k] == c.(at := Leaving(CONFLICT, false)))
  }

  lemma DecisionTells(limits: Limits, w: World, w': World, k: nat)
    requires Inv(limits, w) && k in w.calls && BoundElsewhere(w, w.calls[k].id, w.calls[k].digest) && Decides(limits, w, w', k)
    ensures Told(w', k, w.calls[k]) && w'.table == w.table && w'.now == w.now
  {
    assert Registered(w.calls[k].at) ==> w.registry.bindings[w.calls[k].id] == w.calls[k].digest;
  }

  lemma LeavingStays(limits: Limits, w: World, a: Action, w': World, k: nat)
    requires Enabled(w, a) && w' == Apply(limits, w, a) && k in w.calls && w.calls[k].at.Leaving?
    ensures || AnswerOf(w.calls[k]) in w'.answers
            || (if a.Restart? then w'.now > w.now else k in w'.calls && w'.calls[k] == w.calls[k])
  {
    if a.ClaimReturns? || a.CompleteReturns? || a.FinishReturns? {
      StoreMovesOne(w, a, w');
    }
  }

  lemma TimeStays(limits: Limits, w: World, a: Action, w': World)
    requires Enabled(w, a) && w' == Apply(limits, w, a)
    ensures w'.now >= w.now
  {
    if a.ClaimReturns? || a.CompleteReturns? || a.FinishReturns? {
      StoreMovesOne(w, a, w');
    }
  }

  lemma ToldStays(limits: Limits, w: World, w': World, k: nat, c: Call)
    requires Next(limits, w, w') && Told(w, k, c)
    ensures w'.now >= w.now && (Told(w', k, c) || w'.now > w.now)
  {
    var a :| Enabled(w, a) && w' == Apply(limits, w, a);
    TimeStays(limits, w, a, w');
    ActionEvolves(limits, w, a);
    if Answer(c.id, c.digest, c.claimed, CONFLICT, false) !in w.answers {
      LeavingStays(limits, w, a, w', k);
    }
  }

  lemma NextTime(limits: Limits, w: World, w': World)
    requires Next(limits, w, w')
    ensures w'.now >= w.now
  {
    var a :| Enabled(w, a) && w' == Apply(limits, w, a);
    TimeStays(limits, w, a, w');
  }

  lemma ToldRuns(limits: Limits, ws: seq<World>, j: nat, w: World, w': World, k: nat, c: Call, now: Runtime)
    requires Run(limits, ws) && 0 < j < |ws| && w == ws[j - 1] && w' == ws[j]
    requires w.now >= now && (Told(w, k, c) || w.now > now)
    ensures w'.now >= now && (Told(w', k, c) || w'.now > now)
  {
    RunNext(limits, ws, j, w, w');
    if Told(w, k, c) {
      ToldStays(limits, w, w', k, c);
    } else {
      NextTime(limits, w, w');
    }
  }

  /** A request under an id that the registry or the ledger binds to another request is told a conflict
      without retry, and nothing else, unless the process is restarted before it answers. */
  lemma {:induction false} MismatchIsTold(limits: Limits, ws: seq<World>, i: nat, j: nat, k: nat)
    requires Run(limits, ws) && i < j < |ws| && k in ws[i].calls
    requires BoundElsewhere(ws[i], ws[i].calls[k].id, ws[i].calls[k].digest) && Decides(limits, ws[i], ws[i + 1], k)
    ensures ws[j].now >= ws[i].now && (Told(ws[j], k, ws[i].calls[k]) || ws[j].now > ws[i].now)
    decreases j
  {
    if j == i + 1 {
      RunKeeps(limits, ws, i);
      DecisionTells(limits, ws[i], ws[j], k);
    } else {
      MismatchIsTold(limits, ws, i, j - 1, k);
      ToldRuns(limits, ws, j, ws[j - 1], ws[j], k, ws[i].calls[k], ws[i].now);
    }
  }

  lemma LedgerBindingStands(limits: Limits, ws: seq<World>, i: nat, j: nat, a: Answer)
    requires Run(limits, ws) && i <= j < |ws|
    requires a.id in ws[i].table && (ws[i].table[a.id].op != Ingest || ws[i].table[a.id].digest != a.digest)
    ensures a in ws[j].answers ==> !a.reply.Success?
  {
    RunKeeps(limits, ws, j);
    RunRow(limits, ws, i, j, a.id);
    if a in ws[j].answers {
      assert Truthful(ws[j].table, a);
    }
  }

  /** While the gate is open, a claim of the running store is backed by an admitted call that guards it.
      The writer answers its caller before it fails the runtime, so a gate that is closing is no such backing. */
  lemma ClaimsAreCovered(limits: Limits, ws: seq<World>, i: nat, id: CommandId)
    requires Run(limits, ws) && i < |ws| && ClaimedNow(ws[i].table, id, ws[i].now)
    ensures || ws[i].gate == Closing || ws[i].gate == Failed
            || (Owned(ws[i], id) && id in ws[i].registry.bindings && ws[i].registry.bindings[id] == ws[i].table[id].digest)
  {
    RunKeeps(limits, ws, i);
    if ws[i].gate == Open {
      assert Owned(ws[i], id);
    }
  }

  /** A call that obtained its claim is over only when its row is resolved or the runtime failed. */
  lemma ClaimsAreResolved(limits: Limits, ws: seq<World>, i: nat, k: nat)
    requires Run(limits, ws) && i < |ws| && k in ws[i].calls && ws[i].calls[k].claimed && !Guarded(ws[i].calls[k].at)
    ensures ws[i].gate == Failed
            || (Bound(ws[i].table, ws[i].calls[k].id, Ingest, ws[i].calls[k].digest)
                && ws[i].table[ws[i].calls[k].id].status != Claimed)
  {
    RunKeeps(limits, ws, i);
  }

  /** Executions are counted exactly and stay within both capacities. */
  lemma RegistryIsBounded(limits: Limits, ws: seq<World>, i: nat)
    requires Run(limits, ws) && i < |ws|
    ensures Consistent(ws[i].registry, limits)
  {
    RunKeeps(limits, ws, i);
  }

  /** Every answer of every run passes the wire encoder's error and retry matrix. */
  lemma AnswersAreSendable(limits: Limits, ws: seq<World>, i: nat, a: Answer)
    requires Run(limits, ws) && i < |ws| && a in ws[i].answers
    ensures Sendable(a.reply)
  {
    RunKeeps(limits, ws, i);
    assert Truthful(ws[i].table, a);
    EmittedIsSendable(a.reply);
  }
}
