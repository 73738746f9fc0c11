/** `CoreMetrics`: saturating counters, the duration histograms beside them, and the error tallies.

    The two-dimensional tables are flattened to cells: cell `8 * operation + outcome` counts one
    operation's terminals of one outcome.  The counters of other recorders stand in one vector. */
module Metrics {
  import opened Bytes
  import opened Codes
  import opened Options

  const OPERATIONS := 22
  const OUTCOMES := 8
  const CELLS := 176
  const BUCKETS := 17
  const MAX: nat := TWO64 - 1

  const UPPER: seq<nat> := [1, 5, 10, 25, 50, 100, 250, 500, 1_000, 2_500, 5_000, 10_000, 60_000, 300_000, 3_600_000, 86_400_000, MAX]

  /** The outcome table begins with the two that carry no error: succeeded and replayed. */
  predicate Succeeds(outcome: nat) {
    outcome < 2
  }

  /** An error code of the table, or one a later version adds to the open enumeration. */
  datatype Code = Known(code: ErrorCode) | Unknown(number: nat)

  datatype Failure = Failure(code: Code, provider: Option<nat>)

  predicate ProviderCode(code: Code) {
    code.Known? && code.code in {ProviderValidation, InvalidCredential, ProviderRateLimited, ProviderTimeout, ProviderUnavailable}
  }

  /** `error_index`. */
  function ErrorIndex(code: Code): Option<nat> {
    match code
    case Unknown(_) => None
    case Known(known) => Some(KnownIndex(known))
  }

  function KnownIndex(code: ErrorCode): (i: nat)
    ensures i < 31
  {
    match code
    case ValidationError => 0
    case AuthenticationError => 1
    case AuthorizationDenied => 2
    case NotFound => 3
    case Conflict => 4
    case InvalidTransition => 5
    case SourceModifiedDuringIngest => 6
    case StorageIoError => 7
    case StorageCorruption => 8
    case StorageBusy => 9
    case StorageConfigurationError => 10
    case IpcTransportError => 11
    case ProtocolVersionUnsupported => 12
    case DeadlineExceeded => 13
    case OperationCancelled => 14
    case ProviderValidation => 15
    case InvalidCredential => 16
    case ProviderRateLimited => 17
    case ProviderTimeout => 18
    case ProviderUnavailable => 19
    case SubmissionUnknown => 20
    case PluginProtocolViolation => 21
    case SandboxUnavailable => 22
    case PluginRevoked => 23
    case Backpressure => 24
    case InternalError => 25
    case CommandInProgress => 26
    case AdminAuthUnavailable => 27
    case UnsupportedCapability => 28
    case IdGenerationUnavailable => 29
    case RevisionExhausted => 30
  }

  /** The first bound from `from` on that is not below the duration. */
  function Position(upper: seq<nat>, duration: nat, from: nat): (b: nat)
    requires from < |upper| && duration <= upper[|upper| - 1] && (from > 0 ==> upper[from - 1] < duration)
    ensures b < |upper| && duration <= upper[b] && (b > 0 ==> upper[b - 1] < duration)
    decreases |upper| - from
  {
    if duration <= upper[from] then from else Position(upper, duration, from + 1)
  }

  function Bucket(duration: nat): (b: nat)
    requires duration <= MAX
    ensures b < BUCKETS
  {
    Position(UPPER, duration, 0)
  }

  /** `add`: the sum, or the ceiling and a sign of it. */
  function Add(value: nat, amount: nat): (nat, bool) {
    if value + amount <= MAX then (value + amount, false) else (MAX, true)
  }

  datatype State = State(
    commands: seq<nat>,
    durations: seq<seq<nat>>,
    errors: seq<nat>,
    provider: seq<nat>,
    drops: seq<nat>,
    others: seq<nat>,
    saturated: bool)

  ghost predicate Shaped(s: State) {
    && |s.commands| == |s.durations| == CELLS && |s.errors| == 31 && |s.provider| == 7 && |s.drops| == 4
    && (forall c :: 0 <= c < CELLS ==> |s.durations[c]| == BUCKETS)
    && forall d :: 0 <= d < 4 ==> s.drops[d] <= MAX
  }

  datatype Call =
    | Terminal(operation: nat, outcome: nat, duration: nat, failure: Option<Failure>)
    | Drop(reason: nat)
    | Other(counter: nat, amount: nat)

  predicate WellFormed(s: State, call: Call) {
    match call
    case Terminal(operation, outcome, duration, failure) =>
      && operation < OPERATIONS && outcome < OUTCOMES && duration <= MAX
      && (failure.Some? && failure.value.provider.Some? ==> failure.value.provider.value < 7)
    case Drop(reason) => reason < 4
    case Other(counter, _) => counter < |s.others|
  }

  /** The failure is one for the table of error codes. */
  predicate Tabled(f: Failure) {
    f.code != Known(NotFound) && f.provider.None?
  }

  /** What `record_core_terminal` lets in. */
  predicate Consistent(call: Call)
    requires call.Terminal?
  {
    && (Succeeds(call.outcome) <==> call.failure.None?)
    && (call.failure.Some? ==> (ProviderCode(call.failure.value.code) <==> call.failure.value.provider.Some?))
    && (call.failure.Some? && Tabled(call.failure.value) ==> ErrorIndex(call.failure.value.code).Some?)
  }

  function Bump(s: seq<nat>, i: nat, amount: nat): seq<nat>
    requires i < |s|
  {
    s[i := Add(s[i], amount).0]
  }

  function Mark(s: State, saturated: bool): State
    requires |s.drops| == 4
  {
    if saturated && !s.saturated then s.(saturated := true, drops := Bump(s.drops, 2, 1)) else s
  }

  function Cell(call: Call): (c: nat)
    requires call.Terminal? && call.operation < OPERATIONS && call.outcome < OUTCOMES
    ensures c < CELLS
  {
    OUTCOMES * call.operation + call.outcome
  }

  /** The error tallies: the new state, whether a counter saturated, and whether the code has an index. */
  function Tallied(s: State, failure: Option<Failure>): (State, bool, bool)
    requires |s.errors| == 31 && |s.provider| == 7
    requires failure.Some? && failure.value.provider.Some? ==> failure.value.provider.value < 7
  {
    if failure.None? then (s, false, true)
    else if failure.value.provider.Some? then
      var i := failure.value.provider.value;
      (s.(provider := Bump(s.provider, i, 1)), Add(s.provider[i], 1).1, true)
    else if failure.value.code == Known(NotFound) then (s, false, true)
    else
      match ErrorIndex(failure.value.code)
      case None => (s, false, false)
      case Some(i) => (s.(errors := Bump(s.errors, i, 1)), Add(s.errors[i], 1).1, true)
  }

  function Counted(s: State, c: nat, b: nat): (State, bool)
    requires |s.commands| == |s.durations| == CELLS && c < CELLS && b < |s.durations[c]|
  {
    (s.(commands := Bump(s.commands, c, 1), durations := s.durations[c := Bump(s.durations[c], b, 1)]),
     Add(s.commands[c], 1).1 || Add(s.durations[c][b], 1).1)
  }

  function Step(s: State, call: Call): (State, bool)
    requires Shaped(s) && WellFormed(s, call)
  {
    match call
    case Terminal(_, _, duration, failure) =>
      if !Consistent(call) then (s, false)
      else
        var (counted, sat1) := Counted(s, Cell(call), Bucket(duration));
        var (tallied, sat2, indexed) := Tallied(counted, failure);
        if !indexed then (tallied, false) else (Mark(tallied, sat1 || sat2), true)
    case Drop(reason) => (Mark(s.(drops := Bump(s.drops, reason, 1)), Add(s.drops[reason], 1).1), true)
    case Other(i, amount) => (Mark(s.(others := Bump(s.others, i, amount)), Add(s.others[i], amount).1), true)
  }

  // Sums

  function Sum(s: seq<nat>): nat {
    if s == [] then 0 else s[0] + Sum(s[1..])
  }

  lemma {:induction false} SumUpdate(s: seq<nat>, i: nat, v: nat)
    requires i < |s|
    ensures Sum(s[i := v]) == Sum(s) - s[i] + v
  {
    if i == 0 {
      assert s[0 := v][1..] == s[1..];
    } else {
      SumUpdate(s[1..], i - 1, v);
      assert s[i := v][1..] == s[1..][i - 1 := v];
    }
  }

  /** The counters of failing outcomes, from cell `from` on. */
  function Failing(commands: seq<nat>, from: nat): nat
    requires from <= |commands|
    decreases |commands| - from
  {
    if from == |commands| then 0
    else (if Succeeds(from % OUTCOMES) then 0 else commands[from]) + Failing(commands, from + 1)
  }

  lemma {:induction false} FailingUpdate(commands: seq<nat>, from: nat, i: nat, v: nat)
    requires from <= |commands| && i < |commands|
    ensures Failing(commands[i := v], from) ==
            Failing(commands, from) + if i < from || Succeeds(i % OUTCOMES) then 0 else v - commands[i]
    decreases |commands| - from
  {
    if from < |commands| {
      FailingUpdate(commands, from + 1, i, v);
    }
  }

  lemma {:induction false} SumZeros(n: nat)
    ensures Sum(seq(n, _ => 0)) == 0
  {
    if n > 0 {
      SumZeros(n - 1);
      assert seq(n, _ => 0)[1..] == seq(n - 1, _ => 0);
    }
  }

  lemma {:induction false} FailingZeros(n: nat, from: nat)
    requires from <= n
    ensures Failing(seq(n, _ => 0), from) == 0
    decreases n - from
  {
    if from < n {
      FailingZeros(n, from + 1);
    }
  }

  // One record

  predicate NotFoundTerminal(call: Call) {
    call.Terminal? && Consistent(call) && call.failure.Some? && call.failure.value.code == Known(NotFound)
  }

  /** While nothing saturated: each counter is the sum of its histogram, and every failing terminal is
      in the error tallies, in the provider tallies, or was a NotFound. */
  ghost predicate Histograms(commands: seq<nat>, durations: seq<seq<nat>>) {
    |commands| == |durations| && forall c :: 0 <= c < |commands| ==> Sum(durations[c]) == commands[c]
  }

  ghost predicate Balanced(s: State, notFound: nat) {
    s.saturated || (Histograms(s.commands, s.durations) && Failing(s.commands, 0) == Sum(s.errors) + Sum(s.provider) + notFound)
  }

  lemma CountKeeps(s: State, c: nat, b: nat, notFound: nat)
    requires Shaped(s) && Histograms(s.commands, s.durations) && c < CELLS && b < BUCKETS
    requires Failing(s.commands, 0) == Sum(s.errors) + Sum(s.provider) + notFound && !Counted(s, c, b).1
    ensures var t := Counted(s, c, b).0;
            && Histograms(t.commands, t.durations)
            && Failing(t.commands, 0) == Sum(t.errors) + Sum(t.provider) + notFound + if Succeeds(c % OUTCOMES) then 0 else 1
  {
    FailingUpdate(s.commands, 0, c, s.commands[c] + 1);
    SumUpdate(s.durations[c], b, s.durations[c][b] + 1);
  }

  lemma TallyKeeps(s: State, failure: Option<Failure>, total: nat)
    requires Shaped(s) && Sum(s.errors) + Sum(s.provider) == total && failure.Some?
    requires failure.value.provider.Some? ==> failure.value.provider.value < 7
    requires !Tallied(s, failure).1 && Tallied(s, failure).2
    ensures var t := Tallied(s, failure).0;
            Sum(t.errors) + Sum(t.provider) == total + if failure.value.provider.None? && failure.value.code == Known(NotFound) then 0 else 1
  {
    if failure.value.provider.Some? {
      var i := failure.value.provider.value;
      SumUpdate(s.provider, i, s.provider[i] + 1);
    } else if failure.value.code != Known(NotFound) {
      var i := ErrorIndex(failure.value.code).value;
      SumUpdate(s.errors, i, s.errors[i] + 1);
    }
  }

  lemma TerminalKeeps(s: State, call: Call, notFound: nat)
    requires Shaped(s) && call.Terminal? && WellFormed(s, call) && Consistent(call) && Balanced(s, notFound)
    ensures Balanced(Step(s, call).0, notFound + if NotFoundTerminal(call) then 1 else 0)
  {
    var c, b := Cell(call), Bucket(call.duration);
    var counted := Counted(s, c, b);
    var tallied := Tallied(counted.0, call.failure);
    if !s.saturated && !counted.1 && !tallied.1 {
      CountKeeps(s, c, b, notFound);
      assert c % OUTCOMES == call.outcome;
      if call.failure.Some? {
        TallyKeeps(counted.0, call.failure, Sum(s.errors) + Sum(s.provider));
      }
    }
  }

  /** A terminal is refused exactly by the early tests, so never with its counters half moved. */
  lemma StepShape(s: State, call: Call)
    requires Shaped(s) && WellFormed(s, call)
    ensures Shaped(Step(s, call).0) && |Step(s, call).0.others| == |s.others|
    ensures Step(s, call).1 <==> (call.Terminal? ==> Consistent(call))
    ensures !Step(s, call).1 ==> Step(s, call).0 == s
    ensures s.saturated ==> Step(s, call).0.saturated
  {
  }

  /** A record keeps the balance and saturation is for good; a refused one changes nothing. */
  lemma StepKeeps(s: State, call: Call, notFound: nat)
    requires Shaped(s) && WellFormed(s, call) && Balanced(s, notFound)
    ensures Shaped(Step(s, call).0) && |Step(s, call).0.others| == |s.others|
    ensures Balanced(Step(s, call).0, notFound + if NotFoundTerminal(call) then 1 else 0)
    ensures Step(s, call).1 <==> (call.Terminal? ==> Consistent(call))
    ensures !Step(s, call).1 ==> Step(s, call).0 == s
    ensures s.saturated ==> Step(s, call).0.saturated
  {
    StepShape(s, call);
    if call.Terminal? && Consistent(call) {
      TerminalKeeps(s, call, notFound);
    }
  }

  // Runs

  /** All counters zero; `n` is the number of counters of the other recorders. */
  function Zero(n: nat): State {
    State(seq(CELLS, _ => 0), seq(CELLS, _ => seq(BUCKETS, _ => 0)), seq(31, _ => 0), seq(7, _ => 0), seq(4, _ => 0),
          seq(n, _ => 0), false)
  }

  ghost predicate Recorded(calls: seq<Call>, ss: seq<State>, i: nat)
    requires i < |calls| && i + 1 < |ss|
  {
    Shaped(ss[i]) && WellFormed(ss[i], calls[i]) && ss[i + 1] == Step(ss[i], calls[i]).0
  }

  ghost predicate Run(n: nat, calls: seq<Call>, ss: seq<State>) {
    && |ss| == |calls| + 1 && ss[0] == Zero(n)
    && forall i :: 0 <= i < |calls| ==> Recorded(calls, ss, i)
  }

  function NotFounds(calls: seq<Call>): nat {
    if calls == [] then 0
    else NotFounds(calls[..|calls| - 1]) + if NotFoundTerminal(calls[|calls| - 1]) then 1 else 0
  }

  /** Over every run the balance holds until something saturates. */
  lemma {:induction false} RunBalances(n: nat, calls: seq<Call>, ss: seq<State>, i: nat)
    requires Run(n, calls, ss) && i < |ss|
    ensures Shaped(ss[i]) && Balanced(ss[i], NotFounds(calls[..i]))
  {
    if i == 0 {
      SumZeros(BUCKETS);
      SumZeros(31);
      SumZeros(7);
      FailingZeros(CELLS, 0);
    } else {
      RunBalances(n, calls, ss, i - 1);
      assert Recorded(calls, ss, i - 1);
      StepKeeps(ss[i - 1], calls[i - 1], NotFounds(calls[..i - 1]));
      assert calls[..i][..i - 1] == calls[..i - 1];
    }
  }

  lemma {:induction false} SaturationStays(n: nat, calls: seq<Call>, ss: seq<State>, i: nat, j: nat)
    requires Run(n, calls, ss) && i <= j < |ss| && ss[i].saturated
    ensures ss[j].saturated
    decreases j
  {
    if i < j {
      SaturationStays(n, calls, ss, i, j - 1);
      RunBalances(n, calls, ss, j - 1);
      assert Recorded(calls, ss, j - 1);
      StepKeeps(ss[j - 1], calls[j - 1], NotFounds(calls[..j - 1]));
    }
  }

  // What each counter counts

  datatype Counter =
    | CommandCounter(operation: nat, outcome: nat)
    | DurationCounter(operation: nat, outcome: nat, bucket: nat)
    | ErrorCounter(code: ErrorCode)
    | ProviderCounter(kind: nat)
    | DropCounter(reason: nat)
    | OtherCounter(index: nat)

  /** The reason under which the first saturation is counted. */
  const COUNTER_SATURATED := 2

  predicate Exists(c: Counter, n: nat) {
    match c
    case CommandCounter(operation, outcome) => operation < OPERATIONS && outcome < OUTCOMES
    case DurationCounter(operation, outcome, bucket) => operation < OPERATIONS && outcome < OUTCOMES && bucket < BUCKETS
    case ErrorCounter(_) => true
    case ProviderCounter(kind) => kind < 7
    case DropCounter(reason) => reason < 4
    case OtherCounter(index) => index < n
  }

  function Read(s: State, c: Counter): nat
    requires Shaped(s) && Exists(c, |s.others|)
  {
    match c
    case CommandCounter(operation, outcome) => s.commands[OUTCOMES * operation + outcome]
    case DurationCounter(operation, outcome, bucket) => s.durations[OUTCOMES * operation + outcome][bucket]
    case ErrorCounter(code) => s.errors[KnownIndex(code)]
    case ProviderCounter(kind) => s.provider[kind]
    case DropCounter(reason) => s.drops[reason]
    case OtherCounter(index) => s.others[index]
  }

  /** The duration is above the bound before the bucket, and at most at its own. */
  predicate InBucket(duration: nat, bucket: nat)
    requires bucket < BUCKETS
  {
    duration <= UPPER[bucket] && (bucket > 0 ==> UPPER[bucket - 1] < duration)
  }

  /** An accepted terminal of this operation and outcome. */
  predicate Ended(call: Call, operation: nat, outcome: nat) {
    call.Terminal? && Consistent(call) && call.operation == operation && call.outcome == outcome
  }

  /** What a call adds to a counter. */
  function Adds(call: Call, c: Counter): nat {
    match c
    case CommandCounter(operation, outcome) => if Ended(call, operation, outcome) then 1 else 0
    case DurationCounter(operation, outcome, bucket) =>
      if Ended(call, operation, outcome) && bucket < BUCKETS && InBucket(call.duration, bucket) then 1 else 0
    case ErrorCounter(code) =>
      if call.Terminal? && Consistent(call) && code != NotFound && call.failure == Some(Failure(Known(code), None)) then 1 else 0
    case ProviderCounter(kind) =>
      if call.Terminal? && Consistent(call) && call.failure.Some? && call.failure.value.provider == Some(kind) then 1 else 0
    case DropCounter(reason) => if call == Drop(reason) then 1 else 0
    case OtherCounter(index) => if call.Other? && call.counter == index then call.amount else 0
  }

  function Total(calls: seq<Call>, c: Counter): nat {
    if calls == [] then 0 else Total(calls[..|calls| - 1], c) + Adds(calls[|calls| - 1], c)
  }

  function Capped(n: nat): nat {
    if n <= MAX then n else MAX
  }

  lemma Increasing(i: nat, j: nat)
    requires i < j < BUCKETS
    ensures UPPER[i] < UPPER[j]
  {
  }

  lemma BucketExactly(duration: nat, bucket: nat)
    requires duration <= MAX && bucket < BUCKETS
    ensures Bucket(duration) == bucket <==> InBucket(duration, bucket)
  {
    var b := Bucket(duration);
    if b < bucket && b < bucket - 1 {
      Increasing(b, bucket - 1);
    } else if bucket < b && bucket < b - 1 {
      Increasing(bucket, b - 1);
    }
  }

  lemma IndexTells(a: ErrorCode, b: ErrorCode)
    requires KnownIndex(a) == KnownIndex(b)
    ensures a == b
  {
  }

  lemma CellTells(call: Call, operation: nat, outcome: nat)
    requires call.Terminal? && call.operation < OPERATIONS && call.outcome < OUTCOMES && operation < OPERATIONS && outcome < OUTCOMES
    ensures Cell(call) == OUTCOMES * operation + outcome <==> call.operation == operation && call.outcome == outcome
  {
  }

  lemma MarkReads(s: State, now: bool, c: Counter)
    requires Shaped(s) && Exists(c, |s.others|)
    ensures Shaped(Mark(s, now)) && |Mark(s, now).others| == |s.others|
    ensures c != DropCounter(COUNTER_SATURATED) ==> Read(Mark(s, now), c) == Read(s, c)
    ensures Read(Mark(s, now), DropCounter(COUNTER_SATURATED))
         == Capped(Read(s, DropCounter(COUNTER_SATURATED)) + if now && !s.saturated then 1 else 0)
  {
  }

  lemma CountReads(s: State, call: Call, c: Counter)
    requires Shaped(s) && call.Terminal? && WellFormed(s, call) && Consistent(call) && Exists(c, |s.others|)
    ensures var t := Counted(s, Cell(call), Bucket(call.duration)).0;
            && Shaped(t) && |t.others| == |s.others|
            && Read(t, c) == if c.CommandCounter? || c.DurationCounter? then
                               (if Adds(call, c) == 1 then Add(Read(s, c), 1).0 else Read(s, c))
                             else Read(s, c)
  {
    if c.CommandCounter? || c.DurationCounter? {
      CellTells(call, c.operation, c.outcome);
    }
    if c.DurationCounter? {
      BucketExactly(call.duration, c.bucket);
    }
  }

  lemma TallyReads(s: State, call: Call, c: Counter)
    requires Shaped(s) && call.Terminal? && WellFormed(s, call) && Consistent(call) && Exists(c, |s.others|)
    ensures var t := Tallied(s, call.failure).0;
            && Shaped(t) && |t.others| == |s.others| && t.saturated == s.saturated
            && Read(t, c) == if c.ErrorCounter? || c.ProviderCounter? then
                               (if Adds(call, c) == 1 then Add(Read(s, c), 1).0 else Read(s, c))
                             else Read(s, c)
  {
    if c.ErrorCounter? && call.failure.Some? && call.failure.value.code.Known? {
      if KnownIndex(call.failure.value.code.code) == KnownIndex(c.code) {
        IndexTells(call.failure.value.code.code, c.code);
      }
    }
  }

  /** A step adds to each counter what its call adds, up to the ceiling; the first saturation adds one drop. */
  lemma StepReads(s: State, call: Call, c: Counter)
    requires Shaped(s) && WellFormed(s, call) && Exists(c, |s.others|) && Read(s, c) <= MAX
    ensures var t := Step(s, call).0;
            && Shaped(t) && |t.others| == |s.others|
            && Read(t, c) == Capped(Read(s, c) + Adds(call, c)
                                    + if c == DropCounter(COUNTER_SATURATED) && t.saturated && !s.saturated then 1 else 0)
  {
    StepShape(s, call);
    if call.Terminal? && Consistent(call) {
      var counted := Counted(s, Cell(call), Bucket(call.duration));
      CountReads(s, call, c);
      TallyReads(counted.0, call, c);
      MarkReads(Tallied(counted.0, call.failure).0, counted.1 || Tallied(counted.0, call.failure).1, c);
    }
  }

  /** Some counter cannot take what the call adds to it. */
  ghost predicate Overflows(s: State, call: Call)
    requires Shaped(s)
  {
    exists c :: Exists(c, |s.others|) && Read(s, c) + Adds(call, c) > MAX
  }

  lemma OverflowAt(s: State, call: Call, c: Counter)
    requires Shaped(s) && Exists(c, |s.others|) && Read(s, c) + Adds(call, c) > MAX
    ensures Overflows(s, call)
  {
  }

  lemma TerminalOverflows(s: State, call: Call)
    requires Shaped(s) && call.Terminal? && WellFormed(s, call) && Consistent(call)
    requires Counted(s, Cell(call), Bucket(call.duration)).1 || Tallied(s, call.failure).1
    ensures Overflows(s, call)
  {
    var b := Bucket(call.duration);
    BucketExactly(call.duration, b);
    if Add(s.commands[Cell(call)], 1).1 {
      OverflowAt(s, call, CommandCounter(call.operation, call.outcome));
    } else if Add(s.durations[Cell(call)][b], 1).1 {
      OverflowAt(s, call, DurationCounter(call.operation, call.outcome, b));
    } else if call.failure.value.provider.Some? {
      OverflowAt(s, call, ProviderCounter(call.failure.value.provider.value));
    } else {
      OverflowAt(s, call, ErrorCounter(call.failure.value.code.code));
    }
  }

  lemma OverflowMarks(s: State, call: Call, c: Counter)
    requires Shaped(s) && WellFormed(s, call) && Exists(c, |s.others|) && Read(s, c) <= MAX && Read(s, c) + Adds(call, c) > MAX
    ensures Step(s, call).0.saturated
  {
    if call.Terminal? {
      var counted := Counted(s, Cell(call), Bucket(call.duration));
      if c.DurationCounter? {
        BucketExactly(call.duration, c.bucket);
      }
    }
  }

  /** The flag is set exactly when some counter cannot take its addition. */
  lemma StepSaturates(s: State, call: Call)
    requires Shaped(s) && WellFormed(s, call) && forall c :: Exists(c, |s.others|) ==> Read(s, c) <= MAX
    ensures Step(s, call).0.saturated <==> s.saturated || Overflows(s, call)
  {
    if Overflows(s, call) {
      var c :| Exists(c, |s.others|) && Read(s, c) + Adds(call, c) > MAX;
      OverflowMarks(s, call, c);
    }
    if Step(s, call).0.saturated && !s.saturated {
      match call
      case Terminal(_, _, duration, failure) => TerminalOverflows(s, call);
      case Drop(reason) => OverflowAt(s, call, DropCounter(reason));
      case Other(i, _) => OverflowAt(s, call, OtherCounter(i));
    }
  }

  lemma {:induction false} RunShaped(n: nat, calls: seq<Call>, ss: seq<State>, i: nat)
    requires Run(n, calls, ss) && i < |ss|
    ensures Shaped(ss[i]) && |ss[i].others| == n
  {
    if i > 0 {
      RunShaped(n, calls, ss, i - 1);
      assert Recorded(calls, ss, i - 1);
      StepShape(ss[i - 1], calls[i - 1]);
    }
  }

  lemma TotalSnoc(calls: seq<Call>, i: nat, c: Counter)
    requires 0 < i <= |calls|
    ensures Total(calls[..i], c) == Total(calls[..i - 1], c) + Adds(calls[i - 1], c)
  {
    assert calls[..i][..i - 1] == calls[..i - 1];
  }

  /** The drop that the first saturation adds. */
  function Extra(c: Counter, saturated: bool): nat {
    if c == DropCounter(COUNTER_SATURATED) && saturated then 1 else 0
  }

  lemma ZeroReads(n: nat, c: Counter)
    requires Exists(c, n)
    ensures Shaped(Zero(n)) && |Zero(n).others| == n && Read(Zero(n), c) == 0
  {
  }

  lemma StepCounts(s: State, call: Call, t: State, c: Counter, before: nat, after: nat)
    requires Shaped(s) && WellFormed(s, call) && t == Step(s, call).0 && Exists(c, |s.others|)
    requires Read(s, c) == Capped(before + Extra(c, s.saturated)) && after == before + Adds(call, c)
    ensures Shaped(t) && |t.others| == |s.others| && Read(t, c) == Capped(after + Extra(c, t.saturated))
  {
    StepShape(s, call);
    StepReads(s, call, c);
  }

  lemma RunStep(n: nat, calls: seq<Call>, ss: seq<State>, i: nat, s: State, call: Call, t: State)
    requires Run(n, calls, ss) && 0 < i < |ss| && s == ss[i - 1] && call == calls[i - 1] && t == ss[i]
    ensures Shaped(s) && |s.others| == n && WellFormed(s, call) && t == Step(s, call).0
  {
    assert Recorded(calls, ss, i - 1);
    RunShaped(n, calls, ss, i - 1);
  }

  /** Over every run each counter holds what the calls so far added to it, up to the ceiling; the first
      saturation, and nothing else, adds one drop of its own. */
  lemma {:induction false} RunCounts(n: nat, calls: seq<Call>, ss: seq<State>, i: nat, c: Counter)
    requires Run(n, calls, ss) && i < |ss| && Exists(c, n)
    ensures Shaped(ss[i]) && |ss[i].others| == n && Read(ss[i], c) == Capped(Total(calls[..i], c) + Extra(c, ss[i].saturated))
  {
    if i == 0 {
      ZeroReads(n, c);
    } else {
      RunCounts(n, calls, ss, i - 1, c);
      TotalSnoc(calls, i, c);
      RunStep(n, calls, ss, i, ss[i - 1], calls[i - 1], ss[i]);
      StepCounts(ss[i - 1], calls[i - 1], ss[i], c, Total(calls[..i - 1], c), Total(calls[..i], c));
    }
  }

  /** Some counter was given more than it can hold. */
  ghost predicate Exceeded(n: nat, calls: seq<Call>) {
    exists c :: Exists(c, n) && Total(calls, c) > MAX
  }

  lemma ExceededNext(n: nat, calls: seq<Call>, i: nat, s: State, call: Call)
    requires 0 < i <= |calls| && call == calls[i - 1] && Shaped(s) && |s.others| == n
    requires forall c :: Exists(c, n) ==> Total(calls[..i], c) == Total(calls[..i - 1], c) + Adds(call, c)
    requires s.saturated <==> Exceeded(n, calls[..i - 1])
    requires !s.saturated ==> forall c :: Exists(c, n) ==> Read(s, c) == Total(calls[..i - 1], c)
    ensures Exceeded(n, calls[..i]) <==> s.saturated || Overflows(s, call)
  {
    if s.saturated {
      var c :| Exists(c, n) && Total(calls[..i - 1], c) > MAX;
      assert Total(calls[..i], c) > MAX;
    } else {
      if Overflows(s, call) {
        var c :| Exists(c, n) && Read(s, c) + Adds(call, c) > MAX;
        assert Total(calls[..i], c) > MAX;
      }
      if Exceeded(n, calls[..i]) {
        var c :| Exists(c, n) && Total(calls[..i], c) > MAX;
        OverflowAt(s, call, c);
      }
    }
  }

  lemma ReadTotals(n: nat, calls: seq<Call>, ss: seq<State>, i: nat, s: State)
    requires Run(n, calls, ss) && i < |ss| && s == ss[i] && Shaped(s) && |s.others| == n
    ensures forall c :: Exists(c, n) ==> Read(s, c) <= MAX
    ensures !s.saturated && !Exceeded(n, calls[..i]) ==> forall c :: Exists(c, n) ==> Read(s, c) == Total(calls[..i], c)
  {
    forall c | Exists(c, n)
      ensures Read(s, c) == Capped(Total(calls[..i], c) + Extra(c, s.saturated))
    {
      RunCounts(n, calls, ss, i, c);
    }
  }

  lemma TotalsGrow(n: nat, calls: seq<Call>, i: nat)
    requires 0 < i <= |calls|
    ensures forall c :: Exists(c, n) ==> Total(calls[..i], c) == Total(calls[..i - 1], c) + Adds(calls[i - 1], c)
  {
    forall c | Exists(c, n) ensures Total(calls[..i], c) == Total(calls[..i - 1], c) + Adds(calls[i - 1], c) {
      TotalSnoc(calls, i, c);
    }
  }

  lemma ExceededStep(n: nat, calls: seq<Call>, ss: seq<State>, i: nat, s: State, call: Call, t: State)
    requires Run(n, calls, ss) && 0 < i < |ss| && s == ss[i - 1] && call == calls[i - 1] && t == ss[i]
    requires s.saturated <==> Exceeded(n, calls[..i - 1])
    ensures t.saturated <==> Exceeded(n, calls[..i])
  {
    RunStep(n, calls, ss, i, s, call, t);
    ReadTotals(n, calls, ss, i - 1, s);
    TotalsGrow(n, calls, i);
    StepSaturates(s, call);
    ExceededNext(n, calls, i, s, call);
  }

  /** The metrics are marked degraded exactly when some counter was given more than it can hold. */
  lemma {:induction false} RunSaturates(n: nat, calls: seq<Call>, ss: seq<State>, i: nat)
    requires Run(n, calls, ss) && i < |ss|
    ensures ss[i].saturated <==> Exceeded(n, calls[..i])
  {
    if i > 0 {
      RunSaturates(n, calls, ss, i - 1);
      ExceededStep(n, calls, ss, i, ss[i - 1], calls[i - 1], ss[i]);
    }
  }

  // The recorder

  class CoreMetrics {
    var commands: seq<nat>
    var durations: seq<seq<nat>>
    var errors: seq<nat>
    var provider: seq<nat>
    var drops: seq<nat>
    var others: seq<nat>
    var saturated: bool

    function View(): State
      reads this
    {
      State(commands, durations, errors, provider, drops, others, saturated)
    }

    constructor (n: nat)
      ensures View() == Zero(n)
    {
      commands, durations := seq(CELLS, _ => 0), seq(CELLS, _ => seq(BUCKETS, _ => 0));
      errors, provider, drops := seq(31, _ => 0), seq(7, _ => 0), seq(4, _ => 0);
      others, saturated := seq(n, _ => 0), false;
    }

    /** `core_count`. */
    method CoreCount(operation: nat, outcome: nat) returns (count: nat)
      requires Shaped(View()) && operation < OPERATIONS && outcome < OUTCOMES
      ensures count == Read(View(), CommandCounter(operation, outcome))
    {
      count := commands[OUTCOMES * operation + outcome];
    }

    /** `drop_count`. */
    method DropCount(reason: nat) returns (count: nat)
      requires Shaped(View()) && reason < 4
      ensures count == Read(View(), DropCounter(reason))
    {
      count := drops[reason];
    }

    method MarkSaturation(now: bool)
      requires |drops| == 4
      modifies this`saturated, this`drops
      ensures View() == Mark(old(View()), now)
    {
      if now && !saturated {
        saturated := true;
        drops := Bump(drops, 2, 1);
      }
    }

    /** The error tallies of a record; a code without an index is refused here too. */
    method TallyFailure(failure: Option<Failure>) returns (ok: bool, now: bool)
      requires |errors| == 31 && |provider| == 7
      requires failure.Some? && failure.value.provider.Some? ==> failure.value.provider.value < 7
      modifies this`errors, this`provider
      ensures (View(), now, ok) == Tallied(old(View()), failure)
    {
      ok, now := true, false;
      if failure.Some? {
        if failure.value.provider.Some? {
          var i := failure.value.provider.value;
          var sum := Add(provider[i], 1);
          provider := provider[i := sum.0];
          now := sum.1;
        } else if failure.value.code != Known(NotFound) {
          var i := ErrorIndex(failure.value.code);
          if i.None? {
            return false, false;
          }
          var sum := Add(errors[i.value], 1);
          errors := errors[i.value := sum.0];
          now := sum.1;
        }
      }
    }

    /** `record_core_terminal`: all checks come before the first counter moves. */
    method RecordTerminal(operation: nat, outcome: nat, duration: nat, failure: Option<Failure>) returns (ok: bool)
      requires Shaped(View()) && WellFormed(View(), Terminal(operation, outcome, duration, failure))
      modifies this
      ensures (View(), ok) == Step(old(View()), Terminal(operation, outcome, duration, failure))
    {
      if Succeeds(outcome) != failure.None? {
        return false;
      }
      if failure.Some? && ProviderCode(failure.value.code) != failure.value.provider.Some? {
        return false;
      }
      if failure.Some? && Tabled(failure.value) && ErrorIndex(failure.value.code).None? {
        return false;
      }
      var c, b := OUTCOMES * operation + outcome, Bucket(duration);
      var sum := Add(commands[c], 1);
      commands := commands[c := sum.0];
      var now := sum.1;
      sum := Add(durations[c][b], 1);
      durations := durations[c := durations[c][b := sum.0]];
      now := now || sum.1;
      var more;
      ok, more := TallyFailure(failure);
      if ok {
        MarkSaturation(now || more);
      }
    }
  }
}
