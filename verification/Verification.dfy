/** Integrity verification: the run that records issues, the owner that keeps the last four reports,
    and the paging of a report. */
module Verification {
  import opened Bytes
  import opened Codes
  import opened Cursors
  import opened Encoding
  import opened Options

  const STORED_MAX := 4096
  const REPORTS_MAX := 4
  const ID_ATTEMPTS := 8

  // Issues

  datatype Severity = FatalLocal | OperatorAction | ReadOnlyCustody | DegradedCustody

  datatype IssueKind =
    | DatabaseIntegrityFailure | SchemaOrMigrationMismatch | LibraryAuthorityMismatch | EventOrGraphInconsistent
    | CommandRecoveryRequired | UnregisteredCanonicalBlob | StagingOrphan | MaterializationRecoveryRequired
    | LocalBackendMismatch | UnsafeCasNamespaceEntry
    | ManagedBlobMissing | ManagedBlobUnsafe | ManagedBlobLengthMismatch | ManagedBlobDigestMismatch

  datatype ObjectId = NoId | DigestId | UuidId

  datatype Finding = Finding(kind: IssueKind, severity: Severity, aboutBlob: bool, target: ObjectId)

  datatype Issue = Issue(ordinal: nat, finding: Finding)

  function Expected(kind: IssueKind): Severity {
    match kind
    case DatabaseIntegrityFailure => FatalLocal
    case SchemaOrMigrationMismatch => FatalLocal
    case LibraryAuthorityMismatch => FatalLocal
    case EventOrGraphInconsistent => FatalLocal
    case CommandRecoveryRequired => OperatorAction
    case UnregisteredCanonicalBlob => OperatorAction
    case StagingOrphan => OperatorAction
    case MaterializationRecoveryRequired => OperatorAction
    case LocalBackendMismatch => ReadOnlyCustody
    case UnsafeCasNamespaceEntry => ReadOnlyCustody
    case _ => DegradedCustody
  }

  /** `IntegrityIssue::new` accepts. */
  predicate Sound(f: Finding) {
    f.severity == Expected(f.kind) && (f.target == NoId || (f.aboutBlob <==> f.target == DigestId))
  }

  // The run

  datatype Tally = Tally(discovered: nat, issues: seq<Issue>, fatal: bool, degraded: bool, first: Option<Issue>)

  const EMPTY := Tally(0, [], false, false, None)

  /** The counter moves first, also when the finding is then refused. */
  function Record(t: Tally, f: Finding): (Tally, bool) {
    if t.discovered + 1 >= TWO64 then (t, false)
    else
      var n := t.discovered + 1;
      if n >= TWO32 || !Sound(f) then (t.(discovered := n), false)
      else
        var issue := Issue(n, f);
        (Tally(n,
               if |t.issues| < STORED_MAX then t.issues + [issue] else t.issues,
               t.fatal || f.severity == FatalLocal,
               t.degraded || f.severity == DegradedCustody,
               if f.severity == FatalLocal && t.first.None? then Some(issue) else t.first), true)
  }

  class Run {
    var discovered: nat
    var issues: seq<Issue>
    var fatal: bool
    var degraded: bool
    var first: Option<Issue>

    function View(): Tally
      reads this
    {
      Tally(discovered, issues, fatal, degraded, first)
    }

    constructor ()
      ensures View() == EMPTY
    {
      discovered, issues, fatal, degraded, first := 0, [], false, false, None;
    }

    method RecordIssue(f: Finding) returns (ok: bool)
      modifies this
      ensures (View(), ok) == Record(old(View()), f)
    {
      if discovered + 1 >= TWO64 {
        return false;
      }
      discovered := discovered + 1;
      if discovered >= TWO32 {
        return false;
      }
      if !Sound(f) {
        return false;
      }
      var issue := Issue(discovered, f);
      degraded := degraded || f.severity == DegradedCustody;
      if f.severity == FatalLocal {
        fatal := true;
        if first.None? {
          first := Some(issue);
        }
      }
      if |issues| < STORED_MAX {
        issues := issues + [issue];
      }
      ok := true;
    }
  }

  function RecordAll(fs: seq<Finding>): Tally {
    if fs == [] then EMPTY else Record(RecordAll(fs[..|fs| - 1]), fs[|fs| - 1]).0
  }

  /** The findings that became issues: the sound ones whose place in the whole history is a 32-bit ordinal,
      each under that place. */
  function Accepted(fs: seq<Finding>): seq<Issue> {
    if fs == [] then []
    else
      var before := Accepted(fs[..|fs| - 1]);
      if Sound(fs[|fs| - 1]) && |fs| < TWO32 then before + [Issue(|fs|, fs[|fs| - 1])] else before
  }

  function FirstFatal(issues: seq<Issue>): Option<Issue> {
    if issues == [] then None
    else if issues[0].finding.severity == FatalLocal then Some(issues[0])
    else FirstFatal(issues[1..])
  }

  predicate Has(issues: seq<Issue>, severity: Severity) {
    exists i :: 0 <= i < |issues| && issues[i].finding.severity == severity
  }

  function Min(a: nat, b: nat): nat {
    if a <= b then a else b
  }

  lemma {:induction false} FirstFatalAppends(issues: seq<Issue>, issue: Issue)
    ensures FirstFatal(issues + [issue]) ==
            if FirstFatal(issues).Some? then FirstFatal(issues)
            else if issue.finding.severity == FatalLocal then Some(issue) else None
  {
    if issues == [] {
      assert [issue][1..] == [];
    } else {
      FirstFatalAppends(issues[1..], issue);
      assert (issues + [issue])[1..] == issues[1..] + [issue];
    }
  }

  lemma StoredAppends(before: seq<Issue>, issue: Issue, stored: seq<Issue>)
    requires stored == before[..Min(|before|, STORED_MAX)]
    ensures (if |stored| < STORED_MAX then stored + [issue] else stored) == (before + [issue])[..Min(|before| + 1, STORED_MAX)]
  {
  }

  lemma HasAppends(issues: seq<Issue>, issue: Issue, s: Severity)
    ensures Has(issues + [issue], s) <==> Has(issues, s) || issue.finding.severity == s
  {
    if issue.finding.severity == s {
      assert (issues + [issue])[|issues|] == issue;
    }
    if Has(issues, s) {
      var i :| 0 <= i < |issues| && issues[i].finding.severity == s;
      assert (issues + [issue])[i] == issues[i];
    }
  }

  lemma {:induction false} FirstFatalExact(issues: seq<Issue>)
    ensures FirstFatal(issues).Some? <==> Has(issues, FatalLocal)
  {
    if issues != [] {
      FirstFatalExact(issues[1..]);
      HasPrepends(issues, FatalLocal);
    }
  }

  lemma HasPrepends(issues: seq<Issue>, s: Severity)
    requires issues != []
    ensures Has(issues, s) <==> issues[0].finding.severity == s || Has(issues[1..], s)
  {
    if Has(issues, s) {
      var i :| 0 <= i < |issues| && issues[i].finding.severity == s;
      if i > 0 {
        assert issues[1..][i - 1] == issues[i];
      }
    }
    if Has(issues[1..], s) {
      var i :| 0 <= i < |issues[1..]| && issues[1..][i].finding.severity == s;
      assert issues[i + 1] == issues[1..][i];
    }
  }

  /** The tally is that of these issues: the first 4096 stored, the first fatal one kept, the flags set by any. */
  ghost predicate Describes(t: Tally, all: seq<Issue>) {
    && t.issues == all[..Min(|all|, STORED_MAX)] && t.first == FirstFatal(all)
    && (t.fatal <==> Has(all, FatalLocal)) && (t.degraded <==> Has(all, DegradedCustody))
  }

  lemma DescribesNext(t: Tally, all: seq<Issue>, f: Finding)
    requires Describes(t, all)
    ensures var (u, accepted) := Record(t, f); Describes(u, if accepted then all + [Issue(t.discovered + 1, f)] else all)
  {
    if Record(t, f).1 {
      var issue := Issue(t.discovered + 1, f);
      FirstFatalAppends(all, issue);
      StoredAppends(all, issue, t.issues);
      HasAppends(all, issue, FatalLocal);
      HasAppends(all, issue, DegradedCustody);
    }
  }

  /** What a run holds after any findings, accepted or refused. */
  lemma {:induction false} RecordsExactly(fs: seq<Finding>)
    ensures RecordAll(fs).discovered == Min(|fs|, TWO64 - 1)
    ensures Describes(RecordAll(fs), Accepted(fs))
  {
    if fs != [] {
      var rest, f := fs[..|fs| - 1], fs[|fs| - 1];
      RecordsExactly(rest);
      DescribesNext(RecordAll(rest), Accepted(rest), f);
    }
  }

  /** Each issue is a sound finding under its place, in order. */
  ghost predicate Shaped(fs: seq<Finding>, all: seq<Issue>) {
    && |all| <= |fs|
    && (forall i :: 0 <= i < |all| ==>
          i + 1 <= all[i].ordinal <= |fs| && all[i].ordinal < TWO32 && all[i].finding == fs[all[i].ordinal - 1] && Sound(all[i].finding))
    && (forall i, j :: 0 <= i < j < |all| ==> all[i].ordinal < all[j].ordinal)
  }

  lemma ShapedAppends(fs: seq<Finding>, all: seq<Issue>, f: Finding)
    requires Shaped(fs, all)
    ensures Shaped(fs + [f], all)
    ensures Sound(f) && |fs| + 1 < TWO32 ==> Shaped(fs + [f], all + [Issue(|fs| + 1, f)])
  {
  }

  lemma {:induction false} AcceptedShape(fs: seq<Finding>)
    ensures Shaped(fs, Accepted(fs))
  {
    if fs != [] {
      var rest, f := fs[..|fs| - 1], fs[|fs| - 1];
      AcceptedShape(rest);
      ShapedAppends(rest, Accepted(rest), f);
      assert fs == rest + [f];
    }
  }

  /** As long as the findings are sound and ordinals last, every finding is an issue. */
  lemma {:induction false} AllAccepted(fs: seq<Finding>)
    requires forall i :: 0 <= i < |fs| ==> Sound(fs[i])
    ensures |Accepted(fs)| == Min(|fs|, TWO32 - 1)
  {
    if fs != [] {
      AllAccepted(fs[..|fs| - 1]);
    }
  }

  lemma {:induction false} AcceptedAt(fs: seq<Finding>, i: nat)
    requires i < |fs| && i + 1 < TWO32 && forall j :: 0 <= j <= i ==> Sound(fs[j])
    ensures i < |Accepted(fs)| && Accepted(fs)[i] == Issue(i + 1, fs[i])
    decreases |fs|
  {
    var rest := fs[..|fs| - 1];
    if i < |rest| {
      AcceptedAt(rest, i);
    } else {
      AllAccepted(rest);
    }
  }

  /** After sound findings the first 4096 are stored under ordinals 1, 2, 3, ... and the rest is only counted. */
  lemma {:induction false} CleanRun(fs: seq<Finding>)
    requires forall i :: 0 <= i < |fs| ==> Sound(fs[i])
    ensures var t := RecordAll(fs);
            && t.discovered == Min(|fs|, TWO64 - 1) && |t.issues| == Min(|fs|, STORED_MAX)
            && (forall i :: 0 <= i < |t.issues| ==> t.issues[i] == Issue(i + 1, fs[i]))
  {
    RecordsExactly(fs);
    AllAccepted(fs);
    forall i | 0 <= i < Min(|fs|, STORED_MAX) ensures Accepted(fs)[i] == Issue(i + 1, fs[i]) {
      AcceptedAt(fs, i);
    }
  }

  /** The fatal issue kept is the earliest of all, stored or not. */
  lemma FatalIsEarliest(fs: seq<Finding>, i: nat)
    requires i < |Accepted(fs)| && Accepted(fs)[i].finding.severity == FatalLocal
    requires forall j :: 0 <= j < i ==> Accepted(fs)[j].finding.severity != FatalLocal
    ensures RecordAll(fs).first == Some(Accepted(fs)[i])
  {
    RecordsExactly(fs);
    EarliestFatal(Accepted(fs), i);
  }

  /** What the summary insists on holds of every run. */
  lemma {:induction false} SummaryIsAccepted(fs: seq<Finding>, id: Octets)
    requires |id| == 16
    ensures GoodReport(ReportOf(Concluded(id, fs))) && (RecordAll(fs).fatal <==> RecordAll(fs).first.Some?)
  {
    RecordsExactly(fs);
    AcceptedShape(fs);
    FirstFatalExact(Accepted(fs));
  }

  lemma {:induction false} EarliestFatal(issues: seq<Issue>, i: nat)
    requires i < |issues| && issues[i].finding.severity == FatalLocal
    requires forall j :: 0 <= j < i ==> issues[j].finding.severity != FatalLocal
    ensures FirstFatal(issues) == Some(issues[i])
  {
    if i > 0 {
      EarliestFatal(issues[1..], i - 1);
    }
  }

  predicate Consecutive(issues: seq<Issue>) {
    forall i :: 0 <= i < |issues| ==> issues[i].ordinal == i + 1
  }

  predicate NoneRefused(fs: seq<Finding>) {
    forall i :: 0 <= i < |fs| ==> Sound(fs[i])
  }

  lemma StoredAreFirst(fs: seq<Finding>, issues: seq<Issue>)
    requires issues == RecordAll(fs).issues
    ensures |issues| <= STORED_MAX && |issues| <= |Accepted(fs)| <= |fs| && issues == Accepted(fs)[..|issues|]
  {
    RecordsExactly(fs);
    AcceptedShape(fs);
  }

  lemma NoneRefusedConsecutive(fs: seq<Finding>, issues: seq<Issue>, all: seq<Issue>)
    requires all == Accepted(fs) && |issues| <= |all| && issues == all[..|issues|]
    requires |issues| <= |fs| && |issues| < TWO32 && NoneRefused(fs[..|issues|])
    ensures Consecutive(issues)
  {
    forall i | 0 <= i < |issues| ensures issues[i].ordinal == i + 1 {
      assert forall j :: 0 <= j <= i ==> fs[j] == fs[..|issues|][j];
      AcceptedAt(fs, i);
    }
  }

  lemma ConsecutiveNoneRefused(fs: seq<Finding>, issues: seq<Issue>, all: seq<Issue>)
    requires Shaped(fs, all) && |issues| <= |all| && issues == all[..|issues|] && Consecutive(issues)
    ensures NoneRefused(fs[..|issues|])
  {
    forall i | 0 <= i < |issues| ensures Sound(fs[i]) {
      assert issues[i] == all[i];
    }
  }

  /** A refused finding uses up its ordinal, so the stored ordinals are consecutive exactly when none of
      the findings they cover was refused. */
  lemma {:induction false} OrdinalsConsecutive(fs: seq<Finding>, issues: seq<Issue>)
    requires issues == RecordAll(fs).issues
    ensures |issues| <= |fs| && (Consecutive(issues) <==> NoneRefused(fs[..|issues|]))
  {
    StoredAreFirst(fs, issues);
    AcceptedShape(fs);
    if Consecutive(issues) {
      ConsecutiveNoneRefused(fs, issues, Accepted(fs));
    }
    if NoneRefused(fs[..|issues|]) {
      NoneRefusedConsecutive(fs, issues, Accepted(fs));
    }
  }

  ghost predicate Increasing(issues: seq<Issue>) {
    forall i, j :: 0 <= i < j < |issues| ==> issues[i].ordinal < issues[j].ordinal
  }

  /** Each issue is sound and stands no earlier than its place and no later than the counter. */
  ghost predicate InPlace(issues: seq<Issue>, discovered: nat) {
    forall i :: 0 <= i < |issues| ==> i + 1 <= issues[i].ordinal <= discovered && Sound(issues[i].finding)
  }

  lemma StoredInPlace(fs: seq<Finding>, issues: seq<Issue>)
    requires issues == RecordAll(fs).issues
    ensures Increasing(issues) && InPlace(issues, RecordAll(fs).discovered)
  {
    RecordsExactly(fs);
    AcceptedShape(fs);
    StoredAreFirst(fs, issues);
    PrefixInPlace(fs, issues, Accepted(fs), RecordAll(fs).discovered);
  }

  lemma PrefixInPlace(fs: seq<Finding>, issues: seq<Issue>, all: seq<Issue>, discovered: nat)
    requires Shaped(fs, all) && |issues| <= |all| && issues == all[..|issues|] && discovered == Min(|fs|, TWO64 - 1)
    ensures Increasing(issues) && InPlace(issues, discovered)
  {
    assert forall i :: 0 <= i < |issues| ==> issues[i] == all[i];
  }

  // The owner

  datatype Report = Report(id: Octets, issues: seq<Issue>, discovered: nat)

  predicate GoodReport(r: Report) {
    |r.id| == 16 && |r.issues| <= STORED_MAX && |r.issues| <= r.discovered
  }

  /** A run that came to its end, with all it found. */
  datatype Concluded = Concluded(id: Octets, findings: seq<Finding>)

  function ReportOf(c: Concluded): Report {
    Report(c.id, RecordAll(c.findings).issues, RecordAll(c.findings).discovered)
  }

  datatype Owner = Owner(active: bool, reports: seq<Report>)

  predicate Kept(reports: seq<Report>, id: Octets) {
    exists i :: 0 <= i < |reports| && reports[i].id == id
  }

  /** The first of up to eight candidates that no kept report has; a failing source ends the search. */
  function Choose(reports: seq<Report>, candidates: seq<Option<Octets>>): Option<Octets> {
    if candidates == [] || candidates[0].None? then None
    else if !Kept(reports, candidates[0].value) then candidates[0]
    else Choose(reports, candidates[1..])
  }

  function Begun(o: Owner, candidates: seq<Option<Octets>>): (Owner, Result<Octets>) {
    if o.active then (o, Err(StoreBackpressure))
    else
      match Choose(o.reports, candidates)
      case None => (o, Err(StoreIdGenerationUnavailable))
      case Some(id) => (o.(active := true), Ok(id))
  }

  /** Without a bound snapshot the run is over and nothing is kept. */
  function Finished(o: Owner, report: Report, bound: bool): (Owner, bool) {
    if !bound then (o.(active := false), false)
    else if !o.active then (o, false)
    else
      var reports := if |o.reports| == REPORTS_MAX then o.reports[1..] else o.reports;
      (Owner(false, reports + [report]), true)
  }

  function Ended(o: Owner): Owner {
    o.(active := false)
  }

  /** `VerificationReportOwner`; each call holds the mutex. */
  class ReportOwner {
    var active: bool
    var reports: seq<Report>

    function View(): Owner
      reads this
    {
      Owner(active, reports)
    }

    constructor ()
      ensures View() == Owner(false, [])
    {
      active, reports := false, [];
    }

    /** `candidates` is what the identity source would answer, one entry an attempt. */
    method Begin(candidates: seq<Option<Octets>>) returns (r: Result<Octets>)
      requires |candidates| == ID_ATTEMPTS
      modifies this`active
      ensures (View(), r) == Begun(old(View()), candidates)
    {
      if active {
        return Err(StoreBackpressure);
      }
      var chosen: Option<Octets>, i := None, 0;
      while i < ID_ATTEMPTS && chosen.None?
        invariant i <= ID_ATTEMPTS && View() == old(View())
        invariant Choose(reports, candidates) == if chosen.Some? then chosen else Choose(reports, candidates[i..])
      {
        if candidates[i].None? {
          return Err(StoreIdGenerationUnavailable);
        }
        if !Kept(reports, candidates[i].value) {
          chosen := candidates[i];
        }
        assert candidates[i..][1..] == candidates[i + 1..];
        i := i + 1;
      }
      if chosen.None? {
        return Err(StoreIdGenerationUnavailable);
      }
      active := true;
      r := Ok(chosen.value);
    }

    method Finish(report: Report, bound: bool) returns (ok: bool)
      modifies this
      ensures (View(), ok) == Finished(old(View()), report, bound)
    {
      if !bound {
        active := false;
        return false;
      }
      if !active {
        return false;
      }
      if |reports| == REPORTS_MAX {
        reports := reports[1..];
      }
      reports := reports + [report];
      active := false;
      ok := true;
    }

    method Drop()
      modifies this`active
      ensures View() == Ended(old(View()))
    {
      active := false;
    }
  }

  // Every history of the owner

  /** The owner, the runs handed out and not yet over, by the id each was given, and every run whose
      report was ever kept. */
  datatype System = System(owner: Owner, runs: map<nat, Octets>, finished: seq<Concluded>)

  datatype Move =
    | Start(k: nat, candidates: seq<Option<Octets>>)
    | Conclude(k: nat, findings: seq<Finding>, bound: bool)
    | Abandon(k: nat)

  predicate Possible(s: System, m: Move) {
    match m
    case Start(k, _) => k !in s.runs
    case Conclude(k, _, _) => k in s.runs
    case Abandon(k) => k in s.runs
  }

  function Apply(s: System, m: Move): System
    requires Possible(s, m)
  {
    match m
    case Start(k, candidates) =>
      var (owner, r) := Begun(s.owner, candidates);
      System(owner, if r.Ok? then s.runs[k := r.value] else s.runs, s.finished)
    case Conclude(k, findings, bound) =>
      var run := Concluded(s.runs[k], findings);
      var (owner, kept) := Finished(s.owner, ReportOf(run), bound);
      System(owner, s.runs - {k}, if kept then s.finished + [run] else s.finished)
    case Abandon(k) => System(Ended(s.owner), s.runs - {k}, s.finished)
  }

  ghost predicate DistinctIds(reports: seq<Report>) {
    forall i, j :: 0 <= i < j < |reports| ==> reports[i].id != reports[j].id
  }

  /** The reports of the latest four runs that finished. */
  function Latest(finished: seq<Concluded>): (reports: seq<Report>)
    ensures |reports| == Min(|finished|, REPORTS_MAX)
  {
    var skip := |finished| - Min(|finished|, REPORTS_MAX);
    seq(|finished| - skip, i requires 0 <= i < |finished| - skip => ReportOf(finished[skip + i]))
  }

  /** One run at a time, marked as active, under an id of its own; the reports are the latest four, and
      their ids differ. */
  ghost predicate Orderly(s: System) {
    && s.owner.reports == Latest(s.finished)
    && DistinctIds(s.owner.reports)
    && (forall j, k :: j in s.runs && k in s.runs ==> j == k)
    && (s.owner.active <==> s.runs != map[])
    && (forall k :: k in s.runs ==> !Kept(s.owner.reports, s.runs[k]))
  }

  lemma {:induction false} ChosenIsNew(reports: seq<Report>, candidates: seq<Option<Octets>>)
    ensures Choose(reports, candidates).Some? ==>
              !Kept(reports, Choose(reports, candidates).value) && Choose(reports, candidates) in candidates
  {
    if candidates != [] && candidates[0].Some? && Kept(reports, candidates[0].value) {
      ChosenIsNew(reports, candidates[1..]);
    }
  }

  /** It is the first that can be taken, if every attempt before it gave an id in use. */
  lemma {:induction false} ChosenIsFirst(reports: seq<Report>, candidates: seq<Option<Octets>>, i: nat)
    requires i < |candidates| && candidates[i].Some? && !Kept(reports, candidates[i].value)
    requires forall j :: 0 <= j < i ==> candidates[j].Some? && Kept(reports, candidates[j].value)
    ensures Choose(reports, candidates) == candidates[i]
  {
    if i > 0 {
      ChosenIsFirst(reports, candidates[1..], i - 1);
    }
  }

  /** Candidate `i` can be taken: every attempt before it gave an id in use. */
  ghost predicate Takes(reports: seq<Report>, candidates: seq<Option<Octets>>, i: nat) {
    && i < |candidates| && candidates[i].Some? && !Kept(reports, candidates[i].value)
    && forall j :: 0 <= j < i ==> candidates[j].Some? && Kept(reports, candidates[j].value)
  }

  lemma {:induction false} ChosenExactly(reports: seq<Report>, candidates: seq<Option<Octets>>)
    ensures Choose(reports, candidates).Some? <==> exists i: nat :: Takes(reports, candidates, i)
  {
    if i: nat :| Takes(reports, candidates, i) {
      ChosenIsFirst(reports, candidates, i);
    }
    if Choose(reports, candidates).Some? {
      var i := ChosenAt(reports, candidates);
    }
  }

  lemma {:induction false} ChosenAt(reports: seq<Report>, candidates: seq<Option<Octets>>) returns (i: nat)
    requires Choose(reports, candidates).Some?
    ensures Takes(reports, candidates, i)
  {
    if !Kept(reports, candidates[0].value) {
      i := 0;
    } else {
      var j := ChosenAt(reports, candidates[1..]);
      i := j + 1;
      assert forall m :: 0 < m <= i ==> candidates[m] == candidates[1..][m - 1];
    }
  }

  /** In every history an idle owner with a candidate it can take begins a run under that id, without one it
      says that ids are unavailable, and an active owner asks to come back. */
  lemma BeginsExactly(s: System, k: nat, candidates: seq<Option<Octets>>)
    requires Orderly(s) && k !in s.runs
    ensures s.runs != map[] ==> Begun(s.owner, candidates).1 == Err(StoreBackpressure) && Apply(s, Move.Start(k, candidates)) == s
    ensures s.runs == map[] ==>
              forall i: nat :: Takes(s.owner.reports, candidates, i) ==>
                Apply(s, Move.Start(k, candidates)) == System(Owner(true, s.owner.reports), map[k := candidates[i].value], s.finished)
    ensures s.runs == map[] && (forall i: nat :: !Takes(s.owner.reports, candidates, i)) ==>
              Begun(s.owner, candidates).1 == Err(StoreIdGenerationUnavailable) && Apply(s, Move.Start(k, candidates)) == s
  {
    ChosenExactly(s.owner.reports, candidates);
    forall i: nat | Takes(s.owner.reports, candidates, i)
      ensures Choose(s.owner.reports, candidates) == candidates[i]
    {
      ChosenIsFirst(s.owner.reports, candidates, i);
    }
  }

  /** In every history a run that ends with its snapshot bound has its report kept, as the latest; without, or
      abandoned, it leaves none.  Either way the owner is idle again. */
  lemma ConcludesExactly(s: System, k: nat, findings: seq<Finding>, bound: bool)
    requires Orderly(s) && k in s.runs
    ensures var s' := Apply(s, Conclude(k, findings, bound));
            && !s'.owner.active && s'.runs == map[]
            && s'.finished == (if bound then s.finished + [Concluded(s.runs[k], findings)] else s.finished)
            && s'.owner.reports == Latest(s'.finished)
    ensures Apply(s, Abandon(k)) == System(Owner(false, s.owner.reports), map[], s.finished)
  {
    ConcludeKeepsOrder(s, Conclude(k, findings, bound));
    assert s.runs - {k} == map[];
  }

  lemma LatestGrows(finished: seq<Concluded>, c: Concluded)
    ensures Latest(finished + [c]) ==
            (if |Latest(finished)| == REPORTS_MAX then Latest(finished)[1..] else Latest(finished)) + [ReportOf(c)]
  {
  }

  lemma DistinctGrows(reports: seq<Report>, r: Report)
    requires DistinctIds(reports) && !Kept(reports, r.id)
    ensures DistinctIds(reports + [r]) && (reports != [] ==> DistinctIds(reports[1..] + [r]))
  {
    assert forall i :: 0 <= i < |reports| ==> reports[i].id != r.id;
  }

  lemma ConcludeKeepsOrder(s: System, m: Move)
    requires Orderly(s) && m.Conclude? && Possible(s, m)
    ensures Orderly(Apply(s, m))
  {
    var run := Concluded(s.runs[m.k], m.findings);
    LatestGrows(s.finished, run);
    DistinctGrows(s.owner.reports, ReportOf(run));
    assert s.runs - {m.k} == map[];
  }

  lemma MoveKeepsOrder(s: System, m: Move)
    requires Orderly(s) && Possible(s, m)
    ensures Orderly(Apply(s, m))
  {
    match m
    case Start(k, candidates) => ChosenIsNew(s.owner.reports, candidates);
    case Conclude(_, _, _) => ConcludeKeepsOrder(s, m);
    case Abandon(k) => assert s.runs - {k} == map[];
  }

  ghost predicate Step(s: System, s': System) {
    exists m :: Possible(s, m) && s' == Apply(s, m)
  }

  ghost predicate History(ss: seq<System>) {
    && |ss| > 0 && ss[0] == System(Owner(false, []), map[], [])
    && forall i :: 0 < i < |ss| ==> Step(ss[i - 1], ss[i])
  }

  /** Over every history at most one run is active, the reports kept are the latest four in order, and
      their ids differ. */
  lemma {:induction false} HistoryIsOrderly(ss: seq<System>, i: nat)
    requires History(ss) && i < |ss|
    ensures Orderly(ss[i])
  {
    if i > 0 {
      HistoryIsOrderly(ss, i - 1);
      assert Step(ss[i - 1], ss[i]);
      var m :| Possible(ss[i - 1], m) && ss[i] == Apply(ss[i - 1], m);
      MoveKeepsOrder(ss[i - 1], m);
    }
  }
}

/** What the command line makes of a summary and of the issues of a report. */
module Rendering {
  import opened Bytes
  import opened Encoding
  import opened Options
  import opened Verification

  /** `render_issue` prints the issue; its tables of severities and object ids are those of the run. */
  predicate Renders(issue: Issue, discovered: nat, stored: nat) {
    issue.ordinal != 0 && issue.ordinal <= discovered && issue.ordinal <= stored && Sound(issue.finding)
  }

  datatype Summary = Summary(discovered: nat, stored: nat, dropped: int, fatal: bool, first: Option<Issue>)

  /** `finish`. */
  function SummaryOf(t: Tally): Summary {
    Summary(t.discovered, |t.issues|, t.discovered - |t.issues|, t.fatal, t.first)
  }

  /** `render_verification` succeeds. */
  predicate RendersSummary(s: Summary) {
    && s.stored <= STORED_MAX && s.stored <= s.discovered && s.dropped == s.discovered - s.stored
    && (s.fatal <==> s.first.Some?)
    && (s.first.Some? ==> Renders(s.first.value, s.discovered, s.stored))
  }

  lemma {:induction false} FirstFatalAt(issues: seq<Issue>) returns (i: nat)
    requires FirstFatal(issues).Some?
    ensures i < |issues| && FirstFatal(issues) == Some(issues[i]) && issues[i].finding.severity == FatalLocal
    ensures forall j :: 0 <= j < i ==> issues[j].finding.severity != FatalLocal
  {
    if issues[0].finding.severity == FatalLocal {
      i := 0;
    } else {
      var j := FirstFatalAt(issues[1..]);
      i := j + 1;
      assert forall k :: 0 < k < i ==> issues[k] == issues[1..][k - 1];
    }
  }

  /** The first fatal issue is kept though it may not be stored, and the command line wants its ordinal
      within the number stored: that test alone decides whether it renders the summary of a run. */
  lemma SummaryRenders(fs: seq<Finding>, all: seq<Issue>)
    requires all == Accepted(fs)
    ensures RendersSummary(SummaryOf(RecordAll(fs)))
       <==> (FirstFatal(all).Some? ==> FirstFatal(all).value.ordinal <= Min(|all|, STORED_MAX))
  {
    RecordsExactly(fs);
    AcceptedShape(fs);
    FirstFatalExact(all);
    if FirstFatal(all).Some? {
      var i := FirstFatalAt(all);
    }
  }

  /** Some of the first `n` findings is fatal. */
  ghost predicate FatalWithin(fs: seq<Finding>, n: nat) {
    exists i :: 0 <= i < |fs| && i < n && fs[i].severity == FatalLocal
  }

  lemma PlacesOfSound(fs: seq<Finding>, all: seq<Issue>)
    requires NoneRefused(fs) && all == Accepted(fs)
    ensures |all| == Min(|fs|, TWO32 - 1) && forall i :: 0 <= i < |all| ==> all[i] == Issue(i + 1, fs[i])
  {
    AllAccepted(fs);
    forall i | 0 <= i < |all| ensures all[i] == Issue(i + 1, fs[i]) {
      AcceptedAt(fs, i);
    }
  }

  lemma FatalPlaces(fs: seq<Finding>, all: seq<Issue>)
    requires |all| == Min(|fs|, TWO32 - 1) && forall i :: 0 <= i < |all| ==> all[i] == Issue(i + 1, fs[i])
    ensures Has(all, FatalLocal) <==> FatalWithin(fs, TWO32 - 1)
  {
    if FatalWithin(fs, TWO32 - 1) {
      var i :| 0 <= i < |fs| && i < TWO32 - 1 && fs[i].severity == FatalLocal;
      assert all[i].finding == fs[i];
    }
    if Has(all, FatalLocal) {
      var i :| 0 <= i < |all| && all[i].finding.severity == FatalLocal;
      assert fs[i].severity == FatalLocal;
    }
  }

  /** For sound findings: the summary is rendered if and only if none of those that have an ordinal is
      fatal, or one of the first 4096 is. */
  lemma SoundSummaryRenders(fs: seq<Finding>)
    requires NoneRefused(fs)
    ensures RendersSummary(SummaryOf(RecordAll(fs))) <==> !FatalWithin(fs, TWO32 - 1) || FatalWithin(fs, STORED_MAX)
  {
    var all := Accepted(fs);
    PlacesOfSound(fs, all);
    FatalPlaces(fs, all);
    SummaryRenders(fs, all);
    FirstFatalExact(all);
    if FirstFatal(all).Some? {
      var i := FirstFatalAt(all);
      assert fs[i].severity == FatalLocal;
      if FatalWithin(fs, STORED_MAX) {
        var j :| 0 <= j < |fs| && j < STORED_MAX && fs[j].severity == FatalLocal;
        assert all[j].finding == fs[j];
      }
    }
  }

  /** It does happen: 4096 orphans in staging, then a damaged database. */
  lemma SomeSummaryIsRefused()
    ensures exists fs :: NoneRefused(fs) && !RendersSummary(SummaryOf(RecordAll(fs)))
  {
    var orphan := Finding(StagingOrphan, OperatorAction, false, NoId);
    var fs := seq(STORED_MAX, _ => orphan) + [Finding(DatabaseIntegrityFailure, FatalLocal, false, NoId)];
    assert fs[STORED_MAX].severity == FatalLocal;
    SoundSummaryRenders(fs);
    assert NoneRefused(fs);
  }

  lemma {:induction false} OrdinalAtMost(issues: seq<Issue>, i: nat)
    requires i < |issues| && issues[|issues| - 1].ordinal <= |issues| && Increasing(issues)
    ensures issues[i].ordinal <= i + 1
    decreases |issues| - i
  {
    if i + 1 < |issues| {
      OrdinalAtMost(issues, i + 1);
    }
  }

  ghost predicate AllRender(issues: seq<Issue>, discovered: nat) {
    forall i :: 0 <= i < |issues| ==> Renders(issues[i], discovered, |issues|)
  }

  lemma RenderedAreConsecutive(issues: seq<Issue>, discovered: nat)
    requires Increasing(issues) && InPlace(issues, discovered)
    ensures AllRender(issues, discovered) <==> Consecutive(issues)
  {
    if AllRender(issues, discovered) {
      forall i | 0 <= i < |issues| ensures issues[i].ordinal == i + 1 {
        OrdinalAtMost(issues, i);
      }
    }
  }

  /** The issues of a report are all rendered, on whatever pages, if and only if none of the findings they
      cover was refused. */
  lemma ReportRenders(fs: seq<Finding>, issues: seq<Issue>)
    requires issues == RecordAll(fs).issues
    ensures |issues| <= |fs| && (AllRender(issues, RecordAll(fs).discovered) <==> NoneRefused(fs[..|issues|]))
  {
    OrdinalsConsecutive(fs, issues);
    StoredInPlace(fs, issues);
    RenderedAreConsecutive(issues, RecordAll(fs).discovered);
  }
}

/** Paging through one report. */
module IssuePaging {
  import opened Bytes
  import opened Codes
  import opened Cursors
  import opened Encoding
  import opened Options
  import opened Verification

  datatype IssuePage = IssuePage(issues: seq<Issue>, next: Option<Octets>)

  function Find(reports: seq<Report>, id: Octets): Option<Report> {
    if reports == [] then None else if reports[0].id == id then Some(reports[0]) else Find(reports[1..], id)
  }

  /** `list_issues`, its cursor codec a parameter; an empty cursor starts at the beginning. */
  function ListIssues(encode: nat -> Result<Octets>, decode: Octets -> Result<nat>, reports: seq<Report>, id: Octets, size: nat,
                      cursor: Octets): Result<IssuePage>
  {
    if !(1 <= size <= 64) then Err(Validation)
    else
      var first: Result<nat> := if cursor == [] then Ok(1) else decode(cursor);
      if first.Err? then Err(first.error)
      else
        var report := Find(reports, id);
        if report.None? then Err(StoreNotFound)
        else
          var issues := report.value.issues;
          if first.value == 0 || first.value - 1 > |issues| || (cursor != [] && first.value - 1 == |issues|) then Err(Validation)
          else
            var start := first.value - 1;
            var end := Min(start + size, |issues|);
            if end - start > 64 || |issues| > report.value.discovered then Err(Internal)
            else if end == |issues| then Ok(IssuePage(issues[start..end], None))
            else
              var next := encode(end + 1);
              if next.Err? then Err(next.error) else Ok(IssuePage(issues[start..end], Some(next.value)))
  }

  /** The codec round-trips on the ordinals of `n` issues. */
  ghost predicate Faithful(encode: nat -> Result<Octets>, decode: Octets -> Result<nat>, n: nat) {
    forall o :: 1 <= o <= n ==> encode(o).Ok? && encode(o).value != [] && decode(encode(o).value) == Ok(o)
  }

  datatype Reading = Reading(issues: seq<Issue>, done: bool)

  /** Following `next` for as many pages as there are sizes.  Each page has the reports the owner keeps when
      it is asked for: runs may finish between two pages. */
  function Follow(encode: nat -> Result<Octets>, decode: Octets -> Result<nat>, rings: seq<seq<Report>>, id: Octets,
                  sizes: seq<nat>, cursor: Octets): Result<Reading>
    requires |rings| == |sizes|
    decreases |sizes|
  {
    if sizes == [] then Ok(Reading([], false))
    else
      var page := ListIssues(encode, decode, rings[0], id, sizes[0], cursor);
      if page.Err? then Err(page.error)
      else if page.value.next.None? then Ok(Reading(page.value.issues, true))
      else
        var rest := Follow(encode, decode, rings[1..], id, sizes[1..], page.value.next.value);
        if rest.Err? then rest else Ok(Reading(page.value.issues + rest.value.issues, rest.value.done))
  }

  function Sum(sizes: seq<nat>): nat {
    if sizes == [] then 0 else sizes[0] + Sum(sizes[1..])
  }

  /** Where a cursor points: the start, or the ordinal it was made for. */
  ghost predicate PointsAt(encode: nat -> Result<Octets>, cursor: Octets, start: nat, n: nat) {
    if cursor == [] then start == 0 else start < n && encode(start + 1) == Ok(cursor)
  }

  lemma OnePage(encode: nat -> Result<Octets>, decode: Octets -> Result<nat>, reports: seq<Report>, id: Octets, size: nat,
                cursor: Octets, report: Report, start: nat)
    requires Find(reports, id) == Some(report) && GoodReport(report) && Faithful(encode, decode, |report.issues|)
    requires 1 <= size <= 64 && PointsAt(encode, cursor, start, |report.issues|)
    ensures var end := Min(start + size, |report.issues|);
            var r := ListIssues(encode, decode, reports, id, size, cursor);
            && start <= end && r.Ok? && r.value.issues == report.issues[start..end]
            && (r.value.next.None? <==> end == |report.issues|)
            && (r.value.next.Some? ==> r.value.next.value != [] && PointsAt(encode, r.value.next.value, end, |report.issues|))
  {
    if cursor != [] {
      assert decode(encode(start + 1).value) == Ok(start + 1);
    }
  }

  lemma FollowLast(encode: nat -> Result<Octets>, decode: Octets -> Result<nat>, rings: seq<seq<Report>>, id: Octets,
                   sizes: seq<nat>, cursor: Octets, page: IssuePage)
    requires |rings| == |sizes| && sizes != [] && ListIssues(encode, decode, rings[0], id, sizes[0], cursor) == Ok(page)
    requires page.next.None?
    ensures Follow(encode, decode, rings, id, sizes, cursor) == Ok(Reading(page.issues, true))
  {
  }

  lemma FollowMore(encode: nat -> Result<Octets>, decode: Octets -> Result<nat>, rings: seq<seq<Report>>, id: Octets,
                   sizes: seq<nat>, cursor: Octets, page: IssuePage, rest: Reading, whole: Reading)
    requires |rings| == |sizes| && sizes != [] && ListIssues(encode, decode, rings[0], id, sizes[0], cursor) == Ok(page)
    requires page.next.Some? && Follow(encode, decode, rings[1..], id, sizes[1..], page.next.value) == Ok(rest)
    requires whole == Reading(page.issues + rest.issues, rest.done)
    ensures Follow(encode, decode, rings, id, sizes, cursor) == Ok(whole)
  {
  }

  lemma SlicesMeet(issues: seq<Issue>, start: nat, mid: nat, end: nat)
    requires start <= mid <= end <= |issues|
    ensures issues[start..mid] + issues[mid..end] == issues[start..end]
  {
  }

  /** The report is still kept when each of the pages is asked for. */
  ghost predicate KeptIn(rings: seq<seq<Report>>, id: Octets, report: Report) {
    forall i :: 0 <= i < |rings| ==> Find(rings[i], id) == Some(report)
  }

  predicate PageSizes(sizes: seq<nat>) {
    forall i :: 0 <= i < |sizes| ==> 1 <= sizes[i] <= 64
  }

  /** Any pages of 1 to 64 issues, followed from any cursor handed out, give the stored issues from
      there on, each once and in order, without an error, and end when they end. */
  lemma {:induction false} FollowFrom(encode: nat -> Result<Octets>, decode: Octets -> Result<nat>, rings: seq<seq<Report>>,
                                      id: Octets, sizes: seq<nat>, cursor: Octets, report: Report, start: nat, end: nat)
    requires |rings| == |sizes| && KeptIn(rings, id, report) && PageSizes(sizes)
    requires GoodReport(report) && Faithful(encode, decode, |report.issues|)
    requires PointsAt(encode, cursor, start, |report.issues|) && end == Min(start + Sum(sizes), |report.issues|)
    ensures start <= end
    ensures Follow(encode, decode, rings, id, sizes, cursor)
         == Ok(Reading(report.issues[start..end], sizes != [] && end == |report.issues|))
    decreases |sizes|
  {
    if sizes == [] {
      assert report.issues[start..start] == [];
    } else {
      OnePage(encode, decode, rings[0], id, sizes[0], cursor, report, start);
      var page := ListIssues(encode, decode, rings[0], id, sizes[0], cursor).value;
      var mid, done := Min(start + sizes[0], |report.issues|), end == |report.issues|;
      if page.next.Some? {
        FollowFrom(encode, decode, rings[1..], id, sizes[1..], page.next.value, report, mid, end);
        SlicesMeet(report.issues, start, mid, end);
        FollowMore(encode, decode, rings, id, sizes, cursor, page, Reading(report.issues[mid..end], done),
                   Reading(report.issues[start..end], done));
      } else {
        FollowLast(encode, decode, rings, id, sizes, cursor, page);
      }
    }
  }

  lemma FollowAll(encode: nat -> Result<Octets>, decode: Octets -> Result<nat>, rings: seq<seq<Report>>, id: Octets, sizes: seq<nat>,
                  report: Report)
    requires |rings| == |sizes| && KeptIn(rings, id, report) && PageSizes(sizes)
    requires GoodReport(report) && Faithful(encode, decode, |report.issues|)
    requires sizes != [] && |sizes| >= |report.issues|
    ensures Follow(encode, decode, rings, id, sizes, []) == Ok(Reading(report.issues, true))
  {
    SumAtLeast(sizes);
    FollowFrom(encode, decode, rings, id, sizes, [], report, 0, |report.issues|);
    assert report.issues[0..|report.issues|] == report.issues;
  }

  function Encoder(hash: Octets -> Octets, library: Octets, id: Octets): nat -> Result<Octets> {
    (o: nat) => EncodeIssue(hash, library, id, o)
  }

  function Decoder(hash: Octets -> Octets, library: Octets, id: Octets): Octets -> Result<nat> {
    c => DecodeIssue(hash, c, library, id)
  }

  lemma IssueCodecFaithful(hash: Octets -> Octets, library: Octets, id: Octets, n: nat)
    requires Checksum(hash) && |library| == 16 && library != Zeros(16) && |id| == 16 && n < TWO32
    ensures Faithful(Encoder(hash, library, id), Decoder(hash, library, id), n)
  {
    forall o | 1 <= o <= n
      ensures EncodeIssue(hash, library, id, o).Ok? && EncodeIssue(hash, library, id, o).value != []
      ensures DecodeIssue(hash, EncodeIssue(hash, library, id, o).value, library, id) == Ok(o)
    {
      IssueDecodes(hash, EncodeIssue(hash, library, id, o).value, library, id, o);
    }
  }

  lemma {:induction false} SumAtLeast(sizes: seq<nat>)
    requires forall i :: 0 <= i < |sizes| ==> 1 <= sizes[i]
    ensures Sum(sizes) >= |sizes|
  {
    if sizes != [] {
      SumAtLeast(sizes[1..]);
    }
  }

  /** With the real cursor: as many pages as there are issues, of whatever sizes, read the whole report,
      whatever other runs finish meanwhile. */
  lemma WholeReport(hash: Octets -> Octets, library: Octets, rings: seq<seq<Report>>, id: Octets, sizes: seq<nat>, report: Report)
    requires Checksum(hash) && |library| == 16 && library != Zeros(16) && |id| == 16
    requires |rings| == |sizes| && KeptIn(rings, id, report) && PageSizes(sizes)
    requires GoodReport(report) && sizes != [] && |sizes| >= |report.issues|
    ensures Follow(Encoder(hash, library, id), Decoder(hash, library, id), rings, id, sizes, [])
         == Ok(Reading(report.issues, true))
  {
    IssueCodecFaithful(hash, library, id, |report.issues|);
    FollowAll(Encoder(hash, library, id), Decoder(hash, library, id), rings, id, sizes, report);
  }

  // From the findings of a run to the pages of its report

  lemma {:induction false} FindKept(reports: seq<Report>, q: nat)
    requires DistinctIds(reports) && q < |reports|
    ensures Find(reports, reports[q].id) == Some(reports[q])
  {
    if q > 0 {
      FindKept(reports[1..], q - 1);
    }
  }

  /** The run that finished as number `p` has its report among the latest. */
  predicate Retained(s: System, p: nat) {
    p < |s.finished| <= p + REPORTS_MAX
  }

  lemma RetainedIsFound(s: System, p: nat)
    requires Orderly(s) && Retained(s, p)
    ensures Find(s.owner.reports, s.finished[p].id) == Some(ReportOf(s.finished[p]))
  {
    FindKept(s.owner.reports, p - (|s.finished| - |s.owner.reports|));
  }

  lemma {:induction false} FinishedGrows(ss: seq<System>, i: nat, j: nat)
    requires History(ss) && i <= j < |ss|
    ensures ss[i].finished <= ss[j].finished
    decreases j
  {
    if i < j {
      FinishedGrows(ss, i, j - 1);
      assert Step(ss[j - 1], ss[j]);
    }
  }

  /** The moments at which pages are asked for, each with the report of run `p` among the latest four. */
  ghost predicate WhileRetained(ss: seq<System>, times: seq<nat>, p: nat) {
    forall j :: 0 <= j < |times| ==> times[j] < |ss| && Retained(ss[times[j]], p)
  }

  ghost function Rings(ss: seq<System>, times: seq<nat>, p: nat): (rings: seq<seq<Report>>)
    requires WhileRetained(ss, times, p)
    ensures |rings| == |times|
  {
    seq(|times|, j requires 0 <= j < |times| => ss[times[j]].owner.reports)
  }

  lemma RingsKeep(ss: seq<System>, times: seq<nat>, p: nat, c: Concluded)
    requires History(ss) && WhileRetained(ss, times, p)
    requires p < |ss[|ss| - 1].finished| && c == ss[|ss| - 1].finished[p]
    ensures KeptIn(Rings(ss, times, p), c.id, ReportOf(c))
  {
    forall j | 0 <= j < |times| ensures Find(ss[times[j]].owner.reports, c.id) == Some(ReportOf(c)) {
      HistoryIsOrderly(ss, times[j]);
      FinishedGrows(ss, times[j], |ss| - 1);
      RetainedIsFound(ss[times[j]], p);
    }
  }

  lemma ReportIsRecord(c: Concluded, all: seq<Issue>, issues: seq<Issue>)
    requires |c.id| == 16 && all == Accepted(c.findings) && issues == ReportOf(c).issues
    ensures issues == all[..Min(|all|, STORED_MAX)] && |issues| <= Min(|c.findings|, STORED_MAX)
    ensures Increasing(issues) && GoodReport(ReportOf(c))
  {
    RecordsExactly(c.findings);
    AcceptedShape(c.findings);
    SummaryIsAccepted(c.findings, c.id);
  }

  /** Pages asked for at any moments of any history, while the report is among the latest four, read what
      the run found: its accepted findings up to the first 4096, under increasing ordinals. */
  lemma RetainedReportReads(hash: Octets -> Octets, library: Octets, ss: seq<System>, times: seq<nat>, p: nat, sizes: seq<nat>,
                            c: Concluded, issues: seq<Issue>)
    requires Checksum(hash) && |library| == 16 && library != Zeros(16) && |c.id| == 16
    requires History(ss) && WhileRetained(ss, times, p)
    requires p < |ss[|ss| - 1].finished| && c == ss[|ss| - 1].finished[p]
    requires |times| == |sizes| && PageSizes(sizes) && sizes != [] && |sizes| >= Min(|c.findings|, STORED_MAX)
    requires issues == Accepted(c.findings)[..Min(|Accepted(c.findings)|, STORED_MAX)]
    ensures Follow(Encoder(hash, library, c.id), Decoder(hash, library, c.id), Rings(ss, times, p), c.id, sizes, [])
         == Ok(Reading(issues, true))
    ensures Increasing(issues)
  {
    RingsKeep(ss, times, p, c);
    ReportIsRecord(c, Accepted(c.findings), ReportOf(c).issues);
    WholeReport(hash, library, Rings(ss, times, p), c.id, sizes, ReportOf(c));
  }
}
