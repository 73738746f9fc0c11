/** `StartupSqliteControl`: a stop request meeting the registration of an interrupt handle.  Each
    call runs under one mutex, so a run is a sequence of calls. */
module InterruptControl {
  import opened Codes
  import opened Options

  type Handle = nat

  datatype Call = RequestStop(cause: Stop) | Register(handle: Handle) | Clear | Checkpoint

  datatype Response =
    | Accepted(first: bool)
    | Continue
    | Stopped(cause: Stop)
    | Cleared
    | RegistrationConflict

  /** `fired` lists the handles that were interrupted. */
  datatype State = State(stop: Option<Stop>, interrupt: Option<Handle>, fired: seq<Handle>)

  const INIT := State(None, None, [])

  function Respond(s: State, c: Call): Response {
    match c
    case RequestStop(_) => Accepted(s.stop.None?)
    case Register(_) =>
      if s.interrupt.Some? then RegistrationConflict else if s.stop.Some? then Stopped(s.stop.value) else Continue
    case Clear => if s.interrupt.Some? then Cleared else RegistrationConflict
    case Checkpoint => if s.stop.Some? then Stopped(s.stop.value) else Continue
  }

  function Next(s: State, c: Call): State {
    match c
    case RequestStop(cause) =>
      if s.stop.Some? then s
      else State(Some(cause), s.interrupt, if s.interrupt.Some? then s.fired + [s.interrupt.value] else s.fired)
    case Register(handle) => if Respond(s, c) == Continue then s.(interrupt := Some(handle)) else s
    case Clear => s.(interrupt := None)
    case Checkpoint => s
  }

  function After(s: State, calls: seq<Call>): State {
    if calls == [] then s else Next(After(s, calls[..|calls| - 1]), calls[|calls| - 1])
  }

  /** Interrupting a handle is recorded in `fired`. */
  class Control {
    var stop: Option<Stop>
    var interrupt: Option<Handle>
    var fired: seq<Handle>

    function View(): State
      reads this
    {
      State(stop, interrupt, fired)
    }

    constructor ()
      ensures View() == INIT
    {
      stop, interrupt, fired := None, None, [];
    }

    method Stop(cause: Stop) returns (first: bool)
      modifies this
      ensures View() == Next(old(View()), RequestStop(cause))
      ensures Accepted(first) == Respond(old(View()), RequestStop(cause))
    {
      if stop.Some? {
        return false;
      }
      stop := Some(cause);
      if interrupt.Some? {
        fired := fired + [interrupt.value];
      }
      first := true;
    }

    method RegisterInterrupt(handle: Handle) returns (r: Response)
      modifies this`interrupt
      ensures View() == Next(old(View()), Register(handle))
      ensures r == Respond(old(View()), Register(handle))
    {
      if interrupt.Some? {
        return RegistrationConflict;
      }
      if stop.Some? {
        return Stopped(stop.value);
      }
      interrupt := Some(handle);
      r := Continue;
    }

    method ClearInterrupt() returns (r: Response)
      modifies this`interrupt
      ensures View() == Next(old(View()), Clear)
      ensures r == Respond(old(View()), Clear)
    {
      r := if interrupt.Some? then Cleared else RegistrationConflict;
      interrupt := None;
    }

    method Check() returns (r: Response)
      ensures r == Respond(View(), Checkpoint)
    {
      r := if stop.Some? then Stopped(stop.value) else Continue;
    }
  }

  // Runs

  predicate NoStop(calls: seq<Call>) {
    forall i :: 0 <= i < |calls| ==> !calls[i].RequestStop?
  }

  /** The handle registered and not cleared, in a history without stops. */
  function Live(calls: seq<Call>): Option<Handle> {
    if calls == [] then None
    else
      var before := Live(calls[..|calls| - 1]);
      match calls[|calls| - 1]
      case Register(handle) => if before.Some? then before else Some(handle)
      case Clear => None
      case _ => before
  }

  lemma {:induction false} BeforeTheStop(calls: seq<Call>)
    requires NoStop(calls)
    ensures After(INIT, calls) == State(None, Live(calls), [])
  {
    if calls != [] {
      BeforeTheStop(calls[..|calls| - 1]);
    }
  }

  lemma {:induction false} AfterSplits(s: State, first: seq<Call>, rest: seq<Call>)
    ensures After(s, first + rest) == After(After(s, first), rest)
  {
    if rest == [] {
      assert first + rest == first;
    } else {
      var shorter := rest[..|rest| - 1];
      AfterSplits(s, first, shorter);
      assert (first + rest)[..|first + rest| - 1] == first + shorter;
    }
  }

  /** A stop is kept, nothing more is fired, and no registration is installed after it. */
  lemma {:induction false} AfterTheStop(s: State, calls: seq<Call>)
    requires s.stop.Some?
    ensures After(s, calls).stop == s.stop && After(s, calls).fired == s.fired
    ensures After(s, calls).interrupt == s.interrupt || After(s, calls).interrupt == None
  {
    if calls != [] {
      AfterTheStop(s, calls[..|calls| - 1]);
    }
  }

  /** Over every interleaving with a stop: the first cause stands, and exactly the handle live at that
      moment was fired, once. */
  lemma FirstStopDecides(before: seq<Call>, cause: Stop, rest: seq<Call>)
    requires NoStop(before)
    ensures var s := After(INIT, before + [RequestStop(cause)] + rest);
            && s.stop == Some(cause)
            && s.fired == (if Live(before).Some? then [Live(before).value] else [])
            && (s.interrupt == Live(before) || s.interrupt == None)
  {
    var stopped := After(INIT, before + [RequestStop(cause)]);
    assert (before + [RequestStop(cause)])[..|before|] == before;
    BeforeTheStop(before);
    AfterSplits(INIT, before + [RequestStop(cause)], rest);
    AfterTheStop(stopped, rest);
  }

  /** After the first stop every checkpoint says so, and a registration is refused: by the cause, or
      by the conflict with the handle that was fired. */
  lemma StopIsSeen(before: seq<Call>, cause: Stop, rest: seq<Call>, handle: Handle)
    requires NoStop(before)
    ensures var s := After(INIT, before + [RequestStop(cause)] + rest);
            && Respond(s, Checkpoint) == Stopped(cause)
            && (Respond(s, Register(handle)) == Stopped(cause)
                || (Respond(s, Register(handle)) == RegistrationConflict && s.interrupt.Some? && s.fired == [s.interrupt.value]))
            && Next(s, Register(handle)) == s
            && (forall again :: Respond(s, RequestStop(again)) == Accepted(false))
  {
    FirstStopDecides(before, cause, rest);
  }

  /** Over every run at all, at most one interrupt is fired, and none without a stop. */
  lemma {:induction false} FiresAtMostOnce(calls: seq<Call>)
    ensures |After(INIT, calls).fired| <= 1
    ensures After(INIT, calls).stop.None? ==> NoStop(calls) && After(INIT, calls).fired == []
  {
    if calls != [] {
      FiresAtMostOnce(calls[..|calls| - 1]);
    }
  }

  // Every answer, from the history alone

  /** The cause of the first stop requested. */
  function FirstStop(calls: seq<Call>): Option<Stop> {
    if calls == [] then None
    else if calls[0].RequestStop? then Some(calls[0].cause)
    else FirstStop(calls[1..])
  }

  /** The handle installed and not cleared: a registration installs while none is and no stop was requested. */
  function Installed(calls: seq<Call>): Option<Handle> {
    if calls == [] then None
    else
      var earlier := calls[..|calls| - 1];
      match calls[|calls| - 1]
      case Register(handle) => if Installed(earlier).None? && FirstStop(earlier).None? then Some(handle) else Installed(earlier)
      case Clear => None
      case _ => Installed(earlier)
  }

  lemma {:induction false} FirstStopSnoc(calls: seq<Call>, c: Call)
    ensures FirstStop(calls + [c]) ==
            if FirstStop(calls).Some? then FirstStop(calls) else if c.RequestStop? then Some(c.cause) else None
  {
    if calls == [] {
      assert [c][1..] == [];
    } else {
      FirstStopSnoc(calls[1..], c);
      assert (calls + [c])[1..] == calls[1..] + [c];
    }
  }

  lemma {:induction false} HistoryTells(calls: seq<Call>)
    ensures After(INIT, calls).stop == FirstStop(calls) && After(INIT, calls).interrupt == Installed(calls)
  {
    if calls != [] {
      var earlier := calls[..|calls| - 1];
      HistoryTells(earlier);
      FirstStopSnoc(earlier, calls[|calls| - 1]);
      assert calls == earlier + [calls[|calls| - 1]];
    }
  }

  /** After any calls at all: a checkpoint answers the first stop or goes on, a stop is the first exactly when
      none was requested, clearing succeeds exactly with a handle installed, and a registration meets a
      conflict with one installed, then a stop, and otherwise is installed. */
  lemma AnswersExactly(calls: seq<Call>, s: State, cause: Stop, handle: Handle)
    requires s == After(INIT, calls)
    ensures Respond(s, Checkpoint) == if FirstStop(calls).Some? then Stopped(FirstStop(calls).value) else Continue
    ensures Respond(s, RequestStop(cause)) == Accepted(FirstStop(calls).None?)
    ensures Respond(s, Clear) == if Installed(calls).Some? then Cleared else RegistrationConflict
    ensures Respond(s, Register(handle)) ==
            if Installed(calls).Some? then RegistrationConflict
            else if FirstStop(calls).Some? then Stopped(FirstStop(calls).value)
            else Continue
    ensures Respond(s, Register(handle)) == Continue ==> Installed(calls + [Register(handle)]) == Some(handle)
    ensures Installed(calls + [Clear]) == None
  {
    HistoryTells(calls);
    assert (calls + [Register(handle)])[..|calls|] == calls && (calls + [Clear])[..|calls|] == calls;
  }
}
