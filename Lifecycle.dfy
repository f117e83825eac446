/** The bookkeeping of the four lifecycle handlers: the flags `loaded` and `started`,
    changed only when the plugin's own hook returns, and the response each handler sends. */
module Lifecycle {

  datatype Flags = Flags(loaded: bool, started: bool)

  /** Both flags are false when the plugin object is created. */
  const Initial: Flags := Flags(false, false)

  datatype Transition = Load | Start | Stop | Unload

  /** What the awaited hook (`on_load`, `on_start`, `on_stop`, `on_unload`) did: it returned;
      it raised an `Exception` whose `str` is `message`; or it raised a `BaseException`
      that is not an `Exception` (`asyncio.CancelledError`, `KeyboardInterrupt`,
      `SystemExit`), which `except Exception` does not catch. */
  datatype HookResult = Completed | Raised(message: string) | Escaped

  /** The JSON body `{"status": ..., "message": ...}`. */
  datatype Response = Response(status: string, message: string)

  /** A handler either answers with a body, or the escaping exception leaves it and no
      body is sent. */
  datatype HandlerResult = Answered(response: Response) | Propagated

  /** The health answer without its timestamp. */
  datatype HealthReport = HealthReport(status: string, loaded: bool, started: bool)

  /** The flags after one handler call. */
  function Next(f: Flags, t: Transition, hook: HookResult): (r: Flags)
    ensures !hook.Completed? ==> r == f
    ensures hook.Completed? && t == Load ==> r == Flags(true, f.started)
    ensures hook.Completed? && t == Start ==> r == Flags(f.loaded, true)
    ensures hook.Completed? && t == Stop ==> r == Flags(f.loaded, false)
    ensures hook.Completed? && t == Unload ==> r == Flags(false, false)
  {
    match hook
    case Raised(_) => f
    case Escaped => f
    case Completed =>
      match t
      case Load => f.(loaded := true)
      case Start => f.(started := true)
      case Stop => f.(started := false)
      case Unload => Flags(false, false)
  }

  function SuccessMessage(t: Transition): string
  {
    match t
    case Load => "plugin loaded"
    case Start => "plugin started"
    case Stop => "plugin stopped"
    case Unload => "plugin unloaded"
  }

  /** The result of one handler call: an answer exactly when the hook returned or raised
      an `Exception`; its status is "ok" exactly when the hook returned, otherwise "error"
      with the exception's text. */
  function Reply(t: Transition, hook: HookResult): (r: HandlerResult)
    ensures r.Answered? <==> !hook.Escaped?
    ensures r.Answered? ==> (r.response.status == "ok" <==> hook.Completed?)
    ensures r.Answered? ==> r.response.status == "ok" || r.response.status == "error"
    ensures hook.Raised? ==> r == Answered(Response("error", hook.message))
  {
    match hook
    case Completed => Answered(Response("ok", SuccessMessage(t)))
    case Raised(m) => Answered(Response("error", m))
    case Escaped => Propagated
  }

  /** Repeating a successful call leaves the flags where the first one put them. */
  lemma NextIdempotent(f: Flags, t: Transition)
    ensures Next(Next(f, t, Completed), t, Completed) == Next(f, t, Completed)
  {
  }

  datatype Call = Call(transition: Transition, hook: HookResult)

  /** The flags after a sequence of handler calls, first to last. */
  function Run(f: Flags, calls: seq<Call>): Flags
    decreases calls
  {
    if calls == [] then f else Run(Next(f, calls[0].transition, calls[0].hook), calls[1..])
  }

  lemma {:induction false} RunAppend(f: Flags, a: seq<Call>, b: seq<Call>)
    ensures Run(f, a + b) == Run(Run(f, a), b)
    decreases a
  {
    if a == [] {
      assert a + b == b;
    } else {
      assert (a + b)[0] == a[0];
      assert (a + b)[1..] == a[1..] + b;
      RunAppend(Next(f, a[0].transition, a[0].hook), a[1..], b);
    }
  }

  function Succeeded(calls: seq<Call>): (r: seq<Call>)
    ensures forall c :: c in r ==> c in calls && c.hook.Completed?
  {
    if calls == [] then []
    else (if calls[0].hook.Completed? then [calls[0]] else []) + Succeeded(calls[1..])
  }

  /** Failed calls leave no trace: the flags are those of the successful calls alone. */
  lemma {:induction false} RunIgnoresFailures(f: Flags, calls: seq<Call>)
    ensures Run(f, calls) == Run(f, Succeeded(calls))
    decreases calls
  {
    if calls != [] {
      var c := calls[0];
      var f' := Next(f, c.transition, c.hook);
      RunIgnoresFailures(f', calls[1..]);
      if c.hook.Completed? {
        assert Succeeded(calls) == [c] + Succeeded(calls[1..]);
        RunAppend(f, [c], Succeeded(calls[1..]));
      } else {
        assert Succeeded(calls) == Succeeded(calls[1..]);
      }
    }
  }

  function Repeat(c: Call, n: nat): (r: seq<Call>)
    ensures |r| == n
    ensures forall i :: 0 <= i < n ==> r[i] == c
  {
    if n == 0 then [] else [c] + Repeat(c, n - 1)
  }

  /** Any number of successful calls of one handler has the effect of the first. */
  lemma {:induction false} RunRepeatedSuccess(f: Flags, t: Transition, n: nat)
    requires n >= 1
    ensures Run(f, Repeat(Call(t, Completed), n)) == Next(f, t, Completed)
    decreases n
  {
    var c := Call(t, Completed);
    if n > 1 {
      RunRepeatedSuccess(Next(f, t, Completed), t, n - 1);
      NextIdempotent(f, t);
    }
    assert Repeat(c, n)[1..] == Repeat(c, n - 1);
  }

  /** `n` stop/start cycles, each hook returning. */
  function RestartCycles(n: nat): (r: seq<Call>)
    ensures |r| == 2 * n
  {
    if n == 0 then [] else [Call(Stop, Completed), Call(Start, Completed)] + RestartCycles(n - 1)
  }

  /** However many stop/start cycles follow, the plugin ends started and `loaded` is untouched. */
  lemma {:induction false} RestartCyclesEndStarted(f: Flags, n: nat)
    requires n >= 1
    ensures Run(f, RestartCycles(n)) == Flags(f.loaded, true)
    decreases n
  {
    var cycle := [Call(Stop, Completed), Call(Start, Completed)];
    RunAppend(f, cycle, RestartCycles(n - 1));
    assert Run(f, cycle) == Flags(f.loaded, true) by {
      assert cycle[1..] == [Call(Start, Completed)];
    }
    if n > 1 {
      RestartCyclesEndStarted(Flags(f.loaded, true), n - 1);
    }
  }

  /** Nothing orders the handlers: a successful `start` before any `load` sets `started`
      while `loaded` stays false, and a failing `unload` leaves both flags set. An escaping
      exception sends no answer and leaves the flags too. */
  lemma NoStateMachineGuard()
    ensures Next(Initial, Start, Completed) == Flags(false, true)
    ensures Next(Flags(true, true), Unload, Raised("cleanup failed")) == Flags(true, true)
    ensures Reply(Unload, Raised("cleanup failed")) == Answered(Response("error", "cleanup failed"))
    ensures Next(Flags(true, true), Load, Escaped) == Flags(true, true)
    ensures Reply(Load, Escaped) == Propagated
  {
  }
}
