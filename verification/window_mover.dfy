/**
 Model of the window-creation monitor (MultiDisplayTool/WindowMover.cs).

 The monitor is a two-state machine over the pair (isMonitoring, winEventHook).
 The operating system is not modelled: the handle `SetWinEventHook` returns,
 the result of `UnhookWinEvent`, and the answers of `IsWindowVisible` and
 `GetWindowLong` are inputs. The calls made to the system are recorded, so
 that "no call was made" and "no hook is leaked" can be stated.
 */
module WindowMover {
  import Program

  /** The event range the hook subscribes to, and its delivery flag. */
  const EventObjectCreate: int := 0x8000
  const WinEventOutOfContext: int := 0

  /** Index passed to `GetWindowLong` to read the window style. */
  const GwlStyle: int := -16

  /** The two style masks the callback tests. The second is the extended
      tool-window flag, but the code tests it against the plain style value. */
  const WsVisible: bv64 := 0x1000_0000
  const WsExToolWindow: bv64 := 0x0000_0080

  /** The null window or hook handle. */
  const NullHandle: int := 0

  datatype Monitor = Monitor(isMonitoring: bool, winEventHook: int)

  /** Both static fields start at their defaults. */
  const Initial: Monitor := Monitor(false, NullHandle)

  /** The monitor is active exactly when it holds a hook handle. */
  predicate Valid(m: Monitor)
  {
    m.isMonitoring <==> m.winEventHook != NullHandle
  }

  /** A call into the operating system, with the answer it gave. */
  datatype OsCall =
    | SetWinEventHook(eventMin: int, eventMax: int, flags: int, returned: int)
    | UnhookWinEvent(hook: int, succeeded: bool)

  /** The state after an operation and the system calls it made. */
  datatype Transition = Transition(after: Monitor, calls: seq<OsCall>)

  /** `returned` is what the system gives back for the hook registration. */
  function StartMonitoring(m: Monitor, returned: int): (t: Transition)
    ensures m.isMonitoring ==> t.after == m && t.calls == []
    ensures !m.isMonitoring ==>
              && t.calls == [SetWinEventHook(EventObjectCreate, EventObjectCreate, WinEventOutOfContext, returned)]
              && t.after.winEventHook == returned
              && (t.after.isMonitoring <==> returned != NullHandle)
    ensures Valid(m) ==> Valid(t.after)
  {
    if m.isMonitoring then Transition(m, [])
    else
      var call := SetWinEventHook(EventObjectCreate, EventObjectCreate, WinEventOutOfContext, returned);
      var hooked := m.(winEventHook := returned);
      if returned == NullHandle then Transition(hooked, [call])
      else Transition(hooked.(isMonitoring := true), [call])
  }

  /** `unhooked` is what the system answers to the release of the hook. A
      failed release leaves both fields as they were. */
  function StopMonitoring(m: Monitor, unhooked: bool): (t: Transition)
    ensures !m.isMonitoring ==> t.after == m && t.calls == []
    ensures m.isMonitoring ==> t.calls == [UnhookWinEvent(m.winEventHook, unhooked)]
    ensures m.isMonitoring && unhooked ==> t.after == Initial
    ensures m.isMonitoring && !unhooked ==> t.after == m
    ensures Valid(m) ==> Valid(t.after)
  {
    if !m.isMonitoring then Transition(m, [])
    else if unhooked then Transition(Monitor(false, NullHandle), [UnhookWinEvent(m.winEventHook, true)])
    else Transition(m, [UnhookWinEvent(m.winEventHook, false)])
  }

  /** A call of one of the two public operations, with the system's answer. */
  datatype Command = Start(returned: int) | Stop(unhooked: bool)

  function Apply(m: Monitor, c: Command): Transition
  {
    match c
    case Start(returned) => StartMonitoring(m, returned)
    case Stop(unhooked) => StopMonitoring(m, unhooked)
  }

  /** A sequential run of Start/Stop calls, collecting every system call. */
  function Run(m: Monitor, cmds: seq<Command>): Transition
    decreases |cmds|
  {
    if cmds == [] then Transition(m, [])
    else
      var first := Apply(m, cmds[0]);
      var rest := Run(first.after, cmds[1..]);
      Transition(rest.after, first.calls + rest.calls)
  }

  /** Hooks the system has installed minus hooks it has released. */
  function LiveHooks(calls: seq<OsCall>): int
  {
    if calls == [] then 0 else HookDelta(calls[0]) + LiveHooks(calls[1..])
  }

  /** A successful registration adds a hook, a successful release removes one. */
  function HookDelta(call: OsCall): int
  {
    match call
    case SetWinEventHook(_, _, _, returned) => if returned != NullHandle then 1 else 0
    case UnhookWinEvent(_, succeeded) => if succeeded then -1 else 0
  }

  /** Hooks the monitor itself believes it holds. */
  function HooksHeld(m: Monitor): nat
  {
    if m.isMonitoring then 1 else 0
  }

  lemma {:induction false} LiveHooksAppend(a: seq<OsCall>, b: seq<OsCall>)
    ensures LiveHooks(a + b) == LiveHooks(a) + LiveHooks(b)
    decreases |a|
  {
    if a == [] {
      assert a + b == b;
    } else {
      assert (a + b)[0] == a[0];
      assert (a + b)[1..] == a[1..] + b;
      LiveHooksAppend(a[1..], b);
    }
  }

  /** The invariant holds after any sequence of Start/Stop outcomes,
      including failed registrations and failed releases. */
  lemma {:induction false} RunPreservesValid(m: Monitor, cmds: seq<Command>)
    requires Valid(m)
    ensures Valid(Run(m, cmds).after)
    decreases |cmds|
  {
    if cmds != [] {
      RunPreservesValid(Apply(m, cmds[0]).after, cmds[1..]);
    }
  }

  /** Every hook the system installs during a run is either released again
      or is the one the monitor still holds: the guards keep a second
      `StartMonitoring` from registering (and leaking) another hook. */
  lemma {:induction false} RunAccountsForEveryHook(m: Monitor, cmds: seq<Command>)
    ensures LiveHooks(Run(m, cmds).calls) == HooksHeld(Run(m, cmds).after) - HooksHeld(m)
    decreases |cmds|
  {
    if cmds != [] {
      var first := Apply(m, cmds[0]);
      RunAccountsForEveryHook(first.after, cmds[1..]);
      LiveHooksAppend(first.calls, Run(first.after, cmds[1..]).calls);
    }
  }

  /** From process start, the invariant holds and the number of live hooks
      is one while monitoring and zero otherwise. */
  lemma NoHookLeakFromInitial(cmds: seq<Command>)
    ensures Valid(Run(Initial, cmds).after)
    ensures LiveHooks(Run(Initial, cmds).calls) == HooksHeld(Run(Initial, cmds).after)
  {
    RunPreservesValid(Initial, cmds);
    RunAccountsForEveryHook(Initial, cmds);
  }

  /** Two Starts in a row install at most one hook: once the first has
      succeeded the second makes no system call. */
  lemma StartTwiceInstallsOnce(m: Monitor, first: int, second: int)
    requires Valid(m)
    ensures var t := Run(m, [Start(first), Start(second)]);
      LiveHooks(t.calls) <= 1 && (first != NullHandle ==> |t.calls| <= 1)
  {
    var cmds := [Start(first), Start(second)];
    var t1 := StartMonitoring(m, first);
    var t2 := StartMonitoring(t1.after, second);
    assert cmds[1..] == [Start(second)];
    assert [Start(second)][1..] == [];
    assert Run(t1.after, [Start(second)]) == Transition(t2.after, t2.calls + []);
    assert Run(m, cmds).calls == t1.calls + t2.calls;
    LiveHooksAppend(t1.calls, t2.calls);
    assert LiveHooks(t1.calls) <= 1 && LiveHooks(t2.calls) <= 1;
  }

  // The event callback

  /** A read-only query the callback makes about the new window. */
  datatype Query = IsWindowVisible(hwnd: int) | GetWindowLong(hwnd: int, index: int)

  /** The queries made and the monitor names passed to
      `Program.MoveWindowsToNextMonitor`, in order. */
  datatype Callback = Callback(queries: seq<Query>, moves: seq<string>)

  /** Bit `bit` of the style value, read by shifting rather than masking. */
  predicate HasStyleBit(style: bv64, bit: nat)
    requires bit < 64
  {
    (style >> bit) & 1 == 1
  }

  /** A "real user window": a non-null handle, reported visible, with style
      bit 28 set and style bit 7 clear. */
  predicate IsRealUserWindow(hwnd: int, visible: bool, style: bv64)
  {
    hwnd != NullHandle && visible && HasStyleBit(style, 28) && !HasStyleBit(style, 7)
  }

  /** The callback for one window-creation event. `visible` is the answer of
      the visibility query and `style` the 64-bit pattern of the style value;
      each is consulted only if the code reaches its query. */
  function WinEventProc(hwnd: int, visible: bool, style: bv64): (c: Callback)
    ensures hwnd == NullHandle ==> c.queries == [] && c.moves == []
    ensures hwnd != NullHandle && !visible ==> c.queries == [IsWindowVisible(hwnd)] && c.moves == []
    ensures hwnd != NullHandle && visible ==> c.queries == [IsWindowVisible(hwnd), GetWindowLong(hwnd, GwlStyle)]
    ensures |c.moves| == (if IsRealUserWindow(hwnd, visible, style) then 1 else 0)
    ensures forall i :: 0 <= i < |c.moves| ==> c.moves[i] == Program.NextMonitor
  {
    if hwnd == NullHandle || !visible then
      Callback(if hwnd == NullHandle then [] else [IsWindowVisible(hwnd)], [])
    else
      var queries := [IsWindowVisible(hwnd), GetWindowLong(hwnd, GwlStyle)];
      if style & WsVisible != 0 && style & WsExToolWindow == 0 then
        Callback(queries, [Program.NextMonitor])
      else
        Callback(queries, [])
  }

  /** One window-creation notification with the answers to its queries. */
  datatype WindowEvent = WindowEvent(hwnd: int, visible: bool, style: bv64)

  /** The events that pass the callback's filter: each passing event is
      kept as many times as it arrives, and no other event is kept. */
  function Accepted(events: seq<WindowEvent>): (a: seq<WindowEvent>)
    ensures |a| <= |events|
    ensures forall i :: 0 <= i < |a| ==> a[i] in events && IsRealUserWindow(a[i].hwnd, a[i].visible, a[i].style)
    ensures forall i :: 0 <= i < |events| && IsRealUserWindow(events[i].hwnd, events[i].visible, events[i].style)
                        ==> events[i] in a
    ensures forall e :: multiset(a)[e] == if IsRealUserWindow(e.hwnd, e.visible, e.style) then multiset(events)[e] else 0
    decreases |events|
  {
    if events == [] then []
    else
      var last := events[|events| - 1];
      assert events == events[..|events| - 1] + [last];
      var prefix := Accepted(events[..|events| - 1]);
      if IsRealUserWindow(last.hwnd, last.visible, last.style) then prefix + [last] else prefix
  }

  /** The tool argument strings the callback's requests turn into. */
  function ToolRequests(moves: seq<string>): (requests: seq<string>)
  {
    seq(|moves|, i requires 0 <= i < |moves| => Program.MoveArguments(moves[i]))
  }

  /** Delivers a stream of window-creation events to the callback and
      collects the tool requests: one next-monitor request per event that
      passes the filter and none for the others. */
  method DeliverEvents(events: seq<WindowEvent>) returns (requests: seq<string>)
    ensures |requests| == |Accepted(events)|
    ensures forall i :: 0 <= i < |requests| ==> requests[i] == Program.MoveNextArguments
  {
    requests := [];
    for n := 0 to |events|
      invariant |requests| == |Accepted(events[..n])|
      invariant forall i :: 0 <= i < |requests| ==> requests[i] == Program.MoveNextArguments
    {
      var e := events[n];
      var c := WinEventProc(e.hwnd, e.visible, e.style);
      requests := requests + ToolRequests(c.moves);
      assert events[..n + 1][..n] == events[..n];
    }
    assert events[..|events|] == events;
  }

  /** Five window creations of which three pass the filter give exactly
      three accepted events. */
  lemma FiveEventsThreeAccepted()
    ensures var events := [
        WindowEvent(1, true, 0x1000_0000),
        WindowEvent(0, true, 0x1000_0000),
        WindowEvent(2, true, 0x1000_0080),
        WindowEvent(3, true, 0x1000_0000),
        WindowEvent(4, true, 0x1400_0000)];
      |Accepted(events)| == 3
  {
    var events := [
        WindowEvent(1, true, 0x1000_0000),
        WindowEvent(0, true, 0x1000_0000),
        WindowEvent(2, true, 0x1000_0080),
        WindowEvent(3, true, 0x1000_0000),
        WindowEvent(4, true, 0x1400_0000)];
    assert events[..1][..0] == [];
    assert events[..2][..1] == events[..1];
    assert events[..3][..2] == events[..2];
    assert events[..4][..3] == events[..3];
    assert events[..5][..4] == events[..4];
    assert events[..5] == events;
    assert |Accepted(events[..1])| == 1;
    assert |Accepted(events[..2])| == 1;
    assert |Accepted(events[..3])| == 1;
    assert |Accepted(events[..4])| == 2;
  }
}
