/** The application object, its window-id table and the loop drivers
    (taokt/src/main/rust/app.rs). The loop itself belongs to the windowing library: here
    it is represented by the deliveries it makes (which target, which event, what the
    handler answered, what the clock read) and by the host's `should_quit` answers. */
module Application {
  import opened Base
  import opened Platforms
  import Tao
  import Types
  import Events
  import Windows

  // ---- window-id table ----

  /** The counter's `fetch_add(1)`: one more, wrapping to 0 past the largest u64. */
  function WrappingIncrement(n: U64): (m: U64)
    ensures n < U64_LIMIT - 1 ==> m == n + 1
    ensures n == U64_LIMIT - 1 ==> m == 0
  {
    (n + 1) % U64_LIMIT
  }

  /** The numbers given so far to library window ids, and the next number to give. */
  datatype IdTable = IdTable(ids: map<Tao.WindowId, U64>, next: U64)

  /** A freshly built application has numbered nothing and starts counting at 1. */
  const InitialTable: IdTable := IdTable(map[], 1)

  datatype Numbered = Numbered(number: U64, table: IdTable)

  /** `map_window_id` as a function of the table: an id already numbered keeps its number
      and nothing changes; a new id gets the counter's value, the table gains exactly that
      entry, and the counter moves on. */
  function Lookup(t: IdTable, id: Tao.WindowId): (r: Numbered)
    ensures id in r.table.ids && r.table.ids[id] == r.number
    ensures r.table.ids.Keys == t.ids.Keys + {id}
    ensures forall k :: k in t.ids ==> r.table.ids[k] == t.ids[k]
    ensures id in t.ids ==> r.table == t
    ensures id !in t.ids ==> r.number == t.next && r.table.next == WrappingIncrement(t.next)
  {
    if id in t.ids then Numbered(t.ids[id], t)
    else Numbered(t.next, IdTable(t.ids[id := t.next], WrappingIncrement(t.next)))
  }

  /** The shape the table keeps while the counter has not wrapped: the numbers given are
      exactly 1 .. next - 1, one per window. */
  predicate WellNumbered(t: IdTable) {
    && t.next == |t.ids| + 1
    && (forall k :: k in t.ids ==> 1 <= t.ids[k] < t.next)
    && (forall a, b :: a in t.ids && b in t.ids && a != b ==> t.ids[a] != t.ids[b])
  }

  /** A fresh table is well numbered and numbers its first window 1. */
  lemma FirstWindowNumberedOne(id: Tao.WindowId)
    ensures WellNumbered(InitialTable)
    ensures Lookup(InitialTable, id).number == 1
  {
  }

  /** Asking again for an id gives the same number and changes nothing. */
  lemma LookupStable(t: IdTable, id: Tao.WindowId)
    ensures var first := Lookup(t, id); Lookup(first.table, id) == first
  {
  }

  /** Numbering keeps the table well numbered, and the number handed out is the counter
      exactly when the id is new, so a new id never shares a number. */
  lemma LookupKeepsNumbering(t: IdTable, id: Tao.WindowId)
    requires WellNumbered(t) && t.next < U64_LIMIT - 1
    ensures WellNumbered(Lookup(t, id).table)
    ensures Lookup(t, id).number == t.next <==> id !in t.ids
  {
  }

  /** Two different ids asked one after the other get different numbers. */
  lemma LookupDistinct(t: IdTable, a: Tao.WindowId, b: Tao.WindowId)
    requires WellNumbered(t) && t.next < U64_LIMIT - 2
    requires a != b
    ensures var first := Lookup(t, a); Lookup(first.table, b).number != first.number
  {
    LookupKeepsNumbering(t, a);
  }

  /** The application object with its id table (`next_window_id`, `window_ids`). */
  class App {
    var windowIds: map<Tao.WindowId, U64>
    var nextWindowId: U64

    function Table(): IdTable
      reads this
    {
      IdTable(windowIds, nextWindowId)
    }

    constructor ()
      ensures Table() == InitialTable
    {
      windowIds := map[];
      nextWindowId := 1;
    }

    /** `map_window_id`: looks the id up, and numbers it with the counter when it is new. */
    method MapWindowId(id: Tao.WindowId) returns (n: U64)
      modifies this
      ensures Numbered(n, Table()) == Lookup(old(Table()), id)
    {
      if id in windowIds {
        n := windowIds[id];
        return;
      }
      n := nextWindowId;
      nextWindowId := (nextWindowId + 1) % U64_LIMIT;
      windowIds := windowIds[id := n];
    }

    /** `create_window`: builds the window from a copy of the builder's configuration on
        the current target and numbers it. Outside the callback it fails before building
        anything and before a number is allocated; a failed build allocates none either.
        The library's window construction is the parameter `build`. */
    method CreateWindow(cell: TargetCell, builder: Windows.WindowBuilder,
                        build: (Tao.WindowTarget, Windows.WindowConfig) -> Result<Tao.Window, Tao.Error>)
      returns (r: Result<Windows.Window, Types.TaoError>)
      modifies this
      ensures cell.current.None? ==>
        r == Err(Types.MessageError(NO_TARGET_MESSAGE)) && Table() == old(Table())
      ensures cell.current.Some? && build(cell.current.value, builder.config).Err? ==>
        r == Err(Types.ErrorFromTao(build(cell.current.value, builder.config).error))
        && Table() == old(Table())
      ensures cell.current.Some? && build(cell.current.value, builder.config).Ok? ==>
        var native := build(cell.current.value, builder.config).value;
        var numbered := Lookup(old(Table()), native.id);
        r == Ok(Windows.Window(numbered.number, native)) && Table() == numbered.table
    {
      var config := builder.CloneInner();
      var built := WithTarget(cell.current, target => build(target, config));
      match built {
        case Err(e) =>
          r := Err(e);
        case Ok(Err(e)) =>
          r := Err(Types.ErrorFromTao(e));
        case Ok(Ok(native)) =>
          var id := MapWindowId(native.id);
          r := Ok(Windows.Window(id, native));
      }
    }

    /** `create_window_default`: `create_window` with a builder nobody has configured. */
    method CreateWindowDefault(cell: TargetCell,
                               build: (Tao.WindowTarget, Windows.WindowConfig) -> Result<Tao.Window, Tao.Error>)
      returns (r: Result<Windows.Window, Types.TaoError>)
      modifies this
      ensures cell.current.None? ==>
        r == Err(Types.MessageError(NO_TARGET_MESSAGE)) && Table() == old(Table())
      ensures cell.current.Some? && build(cell.current.value, Windows.Unconfigured).Err? ==>
        r == Err(Types.ErrorFromTao(build(cell.current.value, Windows.Unconfigured).error))
        && Table() == old(Table())
      ensures cell.current.Some? && build(cell.current.value, Windows.Unconfigured).Ok? ==>
        var native := build(cell.current.value, Windows.Unconfigured).value;
        var numbered := Lookup(old(Table()), native.id);
        r == Ok(Windows.Window(numbered.number, native)) && Table() == numbered.table
    {
      var builder := new Windows.WindowBuilder();
      r := CreateWindow(cell, builder, build);
    }
  }

  // ---- the current target ----

  const NO_TARGET_MESSAGE: string :=
    "No active EventLoopWindowTarget (call this from within the event loop callback)"

  /** The cell holding the loop target while a callback runs (`CURRENT_TARGET`). */
  class TargetCell {
    var current: Option<Tao.WindowTarget>

    constructor ()
      ensures current.None?
    {
      current := None;
    }

    /** `TargetGuard::set`. */
    method Set(target: Tao.WindowTarget)
      modifies this
      ensures current == Some(target)
    {
      current := Some(target);
    }

    /** Dropping the guard clears the cell. */
    method Clear()
      modifies this
      ensures current.None?
    {
      current := None;
    }
  }

  /** `with_target`: runs `f` on the current target, or fails with the no-target message
      when no callback is running. */
  function WithTarget<R>(current: Option<Tao.WindowTarget>, f: Tao.WindowTarget -> R)
    : (r: Result<R, Types.TaoError>)
    ensures r.Ok? <==> current.Some?
    ensures r.Err? ==> r.error == Types.MessageError(NO_TARGET_MESSAGE)
    ensures r.Ok? ==> r.value == f(current.value)
  {
    match current
    case None => Err(Types.MessageError(NO_TARGET_MESSAGE))
    case Some(target) => Ok(f(target))
  }

  function WrapMonitors(ms: seq<Tao.MonitorHandle>): (r: seq<Windows.Monitor>)
    ensures |r| == |ms|
    ensures forall i :: 0 <= i < |ms| ==> r[i].inner == ms[i]
  {
    if ms == [] then [] else [Windows.Monitor(ms[0])] + WrapMonitors(ms[1..])
  }

  /** `available_monitors`: the target's monitors, in the library's order, each wrapped;
      the no-target error outside the callback. */
  function AvailableMonitors(current: Option<Tao.WindowTarget>,
                             monitors: Tao.WindowTarget -> seq<Tao.MonitorHandle>)
    : (r: Result<seq<Windows.Monitor>, Types.TaoError>)
    ensures r.Err? <==> current.None?
    ensures r.Err? ==> r.error == Types.MessageError(NO_TARGET_MESSAGE)
    ensures r.Ok? ==> |r.value| == |monitors(current.value)|
    ensures r.Ok? ==> forall i :: 0 <= i < |r.value| ==> r.value[i].inner == monitors(current.value)[i]
  {
    WithTarget(current, target => WrapMonitors(monitors(target)))
  }

  /** `primary_monitor`: the target's primary monitor if it reports one; the no-target
      error outside the callback. */
  function PrimaryMonitor(current: Option<Tao.WindowTarget>,
                          primary: Tao.WindowTarget -> Option<Tao.MonitorHandle>)
    : (r: Result<Option<Windows.Monitor>, Types.TaoError>)
    ensures r.Err? <==> current.None?
    ensures r.Err? ==> r.error == Types.MessageError(NO_TARGET_MESSAGE)
    ensures r.Ok? ==> (r.value.Some? <==> primary(current.value).Some?)
    ensures r.Ok? && r.value.Some? ==> r.value.value.inner == primary(current.value).value
  {
    WithTarget(current, target =>
      match primary(target) case None => None case Some(m) => Some(Windows.Monitor(m)))
  }

  // ---- run configuration ----

  datatype RunConfig = RunConfig(deviceEventFilter: Types.DeviceEventFilter)

  /** `RunConfig::default`: device events are filtered out while no window of the
      application is focused (`Unfocused`). */
  function DefaultRunConfig(): (c: RunConfig)
    ensures c.deviceEventFilter == Types.Unfocused
    ensures Types.DeviceEventFilterToTao(c.deviceEventFilter) == Tao.Unfocused
  {
    RunConfig(Types.Unfocused)
  }

  /** How a loop is set up before it runs: whether it may run off the main thread, and
      the device-event filter it is given. */
  datatype LoopSettings = LoopSettings(anyThread: bool, deviceEventFilter: Tao.DeviceEventFilter)

  function Settings(p: Platform, config: RunConfig): (s: LoopSettings)
    ensures s.anyThread <==> IsUnixFamily(p) || p.Windows?
    ensures s.deviceEventFilter == Types.DeviceEventFilterToTao(config.deviceEventFilter)
  {
    LoopSettings(IsUnixFamily(p) || p.Windows?, Types.DeviceEventFilterToTao(config.deviceEventFilter))
  }

  // ---- the callback ----

  /** One invocation of the loop callback: the target it is given, the library event,
      the handler's answer and the clock reading `ControlFlow::to_tao` takes. */
  datatype Delivery = Delivery(
    target: Tao.WindowTarget,
    event: Tao.Event<Events.TaoUserEvent>,
    reply: Types.ControlFlow,
    now: Tao.Instant)

  /** The control-flow update: `Keep` leaves the current mode; any other answer replaces
      it by its library form. */
  function NextControlFlow(current: Tao.ControlFlow, reply: Types.ControlFlow, now: Tao.Instant)
    : (cf: Tao.ControlFlow)
    ensures reply.Keep? ==> cf == current
    ensures !reply.Keep? ==> Some(cf) == Types.ControlFlowToTao(reply, now)
  {
    match Types.ControlFlowToTao(reply, now)
    case None => current
    case Some(next) => next
  }

  /** The table after the callback numbered the event's window, if it has one. */
  function TableAfter(t: IdTable, e: Tao.Event<Events.TaoUserEvent>): IdTable {
    match Events.WindowIdOf(e)
    case None => t
    case Some(id) => Lookup(t, id).table
  }

  /** The event the handler is given when the callback starts from table `t`. */
  function Handed(t: IdTable, e: Tao.Event<Events.TaoUserEvent>): Events.TaoEvent {
    Events.ConvertEvent(e, id => Lookup(t, id).number)
  }

  /** The callback: sets the target for the duration of the call, converts the event with
      the table's numbering, applies the control-flow update and clears the target.
      `during` is what the cell holds while the handler runs. */
  method Invoke(app: App, cell: TargetCell, d: Delivery, flow: Tao.ControlFlow)
    returns (handed: Events.TaoEvent, during: Option<Tao.WindowTarget>, next: Tao.ControlFlow)
    modifies app, cell
    ensures during == Some(d.target) && cell.current.None?
    ensures handed == Handed(old(app.Table()), d.event)
    ensures app.Table() == TableAfter(old(app.Table()), d.event)
    ensures next == NextControlFlow(flow, d.reply, d.now)
  {
    ghost var before := app.Table();
    cell.Set(d.target);
    var id := Events.WindowIdOf(d.event);
    var number := 0;
    if id.Some? {
      number := app.MapWindowId(id.value);
    }
    handed := Events.ConvertEvent(d.event, _ => number);
    Events.ConvertEventConsultsOnlyWindowId(d.event, _ => number, i => Lookup(before, i).number);
    during := cell.current;
    next := NextControlFlow(flow, d.reply, d.now);
    cell.Clear();
  }

  // ---- a pass of the loop ----

  datatype LoopState = LoopState(table: IdTable, flow: Tao.ControlFlow)

  datatype PassResult = PassResult(state: LoopState, handed: seq<Events.TaoEvent>)

  /** The callback applied to each delivery of a pass in order: the state it leaves and
      the events the handler was given. */
  function RunBatch(s: LoopState, batch: seq<Delivery>): (r: PassResult)
    ensures |r.handed| == |batch|
    decreases |batch|
  {
    if batch == [] then PassResult(s, [])
    else
      var before := RunBatch(s, batch[..|batch| - 1]);
      var d := batch[|batch| - 1];
      PassResult(
        LoopState(TableAfter(before.state.table, d.event), NextControlFlow(before.state.flow, d.reply, d.now)),
        before.handed + [Handed(before.state.table, d.event)])
  }

  /** One pass of the loop over the deliveries the library makes, starting from the
      control flow `start`. */
  method RunPass(app: App, cell: TargetCell, batch: seq<Delivery>, start: Tao.ControlFlow)
    returns (handed: seq<Events.TaoEvent>, flow: Tao.ControlFlow)
    modifies app, cell
    ensures PassResult(LoopState(app.Table(), flow), handed)
         == RunBatch(LoopState(old(app.Table()), start), batch)
    ensures cell.current == if batch == [] then old(cell.current) else None
  {
    handed := [];
    flow := start;
    var i := 0;
    while i < |batch|
      invariant 0 <= i <= |batch|
      invariant PassResult(LoopState(app.Table(), flow), handed)
             == RunBatch(LoopState(old(app.Table()), start), batch[..i])
      invariant cell.current == if i == 0 then old(cell.current) else None
    {
      assert batch[..i + 1][..i] == batch[..i];
      var event, _, next := Invoke(app, cell, batch[i], flow);
      handed := handed + [event];
      flow := next;
      i := i + 1;
    }
    assert batch[..|batch|] == batch;
  }

  /** The position of the last answer other than `Keep` in a pass, if there is one. */
  function LastDirective(batch: seq<Delivery>): (k: Option<nat>)
    ensures k.None? <==> forall i :: 0 <= i < |batch| ==> batch[i].reply.Keep?
    ensures k.Some? ==> k.value < |batch| && !batch[k.value].reply.Keep?
    ensures k.Some? ==> forall j :: k.value < j < |batch| ==> batch[j].reply.Keep?
    decreases |batch|
  {
    if batch == [] then None
    else if !batch[|batch| - 1].reply.Keep? then Some(|batch| - 1)
    else LastDirective(batch[..|batch| - 1])
  }

  /** After a pass the control flow is the library form of the last answer other than
      `Keep`, or the starting flow when every answer was `Keep`. */
  lemma {:induction false} PassFlowFollowsLastDirective(s: LoopState, batch: seq<Delivery>)
    ensures LastDirective(batch).None? ==> RunBatch(s, batch).state.flow == s.flow
    ensures LastDirective(batch).Some? ==>
      var d := batch[LastDirective(batch).value];
      Some(RunBatch(s, batch).state.flow) == Types.ControlFlowToTao(d.reply, d.now)
    decreases |batch|
  {
    if batch != [] {
      var n := |batch| - 1;
      PassFlowFollowsLastDirective(s, batch[..n]);
      if batch[n].reply.Keep? {
        var k := LastDirective(batch[..n]);
        assert k.Some? ==> batch[..n][k.value] == batch[k.value];
      }
    }
  }

  /** The window number a converted event carries, if any. */
  function WindowNumberOf(e: Events.TaoEvent): Option<U64> {
    match e
    case WindowEvent(n, _) => Some(n)
    case RedrawRequested(n) => Some(n)
    case _ => None
  }

  /** The table only gains entries during a pass, and every window event of the pass
      carries the number the table holds for its window at the end of the pass. */
  lemma {:induction false} PassNumbersAgreeWithTable(s: LoopState, batch: seq<Delivery>)
    ensures var t := RunBatch(s, batch).state.table;
      forall k :: k in s.table.ids ==> k in t.ids && t.ids[k] == s.table.ids[k]
    ensures var r := RunBatch(s, batch);
      forall i :: 0 <= i < |batch| && Events.WindowIdOf(batch[i].event).Some? ==>
        Events.WindowIdOf(batch[i].event).value in r.state.table.ids
        && WindowNumberOf(r.handed[i]) == Some(r.state.table.ids[Events.WindowIdOf(batch[i].event).value])
    decreases |batch|
  {
    if batch != [] {
      var n := |batch| - 1;
      var init := batch[..n];
      PassNumbersAgreeWithTable(s, init);
      assert forall i :: 0 <= i < n ==> init[i] == batch[i];
    }
  }

  /** While the counter stays clear of wrapping, a pass keeps the table well numbered and
      hands out at most one new number per delivery. */
  lemma {:induction false} PassKeepsNumbering(s: LoopState, batch: seq<Delivery>)
    requires WellNumbered(s.table) && s.table.next + |batch| < U64_LIMIT - 1
    ensures WellNumbered(RunBatch(s, batch).state.table)
    ensures RunBatch(s, batch).state.table.next <= s.table.next + |batch|
    decreases |batch|
  {
    if batch != [] {
      var n := |batch| - 1;
      PassKeepsNumbering(s, batch[..n]);
      var before := RunBatch(s, batch[..n]).state.table;
      var after := RunBatch(s, batch).state.table;
      assert after == TableAfter(before, batch[n].event);
      var id := Events.WindowIdOf(batch[n].event);
      if id.Some? {
        LookupKeepsNumbering(before, id.value);
        assert after == Lookup(before, id.value).table;
      } else {
        assert after == before;
      }
    }
  }

  /** Within a pass, two window events carry the same number exactly when they come from
      the same library window. */
  lemma {:induction false} PassWindowNumbersDistinct(s: LoopState, batch: seq<Delivery>, i: nat, j: nat)
    requires WellNumbered(s.table) && s.table.next + |batch| < U64_LIMIT - 1
    requires i < |batch| && j < |batch|
    requires Events.WindowIdOf(batch[i].event).Some? && Events.WindowIdOf(batch[j].event).Some?
    ensures WindowNumberOf(RunBatch(s, batch).handed[i]) == WindowNumberOf(RunBatch(s, batch).handed[j])
        <==> Events.WindowIdOf(batch[i].event) == Events.WindowIdOf(batch[j].event)
  {
    PassNumbersAgreeWithTable(s, batch);
    PassKeepsNumbering(s, batch);
  }

  // ---- the drivers ----

  /** `run_with_config`: sets the loop up and runs the callback on every delivery, with
      a fresh application whose table is empty. The library's loop never returns; the
      deliveries here are the ones it has made so far. */
  method RunWithConfig(p: Platform, config: RunConfig, start: Tao.ControlFlow, batch: seq<Delivery>)
    returns (settings: LoopSettings, handed: seq<Events.TaoEvent>)
    ensures settings == Settings(p, config)
    ensures handed == RunBatch(LoopState(InitialTable, start), batch).handed
  {
    settings := Settings(p, config);
    var app := new App();
    var cell := new TargetCell();
    var flow;
    handed, flow := RunPass(app, cell, batch, start);
  }

  /** `run`: `run_with_config` with the default configuration. */
  method Run(p: Platform, start: Tao.ControlFlow, batch: seq<Delivery>)
    returns (settings: LoopSettings, handed: seq<Events.TaoEvent>)
    ensures settings == Settings(p, DefaultRunConfig())
    ensures settings.deviceEventFilter == Tao.Unfocused
    ensures handed == RunBatch(LoopState(InitialTable, start), batch).handed
  {
    settings, handed := RunWithConfig(p, DefaultRunConfig(), start, batch);
  }

  /** The calls the run-return driver makes on the host's handler. */
  datatype HostCall = ShouldQuit | HandleEvent(event: Events.TaoEvent) | Render

  /** What the host answers to one `should_quit` query, and the pass that follows when it
      answers false (the flow the library starts the pass with and its deliveries). */
  datatype Round = Round(shouldQuit: bool, startFlow: Tao.ControlFlow, batch: seq<Delivery>)

  predicate Quits(rounds: seq<Round>) {
    exists k :: 0 <= k < |rounds| && rounds[k].shouldQuit
  }

  /** The round in which the host first answers true. */
  function FirstQuit(rounds: seq<Round>): (k: nat)
    requires Quits(rounds)
    ensures k < |rounds| && rounds[k].shouldQuit
    ensures forall j :: 0 <= j < k ==> !rounds[j].shouldQuit
    decreases |rounds|
  {
    if rounds[0].shouldQuit then 0
    else
      assert Quits(rounds[1..]) by {
        var k :| 0 <= k < |rounds| && rounds[k].shouldQuit;
        assert rounds[1..][k - 1] == rounds[k];
      }
      1 + FirstQuit(rounds[1..])
  }

  function Handlings(events: seq<Events.TaoEvent>): (calls: seq<HostCall>)
    ensures |calls| == |events|
    ensures forall i :: 0 <= i < |events| ==> calls[i] == HandleEvent(events[i])
  {
    if events == [] then [] else [HandleEvent(events[0])] + Handlings(events[1..])
  }

  datatype DriverRun = DriverRun(table: IdTable, calls: seq<HostCall>)

  /** The handler calls of the run-return driver over the given rounds, starting from
      table `t`: each round asks `should_quit`; a false answer is followed by a pass and
      one `render`, a true answer ends the driver. */
  function Drive(t: IdTable, rounds: seq<Round>): DriverRun
    decreases |rounds|
  {
    if rounds == [] then DriverRun(t, [])
    else if rounds[0].shouldQuit then DriverRun(t, [ShouldQuit])
    else
      var pass := RunBatch(LoopState(t, rounds[0].startFlow), rounds[0].batch);
      var rest := Drive(pass.state.table, rounds[1..]);
      DriverRun(rest.table, [ShouldQuit] + Handlings(pass.handed) + [Render] + rest.calls)
  }

  /** A round answered false: the driver asks, makes the pass, renders, and goes on. */
  lemma DriveNotQuitting(t: IdTable, rounds: seq<Round>)
    requires rounds != [] && !rounds[0].shouldQuit
    ensures var pass := RunBatch(LoopState(t, rounds[0].startFlow), rounds[0].batch);
      Drive(t, rounds).calls
        == [ShouldQuit] + Handlings(pass.handed) + [Render] + Drive(pass.state.table, rounds[1..]).calls
  {
  }

  /** A round answered true: the driver asks and stops. */
  lemma DriveQuitting(t: IdTable, rounds: seq<Round>)
    requires rounds != [] && rounds[0].shouldQuit
    ensures Drive(t, rounds).calls == [ShouldQuit]
  {
  }

  /** `run_return_loop_with_config`: unsupported on iOS. Elsewhere it sets the loop up,
      makes a fresh application, and runs passes until the host's `should_quit` answers
      true, rendering after each pass; then it returns `Ok`. */
  method RunReturnLoopWithConfig(p: Platform, config: RunConfig, rounds: seq<Round>)
    returns (r: Result<(), Types.TaoError>, settings: Option<LoopSettings>, calls: seq<HostCall>)
    requires p.IOS? || Quits(rounds)
    ensures p.IOS? ==> r == Err(Types.Unsupported) && settings.None? && calls == []
    ensures !p.IOS? ==> r == Ok(()) && settings == Some(Settings(p, config))
    ensures !p.IOS? ==> calls == Drive(InitialTable, rounds).calls
  {
    if p.IOS? {
      return Err(Types.Unsupported), None, [];
    }
    settings := Some(Settings(p, config));
    var app := new App();
    var cell := new TargetCell();
    calls := [];
    var i := 0;
    while !rounds[i].shouldQuit
      invariant 0 <= i <= FirstQuit(rounds)
      invariant Drive(InitialTable, rounds).calls == calls + Drive(app.Table(), rounds[i..]).calls
      decreases FirstQuit(rounds) - i
    {
      ghost var before := app.Table();
      var handed, flow := RunPass(app, cell, rounds[i].batch, rounds[i].startFlow);
      DriveNotQuitting(before, rounds[i..]);
      assert rounds[i..][0] == rounds[i] && rounds[i..][1..] == rounds[i + 1..];
      calls := calls + [ShouldQuit] + Handlings(handed) + [Render];
      i := i + 1;
    }
    DriveQuitting(app.Table(), rounds[i..]);
    calls := calls + [ShouldQuit];
    r := Ok(());
  }

  /** `run_return_loop`: `run_return_loop_with_config` with the default configuration. */
  method RunReturnLoop(p: Platform, rounds: seq<Round>)
    returns (r: Result<(), Types.TaoError>, settings: Option<LoopSettings>, calls: seq<HostCall>)
    requires p.IOS? || Quits(rounds)
    ensures p.IOS? ==> r == Err(Types.Unsupported) && settings.None? && calls == []
    ensures !p.IOS? ==> r == Ok(()) && settings == Some(Settings(p, DefaultRunConfig()))
    ensures !p.IOS? ==> calls == Drive(InitialTable, rounds).calls
  {
    r, settings, calls := RunReturnLoopWithConfig(p, DefaultRunConfig(), rounds);
  }

  // ---- the shape of the driver's calls ----

  /** The calls other than event handling. */
  function Skeleton(calls: seq<HostCall>): seq<HostCall>
    decreases |calls|
  {
    if calls == [] then []
    else (if calls[0].HandleEvent? then [] else [calls[0]]) + Skeleton(calls[1..])
  }

  /** `n` rounds of `should_quit` then `render`, closed by the `should_quit` that
      answered true. */
  function Alternation(n: nat): seq<HostCall>
    decreases n
  {
    if n == 0 then [ShouldQuit] else [ShouldQuit, Render] + Alternation(n - 1)
  }

  lemma {:induction false} SkeletonAppend(a: seq<HostCall>, b: seq<HostCall>)
    ensures Skeleton(a + b) == Skeleton(a) + Skeleton(b)
    decreases |a|
  {
    if a == [] {
      assert a + b == b;
    } else {
      var head := if a[0].HandleEvent? then [] else [a[0]];
      assert (a + b)[0] == a[0] && (a + b)[1..] == a[1..] + b;
      SkeletonAppend(a[1..], b);
      assert Skeleton(a + b) == head + Skeleton(a[1..] + b);
      assert Skeleton(a) == head + Skeleton(a[1..]);
    }
  }

  lemma {:induction false} SkeletonOfHandlings(events: seq<Events.TaoEvent>)
    ensures Skeleton(Handlings(events)) == []
    decreases |events|
  {
    if events != [] {
      var calls := Handlings(events);
      assert calls[1..] == Handlings(events[1..]);
      SkeletonOfHandlings(events[1..]);
    }
  }

  /** Leaving out event handling, the driver alternates `should_quit` and `render`: it
      asks before every pass, renders once after each, and makes as many passes as the
      host answered false before its first true, so none when the first answer is true. */
  lemma {:induction false} DriveAlternates(t: IdTable, rounds: seq<Round>)
    requires Quits(rounds)
    ensures Skeleton(Drive(t, rounds).calls) == Alternation(FirstQuit(rounds))
    decreases |rounds|
  {
    if !rounds[0].shouldQuit {
      var pass := RunBatch(LoopState(t, rounds[0].startFlow), rounds[0].batch);
      var rest := Drive(pass.state.table, rounds[1..]);
      DriveAlternates(pass.state.table, rounds[1..]);
      SkeletonAppend([ShouldQuit] + Handlings(pass.handed) + [Render], rest.calls);
      SkeletonAppend([ShouldQuit] + Handlings(pass.handed), [Render]);
      SkeletonAppend([ShouldQuit], Handlings(pass.handed));
      SkeletonOfHandlings(pass.handed);
    }
  }
}
