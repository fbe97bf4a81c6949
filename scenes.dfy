/** The simulation engine: a scene replays a list of command codes on a
    moving object through a table of handlers and reports where the object
    ended up, or that it fell off the grid. */
module Scenes {
  import opened Vectors
  import opened Objects

  /** A registered handler: a call of one of the object's operations with
      fixed arguments. */
  datatype Handler =
    | MoveForward(value: int)
    | MoveBackwards(value: int)
    | RotateClockwise
    | RotateCounterClockwise
    | MoveRight(value: int)
    | MoveLeft(value: int)
    | MoveUp(value: int)
    | MoveDown(value: int)

  /** The pose a handler call leaves behind: a turn never moves the object
      and a move never turns it. */
  function Apply(h: Handler, p: Pose): (q: Pose)
    ensures h.RotateClockwise? || h.RotateCounterClockwise? ==> q.position == p.position
    ensures !h.RotateClockwise? && !h.RotateCounterClockwise? ==> q.rotation == p.rotation
  {
    match h
    case MoveForward(v) => Forward(p, v)
    case MoveBackwards(v) => Forward(p, v)
    case RotateClockwise => Turned(p, 1)
    case RotateCounterClockwise => Turned(p, -1)
    case MoveRight(v) => Moved(p, Vec(v, 0))
    case MoveLeft(v) => Moved(p, Vec(-v, 0))
    case MoveUp(v) => Moved(p, Vec(0, -v))
    case MoveDown(v) => Moved(p, Vec(0, v))
  }

  /** One command: the handler registered for code c, if there is one, and
      nothing otherwise. */
  function Step(handlers: map<int, Handler>, c: int, p: Pose): (q: Pose)
    ensures c !in handlers ==> q == p
  {
    if c in handlers then Apply(handlers[c], p) else p
  }

  /** The handler table of the command-line program: 1 steps forward, 2 steps
      back, 3 turns clockwise and 4 counter-clockwise, each with the
      operation's default argument. */
  function StandardHandlers(): (h: map<int, Handler>)
    ensures h.Keys == {1, 2, 3, 4}
  {
    map[1 := MoveForward(1), 2 := MoveBackwards(-1),
        3 := RotateClockwise, 4 := RotateCounterClockwise]
  }

  /** The pose after each command of cmds in turn. */
  function Replay(handlers: map<int, Handler>, p: Pose, cmds: seq<int>): (q: Pose)
    ensures (forall i :: 0 <= i < |cmds| ==> cmds[i] !in handlers) ==> q == p
    decreases |cmds|
  {
    if cmds == [] then p
    else
      assert forall i :: 0 <= i < |cmds| - 1 ==> cmds[1..][i] == cmds[i + 1];
      Replay(handlers, Step(handlers, cmds[0], p), cmds[1..])
  }

  /** Replaying a + b is replaying a and then b from where a left off. */
  lemma {:induction false} ReplayAppend(handlers: map<int, Handler>, p: Pose, a: seq<int>, b: seq<int>)
    ensures Replay(handlers, p, a + b) == Replay(handlers, Replay(handlers, p, a), b)
    decreases |a|
  {
    if a == [] {
      assert a + b == b;
    } else {
      assert (a + b)[0] == a[0] && (a + b)[1..] == a[1..] + b;
      ReplayAppend(handlers, Step(handlers, a[0], p), a[1..], b);
    }
  }

  /** What the caller is told: success or failure, each with the object's
      position, or nothing at all. */
  datatype Outcome = Succeeded(position: Vec) | Failed(position: Vec) | NoResult

  /** The state of the promise that carries the outcome. */
  datatype Settlement = Pending | Resolved | Rejected

  /** `resolve()`: only the first settlement counts. */
  function Resolve(s: Settlement): (t: Settlement)
    ensures s == Pending ==> t == Resolved
    ensures s != Pending ==> t == s
  {
    if s == Pending then Resolved else s
  }

  /** `reject()`: only the first settlement counts. */
  function Reject(s: Settlement): (t: Settlement)
    ensures s == Pending ==> t == Rejected
    ensures s != Pending ==> t == s
  {
    if s == Pending then Rejected else s
  }

  /** What the callback receives once the promise has settled; a promise
      that never settles calls nothing. */
  function Deliver(s: Settlement, position: Vec): (o: Outcome)
    ensures o == NoResult <==> s == Pending
    ensures s == Resolved <==> o == Succeeded(position)
    ensures s == Rejected <==> o == Failed(position)
  {
    match s
    case Resolved => Succeeded(position)
    case Rejected => Failed(position)
    case Pending => NoResult
  }

  /** A run of the engine: its outcome, the object's final pose and how many
      commands were handed to the handler table. */
  datatype Run = Run(outcome: Outcome, pose: Pose, executed: nat)

  /** The engine on a non-empty command list, command by command. Before each
      command the object must be inside the grid (else failure at its
      position); 0 ends the run successfully; any other code goes to the
      handler table; the last command ends the run successfully wherever it
      left the object. */
  function RunFrom(grid: Grid, p: Pose, cmds: seq<int>, handlers: map<int, Handler>): (r: Run)
    reads grid
    requires grid.Valid() && cmds != []
    ensures r.outcome != NoResult && r.outcome.position == r.pose.position
    ensures r.executed <= |cmds|
    decreases |cmds|
  {
    if !grid.IsInside(p.position) then
      Run(Failed(p.position), p, 0)
    else if cmds[0] == 0 then
      Run(Succeeded(p.position), p, 0)
    else
      var q := Step(handlers, cmds[0], p);
      if |cmds| == 1 then
        Run(Succeeded(q.position), q, 1)
      else
        var r := RunFrom(grid, q, cmds[1..], handlers);
        Run(r.outcome, r.pose, r.executed + 1)
  }

  /** Commands are taken strictly in order, each at most once: the final
      pose is the replay of the first `executed` commands, none of them 0,
      each found the object inside the grid; a failure is reported before
      the command it stops at, off the grid, and a success stops after the
      last command or at a 0 that found the object inside. */
  lemma {:induction false} RunFromReplays(grid: Grid, p: Pose, cmds: seq<int>, handlers: map<int, Handler>)
    requires grid.Valid() && cmds != []
    ensures var r := RunFrom(grid, p, cmds, handlers);
      && r.pose == Replay(handlers, p, cmds[..r.executed])
      && (forall i :: 0 <= i < r.executed ==> cmds[i] != 0)
      && (forall i :: 0 <= i < r.executed ==> grid.IsInside(Replay(handlers, p, cmds[..i]).position))
      && (r.outcome.Failed? ==> r.executed < |cmds| && !grid.IsInside(r.pose.position))
      && (r.outcome.Succeeded? ==> r.executed == |cmds| || cmds[r.executed] == 0)
      && (r.outcome.Succeeded? && r.executed < |cmds| ==> grid.IsInside(r.pose.position))
    decreases |cmds|
  {
    var r := RunFrom(grid, p, cmds, handlers);
    if grid.IsInside(p.position) && cmds[0] != 0 {
      var q := Step(handlers, cmds[0], p);
      if |cmds| == 1 {
        assert cmds[..1][1..] == [];
      } else {
        var t := RunFrom(grid, q, cmds[1..], handlers);
        RunFromReplays(grid, q, cmds[1..], handlers);
        ReplayCons(handlers, p, cmds, t.executed + 1);
        forall i | 0 < i <= t.executed
          ensures Replay(handlers, p, cmds[..i]) == Replay(handlers, q, cmds[1..][..i - 1])
        {
          ReplayCons(handlers, p, cmds, i);
        }
      }
    }
  }

  /** Replaying the first k commands is the first command followed by the
      next k - 1. */
  lemma ReplayCons(handlers: map<int, Handler>, p: Pose, cmds: seq<int>, k: nat)
    requires 0 < k <= |cmds|
    ensures Replay(handlers, p, cmds[..k])
         == Replay(handlers, Step(handlers, cmds[0], p), cmds[1..][..k - 1])
  {
    assert cmds[..k][1..] == cmds[1..][..k - 1];
  }

  /** The whole engine. An empty command list runs no loop; only the check
      after the loop is left, and a rejection there is the only way the
      promise settles, so an object left inside hears nothing. */
  function Simulation(grid: Grid, start: Pose, cmds: seq<int>, handlers: map<int, Handler>): (r: Run)
    reads grid
    requires grid.Valid()
    ensures r.outcome == NoResult <==> cmds == [] && grid.IsInside(start.position)
    ensures r.outcome != NoResult ==> r.outcome.position == r.pose.position
    ensures r.executed <= |cmds|
  {
    if cmds == [] then
      Run(if grid.IsInside(start.position) then NoResult else Failed(start.position), start, 0)
    else
      RunFrom(grid, start, cmds, handlers)
  }

  /** A start position off the grid fails at once with a non-empty command
      list: no handler runs and the object stays where it was. */
  lemma StartOutsideFails(grid: Grid, start: Pose, cmds: seq<int>, handlers: map<int, Handler>)
    requires grid.Valid() && cmds != [] && !grid.IsInside(start.position)
    ensures Simulation(grid, start, cmds, handlers) == Run(Failed(start.position), start, 0)
  {
  }

  /** An empty command list: failure at the start if it is off the grid,
      and otherwise no outcome at all. */
  lemma EmptyCommands(grid: Grid, start: Pose, handlers: map<int, Handler>)
    requires grid.Valid()
    ensures var r := Simulation(grid, start, [], handlers);
      && r.pose == start && r.executed == 0
      && r.outcome == if grid.IsInside(start.position) then NoResult else Failed(start.position)
  {
  }

  /** Reaching a 0 with the object inside ends the run successfully where
      the object stands, whatever follows. */
  lemma TerminatorSucceeds(grid: Grid, p: Pose, cmds: seq<int>, handlers: map<int, Handler>)
    requires grid.Valid() && cmds != [] && cmds[0] == 0 && grid.IsInside(p.position)
    ensures Simulation(grid, p, cmds, handlers) == Run(Succeeded(p.position), p, 0)
  {
  }

  /** Everything after the first 0 is irrelevant: a run of pre + [0] + rest
      is a run of pre + [0]. */
  lemma {:induction false} FirstZeroFixesOutcome(grid: Grid, p: Pose, pre: seq<int>, rest: seq<int>,
                                                 handlers: map<int, Handler>)
    requires grid.Valid()
    ensures Simulation(grid, p, pre + [0] + rest, handlers) == Simulation(grid, p, pre + [0], handlers)
    decreases |pre|
  {
    if pre != [] && grid.IsInside(p.position) && pre[0] != 0 {
      var q := Step(handlers, pre[0], p);
      assert (pre + [0] + rest)[1..] == pre[1..] + [0] + rest;
      assert (pre + [0])[1..] == pre[1..] + [0];
      FirstZeroFixesOutcome(grid, q, pre[1..], rest, handlers);
    }
  }

  /** A code with no handler that is not the last command is as good as
      absent: the run ends with the same outcome and the same pose. */
  lemma {:induction false} UnknownCommandSkipped(grid: Grid, p: Pose, pre: seq<int>, c: int, post: seq<int>,
                                                 handlers: map<int, Handler>)
    requires grid.Valid() && c != 0 && c !in handlers && post != []
    ensures var with, without := Simulation(grid, p, pre + [c] + post, handlers),
                                 Simulation(grid, p, pre + post, handlers);
      with.outcome == without.outcome && with.pose == without.pose
    decreases |pre|
  {
    if pre == [] {
      assert pre + [c] + post == [c] + post && pre + post == post;
      assert ([c] + post)[1..] == post;
    } else if grid.IsInside(p.position) && pre[0] != 0 {
      var q := Step(handlers, pre[0], p);
      assert (pre + [c] + post)[1..] == pre[1..] + [c] + post;
      assert (pre + post)[1..] == pre[1..] + post;
      UnknownCommandSkipped(grid, q, pre[1..], c, post, handlers);
    }
  }

  /** A command that takes the object off the grid, followed by another
      command, ends the run in failure at the outside position before the
      next command runs. */
  lemma LeavingGridFails(grid: Grid, p: Pose, c: int, rest: seq<int>, handlers: map<int, Handler>)
    requires grid.Valid() && grid.IsInside(p.position) && c != 0 && rest != []
    requires !grid.IsInside(Step(handlers, c, p).position)
    ensures var q := Step(handlers, c, p);
      Simulation(grid, p, [c] + rest, handlers) == Run(Failed(q.position), q, 1)
  {
    var q := Step(handlers, c, p);
    assert ([c] + rest)[1..] == rest;
    assert RunFrom(grid, q, rest, handlers) == Run(Failed(q.position), q, 0);
  }

  /** The last command ends the run in success, even when it takes the
      object off the grid: the check after the loop comes after the
      promise has been resolved. */
  lemma LastCommandSucceeds(grid: Grid, p: Pose, c: int, handlers: map<int, Handler>)
    requires grid.Valid() && grid.IsInside(p.position) && c != 0
    ensures var q := Step(handlers, c, p);
      Simulation(grid, p, [c], handlers) == Run(Succeeded(q.position), q, 1)
  {
  }

  /** North, with y pointing down. */
  const North := Vec(0, -1)

  /** One command that neither fails nor ends the run hands over to the
      rest of the list. */
  lemma RunFromStep(grid: Grid, p: Pose, cmds: seq<int>, handlers: map<int, Handler>)
    requires grid.Valid() && |cmds| > 1 && grid.IsInside(p.position) && cmds[0] != 0
    ensures var r := RunFrom(grid, Step(handlers, cmds[0], p), cmds[1..], handlers);
      RunFrom(grid, p, cmds, handlers) == Run(r.outcome, r.pose, r.executed + 1)
  {
  }

  /** The standard table's four codes. */
  lemma StandardSteps(p: Pose)
    ensures Step(StandardHandlers(), 1, p) == Forward(p, 1)
    ensures Step(StandardHandlers(), 2, p) == Forward(p, -1)
    ensures Step(StandardHandlers(), 3, p) == Pose(p.position, Clockwise(p.rotation))
    ensures Step(StandardHandlers(), 4, p) == Pose(p.position, CounterClockwise(p.rotation))
  {
    RotateQuartersUnit(p.rotation);
  }

  /** The end of the next scenario: from (1, 2) facing north, commands
      4 1 0 end at (0, 2) facing west. */
  lemma ScenarioTurnWest(g: Grid)
    requires g.matrix == Ones(5, 5)
    ensures RunFrom(g, Pose(Vec(1, 2), North), [4, 1, 0], StandardHandlers())
         == Run(Succeeded(Vec(0, 2)), Pose(Vec(0, 2), Vec(-1, 0)), 2)
  {
    var h := StandardHandlers();
    var west := Vec(-1, 0);
    var p0, p5, p6 := Pose(Vec(1, 2), North), Pose(Vec(1, 2), west), Pose(Vec(0, 2), west);
    var done := Succeeded(Vec(0, 2));
    assert RunFrom(g, p6, [0], h) == Run(done, p6, 0) by {
      DefaultGridInside(g, 5, 5, p6.position);
    }
    assert RunFrom(g, p5, [1, 0], h) == Run(done, p6, 1) by {
      DefaultGridInside(g, 5, 5, p5.position);
      assert Step(h, 1, p5) == p6;
      RunFromStep(g, p5, [1, 0], h);
      assert [1, 0][1..] == [0];
    }
    assert RunFrom(g, p0, [4, 1, 0], h) == Run(done, p6, 2) by {
      DefaultGridInside(g, 5, 5, p0.position);
      assert Step(h, 4, p0) == p5;
      RunFromStep(g, p0, [4, 1, 0], h);
      assert [4, 1, 0][1..] == [1, 0];
    }
  }

  /** The middle of the next scenario: from (1, 0) facing north, commands
      2 2 4 1 0 end at (0, 2) facing west. */
  lemma ScenarioBackTurnWest(g: Grid)
    requires g.matrix == Ones(5, 5)
    ensures RunFrom(g, Pose(Vec(1, 0), North), [2, 2, 4, 1, 0], StandardHandlers())
         == Run(Succeeded(Vec(0, 2)), Pose(Vec(0, 2), Vec(-1, 0)), 4)
  {
    var h := StandardHandlers();
    var p0, p1, p2 := Pose(Vec(1, 2), North), Pose(Vec(1, 1), North), Pose(Vec(1, 0), North);
    var p6 := Pose(Vec(0, 2), Vec(-1, 0));
    var done := Succeeded(Vec(0, 2));
    ScenarioTurnWest(g);
    assert RunFrom(g, p1, [2, 4, 1, 0], h) == Run(done, p6, 3) by {
      DefaultGridInside(g, 5, 5, p1.position);
      assert Step(h, 2, p1) == p0;
      RunFromStep(g, p1, [2, 4, 1, 0], h);
      assert [2, 4, 1, 0][1..] == [4, 1, 0];
    }
    assert RunFrom(g, p2, [2, 2, 4, 1, 0], h) == Run(done, p6, 4) by {
      DefaultGridInside(g, 5, 5, p2.position);
      assert Step(h, 2, p2) == p1;
      RunFromStep(g, p2, [2, 2, 4, 1, 0], h);
      assert [2, 2, 4, 1, 0][1..] == [2, 4, 1, 0];
    }
  }

  /** The tail of the next scenario: from (1, 1) facing north, commands
      1 2 2 4 1 0 end at (0, 2) facing west. */
  lemma ScenarioUpBackTurnWest(g: Grid)
    requires g.matrix == Ones(5, 5)
    ensures RunFrom(g, Pose(Vec(1, 1), North), [1, 2, 2, 4, 1, 0], StandardHandlers())
         == Run(Succeeded(Vec(0, 2)), Pose(Vec(0, 2), Vec(-1, 0)), 5)
  {
    var h := StandardHandlers();
    var p1, p2 := Pose(Vec(1, 1), North), Pose(Vec(1, 0), North);
    ScenarioBackTurnWest(g);
    DefaultGridInside(g, 5, 5, p1.position);
    assert Step(h, 1, p1) == p2;
    RunFromStep(g, p1, [1, 2, 2, 4, 1, 0], h);
    assert [1, 2, 2, 4, 1, 0][1..] == [2, 2, 4, 1, 0];
  }

  /** A 5 by 5 grid, start (1, 2) facing north, commands 1 1 2 2 4 1 0:
      up two, back two, turn to face west, one step west. */
  lemma ScenarioForwardBackTurn(g: Grid)
    requires g.matrix == Ones(5, 5)
    ensures Simulation(g, Pose(Vec(1, 2), North), [1, 1, 2, 2, 4, 1, 0], StandardHandlers())
         == Run(Succeeded(Vec(0, 2)), Pose(Vec(0, 2), Vec(-1, 0)), 6)
  {
    var h := StandardHandlers();
    var p0, p1 := Pose(Vec(1, 2), North), Pose(Vec(1, 1), North);
    ScenarioUpBackTurnWest(g);
    DefaultGridInside(g, 5, 5, p0.position);
    assert Step(h, 1, p0) == p1;
    RunFromStep(g, p0, [1, 1, 2, 2, 4, 1, 0], h);
    assert [1, 1, 2, 2, 4, 1, 0][1..] == [1, 2, 2, 4, 1, 0];
  }

  /** A 2 by 2 grid, start (0, 0) facing north, the single command 1: the
      object steps off to (0, -1) and the run still succeeds there. */
  lemma ScenarioLastStepOffGrid(g: Grid)
    requires g.matrix == Ones(2, 2)
    ensures Simulation(g, Pose(Vec(0, 0), North), [1], StandardHandlers()).outcome
         == Succeeded(Vec(0, -1))
    ensures !g.IsInside(Vec(0, -1))
  {
  }

  /** A 3 by 3 grid whose centre cell is empty, start at the centre: the
      run fails at once, with or without commands. */
  lemma ScenarioHoleAtStart(g: Grid, cmds: seq<int>)
    requires g.matrix == FromRows([[true, true, true], [true, false, true], [true, true, true]])
    ensures Simulation(g, Pose(Vec(1, 1), North), cmds, StandardHandlers()).outcome
         == Failed(Vec(1, 1))
  {
    assert g.matrix.Get(1, 1) == false;
  }

  /** An unknown code 7 before the commands 1 0 changes nothing. */
  lemma ScenarioUnknownCode(g: Grid)
    requires g.matrix == Ones(5, 5)
    ensures Simulation(g, Pose(Vec(1, 2), North), [7, 1, 0], StandardHandlers()).outcome
         == Succeeded(Vec(1, 1))
  {
    var h := StandardHandlers();
    var p0, p1 := Pose(Vec(1, 2), North), Pose(Vec(1, 1), North);
    var done := Succeeded(Vec(1, 1));
    assert RunFrom(g, p1, [0], h) == Run(done, p1, 0) by {
      DefaultGridInside(g, 5, 5, p1.position);
    }
    assert RunFrom(g, p0, [1, 0], h) == Run(done, p1, 1) by {
      DefaultGridInside(g, 5, 5, p0.position);
      assert Step(h, 1, p0) == p1;
      RunFromStep(g, p0, [1, 0], h);
      assert [1, 0][1..] == [0];
    }
    assert RunFrom(g, p0, [7, 1, 0], h) == Run(done, p1, 2) by {
      DefaultGridInside(g, 5, 5, p0.position);
      
      assert 7 !in h && Step(h, 7, p0) == p0;
      RunFromStep(g, p0, [7, 1, 0], h);
      assert [7, 1, 0][1..] == [1, 0];
    }
  }

  /** `handlers[c]?.()`: runs the registered operation on the object. */
  method Dispatch(obj: MovingObject, handlers: map<int, Handler>, c: int)
    modifies obj
    ensures obj.State() == Step(handlers, c, old(obj.State()))
  {
    if c in handlers {
      match handlers[c]
      case MoveForward(v) => obj.MoveForward(v);
      case MoveBackwards(v) => obj.MoveBackwards(v);
      case RotateClockwise => obj.RotateClockwise();
      case RotateCounterClockwise => obj.RotateCounterClockwise();
      case MoveRight(v) => obj.MoveRight(v);
      case MoveLeft(v) => obj.MoveLeft(v);
      case MoveUp(v) => obj.MoveUp(v);
      case MoveDown(v) => obj.MoveDown(v);
    }
  }

  /** A grid, an object on it and the commands to replay. */
  class PlaneScene {
    var grid: Grid
    var obj: MovingObject
    var commands: seq<int>

    constructor (grid: Grid, obj: MovingObject, commands: seq<int>)
      ensures this.grid == grid && this.obj == obj && this.commands == commands
    {
      this.grid := grid;
      this.obj := obj;
      this.commands := commands;
    }

    method GetGrid() returns (g: Grid)
      ensures g == grid
    {
      g := grid;
    }

    method GetObj() returns (o: MovingObject)
      ensures o == obj
    {
      o := obj;
    }

    /** Replays the commands on the object. Inside the loop every
        settlement is followed by a break; after the loop the position is
        checked once more, and a rejection there only counts when nothing
        settled before. The outcome carries the object's position as it is
        when the callback runs, after all of this. */
    method Simulate(handlers: map<int, Handler>) returns (outcome: Outcome)
      requires grid.Valid()
      modifies obj
      ensures outcome == Simulation(grid, old(obj.State()), commands, handlers).outcome
      ensures obj.State() == Simulation(grid, old(obj.State()), commands, handlers).pose
    {
      ghost var start := obj.State();
      ghost var target := Simulation(grid, start, commands, handlers);
      var promise := Pending;
      var i := 0;
      while i < |commands|
        invariant 0 <= i < |commands| || (commands == [] && obj.State() == start)
        invariant promise == Pending
        invariant commands != [] ==>
          var r := RunFrom(grid, obj.State(), commands[i..], handlers);
          target == Run(r.outcome, r.pose, r.executed + i)
      {
        var c := commands[i];
        var position := obj.GetPosition();
        if !grid.IsInside(position) {
          assert target.outcome == Failed(position) && target.pose == obj.State();
          promise := Reject(promise);
          break;
        }
        if c == 0 {
          assert target.outcome == Succeeded(position) && target.pose == obj.State();
          promise := Resolve(promise);
          break;
        }
        ghost var before := obj.State();
        Dispatch(obj, handlers, c);
        if i + 1 == |commands| {
          assert RunFrom(grid, before, commands[i..], handlers)
              == Run(Succeeded(obj.position), obj.State(), 1);
          assert target.outcome == Succeeded(obj.position) && target.pose == obj.State();
          promise := Resolve(promise);
          break;
        }
        assert commands[i..][1..] == commands[i + 1..];
        i := i + 1;
      }
      var position := obj.GetPosition();
      if !grid.IsInside(position) {
        promise := Reject(promise);
      }
      outcome := Deliver(promise, obj.position);
    }
  }
}
