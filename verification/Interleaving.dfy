/**
  Case 23 under every interleaving of the main thread and the watcher. Each action is one
  atomic step: taking the short lock, looking at the flag, acting, releasing, reading a frame.
*/
module Interleaving {
  import opened Common
  import C = Control
  import W = Watcher

  datatype Lock = Free | Main | Watch

  /** The main thread: raise the flag, run the query, lower the flag, join. */
  datatype MainPc = Armed | Raising | Raised | Querying | Queried | Lowering | Lowered | Waiting | Joined

  /** The watcher: one read, then at most one guarded request. */
  datatype WatchPc =
    | Reading
    | Matched(raw: seq<C.Byte>)
    | Holding(raw: seq<C.Byte>)
    | Acting(raw: seq<C.Byte>)
    | Leaving(raw: seq<C.Byte>, applied: bool)
    | Ended(result: W.Observation)

  datatype Mark = FlagUp | StopSent | FlagDown | WatcherJoined

  datatype State = State(announced: int, lock: Lock, flag: bool, main: MainPc, watch: WatchPc, marks: seq<Mark>)

  datatype Action = MainMoves | WatcherMoves | FrameArrives(raw: Option<seq<C.Byte>>)

  function Init(announced: int): State { State(announced, Free, false, Armed, Reading, []) }

  function StepMain(s: State): Option<State> {
    match s.main
    case Armed => if s.lock.Free? then Some(s.(lock := Main, main := Raising)) else None
    case Raising => Some(s.(flag := true, main := Raised, marks := s.marks + [FlagUp]))
    case Raised => Some(s.(lock := Free, main := Querying))
    case Querying => Some(s.(main := Queried))
    case Queried => if s.lock.Free? then Some(s.(lock := Main, main := Lowering)) else None
    case Lowering => Some(s.(flag := false, main := Lowered, marks := s.marks + [FlagDown]))
    case Lowered => Some(s.(lock := Free, main := Waiting))
    case Waiting => if s.watch.Ended? then Some(s.(main := Joined, marks := s.marks + [WatcherJoined])) else None
    case Joined => None
  }

  function Matches(raw: seq<C.Byte>, announced: int): bool {
    C.DecodeFrame(raw) == Some(C.Control(C.STOP, C.T4_CASE, announced))
  }

  function StepRead(s: State, raw: Option<seq<C.Byte>>): Option<State> {
    if !s.watch.Reading? then None
    else if raw.Some? && Matches(raw.value, s.announced) then Some(s.(watch := Matched(raw.value)))
    else Some(s.(watch := Ended(W.Observe(raw, s.announced, false))))
  }

  function StepWatcher(s: State): Option<State> {
    match s.watch
    case Reading => None
    case Matched(raw) => if s.lock.Free? then Some(s.(lock := Watch, watch := Holding(raw))) else None
    case Holding(raw) => Some(s.(watch := if s.flag then Acting(raw) else Leaving(raw, false)))
    case Acting(raw) => Some(s.(watch := Leaving(raw, true), marks := s.marks + [StopSent]))
    case Leaving(raw, applied) => Some(s.(lock := Free, watch := Ended(W.Observe(Some(raw), s.announced, applied))))
    case Ended(_) => None
  }

  function Step(s: State, a: Action): Option<State> {
    match a
    case MainMoves => StepMain(s)
    case WatcherMoves => StepWatcher(s)
    case FrameArrives(raw) => StepRead(s, raw)
  }

  /** The state after an interleaving, or None if it schedules a blocked thread. */
  function Run(s: State, actions: seq<Action>): Option<State>
    decreases |actions|
  {
    if actions == [] then Some(s)
    else
      var before := Run(s, actions[..|actions| - 1]);
      if before.None? then None else Step(before.value, actions[|actions| - 1])
  }

  predicate MainHolds(m: MainPc) { m.Raising? || m.Raised? || m.Lowering? || m.Lowered? }

  predicate WatchHolds(w: WatchPc) { w.Holding? || w.Acting? || w.Leaving? }

  /** Whether the request has been sent, as the watcher's own position tells it. */
  predicate Sent(w: WatchPc) { (w.Leaving? && w.applied) || (w.Ended? && w.result.stopApplied) }

  /** The order of events: the request, if any, lies between raising and lowering the flag. */
  function MarksOf(m: MainPc, sent: bool): seq<Mark> {
    var stop := if sent then [StopSent] else [];
    if m.Armed? || m.Raising? then []
    else if m.Raised? || m.Querying? || m.Queried? || m.Lowering? then [FlagUp] + stop
    else if m.Lowered? || m.Waiting? then [FlagUp] + stop + [FlagDown]
    else [FlagUp] + stop + [FlagDown, WatcherJoined]
  }

  predicate Inv(s: State) {
    && (s.lock.Main? <==> MainHolds(s.main))
    && (s.lock.Watch? <==> WatchHolds(s.watch))
    && (s.flag <==> s.main.Raised? || s.main.Querying? || s.main.Queried? || s.main.Lowering?)
    && s.marks == MarksOf(s.main, Sent(s.watch))
    && (Sent(s.watch) ==> !s.main.Armed? && !s.main.Raising?)
    && (s.watch.Acting? ==> s.main.Querying? || s.main.Queried?)
    && (s.main.Joined? ==> s.watch.Ended?)
    && (s.watch.Matched? || WatchHolds(s.watch) ==> Matches(s.watch.raw, s.announced))
    && (s.watch.Ended? ==> s.watch.result == W.Observe(s.watch.result.raw, s.announced, Sent(s.watch)))
  }

  lemma InvStep(s: State, a: Action)
    requires Inv(s) && Step(s, a).Some?
    ensures Inv(Step(s, a).value) && Step(s, a).value.announced == s.announced
  {
    hide C.DecodeFrame;
    var t := Step(s, a).value;
    match a
    case FrameArrives(raw) =>
      if t.watch.Ended? { assert t.watch.result == W.Observe(raw, s.announced, false); }
    case WatcherMoves =>
      if s.watch.Leaving? {
        assert t.watch.result == W.Observe(Some(s.watch.raw), s.announced, s.watch.applied);
        assert t.watch.result.stopApplied == s.watch.applied;
      }
    case MainMoves =>
  }

  lemma {:induction false} InvAlways(announced: int, actions: seq<Action>)
    requires Run(Init(announced), actions).Some?
    ensures Inv(Run(Init(announced), actions).value) && Run(Init(announced), actions).value.announced == announced
    decreases |actions|
  {
    if actions != [] {
      var init := actions[..|actions| - 1];
      InvAlways(announced, init);
      InvStep(Run(Init(announced), init).value, actions[|actions| - 1]);
    }
  }

  /** Under every interleaving the request is sent at most once, and only while the flag is up. */
  lemma StopOnlyInWindow(announced: int, actions: seq<Action>)
    requires Run(Init(announced), actions).Some?
    ensures var s := Run(Init(announced), actions).value;
      && multiset(s.marks)[StopSent] <= 1
      && (StopSent in s.marks ==> |s.marks| >= 2 && s.marks[0] == FlagUp && s.marks[1] == StopSent)
      && (FlagDown in s.marks && s.watch.Ended? ==> (StopSent in s.marks <==> s.watch.result.stopApplied))
  {
    InvAlways(announced, actions);
    var s := Run(Init(announced), actions).value;
    assert s.marks == MarksOf(s.main, Sent(s.watch));
  }

  /** After the join the observation is the truth, and only the announced STOP can be an applied one. */
  lemma JoinedObservation(announced: int, actions: seq<Action>)
    requires Run(Init(announced), actions).Some? && Run(Init(announced), actions).value.main.Joined?
    ensures var s := Run(Init(announced), actions).value;
      && s.watch.Ended? && s.lock.Free? && !s.flag
      && (s.watch.result.stopApplied <==> StopSent in s.marks)
      && (s.watch.result.stopApplied ==> s.watch.result.raw.Some? && Matches(s.watch.result.raw.value, announced))
  {
    hide C.DecodeFrame;
    InvAlways(announced, actions);
    var s := Run(Init(announced), actions).value;
    assert s.marks == MarksOf(s.main, Sent(s.watch));
  }

  /** A NOSTOP frame the machine accepts never goes with an applied stop, so its verdict is FAIL. */
  lemma NostopFails(announced: int, actions: seq<Action>, m: C.Machine)
    requires Run(Init(announced), actions).Some? && Run(Init(announced), actions).value.main.Joined?
    requires !m.aborted && m.accepted + 1 == announced
    ensures Run(Init(announced), actions).value.watch.Ended?
    ensures var o := Run(Init(announced), actions).value.watch.result;
      var (next, reply) := C.Step(m, C.Join(o.raw));
      && (C.T4_CASE in next.failed && C.T4_CASE !in m.failed ==> !o.stopApplied)
      && (o.stopApplied && m.phase.Watch? ==> reply == C.Received(C.Control(C.STOP, C.T4_CASE, announced)))
  {
    hide C.DecodeFrame;
    JoinedObservation(announced, actions);
  }

  /** Nobody is ever stuck: until the join some thread can move, the watcher's read ending by its deadline. */
  lemma NoDeadlock(announced: int, actions: seq<Action>)
    requires Run(Init(announced), actions).Some?
    ensures var s := Run(Init(announced), actions).value;
      s.main.Joined? || Step(s, MainMoves).Some? || Step(s, WatcherMoves).Some? || Step(s, FrameArrives(None)).Some?
  {
    InvAlways(announced, actions);
  }

  // ---------------------------------------------------------------- a schedule played on the real call flag

  function MainLeft(m: MainPc): nat {
    match m
    case Armed => 8
    case Raising => 7
    case Raised => 6
    case Querying => 5
    case Queried => 4
    case Lowering => 3
    case Lowered => 2
    case Waiting => 1
    case Joined => 0
  }

  function WatchLeft(w: WatchPc): nat {
    match w
    case Reading => 5
    case Matched(_) => 4
    case Holding(_) => 3
    case Acting(_) => 2
    case Leaving(_, _) => 1
    case Ended(_) => 0
  }

  /** The frame the watcher has in hand is the one that was read. */
  predicate Carries(w: WatchPc, frame: Option<seq<C.Byte>>) {
    match w
    case Reading => true
    case Ended(o) => o.raw == frame
    case _ => frame == Some(w.raw)
  }

  lemma StepShrinks(s: State, a: Action)
    requires Step(s, a).Some?
    ensures MainLeft(Step(s, a).value.main) + WatchLeft(Step(s, a).value.watch) < MainLeft(s.main) + WatchLeft(s.watch)
  {
    hide C.DecodeFrame, Matches;
  }

  lemma RunNext(s: State, actions: seq<Action>, a: Action)
    requires Run(s, actions).Some?
    ensures Run(s, actions + [a]) == Step(Run(s, actions).value, a)
  {
    assert (actions + [a])[..|actions|] == actions;
  }

  /** The flag object and the state tell the same of the flag and of the requests let through. */
  predicate InStep(s: State, active: bool, applied: nat) {
    active == s.flag && applied == if Sent(s.watch) || s.watch.Acting? then 1 else 0
  }

  function Next(s: State, mainFirst: bool, frame: Option<seq<C.Byte>>): Action {
    var watcher := if s.watch.Reading? then FrameArrives(frame) else WatcherMoves;
    if (mainFirst && Step(s, MainMoves).Some?) || Step(s, watcher).None? then MainMoves else watcher
  }

  lemma NextMoves(s: State, mainFirst: bool, frame: Option<seq<C.Byte>>)
    requires Inv(s) && !s.main.Joined?
    ensures Step(s, Next(s, mainFirst, frame)).Some?
  {
    hide C.DecodeFrame, Matches;
  }

  /** One move on the flag object: raise, lower or pass through, where the action does so. */
  method MoveFlag(flag: W.CallState, s: State, a: Action)
    requires Inv(s) && Step(s, a).Some? && InStep(s, flag.active, flag.applied)
    modifies flag
    ensures InStep(Step(s, a).value, flag.active, flag.applied)
  {
    hide C.DecodeFrame;
    if a.MainMoves? && s.main.Raising? {
      flag.Activate();
    } else if a.MainMoves? && s.main.Lowering? {
      flag.Deactivate();
    } else if a.WatcherMoves? && s.watch.Holding? {
      var done := flag.Apply();
    }
  }

  /**
    Main and watcher under some schedule, to the join, on one call flag. The flag is up exactly
    when the state says so, and it let through exactly the requests the state has marked.
  */
  method Play(announced: int, frame: Option<seq<C.Byte>>) returns (s: State, ghost actions: seq<Action>, ghost applied: nat)
    ensures Run(Init(announced), actions) == Some(s) && s.main.Joined? && s.watch.Ended? && s.watch.result.raw == frame
    ensures applied == multiset(s.marks)[StopSent] && (applied == 1 <==> s.watch.result.stopApplied)
  {
    hide Run, Step, Inv, InStep, Next, MarksOf, Carries;
    var flag := new W.CallState();
    s, actions := Init(announced), [];
    StartRuns(announced, frame);
    while !s.main.Joined?
      invariant Run(Init(announced), actions) == Some(s)
      invariant InStep(s, flag.active, flag.applied) && Carries(s.watch, frame)
      decreases MainLeft(s.main) + WatchLeft(s.watch)
    {
      InvAlways(announced, actions);
      var mainFirst: bool := Answer();
      var a := Next(s, mainFirst, frame);
      NextMoves(s, mainFirst, frame);
      NextCarries(s, mainFirst, frame);
      MoveFlag(flag, s, a);
      RunNext(Init(announced), actions, a);
      StepShrinks(s, a);
      s, actions := Step(s, a).value, actions + [a];
    }
    InvAlways(announced, actions);
    JoinedCounts(s, flag.active, flag.applied, frame);
    applied := flag.applied;
  }

  lemma NextCarries(s: State, mainFirst: bool, frame: Option<seq<C.Byte>>)
    requires Step(s, Next(s, mainFirst, frame)).Some? && Carries(s.watch, frame)
    ensures Carries(Step(s, Next(s, mainFirst, frame)).value.watch, frame)
  {
    hide C.DecodeFrame, Matches;
  }

  lemma JoinedCounts(s: State, active: bool, applied: nat, frame: Option<seq<C.Byte>>)
    requires Inv(s) && s.main.Joined? && InStep(s, active, applied) && Carries(s.watch, frame)
    ensures s.watch.Ended? && s.watch.result.raw == frame
    ensures applied == multiset(s.marks)[StopSent] && (applied == 1 <==> s.watch.result.stopApplied)
  {
    hide C.DecodeFrame, Matches;
  }

  lemma StartRuns(announced: int, frame: Option<seq<C.Byte>>)
    ensures Run(Init(announced), []) == Some(Init(announced)) && InStep(Init(announced), false, 0) && Carries(Reading, frame)
  {
  }
}
