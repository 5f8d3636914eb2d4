/**
  The member and the parent side by side, joined by two pipes. The member follows its own loop
  over the kinds of its case and may die at any moment; the parent follows its supervision and
  may give up at any moment. Readings, facts and pipe timing are arbitrary.
*/
module Lockstep {
  import opened Common
  import opened Held
  import opened Pressure
  import HeldDecoder

  datatype Line =
    | ReadyLine | ImportLine | VerifiedLine | FailureLine | LoadedLine
    | HeldLine(kind: Kind, raw: string) | ReleasedLine(kind: Kind) | DoneLine

  datatype Member =
    | Starting | AwaitGo | Importing | ImportFailed | Loading
    | AwaitPress(round: nat) | Pressing(round: nat) | AwaitRelease(round: nat) | Releasing(round: nat)
    | AwaitFinish | Finishing | Ended

  datatype Parent =
    | WaitReady | SendGo | Collecting | WaitLoaded | Admit | SendPress | WaitHeld | GiveRelease | WaitReleased
    | CheckRelease | Sampling | GiveFinish | WaitDone | WaitEof | Settle | Closed | Stopped

  datatype System = System(member: Member, alive: bool, parent: Parent, core: Core,
                           toMember: seq<Command>, toParent: seq<Line>, issued: seq<Command>)

  // ---------------------------------------------------------------- the member

  function Kinds(c: Case): seq<Kind> {
    if c.Control? then [Private, Shared] else [FirstKind(c)]
  }

  /** The command a member is blocked on, if any. */
  function Awaited(c: Case, m: Member): Option<Command> {
    match m
    case AwaitGo => Some(GoImports)
    case AwaitPress(r) => if r < |Kinds(c)| then Some(Press(Kinds(c)[r])) else None
    case AwaitRelease(r) => if r < |Kinds(c)| then Some(Release(Kinds(c)[r])) else None
    case AwaitFinish => Some(Finish)
    case _ => None
  }

  function Resumed(m: Member): Member {
    match m
    case AwaitGo => Importing
    case AwaitPress(r) => Pressing(r)
    case AwaitRelease(r) => Releasing(r)
    case AwaitFinish => Finishing
    case _ => m
  }

  /** The member after writing this line, where its program may write it. */
  function Wrote(c: Case, m: Member, line: Line): Option<Member> {
    match m
    case Starting => if line.ReadyLine? then Some(AwaitGo) else None
    case Importing =>
      if line.ImportLine? then Some(Importing)
      else if line.VerifiedLine? then Some(Loading)
      else if line.FailureLine? then Some(ImportFailed)
      else None
    case Loading => if line.LoadedLine? then Some(AwaitPress(0)) else None
    case Pressing(r) =>
      if r < |Kinds(c)| && line.HeldLine? && line.kind == Kinds(c)[r] then Some(AwaitRelease(r)) else None
    case Releasing(r) =>
      if r < |Kinds(c)| && line == ReleasedLine(Kinds(c)[r])
      then Some(if r + 1 < |Kinds(c)| then AwaitPress(r + 1) else AwaitFinish)
      else None
    case Finishing => if line.DoneLine? then Some(Ended) else None
    case _ => None
  }

  /** How many commands a member has taken. */
  function Taken(c: Case, m: Member): nat {
    match m
    case Starting => 0
    case AwaitGo => 0
    case Importing => 1
    case ImportFailed => 1
    case Loading => 1
    case AwaitPress(r) => 1 + 2 * r
    case Pressing(r) => 2 + 2 * r
    case AwaitRelease(r) => 2 + 2 * r
    case Releasing(r) => 3 + 2 * r
    case AwaitFinish => |Word(c)| - 1
    case Finishing => |Word(c)|
    case Ended => |Word(c)|
  }

  // ---------------------------------------------------------------- moves

  datatype Action =
    | Write(line: Line)
    | Take
    | Die
    | Read(now: Reading)
    | Perform(call: Call)
    | GiveUp

  function Stop(s: System): System { s.(parent := Stopped) }

  /** A line, or the end of the stream when the member is dead. */
  function ReadLine(s: System, now: Reading): Option<System> {
    if s.toParent == [] then
      if s.alive then None
      else if s.parent.WaitEof? then Some(s.(parent := Settle))
      else Some(Stop(s))
    else
      var line, rest := s.toParent[0], s.(toParent := s.toParent[1..]);
      Some(match s.parent
           case WaitReady => if line.ReadyLine? then rest.(parent := SendGo) else Stop(rest)
           case Collecting =>
             if line.ImportLine? then rest else if line.VerifiedLine? then rest.(parent := WaitLoaded) else Stop(rest)
           case WaitLoaded => if line.LoadedLine? then rest.(parent := Admit) else Stop(rest)
           case WaitHeld =>
             if !line.HeldLine? then Stop(rest)
             else
               var t := Do(s.core, ReportHeld(now, line.raw));
               if t.reply.Ok? then rest.(core := t.core, parent := GiveRelease) else Stop(rest.(core := t.core))
           case WaitReleased => if line == ReleasedLine(s.core.kind) then rest.(parent := CheckRelease) else Stop(rest)
           case WaitDone => if line.DoneLine? then rest.(parent := WaitEof) else Stop(rest)
           case _ => Stop(rest))
  }

  predicate Reads(p: Parent) {
    p.WaitReady? || p.Collecting? || p.WaitLoaded? || p.WaitHeld? || p.WaitReleased? || p.WaitDone? || p.WaitEof?
  }

  /** The core call each point of the supervision makes. */
  predicate Makes(p: Parent, call: Call) {
    match p
    case SendGo => call.Ready?
    case Admit => call.AdmitImports?
    case SendPress => call.Pressure?
    case GiveRelease => call.SendRelease?
    case CheckRelease => call.Released?
    case Sampling => call.ReleaseWait? || call.ReleaseSample?
    case GiveFinish => call.SendFinish?
    case Settle => call.Completed?
    case _ => false
  }

  /** Where the supervision goes on after a call that succeeded. */
  function After(p: Parent, call: Call, core: Core): Parent {
    match p
    case SendGo => Collecting
    case Admit => SendPress
    case SendPress => WaitHeld
    case GiveRelease => WaitReleased
    case GiveFinish => WaitDone
    case Settle => Closed
    case _ =>
      if call.ReleaseWait? then p
      else if core.phase.ADMITTED? then SendPress
      else if core.phase.FINISH_READY? then GiveFinish
      else Sampling
  }

  /** One call; a command is sent only over a quiet pipe. */
  function MakeCall(s: System, call: Call): System {
    var t := Do(s.core, call);
    var sent := Sent(t.reply);
    var u := s.(core := t.core);
    if t.reply.Err? then Stop(u)
    else if sent != [] && s.toParent != [] then Stop(u)
    else u.(parent := After(s.parent, call, t.core), toMember := s.toMember + sent, issued := s.issued + sent)
  }

  /** One move, where it is enabled. */
  function Move(s: System, a: Action): Option<System> {
    match a
    case Write(line) =>
      if s.alive && Wrote(s.core.case_, s.member, line).Some?
      then Some(s.(member := Wrote(s.core.case_, s.member, line).value, toParent := s.toParent + [line]))
      else None
    case Take =>
      if !s.alive || s.toMember == [] || Awaited(s.core.case_, s.member).None? then None
      else if [Awaited(s.core.case_, s.member).value] == s.toMember
      then Some(s.(member := Resumed(s.member), toMember := []))
      else Some(s.(alive := false))
    case Die => if s.alive then Some(s.(alive := false)) else None
    case Read(now) => if Reads(s.parent) then ReadLine(s, now) else None
    case Perform(call) => if Makes(s.parent, call) then Some(MakeCall(s, call)) else None
    case GiveUp => if Live(s) then Some(Stop(s)) else None
  }

  predicate Live(s: System) { !s.parent.Stopped? && !s.parent.Closed? }

  function Begin(core: Core): System { System(Starting, true, WaitReady, core, [], [], []) }

  // ---------------------------------------------------------------- what holds after any moves

  function Round(core: Core): nat { if core.case_.Control? && core.kind.Shared? then 1 else 0 }

  /** Any number of import lines, then these. */
  predicate Pending(lines: seq<Line>, tail: seq<Line>) {
    && |tail| <= |lines| && lines[|lines| - |tail|..] == tail
    && forall i :: 0 <= i < |lines| - |tail| ==> lines[i].ImportLine?
  }

  /** Where the member is, and what is under way to the parent, at each point of a live supervision. */
  predicate Synced(p: Parent, core: Core, m: Member, lines: seq<Line>) {
    var r := Round(core);
    var next := if r + 1 < |Kinds(core.case_)| then AwaitPress(r + 1) else AwaitFinish;
    match p
    case WaitReady => core.phase.READY? && ((m.Starting? && lines == []) || (m.AwaitGo? && lines == [ReadyLine]))
    case SendGo => core.phase.READY? && m.AwaitGo? && lines == []
    case Collecting => core.phase.IMPORTING? && r == 0 &&
      (match m
       case AwaitGo => lines == []
       case Importing => Pending(lines, [])
       case ImportFailed => Pending(lines, [FailureLine])
       case Loading => Pending(lines, [VerifiedLine])
       case AwaitPress(k) => k == 0 && Pending(lines, [VerifiedLine, LoadedLine])
       case _ => false)
    case WaitLoaded => core.phase.IMPORTING? && r == 0 && ((m.Loading? && lines == []) || (m == AwaitPress(0) && lines == [LoadedLine]))
    case Admit => core.phase.IMPORTING? && r == 0 && m == AwaitPress(0) && lines == []
    case SendPress => core.phase.ADMITTED? && m == AwaitPress(r) && lines == []
    case WaitHeld => core.phase.PRESSURING? &&
      (((m == AwaitPress(r) || m == Pressing(r)) && lines == [])
       || (m == AwaitRelease(r) && |lines| == 1 && lines[0].HeldLine? && lines[0].kind == core.kind))
    case GiveRelease => core.phase.HELD? && m == AwaitRelease(r) && lines == []
    case WaitReleased => core.phase.RELEASE_SENT? &&
      (((m == AwaitRelease(r) || m == Releasing(r)) && lines == []) || (m == next && lines == [ReleasedLine(core.kind)]))
    case CheckRelease => core.phase.RELEASE_SENT? && m == next && lines == []
    case Sampling => core.phase.RELEASE_CHECK? && m == next && lines == []
    case GiveFinish => core.phase.FINISH_READY? && m.AwaitFinish? && lines == []
    case WaitDone => core.phase.EXITING? && (((m.AwaitFinish? || m.Finishing?) && lines == []) || (m.Ended? && lines == [DoneLine]))
    case WaitEof => core.phase.EXITING? && m.Ended? && lines == []
    case Settle => core.phase.EXITING? && m.Ended? && lines == []
    case Closed => core.phase.DONE? && m.Ended? && lines == []
    case Stopped => true
  }

  predicate InRounds(c: Case, m: Member) {
    m.AwaitPress? || m.Pressing? || m.AwaitRelease? || m.Releasing? ==> m.round < |Kinds(c)|
  }

  /** The commands issued, taken and under way. */
  predicate Counted(s: System) {
    var c := s.core.case_;
    && Valid(s.core) && InRounds(c, s.member)
    && s.issued <= Word(c)
    && Taken(c, s.member) <= |s.issued| <= Taken(c, s.member) + 1
    && s.toMember == s.issued[Taken(c, s.member)..]
    && (s.toMember != [] ==> Awaited(c, s.member).Some?)
    && (!s.parent.Stopped? ==> |s.issued| == Position(s.core))
  }

  predicate Inv(s: System) { Counted(s) && Synced(s.parent, s.core, s.member, s.toParent) }

  /** A member is always blocked on the next command of its case's word. */
  lemma AwaitsWord(c: Case, m: Member)
    requires Awaited(c, m).Some?
    ensures Taken(c, m) < |Word(c)| && Awaited(c, m).value == Word(c)[Taken(c, m)]
    ensures Taken(c, Resumed(m)) == Taken(c, m) + 1 && InRounds(c, Resumed(m)) && Awaited(c, Resumed(m)).None?
  {
  }

  lemma BeginHolds(core: Core)
    requires Valid(core) && core.phase.READY?
    ensures Inv(Begin(core))
  {
  }

  lemma WriteKeeps(s: System, line: Line)
    requires Inv(s) && s.alive && Wrote(s.core.case_, s.member, line).Some?
    ensures Inv(Move(s, Write(line)).value)
  {
    hide Valid, Position, Word;
    WroteTaken(s.core.case_, s.member, line);
    var t := Move(s, Write(line)).value;
    assert s.toMember == [];
    WriteSynced(s, line);
  }

  lemma WroteTaken(c: Case, m: Member, line: Line)
    requires Wrote(c, m, line).Some? && InRounds(c, m)
    ensures Taken(c, Wrote(c, m, line).value) == Taken(c, m) && InRounds(c, Wrote(c, m, line).value)
    ensures Awaited(c, m).None?
  {
  }

  lemma WriteSynced(s: System, line: Line)
    requires Valid(s.core) && Synced(s.parent, s.core, s.member, s.toParent) && InRounds(s.core.case_, s.member)
    requires Wrote(s.core.case_, s.member, line).Some?
    ensures Synced(s.parent, s.core, Wrote(s.core.case_, s.member, line).value, s.toParent + [line])
  {
    hide Valid;
    RoundInKinds(s.core);
  }

  /** The kind of the core is the kind of its round. */
  lemma RoundInKinds(core: Core)
    requires Valid(core)
    ensures !core.phase.ABORTED? ==> Round(core) < |Kinds(core.case_)| && Kinds(core.case_)[Round(core)] == core.kind
    ensures core.phase.FINISH_READY? || core.phase.EXITING? || core.phase.DONE? ==> Round(core) + 1 == |Kinds(core.case_)|
    ensures core.phase.RELEASE_CHECK? ==> Round(core) == 0 && |Kinds(core.case_)| == 2
  {
    hide Basic, Shown, Digested;
  }

  lemma TakeKeeps(s: System)
    requires Inv(s) && Move(s, Take).Some?
    ensures Inv(Move(s, Take).value) && Move(s, Take).value.alive
  {
    hide Valid, Position, Word;
    AwaitsWord(s.core.case_, s.member);
    assert s.toMember == [Word(s.core.case_)[Taken(s.core.case_, s.member)]];
    TakeSynced(s);
  }

  lemma TakeSynced(s: System)
    requires Valid(s.core) && Synced(s.parent, s.core, s.member, s.toParent) && Awaited(s.core.case_, s.member).Some?
    requires !s.parent.Stopped? ==> Position(s.core) == Taken(s.core.case_, s.member) + 1
    ensures Synced(s.parent, s.core, Resumed(s.member), s.toParent)
  {
    RoundInKinds(s.core);
    hide Valid;
  }

  lemma ReadKeeps(s: System, now: Reading)
    requires Inv(s) && Move(s, Read(now)).Some?
    ensures Inv(Move(s, Read(now)).value)
  {
    hide Valid, Word, Do, Synced, Position, Taken, Awaited, Pending;
    if s.toParent == [] {
      EofSynced(s.core, s.member, s.parent);
    } else if s.parent.WaitHeld? && s.toParent[0].HeldLine? {
      HeldReadKeeps(s, now);
    } else {
      ReadSynced(s.parent, s.core, s.member, s.toParent);
    }
  }

  lemma EofSynced(core: Core, m: Member, p: Parent)
    ensures Synced(Stopped, core, m, [])
    ensures p.WaitEof? && Synced(p, core, m, []) ==> Synced(Settle, core, m, [])
  {
  }

  /** What the first line under way can be at each reading point, and what is left after it. */
  lemma ReadSynced(p: Parent, core: Core, m: Member, lines: seq<Line>)
    requires Synced(p, core, m, lines) && lines != [] && Reads(p)
    ensures Synced(Stopped, core, m, lines[1..])
    ensures p.WaitReady? ==> lines[0].ReadyLine? && Synced(SendGo, core, m, lines[1..])
    ensures p.Collecting? ==> lines[0].ImportLine? || lines[0].VerifiedLine? || lines[0].FailureLine?
    ensures p.Collecting? && lines[0].ImportLine? ==> Synced(Collecting, core, m, lines[1..])
    ensures p.Collecting? && lines[0].VerifiedLine? ==> Synced(WaitLoaded, core, m, lines[1..])
    ensures p.WaitLoaded? ==> lines[0].LoadedLine? && Synced(Admit, core, m, lines[1..])
    ensures p.WaitHeld? ==> lines[0].HeldLine? && lines[0].kind == core.kind && lines[1..] == []
    ensures p.WaitReleased? ==> lines[0] == ReleasedLine(core.kind) && Synced(CheckRelease, core, m, lines[1..])
    ensures p.WaitDone? ==> lines[0].DoneLine? && Synced(WaitEof, core, m, lines[1..])
    ensures !p.WaitEof?
  {
    hide Pending;
    if p.Collecting? {
      CollectSynced(core, m, lines);
    }
  }

  lemma CollectSynced(core: Core, m: Member, lines: seq<Line>)
    requires Synced(Collecting, core, m, lines) && lines != []
    ensures lines[0].ImportLine? || lines[0].VerifiedLine? || lines[0].FailureLine?
    ensures lines[0].ImportLine? ==> Synced(Collecting, core, m, lines[1..])
    ensures lines[0].VerifiedLine? ==> Synced(WaitLoaded, core, m, lines[1..])
  {
    match m
    case Importing => PendingRest(lines, []);
    case ImportFailed => PendingRest(lines, [FailureLine]);
    case Loading => PendingRest(lines, [VerifiedLine]);
    case AwaitPress(_) => PendingRest(lines, [VerifiedLine, LoadedLine]);
    case _ =>
  }

  lemma PendingRest(lines: seq<Line>, tail: seq<Line>)
    requires Pending(lines, tail) && lines != []
    ensures |tail| < |lines| ==> Pending(lines[1..], tail) && lines[0].ImportLine?
    ensures |tail| == |lines| ==> lines == tail
  {
  }

  lemma HeldReadKeeps(s: System, now: Reading)
    requires Inv(s) && s.parent.WaitHeld? && s.toParent != [] && s.toParent[0].HeldLine?
    ensures Inv(Move(s, Read(now)).value)
  {
    var call := ReportHeld(now, s.toParent[0].raw);
    StepKeeps(s.core, call);
    HeldReply(s.core, call);
    HeldSynced(s.core, Do(s.core, call).core, s.member, s.toParent);
    hide Valid, Word, Do, Synced, Position, Taken, Awaited;
  }

  lemma HeldSynced(core: Core, next: Core, m: Member, lines: seq<Line>)
    requires Synced(WaitHeld, core, m, lines) && lines != []
    requires next.case_ == core.case_ && next.kind == core.kind
    ensures Synced(Stopped, next, m, lines[1..])
    ensures next.phase.HELD? ==> Synced(GiveRelease, next, m, lines[1..])
  {
  }

  lemma HeldReply(c: Core, call: Call)
    requires call.ReportHeld?
    ensures var d := Do(c, call).core;
      d.kind == c.kind && d.case_ == c.case_ && (Do(c, call).reply.Ok? ==> c.phase.PRESSURING? && d.phase.HELD? && Position(d) == Position(c))
  {
    hide HeldDecoder.DecodeHeld, Judge;
  }

  lemma CallKeeps(s: System, call: Call)
    requires Inv(s) && Makes(s.parent, call)
    ensures Inv(MakeCall(s, call))
  {
    hide Valid, Do, Synced, MakeCall;
    CallSynced(s, call);
    CallCounted(s, call);
    hide Counted;
  }

  lemma CallCounted(s: System, call: Call)
    requires Inv(s) && Makes(s.parent, call)
    ensures Counted(MakeCall(s, call))
  {
    StepKeeps(s.core, call);
    CallReply(s.core, call);
    var t := Do(s.core, call);
    if t.reply.Ok? && t.reply.value.Send? {
      SendPoint(s.parent, s.core, s.member, s.toParent, call);
    }
    hide Valid, Word, Do, Synced, Position, Kinds, Taken, Awaited, Makes;
    if t.reply.Ok? {
      assert s.issued == Word(s.core.case_)[..Position(s.core)];
      assert s.issued + Sent(t.reply) == Word(s.core.case_)[..Position(t.core)];
    }
  }

  /** Where a command is sent, the member has taken all earlier ones and waits for the next. */
  lemma SendPoint(p: Parent, core: Core, m: Member, lines: seq<Line>, call: Call)
    requires Valid(core) && Makes(p, call) && Synced(p, core, m, lines)
    requires call.Ready? || call.Pressure? || call.SendRelease? || call.SendFinish?
    ensures lines == [] && Awaited(core.case_, m).Some? && Taken(core.case_, m) == Position(core)
  {
    RoundInKinds(core);
    hide Valid, Pending;
  }

  /** The phase and kind a successful call leads to. */
  predicate Leads(c: Core, call: Call, d: Core) {
    var same := d.kind == c.kind;
    match call
    case Ready(_, _, _, _, _) => d.phase.IMPORTING? && same
    case AdmitImports(_, _, _, _, _) => d.phase.ADMITTED? && same
    case Pressure(_, _, _) => d.phase.PRESSURING? && same
    case ReportHeld(_, _) => d.phase.HELD? && same
    case SendRelease(_, _, _, _, _) => d.phase.RELEASE_SENT? && same
    case ReleaseWait(_) => d.phase == c.phase && same
    case SendFinish(_) => d.phase.EXITING? && same
    case Completed(_, _, _, _, _, _) => d.phase.DONE? && same
    case ControlDigest(_) => d.phase == c.phase && same
    case _ =>
      if !c.case_.Control? || c.kind.Shared? then d.phase.FINISH_READY? && same
      else (d.phase.RELEASE_CHECK? && same) || (d.phase.ADMITTED? && d.kind.Shared?)
  }

  lemma CallReply(c: Core, call: Call)
    ensures var t := Do(c, call);
      && t.core.case_ == c.case_
      && (t.reply.Ok? ==> c.phase == Home(call) && Leads(c, call, t.core))
      && (t.reply.Ok? ==> (t.reply.value.Send? <==> call.Ready? || call.Pressure? || call.SendRelease? || call.SendFinish?))
  {
    hide HeldDecoder.DecodeHeld, Judge, Facts;
  }

  lemma CallSynced(s: System, call: Call)
    requires Valid(s.core) && Makes(s.parent, call) && Synced(s.parent, s.core, s.member, s.toParent)
    ensures var t := MakeCall(s, call); Synced(t.parent, t.core, t.member, t.toParent)
  {
    CallsOverQuiet(s.parent, s.core, s.member, s.toParent, call);
    CallReply(s.core, call);
    var t := Do(s.core, call);
    if t.reply.Ok? {
      PhaseSynced(s.parent, s.core, t.core, call, s.member);
    }
    hide Valid, Do, Pending, Makes, After;
    assert Synced(Stopped, t.core, s.member, s.toParent);
    hide Synced;
  }

  lemma CallsOverQuiet(p: Parent, core: Core, m: Member, lines: seq<Line>, call: Call)
    requires Makes(p, call) && Synced(p, core, m, lines)
    ensures lines == []
  {
    hide Pending;
  }

  /** The member stays put while the parent moves on. */
  lemma PhaseSynced(p: Parent, core: Core, next: Core, call: Call, m: Member)
    requires Valid(core) && Makes(p, call) && Synced(p, core, m, [])
    requires Do(core, call).reply.Ok? && next == Do(core, call).core
    ensures Synced(After(p, call, next), next, m, [])
  {
    CallReply(core, call);
    RoundInKinds(core);
    hide Valid, Do, Pending;
  }

  /** One move of either side keeps everything. */
  lemma MoveKeeps(s: System, a: Action)
    requires Inv(s) && Move(s, a).Some?
    ensures Inv(Move(s, a).value)
  {
    hide Synced, Valid, Do, ReadLine, MakeCall, Wrote, Position;
    match a
    case Write(line) => WriteKeeps(s, line);
    case Take => TakeKeeps(s);
    case Read(now) => ReadKeeps(s, now);
    case Perform(call) => CallKeeps(s, call);
    case _ => StopKeeps(s);
  }

  lemma StopKeeps(s: System)
    requires Inv(s)
    ensures Inv(Stop(s)) && Inv(s.(alive := false))
  {
    hide Valid, Word;
  }

  /** The state after these moves, as long as each is enabled. */
  function Moves(s: System, actions: seq<Action>): Option<System>
    decreases |actions|
  {
    if actions == [] then Some(s)
    else if Move(s, actions[0]).None? then None
    else Moves(Move(s, actions[0]).value, actions[1..])
  }

  lemma {:induction false} MovesKeep(s: System, actions: seq<Action>)
    requires Inv(s) && Moves(s, actions).Some?
    ensures Inv(Moves(s, actions).value)
    decreases |actions|
  {
    hide Inv, Move;
    if actions != [] {
      MoveKeeps(s, actions[0]);
      MovesKeep(Move(s, actions[0]).value, actions[1..]);
    }
  }

  /**
    After any moves from the start: the commands issued are a prefix of the commands the member
    awaits in its case, at most one ahead of those it has taken, and all of them once it closes.
  */
  lemma CommandsInStep(core: Core, actions: seq<Action>)
    requires Valid(core) && core.phase.READY? && Moves(Begin(core), actions).Some?
    ensures var s := Moves(Begin(core), actions).value;
      && s.issued <= Word(s.core.case_)
      && Taken(s.core.case_, s.member) <= |s.issued| <= Taken(s.core.case_, s.member) + 1
      && s.toMember == s.issued[Taken(s.core.case_, s.member)..]
      && (s.parent.Closed? ==> s.issued == Word(s.core.case_) && s.core.phase.DONE? && s.member.Ended?)
  {
    BeginHolds(core);
    MovesKeep(Begin(core), actions);
    var s := Moves(Begin(core), actions).value;
    hide Moves, Begin, Valid;
    ClosedIsDone(s);
  }

  lemma ClosedIsDone(s: System)
    requires Inv(s)
    ensures s.parent.Closed? ==> s.issued == Word(s.core.case_) && s.core.phase.DONE? && s.member.Ended?
  {
    hide Valid;
  }

  /** A live pair never has both sides blocked on the other. */
  lemma NeverBothWait(core: Core, actions: seq<Action>)
    requires Valid(core) && core.phase.READY? && Moves(Begin(core), actions).Some?
    ensures var s := Moves(Begin(core), actions).value;
      !(Live(s) && s.alive && Reads(s.parent) && s.toParent == []
        && Awaited(s.core.case_, s.member).Some? && s.toMember == [])
  {
    BeginHolds(core);
    MovesKeep(Begin(core), actions);
    var s := Moves(Begin(core), actions).value;
    hide Moves, Begin, Valid;
    if Live(s) && Reads(s.parent) && s.toParent == [] && Awaited(s.core.case_, s.member).Some? {
      ReaderIsOwed(s);
    }
  }

  lemma ReaderIsOwed(s: System)
    requires Inv(s) && Reads(s.parent) && s.toParent == [] && Awaited(s.core.case_, s.member).Some?
    ensures s.toMember != []
  {
    RoundInKinds(s.core);
    hide Valid;
  }

  /** Sending over a pipe that must be quiet never trips over a line of an honest member. */
  lemma QuietNeverRefuses(core: Core, actions: seq<Action>, call: Call)
    requires Valid(core) && core.phase.READY? && Moves(Begin(core), actions).Some?
    requires var s := Moves(Begin(core), actions).value;
      Makes(s.parent, call) && Do(s.core, call).reply.Ok? && Do(s.core, call).reply.value.Send?
    ensures var s := Moves(Begin(core), actions).value;
      s.toParent == [] && s.toMember == [] && Awaited(s.core.case_, s.member) == Some(Do(s.core, call).reply.value.command)
  {
    BeginHolds(core);
    MovesKeep(Begin(core), actions);
    SendIsAwaited(Moves(Begin(core), actions).value, call);
  }

  lemma SendIsAwaited(s: System, call: Call)
    requires Inv(s) && Makes(s.parent, call) && Do(s.core, call).reply.Ok? && Do(s.core, call).reply.value.Send?
    ensures s.toParent == [] && s.toMember == []
    ensures Awaited(s.core.case_, s.member) == Some(Do(s.core, call).reply.value.command)
  {
    StepKeeps(s.core, call);
    CallReply(s.core, call);
    CallsSend(s.parent, call);
    SendPoint(s.parent, s.core, s.member, s.toParent, call);
    AwaitsWord(s.core.case_, s.member);
    hide Valid, Do, Synced, Word, Position, Taken, Awaited, Makes;
  }

  lemma CallsSend(p: Parent, call: Call)
    requires Makes(p, call)
    ensures !p.Stopped?
  {
  }

  /** A member that takes a command takes the one it expects. */
  lemma TakeNeverRefuses(core: Core, actions: seq<Action>)
    requires Valid(core) && core.phase.READY? && Moves(Begin(core), actions).Some?
    requires Move(Moves(Begin(core), actions).value, Take).Some?
    ensures var s := Moves(Begin(core), actions).value;
      s.toMember == [Awaited(s.core.case_, s.member).value] && Move(s, Take).value.alive
  {
    BeginHolds(core);
    MovesKeep(Begin(core), actions);
    var s := Moves(Begin(core), actions).value;
    hide Moves, Begin, Valid, Synced;
    AwaitsWord(s.core.case_, s.member);
  }

  /** A report an honest member prints is refused only for what it says, never as malformed or of the wrong kind. */
  lemma HonestReport(c: Core, now: Reading, limits: Limits, vm: Vm, blocks: int, failure: Failure, errno: Option<int>)
    requires c.phase.PRESSURING? && Encodable(limits, vm, blocks, failure, errno)
    ensures var reply := Do(c, ReportHeld(now, HeldText(c.kind, limits, vm, blocks, failure, errno))).reply;
      && reply != Err(SCHEMA) && reply != Err(STATE)
      && (reply.Ok? <==> Tick(c, now).Ok? && Convinces(c.case_, limits, vm, blocks, failure))
  {
    HeldDecoder.RoundTrip(c.kind, limits, vm, blocks, failure, errno);
    HonestJudged(c, limits, vm, blocks, failure, errno);
    hide HeldText, HeldDecoder.DecodeHeld, Judge, Encodable, Convinces;
    var t := Tick(c, now);
    if t.Ok? {
      SameJudge(c, t.value, HeldDecoder.Reported(c.kind, limits, vm, blocks, failure, errno));
    }
  }

  lemma SameJudge(c: Core, d: Core, h: Held)
    requires d.case_ == c.case_ && d.kind == c.kind
    ensures Judge(d, h) == Judge(c, h)
  {
    hide Facts;
  }

  /** What a report has to say in each case. */
  predicate Convinces(c: Case, limits: Limits, vm: Vm, blocks: int, failure: Failure) {
    && limits == ExpectedLimits(c)
    && if c.Control? then blocks == 10 else vm.peak <= AS_BYTES && (failure.MEMORY? || failure.ENOMEM?) && blocks >= 1
  }

  lemma HonestJudged(c: Core, limits: Limits, vm: Vm, blocks: int, failure: Failure, errno: Option<int>)
    requires Encodable(limits, vm, blocks, failure, errno)
    ensures var refused := Judge(c, HeldDecoder.Reported(c.kind, limits, vm, blocks, failure, errno));
      && refused != Some(SCHEMA) && refused != Some(STATE)
      && (refused.None? <==> Convinces(c.case_, limits, vm, blocks, failure))
  {
    hide ValidVm, FailureMatches;
  }
}
