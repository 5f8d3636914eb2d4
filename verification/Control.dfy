/** The laboratory control frame and the pure order of the host conversation. */
module Control {
  import opened Common

  const GO := 1
  const STOP := 2
  const NOSTOP := 3
  const ACK := 4
  const CASES := 25
  const MAX_HOST_FRAMES := 50
  const T4_CASE := 23
  const T5_CASE := 24
  const T6_CASE := 25
  const PREFIX_CASES := 24

  // ---------------------------------------------------------------- the sixteen-byte frame

  type Byte = b: int | 0 <= b < 256

  datatype Control = Control(kind: int, kase: int, seqno: int)

  predicate ValidControl(c: Control) {
    GO <= c.kind <= ACK && 1 <= c.kase <= CASES && 1 <= c.seqno <= MAX_HOST_FRAMES
  }

  function Big(bytes: seq<int>): int {
    if bytes == [] then 0 else 256 * Big(bytes[..|bytes| - 1]) + bytes[|bytes| - 1]
  }

  /** `>4sBBHII`: magic, version 1, kind, case, sequence number, reserved zero. */
  function DecodeFrame(f: seq<Byte>): Option<Control> {
    if |f| == 16 && f[..4] == [77, 71, 76, 49] && f[4] == 1 && Big(f[12..16]) == 0
       && ValidControl(Control(f[5], Big(f[6..8]), Big(f[8..12])))
    then Some(Control(f[5], Big(f[6..8]), Big(f[8..12])))
    else None
  }

  function EncodeFrame(c: Control): seq<Byte>
    requires ValidControl(c)
  {
    [77, 71, 76, 49, 1, c.kind, 0, c.kase, 0, 0, 0, c.seqno, 0, 0, 0, 0]
  }

  lemma BigSmall(f: seq<int>)
    ensures |f| == 2 ==> Big(f) == 256 * f[0] + f[1]
    ensures |f| == 4 ==> Big(f) == 16777216 * f[0] + 65536 * f[1] + 256 * f[2] + f[3]
  {
    if |f| == 2 {
      assert f[..1][..0] == [];
      assert Big(f[..1]) == f[0];
    }
    if |f| == 4 {
      assert f[..3][..2] == f[..2] && f[..2][..1] == f[..1] && f[..1][..0] == [];
      assert Big(f[..1]) == f[0];
      assert Big(f[..2]) == 256 * f[0] + f[1];
      assert Big(f[..3]) == 65536 * f[0] + 256 * f[1] + f[2];
    }
  }

  /** Each admitted control has exactly one admitted frame. */
  lemma FrameIffControl(f: seq<Byte>, c: Control)
    ensures DecodeFrame(f) == Some(c) <==> ValidControl(c) && f == EncodeFrame(c)
  {
    if |f| == 16 {
      BigSmall(f[6..8]);
      BigSmall(f[8..12]);
      BigSmall(f[12..16]);
      assert f == f[..4] + [f[4], f[5]] + f[6..8] + f[8..12] + f[12..16];
    }
  }

  // ---------------------------------------------------------------- transitions

  datatype Phase = ReadyDue | GoDue | Running | Armed | Watch | Joined | AckDue | SummaryDue | Terminal

  datatype EventName = READY | RESULT | ARMED | Unknown

  datatype Machine = Machine(current: int, phase: Phase, watcher: bool, accepted: nat, aborted: bool, failed: seq<int>)

  datatype Call =
    | Emit(event: EventName, kase: int)
    | Accept(frame: seq<Byte>)
    | Handoff
    | Join(watched: Option<seq<Byte>>)
    | Summary
    | Eof

  datatype Category = CONTROL | PHASE

  datatype Reply =
    | NextSeq(next: nat)
    | Received(control: Control)
    | Report(prefix: int, failed: seq<int>, globalPass: bool)
    | Refusal(category: Category)

  function Init(): Machine { Machine(1, ReadyDue, false, 0, false, []) }

  predicate ArmedCase(c: int) { c == T4_CASE || c == T6_CASE }

  function Refuse(m: Machine, category: Category): (Machine, Reply) {
    (m.(aborted := true), Refusal(category))
  }

  function StepEmit(m: Machine, event: EventName, c: int): (Machine, Reply) {
    var own := c == m.current;
    if event.READY? && m.phase.ReadyDue? && own then
      (m.(phase := GoDue), NextSeq(m.accepted + 1))
    else if event.RESULT? && own && m.phase.Running? && !ArmedCase(c) then
      (m.(phase := AckDue), NextSeq(m.accepted + 1))
    else if event.RESULT? && own && m.phase.Joined? then
      (m.(phase := AckDue), NextSeq(m.accepted + 1))
    else if event.ARMED? && own && m.phase.Running? && ArmedCase(c) then
      (m.(phase := if c == T4_CASE then Armed else Terminal), NextSeq(m.accepted + 1))
    else
      Refuse(m, PHASE)
  }

  function StepAccept(m: Machine, frame: seq<Byte>): (Machine, Reply) {
    if m.watcher then Refuse(m, PHASE)
    else
      var control := DecodeFrame(frame);
      if control.None? then Refuse(m, CONTROL)
      else
        var due := if m.phase.GoDue? then GO else if m.phase.AckDue? then ACK else 0;
        if due == 0 || control.value != Control(due, m.current, m.accepted + 1) then Refuse(m, PHASE)
        else
          var got := m.(accepted := m.accepted + 1);
          var next :=
            if m.phase.GoDue? then got.(phase := Running)
            else if m.current == T5_CASE then got.(phase := SummaryDue)
            else got.(current := m.current + 1, phase := ReadyDue);
          (next, Received(control.value))
  }

  function StepJoin(m: Machine, frame: Option<seq<Byte>>): (Machine, Reply) {
    if !m.phase.Watch? || frame.None? then Refuse(m, PHASE)
    else
      var control := DecodeFrame(frame.value);
      if control.None? then Refuse(m, CONTROL)
      else if (control.value.kind != STOP && control.value.kind != NOSTOP)
              || control.value.kase != T4_CASE || control.value.seqno != m.accepted + 1
      then Refuse(m, PHASE)
      else
        var failed := if control.value.kind == NOSTOP then [T4_CASE] else m.failed;
        (m.(accepted := m.accepted + 1, watcher := false, phase := Joined, failed := failed), Received(control.value))
  }

  function Step(m: Machine, call: Call): (Machine, Reply) {
    if m.aborted then (m, Refusal(PHASE))
    else
      match call
      case Emit(event, c) => StepEmit(m, event, c)
      case Accept(frame) => StepAccept(m, frame)
      case Handoff =>
        if m.phase.Armed? && !m.watcher then (m.(watcher := true, phase := Watch), NextSeq(m.accepted + 1))
        else Refuse(m, PHASE)
      case Join(frame) => StepJoin(m, frame)
      case Summary =>
        if m.phase.SummaryDue? then (m.(current := T6_CASE, phase := ReadyDue), Report(PREFIX_CASES, m.failed, false))
        else Refuse(m, PHASE)
      case Eof => Refuse(m, PHASE)
  }

  class ControlMachine {
    var current: int
    var phase: Phase
    var watcher: bool
    var accepted: nat
    var aborted: bool
    var failed: seq<int>

    ghost function View(): Machine
      reads this
    {
      Machine(current, phase, watcher, accepted, aborted, failed)
    }

    constructor ()
      ensures View() == Init()
    {
      current, phase, watcher, accepted, aborted, failed := 1, ReadyDue, false, 0, false, [];
    }

    method Refused(category: Category) returns (r: Reply)
      modifies this`aborted
      ensures View() == old(View()).(aborted := true) && r == Refusal(category)
    {
      aborted := true;
      r := Refusal(category);
    }

    method Emit(event: EventName, c: int) returns (r: Reply)
      modifies this
      ensures (View(), r) == Step(old(View()), Call.Emit(event, c))
    {
      if aborted { return Refusal(PHASE); }
      var own := c == current;
      if event.READY? && phase.ReadyDue? && own {
        phase := GoDue;
      } else if event.RESULT? && own && phase.Running? && !ArmedCase(c) {
        phase := AckDue;
      } else if event.RESULT? && own && phase.Joined? {
        phase := AckDue;
      } else if event.ARMED? && own && phase.Running? && ArmedCase(c) {
        phase := if c == T4_CASE then Armed else Terminal;
      } else {
        r := Refused(PHASE);
        return;
      }
      r := NextSeq(accepted + 1);
    }

    method Accept(frame: seq<Byte>) returns (r: Reply)
      modifies this
      ensures (View(), r) == Step(old(View()), Call.Accept(frame))
    {
      if aborted { return Refusal(PHASE); }
      if watcher { r := Refused(PHASE); return; }
      var control := DecodeFrame(frame);
      if control.None? { r := Refused(CONTROL); return; }
      var due := if phase.GoDue? then GO else if phase.AckDue? then ACK else 0;
      if due == 0 || control.value != Control(due, current, accepted + 1) { r := Refused(PHASE); return; }
      accepted := accepted + 1;
      if phase.GoDue? {
        phase := Running;
      } else if current == T5_CASE {
        phase := SummaryDue;
      } else {
        current := current + 1;
        phase := ReadyDue;
      }
      r := Received(control.value);
    }

    method Handoff() returns (r: Reply)
      modifies this
      ensures (View(), r) == Step(old(View()), Call.Handoff)
    {
      if aborted { return Refusal(PHASE); }
      if !phase.Armed? || watcher { r := Refused(PHASE); return; }
      watcher := true;
      phase := Watch;
      r := NextSeq(accepted + 1);
    }

    method Join(frame: Option<seq<Byte>>) returns (r: Reply)
      modifies this
      ensures (View(), r) == Step(old(View()), Call.Join(frame))
    {
      if aborted { return Refusal(PHASE); }
      if !phase.Watch? || frame.None? { r := Refused(PHASE); return; }
      var control := DecodeFrame(frame.value);
      if control.None? { r := Refused(CONTROL); return; }
      var c := control.value;
      if (c.kind != STOP && c.kind != NOSTOP) || c.kase != T4_CASE || c.seqno != accepted + 1 {
        r := Refused(PHASE);
        return;
      }
      accepted := accepted + 1;
      watcher := false;
      phase := Joined;
      if c.kind == NOSTOP {
        failed := [T4_CASE];
      }
      r := Received(c);
    }

    method Summary() returns (r: Reply)
      modifies this
      ensures (View(), r) == Step(old(View()), Call.Summary)
    {
      if aborted { return Refusal(PHASE); }
      if !phase.SummaryDue? { r := Refused(PHASE); return; }
      current := T6_CASE;
      phase := ReadyDue;
      r := Report(PREFIX_CASES, failed, false);
    }

    method Eof() returns (r: Reply)
      modifies this
      ensures (View(), r) == Step(old(View()), Call.Eof)
    {
      if aborted { return Refusal(PHASE); }
      r := Refused(PHASE);
    }
  }

  // ---------------------------------------------------------------- the accepted language

  /** A refusal is sticky, and the machine never moves its counters on one. */
  lemma RefusalIsSticky(m: Machine, call: Call)
    ensures Step(m, call).1.Refusal? <==> Step(m, call).0.aborted
    ensures Step(m, call).0.aborted ==> Step(m, call).0 == m.(aborted := true)
    ensures m.aborted ==> Step(m, call) == (m, Refusal(PHASE))
  {
  }

  const WORD := 103

  /** Frame `seqno` of the host, in the case that awaits it. */
  function Frame(kind: int, c: int, seqno: int): seq<Byte>
    requires ValidControl(Control(kind, c, seqno))
  {
    EncodeFrame(Control(kind, c, seqno))
  }

  /** An ordinary case takes four calls: READY, GO, RESULT, ACK. */
  function Ordinary(c: int, firstSeq: int, k: nat): Call
    requires 1 <= c <= 24 && 1 <= firstSeq < 50 && k < 4
  {
    if k == 0 then Emit(READY, c)
    else if k == 1 then Accept(Frame(GO, c, firstSeq))
    else if k == 2 then Emit(RESULT, c)
    else Accept(Frame(ACK, c, firstSeq + 1))
  }

  /** The one conversation, up to the host's choice at case 23. */
  function CallAt(stop: bool, i: nat): Call
    requires i < WORD
  {
    if i < 88 then Ordinary(i / 4 + 1, i / 4 * 2 + 1, i % 4)
    else if i == 88 then Emit(READY, 23)
    else if i == 89 then Accept(Frame(GO, 23, 45))
    else if i == 90 then Emit(ARMED, 23)
    else if i == 91 then Handoff
    else if i == 92 then Join(Some(Frame(if stop then STOP else NOSTOP, 23, 46)))
    else if i == 93 then Emit(RESULT, 23)
    else if i == 94 then Accept(Frame(ACK, 23, 47))
    else if i < 99 then Ordinary(24, 48, i - 95)
    else if i == 99 then Summary
    else if i == 100 then Emit(READY, 25)
    else if i == 101 then Accept(Frame(GO, 25, 50))
    else Emit(ARMED, 25)
  }

  function OrdinaryPhase(k: nat): Phase
    requires k < 4
  {
    if k == 0 then ReadyDue else if k == 1 then GoDue else if k == 2 then Running else AckDue
  }

  /** The machine after i calls of the conversation. */
  function StateAt(stop: bool, i: nat): Machine
    requires i <= WORD
  {
    var failed := if stop || i <= 92 then [] else [T4_CASE];
    if i < 88 then Machine(i / 4 + 1, OrdinaryPhase(i % 4), false, i / 4 * 2 + (if i % 4 < 2 then 0 else 1), false, failed)
    else if i == 88 then Machine(23, ReadyDue, false, 44, false, failed)
    else if i == 89 then Machine(23, GoDue, false, 44, false, failed)
    else if i == 90 then Machine(23, Running, false, 45, false, failed)
    else if i == 91 then Machine(23, Armed, false, 45, false, failed)
    else if i == 92 then Machine(23, Watch, true, 45, false, failed)
    else if i == 93 then Machine(23, Joined, false, 46, false, failed)
    else if i == 94 then Machine(23, AckDue, false, 46, false, failed)
    else if i < 99 then Machine(24, OrdinaryPhase(i - 95), false, if i < 97 then 47 else 48, false, failed)
    else if i == 99 then Machine(24, SummaryDue, false, 49, false, failed)
    else if i == 100 then Machine(25, ReadyDue, false, 49, false, failed)
    else if i == 101 then Machine(25, GoDue, false, 49, false, failed)
    else if i == 102 then Machine(25, Running, false, 50, false, failed)
    else Machine(25, Terminal, false, 50, false, failed)
  }

  lemma AcceptOnly(m: Machine, frame: seq<Byte>, due: int)
    requires !m.aborted && !m.watcher && 1 <= m.current <= CASES && m.accepted < MAX_HOST_FRAMES
    requires due == if m.phase.GoDue? then GO else if m.phase.AckDue? then ACK else 0
    ensures Step(m, Accept(frame)).0.aborted <==> (due == 0 || frame != Frame(due, m.current, m.accepted + 1))
  {
    if due != 0 {
      FrameIffControl(frame, Control(due, m.current, m.accepted + 1));
    }
  }

  lemma JoinOnly(m: Machine, frame: seq<Byte>)
    requires !m.aborted && m.phase.Watch? && m.accepted < MAX_HOST_FRAMES
    ensures !Step(m, Join(Some(frame))).0.aborted <==>
      (frame == Frame(STOP, T4_CASE, m.accepted + 1) || frame == Frame(NOSTOP, T4_CASE, m.accepted + 1))
    ensures frame == Frame(NOSTOP, T4_CASE, m.accepted + 1) ==> Step(m, Join(Some(frame))).0.failed == [T4_CASE]
    ensures frame == Frame(STOP, T4_CASE, m.accepted + 1) ==> Step(m, Join(Some(frame))).0.failed == m.failed
  {
    FrameIffControl(frame, Control(STOP, T4_CASE, m.accepted + 1));
    FrameIffControl(frame, Control(NOSTOP, T4_CASE, m.accepted + 1));
  }

  /** At every point of the conversation one call is accepted (two at the watcher's frame). */
  lemma OnlyNextCall(stop: bool, i: nat, call: Call)
    requires i <= WORD
    ensures !Step(StateAt(stop, i), call).0.aborted <==>
      i < WORD && (call == CallAt(stop, i) || (i == 92 && call == CallAt(!stop, i)))
    ensures i < WORD && call == CallAt(stop, i) ==> Step(StateAt(stop, i), call).0 == StateAt(stop, i + 1)
  {
    hide DecodeFrame, EncodeFrame;
    if call.Accept? {
      OnlyNextFrame(stop, i, call.frame);
    } else {
      OnlyNextOther(stop, i, call);
    }
  }

  lemma OnlyNextFrame(stop: bool, i: nat, frame: seq<Byte>)
    requires i <= WORD
    ensures !Step(StateAt(stop, i), Accept(frame)).0.aborted <==> i < WORD && Accept(frame) == CallAt(stop, i)
    ensures i < WORD && Accept(frame) == CallAt(stop, i) ==> Step(StateAt(stop, i), Accept(frame)).0 == StateAt(stop, i + 1)
  {
    hide DecodeFrame, EncodeFrame;
    var m := StateAt(stop, i);
    if m.accepted < MAX_HOST_FRAMES && !m.watcher {
      AcceptOnly(m, frame, if m.phase.GoDue? then GO else if m.phase.AckDue? then ACK else 0);
    }
  }

  lemma OnlyNextOther(stop: bool, i: nat, call: Call)
    requires i <= WORD && !call.Accept?
    ensures !Step(StateAt(stop, i), call).0.aborted <==>
      i < WORD && (call == CallAt(stop, i) || (i == 92 && call == CallAt(!stop, i)))
    ensures i < WORD && call == CallAt(stop, i) ==> Step(StateAt(stop, i), call).0 == StateAt(stop, i + 1)
  {
    hide DecodeFrame, EncodeFrame;
    var m := StateAt(stop, i);
    if call.Join? && call.watched.Some? && m.phase.Watch? {
      JoinOnly(m, call.watched.value);
    }
  }

  function After(m: Machine, calls: seq<Call>): Machine
    decreases |calls|
  {
    if calls == [] then m else Step(After(m, calls[..|calls| - 1]), calls[|calls| - 1]).0
  }

  predicate IsPrefix(stop: bool, calls: seq<Call>) {
    |calls| <= WORD && forall i :: 0 <= i < |calls| ==> calls[i] == CallAt(stop, i)
  }

  lemma StartState()
    ensures StateAt(true, 0) == Init() && StateAt(false, 0) == Init()
  {
  }

  /** The two conversations agree up to the watcher's frame. */
  lemma SameBeforeWatch(calls: seq<Call>)
    requires |calls| <= 92
    ensures IsPrefix(true, calls) <==> IsPrefix(false, calls)
  {
    assert forall i :: 0 <= i < 92 ==> CallAt(true, i) == CallAt(false, i);
  }

  /** The accepted call sequences are exactly the prefixes of the two conversations. */
  lemma {:induction false} Language(calls: seq<Call>)
    ensures !After(Init(), calls).aborted <==> IsPrefix(true, calls) || IsPrefix(false, calls)
    ensures forall stop :: IsPrefix(stop, calls) ==> After(Init(), calls) == StateAt(stop, |calls|)
    decreases |calls|
  {
    hide CallAt, StateAt, Step;
    assert StateAt(true, 0) == Init() && StateAt(false, 0) == Init() by { StartState(); }
    if calls != [] {
      var n := |calls| - 1;
      var init, last := calls[..n], calls[n];
      Language(init);
      var m := After(Init(), init);
      RefusalIsSticky(m, last);
      forall stop | n < WORD
        ensures IsPrefix(stop, calls) <==> IsPrefix(stop, init) && last == CallAt(stop, n)
      {
        assert calls == init + [last];
      }
      forall stop | IsPrefix(stop, init)
        ensures IsPrefix(stop, calls) ==> After(Init(), calls) == StateAt(stop, |calls|)
        ensures !After(Init(), calls).aborted <==> n < WORD && (IsPrefix(stop, calls) || (n == 92 && last == CallAt(!stop, n)))
      {
        OnlyNextCall(stop, n, last);
      }
      if n == 92 {
        SameBeforeWatch(init);
      }
    }
  }

  /** Accepted host frames as a function of where the conversation stands. */
  function AcceptedOf(c: int, phase: Phase): int {
    if c <= 22 then 2 * (c - 1) + (if phase.Running? || phase.AckDue? then 1 else 0)
    else if c == 23 then 44 + (if phase.ReadyDue? || phase.GoDue? then 0 else if phase.Joined? || phase.AckDue? then 2 else 1)
    else if c == 24 then 47 + (if phase.ReadyDue? || phase.GoDue? then 0 else if phase.SummaryDue? then 2 else 1)
    else 49 + (if phase.ReadyDue? || phase.GoDue? then 0 else 1)
  }

  predicate Consistent(m: Machine) {
    && 1 <= m.current <= CASES
    && m.accepted == AcceptedOf(m.current, m.phase)
    && m.accepted <= MAX_HOST_FRAMES
    && (m.watcher <==> m.phase.Watch?)
  }

  lemma PointConsistent(stop: bool, i: nat)
    requires i <= WORD
    ensures Consistent(StateAt(stop, i))
  {
  }

  /** For every call sequence whatever: the counters depend on case and phase only, and the watcher reads in WATCH only. */
  lemma {:induction false} AlwaysConsistent(calls: seq<Call>)
    ensures Consistent(After(Init(), calls))
    decreases |calls|
  {
    hide StateAt, Step, CallAt;
    if calls != [] {
      var init := calls[..|calls| - 1];
      AlwaysConsistent(init);
      RefusalIsSticky(After(Init(), init), calls[|calls| - 1]);
      Language(calls);
      if IsPrefix(true, calls) {
        PointConsistent(true, |calls|);
      } else if IsPrefix(false, calls) {
        PointConsistent(false, |calls|);
      }
    }
  }
}
