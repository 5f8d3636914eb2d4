/** The HELD report: its fields, the relations between them and its one-line text. Bytes are ASCII characters. */
module Held {
  import opened Common
  import D = Decimal
  import J = Json

  const MIB := 1024 * 1024
  const STEP := 4 * MIB
  const TARGET := 40 * MIB
  const PAGE := 4096
  const LINE_MAX := 1024
  const LIMIT50 := 0x4_0000_0000_0000

  datatype Vm = Vm(size: int, peak: int, rss: int, threads: int)

  datatype Kind = Private | Shared

  datatype Failure = NONE | MEMORY | ENOMEM | OTHER

  /** Soft and hard address-space limits; -1 is unlimited. */
  datatype Limits = Limits(soft: int, hard: int)

  datatype Held = Held(kind: Kind, limits: Limits, vm: Vm, accepted: int, pages: int, blocks: int,
                       failure: Failure, errno: Option<int>)

  predicate ValidVm(vm: Vm) {
    && 0 <= vm.size <= LIMIT50 && 0 <= vm.peak <= LIMIT50 && 0 <= vm.rss <= LIMIT50
    && vm.threads == 1 && 0 < vm.size <= vm.peak && vm.rss <= vm.size
  }

  predicate ValidSample(vm: Vm, limits: Limits) {
    ValidVm(vm) && -1 <= limits.soft <= LIMIT50 && -1 <= limits.hard <= LIMIT50
  }

  predicate FailureMatches(failure: Failure, errno: Option<int>) {
    && (errno.Some? ==> 1 <= errno.value <= 4095)
    && (failure.NONE? || failure.MEMORY? ==> errno.None?)
    && (failure.ENOMEM? ==> errno == Some(12))
  }

  /** What the printer admits. */
  predicate Encodable(limits: Limits, vm: Vm, blocks: int, failure: Failure, errno: Option<int>) {
    && ValidSample(vm, limits) && 0 <= blocks <= 10
    && FailureMatches(failure, errno)
    && (!failure.NONE? ==> blocks != 10)
  }

  // ---------------------------------------------------------------- the fixed text

  function KindText(kind: Kind): string { if kind.Private? then "\"private\"" else "\"shared\"" }

  function FailureText(failure: Failure): string {
    match failure
    case NONE => "\"NONE\""
    case MEMORY => "\"MEMORY\""
    case ENOMEM => "\"ENOMEM\""
    case OTHER => "\"OTHER\""
  }

  function ErrnoText(errno: Option<int>): string {
    if errno.None? then "null" else J.IntText(errno.value)
  }

  datatype Label =
    | LKind | LLimits | LComma | LVm | LSize | LPeak | LRss | LThreads
    | LAccepted | LPages | LBlocks | LFailure | LErrno | LEnd

  /** The literal pieces of the report, in the order they are written. */
  function LabelText(l: Label): string {
    match l
    case LKind => "{\"phase\":\"held\",\"kind\":"
    case LLimits => ",\"limits\":["
    case LComma => ","
    case LVm => "],\"vm\":{"
    case LSize => "\"size\":"
    case LPeak => ",\"peak\":"
    case LRss => ",\"rss\":"
    case LThreads => ",\"threads\":"
    case LAccepted => "},\"accepted_bytes\":"
    case LPages => ",\"touched_pages\":"
    case LBlocks => ",\"blocks\":"
    case LFailure => ",\"failure\":"
    case LErrno => ",\"errno\":"
    case LEnd => "}\n"
  }

  lemma LabelLength(l: Label)
    ensures |LabelText(l)| <= 23
  {
  }

  lemma WordLength(kind: Kind, failure: Failure)
    ensures |KindText(kind)| <= 9 && |FailureText(failure)| <= 8
  {
  }

  function FieldText(l: Label, value: int): string { LabelText(l) + J.IntText(value) }

  function HeadText(kind: Kind, limits: Limits): string {
    LabelText(LKind) + KindText(kind) + FieldText(LLimits, limits.soft) + FieldText(LComma, limits.hard)
  }

  function VmText(vm: Vm): string {
    (LabelText(LVm) + FieldText(LSize, vm.size) + FieldText(LPeak, vm.peak))
      + (FieldText(LRss, vm.rss) + FieldText(LThreads, vm.threads))
  }

  function CountsText(blocks: int): string {
    FieldText(LAccepted, blocks * STEP) + FieldText(LPages, blocks * (STEP / PAGE)) + FieldText(LBlocks, blocks)
  }

  function TailText(failure: Failure, errno: Option<int>): string {
    LabelText(LFailure) + FailureText(failure) + LabelText(LErrno) + ErrnoText(errno) + LabelText(LEnd)
  }

  function HeldText(kind: Kind, limits: Limits, vm: Vm, blocks: int, failure: Failure, errno: Option<int>): string {
    HeadText(kind, limits) + VmText(vm) + CountsText(blocks) + TailText(failure, errno)
  }

  lemma IntTextLength(i: int)
    requires -1 <= i <= LIMIT50
    ensures 1 <= |J.IntText(i)| <= 16
  {
    assert D.Pow10(8) == 100000000;
    assert D.Pow10(16) == 10000000000000000;
    D.TextLength(if i < 0 then -i else i, if i < 0 then 1 else 16);
  }
}
