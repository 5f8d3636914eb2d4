/** The parent's closed collector of import events. */
module Collect {
  import opened Common
  import opened Held
  import I = Inventory
  import P = Pressure

  type Row = P.Row

  datatype Effects = Effects(fds: seq<int>, childrenAvailable: bool)

  datatype Root = Pglast | PydanticCore | Cryptography | Yaml

  datatype Entry = Entry(name: string, kind: string, path: string)

  datatype ImportFailure = ImportMemory | ImportRefused | ImportOther

  datatype AuditCategory = FORBIDDEN | OUTSIDE_ORIGIN | UNOWNED_TOP | FILELESS_UNATTRIBUTED | AUDIT_OTHER

  datatype CheckCategory =
    | SOCKET_FD | CHILD | FD_SET_CHANGED | THREADS | PSYCOPG_IMPL | NATIVE_MISSING | CHECK_OTHER

  type Native = map<Root, seq<string>>

  /** One line of the import stage; Foreign is any object of another shape. */
  datatype Event =
    | BaselineRow(entry: Entry)
    | Start(stage: int)
    | ModuleRow(stage: int, entry: Entry)
    | End(stage: int, vm: Vm, fds: Effects)
    | Verified(native: Native, binary: bool)
    | ImportError(stage: int, failure: ImportFailure)
    | AuditError(stage: int, audited: Option<string>, category: AuditCategory, hasFile: Option<bool>, underInstalled: Option<bool>)
    | CheckError(stage: int, check: CheckCategory, root: Option<Root>)
    | Foreign

  // ---------------------------------------------------------------- checks on values

  predicate ValidEffects(e: Effects) {
    && |e.fds| == 4 && (forall i :: 0 <= i < 4 ==> 0 <= e.fds[i] <= 63)
    && e.fds[..3] == [0, 1, 2] && e.fds[3] >= 3
  }

  function RowAt(stage: int, entry: Entry): Row { P.Row(stage, entry.name, entry.kind, entry.path) }

  predicate NameChar(c: char) { 'a' <= c <= 'z' || 'A' <= c <= 'Z' || '0' <= c <= '9' || c == '_' || c == '.' }

  predicate ValidModuleName(name: string) {
    1 <= |name| <= 200 && forall i :: 0 <= i < |name| ==> NameChar(name[i])
  }

  /** The one module whose object is never looked at. */
  const SLOT := "_openssl.lib"

  predicate ValidAuditError(e: Event, stage: int)
    requires e.AuditError?
  {
    && e.stage == stage && -1 <= stage <= 2
    && (e.audited.Some? ==> ValidModuleName(e.audited.value))
    && if e.audited == Some(SLOT) then e.hasFile.None? && e.underInstalled.None?
       else e.hasFile.Some? && e.underInstalled.Some? && (e.underInstalled.value ==> e.hasFile.value)
  }

  predicate ValidCheckError(e: Event, stage: int)
    requires e.CheckError?
  {
    e.stage == stage && -1 <= stage <= 3 && (e.check.NATIVE_MISSING? <==> e.root.Some?)
  }

  function RootName(root: Root): string {
    match root
    case Pglast => "pglast"
    case PydanticCore => "pydantic_core"
    case Cryptography => "cryptography"
    case Yaml => "yaml"
  }

  predicate UnderRoot(root: Root, name: string) { name == RootName(root) || RootName(root) + "." <= name }

  predicate InstalledObject(path: string) {
    "installed/" <= path && |path| >= 3 && path[|path| - 3..] == ".so"
  }

  predicate Distinct(names: seq<string>) { forall i, j :: 0 <= i < j < |names| ==> names[i] != names[j] }

  predicate AuditedObject(rows: seq<Row>, name: string) {
    exists i :: 0 <= i < |rows| && rows[i].name == name && InstalledObject(rows[i].path)
  }

  predicate NativeMatches(native: Native, rows: seq<Row>) {
    forall root :: root in native
      && native[root] != [] && |native[root]| <= I.MAX_ROWS && Distinct(native[root])
      && forall k :: 0 <= k < |native[root]| ==> UnderRoot(root, native[root][k]) && AuditedObject(rows, native[root][k])
  }

  // ---------------------------------------------------------------- the collector, as a function

  datatype CollectorState = COLLECTING | VERIFIED | FAILED

  datatype CollectFailure = MemoryFailure | RefusedFailure | OtherFailure | AuditFailure | CheckFailure | ProtocolFailure

  datatype Collector = Collector(
    state: CollectorState, stage: int, active: Option<int>, rows: seq<Row>, names: set<string>,
    fds: Option<Effects>, failure: Option<CollectFailure>, expectedExit: Option<int>)

  function Opening(): Collector { Collector(COLLECTING, 0, None, [], {}, None, None, None) }

  /** Any exception ends the collection; the first failure keeps its name. */
  function Close(c: Collector): Collector {
    if c.state.FAILED? then c.(rows := [])
    else c.(state := FAILED, rows := [], failure := Some(ProtocolFailure), expectedExit := Some(77))
  }

  function Failed(c: Collector, failure: CollectFailure, exit: int): Collector {
    c.(state := FAILED, rows := [], failure := Some(failure), expectedExit := Some(exit))
  }

  /** The stage a failure reported now has to name. */
  function FailureStage(c: Collector): int {
    if c.active.Some? then c.active.value else if c.stage == 0 then -1 else 3
  }

  function AddRow(c: Collector, row: Row): Option<Collector> {
    if I.ValidRow(row) && row.name !in c.names && |c.rows| < I.MAX_ROWS
    then Some(c.(names := c.names + {row.name}, rows := c.rows + [row]))
    else None
  }

  /** The collector after an event it accepts; None where it refuses. */
  function Accept(c: Collector, e: Event): Option<Collector> {
    if !c.state.COLLECTING? then None
    else
      match e
      case BaselineRow(entry) => if c.active.None? && c.stage == 0 then AddRow(c, RowAt(-1, entry)) else None
      case Start(stage) =>
        if c.active.None? && c.stage < 3 && c.rows != [] && stage == c.stage then Some(c.(active := Some(stage))) else None
      case ModuleRow(stage, entry) => if c.active == Some(stage) then AddRow(c, RowAt(stage, entry)) else None
      case End(stage, vm, fds) =>
        if c.active == Some(stage) && ValidVm(vm) && ValidEffects(fds) && (c.fds.Some? ==> fds == c.fds.value)
        then Some(c.(fds := Some(fds), stage := c.stage + 1, active := None))
        else None
      case Verified(native, binary) =>
        if c.stage == 3 && c.active.None? && binary && NativeMatches(native, c.rows)
        then Some(c.(state := VERIFIED, expectedExit := Some(0)))
        else None
      case _ => None
  }

  function FailureExit(f: ImportFailure): int {
    match f case ImportMemory => 72 case ImportRefused => 73 case ImportOther => 74
  }

  function FailureName(f: ImportFailure): CollectFailure {
    match f case ImportMemory => MemoryFailure case ImportRefused => RefusedFailure case ImportOther => OtherFailure
  }

  /** A reported failure that is well formed at this point. */
  function NamedFailure(c: Collector, e: Event): Option<Collector> {
    if !c.state.COLLECTING? then None
    else
      match e
      case ImportError(stage, f) => if c.active == Some(stage) then Some(Failed(c, FailureName(f), FailureExit(f))) else None
      case AuditError(_, _, _, _, _) => if ValidAuditError(e, FailureStage(c)) then Some(Failed(c, AuditFailure, 75)) else None
      case CheckError(_, _, _) => if ValidCheckError(e, FailureStage(c)) then Some(Failed(c, CheckFailure, 76)) else None
      case _ => None
  }

  function Feed(c: Collector, e: Event): Collector {
    if Accept(c, e).Some? then Accept(c, e).value
    else if NamedFailure(c, e).Some? then NamedFailure(c, e).value
    else Close(c)
  }

  function FeedAll(events: seq<Event>): Collector {
    if events == [] then Opening() else Feed(FeedAll(events[..|events| - 1]), events[|events| - 1])
  }

  // ---------------------------------------------------------------- what any stream keeps

  predicate NamesOf(rows: seq<Row>, names: set<string>) {
    && (forall i :: 0 <= i < |rows| ==> rows[i].name in names)
    && (forall i, j :: 0 <= i < j < |rows| ==> rows[i].name != rows[j].name)
  }

  predicate StagesOf(rows: seq<Row>, last: int) {
    && (forall i :: 0 <= i < |rows| ==> -1 <= rows[i].stage <= last)
    && (forall i, j :: 0 <= i < j < |rows| ==> rows[i].stage <= rows[j].stage)
  }

  predicate Valid(c: Collector) {
    && 0 <= c.stage <= 3 && |c.rows| <= I.MAX_ROWS
    && (c.active.Some? ==> c.active.value == c.stage < 3)
    && NamesOf(c.rows, c.names)
    && StagesOf(c.rows, if c.active.Some? then c.stage else c.stage - 1)
    && (forall i :: 0 <= i < |c.rows| ==> I.ValidRow(c.rows[i]))
    && (c.stage > 0 && !c.state.FAILED? ==> c.fds.Some?) && (c.fds.Some? ==> ValidEffects(c.fds.value))
    && match c.state
       case COLLECTING => c.expectedExit.None? && c.failure.None?
       case VERIFIED => c.expectedExit == Some(0) && c.stage == 3 && c.active.None?
       case FAILED => c.rows == [] && c.failure.Some? && c.expectedExit.Some? && c.expectedExit.value in {72, 73, 74, 75, 76, 77}
  }

  lemma FeedKeeps(c: Collector, e: Event)
    requires Valid(c)
    ensures Valid(Feed(c, e))
  {
    hide ValidModuleName, NativeMatches, InstalledObject, ValidEffects;
  }

  function Ends(events: seq<Event>): nat {
    if events == [] then 0 else Ends(events[..|events| - 1]) + if events[|events| - 1].End? then 1 else 0
  }

  /**
    Whatever the stream: the rows kept have distinct names and stages that never go back, and
    success takes exactly the three ends of the three stages.
  */
  lemma {:induction false} StreamKeeps(events: seq<Event>)
    ensures Valid(FeedAll(events))
    ensures !FeedAll(events).state.FAILED? ==> Ends(events) == FeedAll(events).stage
    ensures FeedAll(events).expectedExit == Some(0) <==> FeedAll(events).state.VERIFIED?
    ensures FeedAll(events).state.VERIFIED? ==> Ends(events) == 3
  {
    hide Valid, Accept, NamedFailure, Feed;
    if events == [] {
      OpeningValid();
    } else {
      var before := events[..|events| - 1];
      StreamKeeps(before);
      FeedKeeps(FeedAll(before), events[|events| - 1]);
      FeedStage(FeedAll(before), events[|events| - 1]);
    }
    ValidExit(FeedAll(events));
  }

  lemma OpeningValid()
    ensures Valid(Opening()) && Opening().stage == 0 && Opening().state.COLLECTING?
  {
  }

  lemma ValidExit(c: Collector)
    requires Valid(c)
    ensures c.expectedExit == Some(0) <==> c.state.VERIFIED?
    ensures 0 <= c.stage <= 3 && (c.state.VERIFIED? ==> c.stage == 3)
  {
  }

  lemma FeedStage(c: Collector, e: Event)
    ensures !Feed(c, e).state.FAILED? ==> Feed(c, e).stage == c.stage + (if e.End? then 1 else 0) && !c.state.FAILED?
  {
    hide ValidModuleName, NativeMatches, ValidEffects, I.ValidRow, ValidVm, ValidAuditError, ValidCheckError;
  }

  /** What is still to come; every accepted event but the last takes some of it. */
  function Left(c: Collector): int {
    2 * (3 - c.stage) - (if c.active.Some? then 1 else 0) + (I.MAX_ROWS - |c.rows|)
  }

  lemma FeedShrinks(c: Collector, e: Event)
    requires Valid(c)
    ensures Left(c) >= 0
    ensures Feed(c, e).state.COLLECTING? ==> 0 <= Left(Feed(c, e)) < Left(c)
  {
    FeedKeeps(c, e);
    hide ValidModuleName, NativeMatches, ValidEffects, I.ValidRow, ValidVm, NamesOf, StagesOf;
  }

  // ---------------------------------------------------------------- the collector as an object

  class ImportCollector {
    var state: CollectorState
    var stage: int
    var active: Option<int>
    var rows: seq<Row>
    var names: set<string>
    var fds: Option<Effects>
    var failure: Option<CollectFailure>
    var expectedExit: Option<int>

    ghost function State(): Collector
      reads this
    {
      Collector(state, stage, active, rows, names, fds, failure, expectedExit)
    }

    constructor ()
      ensures State() == Opening()
    {
      state, stage, active, rows, names := COLLECTING, 0, None, [], {};
      fds, failure, expectedExit := None, None, None;
    }

    method Append(row: Row) returns (ok: bool)
      modifies this
      ensures ok <==> AddRow(old(State()), row).Some?
      ensures State() == if ok then AddRow(old(State()), row).value else old(State())
    {
      if !I.ValidRow(row) || row.name in names || |rows| >= I.MAX_ROWS {
        return false;
      }
      names := names + {row.name};
      rows := rows + [row];
      return true;
    }

    /** A reported failure names itself and its exit code before it raises. */
    method NameFailure(e: Event)
      requires state.COLLECTING? && (e.ImportError? || e.AuditError? || e.CheckError?)
      modifies this
      ensures match NamedFailure(old(State()), e)
        case Some(c) => State() == c.(rows := old(rows))
        case None => State() == old(State())
    {
      var now := if active.Some? then active.value else if stage == 0 then -1 else 3;
      if e.ImportError? {
        if active != Some(e.stage) {
          return;
        }
        failure, expectedExit := Some(FailureName(e.failure)), Some(FailureExit(e.failure));
      } else if e.AuditError? && ValidAuditError(e, now) {
        failure, expectedExit := Some(AuditFailure), Some(75);
      } else if e.CheckError? && ValidCheckError(e, now) {
        failure, expectedExit := Some(CheckFailure), Some(76);
      } else {
        return;
      }
      state := FAILED;
    }

    /** The body the guard wraps: true when it returns normally. */
    method Digest(e: Event) returns (ok: bool)
      modifies this
      ensures ok <==> Accept(old(State()), e).Some?
      ensures ok ==> State() == Accept(old(State()), e).value
      ensures !ok ==> State() == match NamedFailure(old(State()), e)
        case Some(c) => c.(rows := old(rows))
        case None => old(State())
    {
      hide I.ValidRow, ValidEffects, NativeMatches, ValidAuditError, ValidCheckError;
      if !state.COLLECTING? {
        return false;
      }
      match e
      case ImportError(_, _) => NameFailure(e); return false;
      case AuditError(_, _, _, _, _) => NameFailure(e); return false;
      case CheckError(_, _, _) => NameFailure(e); return false;
      case BaselineRow(entry) =>
        if !(active.None? && stage == 0) {
          return false;
        }
        ok := Append(RowAt(-1, entry));
      case Start(k) =>
        if !(active.None? && stage < 3 && rows != [] && k == stage) {
          return false;
        }
        active := Some(stage);
        return true;
      case ModuleRow(k, entry) =>
        if active != Some(k) {
          return false;
        }
        ok := Append(RowAt(k, entry));
      case End(k, vm, seen) =>
        if !(active == Some(k) && ValidVm(vm) && ValidEffects(seen)) || (fds.Some? && seen != fds.value) {
          return false;
        }
        fds := Some(seen);
        stage, active := stage + 1, None;
        return true;
      case Verified(native, binary) =>
        if !(stage == 3 && active.None? && binary && NativeMatches(native, rows)) {
          return false;
        }
        state, expectedExit := VERIFIED, Some(0);
        return true;
      case Foreign => return false;
    }

    /** One event; a refusal ends the collection and drops its rows. */
    method Take(e: Event) returns (verified: Result<bool, ()>)
      modifies this
      ensures State() == Feed(old(State()), e)
      ensures verified.Ok? <==> Accept(old(State()), e).Some?
      ensures verified.Ok? ==> verified.value == state.VERIFIED?
    {
      hide Accept, NamedFailure;
      ReportedFails(State(), e);
      var ok := Digest(e);
      if ok {
        return Ok(state.VERIFIED?);
      }
      if !state.FAILED? {
        failure, expectedExit := Some(ProtocolFailure), Some(77);
      }
      state := FAILED;
      rows := [];
      return Err(());
    }
  }

  lemma ReportedFails(c: Collector, e: Event)
    ensures NamedFailure(c, e).Some? ==> NamedFailure(c, e).value.state.FAILED? && NamedFailure(c, e).value.rows == [] && c.state.COLLECTING?
  {
  }
}
