/**
  The member's import stage, which writes the events: what it looks at, the exit code that decides,
  and the collector that is fed with what it writes.
*/
module Imports {
  import opened Common
  import opened Held
  import opened Collect
  import I = Inventory
  import Paths

  /** A probe answers, or raises a named fault or anything else. */
  datatype Probe<+T> = Answer(value: T) | Fault(check: CheckCategory, root: Option<Root>) | Strange

  /** One module audited: its row, or the category and what was seen of its file. */
  datatype Audit = Owned(entry: Entry) | Refused(category: AuditCategory, hasFile: bool, underInstalled: bool)

  /** One entry of the descriptor directory; its own descriptor is gone by the time it is looked at. */
  datatype Link = Gone | Unreadable | Socket | Target

  datatype Descriptor = Descriptor(number: int, link: Link)

  datatype Children = Absent | Closed | Listed(raw: string)

  datatype Descriptors = Descriptors(links: Option<seq<Descriptor>>, children: Children)

  /**
    Everything the member's import stage looks at, at stages -1 to 3. A module without a file has
    the empty one; where a path does not resolve, a sample fails or the last check raises
    something of its own there is None. Modules without a file, and the closed names, have
    whatever row or refusal `other` says.
  */
  datatype World = World(
    modules: int -> set<string>,
    after: set<string>,
    file: (int, string) -> string,
    resolve: string -> Option<string>,
    owner: string -> Option<string>,
    other: (int, string) -> Audit,
    imports: int -> Option<ImportFailure>,
    sample: int -> Option<Vm>,
    descriptors: int -> Descriptors,
    binary: Option<bool>)

  // ---------------------------------------------------------------- the two checks

  predicate Stops(d: Descriptor) { d.link.Socket? || d.link.Unreadable? }

  function FirstObstacle(links: seq<Descriptor>): (r: Option<Link>)
    ensures r.None? <==> forall i :: 0 <= i < |links| ==> !Stops(links[i])
    ensures r.Some? ==> r.value.Socket? || r.value.Unreadable?
  {
    if links == [] then None else if Stops(links[0]) then Some(links[0].link) else FirstObstacle(links[1..])
  }

  function Open(links: seq<Descriptor>): seq<int> {
    if links == [] then []
    else Open(links[..|links| - 1]) + if links[|links| - 1].link.Gone? then [] else [links[|links| - 1].number]
  }

  predicate Blank(raw: string) {
    forall i :: 0 <= i < |raw| ==> 9 <= raw[i] as int <= 13 || 28 <= raw[i] as int <= 32
  }

  /** What the member finds of its own descriptors and children; the first obstacle decides. */
  function Found(d: Descriptors): Probe<Effects> {
    if d.links.None? then Strange
    else
      match FirstObstacle(d.links.value)
      case Some(obstacle) => if obstacle.Socket? then Fault(SOCKET_FD, None) else Strange
      case None =>
        match d.children
        case Absent => Answer(Effects(Open(d.links.value), false))
        case Closed => Strange
        case Listed(raw) => if Blank(raw) then Answer(Effects(Open(d.links.value), true)) else Fault(CHILD, None)
  }

  /** Only an open socket, a child or something unreadable stands in the way; a fault never names a root. */
  lemma FoundIff(d: Descriptors)
    ensures Found(d).Answer? <==>
      d.links.Some? && (forall i :: 0 <= i < |d.links.value| ==> !Stops(d.links.value[i]))
      && !d.children.Closed? && (d.children.Listed? ==> Blank(d.children.raw))
    ensures Named(Found(d))
  {
  }

  method LookAtSelf(d: Descriptors) returns (p: Probe<Effects>)
    ensures p == Found(d)
  {
    if d.links.None? {
      return Strange;
    }
    var links := d.links.value;
    var fds := [];
    for i := 0 to |links|
      invariant fds == Open(links[..i]) && FirstObstacle(links) == FirstObstacle(links[i..])
    {
      assert links[..i + 1][..i] == links[..i] && links[i..][1..] == links[i + 1..];
      if links[i].link.Gone? {
        continue;
      }
      if links[i].link.Unreadable? {
        return Strange;
      }
      if links[i].link.Socket? {
        return Fault(SOCKET_FD, None);
      }
      fds := fds + [links[i].number];
    }
    assert links[..|links|] == links;
    if d.children.Closed? {
      return Strange;
    }
    if d.children.Listed? && !Blank(d.children.raw) {
      return Fault(CHILD, None);
    }
    return Answer(Effects(fds, d.children.Listed?));
  }

  predicate NativeFile(path: string) { "/installed/" <= path && path[|path| - 3..] == ".so" }

  /** The modules of a root with a native file, by name and file alone. */
  function Objects(w: World, root: Root): set<string> {
    set name | name in w.after && UnderRoot(root, name) && NativeFile(w.file(3, name))
  }

  const NATIVE_ROOTS: seq<Root> := [Pglast, PydanticCore, Cryptography, Yaml]

  /** The roots are looked at in order; the first without an object is the one that is named. */
  ghost predicate NativeIs(w: World, p: Probe<Native>) {
    match p
    case Strange => w.binary.None?
    case Fault(check, root) =>
      if w.binary == Some(false) then check.PSYCOPG_IMPL? && root.None?
      else w.binary.Some? && check.NATIVE_MISSING? && exists i :: FirstMissing(w, i) && root == Some(NATIVE_ROOTS[i])
    case Answer(native) =>
      w.binary == Some(true) && forall root :: Reported(w, native, root)
  }

  predicate FirstMissing(w: World, i: int) {
    0 <= i < 4 && Objects(w, NATIVE_ROOTS[i]) == {} && forall j :: 0 <= j < i ==> Objects(w, NATIVE_ROOTS[j]) != {}
  }

  ghost predicate Reported(w: World, native: Native, root: Root) {
    root in native && native[root] != [] && Lists(native[root], Objects(w, root))
  }

  ghost predicate Lists(names: seq<string>, all: set<string>) {
    Distinct(names) && forall name :: name in names <==> name in all
  }

  method NamesUnder(w: World, root: Root) returns (names: seq<string>)
    ensures Lists(names, Objects(w, root))
  {
    names := [];
    var rest := w.after;
    while rest != {}
      invariant rest <= w.after && Lists(names, Objects(w, root) - rest)
      decreases rest
    {
      var name :| name in rest;
      rest := rest - {name};
      if UnderRoot(root, name) && NativeFile(w.file(3, name)) {
        names := names + [name];
      }
    }
  }

  method NativeCheck(w: World) returns (p: Probe<Native>)
    ensures NativeIs(w, p)
  {
    if w.binary.None? {
      return Strange;
    }
    if !w.binary.value {
      return Fault(PSYCOPG_IMPL, None);
    }
    var native: Native := map[];
    for i := 0 to 4
      invariant forall j :: 0 <= j < i ==> Reported(w, native, NATIVE_ROOTS[j])
    {
      hide Objects;
      var names := NamesUnder(w, NATIVE_ROOTS[i]);
      if names == [] {
        NothingListed(Objects(w, NATIVE_ROOTS[i]));
        forall j | 0 <= j < i ensures Objects(w, NATIVE_ROOTS[j]) != {} {
          SomethingListed(native[NATIVE_ROOTS[j]], Objects(w, NATIVE_ROOTS[j]));
        }
        return Fault(NATIVE_MISSING, Some(NATIVE_ROOTS[i]));
      }
      native := native[NATIVE_ROOTS[i] := names];
    }
    forall root: Root ensures Reported(w, native, root) {
      RootListed(root);
    }
    return Answer(native);
  }

  lemma NothingListed(all: set<string>)
    requires Lists([], all)
    ensures all == {}
  {
    assert forall name :: name in all ==> name in [];
  }

  lemma SomethingListed(names: seq<string>, all: set<string>)
    requires Lists(names, all) && names != []
    ensures all != {}
  {
    assert names[0] in names;
  }

  lemma RootListed(root: Root)
    ensures exists i :: 0 <= i < 4 && NATIVE_ROOTS[i] == root
  {
    assert NATIVE_ROOTS[0] == Pglast && NATIVE_ROOTS[1] == PydanticCore && NATIVE_ROOTS[2] == Cryptography && NATIVE_ROOTS[3] == Yaml;
  }

  /** A fault the collector understands: a missing native module names its root, nothing else does. */
  predicate Named<T>(p: Probe<T>) { p.Fault? ==> (p.check.NATIVE_MISSING? <==> p.root.Some?) }

  // ---------------------------------------------------------------- the audit of one module

  const FORBIDDEN_ROOTS: seq<string> :=
    ["mcp", "fastapi", "starlette", "uvicorn", "anyio", "scramp", "asn1crypto", "maskgw.admin", "maskgw.bootstrap", "maskgw.mcp"]

  predicate Forbidden(name: string) {
    exists i :: 0 <= i < |FORBIDDEN_ROOTS| && (name == FORBIDDEN_ROOTS[i] || FORBIDDEN_ROOTS[i] + "." <= name)
  }

  /** Names with rules of their own: the harness, the slot and the module it is linked from. */
  predicate Special(name: string) { Harness(name) || name == SLOT || name == "_openssl" }

  /** What follows a directory in a resolved path at or below it. */
  function Below(path: string, directory: string): Option<string> {
    if path == directory then Some(".")
    else if directory + "/" <= path then Some(path[|directory| + 1..])
    else None
  }

  function AuditPath(w: World, name: string, path: string): Audit {
    var installed, library := Below(path, "/installed"), Below(path, "/usr/local/lib/python3.11");
    if installed.Some? then
      var owner := w.owner(Paths.Split(installed.value)[0]);
      if owner.None? then Refused(UNOWNED_TOP, true, true) else Owned(Entry(name, owner.value, "installed/" + installed.value))
    else if library.Some? && "site-packages" !in Paths.Split(path) then Owned(Entry(name, "stdlib", "stdlib/" + library.value))
    else Refused(OUTSIDE_ORIGIN, true, false)
  }

  /** The row of a module, or why it has none. */
  function AuditOf(w: World, k: int, name: string): Audit {
    var file := w.file(k, name);
    if Special(name) then w.other(k, name)
    else if Forbidden(name) then
      Refused(FORBIDDEN, file != "", file != "" && w.resolve(file).Some? && Below(w.resolve(file).value, "/installed").Some?)
    else if file == "" then w.other(k, name)
    else if w.resolve(file).None? then Refused(AUDIT_OTHER, true, false)
    else AuditPath(w, name, w.resolve(file).value)
  }

  predicate AuditHonest(name: string, a: Audit) {
    match a
    case Owned(entry) => entry.name == name && |name| <= I.MAX_TEXT && |entry.kind| <= I.MAX_TEXT && |entry.path| <= I.MAX_TEXT
    case Refused(_, hasFile, underInstalled) => underInstalled ==> hasFile
  }

  /** A module without a file is never said to lie among the installed ones. */
  predicate NotInstalled(a: Audit) { a.Owned? ==> !("installed/" <= a.entry.path) }

  /** The modules only grow, start with some and stay within the limit; rows are short. */
  ghost predicate Orderly(w: World) {
    && w.modules(-1) != {} && |w.modules(2)| <= I.MAX_ROWS
    && (forall i :: -1 <= i < 2 ==> w.modules(i) <= w.modules(i + 1))
    && (forall i, name :: -1 <= i <= 2 && name in w.modules(i) ==> AuditHonest(name, AuditOf(w, i, name)))
    && (forall i, name :: w.file(i, name) == "" ==> NotInstalled(w.other(i, name)))
  }

  // ---------------------------------------------------------------- what the world decides

  /** The names a stage audits. */
  function New(w: World, k: int): set<string> { if k == -1 then w.modules(-1) else w.modules(k) - w.modules(k - 1) }

  function Earlier(w: World, k: int): set<string> { if k == -1 then {} else w.modules(k - 1) }

  /** The stage that first holds a module. */
  function StageOf(w: World, name: string): int {
    if name in w.modules(-1) then -1 else if name in w.modules(0) then 0 else if name in w.modules(1) then 1 else 2
  }

  function RowFor(w: World, name: string): Row {
    var a := AuditOf(w, StageOf(w, name), name);
    RowAt(StageOf(w, name), if a.Owned? then a.entry else Entry(name, "", ""))
  }

  /** The rows are those of these names, one each. */
  ghost predicate Table(w: World, rows: seq<Row>, names: set<string>) {
    && (forall name :: name in names ==> RowFor(w, name) in rows)
    && (forall i :: 0 <= i < |rows| ==> rows[i].name in names && rows[i] == RowFor(w, rows[i].name))
  }

  predicate Refuses(w: World, k: int) { exists name :: name in New(w, k) && AuditOf(w, k, name).Refused? }

  /** After a stage: one thread, and the descriptors of the beginning. */
  predicate Steady(w: World, k: int) {
    w.sample(k).Some? && ValidVm(w.sample(k).value) && Found(w.descriptors(k)) == Found(w.descriptors(-1))
  }

  function StageExit(w: World, k: int): int {
    if w.imports(k).Some? then FailureExit(w.imports(k).value) else if Refuses(w, k) then 75 else if !Steady(w, k) then 76 else 0
  }

  predicate Complete(w: World) { w.binary == Some(true) && forall root :: Objects(w, root) != {} }

  function FirstFrom(w: World, k: int): int
    requires 0 <= k <= 3
    decreases 3 - k
  {
    if k == 3 then if Complete(w) then 0 else 76
    else if StageExit(w, k) != 0 then StageExit(w, k)
    else FirstFrom(w, k + 1)
  }

  /** The exit code, by the world alone and in no order of names. */
  function Outcome(w: World): int {
    var initial := Found(w.descriptors(-1));
    if !initial.Answer? || !ValidEffects(initial.value) then 76 else if Refuses(w, -1) then 75 else FirstFrom(w, 0)
  }

  /** The success, flat: nothing in the way at any stage. */
  lemma SucceedsIff(w: World)
    ensures Outcome(w) == 0 <==>
      var initial := Found(w.descriptors(-1));
      && initial.Answer? && ValidEffects(initial.value)
      && (forall k :: -1 <= k < 3 ==> !Refuses(w, k))
      && (forall k :: 0 <= k < 3 ==> w.imports(k).None? && Steady(w, k))
      && Complete(w)
  {
    hide Found, ValidEffects, Refuses, Steady, Complete;
    assert forall k :: 0 <= k < 3 ==> (StageExit(w, k) == 0 <==> w.imports(k).None? && !Refuses(w, k) && Steady(w, k));
    assert FirstFrom(w, 0) == 0 <==> StageExit(w, 0) == 0 && FirstFrom(w, 1) == 0;
    assert FirstFrom(w, 1) == 0 <==> StageExit(w, 1) == 0 && FirstFrom(w, 2) == 0;
    assert FirstFrom(w, 2) == 0 <==> StageExit(w, 2) == 0 && FirstFrom(w, 3) == 0;
  }

  /** The file the audit saw resolves to a native file among the installed ones. */
  predicate Fits(w: World, name: string) {
    var file := w.file(StageOf(w, name), name);
    name in w.modules(2) && file != "" && w.resolve(file).Some? && NativeFile(w.resolve(file).value)
  }

  /** Every module the last check takes for a native one was audited as one. */
  ghost predicate NativeFits(w: World) { forall root, name :: name in Objects(w, root) ==> Fits(w, name) }

  lemma UnderRootIsPlain(root: Root, name: string)
    requires UnderRoot(root, name)
    ensures !Special(name)
  {
    assert name[0] != '_';
    assert SLOT[0] == '_';
  }

  lemma AuditedAsObject(w: World, name: string, root: Root)
    requires Orderly(w) && UnderRoot(root, name) && name in w.modules(2) && AuditOf(w, StageOf(w, name), name).Owned?
    ensures InstalledObject(RowFor(w, name).path) <==> Fits(w, name)
  {
    UnderRootIsPlain(root, name);
    hide Special, Forbidden, AuditHonest, Orderly, AuditPath, NativeFile, InstalledObject;
    var k := StageOf(w, name);
    var file := w.file(k, name);
    if file == "" {
      FilelessRow(w, k, name);
    } else {
      PathRow(w, name, w.resolve(file).value);
    }
  }

  lemma FilelessRow(w: World, k: int, name: string)
    requires Orderly(w) && w.file(k, name) == "" && w.other(k, name).Owned?
    ensures !InstalledObject(w.other(k, name).entry.path)
  {
    assert NotInstalled(w.other(k, name));
  }

  lemma PathRow(w: World, name: string, path: string)
    requires AuditPath(w, name, path).Owned?
    ensures InstalledObject(AuditPath(w, name, path).entry.path) <==> NativeFile(path)
  {
    hide Paths.Split;
    var row := AuditPath(w, name, path).entry.path;
    if path == "/installed" {
      assert row == "installed/.";
    } else if "/installed/" <= path {
      assert row == path[1..];
      assert |path| >= 11 && row[|row| - 3..] == path[|path| - 3..];
    } else {
      assert row[0] == 's';
    }
  }

  /** In a complete table the collector takes the native report exactly when the world fits. */
  lemma NativeMatchesIff(w: World, native: Native, rows: seq<Row>)
    requires Orderly(w) && NativeIs(w, Answer(native)) && Table(w, rows, w.modules(2))
    requires forall name :: name in w.modules(2) ==> AuditOf(w, StageOf(w, name), name).Owned?
    ensures NativeMatches(native, rows) <==> NativeFits(w)
  {
    hide Orderly, AuditOf, InstalledObject, Fits, UnderRoot, RowFor, NativeFile;
    forall root, name | name in Objects(w, root)
      ensures AuditedObject(rows, name) <==> Fits(w, name)
      ensures UnderRoot(root, name) && root in native && name in native[root]
    {
      assert Reported(w, native, root);
      AuditedIff(w, rows, root, name);
    }
    if NativeMatches(native, rows) {
      forall root, name | name in Objects(w, root) ensures Fits(w, name) {
        assert name in native[root];
        var k :| 0 <= k < |native[root]| && native[root][k] == name;
        assert AuditedObject(rows, native[root][k]);
      }
    }
    if NativeFits(w) {
      forall root
        ensures root in native && native[root] != [] && |native[root]| <= I.MAX_ROWS && Distinct(native[root])
        ensures forall k :: 0 <= k < |native[root]| ==> UnderRoot(root, native[root][k]) && AuditedObject(rows, native[root][k])
      {
        assert Reported(w, native, root);
        FitsAreFew(w, native[root], root);
        forall k | 0 <= k < |native[root]|
          ensures UnderRoot(root, native[root][k]) && AuditedObject(rows, native[root][k])
        {
          assert native[root][k] in native[root];
          assert native[root][k] in Objects(w, root);
        }
      }
    }
  }

  lemma AuditedIff(w: World, rows: seq<Row>, root: Root, name: string)
    requires Orderly(w) && Table(w, rows, w.modules(2)) && UnderRoot(root, name)
    requires forall other :: other in w.modules(2) ==> AuditOf(w, StageOf(w, other), other).Owned?
    ensures AuditedObject(rows, name) <==> Fits(w, name)
  {
    hide Orderly, AuditOf, InstalledObject, UnderRoot, NativeFile;
    if name in w.modules(2) {
      AuditedAsObject(w, name, root);
      RowNamed(w, name);
      assert RowFor(w, name) in rows;
    }
  }

  lemma RowNamed(w: World, name: string)
    requires Orderly(w) && name in w.modules(2)
    ensures RowFor(w, name).name == name
  {
    hide AuditOf;
    HeldAtStage(w, name);
    assert AuditHonest(name, AuditOf(w, StageOf(w, name), name));
  }

  lemma HeldAtStage(w: World, name: string)
    requires name in w.modules(2)
    ensures -1 <= StageOf(w, name) <= 2 && name in w.modules(StageOf(w, name))
  {
  }

  lemma FitsAreFew(w: World, names: seq<string>, root: Root)
    requires Orderly(w) && NativeFits(w) && Lists(names, Objects(w, root))
    ensures |names| <= I.MAX_ROWS
  {
    hide Objects, AuditOf, AuditHonest;
    forall name | name in names ensures name in w.modules(2) { assert Fits(w, name); }
    DistinctFew(names, w.modules(2));
  }

  lemma {:induction false} DistinctFew(names: seq<string>, all: set<string>)
    requires Distinct(names) && forall name :: name in names ==> name in all
    ensures |names| <= |all|
  {
    if names != [] {
      var last := |names| - 1;
      assert names[last] in names;
      forall name | name in names[..last] ensures name in all - {names[last]} {
        assert name in names;
      }
      DistinctFew(names[..last], all - {names[last]});
    }
  }

  /** Nothing loaded behind the audit, files that stay and resolve to themselves: the success is taken. */
  lemma PlainPathsFit(w: World)
    requires w.after <= w.modules(2)
    requires forall name :: name in w.after && NativeFile(w.file(3, name)) ==>
      w.file(StageOf(w, name), name) == w.file(3, name) && w.resolve(w.file(3, name)) == Some(w.file(3, name))
    ensures NativeFits(w)
  {
    hide UnderRoot;
  }

  /** The event of a failed check: unknown categories and roots were made OTHER when they were raised. */
  function CheckEvent<T>(stage: int, p: Probe<T>): Event
    requires !p.Answer?
  {
    if p.Fault? then CheckError(stage, p.check, p.root) else CheckError(stage, CHECK_OTHER, None)
  }

  function RowEvent(stage: int, entry: Entry): Event {
    if stage == -1 then BaselineRow(entry) else ModuleRow(stage, entry)
  }

  predicate Harness(name: string) {
    name == "__main__" || name == "_lab_loaded_protocol" || name == "_lab_loaded_member" || name == "_lab_loaded_collect"
    || name == "_lab_import_probe" || name == "_lab_support"
  }

  /** The event of a refused module; a name the wire cannot carry is left out and its category forgotten. */
  function AuditEvent(stage: int, name: string, a: Audit): Event
    requires a.Refused?
  {
    if Harness(name) then AuditError(stage, Some(name), OUTSIDE_ORIGIN, Some(a.hasFile), Some(false))
    else
      var named := ValidModuleName(name);
      var slot := name == SLOT;
      AuditError(stage, if named then Some(name) else None, if named then a.category else AUDIT_OTHER,
                 if slot then None else Some(a.hasFile), if slot then None else Some(a.underInstalled))
  }

  lemma AuditEventValid(stage: int, name: string, a: Audit)
    requires a.Refused? && AuditHonest(name, a) && -1 <= stage <= 2
    ensures ValidAuditError(AuditEvent(stage, name, a), stage)
  {
    SlotIsValid();
    if Harness(name) {
      HarnessIsValid(name);
    }
    hide ValidModuleName, Harness;
  }

  lemma SlotIsValid()
    ensures ValidModuleName(SLOT) && !Harness(SLOT)
  {
    assert SLOT[1] == 'o';
  }

  lemma HarnessIsValid(name: string)
    requires Harness(name)
    ensures ValidModuleName(name) && name != SLOT
  {
    assert SLOT[1] == 'o' && name[1] != 'o';
  }

  /** The collector while the member audits stage k, having audited these names so far. */
  predicate Auditing(c: Collector, k: int, done: set<string>) {
    && c.state.COLLECTING? && Valid(c) && c.names == done && |c.rows| == |done|
    && if k == -1 then c.stage == 0 && c.active.None? && c.fds.None? else c.stage == k && c.active == Some(k)
  }

  predicate Between(c: Collector, k: int, done: set<string>, fds: Effects) {
    && c.state.COLLECTING? && Valid(c) && c.names == done && |c.rows| == |done| && c.stage == k && c.active.None?
    && c.rows != [] && (c.fds.Some? ==> c.fds.value == fds)
  }

  lemma RowTaken(c: Collector, k: int, done: set<string>, all: set<string>, name: string, entry: Entry)
    requires Auditing(c, k, done) && -1 <= k <= 2 && name in all && name !in done && done <= all && |all| <= I.MAX_ROWS
    requires AuditHonest(name, Owned(entry))
    ensures Auditing(Feed(c, RowEvent(k, entry)), k, done + {name})
    ensures Feed(c, RowEvent(k, entry)).rows == c.rows + [RowAt(k, entry)] && Feed(c, RowEvent(k, entry)).fds == c.fds
  {
    FewerThan(done, all, name);
    FeedKeeps(c, RowEvent(k, entry));
    hide Valid;
  }

  lemma FewerThan(part: set<string>, all: set<string>, name: string)
    requires part <= all && name in all && name !in part
    ensures |part| < |all|
  {
    SubsetSize(part + {name}, all);
  }

  lemma {:induction false} SubsetSize(part: set<string>, all: set<string>)
    requires part <= all
    ensures |part| <= |all|
    decreases |part|
  {
    if part != {} {
      var x :| x in part;
      SubsetSize(part - {x}, all - {x});
    }
  }

  lemma Refusal(c: Collector, k: int, done: set<string>, e: Event)
    requires Auditing(c, k, done) && -1 <= k <= 2
    requires (e.AuditError? && ValidAuditError(e, k)) || (e.CheckError? && ValidCheckError(e, k)) || (e.ImportError? && e.stage == k >= 0)
    ensures Feed(c, e).state.FAILED? && Feed(c, e).rows == []
    ensures Feed(c, e).expectedExit == Some(if e.AuditError? then 75 else if e.CheckError? then 76 else FailureExit(e.failure))
  {
    hide Valid, ValidAuditError, ValidCheckError;
  }

  lemma StageStarted(c: Collector, k: int, done: set<string>, fds: Effects)
    requires Between(c, k, done, fds) && 0 <= k < 3
    ensures Auditing(Feed(c, Start(k)), k, done) && Feed(c, Start(k)).fds == c.fds && Feed(c, Start(k)).rows == c.rows != []
  {
    FeedKeeps(c, Start(k));
    hide Valid;
  }

  lemma StageEnded(c: Collector, k: int, done: set<string>, vm: Vm, fds: Effects)
    requires Auditing(c, k, done) && 0 <= k < 3 && c.rows != [] && ValidVm(vm) && ValidEffects(fds)
    requires c.fds.Some? ==> c.fds.value == fds
    ensures Between(Feed(c, End(k, vm, fds)), k + 1, done, fds) && Feed(c, End(k, vm, fds)).rows == c.rows
  {
    FeedKeeps(c, End(k, vm, fds));
    hide Valid, ValidVm, ValidEffects;
  }

  lemma LastReport(c: Collector, done: set<string>, fds: Effects, w: Probe<Native>)
    requires Between(c, 3, done, fds) && Named(w)
    ensures !w.Answer? ==> Feed(c, CheckEvent(3, w)).state.FAILED? && Feed(c, CheckEvent(3, w)).expectedExit == Some(76)
    ensures w.Answer? && NativeMatches(w.value, c.rows) ==>
      Feed(c, Verified(w.value, true)).state.VERIFIED? && Feed(c, Verified(w.value, true)).expectedExit == Some(0)
    ensures w.Answer? && !NativeMatches(w.value, c.rows) ==>
      Feed(c, Verified(w.value, true)).state.FAILED? && Feed(c, Verified(w.value, true)).expectedExit == Some(77)
  {
    hide Valid, NativeMatches;
  }

  lemma CheckEventValid<T>(stage: int, p: Probe<T>)
    requires !p.Answer? && Named(p) && -1 <= stage <= 3
    ensures ValidCheckError(CheckEvent(stage, p), stage)
  {
  }

  lemma FeedNext(events: seq<Event>, e: Event)
    ensures FeedAll(events + [e]) == Feed(FeedAll(events), e)
  {
    assert (events + [e])[..|events + [e]| - 1] == events;
  }

  /** A row is taken exactly when its name is new, it is short and there is room. */
  lemma RowTakenIff(c: Collector, k: int, done: set<string>, entry: Entry)
    requires Auditing(c, k, done) && -1 <= k <= 2
    ensures Feed(c, RowEvent(k, entry)).state.COLLECTING?
      <==> entry.name !in done && |done| < I.MAX_ROWS && I.ValidRow(RowAt(k, entry))
    ensures !Feed(c, RowEvent(k, entry)).state.COLLECTING? ==> Feed(c, RowEvent(k, entry)).expectedExit == Some(77)
  {
    hide Valid;
  }

  /** During a stage, or after the last one, a failed check is understood exactly when its fault is well named. */
  lemma CheckAgreesIff<T>(c: Collector, k: int, done: set<string>, fds: Effects, p: Probe<T>)
    requires if k == 3 then Between(c, k, done, fds) else -1 <= k <= 2 && Auditing(c, k, done)
    requires !p.Answer?
    ensures Agrees(Feed(c, CheckEvent(k, p)), 76) <==> Named(p)
  {
    hide Valid;
  }

  /** The collector ends as the member's exit code says. */
  predicate Agrees(c: Collector, code: int) {
    c.expectedExit == Some(code) && if code == 0 then c.state.VERIFIED? else c.state.FAILED? && 72 <= code <= 76
  }

  lemma TableMore(w: World, rows: seq<Row>, done: set<string>, k: int, name: string)
    requires Orderly(w) && -1 <= k <= 2 && Table(w, rows, done) && name in New(w, k) && AuditOf(w, k, name).Owned?
    ensures RowAt(k, AuditOf(w, k, name).entry) == RowFor(w, name)
    ensures Table(w, rows + [RowFor(w, name)], done + {name})
  {
    FirstHeld(w, k, name);
    Within(w, k);
    RowNamed(w, name);
    hide AuditOf, Orderly, AuditHonest, StageOf, New;
    var all := rows + [RowFor(w, name)];
    assert all[|rows|] == RowFor(w, name);
    forall other | other in done + {name} ensures RowFor(w, other) in all {
      if other in done {
        assert RowFor(w, other) in rows;
      }
    }
  }

  lemma FirstHeld(w: World, k: int, name: string)
    requires Orderly(w) && -1 <= k <= 2 && name in New(w, k)
    ensures StageOf(w, name) == k && name in w.modules(2) && AuditHonest(name, AuditOf(w, k, name))
  {
    hide AuditOf, AuditHonest;
    assert w.modules(-1) <= w.modules(-1 + 1) && w.modules(0) <= w.modules(0 + 1) && w.modules(1) <= w.modules(1 + 1);
    assert name in w.modules(k);
  }

  /** The collector while the names in rest are still to be audited at stage k. */
  ghost predicate Underway(w: World, c: Collector, k: int, rest: set<string>, fds: Option<Effects>) {
    var done := w.modules(k) - rest;
    && rest <= New(w, k) && Auditing(c, k, done) && Table(w, c.rows, done) && c.fds == fds
    && forall name :: name in New(w, k) - rest ==> AuditOf(w, k, name).Owned?
  }

  /** The names of one stage, audited in some order until one is refused. */
  method AuditAll(w: World, k: int, events: seq<Event>) returns (out: seq<Event>, ok: bool)
    requires Orderly(w) && -1 <= k <= 2
    requires Auditing(FeedAll(events), k, Earlier(w, k)) && Table(w, FeedAll(events).rows, Earlier(w, k))
    ensures ok <==> !Refuses(w, k)
    ensures ok ==> Auditing(FeedAll(out), k, w.modules(k)) && Table(w, FeedAll(out).rows, w.modules(k))
    ensures ok ==> FeedAll(out).fds == FeedAll(events).fds
    ensures !ok ==> Agrees(FeedAll(out), 75)
  {
    AuditBegins(w, FeedAll(events), k);
    hide Feed, FeedAll, AuditOf, Orderly, WrittenFor, Agrees, New, Refuses, Underway, Auditing, Table, Earlier;
    out := events;
    var rest := New(w, k);
    while rest != {}
      invariant Underway(w, FeedAll(out), k, rest, FeedAll(events).fds)
      decreases rest
    {
      var name :| name in rest;
      FeedNext(out, WrittenFor(k, name, AuditOf(w, k, name)));
      AuditStep(w, FeedAll(out), k, rest, FeedAll(events).fds, name);
      out := out + [WrittenFor(k, name, AuditOf(w, k, name))];
      if AuditOf(w, k, name).Refused? {
        return out, false;
      }
      rest := rest - {name};
    }
    AuditEnds(w, FeedAll(out), k, FeedAll(events).fds);
    return out, true;
  }

  lemma AuditBegins(w: World, c: Collector, k: int)
    requires Orderly(w) && -1 <= k <= 2 && Auditing(c, k, Earlier(w, k)) && Table(w, c.rows, Earlier(w, k))
    ensures Underway(w, c, k, New(w, k), c.fds)
  {
    hide Auditing, Table, Orderly;
    Within(w, k);
    assert w.modules(k) - New(w, k) == Earlier(w, k);
  }

  lemma AuditEnds(w: World, c: Collector, k: int, fds: Option<Effects>)
    requires Underway(w, c, k, {}, fds)
    ensures !Refuses(w, k) && Auditing(c, k, w.modules(k)) && Table(w, c.rows, w.modules(k)) && c.fds == fds
  {
    hide Auditing, Table, AuditOf, New;
    assert w.modules(k) - {} == w.modules(k) && New(w, k) - {} == New(w, k);
  }

  function WrittenFor(k: int, name: string, a: Audit): Event {
    if a.Refused? then AuditEvent(k, name, a) else RowEvent(k, a.entry)
  }

  /** One module's row or refusal, as the collector takes it. */
  lemma AuditStep(w: World, c: Collector, k: int, rest: set<string>, fds: Option<Effects>, name: string)
    requires Orderly(w) && -1 <= k <= 2 && name in rest && Underway(w, c, k, rest, fds)
    ensures var a := AuditOf(w, k, name);
      var d := Feed(c, WrittenFor(k, name, a));
      if a.Refused? then Refuses(w, k) && Agrees(d, 75) else Underway(w, d, k, rest - {name}, fds)
  {
    hide Feed, AuditHonest, AuditOf, Orderly, New, Underway, Refuses, Agrees, WrittenFor, AuditEvent;
    NewUnder(w, c, k, rest, fds, name);
    FirstHeld(w, k, name);
    if AuditOf(w, k, name).Refused? {
      RefusedStep(w, c, k, rest, fds, name);
    } else {
      OwnedStep(w, c, k, rest, fds, name);
    }
  }

  lemma NewUnder(w: World, c: Collector, k: int, rest: set<string>, fds: Option<Effects>, name: string)
    requires name in rest && Underway(w, c, k, rest, fds)
    ensures name in New(w, k)
  {
    hide Auditing, Table, New, AuditOf;
  }

  lemma RefusedStep(w: World, c: Collector, k: int, rest: set<string>, fds: Option<Effects>, name: string)
    requires -1 <= k <= 2 && name in New(w, k) && Underway(w, c, k, rest, fds)
    requires AuditOf(w, k, name).Refused? && AuditHonest(name, AuditOf(w, k, name))
    ensures Refuses(w, k) && Agrees(Feed(c, WrittenFor(k, name, AuditOf(w, k, name))), 75)
  {
    hide Auditing, Feed, AuditHonest, AuditOf, Table, AuditEvent, ValidAuditError, New;
    var a := AuditOf(w, k, name);
    AuditEventValid(k, name, a);
    assert AuditEvent(k, name, a).AuditError? by { AuditEventIs(k, name, a); }
    Refusal(c, k, w.modules(k) - rest, AuditEvent(k, name, a));
  }

  lemma AuditEventIs(k: int, name: string, a: Audit)
    requires a.Refused?
    ensures AuditEvent(k, name, a).AuditError?
  {
  }

  lemma OwnedStep(w: World, c: Collector, k: int, rest: set<string>, fds: Option<Effects>, name: string)
    requires Orderly(w) && -1 <= k <= 2 && name in New(w, k) && name in rest && Underway(w, c, k, rest, fds)
    requires AuditOf(w, k, name).Owned? && AuditHonest(name, AuditOf(w, k, name))
    ensures Underway(w, Feed(c, WrittenFor(k, name, AuditOf(w, k, name))), k, rest - {name}, fds)
  {
    Within(w, k);
    NewIsHeld(w, k, name);
    hide Auditing, Feed, AuditHonest, AuditOf, Table, RowFor, Orderly, RowEvent, New, StageOf;
    var a, done := AuditOf(w, k, name), w.modules(k) - rest;
    RowTaken(c, k, done, w.modules(k), name, a.entry);
    TableMore(w, c.rows, done, k, name);
    UnderwayMore(w, c, Feed(c, RowEvent(k, a.entry)), k, rest, fds, name);
  }

  lemma UnderwayMore(w: World, c: Collector, d: Collector, k: int, rest: set<string>, fds: Option<Effects>, name: string)
    requires Underway(w, c, k, rest, fds) && name in rest && name in w.modules(k) && AuditOf(w, k, name).Owned? && d.fds == fds
    requires var done := w.modules(k) - rest; Auditing(d, k, done + {name}) && Table(w, d.rows, done + {name})
    ensures Underway(w, d, k, rest - {name}, fds)
  {
    hide Auditing, Table, AuditOf, New;
    assert w.modules(k) - (rest - {name}) == w.modules(k) - rest + {name};
  }

  lemma NewIsHeld(w: World, k: int, name: string)
    requires name in New(w, k)
    ensures name in w.modules(k)
  {
  }

  /** One stage: start, import, audit what is new, sample, end. None when the stage passed. */
  method RunStage(w: World, k: int, fds: Effects, events: seq<Event>) returns (out: seq<Event>, code: Option<int>)
    requires Orderly(w) && 0 <= k < 3 && ValidEffects(fds) && Found(w.descriptors(-1)) == Answer(fds)
    requires Between(FeedAll(events), k, w.modules(k - 1), fds) && Table(w, FeedAll(events).rows, w.modules(k - 1))
    ensures StageExit(w, k) == if code.Some? then code.value else 0
    ensures code.Some? ==> Agrees(FeedAll(out), code.value) && code.value != 0
    ensures code.None? ==> Between(FeedAll(out), k + 1, w.modules(k), fds) && Table(w, FeedAll(out).rows, w.modules(k))
    ensures code.None? ==> !Refuses(w, k)
  {
    Within(w, k);
    hide Auditing, Feed, FeedAll, Between, Orderly, ValidVm, ValidEffects, ValidCheckError, Table, Found, Refuses, Steady, FailureExit;
    StageStarted(FeedAll(events), k, w.modules(k - 1), fds);
    FeedNext(events, Start(k));
    out := events + [Start(k)];
    BetweenFds(FeedAll(events), k, w.modules(k - 1), fds);
    if w.imports(k).Some? {
      var e := ImportError(k, w.imports(k).value);
      Refusal(FeedAll(out), k, w.modules(k - 1), e);
      ExitRange(w.imports(k).value);
      FeedNext(out, e);
      return out + [e], Some(FailureExit(w.imports(k).value));
    }
    var ok;
    out, ok := AuditAll(w, k, out);
    if !ok {
      return out, Some(75);
    }
    var last := EndOfStage(w, k, fds);
    FeedNext(out, last);
    TableRows(w, FeedAll(out).rows, w.modules(k));
    if last.CheckError? {
      Refusal(FeedAll(out), k, w.modules(k), last);
      return out + [last], Some(76);
    }
    SteadySample(w, k);
    StageEnded(FeedAll(out), k, w.modules(k), last.vm, fds);
    return out + [last], None;
  }

  /** The sample and the effects after a stage, and the event they make. */
  method EndOfStage(w: World, k: int, fds: Effects) returns (e: Event)
    requires 0 <= k < 3 && Found(w.descriptors(-1)) == Answer(fds)
    ensures if Steady(w, k) then e == End(k, w.sample(k).value, fds) else e.CheckError? && ValidCheckError(e, k)
  {
    hide Found, ValidVm;
    var vm := w.sample(k);
    if vm.None? || !ValidVm(vm.value) {
      return CheckEvent<Vm>(k, Strange);
    }
    var q := LookAtSelf(w.descriptors(k));
    if !q.Answer? {
      FoundIff(w.descriptors(k));
      return CheckEvent(k, q);
    }
    if q.value != fds {
      return CheckEvent<Vm>(k, Fault(FD_SET_CHANGED, None));
    }
    return End(k, vm.value, fds);
  }

  lemma ExitRange(f: ImportFailure)
    ensures 72 <= FailureExit(f) <= 74
  {
  }

  lemma SteadySample(w: World, k: int)
    requires Steady(w, k)
    ensures w.sample(k).Some? && ValidVm(w.sample(k).value)
  {
  }

  lemma TableRows(w: World, rows: seq<Row>, names: set<string>)
    requires Table(w, rows, names) && names != {}
    ensures rows != []
  {
    var name :| name in names;
    assert RowFor(w, name) in rows;
  }

  lemma BetweenFds(c: Collector, k: int, done: set<string>, fds: Effects)
    requires Between(c, k, done, fds)
    ensures c.rows != [] && (c.fds.Some? ==> c.fds.value == fds)
  {
  }

  lemma Within(w: World, k: int)
    requires Orderly(w) && -1 <= k < 3
    ensures |w.modules(k)| <= I.MAX_ROWS && (k >= 0 ==> w.modules(k - 1) <= w.modules(k))
    ensures w.modules(k) != {} && w.modules(k) <= w.modules(2)
  {
    hide AuditOf, AuditHonest;
    assert w.modules(-1) <= w.modules(-1 + 1) && w.modules(0) <= w.modules(0 + 1) && w.modules(1) <= w.modules(1 + 1);
    SubsetSize(w.modules(k), w.modules(2));
  }

  /**
    The whole import stage. In an orderly world the member leaves with the code the world
    decides. Fed with exactly the events written, the collector fails with that same code; after
    a success it keeps the row of every module and is verified when the world fits, and ends with
    77 when it does not.
  */
  method CollectImports(w: World) returns (events: seq<Event>, code: int)
    requires Orderly(w)
    ensures code == Outcome(w) && (code == 0 || 72 <= code <= 76)
    ensures code != 0 ==> Agrees(FeedAll(events), code)
    ensures code == 0 && NativeFits(w) ==> Agrees(FeedAll(events), 0) && Table(w, FeedAll(events).rows, w.modules(2))
    ensures code == 0 && !NativeFits(w) ==> FeedAll(events).state.FAILED? && FeedAll(events).expectedExit == Some(77)
  {
    hide Auditing, Feed, Between, NativeMatches, ValidCheckError, Table, AuditOf, NativeIs, NativeFits, Complete, Orderly,
         Refuses, Steady, Found, ValidEffects, StageExit;
    events := [];
    OpeningAudits(w);
    var initial := LookAtSelf(w.descriptors(-1));
    if !initial.Answer? || !ValidEffects(initial.value) {
      var p := if initial.Answer? then Strange else initial;
      FoundIff(w.descriptors(-1));
      CheckEventValid(-1, p);
      Refusal(FeedAll([]), -1, {}, CheckEvent(-1, p));
      FeedNext([], CheckEvent(-1, p));
      assert [] + [CheckEvent(-1, p)] == [CheckEvent(-1, p)];
      return [CheckEvent(-1, p)], 76;
    }
    var fds := initial.value;
    Within(w, -1);
    var ok;
    events, ok := AuditAll(w, -1, events);
    if !ok {
      return events, 75;
    }
    TableRows(w, FeedAll(events).rows, w.modules(-1));
    BaselineDone(FeedAll(events), w.modules(-1), fds);
    var k := 0;
    while k < 3
      invariant 0 <= k <= 3 && Outcome(w) == FirstFrom(w, k) && forall i :: -1 <= i < k ==> !Refuses(w, i)
      invariant Between(FeedAll(events), k, w.modules(k - 1), fds) && Table(w, FeedAll(events).rows, w.modules(k - 1))
    {
      var failed;
      events, failed := RunStage(w, k, fds, events);
      if failed.Some? {
        return events, failed.value;
      }
      k := k + 1;
    }
    events, code := Conclude(w, fds, events);
  }

  /** The native check, and the report that ends the stage. */
  method Conclude(w: World, fds: Effects, events: seq<Event>) returns (out: seq<Event>, code: int)
    requires Orderly(w) && Between(FeedAll(events), 3, w.modules(2), fds) && Table(w, FeedAll(events).rows, w.modules(2))
    requires forall i :: -1 <= i < 3 ==> !Refuses(w, i)
    ensures code == if Complete(w) then 0 else 76
    ensures code != 0 ==> Agrees(FeedAll(out), code)
    ensures code == 0 && NativeFits(w) ==> Agrees(FeedAll(out), 0) && Table(w, FeedAll(out).rows, w.modules(2))
    ensures code == 0 && !NativeFits(w) ==> FeedAll(out).state.FAILED? && FeedAll(out).expectedExit == Some(77)
  {
    hide Feed, Between, NativeMatches, ValidCheckError, Table, AuditOf, NativeIs, NativeFits, Complete, Orderly, Refuses;
    var native := NativeCheck(w);
    NativeOutcome(w, native);
    LastReport(FeedAll(events), w.modules(2), fds, native);
    if !native.Answer? {
      FeedNext(events, CheckEvent(3, native));
      return events + [CheckEvent(3, native)], 76;
    }
    NoneRefused(w);
    NativeMatchesIff(w, native.value, FeedAll(events).rows);
    VerifiedRows(FeedAll(events), Verified(native.value, true));
    FeedNext(events, Verified(native.value, true));
    return events + [Verified(native.value, true)], 0;
  }

  /** The native check answers exactly where every root has an object. */
  lemma NativeOutcome(w: World, p: Probe<Native>)
    requires NativeIs(w, p)
    ensures Named(p) && (p.Answer? <==> Complete(w))
  {
    hide Objects;
    if p.Answer? {
      forall root ensures Objects(w, root) != {} {
        assert Reported(w, p.value, root);
        SomethingListed(p.value[root], Objects(w, root));
      }
    }
  }

  lemma NoneRefused(w: World)
    requires forall i :: -1 <= i < 3 ==> !Refuses(w, i)
    ensures forall name :: name in w.modules(2) ==> AuditOf(w, StageOf(w, name), name).Owned?
  {
    hide AuditOf;
    forall name | name in w.modules(2) ensures AuditOf(w, StageOf(w, name), name).Owned? {
      var k := StageOf(w, name);
      assert name in New(w, k);
      assert !Refuses(w, k);
    }
  }

  lemma OpeningAudits(w: World)
    ensures Auditing(FeedAll([]), -1, {}) && Table(w, FeedAll([]).rows, {}) && FeedAll([]).fds.None?
  {
  }

  lemma BaselineDone(c: Collector, done: set<string>, fds: Effects)
    requires Auditing(c, -1, done) && c.rows != []
    ensures Between(c, 0, done, fds)
  {
    hide Valid;
  }

  lemma VerifiedRows(c: Collector, e: Event)
    requires e.Verified?
    ensures Feed(c, e).state.VERIFIED? ==> Feed(c, e).rows == c.rows
  {
    hide NativeMatches;
  }

  // ---------------------------------------------------------------- a success that is not taken

  /** Every root has one native file; that of yaml is a link to a file of another ending. */
  const LINKED: World := World(
    _ => {"pglast", "pydantic_core", "cryptography", "yaml"},
    {"pglast", "pydantic_core", "cryptography", "yaml"},
    (_, name) => "/installed/" + name + ".so",
    file => Some(if file == "/installed/yaml.so" then "/installed/yaml.bin" else file),
    _ => Some("owner"),
    (_, _) => Refused(AUDIT_OTHER, false, false),
    _ => None,
    _ => Some(Vm(1, 1, 1, 1)),
    _ => Descriptors(Some([Descriptor(0, Target), Descriptor(1, Target), Descriptor(2, Target), Descriptor(3, Target)]), Absent),
    Some(true))

  /** There the member leaves with 0 and the collector with 77. */
  lemma LinkedDisagrees()
    ensures Orderly(LINKED) && Outcome(LINKED) == 0 && !NativeFits(LINKED)
  {
    hide AuditOf, Found, InstalledObject, Special, Forbidden;
    var w := LINKED;
    forall i: int, name | name in w.modules(i) ensures AuditOf(w, i, name).Owned? && AuditHonest(name, AuditOf(w, i, name)) {
      LinkedRow(i, name);
    }
    FourFiles();
    assert w.modules(2) == w.modules(-1);
    FewNames(w.modules(2));
    assert forall k :: 0 <= k < 3 ==> StageExit(w, k) == 0;
    LinkedObjects();
    assert FirstFrom(w, 3) == 0 && FirstFrom(w, 2) == 0 && FirstFrom(w, 1) == 0 && FirstFrom(w, 0) == 0;
    assert "yaml" in Objects(w, Yaml);
    assert !Fits(w, "yaml");
  }

  lemma FourFiles()
    ensures Found(LINKED.descriptors(-1)).Answer? && ValidEffects(Found(LINKED.descriptors(-1)).value)
  {
    NothingOpen();
    hide Open;
    OpenMore([], Descriptor(0, Target));
    var one := [] + [Descriptor(0, Target)];
    OpenMore(one, Descriptor(1, Target));
    var two := one + [Descriptor(1, Target)];
    OpenMore(two, Descriptor(2, Target));
    var three := two + [Descriptor(2, Target)];
    OpenMore(three, Descriptor(3, Target));
    assert Open(three) == [0, 1, 2];
    assert LINKED.descriptors(-1).links.value == three + [Descriptor(3, Target)];
    assert Open(LINKED.descriptors(-1).links.value)[..3] == [0, 1, 2];
  }

  lemma NothingOpen()
    ensures Open([]) == []
  {
  }

  lemma OpenMore(links: seq<Descriptor>, d: Descriptor)
    requires d.link.Target?
    ensures Open(links + [d]) == Open(links) + [d.number]
  {
    assert (links + [d])[..|links|] == links;
  }

  lemma FewNames(names: set<string>)
    requires names == {"pglast", "pydantic_core", "cryptography", "yaml"}
    ensures |names| <= 4
  {
    assert names - {"pglast"} - {"pydantic_core"} - {"cryptography"} - {"yaml"} == {};
  }

  lemma LinkedRow(k: int, name: string)
    requires name in LINKED.modules(k)
    ensures AuditOf(LINKED, k, name).Owned? && AuditHonest(name, AuditOf(LINKED, k, name))
  {
    hide Paths.Split;
    assert name[0] != '_' && name[0] != 'm' && name[0] != 'f' && name[0] != 's' && name[0] != 'u' && name[0] != 'a';
    assert !Special(name) by { assert SLOT[0] == '_'; }
    assert !Forbidden(name) by {
      forall i | 0 <= i < |FORBIDDEN_ROOTS| ensures FORBIDDEN_ROOTS[i] != [] && FORBIDDEN_ROOTS[i][0] != name[0] { }
    }
    var path := LINKED.resolve(LINKED.file(k, name)).value;
    assert "/installed" + "/" <= path;
  }

  lemma LinkedObjects()
    ensures Complete(LINKED) && "yaml" in Objects(LINKED, Yaml) && !Fits(LINKED, "yaml")
  {
    forall root ensures RootName(root) in Objects(LINKED, root) {
      LinkedFile(RootName(root));
    }
    var path := "/installed/yaml.bin";
    assert "/installed/" + "yaml" + ".so" == "/installed/yaml.so";
    assert path[|path| - 3..][0] != ".so"[0];
  }

  lemma LinkedFile(name: string)
    ensures NativeFile("/installed/" + name + ".so")
  {
    var path := "/installed/" + name + ".so";
    assert path[|path| - 3..] == ".so";
    assert path[..11] == "/installed/";
  }
}
