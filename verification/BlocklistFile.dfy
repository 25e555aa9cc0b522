/**
 Several processes on one blocklist file (`src/blocklist.rs` over `src/atomic_file.rs`): lock,
 read, write a partial file, rename, sync the directory. A process may fail or crash after any
 step, and the machine may lose power.
 */
module BlocklistFile {
  import opened Common
  import opened Blocklist

  datatype Op = Adding(entries: seq<Entry>) | Removing(addresses: seq<string>)

  predicate Valid(op: Op, parse: Parser) {
    match op
    case Adding(entries) => EntriesParse(entries, parse)
    case Removing(addresses) => AllParse(addresses, parse)
  }

  /** The operation on the index; one with a bad address is refused before it takes the lock. */
  function Effect(index: Index, op: Op, parse: Parser): Index {
    if !Valid(op, parse) then index
    else
      match op
      case Adding(entries) => Added(index, entries, parse)
      case Removing(addresses) => Removed(index, addresses, parse)
  }

  function Effects(index: Index, ops: seq<Op>, parse: Parser): Index
    decreases |ops|
  {
    if ops == [] then index else Effect(Effects(index, ops[..|ops| - 1], parse), ops[|ops| - 1], parse)
  }

  lemma EffectIsFiled(index: Index, op: Op, parse: Parser)
    requires Filed(index, parse)
    ensures Filed(Effect(index, op, parse), parse)
  {
    if Valid(op, parse) {
      match op
      case Adding(entries) => AddedIsFiled(index, entries, parse);
      case Removing(addresses) => RemovedIsPart(index, addresses, parse);
    }
  }

  // ---------------------------------------------------------------- files and processes

  /** File contents: a document, or bytes that are not one. */
  datatype Content = Whole(document: Document) | Torn

  datatype Process =
    | Outside
    | Locked(op: Op)
    | Computed(op: Op, next: Document)
    | Cleared(op: Op, next: Document)       // no partial file left over
    | Creating(op: Op, next: Document)      // the partial file exists, some bytes are written
    | Complete(op: Op, next: Document)      // all bytes are written and synced
    | Renamed

  /** `log` and `past` are history: the operations whose rename happened, and the file after each of them. */
  datatype Machine = Machine(
    path: Option<Content>, partial: Option<Content>, holder: Option<nat>, processes: map<nat, Process>,
    log: seq<Op>, past: seq<Option<Content>>, synced: nat)

  datatype Step =
    | Lock(p: nat, op: Op)
    | Read(p: nat, order: seq<Entry>)       // `order` is the order the index is written out in
    | Clear(p: nat)
    | Create(p: nat)
    | Write(p: nat)
    | Rename(p: nat)
    | Sync(p: nat, ok: bool)
    | Crash(p: nat)                         // an error or a crash: the operating system frees the lock
    | PowerLoss(kept: nat, junk: Option<Content>)

  function At(m: Machine, p: nat): Process {
    if p in m.processes then m.processes[p] else Outside
  }

  function To(m: Machine, p: nat, process: Process): Machine {
    m.(processes := m.processes[p := process])
  }

  function Leave(m: Machine, p: nat): Machine {
    To(m, p, Outside).(holder := if m.holder == Some(p) then None else m.holder)
  }

  /** What a reader decodes; none when the file is torn. */
  function Decoded(path: Option<Content>): Option<Document> {
    match path
    case None => Some(NO_DOCUMENT)
    case Some(Whole(document)) => Some(document)
    case Some(Torn) => None
  }

  function Next(m: Machine, step: Step, parse: Parser): Machine {
    match step
    case Lock(p, op) =>
      if m.holder.None? && At(m, p).Outside? && Valid(op, parse) then To(m, p, Locked(op)).(holder := Some(p)) else m
    case Read(p, order) =>
      if !At(m, p).Locked? then m
      else if Decoded(m.path).None? then Leave(m, p)
      else
        var document := Decoded(m.path).value;
        if Lists(order, Effect(IndexEntries(document.entries, parse), At(m, p).op, parse)) then
          To(m, p, Computed(At(m, p).op, document.(entries := order)))
        else m
    case Clear(p) => if At(m, p).Computed? then To(m.(partial := None), p, Cleared(At(m, p).op, At(m, p).next)) else m
    case Create(p) =>
      if !At(m, p).Cleared? then m
      else if m.partial.Some? then Leave(m, p)
      else To(m.(partial := Some(Torn)), p, Creating(At(m, p).op, At(m, p).next))
    case Write(p) =>
      if At(m, p).Creating? then To(m.(partial := Some(Whole(At(m, p).next))), p, Complete(At(m, p).op, At(m, p).next)) else m
    case Rename(p) =>
      if At(m, p).Complete? then
        To(m.(path := m.partial, partial := None, log := m.log + [At(m, p).op], past := m.past + [m.partial]), p, Renamed)
      else m
    case Sync(p, ok) => if At(m, p).Renamed? then Leave(m.(synced := if ok then |m.log| else m.synced), p) else m
    case Crash(p) => Leave(m, p)
    case PowerLoss(kept, junk) =>
      if m.synced <= kept <= |m.log| && kept < |m.past| then
        Machine(m.past[kept], junk, None, map[], m.log[..kept], m.past[..kept + 1], m.synced)
      else m
  }

  function Run(m: Machine, steps: seq<Step>, parse: Parser): Machine
    decreases |steps|
  {
    if steps == [] then m else Next(Run(m, steps[..|steps| - 1], parse), steps[|steps| - 1], parse)
  }

  /** A file that decodes, nobody at work, no history. */
  predicate Initial(m: Machine) {
    Decoded(m.path).Some? && m.holder == None && m.processes == map[] && m.log == [] && m.past == [m.path] && m.synced == 0
  }

  // ---------------------------------------------------------------- linearizability

  function IndexOf(path: Option<Content>, parse: Parser): Index {
    if Decoded(path).Some? then IndexEntries(Decoded(path).value.entries, parse) else map[]
  }

  /** Every past file decodes, to the effect of the operations so far; the last one is the file now. */
  predicate History(m: Machine, first: Document, parse: Parser) {
    && |m.past| == |m.log| + 1 && m.past[|m.log|] == m.path && m.synced <= |m.log|
    && forall k :: 0 <= k <= |m.log| ==> Follows(m.past[k], first, m.log[..k], parse)
  }

  /** The file decodes to the effect of these operations on the first document, whose other fields it keeps. */
  predicate Follows(path: Option<Content>, first: Document, ops: seq<Op>, parse: Parser) {
    && Decoded(path).Some? && IndexOf(path, parse) == Effects(IndexEntries(first.entries, parse), ops, parse)
    && Decoded(path).value.(entries := first.entries) == first
  }

  /** Only the lock holder is at work; what it computed is its operation on the file as it is. */
  predicate InStep(m: Machine, p: nat, parse: Parser) {
    var process := At(m, p);
    && (!process.Outside? ==> m.holder == Some(p))
    && ((process.Computed? || process.Cleared? || process.Creating? || process.Complete?) ==>
          && IndexEntries(process.next.entries, parse) == Effect(IndexOf(m.path, parse), process.op, parse)
          && Decoded(m.path).Some? && process.next == Decoded(m.path).value.(entries := process.next.entries))
    && (process.Complete? ==> m.partial == Some(Whole(process.next)))
  }

  ghost predicate Linear(m: Machine, first: Document, parse: Parser) {
    History(m, first, parse) && forall p :: InStep(m, p, parse)
  }

  lemma {:induction false} EffectsNext(start: Index, ops: seq<Op>, op: Op, parse: Parser)
    ensures Effects(start, ops + [op], parse) == Effect(Effects(start, ops, parse), op, parse)
  {
    assert (ops + [op])[..|ops|] == ops;
  }

  lemma RenameKeepsHistory(m: Machine, first: Document, p: nat, parse: Parser)
    requires Linear(m, first, parse) && At(m, p).Complete?
    ensures History(Next(m, Rename(p), parse), first, parse)
  {
    var later, op := Next(m, Rename(p), parse), At(m, p).op;
    assert InStep(m, p, parse);
    assert m.log[..|m.log|] == m.log && later.log[..|later.log|] == later.log;
    EffectsNext(IndexEntries(first.entries, parse), m.log, op, parse);
    forall k | 0 <= k <= |later.log|
      ensures Follows(later.past[k], first, later.log[..k], parse)
    {
      if k <= |m.log| {
        assert later.log[..k] == m.log[..k];
      }
    }
  }

  lemma PowerLossKeepsHistory(m: Machine, first: Document, kept: nat, junk: Option<Content>, parse: Parser)
    requires History(m, first, parse)
    ensures History(Next(m, PowerLoss(kept, junk), parse), first, parse)
  {
    var later := Next(m, PowerLoss(kept, junk), parse);
    forall k | 0 <= k <= |later.log|
      ensures Follows(later.past[k], first, later.log[..k], parse)
    {
      assert later.log[..k] == m.log[..k];
    }
  }

  /** Computing the next document keeps the process in step. */
  lemma ReadInStep(m: Machine, p: nat, order: seq<Entry>, parse: Parser)
    requires InStep(m, p, parse)
    ensures InStep(Next(m, Read(p, order), parse), p, parse)
  {
    if At(m, p).Locked? && Decoded(m.path).Some? {
      var index := IndexOf(m.path, parse);
      IndexIsFiled(Decoded(m.path).value.entries, parse);
      EffectIsFiled(index, At(m, p).op, parse);
      if Lists(order, Effect(index, At(m, p).op, parse)) {
        RewriteReindexes(order, Effect(index, At(m, p).op, parse), parse);
      }
    }
  }

  lemma StepsKeepInStep(m: Machine, step: Step, q: nat, parse: Parser)
    requires forall p :: InStep(m, p, parse)
    ensures InStep(Next(m, step, parse), q, parse)
  {
    assert InStep(m, q, parse);
    if !step.PowerLoss? {
      assert InStep(m, step.p, parse);
      if step.Read? && step.p == q {
        ReadInStep(m, q, step.order, parse);
      }
    }
  }

  lemma StepKeepsLinear(m: Machine, first: Document, step: Step, parse: Parser)
    requires Linear(m, first, parse)
    ensures Linear(Next(m, step, parse), first, parse)
  {
    forall q
      ensures InStep(Next(m, step, parse), q, parse)
    {
      StepsKeepInStep(m, step, q, parse);
    }
    if step.Rename? && At(m, step.p).Complete? {
      RenameKeepsHistory(m, first, step.p, parse);
    } else if step.PowerLoss? {
      PowerLossKeepsHistory(m, first, step.kept, step.junk, parse);
    }
  }

  lemma {:induction false} RunKeepsLinear(m: Machine, steps: seq<Step>, parse: Parser)
    requires Initial(m)
    ensures Linear(Run(m, steps, parse), Decoded(m.path).value, parse)
    decreases |steps|
  {
    if steps == [] {
      assert forall p :: InStep(m, p, parse);
    } else {
      RunKeepsLinear(m, steps[..|steps| - 1], parse);
      StepKeepsLinear(Run(m, steps[..|steps| - 1], parse), Decoded(m.path).value, steps[|steps| - 1], parse);
    }
  }

  /**
   However adds and removes of any number of processes interleave, fail, crash or lose power:
   the file decodes at every moment, to the effect of the operations whose rename happened, in
   the order they held the lock, with all fields but the entries as they were.
   */
  lemma FileIsLinearizable(m: Machine, steps: seq<Step>, parse: Parser)
    requires Initial(m)
    ensures Follows(Run(m, steps, parse).path, Decoded(m.path).value, Run(m, steps, parse).log, parse)
  {
    RunKeepsLinear(m, steps, parse);
    var after := Run(m, steps, parse);
    assert after.log[..|after.log|] == after.log;
  }

  /** A synced operation is never undone; anything else only by a power loss, which keeps a prefix. */
  lemma SyncedSurvives(m: Machine, first: Document, step: Step, parse: Parser)
    requires Linear(m, first, parse)
    ensures m.log[..m.synced] <= Next(m, step, parse).log && m.synced <= Next(m, step, parse).synced
    ensures !step.PowerLoss? ==> m.log <= Next(m, step, parse).log
    ensures step.PowerLoss? ==> Next(m, step, parse).log <= m.log
  {
  }

  // ---------------------------------------------------------------- writing one file

  /** Where a write stops: before the named effect, or not at all. A failing directory sync is only logged. */
  datatype WriteStop = BeforeClear | BeforeCreate | BeforeBytes | MidBytes | BeforeRename | BeforeSync | SyncFails | Never

  /** A file, its partial sibling, and whether the latest rename is known to survive a power loss. */
  datatype Files = Files(path: Option<Content>, partial: Option<Content>, synced: bool)

  function FilesOf(m: Machine): Files {
    Files(m.path, m.partial, m.synced == |m.log|)
  }

  /** The files after a write of the document up to the stop. */
  function Written(files: Files, document: Document, stop: WriteStop): Files {
    match stop
    case BeforeClear => files
    case BeforeCreate => files.(partial := None)
    case BeforeBytes => files.(partial := Some(Torn))
    case MidBytes => files.(partial := Some(Torn))
    case BeforeRename => files.(partial := Some(Whole(document)))
    case BeforeSync => Files(Some(Whole(document)), None, false)
    case SyncFails => Files(Some(Whole(document)), None, false)
    case Never => Files(Some(Whole(document)), None, true)
  }

  /** The steps of a process that writes what it computed, up to the stop. */
  function WriteSteps(p: nat, stop: WriteStop): seq<Step> {
    match stop
    case BeforeClear => [Crash(p)]
    case BeforeCreate => [Clear(p), Crash(p)]
    case BeforeBytes => [Clear(p), Create(p), Crash(p)]
    case MidBytes => [Clear(p), Create(p), Crash(p)]
    case BeforeRename => [Clear(p), Create(p), Write(p), Crash(p)]
    case BeforeSync => [Clear(p), Create(p), Write(p), Rename(p), Crash(p)]
    case SyncFails => [Clear(p), Create(p), Write(p), Rename(p), Sync(p, false)]
    case Never => [Clear(p), Create(p), Write(p), Rename(p), Sync(p, true)]
  }

  lemma {:induction false} FirstStep(m: Machine, step: Step, steps: seq<Step>, parse: Parser)
    ensures Run(m, [step] + steps, parse) == Run(Next(m, step, parse), steps, parse)
    decreases |steps|
  {
    if steps == [] {
      assert [step] + steps == [step] && [step][..0] == [];
    } else {
      var fewer := steps[..|steps| - 1];
      assert ([step] + steps)[..|steps|] == [step] + fewer;
      FirstStep(m, step, fewer, parse);
    }
  }

  /** Renaming what was computed replaces the file whole. */
  lemma WritesToRename(m: Machine, p: nat, last: Step, parse: Parser)
    requires At(m, p).Computed? && m.synced <= |m.log| && (last == Crash(p) || (last.Sync? && last.p == p))
    ensures FilesOf(Run(m, [Clear(p), Create(p), Write(p), Rename(p), last], parse))
            == Files(Some(Whole(At(m, p).next)), None, last.Sync? && last.ok)
  {
    hide Run;
    var m1 := Next(m, Clear(p), parse);
    var m2 := Next(m1, Create(p), parse);
    var m3 := Next(m2, Write(p), parse);
    var m4 := Next(m3, Rename(p), parse);
    WritesFirst(m, p, [Rename(p), last], parse);
    assert [Clear(p), Create(p), Write(p)] + [Rename(p), last] == [Clear(p), Create(p), Write(p), Rename(p), last];
    assert [Rename(p), last] == [Rename(p)] + [last];
    FirstStep(m3, Rename(p), [last], parse);
    LastStep(m4, last, parse);
  }

  lemma WritesFirst(m: Machine, p: nat, rest: seq<Step>, parse: Parser)
    ensures Run(m, [Clear(p), Create(p), Write(p)] + rest, parse)
            == Run(Next(Next(Next(m, Clear(p), parse), Create(p), parse), Write(p), parse), rest, parse)
  {
    hide Run, Next;
    assert [Clear(p), Create(p), Write(p)] + rest == [Clear(p)] + ([Create(p)] + ([Write(p)] + rest));
    FirstStep(m, Clear(p), [Create(p)] + ([Write(p)] + rest), parse);
    FirstStep(Next(m, Clear(p), parse), Create(p), [Write(p)] + rest, parse);
    FirstStep(Next(Next(m, Clear(p), parse), Create(p), parse), Write(p), rest, parse);
  }

  lemma LastStep(m: Machine, step: Step, parse: Parser)
    ensures Run(m, [step], parse) == Next(m, step, parse)
  {
    assert [step][..0] == [];
  }

  /** The files when a process that computed its document has written it up to the stop. */
  lemma WriteIsSteps(m: Machine, p: nat, stop: WriteStop, parse: Parser)
    requires At(m, p).Computed? && m.synced <= |m.log|
    ensures FilesOf(Run(m, WriteSteps(p, stop), parse)) == Written(FilesOf(m), At(m, p).next, stop)
  {
    hide Run;
    match stop
    case BeforeClear => LastStep(m, Crash(p), parse);
    case BeforeCreate =>
      assert WriteSteps(p, stop) == [Clear(p)] + [Crash(p)];
      FirstStep(m, Clear(p), [Crash(p)], parse);
      LastStep(Next(m, Clear(p), parse), Crash(p), parse);
    case BeforeRename =>
      assert WriteSteps(p, stop) == [Clear(p), Create(p), Write(p)] + [Crash(p)];
      WritesFirst(m, p, [Crash(p)], parse);
      LastStep(Next(Next(Next(m, Clear(p), parse), Create(p), parse), Write(p), parse), Crash(p), parse);
    case BeforeSync => WritesToRename(m, p, Crash(p), parse);
    case SyncFails => WritesToRename(m, p, Sync(p, false), parse);
    case Never => WritesToRename(m, p, Sync(p, true), parse);
    case _ =>
      assert WriteSteps(p, stop) == [Clear(p)] + ([Create(p)] + [Crash(p)]);
      FirstStep(m, Clear(p), [Create(p)] + [Crash(p)], parse);
      FirstStep(Next(m, Clear(p), parse), Create(p), [Crash(p)], parse);
      LastStep(Next(Next(m, Clear(p), parse), Create(p), parse), Crash(p), parse);
  }

  /** The steps of an operation that nothing stops. */
  function WholeOperation(p: nat, op: Op, order: seq<Entry>): seq<Step> {
    [Lock(p, op), Read(p, order)] + WriteSteps(p, Never)
  }

  /** A process takes a free lock and computes what its operation makes of the file. */
  lemma Computes(m: Machine, p: nat, op: Op, order: seq<Entry>, parse: Parser)
    requires m.holder.None? && At(m, p).Outside? && Valid(op, parse) && Decoded(m.path).Some?
    requires Lists(order, Effect(IndexOf(m.path, parse), op, parse))
    ensures Next(Next(m, Lock(p, op), parse), Read(p, order), parse)
            == To(To(m, p, Locked(op)).(holder := Some(p)), p, Computed(op, Decoded(m.path).value.(entries := order)))
    ensures IndexEntries(order, parse) == Effect(IndexOf(m.path, parse), op, parse)
  {
    IndexIsFiled(Decoded(m.path).value.entries, parse);
    EffectIsFiled(IndexOf(m.path, parse), op, parse);
    RewriteReindexes(order, Effect(IndexOf(m.path, parse), op, parse), parse);
  }

  lemma WritesLogged(m: Machine, p: nat, parse: Parser)
    requires At(m, p).Computed? && m.holder == Some(p)
    ensures var after := Run(m, WriteSteps(p, Never), parse);
            && after.log == m.log + [At(m, p).op] && after.synced == |after.log| && after.holder.None? && At(after, p).Outside?
            && after.path == Some(Whole(At(m, p).next))
  {
    hide Run;
    var m3 := Next(Next(Next(m, Clear(p), parse), Create(p), parse), Write(p), parse);
    WritesFirst(m, p, [Rename(p), Sync(p, true)], parse);
    assert [Clear(p), Create(p), Write(p)] + [Rename(p), Sync(p, true)] == WriteSteps(p, Never);
    assert [Rename(p), Sync(p, true)] == [Rename(p)] + [Sync(p, true)];
    FirstStep(m3, Rename(p), [Sync(p, true)], parse);
    LastStep(Next(m3, Rename(p), parse), Sync(p, true), parse);
  }

  /**
   An add or a remove that nothing stops is done: the file then has exactly its effect, with every other
   field as it was, the effect is safe from a power loss, and the lock is free again.
   */
  lemma OperationCompletes(m: Machine, p: nat, op: Op, order: seq<Entry>, target: Index, parse: Parser)
    requires m.holder.None? && At(m, p).Outside? && Valid(op, parse) && Decoded(m.path).Some?
    requires target == match op
                       case Adding(entries) => Added(IndexEntries(Decoded(m.path).value.entries, parse), entries, parse)
                       case Removing(addresses) => Removed(IndexEntries(Decoded(m.path).value.entries, parse), addresses, parse)
    requires Lists(order, target)
    ensures var after := Run(m, WholeOperation(p, op, order), parse);
            && after.path == Some(Whole(Decoded(m.path).value.(entries := order))) && IndexEntries(order, parse) == target
            && after.log == m.log + [op] && after.synced == |after.log| && after.holder.None? && At(after, p).Outside?
  {
    hide Run, WriteSteps;
    Computes(m, p, op, order, parse);
    var locked := Next(m, Lock(p, op), parse);
    var computed := Next(locked, Read(p, order), parse);
    assert WholeOperation(p, op, order) == [Lock(p, op)] + ([Read(p, order)] + WriteSteps(p, Never));
    FirstStep(m, Lock(p, op), [Read(p, order)] + WriteSteps(p, Never), parse);
    FirstStep(locked, Read(p, order), WriteSteps(p, Never), parse);
    WritesLogged(computed, p, parse);
  }

  /** The files, changed one effect at a time. */
  class FileSystem {
    var path: Option<Content>
    var partial: Option<Content>
    ghost var synced: bool

    ghost function View(): Files
      reads this
    {
      Files(path, partial, synced)
    }

    constructor (path: Option<Content>, partial: Option<Content>)
      ensures View() == Files(path, partial, true)
    {
      this.path, this.partial, synced := path, partial, true;
    }

    /** `write_atomically`: wherever it stops, the file is the old one whole or the new one whole, and a leftover does not hinder the next write. */
    method WriteAtomically(document: Document, stop: WriteStop) returns (ok: bool)
      modifies this
      ensures ok <==> stop == SyncFails || stop == Never
      ensures path == if ok || stop == BeforeSync then Some(Whole(document)) else old(path)
      ensures path != old(path) && stop != Never ==> !synced
      ensures View() == Written(old(View()), document, stop)
    {
      if stop == BeforeClear {
        return false;
      }
      partial := None;
      if stop == BeforeCreate {
        return false;
      }
      partial := Some(Torn);
      if stop == BeforeBytes || stop == MidBytes {
        return false;
      }
      partial := Some(Whole(document));
      if stop == BeforeRename {
        return false;
      }
      path, partial, synced := partial, None, false;
      if stop == BeforeSync {
        return false;
      }
      synced := stop != SyncFails;
      return true;
    }
  }
}
