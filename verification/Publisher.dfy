/** The snapshot directory: a new file is written, then the pointer to it is replaced, then
    the other files go. Reading the pointer and removing a file may fail, and everything may
    be interrupted anywhere. */
module Publisher {
  import opened Text

  /** A snapshot file: still being written, or finished with some content. */
  datatype Content = Unfinished | Finished(content: nat)

  /** Where the generator is. `keep` is what cleanSnapshots read of the pointer, `todo` what it
      still has to look at, and `stuck` what it failed to remove. */
  datatype Task =
    | Idle
    | Writing(name: string)
    | Written(name: string)
    | Pointed(name: string)
    | Cleaning(keep: Option<string>, todo: set<string>, stuck: set<string>)

  /** The directory, with the pointer file meta.json and its temporary file, and every name
      ever given to a snapshot. */
  datatype Dir = Dir(
    files: map<string, Content>, meta: Option<string>, temp: Option<string>, task: Task, used: set<string>)

  const EMPTY_DIR := Dir(map[], None, None, Idle, {})

  datatype Step =
    | Create(name: string)
    | Finish(content: nat)
    | WriteTemp
    | Rename
    | StartCleaning(read: bool)
    | Remove(name: string, ok: bool)
    | EndCleaning
    | Stop

  function Removed(d: Dir, name: string, ok: bool): Dir
    requires d.task.Cleaning? && name in d.task.todo
  {
    var gone := d.task.keep != Some(name) && ok;
    var stuck := d.task.keep != Some(name) && !ok;
    d.(files := if gone then d.files - {name} else d.files,
       task := d.task.(todo := d.task.todo - {name}, stuck := d.task.stuck + if stuck then {name} else {}))
  }

  /** One file operation of generate or cleanSnapshots. Names come from the clock and do not
      repeat. A pointer that cannot be read counts as none, and an error of a removal is
      ignored. Stop is any other error, or a crash, at any point. */
  function Do(d: Dir, step: Step): Dir {
    match step
    case Create(name) =>
      if d.task.Idle? && name !in d.used then
        d.(files := d.files[name := Unfinished], used := d.used + {name}, task := Writing(name))
      else d
    case Finish(content) =>
      if d.task.Writing? then
        d.(files := d.files[d.task.name := Finished(content)], task := Written(d.task.name))
      else d
    case WriteTemp => if d.task.Written? then d.(temp := Some(d.task.name), task := Pointed(d.task.name)) else d
    case Rename => if d.task.Pointed? then d.(meta := d.temp, temp := None, task := Idle) else d
    case StartCleaning(read) =>
      if d.task.Idle? then d.(task := Cleaning(if read then d.meta else None, d.files.Keys, {})) else d
    case Remove(name, ok) => if d.task.Cleaning? && name in d.task.todo then Removed(d, name, ok) else d
    case EndCleaning => if d.task.Cleaning? && d.task.todo == {} then d.(temp := None, task := Idle) else d
    case Stop => d.(task := Idle)
  }

  function RunFrom(d: Dir, steps: seq<Step>): Dir {
    if steps == [] then d else Do(RunFrom(d, steps[..|steps| - 1]), steps[|steps| - 1])
  }

  function Run(steps: seq<Step>): Dir { RunFrom(EMPTY_DIR, steps) }

  predicate IsFinished(files: map<string, Content>, name: string) { name in files && files[name].Finished? }

  /** What is always true of the directory. */
  predicate Sound(d: Dir) {
    && d.files.Keys <= d.used
    && (d.meta.Some? ==> d.meta.value in d.used && (d.meta.value in d.files ==> d.files[d.meta.value].Finished?))
    && match d.task
       case Idle => true
       case Writing(name) => name in d.used && d.meta != Some(name) && name in d.files && d.files[name].Unfinished?
       case Written(name) => IsFinished(d.files, name)
       case Pointed(name) => IsFinished(d.files, name) && d.temp == Some(name)
       case Cleaning(keep, todo, stuck) =>
         (keep == d.meta || keep == None) && forall n :: n in d.files && n !in todo ==> Some(n) == keep || n in stuck
  }

  /** The published file is there. */
  predicate Intact(d: Dir) { d.meta.Some? ==> d.meta.value in d.files }

  /** A finished file is removed or stays as it is. */
  predicate Preserves(a: Dir, b: Dir) {
    forall n :: IsFinished(a.files, n) && n in b.files ==> b.files[n] == a.files[n]
  }

  lemma DoSound(d: Dir, step: Step)
    requires Sound(d)
    ensures Sound(Do(d, step)) && Preserves(d, Do(d, step))
    ensures d.meta.Some? ==> Do(d, step).meta.Some?
  {
  }

  lemma {:induction false} RunSound(steps: seq<Step>)
    ensures Sound(Run(steps))
  {
    if steps != [] {
      RunSound(steps[..|steps| - 1]);
      DoSound(Run(steps[..|steps| - 1]), steps[|steps| - 1]);
    }
  }

  /** What ServeSnapshot opens. */
  function Served(d: Dir): Option<Content> {
    if d.meta.Some? && d.meta.value in d.files then Some(d.files[d.meta.value]) else None
  }

  /** The only operation that takes the published file away is a removal by a cleanup that could
      not read the pointer. */
  lemma LosesIff(d: Dir, step: Step)
    requires Sound(d) && Intact(d)
    ensures !Intact(Do(d, step)) <==>
            && step.Remove? && step.ok && d.task.Cleaning? && step.name in d.task.todo
            && d.meta == Some(step.name) && d.task.keep.None?
  {
  }

  /** Every cleanup of the run can read the pointer. */
  predicate PointerRead(steps: seq<Step>) {
    forall i :: 0 <= i < |steps| && steps[i].StartCleaning? ==> steps[i].read
  }

  predicate KeepsPointer(d: Dir) { Intact(d) && (d.task.Cleaning? ==> d.task.keep == d.meta) }

  lemma {:induction false} RunKeeps(steps: seq<Step>)
    requires PointerRead(steps)
    ensures KeepsPointer(Run(steps))
  {
    if steps != [] {
      var n := |steps| - 1;
      RunSound(steps[..n]);
      RunKeeps(steps[..n]);
      LosesIff(Run(steps[..n]), steps[n]);
      assert steps[n].StartCleaning? ==> steps[n].read;
    }
  }

  lemma {:induction false} StaysPublished(steps: seq<Step>, k: nat)
    requires k <= |steps| && Run(steps[..k]).meta.Some?
    ensures Run(steps).meta.Some?
    decreases |steps|
  {
    if k == |steps| {
      assert steps[..k] == steps;
    } else {
      var n := |steps| - 1;
      assert steps[..n][..k] == steps[..k];
      StaysPublished(steps[..n], k);
      RunSound(steps[..n]);
      DoSound(Run(steps[..n]), steps[n]);
    }
  }

  /** Crash-safe publication: after any file operations with failed removals, errors and crashes
      anywhere between them, once a snapshot was published there is always one to serve, as long
      as every cleanup can read the pointer. Whatever is served is a finished file, and a
      completed cleanup leaves nothing else behind but what it failed to remove. */
  lemma ServedIsFinished(steps: seq<Step>, k: nat)
    requires k <= |steps| && Run(steps[..k]).meta.Some?
    ensures Run(steps).meta.Some?
    ensures PointerRead(steps) ==> Served(Run(steps)).Some?
    ensures Served(Run(steps)).Some? ==> Served(Run(steps)).value.Finished?
    ensures var d := Run(steps);
            d.task.Cleaning? && d.task.todo == {} ==> d.files.Keys <= {d.meta.value} + d.task.stuck
  {
    StaysPublished(steps, k);
    RunSound(steps);
    if PointerRead(steps) { RunKeeps(steps); }
  }

  /** The file operations of one publication. */
  function Publication(name: string, content: nat): seq<Step> { [Create(name), Finish(content), WriteTemp, Rename] }

  lemma RunFrom4(d: Dir, a: Step, b: Step, c: Step, e: Step)
    ensures RunFrom(d, [a, b, c, e]) == Do(Do(Do(Do(d, a), b), c), e)
  {
    assert [a][..0] == [] && RunFrom(d, [a]) == Do(d, a);
    assert [a, b][..1] == [a] && RunFrom(d, [a, b]) == Do(Do(d, a), b);
    assert [a, b, c][..2] == [a, b] && RunFrom(d, [a, b, c]) == Do(Do(Do(d, a), b), c);
    assert [a, b, c, e][..3] == [a, b, c];
  }

  /** A publication that nothing interrupts, after any run: the new snapshot is served from then on,
      under its own name, and the files of the earlier ones are untouched. */
  lemma Publishes(steps: seq<Step>, name: string, content: nat, d: Dir, p: Dir)
    requires d == Run(steps) && p == RunFrom(d, Publication(name, content)) && d.task.Idle? && name !in d.used
    ensures p.meta == Some(name) && Served(p) == Some(Finished(content)) && p.task.Idle?
    ensures p.files == d.files[name := Finished(content)] && name !in d.files
  {
    RunSound(steps);
    RunFrom4(d, Create(name), Finish(content), WriteTemp, Rename);
    assert name !in d.files.Keys;
  }

  // ------------------------------------------------------------ one cleanup

  /** cleanSnapshots over the names of a directory listing; removing those in `fails` fails. */
  function Removals(order: seq<string>, fails: set<string>): seq<Step> {
    if order == [] then []
    else
      var n := |order| - 1;
      Removals(order[..n], fails) + [Remove(order[n], order[n] !in fails)]
  }

  function Cleaned(d: Dir, read: bool, order: seq<string>, fails: set<string>): Dir {
    RunFrom(Do(d, StartCleaning(read)), Removals(order, fails))
  }

  predicate Survives(d: Dir, read: bool, fails: set<string>, name: string) {
    name in d.files && ((read && d.meta == Some(name)) || name in fails)
  }

  lemma RemovalsNext(d: Dir, order: seq<string>, fails: set<string>)
    requires order != []
    ensures var n := |order| - 1;
            RunFrom(d, Removals(order, fails)) ==
            Do(RunFrom(d, Removals(order[..n], fails)), Remove(order[n], order[n] !in fails))
  {
    var n := |order| - 1;
    var last := Remove(order[n], order[n] !in fails);
    assert (Removals(order[..n], fails) + [last])[..|Removals(order[..n], fails)|] == Removals(order[..n], fails);
  }

  /** A cleanup that has looked at these names. */
  ghost predicate LookedAt(d: Dir, read: bool, done: seq<string>, fails: set<string>, t: Dir) {
    && t.meta == d.meta && t.task.Cleaning? && t.task.keep == (if read then d.meta else None)
    && (forall n :: n in t.task.todo <==> n in d.files && n !in done)
    && (forall n :: n in t.files <==> n in d.files && (n in done ==> Survives(d, read, fails, n)))
  }

  lemma LooksAtNext(d: Dir, read: bool, done: seq<string>, fails: set<string>, t: Dir, name: string, next: Dir)
    requires LookedAt(d, read, done, fails, t) && name in d.files && name !in done
    requires next == Do(t, Remove(name, name !in fails))
    ensures LookedAt(d, read, done + [name], fails, next)
  {
    assert name in t.task.todo && (t.task.keep == Some(name) <==> read && d.meta == Some(name));
  }

  lemma {:induction false} RemovalsLeave(d: Dir, read: bool, order: seq<string>, fails: set<string>)
    requires d.task.Idle? && (forall i :: 0 <= i < |order| ==> order[i] in d.files)
    requires forall i, j :: 0 <= i < j < |order| ==> order[i] != order[j]
    ensures LookedAt(d, read, order, fails, Cleaned(d, read, order, fails))
  {
    if order != [] {
      var n := |order| - 1;
      var t := Cleaned(d, read, order[..n], fails);
      RemovalsLeave(d, read, order[..n], fails);
      hide LookedAt, Do, Removals;
      RemovalsNext(Do(d, StartCleaning(read)), order, fails);
      assert order == order[..n] + [order[n]] && order[n] !in order[..n];
      LooksAtNext(d, read, order[..n], fails, t, order[n], Cleaned(d, read, order, fails));
    }
  }

  /** Exactly what a completed cleanup leaves: the published file iff the pointer could be read,
      and what could not be removed. */
  lemma CleanupIff(d: Dir, read: bool, order: seq<string>, fails: set<string>, name: string)
    requires d.task.Idle? && (forall n :: n in order <==> n in d.files)
    requires forall i, j :: 0 <= i < j < |order| ==> order[i] != order[j]
    ensures name in Cleaned(d, read, order, fails).files <==> Survives(d, read, fails, name)
    ensures d.meta == Some(name) && name in d.files ==>
              (Served(Cleaned(d, read, order, fails)).Some? <==> read || name in fails)
  {
    RemovalsLeave(d, read, order, fails);
  }

  /** A run that loses the published snapshot: one is published, and then a cleanup cannot read
      the pointer. */
  function LosingRun(name: string): seq<Step> {
    [Create(name), Finish(0), WriteTemp, Rename, StartCleaning(false), Remove(name, true)]
  }

  lemma RunNext(steps: seq<Step>, k: nat, d: Dir)
    requires k < |steps| && Run(steps[..k]) == d
    ensures Run(steps[..k + 1]) == Do(d, steps[k])
  {
    assert steps[..k + 1][..k] == steps[..k];
  }

  /** One snapshot published, and nothing else. */
  function Published(name: string): Dir { Dir(map[name := Finished(0)], Some(name), None, Idle, {name}) }

  lemma PublishesOne(name: string)
    ensures Run(LosingRun(name)[..4]) == Published(name)
  {
    var m := LosingRun(name);
    assert m[..0] == [] && {} + {name} == {name};
    RunNext(m, 0, EMPTY_DIR);
    RunNext(m, 1, Run(m[..1]));
    RunNext(m, 2, Run(m[..2]));
    RunNext(m, 3, Run(m[..3]));
    assert Run(m[..2]).files == map[name := Finished(0)];
  }

  lemma LosesServed(name: string)
    ensures Served(Run(LosingRun(name)[..4])) == Some(Finished(0))
    ensures Run(LosingRun(name)).meta == Some(name) && Served(Run(LosingRun(name))) == None
  {
    var m := LosingRun(name);
    PublishesOne(name);
    RunNext(m, 4, Published(name));
    RunNext(m, 5, Run(m[..5]));
    assert m[..6] == m && name in Published(name).files.Keys;
  }

  /** A file name stands for one content for ever: the ETag of a snapshot is its name. */
  lemma {:induction false} NameMeansContent(steps: seq<Step>, k: nat, name: string)
    requires k <= |steps| && IsFinished(Run(steps[..k]).files, name)
    ensures name in Run(steps).files ==> Run(steps).files[name] == Run(steps[..k]).files[name]
    ensures name in Run(steps).used
    decreases |steps|
  {
    RunSound(steps[..k]);
    if k == |steps| {
      assert steps[..k] == steps;
    } else {
      var n := |steps| - 1;
      assert steps[..n][..k] == steps[..k];
      NameMeansContent(steps[..n], k, name);
      RunSound(steps[..n]);
      DoSound(Run(steps[..n]), steps[n]);
    }
  }
}
