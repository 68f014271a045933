/**
 internal/archive: a day's artifacts staged beside the partition and swapped into place, on
 a file system where every file is removed and written on its own and the process may stop
 after any of those steps.
 */
module Archive {
  import opened Wrappers
  import opened Sorting

  type Dir = map<string, string>

  datatype Artifact = Artifact(filename: string, bytes: string)

  /** The partition's directory and its staging sibling; None is absent. */
  datatype Disk = Disk(full: Option<Dir>, tmp: Option<Dir>)

  datatype Op =
    | RemoveStaged(name: string)
    | DropStaging
    | MakeStaging
    | Truncate(name: string)
    | Fill(name: string, bytes: string)
    | RemoveOld(name: string)
    | DropOld
    | Swap

  function Remove(d: Option<Dir>, name: string): Option<Dir> {
    if d.None? then None else Some(d.value - {name})
  }

  function Put(d: Option<Dir>, name: string, bytes: string): Option<Dir> {
    if d.None? then None else Some(d.value[name := bytes])
  }

  function Apply(d: Disk, op: Op): Disk {
    match op
    case RemoveStaged(name) => d.(tmp := Remove(d.tmp, name))
    case DropStaging => d.(tmp := None)
    case MakeStaging => d.(tmp := if d.tmp.None? then Some(map[]) else d.tmp)
    case Truncate(name) => d.(tmp := Put(d.tmp, name, ""))
    case Fill(name, bytes) => d.(tmp := Put(d.tmp, name, bytes))
    case RemoveOld(name) => d.(full := Remove(d.full, name))
    case DropOld => d.(full := None)
    case Swap => Disk(d.tmp, None)
  }

  function Exec(d: Disk, ops: seq<Op>): Disk {
    if ops == [] then d else Apply(Exec(d, ops[..|ops| - 1]), ops[|ops| - 1])
  }

  lemma {:induction false} ExecAppend(d: Disk, a: seq<Op>, b: seq<Op>)
    ensures Exec(d, a + b) == Exec(Exec(d, a), b)
    decreases |b|
  {
    if b == [] { assert a + b == a; }
    else {
      assert (a + b)[..|a + b| - 1] == a + b[..|b| - 1];
      ExecAppend(d, a, b[..|b| - 1]);
    }
  }

  // ---------------------------------------------------------------- the sequence of steps

  /** The files of a directory, in the order it is emptied. */
  ghost predicate Empties(order: seq<string>, d: Option<Dir>) {
    d.Some? ==> forall name :: name in d.value <==> name in order
  }

  function Removals(order: seq<string>, staged: bool): seq<Op> {
    seq(|order|, i requires 0 <= i < |order| => if staged then RemoveStaged(order[i]) else RemoveOld(order[i]))
  }

  function RemoveStaging(d: Option<Dir>, order: seq<string>): seq<Op> {
    if d.None? then [] else Removals(order, true) + [DropStaging]
  }

  function RemoveFull(d: Option<Dir>, order: seq<string>): seq<Op> {
    if d.None? then [] else Removals(order, false) + [DropOld]
  }

  function Writes(arts: seq<Artifact>): seq<Op> {
    if arts == [] then []
    else
      var a := arts[|arts| - 1];
      Writes(arts[..|arts| - 1]) + [Truncate(a.filename), Fill(a.filename, a.bytes)]
  }

  function Staging(d: Disk, arts: seq<Artifact>, stagedOrder: seq<string>): seq<Op> {
    RemoveStaging(d.tmp, stagedOrder) + [MakeStaging] + Writes(arts)
  }

  function Replacing(d: Option<Dir>, order: seq<string>): seq<Op> { RemoveFull(d, order) + [Swap] }

  /** `WritePartition`, step by step. */
  function Program(d: Disk, arts: seq<Artifact>, stagedOrder: seq<string>, fullOrder: seq<string>): seq<Op> {
    Staging(d, arts, stagedOrder) + Replacing(d.full, fullOrder)
  }

  /** The files the artifacts amount to, the last of one name winning. */
  function FilesOf(arts: seq<Artifact>): Dir {
    if arts == [] then map[]
    else
      var a := arts[|arts| - 1];
      FilesOf(arts[..|arts| - 1])[a.filename := a.bytes]
  }

  // ---------------------------------------------------------------- the imperative writer

  class FileStore {
    var disk: Disk
    var budget: nat

    constructor (disk: Disk, budget: nat)
      ensures this.disk == disk && this.budget == budget
    {
      this.disk, this.budget := disk, budget;
    }

    /** What is left on disk when the process may take `had` more steps. */
    ghost predicate Reached(before: Disk, had: nat, ops: seq<Op>)
      reads this
    {
      && disk == Exec(before, if had < |ops| then ops[..had] else ops)
      && budget == if had < |ops| then 0 else had - |ops|
    }

    /** One step, unless the process is already gone. */
    method Do(op: Op) returns (alive: bool)
      modifies this
      ensures alive <==> old(budget) > 0
      ensures disk == if alive then Apply(old(disk), op) else old(disk)
      ensures budget == if alive then old(budget) - 1 else 0
    {
      if budget == 0 { return false; }
      disk, budget := Apply(disk, op), budget - 1;
      alive := true;
    }

    method DoAll(ops: seq<Op>) returns (alive: bool)
      modifies this
      ensures Reached(old(disk), old(budget), ops)
      ensures alive <==> old(budget) >= |ops|
    {
      for i := 0 to |ops|
        invariant budget == old(budget) - i && disk == Exec(old(disk), ops[..i])
      {
        assert ops[..i + 1][..i] == ops[..i];
        alive := Do(ops[i]);
        if !alive { return; }
      }
      assert ops[..|ops|] == ops;
      alive := true;
    }

    method WriteFiles(arts: seq<Artifact>) returns (alive: bool)
      modifies this
      ensures Reached(old(disk), old(budget), Writes(arts))
      ensures alive <==> old(budget) >= |Writes(arts)|
    {
      ghost var d, had := disk, budget;
      for i := 0 to |arts|
        invariant Reached(d, had, Writes(arts[..i])) && |Writes(arts[..i])| <= had
      {
        WritesNext(d, arts, i, had);
        alive := DoAll([Truncate(arts[i].filename), Fill(arts[i].filename, arts[i].bytes)]);
        if !alive { return; }
      }
      assert arts[..|arts|] == arts;
      alive := true;
    }

    method Stage(arts: seq<Artifact>, order: seq<string>) returns (alive: bool)
      modifies this
      ensures Reached(old(disk), old(budget), Staging(old(disk), arts, order))
      ensures alive <==> old(budget) >= |Staging(old(disk), arts, order)|
    {
      ghost var d, had := disk, budget;
      ghost var a := RemoveStaging(d.tmp, order) + [MakeStaging];
      alive := DoAll(RemoveStaging(disk.tmp, order) + [MakeStaging]);
      Cut(a, Writes(arts), had);
      if !alive { return; }
      alive := WriteFiles(arts);
      Continue(d, a, Writes(arts), had);
    }

    /** `WritePartition`: stage, remove the old partition, swap. */
    method WritePartition(arts: seq<Artifact>, stagedOrder: seq<string>, fullOrder: seq<string>)
      returns (ok: bool)
      modifies this
      ensures Reached(old(disk), old(budget), Program(old(disk), arts, stagedOrder, fullOrder))
      ensures ok <==> old(budget) >= |Program(old(disk), arts, stagedOrder, fullOrder)|
    {
      ghost var d, had := disk, budget;
      ghost var stage := Staging(d, arts, stagedOrder);
      ok := Stage(arts, stagedOrder);
      Cut(stage, Replacing(d.full, fullOrder), had);
      if !ok { return; }
      StagingBuilds(d, arts, stagedOrder);
      ok := DoAll(Replacing(disk.full, fullOrder));
      Continue(d, stage, Replacing(d.full, fullOrder), had);
    }
  }

  lemma Continue(d: Disk, a: seq<Op>, b: seq<Op>, had: nat)
    requires |a| <= had
    ensures had < |a + b| ==> Exec(d, (a + b)[..had]) == Exec(Exec(d, a), b[..had - |a|])
    ensures Exec(d, a + b) == Exec(Exec(d, a), b)
  {
    ExecAppend(d, a, b);
    if had < |a + b| {
      assert (a + b)[..had] == a + b[..had - |a|];
      ExecAppend(d, a, b[..had - |a|]);
    }
  }

  /** One more artifact, whether or not the process lives to write it. */
  lemma WritesNext(d: Disk, arts: seq<Artifact>, i: nat, had: nat)
    requires i < |arts| && |Writes(arts[..i])| <= had
    ensures var a, next := Writes(arts[..i]), [Truncate(arts[i].filename), Fill(arts[i].filename, arts[i].bytes)];
      && |Writes(arts[..i + 1])| == |a| + 2
      && Exec(d, Writes(arts[..i + 1])) == Exec(Exec(d, a), next)
      && (had < |a| + 2 ==>
            had < |Writes(arts)| && Exec(d, Writes(arts)[..had]) == Exec(Exec(d, a), next[..had - |a|]))
  {
    var a, next := Writes(arts[..i]), [Truncate(arts[i].filename), Fill(arts[i].filename, arts[i].bytes)];
    assert arts[..i + 1][..i] == arts[..i];
    assert Writes(arts[..i + 1]) == a + next;
    WritesPrefix(arts, i + 1);
    Continue(d, a, next, had);
    if had < |a| + 2 { assert Writes(arts)[..had] == (a + next)[..had]; }
  }

  lemma Cut(a: seq<Op>, b: seq<Op>, had: nat)
    ensures had <= |a| ==> (a + b)[..had] == a[..had]
  {
  }

  lemma {:induction false} WritesPrefix(arts: seq<Artifact>, i: nat)
    requires i <= |arts|
    ensures Writes(arts[..i]) <= Writes(arts)
    decreases |arts| - i
  {
    if i == |arts| { assert arts[..i] == arts; }
    else {
      assert arts[..i + 1][..i] == arts[..i];
      WritesPrefix(arts, i + 1);
    }
  }

  // ---------------------------------------------------------------- what a crash can leave

  predicate TouchesFull(op: Op) { op.RemoveOld? || op.DropOld? || op.Swap? }

  lemma {:induction false} FullUntouched(d: Disk, ops: seq<Op>)
    requires forall i :: 0 <= i < |ops| ==> !TouchesFull(ops[i])
    ensures Exec(d, ops).full == d.full
  {
    if ops != [] { FullUntouched(d, ops[..|ops| - 1]); }
  }

  lemma {:induction false} WritesTouchNothing(arts: seq<Artifact>)
    ensures forall i :: 0 <= i < |Writes(arts)| ==> !TouchesFull(Writes(arts)[i])
  {
    if arts != [] { WritesTouchNothing(arts[..|arts| - 1]); }
  }

  lemma StagingKeepsFull(d: Disk, arts: seq<Artifact>, order: seq<string>, k: nat)
    requires k <= |Staging(d, arts, order)|
    ensures Exec(d, Staging(d, arts, order)[..k]).full == d.full
  {
    WritesTouchNothing(arts);
    FullUntouched(d, Staging(d, arts, order)[..k]);
  }

  /** What is left of a directory once the files of `order` are gone. */
  function Left(m: Dir, order: seq<string>): (left: Dir)
    ensures forall x :: x in left <==> x in m && x !in order
    ensures forall x :: x in left ==> left[x] == m[x]
  {
    if order == [] then m
    else
      assert order == order[..|order| - 1] + [order[|order| - 1]];
      Left(m, order[..|order| - 1]) - {order[|order| - 1]}
  }

  lemma {:induction false} RemovalsExec(d: Disk, order: seq<string>, k: nat)
    requires k <= |order| && d.full.Some?
    ensures Exec(d, Removals(order, false)[..k]) == d.(full := Some(Left(d.full.value, order[..k])))
  {
    if k > 0 {
      var ops := Removals(order, false);
      assert ops[..k][..k - 1] == ops[..k - 1] && order[..k][..k - 1] == order[..k - 1];
      RemovalsExec(d, order, k - 1);
    }
  }

  lemma StagingCleared(d: Disk, order: seq<string>)
    ensures Exec(d, RemoveStaging(d.tmp, order)) == Disk(d.full, None)
  {
    var ops := RemoveStaging(d.tmp, order);
    FullUntouched(d, ops);
    if d.tmp.Some? { assert ops[|ops| - 1] == DropStaging; }
  }

  /** Whatever staging was left behind, it is rebuilt as exactly the new files. */
  lemma StagingBuilds(d: Disk, arts: seq<Artifact>, order: seq<string>)
    ensures Exec(d, Staging(d, arts, order)) == Disk(d.full, Some(FilesOf(arts)))
  {
    var a := RemoveStaging(d.tmp, order);
    StagingCleared(d, order);
    ExecAppend(d, a, [MakeStaging]);
    ExecAppend(d, a + [MakeStaging], Writes(arts));
    var made := Disk(d.full, Some(map[]));
    assert Exec(Disk(d.full, None), [MakeStaging]) == made by { assert [MakeStaging][..0] == []; }
    WritesExec(made, arts);
  }

  lemma {:induction false} WritesExec(d: Disk, arts: seq<Artifact>)
    requires d.tmp == Some(map[])
    ensures Exec(d, Writes(arts)) == d.(tmp := Some(FilesOf(arts)))
  {
    if arts != [] {
      var init, a := arts[..|arts| - 1], arts[|arts| - 1];
      WritesExec(d, init);
      ExecAppend(d, Writes(init), [Truncate(a.filename), Fill(a.filename, a.bytes)]);
      WriteExec(d.(tmp := Some(FilesOf(init))), FilesOf(init), a);
    }
  }

  lemma WriteExec(d: Disk, files: Dir, a: Artifact)
    requires d.tmp == Some(files)
    ensures Exec(d, [Truncate(a.filename), Fill(a.filename, a.bytes)])
         == d.(tmp := Some(files[a.filename := a.bytes]))
  {
    var x, y := Truncate(a.filename), Fill(a.filename, a.bytes);
    assert [x, y][..1] == [x] && [x][..0] == [];
    assert Exec(d, [x]) == Apply(d, x);
    assert files[a.filename := ""][a.filename := a.bytes] == files[a.filename := a.bytes];
  }

  /** What is on disk when the writer stops after `k` steps, from its removal of the old
      partition on. */
  function AfterStaging(full: Option<Dir>, files: Dir, fullOrder: seq<string>, k: nat): Disk {
    if full.Some? && k <= |fullOrder| then Disk(Some(Left(full.value, fullOrder[..k])), Some(files))
    else Disk(None, Some(files))
  }

  /** What is at the final path when the writer stops after `k` steps: the old partition,
      what is left of it once its removal began, nothing, or exactly the new one. */
  lemma CrashLeaves(d: Disk, arts: seq<Artifact>, stagedOrder: seq<string>, fullOrder: seq<string>, k: nat)
    requires k <= |Program(d, arts, stagedOrder, fullOrder)|
    ensures var n := |Staging(d, arts, stagedOrder)|;
      var p := Program(d, arts, stagedOrder, fullOrder);
      && (k <= n ==> Exec(d, p[..k]).full == d.full)
      && (n < k < |p| ==> Exec(d, p[..k]) == AfterStaging(d.full, FilesOf(arts), fullOrder, k - n))
      && (k == |p| ==> Exec(d, p[..k]) == Disk(Some(FilesOf(arts)), None))
  {
    var stage, drop := Staging(d, arts, stagedOrder), RemoveFull(d.full, fullOrder);
    var p := Program(d, arts, stagedOrder, fullOrder);
    var n := |stage|;
    if k <= n {
      assert p[..k] == stage[..k];
      StagingKeepsFull(d, arts, stagedOrder, k);
    } else {
      StagingBuilds(d, arts, stagedOrder);
      DropExec(Disk(d.full, Some(FilesOf(arts))), fullOrder, if k == |p| then |drop| else k - n);
      if k < |p| {
        assert p[..k] == stage + drop[..k - n];
        ExecAppend(d, stage, drop[..k - n]);
      } else {
        assert p[..k] == p && p[..|p| - 1] == stage + drop && p[|p| - 1] == Swap;
        assert drop[..|drop|] == drop;
        ExecAppend(d, stage, drop);
      }
    }
  }

  lemma DropExec(d: Disk, order: seq<string>, k: nat)
    requires k <= |RemoveFull(d.full, order)| && d.tmp.Some?
    ensures Exec(d, RemoveFull(d.full, order)[..k]) == AfterStaging(d.full, d.tmp.value, order, k)
  {
    var ops := RemoveFull(d.full, order);
    if d.full.Some? {
      if k <= |order| {
        assert ops[..k] == Removals(order, false)[..k];
        RemovalsExec(d, order, k);
      } else {
        assert ops[..k][..|order|] == Removals(order, false)[..|order|];
        RemovalsExec(d, order, |order|);
      }
    }
  }

  predicate SubMap(a: Dir, b: Dir) { forall name :: name in a ==> name in b && a[name] == b[name] }

  /** A crash never mixes the two days: whatever is at the final path is a part of the old
      partition or the whole of the new one. */
  lemma NeverAMix(d: Disk, arts: seq<Artifact>, stagedOrder: seq<string>, fullOrder: seq<string>, k: nat)
    requires k <= |Program(d, arts, stagedOrder, fullOrder)|
    ensures var e := Exec(d, Program(d, arts, stagedOrder, fullOrder)[..k]);
      || e.full.None?
      || e.full == Some(FilesOf(arts))
      || (d.full.Some? && SubMap(e.full.value, d.full.value))
  {
    CrashLeaves(d, arts, stagedOrder, fullOrder, k);
  }

  /** Re-running from whatever a crash left, staging included, ends with exactly the new set. */
  lemma RerunRecovers(d: Disk, arts: seq<Artifact>, s1: seq<string>, f1: seq<string>, k: nat,
                      s2: seq<string>, f2: seq<string>)
    requires k <= |Program(d, arts, s1, f1)|
    ensures var crashed := Exec(d, Program(d, arts, s1, f1)[..k]);
      Exec(crashed, Program(crashed, arts, s2, f2)) == Disk(Some(FilesOf(arts)), None)
  {
    var crashed := Exec(d, Program(d, arts, s1, f1)[..k]);
    var p := Program(crashed, arts, s2, f2);
    CrashLeaves(crashed, arts, s2, f2, |p|);
    assert p[..|p|] == p;
  }

  /** The swap comes last, and just before it the final path holds nothing: for that moment
      the day is not there at all. */
  lemma NothingIsThereBeforeTheSwap(d: Disk, arts: seq<Artifact>, stagedOrder: seq<string>, fullOrder: seq<string>)
    ensures var p := Program(d, arts, stagedOrder, fullOrder);
      && |p| > 0 && p[|p| - 1] == Swap
      && Exec(d, p[..|p| - 1]) == Disk(None, Some(FilesOf(arts)))
  {
    var p := Program(d, arts, stagedOrder, fullOrder);
    CrashLeaves(d, arts, stagedOrder, fullOrder, |p| - 1);
    StagingBuilds(d, arts, stagedOrder);
    assert p[..|p| - 1] == Staging(d, arts, stagedOrder) + RemoveFull(d.full, fullOrder);
    if d.full.None? { assert p[..|p| - 1] == Staging(d, arts, stagedOrder); }
  }

  // ---------------------------------------------------------------- a partial new partition

  /** Some of the new files and not all of them, at the path where they would look complete. */
  predicate LooksPartial(full: Option<Dir>, wanted: Dir) {
    full.Some? && full.value != map[] && full.value != wanted && SubMap(full.value, wanted)
  }

  /** Removing the old partition file by file can leave a proper part of the new one behind,
      when both days hold the same file: for some order of removal that happens exactly when
      they share a file and the new day has another. */
  lemma PartialNewPartition(d: Disk, arts: seq<Artifact>, stagedOrder: seq<string>)
    requires d.full.Some?
    ensures (exists fullOrder: seq<string>, k: nat :: IsPartialAt(d, arts, stagedOrder, fullOrder, k)) <==>
            |FilesOf(arts)| > 1 && exists name :: Shares(d.full.value, FilesOf(arts), name)
  {
    if fullOrder: seq<string>, k: nat :| IsPartialAt(d, arts, stagedOrder, fullOrder, k) {
      NeverAMix(d, arts, stagedOrder, fullOrder, k);
      PartialShares(Exec(d, Program(d, arts, stagedOrder, fullOrder)[..k]).full.value,
                    d.full.value, FilesOf(arts));
    }
    if |FilesOf(arts)| > 1 {
      if name :| Shares(d.full.value, FilesOf(arts), name) {
        SharedFileIsLeft(d, arts, stagedOrder, name);
      }
    }
  }

  lemma SharedFileIsLeft(d: Disk, arts: seq<Artifact>, stagedOrder: seq<string>, name: string)
    requires d.full.Some? && Shares(d.full.value, FilesOf(arts), name) && |FilesOf(arts)| > 1
    ensures exists fullOrder: seq<string>, k: nat :: IsPartialAt(d, arts, stagedOrder, fullOrder, k)
  {
    var was := d.full.value;
    var order := OrderOf(was.Keys - {name});
    LeftOne(was, order, name);
    OneOfMany(FilesOf(arts), name);
    LeftAt(d, arts, stagedOrder, order, name);
  }

  lemma LeftAt(d: Disk, arts: seq<Artifact>, stagedOrder: seq<string>, order: seq<string>, name: string)
    requires d.full.Some? && name in d.full.value
    requires forall x :: x in order <==> x in d.full.value.Keys - {name}
    requires LooksPartial(Some(Left(d.full.value, order)), FilesOf(arts))
    ensures IsPartialAt(d, arts, stagedOrder, order + [name], |Staging(d, arts, stagedOrder)| + |order|)
  {
    EmptiesAll(d.full.value, order, name);
    LeftExec(d, arts, stagedOrder, order, name);
  }

  lemma EmptiesAll(was: Dir, order: seq<string>, name: string)
    requires name in was && forall x :: x in order <==> x in was.Keys - {name}
    ensures Empties(order + [name], Some(was))
  {
  }

  lemma LeftExec(d: Disk, arts: seq<Artifact>, stagedOrder: seq<string>, order: seq<string>, name: string)
    requires d.full.Some?
    ensures var k := |Staging(d, arts, stagedOrder)| + |order|;
      var p := Program(d, arts, stagedOrder, order + [name]);
      k < |p| && Exec(d, p[..k]).full == Some(Left(d.full.value, order))
  {
    var all, n := order + [name], |Staging(d, arts, stagedOrder)|;
    CrashLeaves(d, arts, stagedOrder, all, n + |order|);
    if order == [] { assert Left(d.full.value, order) == d.full.value; }
    else { assert all[..n + |order| - n] == order; }
  }

  lemma LeftOne(was: Dir, order: seq<string>, name: string)
    requires name in was && forall x :: x in order <==> x in was.Keys - {name}
    ensures Left(was, order) == map[name := was[name]]
  {
  }

  lemma OneOfMany(now: Dir, name: string)
    requires name in now && |now| > 1
    ensures LooksPartial(Some(map[name := now[name]]), now)
  {
    assert |map[name := now[name]]| == 1;
  }

  predicate Shares(a: Dir, b: Dir, name: string) { name in a && name in b && a[name] == b[name] }

  ghost predicate IsPartialAt(d: Disk, arts: seq<Artifact>, stagedOrder: seq<string>, fullOrder: seq<string>, k: nat) {
    && Empties(fullOrder, d.full) && k <= |Program(d, arts, stagedOrder, fullOrder)|
    && LooksPartial(Exec(d, Program(d, arts, stagedOrder, fullOrder)[..k]).full, FilesOf(arts))
  }

  lemma PartialShares(e: Dir, was: Dir, now: Dir)
    requires SubMap(e, was) && SubMap(e, now) && e != map[] && e != now
    ensures |now| > 1 && exists name :: Shares(was, now, name)
  {
    NonEmpty(e.Keys);
    assert e.Keys != {};
    var name :| name in e.Keys;
    assert Shares(was, now, name);
    assert (forall x :: x in now.Keys ==> x == name) ==> now == e;
    var other :| other in now.Keys && other != name;
    SubsetSize({name, other}, now.Keys);
    assert |{name, other}| == 2;
  }

  lemma SubsetSize(a: set<string>, b: set<string>)
    requires a <= b
    ensures |a| <= |b|
  {
    assert b == a + (b - a);
  }

  ghost function OrderOf(s: set<string>): (order: seq<string>)
    ensures forall x :: x in s <==> x in order
  {
    if s == {} then []
    else
      NonEmpty(s);
      var x :| x in s;
      OrderOf(s - {x}) + [x]
  }

  // ---------------------------------------------------------------- fetching

  /** How one request ended: no answer, a 200 whose body was read or not, another status. */
  datatype Response = NoAnswer | Ok(body: string, readOk: bool) | Status(code: int)

  datatype Fetched = Body(body: string) | ReadFailed | Permanent(code: int) | Cancelled | GaveUp

  const MaxAttempts := 4

  predicate Retryable(r: Response) { r.NoAnswer? || (r.Status? && r.code >= 500) }

  /** `Get`: attempt `n` meets `responses(n)`, and its back-off is cut short by `cancelled(n)`.
      It makes every attempt that is due and none that is not. */
  method Get(responses: nat -> Response, cancelled: nat -> bool) returns (r: Fetched, attempts: nat)
    ensures 1 <= attempts <= 4
    ensures forall i :: 0 <= i < attempts - 1 ==>
      !cancelled(i) && !responses(i).Ok? && (responses(i).Status? ==> responses(i).code >= 500)
    ensures var last := responses(attempts - 1);
      && (last.Ok? ==> r == if last.readOk then Body(last.body) else ReadFailed)
      && (last.Status? && last.code < 500 ==> r == Permanent(last.code))
      && (!last.Ok? && (last.Status? ==> last.code >= 500) ==>
            if attempts < 4 then cancelled(attempts - 1) && r == Cancelled else r == GaveUp)
  {
    attempts := 0;
    while attempts < MaxAttempts
      invariant attempts <= MaxAttempts
      invariant forall i :: 0 <= i < attempts ==> Retryable(responses(i)) && (i < MaxAttempts - 1 ==> !cancelled(i))
    {
      var resp := responses(attempts);
      attempts := attempts + 1;
      match resp {
        case NoAnswer =>
        case Ok(body, readOk) => return (if readOk then Body(body) else ReadFailed), attempts;
        case Status(code) => if code < 500 { return Permanent(code), attempts; }
      }
      if attempts < MaxAttempts && cancelled(attempts - 1) { return Cancelled, attempts; }
    }
    r := GaveUp;
  }
}
