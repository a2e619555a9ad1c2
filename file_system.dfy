/**
 * The part of the filesystem the generator touches: files with their
 * contents, directories, and a log of the operations that took effect.
 * `Step` is the meaning of the two operations the generator uses (make a
 * directory with all its ancestors, write a file into an existing directory);
 * `Run` performs a sequence of them and stops at the first failure, as an
 * exception thrown by one `await` skips all the later ones.
 */
module FileSystem {
  import opened Common

  datatype FsState<C> = FsState(files: map<Path, C>, dirs: set<Path>)

  datatype FsError =
    | AlreadyExists(path: Path)
    | NotADirectory(path: Path)
    | IsADirectory(path: Path)
    | NoSuchDirectory(path: Path)

  /** `ensureDir` and `writeFile`. */
  datatype Op<C> = Mkdirs(path: Path) | Write(path: Path, content: C)

  predicate Exists<C>(s: FsState<C>, p: Path)
  {
    p in s.files || p in s.dirs
  }

  /** `p` and all its ancestors, the root included. */
  function Prefixes(p: Path): set<Path>
  {
    set k | 0 <= k <= |p| :: p[..k]
  }

  /** Some ancestor of `p`, or `p` itself, is a file. */
  ghost predicate FileOnPath<C>(s: FsState<C>, p: Path)
  {
    exists k :: 0 <= k <= |p| && p[..k] in s.files
  }

  /**
   * One operation.  Making a directory fails when a file stands on its path
   * and otherwise creates every missing ancestor; writing a file fails on a
   * directory or when the parent directory is missing, and otherwise creates
   * or replaces the file.
   */
  ghost function Step<C>(s: FsState<C>, op: Op<C>): Result<FsState<C>, FsError>
  {
    match op
    case Mkdirs(p) =>
      if FileOnPath(s, p) then Err(NotADirectory(p)) else Ok(FsState(s.files, s.dirs + Prefixes(p)))
    case Write(p, c) =>
      if p in s.dirs then Err(IsADirectory(p))
      else if Parent(p) !in s.dirs then Err(NoSuchDirectory(p))
      else Ok(FsState(s.files[p := c], s.dirs))
  }

  /** The state after a run, the operations that took effect, and the failure that stopped it. */
  datatype RunResult<C> = RunResult(state: FsState<C>, applied: seq<Op<C>>, error: Option<FsError>)

  ghost function Run<C>(s: FsState<C>, ops: seq<Op<C>>): (r: RunResult<C>)
    ensures r.error.None? ==> r.applied == ops
    ensures r.applied <= ops
    decreases |ops|
  {
    if ops == [] then RunResult(s, [], None)
    else match Step(s, ops[0])
      case Err(e) => RunResult(s, [], Some(e))
      case Ok(next) =>
        var rest := Run(next, ops[1..]);
        assert ops == [ops[0]] + ops[1..];
        RunResult(rest.state, [ops[0]] + rest.applied, rest.error)
  }

  /** Continue a run with more operations, unless it already failed. */
  ghost function Then<C>(r: RunResult<C>, ops: seq<Op<C>>): RunResult<C>
  {
    if r.error.Some? then r
    else
      var rest := Run(r.state, ops);
      RunResult(rest.state, r.applied + rest.applied, rest.error)
  }

  /** Running two sequences one after the other is running their concatenation. */
  lemma {:induction false} RunAppend<C>(s: FsState<C>, a: seq<Op<C>>, b: seq<Op<C>>)
    ensures Run(s, a + b) == Then(Run(s, a), b)
    decreases |a|
  {
    if a == [] {
      assert a + b == b;
    } else {
      assert (a + b)[0] == a[0] && (a + b)[1..] == a[1..] + b;
      match Step(s, a[0]) {
        case Err(e) =>
        case Ok(next) =>
          RunAppend(next, a[1..], b);
          assert [a[0]] + Run(next, a[1..]).applied + Run(Run(next, a[1..]).state, b).applied
              == [a[0]] + (Run(next, a[1..]).applied + Run(Run(next, a[1..]).state, b).applied);
      }
    }
  }

  /** A run of one operation is that operation's step. */
  lemma RunSingle<C>(s: FsState<C>, op: Op<C>)
    ensures Step(s, op).Err? ==> Run(s, [op]) == RunResult(s, [], Some(Step(s, op).error))
    ensures Step(s, op).Ok? ==> Run(s, [op]) == RunResult(Step(s, op).value, [op], None)
  {
    assert [op][0] == op && [op][1..] == [];
  }

  /** What one more operation does to a run: nothing after a failure, otherwise its step. */
  lemma RunSnoc<C>(s: FsState<C>, done: seq<Op<C>>, op: Op<C>)
    ensures Run(s, done).error.Some? ==> Run(s, done + [op]) == Run(s, done)
    ensures Run(s, done).error.None? && Step(Run(s, done).state, op).Err? ==>
              Run(s, done + [op]) == RunResult(Run(s, done).state, Run(s, done).applied,
                                               Some(Step(Run(s, done).state, op).error))
    ensures Run(s, done).error.None? && Step(Run(s, done).state, op).Ok? ==>
              Run(s, done + [op]) == RunResult(Step(Run(s, done).state, op).value,
                                               Run(s, done).applied + [op], None)
  {
    RunAppend(s, done, [op]);
    var r := Run(s, done);
    if r.error.None? {
      RunSingle(r.state, op);
      assert r.applied + [] == r.applied;
    }
  }

  /** The performed operation, its new state and its failure agree with `Step`. */
  ghost predicate Follows<C>(before: FsState<C>, op: Op<C>, after: FsState<C>, err: Option<FsError>)
  {
    match Step(before, op)
    case Ok(next) => err.None? && after == next
    case Err(e) => err == Some(e) && after == before
  }

  // ---------------------------------------------------------------------------
  // Well-formed states

  /**
   * The root is a directory, every directory and file sits in a directory,
   * and nothing is both a file and a directory.
   */
  ghost predicate Valid<C>(s: FsState<C>)
  {
    && [] in s.dirs
    && (forall d :: d in s.dirs ==> Parent(d) in s.dirs)
    && (forall f :: f in s.files ==> Parent(f) in s.dirs)
    && (forall f :: f in s.files ==> f !in s.dirs)
  }

  /** Every ancestor of a directory is a directory. */
  lemma {:induction false} DirAncestors<C>(s: FsState<C>, d: Path)
    requires Valid(s) && d in s.dirs
    ensures forall k :: 0 <= k <= |d| ==> d[..k] in s.dirs
    decreases |d|
  {
    if d != [] {
      var up := Parent(d);
      DirAncestors(s, up);
      forall k | 0 <= k <= |d| ensures d[..k] in s.dirs {
        if k < |d| {
          assert d[..k] == up[..k];
        } else {
          assert d[..k] == d;
        }
      }
    }
  }

  lemma PrefixesOfPrefix(p: Path, k: nat)
    requires 0 < k <= |p|
    ensures Parent(p[..k]) == p[..k - 1]
  {
  }

  /** Both operations keep a state well formed. */
  lemma StepValid<C>(s: FsState<C>, op: Op<C>)
    requires Valid(s) && Step(s, op).Ok?
    ensures Valid(Step(s, op).value)
  {
    var next := Step(s, op).value;
    match op {
      case Mkdirs(p) =>
        forall d | d in next.dirs ensures Parent(d) in next.dirs {
          if d !in s.dirs {
            var k :| 0 <= k <= |p| && d == p[..k];
            if k > 0 {
              PrefixesOfPrefix(p, k);
              assert p[..k - 1] in Prefixes(p);
            }
          }
        }
      case Write(p, c) =>
    }
  }

  // ---------------------------------------------------------------------------
  // What a successful run leaves behind

  /** The paths a sequence of operations writes files to. */
  ghost function Written<C>(ops: seq<Op<C>>): set<Path>
  {
    set i | 0 <= i < |ops| && ops[i].Write? :: ops[i].path
  }

  /** The directories a sequence of operations asks for. */
  ghost function Made<C>(ops: seq<Op<C>>): set<Path>
  {
    set i | 0 <= i < |ops| && ops[i].Mkdirs? :: ops[i].path
  }

  lemma WrittenCons<C>(op: Op<C>, rest: seq<Op<C>>)
    ensures Written([op] + rest) == (if op.Write? then {op.path} else {}) + Written(rest)
    ensures Made([op] + rest) == (if op.Mkdirs? then {op.path} else {}) + Made(rest)
  {
    var ops := [op] + rest;
    assert ops[0] == op;
    assert forall i :: 0 < i < |ops| ==> ops[i] == rest[i - 1];
    forall p | p in Written(rest) ensures p in Written(ops) {
      var i :| 0 <= i < |rest| && rest[i].Write? && rest[i].path == p;
      assert ops[i + 1] == rest[i];
    }
    forall p | p in Made(rest) ensures p in Made(ops) {
      var i :| 0 <= i < |rest| && rest[i].Mkdirs? && rest[i].path == p;
      assert ops[i + 1] == rest[i];
    }
  }

  lemma WrittenAppend<C>(a: seq<Op<C>>, b: seq<Op<C>>)
    ensures Written(a + b) == Written(a) + Written(b)
    ensures Made(a + b) == Made(a) + Made(b)
  {
    var ops := a + b;
    forall p | p in Written(a) ensures p in Written(ops) {
      var i :| 0 <= i < |a| && a[i].Write? && a[i].path == p;
      assert ops[i] == a[i];
    }
    forall p | p in Made(a) ensures p in Made(ops) {
      var i :| 0 <= i < |a| && a[i].Mkdirs? && a[i].path == p;
      assert ops[i] == a[i];
    }
    forall p | p in Written(b) ensures p in Written(ops) {
      var i :| 0 <= i < |b| && b[i].Write? && b[i].path == p;
      assert ops[|a| + i] == b[i];
    }
    forall p | p in Made(b) ensures p in Made(ops) {
      var i :| 0 <= i < |b| && b[i].Mkdirs? && b[i].path == p;
      assert ops[|a| + i] == b[i];
    }
    forall p | p in Written(ops) ensures p in Written(a) + Written(b) {
      var i :| 0 <= i < |ops| && ops[i].Write? && ops[i].path == p;
      if i >= |a| {
        assert b[i - |a|] == ops[i];
      }
    }
    forall p | p in Made(ops) ensures p in Made(a) + Made(b) {
      var i :| 0 <= i < |ops| && ops[i].Mkdirs? && ops[i].path == p;
      if i >= |a| {
        assert b[i - |a|] == ops[i];
      }
    }
  }

  /**
   * A run that failed has performed exactly the operations before the failing
   * one, and the state it leaves is what those operations alone produce; no
   * earlier effect is undone.
   */
  lemma {:induction false} RunFailure<C>(s: FsState<C>, ops: seq<Op<C>>)
    requires Run(s, ops).error.Some?
    ensures var r := Run(s, ops);
            && |r.applied| < |ops|
            && Run(s, r.applied) == RunResult(r.state, r.applied, None)
            && Step(r.state, ops[|r.applied|]) == Err(r.error.value)
    decreases |ops|
  {
    match Step(s, ops[0]) {
      case Err(e) =>
      case Ok(next) =>
        RunFailure(next, ops[1..]);
        var rest := Run(next, ops[1..]);
        var applied := [ops[0]] + rest.applied;
        assert applied[0] == ops[0] && applied[1..] == rest.applied;
    }
  }

  /**
   * After a run that did not fail, the files are the old ones plus every
   * path written, and every directory asked for exists beside the old ones.
   */
  lemma {:induction false} RunLeaves<C>(s: FsState<C>, ops: seq<Op<C>>)
    requires Run(s, ops).error.None?
    ensures Run(s, ops).state.files.Keys == s.files.Keys + Written(ops)
    ensures s.dirs + Made(ops) <= Run(s, ops).state.dirs
    decreases |ops|
  {
    if ops != [] {
      var next := Step(s, ops[0]).value;
      RunLeaves(next, ops[1..]);
      assert ops == [ops[0]] + ops[1..];
      WrittenCons(ops[0], ops[1..]);
      if ops[0].Mkdirs? {
        assert ops[0].path[..|ops[0].path|] == ops[0].path;
      }
    }
  }

  /** A file no operation of a completed run writes keeps its presence and its content. */
  lemma {:induction false} RunUntouched<C>(s: FsState<C>, ops: seq<Op<C>>, p: Path)
    requires Run(s, ops).error.None? && p !in Written(ops)
    ensures p in Run(s, ops).state.files <==> p in s.files
    ensures p in s.files ==> Run(s, ops).state.files[p] == s.files[p]
    decreases |ops|
  {
    if ops != [] {
      assert ops == [ops[0]] + ops[1..];
      WrittenCons(ops[0], ops[1..]);
      RunUntouched(Step(s, ops[0]).value, ops[1..], p);
    }
  }

  /** The last write of a completed run leaves its content in its file. */
  lemma RunLastWrite<C>(s: FsState<C>, ops: seq<Op<C>>, p: Path, c: C)
    requires Run(s, ops + [Write(p, c)]).error.None?
    ensures p in Run(s, ops + [Write(p, c)]).state.files
    ensures Run(s, ops + [Write(p, c)]).state.files[p] == c
  {
    RunSnoc(s, ops, Write(p, c));
  }

  /** A write that no later operation of a completed run repeats leaves its content in its file. */
  lemma RunKeepsWrite<C>(s: FsState<C>, head: seq<Op<C>>, p: Path, c: C, rest: seq<Op<C>>)
    requires Run(s, head + [Write(p, c)] + rest).error.None? && p !in Written(rest)
    ensures p in Run(s, head + [Write(p, c)] + rest).state.files
    ensures Run(s, head + [Write(p, c)] + rest).state.files[p] == c
  {
    RunAppend(s, head + [Write(p, c)], rest);
    RunLastWrite(s, head, p, c);
    RunUntouched(Run(s, head + [Write(p, c)]).state, rest, p);
  }

  /** The last two writes of a completed run, to different files, both leave their contents. */
  lemma RunLastTwoWrites<C>(s: FsState<C>, ops: seq<Op<C>>, p: Path, x: C, q: Path, y: C)
    requires Run(s, ops + [Write(p, x), Write(q, y)]).error.None? && p != q
    ensures var after := Run(s, ops + [Write(p, x), Write(q, y)]).state;
            && p in after.files && after.files[p] == x
            && q in after.files && after.files[q] == y
  {
    assert ops + [Write(p, x), Write(q, y)] == (ops + [Write(p, x)]) + [Write(q, y)];
    RunSnoc(s, ops + [Write(p, x)], Write(q, y));
    RunLastWrite(s, ops, p, x);
  }

  // ---------------------------------------------------------------------------
  // Creating a fresh directory and filling it

  /** `p` lies at or below `target`. */
  predicate Under(target: Path, p: Path)
  {
    |target| <= |p| && p[..|target|] == target
  }

  /**
   * A well-formed state in which `target` is a directory, every file below it
   * has a dotted name and every directory below it dot-free names.  Such a
   * state admits the making of dot-free directories and the writing of dotted
   * files below `target`.
   */
  ghost predicate Tidy<C>(s: FsState<C>, target: Path)
  {
    && Valid(s)
    && target in s.dirs
    && (forall f :: f in s.files && Under(target, f) ==> |f| > |target| && '.' in f[|f| - 1])
    && (forall d :: d in s.dirs && Under(target, d) ==> IsDirPath(d[|target|..]))
  }

  /** Nothing exists below a directory that does not exist. */
  lemma NothingUnder<C>(s: FsState<C>, target: Path)
    requires Valid(s) && target !in s.dirs && target !in s.files
    ensures forall d :: d in s.dirs ==> !Under(target, d)
    ensures forall f :: f in s.files ==> !Under(target, f)
  {
    forall d | d in s.dirs ensures !Under(target, d) {
      DirAncestors(s, d);
    }
    forall f | f in s.files ensures !Under(target, f) {
      if Under(target, f) && f != target {
        var up := Parent(f);
        DirAncestors(s, up);
      }
    }
  }

  /** Making a directory where nothing exists and no file is in the way succeeds and leaves a tidy state. */
  lemma StartTidy<C>(s: FsState<C>, target: Path)
    requires Valid(s) && !Exists(s, target) && !FileOnPath(s, target)
    ensures Step(s, Mkdirs(target)).Ok?
    ensures Tidy(Step(s, Mkdirs(target)).value, target)
  {
    NothingUnder(s, target);
    StepValid(s, Mkdirs(target));
    var next := Step(s, Mkdirs(target)).value;
    assert target[..|target|] == target;
    forall d | d in next.dirs && Under(target, d) ensures IsDirPath(d[|target|..]) {
      var k :| 0 <= k <= |target| && d == target[..k];
      assert d == target;
    }
  }

  /** A dot-free directory below `target` can always be made, and the state stays tidy. */
  lemma MkdirsTidy<C>(s: FsState<C>, target: Path, q: Path)
    requires Tidy(s, target) && IsDirPath(q)
    ensures Step(s, Mkdirs(target + q)).Ok?
    ensures Tidy(Step(s, Mkdirs(target + q)).value, target)
    ensures target + q in Step(s, Mkdirs(target + q)).value.dirs
  {
    var p := target + q;
    DirAncestors(s, target);
    forall k | 0 <= k <= |p| ensures p[..k] !in s.files {
      if k <= |target| {
        assert p[..k] == target[..k];
      } else {
        assert Under(target, p[..k]);
        assert p[..k][k - 1] == q[k - 1 - |target|];
      }
    }
    StepValid(s, Mkdirs(p));
    var next := Step(s, Mkdirs(p)).value;
    forall d | d in next.dirs && Under(target, d) ensures IsDirPath(d[|target|..]) {
      if d !in s.dirs {
        var k :| 0 <= k <= |p| && d == p[..k];
        assert d[|target|..] == q[..k - |target|];
      }
    }
    assert p[..|p|] == p;
  }

  /** A dotted file can be written below `target` into a directory that exists, and the state stays tidy. */
  lemma WriteTidy<C>(s: FsState<C>, target: Path, q: Path, c: C)
    requires Tidy(s, target) && q != [] && '.' in q[|q| - 1] && target + Parent(q) in s.dirs
    ensures Step(s, Write(target + q, c)).Ok?
    ensures Tidy(Step(s, Write(target + q, c)).value, target)
    ensures target + q in Step(s, Write(target + q, c)).value.files
  {
    var p := target + q;
    assert Parent(p) == target + Parent(q);
    assert Under(target, p) && p[|target|..] == q;
    StepValid(s, Write(p, c));
  }

  /** A write of a dotted file directly into `target`. */
  ghost predicate TopLevelWrite<C>(target: Path, op: Op<C>)
  {
    op.Write? && |op.path| == |target| + 1 && op.path[..|target|] == target && '.' in op.path[|target|]
  }

  /** Writing dotted files into a tidy `target` never fails. */
  lemma {:induction false} TopLevelWritesRun<C>(s: FsState<C>, target: Path, ops: seq<Op<C>>)
    requires Tidy(s, target)
    requires forall i :: 0 <= i < |ops| ==> TopLevelWrite(target, ops[i])
    ensures Run(s, ops).error.None? && Tidy(Run(s, ops).state, target)
    decreases |ops|
  {
    if ops != [] {
      var op := ops[0];
      var q := op.path[|target|..];
      assert op.path == target + q;
      assert Parent(q) == [] && target + [] == target;
      WriteTidy(s, target, q, op.content);
      TopLevelWritesRun(Step(s, op).value, target, ops[1..]);
    }
  }

  // ---------------------------------------------------------------------------
  // The filesystem object

  class FileSystem<C> {
    var files: map<Path, C>
    var dirs: set<Path>
    /** The operations that took effect, oldest first. */
    var log: seq<Op<C>>

    function State(): FsState<C>
      reads this
    {
      FsState(files, dirs)
    }

    constructor (initial: FsState<C>)
      ensures State() == initial && log == []
    {
      files := initial.files;
      dirs := initial.dirs;
      log := [];
    }

    /** `fs.pathExists`. */
    method PathExists(p: Path) returns (b: bool)
      ensures b <==> Exists(State(), p)
    {
      b := p in files || p in dirs;
    }

    /** `fs.ensureDir`: walks the path from the root looking for a file in the way, then creates what is missing. */
    method EnsureDir(p: Path) returns (err: Option<FsError>)
      modifies this
      ensures Follows(old(State()), Mkdirs(p), State(), err)
      ensures log == if err.None? then old(log) + [Mkdirs(p)] else old(log)
    {
      var k := 0;
      while k <= |p|
        invariant 0 <= k <= |p| + 1
        invariant forall j :: 0 <= j < k ==> p[..j] !in files
      {
        if p[..k] in files {
          return Some(NotADirectory(p));
        }
        k := k + 1;
      }
      dirs := dirs + Prefixes(p);
      log := log + [Mkdirs(p)];
      return None;
    }

    /** `fs.writeFile`. */
    method WriteFile(p: Path, content: C) returns (err: Option<FsError>)
      modifies this
      ensures Follows(old(State()), Write(p, content), State(), err)
      ensures log == if err.None? then old(log) + [Write(p, content)] else old(log)
    {
      if p in dirs {
        return Some(IsADirectory(p));
      }
      if Parent(p) !in dirs {
        return Some(NoSuchDirectory(p));
      }
      files := files[p := content];
      log := log + [Write(p, content)];
      return None;
    }
  }
}
