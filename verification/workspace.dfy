// hufiagents/tools/workspace.py: the write-once directory of a mission with
// snapshot and restore. A path is its sequence of parts. Snapshots are
// directories of the same tree, .snapshots/<name>/state_<time>, where a name
// may itself have several parts.

module Workspaces {
  import opened Text

  type Parts = seq<string>
  type Files = map<Parts, string>

  const SNAPSHOTS := ".snapshots"
  const RESERVED: set<string> := {"..", ".git", ".env", ".ssh"}
  const MAX_SIZE := 64000

  // path(): anything else is a PermissionError. An absolute path is one whose
  // first part is empty.
  predicate Acceptable(target: Parts) {
    && target != []
    && target[0] != ""
    && forall i | 0 <= i < |target| :: target[i] !in RESERVED && !(".env." <= target[i])
  }

  // What path() refuses: nothing, an absolute path, and one with a part that is
  // reserved or the name of an environment file.
  lemma RefusedPaths(target: Parts)
    ensures !Acceptable(target) <==>
            || target == [] || target[0] == ""
            || ".." in target || ".git" in target || ".env" in target || ".ssh" in target
            || exists part :: part in target && |part| >= 5 && part[..5] == ".env."
  {
    if target != [] && target[0] != "" && !Acceptable(target) {
      var i :| 0 <= i < |target| && (target[i] in RESERVED || ".env." <= target[i]);
      assert target[i] in target;
    }
  }

  // Files with their contents, and the directories there are.
  datatype Tree = Tree(files: Files, dirs: set<Parts>)

  function Above(path: Parts): (r: set<Parts>)
    ensures forall d | d in r :: d < path
  {
    set i | 0 < i < |path| :: path[..i]
  }

  predicate Hidden(path: Parts) {
    path != [] && path[0] == SNAPSHOTS
  }

  predicate Open(path: Parts) {
    path != [] && path[0] != SNAPSHOTS
  }

  function Visible(files: Files): Files {
    map p | p in files && Open(p) :: files[p]
  }

  function Stored(files: Files): Files {
    map p | p in files && Hidden(p) :: files[p]
  }

  // The files below a directory, by their path from there.
  function Under(files: Files, dir: Parts): Files {
    map r | r in (set p | p in files && dir < p :: p[|dir|..]) && dir + r in files :: files[dir + r]
  }

  function Copies(files: Files, dir: Parts): Files {
    map q | q in (set p | p in files :: dir + p) :: files[q[|dir|..]]
  }

  lemma UnderHolds(files: Files, dir: Parts, r: Parts)
    ensures r in Under(files, dir) <==> r != [] && dir + r in files
    ensures r in Under(files, dir) ==> Under(files, dir)[r] == files[dir + r]
  {
    if r != [] && dir + r in files {
      assert (dir + r)[|dir|..] == r && dir < dir + r;
    }
  }

  lemma CopiesHold(files: Files, dir: Parts, q: Parts)
    ensures q in Copies(files, dir) <==> dir <= q && q[|dir|..] in files
    ensures q in Copies(files, dir) ==> Copies(files, dir)[q] == files[q[|dir|..]]
  {
    if dir <= q && q[|dir|..] in files {
      assert dir + q[|dir|..] == q;
    }
  }

  // -- snapshot and restore -----------------------------------------------------------

  function Label(time: nat): string {
    "state_" + Decimal(time)
  }

  function NameDir(name: Parts): Parts {
    [SNAPSHOTS] + name
  }

  function StateDir(name: Parts, state: string): Parts {
    NameDir(name) + [state]
  }

  // A file is where the snapshot needs a directory, or the other way round.
  predicate Blocked(tree: Tree, dir: Parts) {
    || dir in tree.files
    || (exists d | d in Above(dir) :: d in tree.files)
    || (exists p | p in Visible(tree.files) :: dir + p in tree.dirs)
    || (exists d | d in tree.dirs && Open(d) :: dir + d in tree.files)
  }

  // The copies are laid over whatever the state directory already holds.
  function Snapshot(tree: Tree, dir: Parts): Tree {
    Tree(tree.files + Copies(Visible(tree.files), dir),
         tree.dirs + Above(dir) + {dir} + (set d | d in tree.dirs && Open(d) :: dir + d))
  }

  // The names below the snapshot's directory that match state_*.
  function States(tree: Tree, name: Parts): set<string> {
    set p | p in tree.files.Keys + tree.dirs && |p| == |name| + 2 && NameDir(name) <= p
            && "state_" <= p[|name| + 1] :: p[|name| + 1]
  }

  // The state that sorts last.
  predicate Latest(tree: Tree, name: Parts, state: string) {
    state in States(tree, name) && forall e | e in States(tree, name) :: e == state || Less(e, state)
  }

  function RestoredFrom(tree: Tree, dir: Parts): Tree {
    Tree(Stored(tree.files) + Under(tree.files, dir),
         (set d | d in tree.dirs && Hidden(d)) + (set d | d in tree.dirs && dir < d :: d[|dir|..]))
  }

  // A restored tree holds the copies of the state, in their places, and of the
  // rest what lies below .snapshots.
  predicate Regained(before: Files, dir: Parts, after: Files, p: Parts) {
    && (p in after <==> (p != [] && dir + p in before) || (p in before && p != [] && p[0] == ".snapshots"))
    && (p in after ==> after[p] == if dir + p in before then before[dir + p] else before[p])
  }

  lemma RestoredHolds(tree: Tree, dir: Parts, p: Parts)
    ensures Regained(tree.files, dir, RestoredFrom(tree, dir).files, p)
  {
    hide Under;
    UnderHolds(tree.files, dir, p);
  }

  lemma StoredHolds(files: Files)
    ensures forall p :: (p in Stored(files) <==> p in files && p != [] && p[0] == ".snapshots")
                        && (p in Stored(files) ==> Stored(files)[p] == files[p])
  {
  }

  // The workspace's own files and directories are gone.
  function Cleared(tree: Tree): Tree {
    Tree(Stored(tree.files), set d | d in tree.dirs && Hidden(d))
  }

  // What restoring a name makes of the tree: nothing without a state of that
  // name, and only the clearing if the latest one is no directory.
  ghost function Restored(tree: Tree, name: Parts): Tree {
    if exists state :: Latest(tree, name, state) then
      var state :| Latest(tree, name, state);
      if StateDir(name, state) in tree.dirs then RestoredFrom(tree, StateDir(name, state)) else Cleared(tree)
    else tree
  }

  lemma LatestIsUnique(tree: Tree, name: Parts, a: string, b: string)
    requires Latest(tree, name, a) && Latest(tree, name, b)
    ensures a == b
  {
    LessIsTotal(a, b);
  }

  lemma LatestDecides(tree: Tree, name: Parts, state: string)
    requires Latest(tree, name, state)
    ensures Restored(tree, name)
         == if StateDir(name, state) in tree.dirs then RestoredFrom(tree, StateDir(name, state)) else Cleared(tree)
  {
    hide Latest;
    forall other | Latest(tree, name, other) ensures other == state {
      LatestIsUnique(tree, name, state, other);
    }
  }

  lemma IsState(tree: Tree, name: Parts, e: string)
    ensures e in States(tree, name)
       <==> "state_" <= e && (StateDir(name, e) in tree.files || StateDir(name, e) in tree.dirs)
  {
    var p := StateDir(name, e);
    assert p[|name| + 1] == e && NameDir(name) <= p;
    if e in States(tree, name) {
      var q :| q in tree.files.Keys + tree.dirs && |q| == |name| + 2 && NameDir(name) <= q
               && "state_" <= q[|name| + 1] && q[|name| + 1] == e;
      assert q == p;
    }
  }

  // With equally many digits, as seconds since 1970 have from 2001 to 2286, the
  // latest state is the one taken last.
  lemma LabelsFollowTime(a: nat, b: nat)
    requires |Decimal(a)| == |Decimal(b)|
    ensures Less(Label(a), Label(b)) <==> a < b
  {
    LessOfPrefix("state_", Decimal(a), Decimal(b));
    DecimalOrder(a, b);
  }

  // -- What may happen in between ---------------------------------------------------

  datatype Operation =
    | Create(target: Parts, content: string)
    | Overwrite(target: Parts, content: string)
    | Remove(target: Parts)
    | Take(name: Parts, time: nat)

  // Whether a write reaches the file system and finds no directory or file in
  // its way.
  predicate Writable(tree: Tree, target: Parts, content: string) {
    && Acceptable(target)
    && |content| <= MAX_SIZE
    && target !in tree.dirs
    && forall d | d in Above(target) :: d !in tree.files
  }

  function Written(tree: Tree, target: Parts, content: string): Tree {
    Tree(tree.files[target := content], tree.dirs + Above(target))
  }

  // A refused operation changes nothing.
  function Perform(tree: Tree, operation: Operation): Tree {
    match operation
    case Create(target, content) =>
      if Writable(tree, target, content) && target !in tree.files then Written(tree, target, content) else tree
    case Overwrite(target, content) =>
      if Writable(tree, target, content) then Written(tree, target, content) else tree
    case Remove(target) =>
      if Acceptable(target) then tree.(files := tree.files - {target}) else tree
    case Take(name, time) =>
      var dir := StateDir(name, Label(time));
      if Blocked(tree, dir) then tree else Snapshot(tree, dir)
  }

  function PerformAll(tree: Tree, operations: seq<Operation>): Tree {
    if operations == [] then tree
    else Perform(PerformAll(tree, operations[..|operations| - 1]), operations[|operations| - 1])
  }

  // A restore now gives back these files and leaves all stored snapshots as they are.
  ghost predicate GivesBack(tree: Tree, name: Parts, files: Files) {
    exists state :: Latest(tree, name, state) && HoldsExactly(tree, StateDir(name, state), files)
  }

  ghost predicate HoldsExactly(tree: Tree, dir: Parts, files: Files) {
    && dir in tree.dirs
    && Visible(RestoredFrom(tree, dir).files) == files
    && Stored(RestoredFrom(tree, dir).files) == Stored(tree.files)
  }

  // Taken now, the snapshot finds no state that sorts after it, nothing in its
  // way, and in its directory no file that has gone since an earlier one of the
  // same second.
  ghost predicate Ready(tree: Tree, name: Parts, state: string) {
    && "state_" <= state
    && (forall e | e in States(tree, name) :: e == state || Less(e, state))
    && Under(tree.files, StateDir(name, state)).Keys <= Visible(tree.files).Keys
    && !Blocked(tree, StateDir(name, state))
  }

  // The state directory is there, holds just these files, and no state sorts after it.
  ghost predicate Keeps(tree: Tree, name: Parts, state: string, files: Files) {
    && StateDir(name, state) in tree.dirs && "state_" <= state
    && Under(tree.files, StateDir(name, state)) == files
    && forall e | e in States(tree, name) :: e == state || Less(e, state)
  }

  // Two maps with the same entries are the same.
  lemma SameFiles(a: Files, b: Files)
    requires forall p :: (p in a <==> p in b) && (p in a ==> a[p] == b[p])
    ensures a == b
  {
  }

  lemma SnapshotHolds(tree: Tree, dir: Parts)
    requires Under(tree.files, dir).Keys <= Visible(tree.files).Keys
    ensures Under(Snapshot(tree, dir).files, dir) == Visible(tree.files)
  {
    var taken := Snapshot(tree, dir);
    hide Under, Copies;
    forall r ensures (r in Under(taken.files, dir) <==> r in Visible(tree.files))
                     && (r in Visible(tree.files) ==> r in Under(taken.files, dir)
                                                      && Under(taken.files, dir)[r] == Visible(tree.files)[r]) {
      UnderHolds(taken.files, dir, r);
      UnderHolds(tree.files, dir, r);
      CopiesHold(Visible(tree.files), dir, dir + r);
      assert (dir + r)[|dir|..] == r;
    }
    SameFiles(Under(taken.files, dir), Visible(tree.files));
  }

  // The snapshot makes one state at most, its own.
  lemma SnapshotStates(tree: Tree, name: Parts, state: string, e: string)
    requires e in States(Snapshot(tree, StateDir(name, state)), name)
    ensures e in States(tree, name) || e == state
  {
    var dir := StateDir(name, state);
    var p := StateDir(name, e);
    IsState(Snapshot(tree, dir), name, e);
    IsState(tree, name, e);
    CopiesHold(Visible(tree.files), dir, p);
    hide States, Copies;
    if dir <= p {
      assert p[|name| + 1] == dir[|name| + 1];
    }
  }

  lemma SnapshotKeeps(tree: Tree, name: Parts, state: string)
    requires Ready(tree, name, state)
    ensures Keeps(Snapshot(tree, StateDir(name, state)), name, state, Visible(tree.files))
  {
    hide Under, Copies, States, Visible;
    SnapshotHolds(tree, StateDir(name, state));
    forall e | e in States(Snapshot(tree, StateDir(name, state)), name) ensures e == state || Less(e, state) {
      SnapshotStates(tree, name, state, e);
    }
  }

  // -- Operations that spare a snapshot -----------------------------------------------

  // Neither below the state directory nor a state that sorts after it.
  predicate Beside(path: Parts, name: Parts, state: string) {
    && !(StateDir(name, state) < path)
    && (NameDir(name) < path && "state_" <= path[|name| + 1] && path[|name| + 1] != state ==>
          Less(path[|name| + 1], state))
  }

  predicate Spares(operation: Operation, name: Parts, state: string) {
    match operation
    case Create(target, content) =>
      Acceptable(target) && |content| <= MAX_SIZE ==> Beside(target, name, state)
    case Overwrite(target, content) =>
      Acceptable(target) && |content| <= MAX_SIZE ==> Beside(target, name, state)
    case Remove(target) =>
      Acceptable(target) ==> !(StateDir(name, state) < target) || Hidden(target[|name| + 2..])
    case Take(other, time) =>
      var dir := StateDir(other, Label(time));
      && dir != StateDir(name, state)
      && Beside(dir, name, state)
      && (dir <= NameDir(name) ==> StateDir(name, state)[|dir|] == SNAPSHOTS)
  }

  lemma SameUnder(before: Files, after: Files, dir: Parts)
    requires forall p | dir < p :: (p in after <==> p in before) && (p in before ==> after[p] == before[p])
    ensures Under(after, dir) == Under(before, dir)
  {
    hide Under;
    forall r ensures (r in Under(after, dir) <==> r in Under(before, dir))
                     && (r in Under(after, dir) ==> r in Under(before, dir)
                                                    && Under(after, dir)[r] == Under(before, dir)[r]) {
      UnderHolds(after, dir, r);
      UnderHolds(before, dir, r);
    }
    SameFiles(Under(after, dir), Under(before, dir));
  }

  lemma WriteSpares(tree: Tree, target: Parts, content: string, name: Parts, state: string, files: Files)
    requires Keeps(tree, name, state, files) && Writable(tree, target, content) && Beside(target, name, state)
    ensures Keeps(Written(tree, target, content), name, state, files)
  {
    hide Under, States, Writable;
    var after := Written(tree, target, content);
    SameUnder(tree.files, after.files, StateDir(name, state));
    forall e | e in States(after, name) ensures e == state || Less(e, state) {
      IsState(after, name, e);
      IsState(tree, name, e);
      var p := StateDir(name, e);
      if p == target || p in Above(target) {
        assert p <= target && target[|name| + 1] == e;
      }
    }
  }

  lemma RemoveSpares(tree: Tree, target: Parts, name: Parts, state: string, files: Files)
    requires Keeps(tree, name, state, files) && (forall p | p in files :: Open(p))
    requires !(StateDir(name, state) < target) || Hidden(target[|name| + 2..])
    ensures Keeps(tree.(files := tree.files - {target}), name, state, files)
  {
    var after := tree.(files := tree.files - {target});
    var dir := StateDir(name, state);
    if dir < target && target in tree.files {
      assert dir + target[|dir|..] == target;
      UnderHolds(tree.files, dir, target[|dir|..]);
    }
    SameUnder(tree.files, after.files, dir);
    forall e | e in States(after, name) ensures e == state || Less(e, state) {
      IsState(after, name, e);
      IsState(tree, name, e);
    }
  }

  // Copies into another state directory stay outside this one.
  lemma CopyIsBeside(dir: Parts, p: Parts, name: Parts, state: string)
    requires dir != StateDir(name, state) && Beside(dir, name, state) && Open(p) && "state_" <= state
    requires dir <= NameDir(name) ==> StateDir(name, state)[|dir|] == SNAPSHOTS
    ensures Beside(dir + p, name, state) && dir + p != StateDir(name, state)
  {
    var own := StateDir(name, state);
    assert (dir + p)[..|dir|] == dir && (dir + p)[|dir|] == p[0];
    if |dir| <= |name| + 1 {
      assert own[..|dir|] == NameDir(name)[..|dir|];
    } else {
      assert (dir + p)[|name| + 1] == dir[|name| + 1];
      assert (dir + p)[..|name| + 2] == dir[..|name| + 2];
    }
  }

  lemma TakeSpares(tree: Tree, dir: Parts, name: Parts, state: string, files: Files)
    requires Keeps(tree, name, state, files)
    requires dir != StateDir(name, state) && Beside(dir, name, state)
    requires dir <= NameDir(name) ==> StateDir(name, state)[|dir|] == SNAPSHOTS
    ensures Keeps(Snapshot(tree, dir), name, state, files)
  {
    var after, own := Snapshot(tree, dir), StateDir(name, state);
    forall p | own < p ensures p !in Copies(Visible(tree.files), dir) {
      CopiesHold(Visible(tree.files), dir, p);
      if p in Copies(Visible(tree.files), dir) {
        CopyIsBeside(dir, p[|dir|..], name, state);
      }
    }
    SameUnder(tree.files, after.files, own);
    forall e | e in States(after, name) ensures e == state || Less(e, state) {
      IsState(after, name, e);
      IsState(tree, name, e);
      TakeMakesNoLaterState(tree, dir, name, state, e);
    }
  }

  lemma TakeMakesNoLaterState(tree: Tree, dir: Parts, name: Parts, state: string, e: string)
    requires "state_" <= state && "state_" <= e
    requires dir != StateDir(name, state) && Beside(dir, name, state)
    requires dir <= NameDir(name) ==> StateDir(name, state)[|dir|] == SNAPSHOTS
    requires StateDir(name, e) in Snapshot(tree, dir).files || StateDir(name, e) in Snapshot(tree, dir).dirs
    ensures StateDir(name, e) in tree.files || StateDir(name, e) in tree.dirs || e == state || Less(e, state)
  {
    var p := StateDir(name, e);
    assert NameDir(name) < p && p[|name| + 1] == e;
    CopiesHold(Visible(tree.files), dir, p);
    if p in Copies(Visible(tree.files), dir) {
      CopyIsBeside(dir, p[|dir|..], name, state);
      assert dir + p[|dir|..] == p;
    } else if p in Above(dir) || p == dir {
      assert p <= dir && dir[|name| + 1] == e;
    } else if d :| d in tree.dirs && Open(d) && dir + d == p {
      CopyIsBeside(dir, d, name, state);
    }
  }

  lemma OperationSpares(tree: Tree, operation: Operation, name: Parts, state: string, files: Files)
    requires Keeps(tree, name, state, files) && (forall p | p in files :: Open(p))
    requires Spares(operation, name, state)
    ensures Keeps(Perform(tree, operation), name, state, files)
  {
    hide Keeps, Beside, Snapshot, Written;
    match operation
    case Create(target, content) =>
      if Writable(tree, target, content) && target !in tree.files {
        WriteSpares(tree, target, content, name, state, files);
      }
    case Overwrite(target, content) =>
      if Writable(tree, target, content) {
        WriteSpares(tree, target, content, name, state, files);
      }
    case Remove(target) =>
      if Acceptable(target) {
        RemoveSpares(tree, target, name, state, files);
      }
    case Take(other, time) =>
      if !Blocked(tree, StateDir(other, Label(time))) {
        TakeSpares(tree, StateDir(other, Label(time)), name, state, files);
      }
  }

  lemma {:induction false} OperationsSpare(tree: Tree, operations: seq<Operation>, name: Parts, state: string,
                                           files: Files)
    requires Keeps(tree, name, state, files) && (forall p | p in files :: Open(p))
    requires forall i | 0 <= i < |operations| :: Spares(operations[i], name, state)
    ensures Keeps(PerformAll(tree, operations), name, state, files)
  {
    hide Keeps, Spares, Perform;
    if operations != [] {
      var before, last := operations[..|operations| - 1], operations[|operations| - 1];
      OperationsSpare(tree, before, name, state, files);
      OperationSpares(PerformAll(tree, before), last, name, state, files);
    }
  }

  // The latest state is then this one, and it holds nothing for .snapshots.
  lemma KeptIsGivenBack(tree: Tree, name: Parts, state: string, files: Files)
    requires Keeps(tree, name, state, files) && (forall p | p in files :: Open(p))
    ensures GivesBack(tree, name, files)
  {
    IsState(tree, name, state);
    var dir := StateDir(name, state);
    hide Under;
    assert Latest(tree, name, state);
    SameFiles(Visible(RestoredFrom(tree, dir).files), files);
    SameFiles(Stored(RestoredFrom(tree, dir).files), Stored(tree.files));
  }

  // Whatever is written, deleted or snapshotted in between, as long as each
  // operation spares the snapshot: a restore gives back exactly its files and
  // leaves every stored snapshot as it is.
  lemma RestoreUndoesChanges(tree: Tree, name: Parts, time: nat, operations: seq<Operation>)
    requires Ready(tree, name, Label(time))
    requires forall i | 0 <= i < |operations| :: Spares(operations[i], name, Label(time))
    ensures GivesBack(PerformAll(Snapshot(tree, StateDir(name, Label(time))), operations), name, Visible(tree.files))
  {
    hide Keeps, Spares, Ready, GivesBack, Snapshot;
    var taken := Snapshot(tree, StateDir(name, Label(time)));
    SnapshotKeeps(tree, name, Label(time));
    OperationsSpare(taken, operations, name, Label(time), Visible(tree.files));
    KeptIsGivenBack(PerformAll(taken, operations), name, Label(time), Visible(tree.files));
  }

  // -- Sparing is what it takes -----------------------------------------------------------

  const EMPTY := Tree(map[], {})

  lemma EmptyIsReady(name: Parts, time: nat)
    ensures Ready(EMPTY, name, Label(time)) && Visible(EMPTY.files) == map[]
    ensures Snapshot(EMPTY, StateDir(name, Label(time)))
         == Tree(map[], Above(StateDir(name, Label(time))) + {StateDir(name, Label(time))})
  {
    assert Copies(map[], StateDir(name, Label(time))) == map[];
  }

  // A stored file that should not be there is brought back, or overlays the snapshots.
  lemma Intruder(tree: Tree, name: Parts, state: string, path: Parts, files: Files)
    requires Latest(tree, name, state) && path in tree.files && StateDir(name, state) <= path
    requires path == StateDir(name, state) ==> path !in tree.dirs
    requires StateDir(name, state) < path ==>
               var rest := path[|name| + 2..];
               (Open(rest) && rest !in files) || (Hidden(rest) && rest !in tree.files)
    ensures !GivesBack(tree, name, files)
  {
    var dir := StateDir(name, state);
    var rest := path[|dir|..];
    assert |dir| == |name| + 2 && dir + rest == path;
    UnderHolds(tree.files, dir, rest);
    forall other | Latest(tree, name, other) ensures !HoldsExactly(tree, StateDir(name, other), files) {
      LatestIsUnique(tree, name, state, other);
      hide Under, Latest;
      if dir < path {
        var after := RestoredFrom(tree, dir).files;
        assert rest in after;
        assert if Open(rest) then rest in Visible(after) else rest in Stored(after) && rest !in Stored(tree.files);
      } else {
        assert dir == path[..|dir|] == path;
      }
    }
  }

  // The state a path below the snapshot's directory belongs to is the latest,
  // unless it sorts before the one taken.
  lemma PathIsLatest(tree: Tree, name: Parts, state: string, path: Parts)
    requires "state_" <= state && NameDir(name) < path && "state_" <= path[|name| + 1] && !Less(path[|name| + 1], state)
    requires forall d | d in tree.dirs :: d == StateDir(name, state) || d < StateDir(name, state) || d <= path
    requires forall p | p in tree.files :: Open(p) || StateDir(name, path[|name| + 1]) <= p
    requires StateDir(name, path[|name| + 1]) in tree.dirs || StateDir(name, path[|name| + 1]) in tree.files
    ensures Latest(tree, name, path[|name| + 1])
  {
    var found := path[|name| + 1];
    IsState(tree, name, found);
    LessIsTotal(found, state);
    forall e | e in States(tree, name) ensures e == found || Less(e, found) {
      IsState(tree, name, e);
      var p := StateDir(name, e);
      assert p[|name| + 1] == e && !Open(p);
      if p in tree.dirs && p <= path {
        assert e == found;
      } else if p in tree.dirs {
        assert e == state;
      }
    }
  }

  ghost predicate GivenBackAfter(tree: Tree, name: Parts, state: string, operations: seq<Operation>) {
    GivesBack(PerformAll(Snapshot(tree, StateDir(name, state)), operations), name, Visible(tree.files))
  }

  lemma OneOperation(tree: Tree, operation: Operation)
    ensures PerformAll(tree, [operation]) == Perform(tree, operation)
  {
    assert [operation][..0] == [];
  }

  lemma TwoOperations(tree: Tree, first: Operation, second: Operation)
    ensures PerformAll(tree, [first, second]) == Perform(Perform(tree, first), second)
  {
    OneOperation(tree, first);
    assert [first, second][..1] == [first];
  }

  lemma AboveHolds(path: Parts, d: Parts)
    ensures d in Above(path) <==> d != [] && d < path
  {
    if d != [] && d < path {
      assert d == path[..|d|];
    }
  }

  // A write below the state directory, or of a state that sorts after it, into
  // an empty workspace.
  lemma WriteTroubles(operation: Operation, name: Parts, time: nat)
    requires (operation.Create? || operation.Overwrite?) && !Spares(operation, name, Label(time))
    ensures !GivenBackAfter(EMPTY, name, Label(time), [operation])
  {
    EmptyIsReady(name, time);
    var taken := Snapshot(EMPTY, StateDir(name, Label(time)));
    hide Snapshot, GivesBack, Acceptable;
    OneOperation(taken, operation);
    NotBesideMeans(operation.target, name, Label(time));
    WrittenTroubles(taken, operation.target, operation.content, name, Label(time));
  }

  lemma NotBesideMeans(path: Parts, name: Parts, state: string)
    requires "state_" <= state && !Beside(path, name, state)
    ensures NameDir(name) < path && "state_" <= path[|name| + 1] && !Less(path[|name| + 1], state)
    ensures StateDir(name, path[|name| + 1]) <= path && StateDir(name, state) != path
  {
    LessIsTotal(state, state);
    if StateDir(name, state) < path {
      assert path[|name| + 1] == state;
    }
  }

  lemma WrittenTroubles(taken: Tree, target: Parts, content: string, name: Parts, state: string)
    requires taken == Tree(map[], Above(StateDir(name, state)) + {StateDir(name, state)})
    requires "state_" <= state && !Beside(target, name, state)
    ensures target !in taken.dirs && !GivesBack(Written(taken, target, content), name, map[])
  {
    NotBesideMeans(target, name, state);
    var end := Written(taken, target, content);
    hide GivesBack, States;
    assert end.files == map[target := content];
    var chosen := StateDir(name, target[|name| + 1]);
    AboveHolds(target, chosen);
    if |chosen| < |target| {
      assert chosen in Above(target);
    } else {
      assert chosen == target[..|chosen|] == target;
    }
    PathIsLatest(end, name, state, target);
    Intruder(end, name, target[|name| + 1], target, map[]);
  }

  // Deleting a file of the snapshot.
  lemma RemoveTroubles(target: Parts, name: Parts, time: nat)
    requires !Spares(Remove(target), name, Label(time))
    ensures var tree := Tree(map[target[|name| + 2..] := "text"], {});
            Ready(tree, name, Label(time)) && !GivenBackAfter(tree, name, Label(time), [Remove(target)])
  {
    var dir := StateDir(name, Label(time));
    var kept := target[|dir|..];
    var tree := Tree(map[kept := "text"], {});
    assert Open(kept) && dir + kept == target;
    OpenIsReady(kept, name, time);
    var taken := Snapshot(tree, dir);
    OneOperation(taken, Remove(target));
    var end := Perform(taken, Remove(target));
    assert end.files == map[kept := "text"];
    forall r ensures r !in Under(end.files, dir) {
      UnderHolds(end.files, dir, r);
    }
    NothingBelow(end, name, Label(time), Visible(tree.files));
  }

  lemma OneCopy(kept: Parts, text: string, dir: Parts)
    ensures Copies(map[kept := text], dir) == map[dir + kept := text]
  {
    hide Copies;
    forall q ensures (q in Copies(map[kept := text], dir) <==> q == dir + kept)
                     && (q == dir + kept ==> q in Copies(map[kept := text], dir)
                                             && Copies(map[kept := text], dir)[q] == text) {
      CopiesHold(map[kept := text], dir, q);
      if dir <= q && q[|dir|..] == kept {
        assert q == dir + kept;
      }
      assert (dir + kept)[|dir|..] == kept;
    }
    SameFiles(Copies(map[kept := text], dir), map[dir + kept := text]);
  }

  lemma OpenIsReady(kept: Parts, name: Parts, time: nat)
    requires Open(kept)
    ensures var tree := Tree(map[kept := "text"], {});
            var dir := StateDir(name, Label(time));
            && Ready(tree, name, Label(time))
            && Visible(tree.files) == tree.files
            && Snapshot(tree, dir) == Tree(map[kept := "text", dir + kept := "text"], Above(dir) + {dir})
  {
    var tree := Tree(map[kept := "text"], {});
    var dir := StateDir(name, Label(time));
    OneCopy(kept, "text", dir);
    hide Copies, Under, States;
    assert Visible(tree.files) == tree.files;
    forall r ensures r !in Under(tree.files, dir) {
      UnderHolds(tree.files, dir, r);
      assert (dir + r)[0] == SNAPSHOTS;
    }
    forall e ensures e !in States(tree, name) {
      IsState(tree, name, e);
    }
  }

  lemma OnlyStateIsLatest(tree: Tree, name: Parts, state: string)
    requires "state_" <= state && StateDir(name, state) in tree.dirs
    requires forall d | d in tree.dirs :: d == StateDir(name, state) || d < StateDir(name, state)
    requires forall p | p in tree.files :: Open(p) || StateDir(name, state) < p
    ensures Latest(tree, name, state)
  {
    IsState(tree, name, state);
    forall e | e in States(tree, name) ensures e == state {
      IsState(tree, name, e);
      assert StateDir(name, e)[|name| + 1] == e && !Open(StateDir(name, e));
    }
  }

  lemma NothingBelow(tree: Tree, name: Parts, state: string, files: Files)
    requires "state_" <= state && StateDir(name, state) in tree.dirs
    requires forall d | d in tree.dirs :: d == StateDir(name, state) || d < StateDir(name, state)
    requires forall p | p in tree.files :: Open(p) || StateDir(name, state) < p
    requires Under(tree.files, StateDir(name, state)) == map[] && files != map[]
    ensures !GivesBack(tree, name, files)
  {
    OnlyStateIsLatest(tree, name, state);
    forall other | Latest(tree, name, other) ensures !HoldsExactly(tree, StateDir(name, other), files) {
      LatestIsUnique(tree, name, state, other);
      hide Latest, Under;
      assert Visible(RestoredFrom(tree, StateDir(name, state)).files) == map[];
    }
  }

  const SCRAP: Parts := ["f"]

  lemma EndOfTake(other: Parts, t: nat, own: Parts)
    requires own != [] && own[0] == SNAPSHOTS && own != SCRAP && |own| <= |other| + 2
    ensures var dir := StateDir(other, Label(t));
            PerformAll(Tree(map[], Above(own) + {own}), [Create(SCRAP, "x"), Take(other, t)])
              == Tree(map[SCRAP := "x", dir + SCRAP := "x"], Above(own) + {own} + Above(dir) + {dir})
  {
    hide Perform, Above, Visible;
    var taken := Tree(map[], Above(own) + {own});
    var added := Tree(map[SCRAP := "x"], taken.dirs);
    ScrapIsElsewhere(own);
    AddedTo(taken);
    TwoOperations(taken, Create(SCRAP, "x"), Take(other, t));
    AddedIsCopied(added, SCRAP, "x", other, t, own);
    TwoFiles(SCRAP, StateDir(other, Label(t)) + SCRAP);
  }

  lemma TwoFiles(a: Parts, b: Parts)
    ensures map[a := "x"] + map[b := "x"] == map[a := "x", b := "x"]
  {
  }

  lemma ScrapIsElsewhere(own: Parts)
    requires own != [] && own[0] == SNAPSHOTS
    ensures SCRAP !in Above(own) + {own} && Visible(map[SCRAP := "x"]) == map[SCRAP := "x"]
  {
    AboveHolds(own, SCRAP);
  }

  lemma Rejoined(dir: Parts, own: Parts)
    requires dir < own && own[|dir|] != SNAPSHOTS
    ensures dir + (own[|dir|..] + SCRAP) == own + SCRAP
    ensures Open(own[|dir|..] + SCRAP) && |own[|dir|..] + SCRAP| == |own| - |dir| + 1
  {
  }

  // Another snapshot into this state directory, or into a state that sorts
  // after it, once a file has been added.
  lemma TakeTroubles(other: Parts, t: nat, name: Parts, time: nat)
    requires var dir := StateDir(other, Label(t));
             dir == StateDir(name, Label(time)) || !Beside(dir, name, Label(time))
    ensures Spares(Create(SCRAP, "x"), name, Label(time))
    ensures !GivenBackAfter(EMPTY, name, Label(time), [Create(SCRAP, "x"), Take(other, t)])
  {
    var own, dir := StateDir(name, Label(time)), StateDir(other, Label(t));
    EmptyIsReady(name, time);
    LessIsTotal(Label(time), Label(time));
    if dir != own {
      NotBesideMeans(dir, name, Label(time));
    } else {
      assert dir[|name| + 1] == Label(time) && NameDir(name) < dir;
    }
    assert SCRAP[0] != own[0] && |own| <= |dir|;
    hide Snapshot, PerformAll, GivesBack, Above, Visible;
    EndOfTake(other, t, own);
    CopyTroubles(PerformAll(Snapshot(EMPTY, own), [Create(SCRAP, "x"), Take(other, t)]), dir, name, Label(time));
  }

  lemma AddedTo(taken: Tree)
    requires taken.files == map[] && SCRAP !in taken.dirs
    ensures Perform(taken, Create(SCRAP, "x")) == Tree(map[SCRAP := "x"], taken.dirs)
  {
    assert Above(SCRAP) == {};
  }

  // Copying one file into a state directory that nothing blocks.
  lemma AddedIsCopied(added: Tree, kept: Parts, text: string, other: Parts, t: nat, own: Parts)
    requires Open(kept) && own != [] && own[0] == SNAPSHOTS
    requires added.dirs == Above(own) + {own} && Visible(added.files) == map[kept := text]
    requires var dir := StateDir(other, Label(t));
             && |own| < |dir| + |kept|
             && (forall p | p in added.files && p != kept :: |dir| < |p|)
    ensures var dir := StateDir(other, Label(t));
            Perform(added, Take(other, t))
              == Tree(added.files + map[dir + kept := text], added.dirs + Above(dir) + {dir})
  {
    var dir := StateDir(other, Label(t));
    OneCopy(kept, text, dir);
    hide Copies, Label;
    assert forall d | d in Above(dir) + {dir} + Above(own) + {own} :: Hidden(d);
    assert kept in Visible(added.files);
    NothingBlocks(added, kept, dir);
    hide Above, Visible, Blocked;
    assert (set d | d in added.dirs && Open(d) :: dir + d) == {};
  }

  lemma NothingBlocks(added: Tree, kept: Parts, dir: Parts)
    requires Open(kept) && Hidden(dir) && Visible(added.files).Keys == {kept}
    requires forall d | d in added.dirs :: Hidden(d) && |d| < |dir| + |kept|
    requires forall p | p in added.files && p != kept :: |dir| < |p|
    ensures !Blocked(added, dir)
  {
    assert kept in Visible(added.files);
    forall d | d in Above(dir) ensures d !in added.files {
      assert d[0] == SNAPSHOTS;
    }
  }

  // The latest state now holds a file the workspace did not have.
  lemma CopyTroubles(tree: Tree, dir: Parts, name: Parts, state: string)
    requires "state_" <= state && NameDir(name) < dir && "state_" <= dir[|name| + 1] && !Less(dir[|name| + 1], state)
    requires tree.files == map[SCRAP := "x", dir + SCRAP := "x"]
    requires tree.dirs == Above(StateDir(name, state)) + {StateDir(name, state)} + Above(dir) + {dir}
    ensures !GivesBack(tree, name, map[])
  {
    hide GivesBack, States, Above, Latest, Less;
    CopyIsLatest(tree, dir, name, state);
    RestIsNew(dir, |name| + 2);
    assert StateDir(name, dir[|name| + 1]) == dir[..|name| + 2];
    Intruder(tree, name, dir[|name| + 1], dir + SCRAP, map[]);
  }

  lemma CopyIsLatest(tree: Tree, dir: Parts, name: Parts, state: string)
    requires "state_" <= state && NameDir(name) < dir && "state_" <= dir[|name| + 1] && !Less(dir[|name| + 1], state)
    requires tree.files == map[SCRAP := "x", dir + SCRAP := "x"]
    requires tree.dirs == Above(StateDir(name, state)) + {StateDir(name, state)} + Above(dir) + {dir}
    ensures Latest(tree, name, dir[|name| + 1])
  {
    var chosen := StateDir(name, dir[|name| + 1]);
    hide States, Above, Latest, Less;
    AboveHolds(dir, chosen);
    assert chosen == dir[..|name| + 2] && (|chosen| == |dir| ==> chosen == dir);
    assert chosen <= dir + SCRAP;
    forall d | d in tree.dirs ensures d == StateDir(name, state) || d < StateDir(name, state) || d <= dir {
      AboveHolds(dir, d);
      AboveHolds(StateDir(name, state), d);
    }
    PathIsLatest(tree, name, state, dir);
  }

  lemma RestIsNew(dir: Parts, n: nat)
    requires 0 < n <= |dir|
    ensures dir[..n] < dir + SCRAP && (dir + SCRAP)[n..] != []
    ensures Hidden((dir + SCRAP)[n..]) ==> (dir + SCRAP)[n..] !in {SCRAP, dir + SCRAP}
  {
    assert |(dir + SCRAP)[n..]| < |dir + SCRAP|;
  }

  // A snapshot of an enclosing name, once the workspace has files where this
  // state directory lies below it.
  lemma EnclosingTakeTroubles(other: Parts, t: nat, name: Parts, time: nat)
    requires var dir, own := StateDir(other, Label(t)), StateDir(name, Label(time));
             dir <= NameDir(name) && own[|dir|] != SNAPSHOTS
    ensures var dir, own := StateDir(other, Label(t)), StateDir(name, Label(time));
            var tree := Tree(map[own[|dir|..] + SCRAP := "text"], {});
            && Ready(tree, name, Label(time))
            && !GivenBackAfter(tree, name, Label(time), [Take(other, t)])
  {
    var own, dir := StateDir(name, Label(time)), StateDir(other, Label(t));
    var kept := own[|dir|..] + SCRAP;
    var tree := Tree(map[kept := "text"], {});
    hide GivesBack, Snapshot, Ready, Above, PerformAll, Visible, Label;
    assert |dir| < |own|;
    Rejoined(dir, own);
    OpenIsReady(kept, name, time);
    EndOfEnclosingTake(kept, other, t, own);
    EnclosingCopyTroubles(PerformAll(Snapshot(tree, own), [Take(other, t)]), kept, dir, name, Label(time));
  }

  lemma EndOfEnclosingTake(kept: Parts, other: Parts, t: nat, own: Parts)
    requires Open(kept) && own != [] && own[0] == SNAPSHOTS && |other| + 2 < |own| < |other| + 2 + |kept|
    ensures var dir := StateDir(other, Label(t));
            PerformAll(Tree(map[kept := "text", own + kept := "text"], Above(own) + {own}), [Take(other, t)])
              == Tree(map[kept := "text", own + kept := "text", dir + kept := "text"],
                      Above(own) + {own} + Above(dir) + {dir})
  {
    var taken := Tree(map[kept := "text", own + kept := "text"], Above(own) + {own});
    hide Perform, Above;
    OneOperation(taken, Take(other, t));
    assert (own + kept)[0] == SNAPSHOTS && |kept| < |own + kept|;
    assert Visible(taken.files) == map[kept := "text"];
    AddedIsCopied(taken, kept, "text", other, t, own);
    assert taken.files + map[StateDir(other, Label(t)) + kept := "text"]
        == map[kept := "text", own + kept := "text", StateDir(other, Label(t)) + kept := "text"];
  }

  lemma EnclosingCopyTroubles(tree: Tree, kept: Parts, dir: Parts, name: Parts, state: string)
    requires var own := StateDir(name, state);
             && "state_" <= state && dir < own && Open(kept) && |kept| > 1 && dir + kept == own + SCRAP
             && tree.files == map[kept := "text", own + kept := "text", dir + kept := "text"]
             && tree.dirs == Above(own) + {own} + Above(dir) + {dir}
    ensures !GivesBack(tree, name, map[kept := "text"])
  {
    var own := StateDir(name, state);
    hide GivesBack, Above, States;
    forall d | d in tree.dirs ensures d == own || d < own {
      AboveHolds(own, d);
      AboveHolds(dir, d);
    }
    OnlyStateIsLatest(tree, name, state);
    assert (own + SCRAP)[|name| + 2..] == SCRAP && own < own + SCRAP;
    Intruder(tree, name, state, own + SCRAP, map[kept := "text"]);
  }

  // Exactly the sparing operations may happen between a snapshot and its
  // restore: with them, in any number and order, every workspace gets its files
  // back; without, some workspace does not.
  lemma SparingIsExact(operation: Operation, name: Parts, time: nat)
    ensures Spares(operation, name, Label(time))
       <==> forall tree, operations ::
              && Ready(tree, name, Label(time))
              && (forall i | 0 <= i < |operations| ::
                    operations[i] == operation || Spares(operations[i], name, Label(time)))
              ==> GivenBackAfter(tree, name, Label(time), operations)
  {
    hide Ready, GivesBack, Snapshot, PerformAll;
    if Spares(operation, name, Label(time)) {
      forall tree, operations | Ready(tree, name, Label(time))
        && forall i | 0 <= i < |operations| :: operations[i] == operation || Spares(operations[i], name, Label(time))
        ensures GivenBackAfter(tree, name, Label(time), operations)
      {
        RestoreUndoesChanges(tree, name, time, operations);
      }
    } else {
      EmptyIsReady(name, time);
      match operation
      case Create(_, _) => WriteTroubles(operation, name, time);
      case Overwrite(_, _) => WriteTroubles(operation, name, time);
      case Remove(target) => RemoveTroubles(target, name, time);
      case Take(other, t) =>
        var dir := StateDir(other, Label(t));
        if dir == StateDir(name, Label(time)) || !Beside(dir, name, Label(time)) {
          TakeTroubles(other, t, name, time);
        } else {
          EnclosingTakeTroubles(other, t, name, time);
        }
    }
  }

  // -- Inputs on which a snapshot is lost ---------------------------------------------

  // A snapshot named a/state_9 is itself a state of the snapshots named a, and
  // sorts after the fifth second.
  lemma NestedNameShadows()
    ensures !GivenBackAfter(EMPTY, ["a"], Label(5), [Create(SCRAP, "x"), Take(["a", "state_9"], 6)])
  {
    var dir := StateDir(["a", "state_9"], Label(6));
    assert dir[..2] == NameDir(["a"]) && dir[2] == "state_9";
    LessOfPrefix("state_", "9", Decimal(5));
    assert !Less("state_9", Label(5));
    TakeTroubles(["a", "state_9"], 6, ["a"], 5);
  }

  // The stored copies are files of the workspace like any other.
  lemma StoredFileIsEdited()
    ensures !GivenBackAfter(EMPTY, ["a"], Label(5), [Overwrite([SNAPSHOTS, "a", "state_5", "x.md"], "new")])
  {
    var target := [SNAPSHOTS, "a", "state_5", "x.md"];
    assert Label(5) == "state_5";
    assert StateDir(["a"], "state_5") == target[..3];
    assert Acceptable(target) by {
      assert SNAPSHOTS[1] == 's' && target[2][0] == 's' && target[3][0] == 'x';
    }
    assert !Beside(target, ["a"], Label(5));
    WriteTroubles(Overwrite(target, "new"), ["a"], 5);
  }

  // Restoring a snapshot just taken, when no other state of its name sorts
  // later, gives back the files exactly when the state directory held no file
  // that has gone since: two snapshots in one second share a directory.
  lemma RestoreExactly(tree: Tree, name: Parts, time: nat)
    requires forall e | e in States(tree, name) :: e == Label(time) || Less(e, Label(time))
    requires !Blocked(tree, StateDir(name, Label(time)))
    requires forall r | r in Under(tree.files, StateDir(name, Label(time))) :: Open(r)
    ensures GivenBackAfter(tree, name, Label(time), [])
       <==> Under(tree.files, StateDir(name, Label(time))).Keys <= Visible(tree.files).Keys
  {
    var dir := StateDir(name, Label(time));
    var taken := Snapshot(tree, dir);
    if Under(tree.files, dir).Keys <= Visible(tree.files).Keys {
      RestoreUndoesChanges(tree, name, time, []);
    } else {
      var gone :| gone in Under(tree.files, dir) && gone !in Visible(tree.files);
      forall e | e in States(taken, name) ensures e == Label(time) || Less(e, Label(time)) {
        SnapshotStates(tree, name, Label(time), e);
      }
      IsState(taken, name, Label(time));
      UnderHolds(tree.files, dir, gone);
      assert (dir + gone)[|dir|..] == gone && dir < dir + gone;
      hide Under, States, GivesBack, Snapshot;
      LeftIn(tree, dir, gone);
      Intruder(taken, name, Label(time), dir + gone, Visible(tree.files));
    }
  }

  lemma LeftIn(tree: Tree, dir: Parts, gone: Parts)
    requires dir + gone in tree.files
    ensures dir + gone in Snapshot(tree, dir).files
  {
  }

  // A file deleted between two snapshots of the same second is brought back.
  lemma SameSecondKeepsDeleted()
    ensures var start := Tree(map[["a.md"] := "text"], {});
            var taken := Snapshot(start, StateDir(["b"], Label(5)));
            var again := PerformAll(taken, [Remove(["a.md"]), Take(["b"], 5)]);
            && Visible(again.files) == map[]
            && GivesBack(again, ["b"], map[["a.md"] := "text"])
  {
    var kept: Parts := ["a.md"];
    var start := Tree(map[kept := "text"], {});
    var dir := StateDir(["b"], Label(5));
    OpenIsReady(kept, ["b"], 5);
    SnapshotKeeps(start, ["b"], Label(5));
    var taken := Snapshot(start, dir);
    hide Snapshot, Keeps, GivesBack, Under, Ready, Perform, Above, Label;
    TwoOperations(taken, Remove(kept), Take(["b"], 5));
    RemovedIsHidden(taken, kept, dir);
    RemoveSpares(taken, kept, ["b"], Label(5), start.files);
    var gone := Perform(taken, Remove(kept));
    NothingToCopy(gone, ["b"], 5);
    KeptIsGivenBack(gone, ["b"], Label(5), start.files);
  }

  lemma RemovedIsHidden(taken: Tree, kept: Parts, dir: Parts)
    requires taken.files == map[kept := "text", dir + kept := "text"] && kept == ["a.md"] && Hidden(dir)
    ensures Perform(taken, Remove(kept)) == taken.(files := taken.files - {kept})
    ensures Visible(taken.files - {kept}) == map[] && !(dir < kept)
  {
    assert Acceptable(kept) by {
      assert |kept[0]| == 4;
    }
    assert (dir + kept)[0] == SNAPSHOTS;
  }

  lemma NothingToCopy(tree: Tree, name: Parts, time: nat)
    requires var dir := StateDir(name, Label(time));
             Visible(tree.files) == map[] && tree.dirs == Above(dir) + {dir}
    ensures Perform(tree, Take(name, time)) == tree
  {
    var dir := StateDir(name, Label(time));
    hide Copies;
    forall q ensures q !in Copies(map[], dir) {
      CopiesHold(map[], dir, q);
    }
    assert forall d | d in tree.dirs :: !Open(d);
    assert tree.files + Copies(map[], dir) == tree.files;
  }

  // -- The class ------------------------------------------------------------------------

  datatype Result = Created | Reconciled | Updated | Deleted | Unsafe | TooLong | Exists | InTheWay | NotFound | Broken

  class Workspace {
    var files: Files
    var dirs: set<Parts>

    constructor ()
      ensures Current() == EMPTY
    {
      files, dirs := map[], {};
    }

    function Current(): Tree
      reads this
    {
      Tree(files, dirs)
    }

    // create: exclusive, so existing content is never overwritten, and writing
    // the same content again changes nothing.
    method CreateFile(target: Parts, content: string) returns (result: Result)
      modifies this
      ensures Current() == Perform(old(Current()), Create(target, content))
      ensures result == Created <==> Writable(old(Current()), target, content) && target !in old(files)
      ensures result == Reconciled <==>
                Writable(old(Current()), target, content) && target in old(files) && old(files)[target] == content
      ensures result == Created || result == Reconciled ==> target in files && files[target] == content
      ensures forall p | p in old(files) :: p in files && files[p] == old(files)[p]
      ensures result in {Unsafe, TooLong, InTheWay, Exists, Reconciled, Created}
    {
      if !Acceptable(target) {
        return Unsafe;
      }
      if |content| > MAX_SIZE {
        return TooLong;
      }
      if target in dirs || exists d | d in Above(target) :: d in files {
        return InTheWay;
      }
      if target in files {
        return if files[target] == content then Reconciled else Exists;
      }
      files, dirs := files[target := content], dirs + Above(target);
      return Created;
    }

    method Write(target: Parts, content: string, overwrite: bool) returns (result: Result)
      modifies this
      ensures Current() == Perform(old(Current()), if overwrite then Overwrite(target, content)
                                                   else Create(target, content))
      ensures overwrite ==> (result == Updated <==> Writable(old(Current()), target, content))
      ensures result in {Updated, Created, Reconciled} ==> target in files && files[target] == content
      ensures forall p | p in old(files) && p != target :: p in files && files[p] == old(files)[p]
    {
      if !overwrite {
        result := CreateFile(target, content);
        return;
      }
      if !Acceptable(target) {
        return Unsafe;
      }
      if |content| > MAX_SIZE {
        return TooLong;
      }
      if target in dirs || exists d | d in Above(target) :: d in files {
        return InTheWay;
      }
      files, dirs := files[target := content], dirs + Above(target);
      return Updated;
    }

    method Delete(target: Parts) returns (result: Result)
      modifies this`files
      ensures Current() == Perform(old(Current()), Remove(target))
      ensures result == Deleted <==> Acceptable(target) && target in old(files)
      ensures result == InTheWay <==> Acceptable(target) && target !in old(files) && target in dirs
      ensures result in {Unsafe, InTheWay, NotFound, Deleted}
    {
      if !Acceptable(target) {
        return Unsafe;
      }
      if target !in files {
        return if target in dirs then InTheWay else NotFound;
      }
      files := files - {target};
      return Deleted;
    }

    // copytree: one file after the other, over what is there.
    method CopyFiles(source: Files, into: Parts)
      modifies this`files
      ensures files == old(files) + Copies(source, into)
    {
      hide Copies;
      var left := source.Keys;
      NoCopies(into);
      while left != {}
        invariant left <= source.Keys
        invariant files == old(files) + Copies(map p | p in source && p !in left :: source[p], into)
        decreases left
      {
        var p :| p in left;
        ghost var copied: Files := map q | q in source && q !in left :: source[q];
        left := left - {p};
        files := files[into + p := source[p]];
        OneMoreCopy(copied, p, source[p], into);
        assert copied[p := source[p]] == map q | q in source && q !in left :: source[q];
      }
      assert (map q | q in source && q !in left :: source[q]) == source;
    }

    // snapshot: the directories are made, then the files copied.
    method TakeSnapshot(name: Parts, time: nat) returns (ok: bool)
      modifies this
      ensures ok <==> !Blocked(old(Current()), StateDir(name, Label(time)))
      ensures Current() == Perform(old(Current()), Take(name, time))
    {
      hide Copies, Above, Blocked, Visible;
      var dir := StateDir(name, Label(time));
      if Blocked(Current(), dir) {
        return false;
      }
      dirs := dirs + Above(dir) + {dir} + (set d | d in dirs && Open(d) :: dir + d);
      CopyFiles(Visible(files), dir);
      return true;
    }

    // restore: the state that sorts last replaces the workspace's own files. If
    // it is no directory, the workspace has been cleared already.
    method Restore(name: Parts) returns (result: Result)
      modifies this
      ensures result == NotFound <==> States(old(Current()), name) == {}
      ensures result == NotFound ==> Current() == old(Current())
      ensures result == Updated ==>
                exists state :: Latest(old(Current()), name, state) && StateDir(name, state) in old(dirs)
                                && Current() == RestoredFrom(old(Current()), StateDir(name, state))
      ensures result == Broken ==>
                && Current() == Cleared(old(Current()))
                && exists state :: Latest(old(Current()), name, state) && StateDir(name, state) !in old(dirs)
      ensures result in {NotFound, Updated, Broken}
      ensures Current() == Restored(old(Current()), name)
      ensures result == Updated ==>
                exists state :: Latest(old(Current()), name, state) && StateDir(name, state) in old(dirs)
                                && forall p :: Regained(old(files), StateDir(name, state), files, p)
      ensures result == Broken ==>
                forall p :: (p in files <==> p in old(files) && p != [] && p[0] == ".snapshots")
                            && (p in files ==> files[p] == old(files)[p])
    {
      hide Under, States, Copies, Stored;
      var candidates := States(Current(), name);
      if candidates == {} {
        return NotFound;
      }
      ghost var before := Current();
      var latest := LastOf(candidates);
      assert Latest(before, name, latest);
      LatestDecides(before, name, latest);
      var dir := StateDir(name, latest);
      var kept, keptDirs := Under(files, dir), (set d | d in dirs && dir < d :: d[|dir|..]);
      var directory := dir in dirs;
      StoredHolds(files);
      files, dirs := Stored(files), set d | d in dirs && Hidden(d);
      if !directory {
        return Broken;
      }
      dirs := dirs + keptDirs;
      CopyFiles(kept, []);
      CopiesHere(kept);
      assert Current() == RestoredFrom(before, dir);
      forall p ensures Regained(before.files, dir, files, p) {
        RestoredHolds(before, dir, p);
      }
      return Updated;
    }

    method LastOf(candidates: set<string>) returns (latest: string)
      requires candidates != {}
      ensures latest in candidates && forall e | e in candidates :: e == latest || Less(e, latest)
    {
      latest :| latest in candidates;
      var left := candidates - {latest};
      while left != {}
        invariant latest in candidates && left <= candidates
        invariant forall e | e in candidates && e !in left :: e == latest || Less(e, latest)
        decreases left
      {
        var e :| e in left;
        left := left - {e};
        LessIsTotal(e, latest);
        if Less(latest, e) {
          forall other | other in candidates && other !in left && other != e && other != latest
            ensures Less(other, e)
          {
            LessIsTransitive(other, latest, e);
          }
          latest := e;
        }
      }
    }
  }

  lemma NoCopies(dir: Parts)
    ensures Copies(map[], dir) == map[]
  {
  }

  lemma CopiesHere(files: Files)
    ensures Copies(files, []) == files
  {
    hide Copies;
    forall q ensures (q in Copies(files, []) <==> q in files) && (q in files ==> Copies(files, [])[q] == files[q]) {
      CopiesHold(files, [], q);
      assert q[0..] == q;
    }
    SameFiles(Copies(files, []), files);
  }

  lemma OneMoreCopy(files: Files, p: Parts, content: string, dir: Parts)
    ensures Copies(files[p := content], dir) == Copies(files, dir)[dir + p := content]
  {
    hide Copies;
    forall q
      ensures (q in Copies(files[p := content], dir) <==> q == dir + p || q in Copies(files, dir))
              && (q in Copies(files[p := content], dir) ==>
                    Copies(files[p := content], dir)[q] == Copies(files, dir)[dir + p := content][q])
    {
      CopiesHold(files[p := content], dir, q);
      CopiesHold(files, dir, q);
      assert (dir + p)[|dir|..] == p;
      if dir <= q && q[|dir|..] == p {
        assert q == dir + p;
      }
    }
    SameFiles(Copies(files[p := content], dir), Copies(files, dir)[dir + p := content]);
  }
}
