// Restores of other names between a snapshot and its restore. What they bring
// back may lie over the stored snapshots, so whether they do harm depends on
// the state they restore.

module Restores {
  import opened Text
  import opened Workspaces

  datatype Event = Did(operation: Operation) | RestoreOf(name: Parts)

  ghost function Happen(tree: Tree, event: Event): Tree {
    match event
    case Did(operation) => Perform(tree, operation)
    case RestoreOf(name) => Restored(tree, name)
  }

  ghost function HappenAll(tree: Tree, events: seq<Event>): Tree {
    if events == [] then tree else Happen(HappenAll(tree, events[..|events| - 1]), events[|events| - 1])
  }

  // The state directory holds nothing that would change the files of the
  // snapshot, and nothing that would be a state of its name sorting later.
  ghost predicate LaysNothingOver(tree: Tree, dir: Parts, name: Parts, state: string) {
    && (forall rest | rest in Under(tree.files, dir) && StateDir(name, state) < rest ::
          rest in tree.files && tree.files[rest] == tree.files[dir + rest])
    && (forall e | "state_" <= e && e != state && !Less(e, state) ::
          StateDir(name, e) !in Under(tree.files, dir) && dir + StateDir(name, e) !in tree.dirs)
  }

  lemma FilesAfter(tree: Tree, dir: Parts, path: Parts)
    requires Hidden(path)
    ensures path in RestoredFrom(tree, dir).files <==> path in Under(tree.files, dir) || path in tree.files
    ensures path in RestoredFrom(tree, dir).files ==>
              RestoredFrom(tree, dir).files[path]
              == if path in Under(tree.files, dir) then Under(tree.files, dir)[path] else tree.files[path]
  {
    hide Under;
  }

  lemma DirsAfter(tree: Tree, dir: Parts, path: Parts)
    requires Hidden(path)
    ensures path in RestoredFrom(tree, dir).dirs <==> path in tree.dirs || dir + path in tree.dirs
  {
    if dir + path in tree.dirs {
      assert dir < dir + path && (dir + path)[|dir|..] == path;
    }
    forall d | d in tree.dirs && dir < d && d[|dir|..] == path ensures dir + path == d {
    }
  }

  lemma StatesAfter(tree: Tree, dir: Parts, name: Parts, e: string)
    ensures e in States(RestoredFrom(tree, dir), name)
       <==> e in States(tree, name)
            || ("state_" <= e && (StateDir(name, e) in Under(tree.files, dir) || dir + StateDir(name, e) in tree.dirs))
  {
    IsState(tree, name, e);
    IsState(RestoredFrom(tree, dir), name, e);
    hide States, Under;
    FilesAfter(tree, dir, StateDir(name, e));
    DirsAfter(tree, dir, StateDir(name, e));
  }

  // The files below the state directory stay the same exactly if what is laid
  // over them was there already.
  lemma SameBelow(tree: Tree, dir: Parts, own: Parts)
    requires Hidden(own)
    ensures Under(RestoredFrom(tree, dir).files, own) == Under(tree.files, own)
       <==> forall rest | rest in Under(tree.files, dir) && own < rest ::
              rest in tree.files && tree.files[rest] == tree.files[dir + rest]
  {
    var before, after := tree.files, RestoredFrom(tree, dir).files;
    hide Under;
    forall path | own < path
      ensures path in Under(before, dir) <==> path != [] && dir + path in before
      ensures path in after <==> path in Under(before, dir) || path in before
      ensures path in after ==> after[path] == if path in Under(before, dir) then before[dir + path] else before[path]
      ensures path[|own|..] in Under(before, own) <==> path in before
      ensures path[|own|..] in Under(after, own) <==> path in after
      ensures path in before ==> Under(before, own)[path[|own|..]] == before[path]
      ensures path in after ==> Under(after, own)[path[|own|..]] == after[path]
    {
      assert own + path[|own|..] == path;
      UnderHolds(before, dir, path);
      UnderHolds(before, own, path[|own|..]);
      UnderHolds(after, own, path[|own|..]);
      FilesAfter(tree, dir, path);
    }
    if forall rest | rest in Under(before, dir) && own < rest :: rest in before && before[rest] == before[dir + rest] {
      SameUnder(before, after, own);
    }
  }

  // Restoring a directory keeps the snapshot exactly if it lays nothing over it.
  lemma RestoreKeepsExactly(tree: Tree, dir: Parts, name: Parts, state: string, files: Files)
    requires Keeps(tree, name, state, files)
    ensures Keeps(RestoredFrom(tree, dir), name, state, files) <==> LaysNothingOver(tree, dir, name, state)
  {
    var own, after := StateDir(name, state), RestoredFrom(tree, dir);
    SameBelow(tree, dir, own);
    DirsAfter(tree, dir, own);
    hide Under, States;
    forall e ensures e in States(after, name)
                <==> e in States(tree, name)
                     || ("state_" <= e && (StateDir(name, e) in Under(tree.files, dir)
                                           || dir + StateDir(name, e) in tree.dirs)) {
      StatesAfter(tree, dir, name, e);
    }
  }

  lemma ClearingKeeps(tree: Tree, name: Parts, state: string, files: Files)
    requires Keeps(tree, name, state, files)
    ensures Keeps(Cleared(tree), name, state, files)
  {
    hide Under, States;
    SameUnder(tree.files, Cleared(tree).files, StateDir(name, state));
    forall e | e in States(Cleared(tree), name) ensures e in States(tree, name) {
      IsState(tree, name, e);
      IsState(Cleared(tree), name, e);
    }
  }

  // An operation spares the snapshot, and a restore lays nothing over it.
  ghost predicate Harmless(tree: Tree, event: Event, name: Parts, state: string) {
    match event
    case Did(operation) => Spares(operation, name, state)
    case RestoreOf(other) =>
      forall e | Latest(tree, other, e) && StateDir(other, e) in tree.dirs ::
        LaysNothingOver(tree, StateDir(other, e), name, state)
  }

  ghost predicate HarmlessAll(tree: Tree, events: seq<Event>, name: Parts, state: string) {
    events != [] ==>
      var before := events[..|events| - 1];
      && HarmlessAll(tree, before, name, state)
      && Harmless(HappenAll(tree, before), events[|events| - 1], name, state)
  }

  lemma EventKeeps(tree: Tree, event: Event, name: Parts, state: string, files: Files)
    requires Keeps(tree, name, state, files) && (forall p | p in files :: Open(p))
    requires Harmless(tree, event, name, state)
    ensures Keeps(Happen(tree, event), name, state, files)
  {
    hide Keeps, Spares, Perform, LaysNothingOver, Latest, RestoredFrom, Cleared;
    match event
    case Did(operation) => OperationSpares(tree, operation, name, state, files);
    case RestoreOf(other) =>
      if e :| Latest(tree, other, e) {
        LatestDecides(tree, other, e);
        RestoreKeepsExactly(tree, StateDir(other, e), name, state, files);
        ClearingKeeps(tree, name, state, files);
      }
  }

  lemma {:induction false} EventsKeep(tree: Tree, events: seq<Event>, name: Parts, state: string, files: Files)
    requires Keeps(tree, name, state, files) && (forall p | p in files :: Open(p))
    requires HarmlessAll(tree, events, name, state)
    ensures Keeps(HappenAll(tree, events), name, state, files)
  {
    hide Keeps, Harmless, Happen;
    if events != [] {
      EventsKeep(tree, events[..|events| - 1], name, state, files);
      EventKeeps(HappenAll(tree, events[..|events| - 1]), events[|events| - 1], name, state, files);
    }
  }

  // Writes, deletions, snapshots and restores in any order: as long as each of
  // them is harmless, the snapshot is given back exactly.
  lemma RestoreUndoesEvents(tree: Tree, name: Parts, time: nat, events: seq<Event>)
    requires Ready(tree, name, Label(time))
    requires HarmlessAll(Snapshot(tree, StateDir(name, Label(time))), events, name, Label(time))
    ensures GivesBack(HappenAll(Snapshot(tree, StateDir(name, Label(time))), events), name, Visible(tree.files))
  {
    hide Keeps, HarmlessAll, Ready, GivesBack, Snapshot;
    var taken := Snapshot(tree, StateDir(name, Label(time)));
    SnapshotKeeps(tree, name, Label(time));
    EventsKeep(taken, events, name, Label(time), Visible(tree.files));
    KeptIsGivenBack(HappenAll(taken, events), name, Label(time), Visible(tree.files));
  }

  // Restoring the snapshot's own name in between is harmless, unless a
  // directory below its state is itself a later state.
  lemma OwnRestoreIsHarmless(tree: Tree, name: Parts, state: string, files: Files)
    requires Keeps(tree, name, state, files) && (forall p | p in files :: Open(p))
    requires forall e | "state_" <= e && e != state && !Less(e, state) ::
               StateDir(name, state) + StateDir(name, e) !in tree.dirs
    ensures Harmless(tree, RestoreOf(name), name, state)
  {
    hide Under, States;
    IsState(tree, name, state);
    forall e | Latest(tree, name, e) && StateDir(name, e) in tree.dirs
      ensures LaysNothingOver(tree, StateDir(name, e), name, state)
    {
      assert Latest(tree, name, state);
      LatestIsUnique(tree, name, state, e);
    }
  }

  // -- A restore that does harm -------------------------------------------------------

  const OTHER: Parts := StateDir(["b"], "state_1")

  // A file stored for the snapshots named b, under the path of one named a.
  function Planted(own: Parts): Parts {
    OTHER + own + SCRAP
  }

  lemma PlantedTree(own: Parts, state: string)
    requires own == StateDir(["a"], state) && "state_" <= state
    ensures var tree := Written(Tree(map[], Above(own) + {own}), Planted(own), "x");
            && Latest(tree, ["b"], "state_1") && OTHER in tree.dirs
            && tree.files == map[Planted(own) := "x"]
            && (forall d | d in tree.dirs && Hidden(d) :: d <= own || d <= Planted(own))
  {
    var tree := Written(Tree(map[], Above(own) + {own}), Planted(own), "x");
    hide States;
    AboveHolds(Planted(own), OTHER);
    assert OTHER < Planted(own) && |OTHER| == 3;
    forall e ensures e in States(tree, ["b"]) <==> e == "state_1" {
      IsState(tree, ["b"], e);
      assert StateDir(["b"], e)[2] == e && StateDir(["b"], e)[1] == "b";
      AboveHolds(own, StateDir(["b"], e));
      AboveHolds(Planted(own), StateDir(["b"], e));
      assert own[1] == "a" && Planted(own)[2] == "state_1";
    }
  }

  // After the restore of b the file is part of the snapshot of a.
  lemma PlantedIsRestored(tree: Tree, own: Parts, state: string)
    requires own == StateDir(["a"], state) && "state_" <= state
    requires tree.files == map[Planted(own) := "x"] && own in tree.dirs
    requires forall d | d in tree.dirs && Hidden(d) :: d <= own || d <= Planted(own)
    ensures var after := RestoredFrom(tree, OTHER);
            own + SCRAP in after.files && Latest(after, ["a"], state) && own in after.dirs
  {
    var after := RestoredFrom(tree, OTHER);
    hide States, Under;
    assert Planted(own) == OTHER + (own + SCRAP);
    UnderHolds(tree.files, OTHER, own + SCRAP);
    FilesAfter(tree, OTHER, own + SCRAP);
    DirsAfter(tree, OTHER, own);
    IsState(tree, ["a"], state);
    StatesAfter(tree, OTHER, ["a"], state);
    forall e | e in States(after, ["a"]) ensures e == state {
      IsState(tree, ["a"], e);
      StatesAfter(tree, OTHER, ["a"], e);
      UnderHolds(tree.files, OTHER, StateDir(["a"], e));
      var path := StateDir(["a"], e);
      assert path[2] == e && own[2] == state && |path| == |own| == 3 && Planted(own)[1] == "b" && own[1] == "a";
      assert (OTHER + path)[3..] == path && Planted(own)[3..] == own + SCRAP && (OTHER + path)[..3] == OTHER;
      if OTHER + path in tree.dirs {
        assert (OTHER + path)[1] == "b";
        assert OTHER + path <= Planted(own);
        assert path <= own + SCRAP;
      }
    }
  }

  lemma PlantedDoesHarm(time: nat)
    requires Acceptable(Planted(StateDir(["a"], Label(time))))
    ensures var own := StateDir(["a"], Label(time));
            var planting := Create(Planted(own), "x");
            && Spares(planting, ["a"], Label(time))
            && !GivesBack(HappenAll(Snapshot(EMPTY, own), [Did(planting), RestoreOf(["b"])]), ["a"], map[])
  {
    hide Label, Acceptable, GivesBack, Latest, RestoredFrom, Snapshot;
    var own := StateDir(["a"], Label(time));
    var planting, target := Create(Planted(own), "x"), Planted(own);
    EmptyIsReady(["a"], time);
    StateLabelled(time);
    assert target[1] == "b" && own[1] == "a" && target[1] != NameDir(["a"])[1];
    var taken := Snapshot(EMPTY, own);
    AboveHolds(own, target);
    assert |own| < |target|;
    var planted := Written(taken, target, "x");
    PlantedTree(own, Label(time));
    LatestDecides(planted, ["b"], "state_1");
    PlantedIsRestored(planted, own, Label(time));
    var events := [Did(planting), RestoreOf(["b"])];
    assert events[..1] == [Did(planting)] && events[..1][..0] == [];
    assert HappenAll(taken, events[..1]) == planted;
    assert HappenAll(taken, events) == Restored(planted, ["b"]) == RestoredFrom(planted, OTHER);
    assert (own + SCRAP)[3..] == SCRAP && own < own + SCRAP;
    Intruder(RestoredFrom(planted, OTHER), ["a"], Label(time), own + SCRAP, map[]);
  }

  lemma StateLabelled(time: nat)
    ensures "state_" <= Label(time)
  {
  }

  // Restoring one name brings another one's snapshot a file it never had.
  lemma OtherRestoreDoesHarm()
    ensures var own := StateDir(["a"], Label(5));
            var planting := Create(Planted(own), "x");
            && Spares(planting, ["a"], Label(5))
            && !GivesBack(HappenAll(Snapshot(EMPTY, own), [Did(planting), RestoreOf(["b"])]), ["a"], map[])
  {
    var target := Planted(StateDir(["a"], Label(5)));
    assert target == [SNAPSHOTS, "b", "state_1", SNAPSHOTS, "a", Label(5), "f"];
    assert SNAPSHOTS[1] == 's' && target[2][0] == 's' && target[5][0] == 's';
    assert Acceptable(target);
    PlantedDoesHarm(5);
  }
}
