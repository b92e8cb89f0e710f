/** The trees of the role upgrade over whole runs: the version 2 tree is never lost, backups are
    permanent, and startup and recovery meet complete trees only. */
module RoleTheorems {
  import opened Wrappers
  import opened MigrationDisk
  import opened RoleUpgrade

  // ---- The version 2 tree ----

  predicate V2AtRoot(d: Disk) {
    d.root.Some? && d.root.value.layout == V2
  }

  /** The version 2 tree as the daemons of a run left it: the last version 2 root. */
  function V2Tree(d: Disk, actions: seq<Action>): Tree
    requires Original(d)
  {
    var w := Run(Begin(d), actions);
    if actions == [] then d.root.value
    else if V2AtRoot(w.disk) then w.disk.root.value
    else V2Tree(d, actions[..|actions| - 1])
  }

  predicate OnlyBackup(d: Disk, t: Tree) {
    exists id :: id in d.roleBackups && d.roleBackups == map[id := t]
  }

  /** The version 3 tree made from an original: its marker of the legacy migration is carried over. */
  function V3Tree(original: Tree, data: seq<nat>, m: RoleMarker): Tree {
    Tree(V3, data, Some(m), original.legacy)
  }

  /** From x to y no backup is touched, and a new one is the root that x had, marker for marker. */
  predicate BackupsKept(x: Disk, y: Disk) {
    && x.roleBackups.Keys <= y.roleBackups.Keys
    && forall id :: id in y.roleBackups ==> if id in x.roleBackups then y.roleBackups[id] == x.roleBackups[id]
                                       else x.root == Some(y.roleBackups[id])
  }

  predicate SameOriginal(x: Disk, y: Disk) {
    y.root == x.root && y.roleBackups == x.roleBackups
  }

  lemma PrepareLeavesOriginal(p: Progress, id: nat, convertible: bool)
    ensures SameOriginal(p.disk, Prepare(p, id, convertible).disk)
  {
    hide WritePhase;
  }

  lemma BackUpSaves(p: Progress, id: nat)
    ensures BackupsKept(p.disk, BackUp(p, id).disk)
    ensures var d := BackUp(p, id).disk; d.root == p.disk.root || id in d.roleBackups
  {
    hide WritePhase;
  }

  lemma PublishStageSaves(p: Progress, id: nat)
    ensures PublishStage(p, id).disk.roleBackups == p.disk.roleBackups
    ensures !p.outcome.Going? || p.disk.root.Some? ==>
              PublishStage(p, id).disk.root == p.disk.root && !PublishStage(p, id).outcome.Going?
  {
    var q := StageToRoot(p, id);
    if !q.outcome.Going? {
      StoppedPhase(q, RoleMarker(id, Published));
    }
    hide WritePhase;
  }

  lemma BackedUpGoing(p: Progress, id: nat)
    requires BackUp(p, id).outcome.Going?
    ensures id in BackUp(p, id).disk.roleBackups
  {
    hide WritePhase;
  }

  lemma PublishSaves(p: Progress, m: RoleMarker)
    ensures BackupsKept(p.disk, Publish(p, m).disk)
    ensures (m.phase == Prepared || m.phase == BackedUp) && p.disk.root.Some? ==>
              m.id in Publish(p, m).disk.roleBackups || Publish(p, m).disk.root == p.disk.root
  {
    var q := if m.phase == Prepared then BackUp(p, m.id) else p;
    var r := if m.phase == Prepared || m.phase == BackedUp then PublishStage(q, m.id) else q;
    BackUpSaves(p, m.id);
    PublishStageSaves(q, m.id);
    if !r.outcome.Going? {
      StoppedPhase(r, RoleMarker(m.id, Complete));
    }
    if q.outcome.Going? && m.phase == Prepared {
      BackedUpGoing(p, m.id);
    }
    hide BackUp;
    hide PublishStage;
    hide WritePhase;
  }

  lemma UpgradeSaves(d: Disk, budget: nat, id: nat, convertible: bool)
    ensures var x := Upgrade(d, budget, id, convertible).disk;
            BackupsKept(d, x) && (x.root == d.root || x.roleBackups != map[])
  {
    var p := Progress(d, budget, Going);
    PrepareLeavesOriginal(p, id, convertible);
    PublishSaves(Prepare(p, id, convertible), RoleMarker(id, Prepared));
    hide Prepare;
    hide Publish;
  }

  lemma RecoverIs(d: Disk, budget: nat)
    requires d.roleSidecar.Some?
    ensures var p, m, x := Progress(d, budget, Going), d.roleSidecar.value, Recover(d, budget).disk;
            || SameOriginal(d, x)
            || (Committed(d) && m.phase != Complete && x == Publish(p, m).disk)
            || (InnerRole(d).Some? && x == Publish(p, m.(phase := Published)).disk)
  {
    hide Publish;
    hide CheckStartup;
  }

  lemma RecoverSaves(d: Disk, budget: nat)
    requires d.roleSidecar.Some?
    ensures var x := Recover(d, budget).disk;
            && BackupsKept(d, x)
            && (d.root.Some? && InnerRole(d).None? && d.roleSidecar.value.phase != Published ==> x.root == d.root || x.roleBackups != map[])
  {
    RecoverIs(d, budget);
    var m := d.roleSidecar.value;
    PublishSaves(Progress(d, budget, Going), m);
    PublishSaves(Progress(d, budget, Going), m.(phase := Published));
    hide Publish;
    hide Recover;
  }

  /** A step leaves every backup as it is, and a backup that it makes is the root before the step. */
  lemma StepSaves(w: World, a: Action)
    ensures BackupsKept(w.disk, Step(w, a).disk)
  {
    match a
    case Migrate(id, convertible, budget) => UpgradeSaves(w.disk, budget, id, convertible);
      hide Upgrade;
    case Repair(budget) =>
      if w.disk.roleSidecar.Some? {
        RecoverSaves(w.disk, budget);
      }
      hide Recover;
    case Serve(item) =>
  }

  /** What the invariant says about the two places of the version 2 tree. */
  predicate Places(d: Disk, data: seq<nat>) {
    if V2AtRoot(d) then
      && d.root.value.data == data && d.root.value.role.None? && d.roleBackups == map[]
      && (d.roleSidecar.Some? ==> d.roleSidecar.value.phase != Published)
    else exists id :: id in d.roleBackups && d.roleBackups.Keys == {id}
  }

  lemma InvPlaces(d: Disk, data: seq<nat>)
    requires Inv(d, data)
    ensures Places(d, data)
  {
    if !V2AtRoot(d) {
      assert d.roleSidecar.value.id in d.roleBackups;
    }
  }

  lemma StepPlaces(w: World, a: Action)
    requires Inv(w.disk, w.accepted)
    ensures Places(w.disk, w.accepted) && Places(Step(w, a).disk, Step(w, a).accepted)
  {
    StepKeeps(w, a);
    InvPlaces(w.disk, w.accepted);
    InvPlaces(Step(w, a).disk, Step(w, a).accepted);
  }

  /** A version 2 root changes only by what a daemon stores in it. */
  lemma StepLeavesV2(w: World, a: Action)
    requires Inv(w.disk, w.accepted) && V2AtRoot(w.disk) && V2AtRoot(Step(w, a).disk)
    ensures if a.Serve? then Step(w, a).disk.root == Some(w.disk.root.value.(data := Step(w, a).accepted))
            else Step(w, a).disk.root == w.disk.root
  {
    StepPlaces(w, a);
    hide Inv;
    match a
    case Migrate(id, convertible, budget) => UpgradeSaves(w.disk, budget, id, convertible);
      hide Upgrade;
    case Repair(budget) =>
      if w.disk.roleSidecar.Some? {
        RecoverSaves(w.disk, budget);
      }
      hide Recover;
    case Serve(item) =>
      hide CheckStartup;
  }

  /** Where the version 2 tree t is, whole. */
  predicate Holds(d: Disk, t: Tree, data: seq<nat>) {
    if V2AtRoot(d) then d.root == Some(t) && t.data == data && d.roleBackups == map[] else OnlyBackup(d, t)
  }

  lemma StepHolds(w: World, a: Action, t: Tree)
    requires Inv(w.disk, w.accepted) && Holds(w.disk, t, w.accepted)
    ensures var x := Step(w, a);
            var now := if V2AtRoot(x.disk) then x.disk.root.value else t;
            Holds(x.disk, now, x.accepted) && now == t.(data := now.data)
  {
    hide Step;
    hide Inv;
    StepPlaces(w, a);
    StepSaves(w, a);
    if V2AtRoot(w.disk) && V2AtRoot(Step(w, a).disk) {
      StepLeavesV2(w, a);
    }
  }

  // ---- The carried marker ----

  /** The legacy migration's marker is in the root and in the stage of transaction id. */
  predicate Carried(d: Disk, id: nat, legacy: Option<LegacyMarker>) {
    (d.root.Some? ==> d.root.value.legacy == legacy) && (id in d.roleStages ==> d.roleStages[id].legacy == legacy)
  }

  predicate CarriesMarker(d: Disk, legacy: Option<LegacyMarker>) {
    && (d.root.Some? ==> d.root.value.legacy == legacy)
    && (Committed(d) ==> Carried(d, d.roleSidecar.value.id, legacy))
  }

  predicate About(d: Disk, id: nat) {
    d.roleSidecar.Some? && d.roleSidecar.value.id == id
  }

  lemma PhaseCarries(p: Progress, m: RoleMarker, legacy: Option<LegacyMarker>)
    requires Carried(p.disk, m.id, legacy)
    ensures Carried(WritePhase(p, m).disk, m.id, legacy)
    ensures About(p.disk, m.id) ==> About(WritePhase(p, m).disk, m.id)
  {
  }

  lemma PublishCarries(p: Progress, m: RoleMarker, legacy: Option<LegacyMarker>)
    requires Carried(p.disk, m.id, legacy) && About(p.disk, m.id)
    ensures Carried(Publish(p, m).disk, m.id, legacy) && About(Publish(p, m).disk, m.id)
  {
    hide WritePhase;
    hide Carried;
    var q := if m.phase == Prepared then BackUp(p, m.id) else p;
    if m.phase == Prepared {
      var saved := if m.id in p.disk.roleBackups then p else RootToBackup(p, m.id);
      RenamesCarry(p, m.id, legacy);
      PhaseCarries(saved, RoleMarker(m.id, BackedUp), legacy);
    }
    hide RootToBackup;
    var r := if m.phase == Prepared || m.phase == BackedUp then PublishStage(q, m.id) else q;
    if m.phase == Prepared || m.phase == BackedUp {
      RenamesCarry(q, m.id, legacy);
      PhaseCarries(StageToRoot(q, m.id), RoleMarker(m.id, Published), legacy);
    }
    hide StageToRoot;
    PhaseCarries(r, RoleMarker(m.id, Complete), legacy);
  }

  lemma RenamesCarry(p: Progress, id: nat, legacy: Option<LegacyMarker>)
    requires Carried(p.disk, id, legacy)
    ensures Carried(RootToBackup(p, id).disk, id, legacy) && Carried(StageToRoot(p, id).disk, id, legacy)
    ensures About(p.disk, id) ==> About(RootToBackup(p, id).disk, id) && About(StageToRoot(p, id).disk, id)
  {
  }

  lemma PrepareCarries(p: Progress, id: nat, convertible: bool, legacy: Option<LegacyMarker>)
    requires p.disk.root.Some? && p.disk.root.value.legacy == legacy
    ensures var q := Prepare(p, id, convertible);
            && q.disk.root == p.disk.root
            && (q.outcome.Going? ==> Carried(q.disk, id, legacy) && About(q.disk, id))
  {
  }

  lemma UpgradeCarries(d: Disk, budget: nat, id: nat, convertible: bool, data: seq<nat>, legacy: Option<LegacyMarker>)
    requires Inv(d, data) && Fresh(d, id) && CarriesMarker(d, legacy)
    ensures CarriesMarker(Upgrade(d, budget, id, convertible).disk, legacy)
  {
    var p := Progress(d, budget, Going);
    StartupAccepts(d);
    if CheckStartup(d).None? && d.root.Some? && d.root.value.layout == V2 {
      PrepareKeeps(p, id, convertible, data);
      PrepareCarries(p, id, convertible, legacy);
      var q := Prepare(p, id, convertible);
      if q.outcome.Going? {
        PublishCarries(q, RoleMarker(id, Prepared), legacy);
      } else {
        StoppedStays(q, RoleMarker(id, Prepared));
      }
    }
    hide Prepare;
    hide Publish;
    hide Inv;
  }

  lemma RecoverCarries(d: Disk, budget: nat, legacy: Option<LegacyMarker>)
    requires CarriesMarker(d, legacy) && d.roleSidecar.Some?
    ensures CarriesMarker(Recover(d, budget).disk, legacy)
  {
    if Committed(d) {
      var p := Progress(d, budget, Going);
      var m := d.roleSidecar.value;
      PublishCarries(p, m, legacy);
      PublishCarries(p, m.(phase := Published), legacy);
    }
    hide Publish;
  }

  lemma StepCarries(w: World, a: Action, legacy: Option<LegacyMarker>)
    requires Inv(w.disk, w.accepted) && CarriesMarker(w.disk, legacy)
    ensures CarriesMarker(Step(w, a).disk, legacy)
  {
    match a
    case Migrate(id, convertible, budget) =>
      if Fresh(w.disk, id) {
        UpgradeCarries(w.disk, budget, id, convertible, w.accepted, legacy);
      }
    case Repair(budget) =>
      if w.disk.roleSidecar.Some? {
        RecoverCarries(w.disk, budget, legacy);
      }
    case Serve(item) =>
  }

  // ---- Runs with their version 2 tree ----

  /** What every disk of a run holds. */
  predicate Whole(d: Disk, w: World, t: Tree) {
    Original(d) && Inv(w.disk, w.accepted) && Holds(w.disk, t, w.accepted) && t == d.root.value.(data := t.data)
    && CarriesMarker(w.disk, d.root.value.legacy)
  }

  lemma {:induction false} RunWhole(d: Disk, actions: seq<Action>)
    requires Original(d)
    ensures Whole(d, Run(Begin(d), actions), V2Tree(d, actions))
  {
    if actions != [] {
      var front, a := actions[..|actions| - 1], actions[|actions| - 1];
      RunWhole(d, front);
      var w := Run(Begin(d), front);
      StepKeeps(w, a);
      StepHolds(w, a, V2Tree(d, front));
      StepCarries(w, a, d.root.value.legacy);
      hide Step;
      hide Inv;
      hide Holds;
      hide CarriesMarker;
    }
  }

  predicate OnlyRepairs(actions: seq<Action>) {
    forall i :: 0 <= i < |actions| ==> actions[i].Repair?
  }

  lemma {:induction false} RepairsKeep(w: World, actions: seq<Action>)
    requires Inv(w.disk, w.accepted) && OnlyRepairs(actions)
    ensures var x := Run(w, actions);
            && Inv(x.disk, x.accepted) && x.accepted == w.accepted && (Committed(x.disk) <==> Committed(w.disk))
            && (w.disk.roleSidecar.Some? ==> x.disk.roleSidecar.Some?)
  {
    if actions != [] {
      var front := actions[..|actions| - 1];
      RepairsKeep(w, front);
      var x := Run(w, front);
      if x.disk.roleSidecar.Some? {
        RecoverKeeps(x.disk, actions[|actions| - 1].budget, x.accepted);
      }
      hide Recover;
      hide Inv;
    }
  }

  lemma {:induction false} RunJoin(w: World, actions: seq<Action>, more: seq<Action>)
    ensures Run(w, actions + more) == Run(Run(w, actions), more)
  {
    if more == [] {
      assert actions + more == actions;
    } else {
      var all := actions + more;
      assert all[..|all| - 1] == actions + more[..|more| - 1];
      RunJoin(w, actions, more[..|more| - 1]);
    }
  }

  lemma {:induction false} RepairsLeaveTree(d: Disk, actions: seq<Action>, repairs: seq<Action>)
    requires Original(d) && OnlyRepairs(repairs)
    ensures V2Tree(d, actions + repairs) == V2Tree(d, actions)
  {
    if repairs == [] {
      assert actions + repairs == actions;
    } else {
      var front := repairs[..|repairs| - 1];
      assert (actions + repairs)[..|actions + repairs| - 1] == actions + front;
      RepairsLeaveTree(d, actions, front);
      RepairLeavesTree(d, actions + front, (actions + repairs)[|actions + repairs| - 1]);
      assert actions + repairs == actions + front + [repairs[|repairs| - 1]];
      hide V2Tree;
    }
  }

  lemma V2TreeStep(d: Disk, actions: seq<Action>, a: Action)
    requires Original(d)
    ensures var x := Step(Run(Begin(d), actions), a).disk;
            && Step(Run(Begin(d), actions), a) == Run(Begin(d), actions + [a])
            && V2Tree(d, actions + [a]) == if V2AtRoot(x) then x.root.value else V2Tree(d, actions)
  {
    assert (actions + [a])[..|actions|] == actions;
    hide Step;
  }

  lemma RepairLeavesV2(w: World, a: Action)
    requires Inv(w.disk, w.accepted) && a.Repair? && V2AtRoot(Step(w, a).disk)
    ensures Step(w, a).disk.root == w.disk.root
  {
    StepPlaces(w, a);
    StepSaves(w, a);
    if V2AtRoot(w.disk) {
      StepLeavesV2(w, a);
    }
    hide Step;
    hide Inv;
  }

  lemma RepairLeavesTree(d: Disk, actions: seq<Action>, a: Action)
    requires Original(d) && a.Repair?
    ensures V2Tree(d, actions + [a]) == V2Tree(d, actions)
  {
    var w := Run(Begin(d), actions);
    RunWhole(d, actions);
    V2TreeStep(d, actions, a);
    hide Run;
    hide V2Tree;
    if V2AtRoot(Step(w, a).disk) {
      RepairLeavesV2(w, a);
    }
    hide Step;
    hide Inv;
  }

  // ---- Theorems ----

  /** Whatever is started, crashed, repaired and served: the version 2 tree, with all that daemons
      stored in it and its markers, is at exactly one of the root and one backup. Whatever is at the
      root has the whole accepted history; while nothing is, the backup and the stage have it. */
  lemma V2TreeNeverLost(d: Disk, actions: seq<Action>)
    requires Original(d)
    ensures var w, t := Run(Begin(d), actions), V2Tree(d, actions);
            && t == d.root.value.(data := t.data) && t.data <= w.accepted
            && (if V2AtRoot(w.disk) then w.disk.root == Some(t) && w.disk.roleBackups == map[] else OnlyBackup(w.disk, t))
            && (w.disk.root.Some? ==> w.disk.root.value.data == w.accepted)
            && (w.disk.root.None? ==>
                  && t.data == w.accepted
                  && exists id, m :: id in w.disk.roleStages && w.disk.roleStages[id] == V3Tree(d.root.value, w.accepted, m))
  {
    RunWhole(d, actions);
    WholeWhere(d, Run(Begin(d), actions), V2Tree(d, actions));
    hide V2Tree;
    hide Run;
  }

  lemma WholeWhere(d: Disk, w: World, t: Tree)
    requires Whole(d, w, t)
    ensures w.disk.root.Some? ==> w.disk.root.value.data == w.accepted
    ensures t.data <= w.accepted
    ensures w.disk.root.None? ==>
              && t.data == w.accepted
              && exists id, m :: id in w.disk.roleStages && w.disk.roleStages[id] == V3Tree(d.root.value, w.accepted, m)
  {
    if w.disk.root.None? {
      var id := w.disk.roleSidecar.value.id;
      assert w.disk.roleStages[id] == V3Tree(d.root.value, w.accepted, w.disk.roleStages[id].role.value);
    }
  }

  /** Backups are permanent: each was once the root, whole, and no later step changes it. */
  lemma {:induction false} BackupsArePermanent(d: Disk, actions: seq<Action>, more: seq<Action>, id: nat)
    requires Original(d) && id in Run(Begin(d), actions).disk.roleBackups
    ensures var saved := Run(Begin(d), actions).disk.roleBackups[id];
            && (exists k :: 0 <= k <= |actions| && Run(Begin(d), actions[..k]).disk.root == Some(saved))
            && id in Run(Begin(d), actions + more).disk.roleBackups
            && Run(Begin(d), actions + more).disk.roleBackups[id] == saved
  {
    BackupWasRoot(d, actions, id);
    RunJoin(Begin(d), actions, more);
    BackupsStay(Run(Begin(d), actions), more);
  }

  lemma {:induction false} BackupsStay(w: World, more: seq<Action>)
    ensures forall id :: id in w.disk.roleBackups ==>
              id in Run(w, more).disk.roleBackups && Run(w, more).disk.roleBackups[id] == w.disk.roleBackups[id]
  {
    if more != [] {
      BackupsStay(w, more[..|more| - 1]);
      StepSaves(Run(w, more[..|more| - 1]), more[|more| - 1]);
      hide Step;
    }
  }

  lemma {:induction false} BackupWasRoot(d: Disk, actions: seq<Action>, id: nat)
    requires Original(d) && id in Run(Begin(d), actions).disk.roleBackups
    ensures exists k :: 0 <= k <= |actions|
                        && Run(Begin(d), actions[..k]).disk.root == Some(Run(Begin(d), actions).disk.roleBackups[id])
  {
    hide Step;
    if actions != [] {
      var front := actions[..|actions| - 1];
      var w := Run(Begin(d), front);
      if id in w.disk.roleBackups {
        BackupWasRoot(d, front, id);
        var k :| 0 <= k <= |front| && Run(Begin(d), front[..k]).disk.root == Some(w.disk.roleBackups[id]);
        assert actions[..k] == front[..k];
        BackupsStay(w, [actions[|actions| - 1]]);
        RunJoin(Begin(d), front, [actions[|actions| - 1]]);
        assert front + [actions[|actions| - 1]] == actions;
      } else {
        NewBackup(w, actions[|actions| - 1], id);
        assert actions[..|front|] == front;
      }
    }
  }

  lemma NewBackup(w: World, a: Action, id: nat)
    requires id !in w.disk.roleBackups && id in Step(w, a).disk.roleBackups
    ensures w.disk.root == Some(Step(w, a).disk.roleBackups[id])
  {
    hide Step;
    StepSaves(w, a);
  }

  /** CheckStartup accepts exactly the resolved disks, and then both trees are whole: the version 2
      tree at the root and no backup, or the version 3 tree with both markers complete and the
      version 2 tree in the transaction's backup. */
  lemma StartupOnlyWhenResolved(d: Disk, actions: seq<Action>)
    requires Original(d)
    ensures var w, t := Run(Begin(d), actions), V2Tree(d, actions);
            && (CheckStartup(w.disk).None? <==> Resolved(w.disk))
            && (Resolved(w.disk) && !Committed(w.disk) ==> RolledBackTo(w, t))
            && (Resolved(w.disk) && Committed(w.disk) ==> Upgraded(w, t))
  {
    RunWhole(d, actions);
    ResolvedIsWhole(d, Run(Begin(d), actions), V2Tree(d, actions));
    hide Run;
    hide V2Tree;
    hide Whole;
    hide CheckStartup;
  }

  lemma ResolvedIsWhole(d: Disk, w: World, t: Tree)
    requires Whole(d, w, t)
    ensures CheckStartup(w.disk).None? <==> Resolved(w.disk)
    ensures Resolved(w.disk) && !Committed(w.disk) ==> RolledBackTo(w, t)
    ensures Resolved(w.disk) && Committed(w.disk) ==> Upgraded(w, t)
  {
    StartupAccepts(w.disk);
    hide CheckStartup;
  }

  /** The version 2 tree t is the root, and nothing else is left of an upgrade but its stage. */
  predicate RolledBackTo(w: World, t: Tree) {
    w.disk.root == Some(t) && t.layout == V2 && t.data == w.accepted && w.disk.roleBackups == map[]
  }

  predicate Upgraded(w: World, t: Tree) {
    w.disk.roleSidecar.Some? && var m := w.disk.roleSidecar.value;
    && m.phase == Complete && w.disk.root == Some(V3Tree(t, w.accepted, m)) && w.disk.roleBackups == map[m.id := t]
  }

  /** Recovery after any number of crashed recoveries, once left alone for eight steps, succeeds.
      It ends with the version 2 tree rolled back or with the version 3 tree complete beside it, and
      which of the two was already decided by the disk the crash left. */
  lemma RepeatedRecoveryResolves(d: Disk, actions: seq<Action>, repairs: seq<Action>, budget: nat)
    requires Original(d) && OnlyRepairs(repairs) && budget >= 8
    requires Run(Begin(d), actions).disk.roleSidecar.Some?
    ensures var crashed, t := Run(Begin(d), actions), V2Tree(d, actions);
            var again := Run(crashed, repairs).disk;
            again.roleSidecar.Some? && var q := Recover(again, budget);
            && q.outcome.Going?
            && (if Committed(crashed.disk) then Upgraded(World(q.disk, crashed.accepted), t)
                else q.disk.roleSidecar.value.phase == RolledBack && RolledBackTo(World(q.disk, crashed.accepted), t))
  {
    RunKeeps(d, actions);
    var crashed := Run(Begin(d), actions);
    RepairsKeep(crashed, repairs);
    var again := Run(crashed, repairs).disk;
    RecoverKeeps(again, budget, crashed.accepted);
    var all := repairs + [Repair(budget)];
    assert all[..|repairs|] == repairs;
    assert Run(crashed, all) == Step(Run(crashed, repairs), Repair(budget));
    RunJoin(Begin(d), actions, all);
    RepairsLeaveTree(d, actions, all);
    StartupOnlyWhenResolved(d, actions + all);
    hide Recover;
    hide Run;
    hide Inv;
    hide CheckStartup;
  }

  /** The commit point: an upgrade of a convertible root that crashes after `budget` steps is
      rolled forward by recovery exactly if the fifth step, the prepared sidecar, was reached. */
  lemma CommitPoint(d: Disk, actions: seq<Action>, id: nat, budget: nat)
    requires Original(d)
    requires var w := Run(Begin(d), actions);
             CheckStartup(w.disk).None? && V2AtRoot(w.disk) && Fresh(w.disk, id)
    ensures var w := Run(Begin(d), actions);
            Committed(Upgrade(w.disk, budget, id, true).disk) <==> budget >= 5
  {
    RunKeeps(d, actions);
    var w := Run(Begin(d), actions);
    StartupAccepts(w.disk);
    var p := Progress(w.disk, budget, Going);
    PrepareKeeps(p, id, true, w.accepted);
    var q := Prepare(p, id, true);
    if budget >= 5 {
      PublishKeeps(q, RoleMarker(id, Prepared), w.accepted);
    } else {
      StoppedStays(q, RoleMarker(id, Prepared));
    }
  }

  /** An upgrade that is not interrupted completes, with the root it found as its backup, and
      repeating it changes nothing. */
  lemma UpgradeOnce(d: Disk, actions: seq<Action>, id: nat, budget: nat, again: nat, id2: nat)
    requires Original(d) && budget >= 13
    requires var w := Run(Begin(d), actions);
             CheckStartup(w.disk).None? && V2AtRoot(w.disk) && Fresh(w.disk, id)
    ensures var w := Run(Begin(d), actions);
            var q := Upgrade(w.disk, budget, id, true);
            && q.outcome.Going? && q.disk.roleSidecar == Some(RoleMarker(id, Complete))
            && Upgraded(World(q.disk, w.accepted), w.disk.root.value)
            && Upgrade(q.disk, again, id2, true) == Progress(q.disk, again, Going)
  {
    RunWhole(d, actions);
    var w := Run(Begin(d), actions);
    UpgradeCompletes(w, id, budget);
    var a := Migrate(id, true, budget);
    V2TreeStep(d, actions, a);
    StartupOnlyWhenResolved(d, actions + [a]);
    hide Upgrade;
    hide Inv;
    hide Run;
    hide CheckStartup;
    CurrentIsLeftAlone(Step(w, a).disk, again, id2);
  }

  lemma UpgradeCompletes(w: World, id: nat, budget: nat)
    requires Inv(w.disk, w.accepted) && CheckStartup(w.disk).None? && V2AtRoot(w.disk) && Fresh(w.disk, id) && budget >= 13
    ensures var q := Upgrade(w.disk, budget, id, true);
            q.outcome.Going? && q.disk.roleSidecar == Some(RoleMarker(id, Complete))
    ensures !V2AtRoot(Upgrade(w.disk, budget, id, true).disk)
  {
    StartupAccepts(w.disk);
    var p := Progress(w.disk, budget, Going);
    PrepareKeeps(p, id, true, w.accepted);
    PublishKeeps(Prepare(p, id, true), RoleMarker(id, Prepared), w.accepted);
    hide Publish;
    hide Prepare;
  }

  lemma CurrentIsLeftAlone(d: Disk, budget: nat, id: nat)
    requires CheckStartup(d).None? && d.root.Some? && d.root.value.layout == V3
    ensures Upgrade(d, budget, id, true) == Progress(d, budget, Going)
  {
    hide CheckStartup;
    hide Prepare;
    hide Publish;
  }
}
