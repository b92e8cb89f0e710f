/** The role upgrade (internal/migration/roles.go): a version 2 root is converted in a sibling
    stage, the root becomes the backup and the stage becomes the root. Once the sidecar marker says
    prepared, recovery rolls forward. */
module RoleUpgrade {
  import opened Wrappers
  import opened MigrationDisk

  function InStage(p: Progress, id: nat, tree: Tree): Progress {
    Durable(p, p.disk.(roleStages := p.disk.roleStages[id := tree]))
  }

  function WriteSidecar(p: Progress, m: RoleMarker): Progress {
    Durable(p, p.disk.(roleSidecar := Some(m)))
  }

  predicate MarksRoot(phase: RolePhase) {
    phase == Published || phase == Complete
  }

  /** The marker inside the tree that the transaction is about: the stage before publication. */
  function WriteInner(p: Progress, m: RoleMarker): Progress {
    var d := p.disk;
    if MarksRoot(m.phase) then
      if d.root.None? then Stop(p, RootUnavailable)
      else Durable(p, d.(root := Some(d.root.value.(role := Some(m)))))
    else if m.id !in d.roleStages then Stop(p, RootUnavailable)
    else InStage(p, m.id, d.roleStages[m.id].(role := Some(m)))
  }

  /** writeRolePhase: the tree's marker, then the sidecar. */
  function WritePhase(p: Progress, m: RoleMarker): (q: Progress)
    ensures q.disk.roleBackups == p.disk.roleBackups && (q.outcome.Going? ==> p.outcome.Going?)
    ensures !MarksRoot(m.phase) ==> q.disk.root == p.disk.root
  {
    WriteSidecar(WriteInner(p, m), m)
  }

  function RootToBackup(p: Progress, id: nat): Progress {
    var d := p.disk;
    if d.root.None? then Stop(p, RootUnavailable)
    else Durable(p, d.(root := None, roleBackups := d.roleBackups[id := d.root.value]))
  }

  function StageToRoot(p: Progress, id: nat): Progress {
    var d := p.disk;
    if d.root.Some? then Stop(p, UnexpectedRoot)
    else if id !in d.roleStages then Stop(p, RootUnavailable)
    else Durable(p, d.(root := Some(d.roleStages[id]), roleStages := d.roleStages - {id}))
  }

  function BackUp(p: Progress, id: nat): Progress {
    WritePhase(if id in p.disk.roleBackups then p else RootToBackup(p, id), RoleMarker(id, BackedUp))
  }

  function PublishStage(p: Progress, id: nat): Progress {
    WritePhase(StageToRoot(p, id), RoleMarker(id, Published))
  }

  /** publishRoleTransition, entered in the phase that was last made durable. */
  function Publish(p: Progress, m: RoleMarker): Progress {
    var q := if m.phase == Prepared then BackUp(p, m.id) else p;
    var r := if m.phase == Prepared || m.phase == BackedUp then PublishStage(q, m.id) else q;
    WritePhase(r, RoleMarker(m.id, Complete))
  }

  /** Up to the durable prepared marker; `convertible` says whether every Bot's configuration
      converts. */
  function Prepare(p: Progress, id: nat, convertible: bool): Progress {
    Convert(WriteSidecar(InStage(p, id, Tree(Draft, [], None, None)), RoleMarker(id, Preparing)), id, convertible)
  }

  /** The copy, the conversion and the prepared marker. */
  function Convert(p: Progress, id: nat, convertible: bool): Progress {
    if !convertible || p.disk.root.None? then Stop(p, ConversionFailed)
    else WritePhase(InStage(p, id, Tree(V3, p.disk.root.value.data, None, p.disk.root.value.legacy)), RoleMarker(id, Prepared))
  }

  function Upgrade(d: Disk, budget: nat, id: nat, convertible: bool): Progress {
    var p := Progress(d, budget, Going);
    if CheckStartup(d).Some? then Stop(p, CheckStartup(d).value)
    else if d.root.None? then Stop(p, RootUnavailable)
    else if d.root.value.layout == V3 then p
    else if d.root.value.layout != V2 then Stop(p, WrongLayout)
    else Publish(Prepare(p, id, convertible), RoleMarker(id, Prepared))
  }

  /** recoverRoles, for a disk with a sidecar marker. */
  function Recover(d: Disk, budget: nat): Progress
    requires d.roleSidecar.Some?
  {
    var p := Progress(d, budget, Going);
    var m := d.roleSidecar.value;
    if Final(m.phase) then (if CheckStartup(d).Some? then Stop(p, CheckStartup(d).value) else p)
    else if m.phase == Preparing then
      if d.root.None? then Stop(p, RootUnavailable) else WriteSidecar(p, m.(phase := RolledBack))
    else
      var swapped := InnerRole(d).Some? && InnerRole(d).value.id == m.id;
      var staged := if swapped then d.root else if m.id in d.roleStages then Some(d.roleStages[m.id]) else None;
      if staged.None? || staged.value.layout != V3 then Stop(p, WrongLayout)
      else Publish(p, if swapped then m.(phase := Published) else m)
  }

  // ---- The data root with its history ----

  /** `accepted` is the history of the data root: everything a daemon was allowed to store. */
  datatype World = World(disk: Disk, accepted: seq<nat>)

  datatype Action =
    | Migrate(id: nat, convertible: bool, budget: nat)
    | Repair(budget: nat)
    | Serve(item: nat)

  predicate Fresh(d: Disk, id: nat) {
    id !in d.roleStages && id !in d.roleBackups
  }

  /** A daemon starts and stores an item only when CheckStartup accepts; stage and backup names are
      generated fresh. */
  function Step(w: World, a: Action): World {
    match a
    case Migrate(id, convertible, budget) =>
      if Fresh(w.disk, id) then w.(disk := Upgrade(w.disk, budget, id, convertible).disk) else w
    case Repair(budget) =>
      if w.disk.roleSidecar.Some? then w.(disk := Recover(w.disk, budget).disk) else w
    case Serve(item) =>
      if CheckStartup(w.disk).None? && w.disk.root.Some? then
        var t := w.disk.root.value;
        World(w.disk.(root := Some(t.(data := t.data + [item]))), w.accepted + [item])
      else w
  }

  function Run(w: World, actions: seq<Action>): World {
    if actions == [] then w else Step(Run(w, actions[..|actions| - 1]), actions[|actions| - 1])
  }

  // ---- The invariant ----

  predicate Intact(t: Tree, layout: Layout, data: seq<nat>) {
    t.layout == layout && t.data == data
  }

  /** No transaction has got past preparation: the version 2 root is in place and current. */
  predicate Untouched(d: Disk, data: seq<nat>) {
    d.root.Some? && Intact(d.root.value, V2, data) && d.root.value.role.None? && d.roleBackups == map[]
  }

  predicate Staged(d: Disk, id: nat, data: seq<nat>, phase: RolePhase) {
    id in d.roleStages && Intact(d.roleStages[id], V3, data) && d.roleStages[id].role == Some(RoleMarker(id, phase))
  }

  predicate SavedV2(d: Disk, id: nat, data: seq<nat>) {
    d.roleBackups.Keys == {id} && d.roleBackups[id].layout == V2 && d.roleBackups[id].data <= data
  }

  predicate Swapped(d: Disk, id: nat, data: seq<nat>, phase: RolePhase) {
    d.root.Some? && Intact(d.root.value, V3, data) && d.root.value.role == Some(RoleMarker(id, phase)) && id !in d.roleStages
  }

  /** Between the two renames. */
  predicate Between(d: Disk, id: nat, data: seq<nat>) {
    d.root.None? && SavedV2(d, id, data) && d.roleBackups[id].data == data
    && (Staged(d, id, data, Prepared) || Staged(d, id, data, BackedUp))
  }

  predicate AfterSwap(d: Disk, id: nat, data: seq<nat>) {
    SavedV2(d, id, data) && d.roleBackups[id].data == data
    && (Swapped(d, id, data, BackedUp) || Swapped(d, id, data, Published) || Swapped(d, id, data, Complete))
  }

  /** Every disk that crashes can leave, by the phase the sidecar shows. */
  predicate Inv(d: Disk, data: seq<nat>) {
    && (d.legacySidecar.Some? ==> LegacyFinal(d.legacySidecar.value.status))
    && if d.roleSidecar.None? then Untouched(d, data)
       else
         var id := d.roleSidecar.value.id;
         match d.roleSidecar.value.phase
         case RolledBack => Untouched(d, data)
         case Preparing => Untouched(d, data) && id in d.roleStages
         case Prepared => (Untouched(d, data) && Staged(d, id, data, Prepared)) || Between(d, id, data)
         case BackedUp => (Between(d, id, data) && Staged(d, id, data, BackedUp)) || AfterSwap(d, id, data)
         case Published => AfterSwap(d, id, data) && !Swapped(d, id, data, BackedUp)
         case Complete => SavedV2(d, id, data) && Swapped(d, id, data, Complete)
  }

  /** The upgrade can no longer be undone: recovery rolls forward. */
  predicate Committed(d: Disk) {
    d.roleSidecar.Some? && d.roleSidecar.value.phase != Preparing && d.roleSidecar.value.phase != RolledBack
  }

  predicate Resolved(d: Disk) {
    d.roleSidecar.Some? ==> Final(d.roleSidecar.value.phase)
  }

  // ---- Publication ----

  predicate AliveOrCrashed(p: Progress) {
    p.outcome.Going? || p.outcome.Crashed?
  }

  lemma StoppedPhase(p: Progress, m: RoleMarker)
    requires !p.outcome.Going?
    ensures WritePhase(p, m) == p
  {
  }

  lemma BackUpKeeps(p: Progress, id: nat, data: seq<nat>)
    requires p.outcome.Going? && Inv(p.disk, data) && p.disk.roleSidecar == Some(RoleMarker(id, Prepared))
    ensures var q := BackUp(p, id);
            && Inv(q.disk, data) && Committed(q.disk) && AliveOrCrashed(q)
            && (q.outcome.Going? ==> q.disk.roleSidecar == Some(RoleMarker(id, BackedUp)) && q.disk.root.None?)
            && (p.left >= 3 ==> q.outcome.Going? && q.left + 3 >= p.left)
  {
    if id !in p.disk.roleBackups {
      assert Untouched(p.disk, data);
      var q := RootToBackup(p, id);
      if q.outcome.Going? {
        BetweenKeeps(q, id, data);
      } else {
        StoppedPhase(q, RoleMarker(id, BackedUp));
      }
    } else {
      BetweenKeeps(p, id, data);
    }
    hide WritePhase;
  }

  lemma BetweenKeeps(p: Progress, id: nat, data: seq<nat>)
    requires p.outcome.Going? && Inv(p.disk, data) && p.disk.roleSidecar == Some(RoleMarker(id, Prepared)) && p.disk.root.None?
    ensures var q := WritePhase(p, RoleMarker(id, BackedUp));
            && Inv(q.disk, data) && Committed(q.disk) && AliveOrCrashed(q)
            && (q.outcome.Going? ==> q.disk.roleSidecar == Some(RoleMarker(id, BackedUp)) && q.disk.root.None?)
            && (p.left >= 2 ==> q.outcome.Going? && q.left + 2 >= p.left)
  {
  }

  lemma PublishStageKeeps(p: Progress, id: nat, data: seq<nat>)
    requires p.outcome.Going? && Inv(p.disk, data)
    requires p.disk.roleSidecar == Some(RoleMarker(id, BackedUp)) && p.disk.root.None?
    ensures var q := PublishStage(p, id);
            && Inv(q.disk, data) && Committed(q.disk) && AliveOrCrashed(q)
            && (q.outcome.Going? ==> AfterSwap(q.disk, id, data) && q.disk.roleSidecar == Some(RoleMarker(id, Published)))
            && (p.left >= 3 ==> q.outcome.Going? && q.left + 3 >= p.left)
  {
  }

  lemma FinishKeeps(p: Progress, id: nat, data: seq<nat>)
    requires p.outcome.Going? && Inv(p.disk, data) && AfterSwap(p.disk, id, data)
    requires p.disk.roleSidecar.Some? && p.disk.roleSidecar.value.id == id && Committed(p.disk)
    ensures var q := WritePhase(p, RoleMarker(id, Complete));
            && Inv(q.disk, data) && Committed(q.disk) && AliveOrCrashed(q)
            && (q.outcome.Going? ==> q.disk.roleSidecar == Some(RoleMarker(id, Complete)))
            && (p.left >= 2 ==> q.outcome.Going?)
  {
  }

  lemma StoppedStays(p: Progress, m: RoleMarker)
    requires !p.outcome.Going?
    ensures Publish(p, m) == p
  {
    hide WritePhase;
    StoppedPhase(p, RoleMarker(m.id, BackedUp));
    StoppedPhase(p, RoleMarker(m.id, Published));
    StoppedPhase(p, RoleMarker(m.id, Complete));
  }

  /** Publication from any recorded phase: a crash leaves a recoverable disk, and eight steps are
      always enough to complete. */
  lemma PublishKeeps(p: Progress, m: RoleMarker, data: seq<nat>)
    requires p.outcome.Going? && Inv(p.disk, data) && Committed(p.disk) && p.disk.roleSidecar.value.id == m.id
    requires m.phase == Prepared || m.phase == BackedUp ==> p.disk.roleSidecar.value == m
    requires m.phase == BackedUp ==> p.disk.root.None?
    requires m.phase == Published ==> AfterSwap(p.disk, m.id, data)
    requires m.phase == Prepared || m.phase == BackedUp || m.phase == Published
    ensures var q := Publish(p, m);
            && Inv(q.disk, data) && Committed(q.disk) && AliveOrCrashed(q)
            && (q.outcome.Going? ==> q.disk.roleSidecar == Some(RoleMarker(m.id, Complete)))
            && (p.left >= 8 ==> q.outcome.Going?)
  {
    hide BackUp;
    hide PublishStage;
    hide WritePhase;
    hide Inv;
    var q := if m.phase == Prepared then BackUp(p, m.id) else p;
    if m.phase == Prepared {
      BackUpKeeps(p, m.id, data);
    }
    var r := if m.phase == Prepared || m.phase == BackedUp then PublishStage(q, m.id) else q;
    if !q.outcome.Going? {
      StoppedStage(q, m.id);
    } else if m.phase == Prepared || m.phase == BackedUp {
      PublishStageKeeps(q, m.id, data);
    }
    if r.outcome.Going? {
      FinishKeeps(r, m.id, data);
    } else {
      StoppedPhase(r, RoleMarker(m.id, Complete));
    }
  }

  lemma StoppedStage(p: Progress, id: nat)
    requires !p.outcome.Going?
    ensures PublishStage(p, id) == p
  {
    hide WritePhase;
    StoppedPhase(p, RoleMarker(id, Published));
  }

  // ---- Preparation ----

  lemma ConvertKeeps(p: Progress, id: nat, convertible: bool, data: seq<nat>)
    requires Inv(p.disk, data) && id !in p.disk.roleBackups
    requires if p.outcome.Going? then p.disk.roleSidecar == Some(RoleMarker(id, Preparing)) else !Committed(p.disk)
    ensures var q := Convert(p, id, convertible);
            && Inv(q.disk, data)
            && (q.outcome.Going? ==> q.disk.roleSidecar == Some(RoleMarker(id, Prepared)) && q.left + 3 == p.left)
            && (Committed(q.disk) <==> q.outcome.Going?)
            && (q.outcome.Going? <==> p.outcome.Going? && convertible && p.left >= 3)
  {
  }

  lemma PrepareKeeps(p: Progress, id: nat, convertible: bool, data: seq<nat>)
    requires p.outcome.Going? && Inv(p.disk, data) && Resolved(p.disk) && Fresh(p.disk, id)
    requires p.disk.root.Some? && p.disk.root.value.layout == V2
    ensures var q := Prepare(p, id, convertible);
            && Inv(q.disk, data)
            && (q.outcome.Going? ==> q.disk.roleSidecar == Some(RoleMarker(id, Prepared)) && q.left + 5 == p.left)
            && (Committed(q.disk) <==> q.outcome.Going?)
            && (q.outcome.Going? <==> convertible && p.left >= 5)
  {
    var q := WriteSidecar(InStage(p, id, Tree(Draft, [], None, None)), RoleMarker(id, Preparing));
    assert Inv(q.disk, data) && !Committed(q.disk);
    assert q.outcome.Going? ==> q.disk.roleSidecar == Some(RoleMarker(id, Preparing));
    hide Inv;
    ConvertKeeps(q, id, convertible, data);
    hide Convert;
    hide Committed;
  }

  lemma UpgradeKeeps(d: Disk, budget: nat, id: nat, convertible: bool, data: seq<nat>)
    requires Inv(d, data) && Fresh(d, id)
    ensures Inv(Upgrade(d, budget, id, convertible).disk, data)
    ensures Committed(d) ==> Committed(Upgrade(d, budget, id, convertible).disk)
  {
    hide Prepare;
    StartupAccepts(d);
    var p := Progress(d, budget, Going);
    if CheckStartup(d).None? && d.root.Some? && d.root.value.layout == V2 {
      PrepareKeeps(p, id, convertible, data);
      var q := Prepare(p, id, convertible);
      if q.outcome.Going? {
        PublishKeeps(q, RoleMarker(id, Prepared), data);
      } else {
        StoppedStays(q, RoleMarker(id, Prepared));
      }
    }
  }

  // ---- Recovery ----

  /** Past preparation recovery publishes: from the marker found in the root if that is the
      transaction's, otherwise from the sidecar. */
  lemma RecoverPublishes(d: Disk, budget: nat, data: seq<nat>)
    requires Inv(d, data) && d.roleSidecar.Some? && !Final(d.roleSidecar.value.phase) && d.roleSidecar.value.phase != Preparing
    ensures var m := d.roleSidecar.value;
            var from := if d.root.Some? && d.root.value.layout == V3 then m.(phase := Published) else m;
            && Recover(d, budget) == Publish(Progress(d, budget, Going), from)
            && (from.phase == Prepared || from.phase == BackedUp || from.phase == Published)
            && (from.phase == BackedUp ==> d.root.None?) && (from.phase == Published ==> AfterSwap(d, m.id, data))
  {
    hide Publish;
  }

  /** Recovery of any disk a crash can leave: it keeps the invariant whatever happens, never changes
      a committed transaction's outcome, and eight steps always finish it. */
  lemma RecoverKeeps(d: Disk, budget: nat, data: seq<nat>)
    requires Inv(d, data) && d.roleSidecar.Some?
    ensures var q := Recover(d, budget);
            && Inv(q.disk, data) && AliveOrCrashed(q) && (Committed(q.disk) <==> Committed(d))
            && (q.outcome.Going? ==> Resolved(q.disk))
            && (budget >= 8 ==> q.outcome.Going?)
  {
    hide Publish;
    var m := d.roleSidecar.value;
    if Final(m.phase) {
      StartupAccepts(d);
      hide CheckStartup;
    } else if m.phase != Preparing {
      RecoverPublishes(d, budget, data);
      hide Inv;
      hide Recover;
      hide AfterSwap;
      PublishKeeps(Progress(d, budget, Going), if d.root.Some? && d.root.value.layout == V3 then m.(phase := Published) else m, data);
    }
  }

  // ---- Runs ----

  lemma StepKeeps(w: World, a: Action)
    requires Inv(w.disk, w.accepted)
    ensures Inv(Step(w, a).disk, Step(w, a).accepted)
    ensures Committed(w.disk) ==> Committed(Step(w, a).disk)
  {
    match a
    case Migrate(id, convertible, budget) =>
      if Fresh(w.disk, id) {
        UpgradeKeeps(w.disk, budget, id, convertible, w.accepted);
      }
    case Repair(budget) =>
      if w.disk.roleSidecar.Some? {
        RecoverKeeps(w.disk, budget, w.accepted);
      }
    case Serve(item) =>
      StartupAccepts(w.disk);
  }

  /** A data root before its first upgrade: a version 2 root without markers. */
  predicate Original(d: Disk) {
    d.roleSidecar.None? && d.root.Some? && d.root.value.layout == V2 && d.root.value.role.None?
    && d.roleBackups == map[] && (d.legacySidecar.Some? ==> LegacyFinal(d.legacySidecar.value.status))
  }

  function Begin(d: Disk): World
    requires Original(d)
  {
    World(d, d.root.value.data)
  }

  lemma {:induction false} RunKeeps(d: Disk, actions: seq<Action>)
    requires Original(d)
    ensures Inv(Run(Begin(d), actions).disk, Run(Begin(d), actions).accepted)
  {
    if actions != [] {
      RunKeeps(d, actions[..|actions| - 1]);
      StepKeeps(Run(Begin(d), actions[..|actions| - 1]), actions[|actions| - 1]);
    }
  }
}
