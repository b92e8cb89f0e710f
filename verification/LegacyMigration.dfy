/** The publication of a migrated legacy root and its recovery (internal/migration/migration.go,
    internal/migration/recovery.go). It rolls back unless the new root's own marker says complete. */
module LegacyMigration {
  import opened Wrappers
  import opened MigrationDisk
  import R = RoleUpgrade

  /** What one migration is given. `data` is what the legacy root holds; the booleans say whether
      the rename of the stage fails and whether undoing the first rename then fails too. */
  datatype Request = Request(id: nat, bot: string, inPlace: bool, data: seq<nat>, renameFails: bool, undoFails: bool)

  function Prepared(q: Request, existed: bool): LegacyMarker {
    LegacyMarker(q.bot, LegacyPrepared, if existed then Some(q.id) else None)
  }

  function Sidecar(p: Progress, m: LegacyMarker): Progress {
    Durable(p, p.disk.(legacySidecar := Some(m)))
  }

  function Stage(p: Progress, id: nat, t: Tree): Progress {
    Durable(p, p.disk.(legacyStages := p.disk.legacyStages[id := t]))
  }

  /** Everything before the first rename. */
  function Prepare(p: Progress, q: Request): Progress {
    var m := Prepared(q, p.disk.root.Some?);
    var draft := Tree(Draft, [], None, Some(m.(status := LegacyPreparing, backup := None)));
    var built := draft.(layout := V3, data := q.data);
    Stage(Sidecar(Stage(Stage(p, q.id, draft), q.id, built), m), q.id, built.(legacy := Some(m)))
  }

  function MoveAside(p: Progress, id: nat): Progress {
    var d := p.disk;
    if d.root.None? then p
    else Durable(p, d.(root := None, legacyBackups := d.legacyBackups[id := d.root.value]))
  }

  function MoveBack(p: Progress, id: nat): Progress {
    var d := p.disk;
    if id !in d.legacyBackups then p
    else Durable(p, d.(root := Some(d.legacyBackups[id]), legacyBackups := d.legacyBackups - {id}))
  }

  /** The stage becomes the target; when that fails the original is moved back if possible. */
  function Install(p: Progress, q: Request): Progress {
    var d := p.disk;
    if q.renameFails || q.id !in d.legacyStages then
      Stop(if q.undoFails then p else MoveBack(p, q.id), RenameFailed)
    else Durable(p, d.(root := Some(d.legacyStages[q.id]), legacyStages := d.legacyStages - {q.id}))
  }

  function Finish(p: Progress, m: LegacyMarker): Progress {
    if p.disk.root.None? then Stop(p, RootUnavailable)
    else Sidecar(Durable(p, p.disk.(root := Some(p.disk.root.value.(legacy := Some(m))))), m)
  }

  function Migrate(d: Disk, budget: nat, q: Request): Progress {
    var p := Progress(d, budget, Going);
    if CheckStartup(d).Some? then Stop(p, CheckStartup(d).value)
    else if q.inPlace && d.root.None? then Stop(p, RootUnavailable)
    else if !q.inPlace && d.root.Some? && d.root.value.layout != Empty then Stop(p, UnexpectedRoot)
    else
      Finish(Install(MoveAside(Prepare(p, q), q.id), q), Prepared(q, d.root.Some?).(status := LegacyComplete))
  }

  function SetUncommittedAside(p: Progress): Progress {
    var d := p.disk;
    if d.root.None? then p else Durable(p, d.(root := None, uncommitted := d.uncommitted + [d.root.value]))
  }

  /** Recovery of an interrupted publication: complete if the root's marker says so, otherwise the
      original is put back. A root with a role marker is left to the recovery of the role upgrade. */
  function Recover(d: Disk, budget: nat): Progress {
    if d.roleSidecar.Some? then R.Recover(d, budget)
    else
      var p := Progress(d, budget, Going);
      if d.legacySidecar.None? || LegacyFinal(d.legacySidecar.value.status) then p
      else
        var m := d.legacySidecar.value;
        var undone := m.(status := LegacyRolledBack);
        var inner := InnerLegacy(d);
        if m.status != LegacyPrepared then Stop(p, Incomplete)
        else if inner.Some? && inner.value.status == LegacyComplete && inner.value.bot == m.bot then Sidecar(p, inner.value)
        else if m.backup.Some? && m.backup.value !in d.legacyBackups then
          if d.root.None? then Stop(p, RootUnavailable)
          else if inner.Some? then Stop(p, BackupMissing)
          else Sidecar(p, undone)
        else RollBack(p, undone)
  }

  /** The uncommitted root is set aside and the original, if there was one, is put back. */
  function RollBack(p: Progress, undone: LegacyMarker): Progress {
    var q := SetUncommittedAside(p);
    Sidecar(if undone.backup.Some? then MoveBack(q, undone.backup.value) else q, undone)
  }

  /** Recovery attempts that are themselves cut off. */
  function Repaired(d: Disk, budgets: seq<nat>): Disk {
    if budgets == [] then d else Recover(Repaired(d, budgets[..|budgets| - 1]), budgets[|budgets| - 1]).disk
  }

  // ---- One transaction ----

  /** A target that a migration may start from. */
  predicate Admissible(d: Disk, q: Request) {
    && CheckStartup(d).None? && (q.inPlace ==> d.root.Some?)
    && (!q.inPlace && d.root.Some? ==> d.root.value.layout == Empty)
    && q.id !in d.legacyStages && q.id !in d.legacyBackups
  }

  function NewRoot(q: Request, m: LegacyMarker): Tree {
    Tree(V3, q.data, None, Some(m))
  }

  /** The original is whole: at the target, or in the backup that the marker names. */
  predicate Kept(d: Disk, q: Request, original: Option<Tree>) {
    original.Some? && q.id in d.legacyBackups && d.legacyBackups[q.id] == original.value
  }

  predicate AtTarget(d: Disk, q: Request, original: Option<Tree>) {
    d.root == original && q.id !in d.legacyBackups
  }

  predicate MovedAside(d: Disk, q: Request, original: Option<Tree>) {
    d.root.None? && Kept(d, q, original)
  }

  predicate Installed(d: Disk, q: Request, original: Option<Tree>, m: LegacyMarker) {
    d.root == Some(NewRoot(q, m)) && (if original.Some? then Kept(d, q, original) else q.id !in d.legacyBackups)
  }

  /** Every disk a crash of the migration or of its recovery can leave. */
  predicate Inv(d: Disk, q: Request, original: Option<Tree>) {
    var m := Prepared(q, original.Some?);
    && d.roleSidecar.None?
    && if d.legacySidecar == Some(m) then
         || AtTarget(d, q, original) || MovedAside(d, q, original)
         || Installed(d, q, original, m) || Installed(d, q, original, m.(status := LegacyComplete))
       else
         && (d.legacySidecar.Some? ==> LegacyFinal(d.legacySidecar.value.status))
         && (AtTarget(d, q, original)
             || (Installed(d, q, original, m.(status := LegacyComplete)) && d.legacySidecar == Some(m.(status := LegacyComplete))))
  }

  /** The commit point has been passed: the new root's own marker is complete. */
  predicate Committed(d: Disk, q: Request, original: Option<Tree>) {
    Installed(d, q, original, Prepared(q, original.Some?).(status := LegacyComplete))
  }

  /** A target that carries no migration.json, or the complete one of the same Bot. */
  predicate Recoverable(original: Option<Tree>, bot: string) {
    original.Some? && original.value.legacy.Some? ==>
      original.value.legacy.value.status == LegacyComplete && original.value.legacy.value.bot == bot
  }

  predicate Unmarked(original: Option<Tree>) {
    original.Some? ==> original.value.legacy.None?
  }

  predicate AliveOrCrashed(p: Progress) {
    p.outcome.Going? || p.outcome.Crashed?
  }

  lemma PrepareKeeps(p: Progress, q: Request, original: Option<Tree>)
    requires p.outcome.Going? && Inv(p.disk, q, original) && p.disk.root == original && CheckStartup(p.disk).None?
    requires q.id !in p.disk.legacyBackups
    ensures var r := Prepare(p, q);
            && Inv(r.disk, q, original) && AtTarget(r.disk, q, original) && AliveOrCrashed(r)
            && (r.outcome.Going? ==> r.disk.legacySidecar == Some(Prepared(q, original.Some?)) && q.id in r.disk.legacyStages
                                     && r.disk.legacyStages[q.id] == NewRoot(q, Prepared(q, original.Some?)))
            && (p.left >= 4 ==> r.outcome.Going? && r.left + 4 == p.left)
  {
  }

  lemma InstallKeeps(p: Progress, q: Request, original: Option<Tree>)
    requires p.outcome.Going? && Inv(p.disk, q, original) && AtTarget(p.disk, q, original)
    requires var m := Prepared(q, original.Some?);
             p.disk.legacySidecar == Some(m) && q.id in p.disk.legacyStages && p.disk.legacyStages[q.id] == NewRoot(q, m)
    ensures var r := Install(MoveAside(p, q.id), q);
            && Inv(r.disk, q, original) && r.disk.legacySidecar == p.disk.legacySidecar
            && (r.outcome.Going? ==> Installed(r.disk, q, original, Prepared(q, original.Some?)))
            && (!r.outcome.Going? ==> AtTarget(r.disk, q, original) || MovedAside(r.disk, q, original))
            && (p.left >= 2 && !q.renameFails ==> r.outcome.Going? && r.left + 2 >= p.left)
  {
  }

  lemma FinishKeeps(p: Progress, q: Request, original: Option<Tree>)
    requires p.outcome.Going? && Inv(p.disk, q, original)
    requires var m := Prepared(q, original.Some?);
             p.disk.legacySidecar == Some(m) && Installed(p.disk, q, original, m)
    ensures var m := Prepared(q, original.Some?);
            var r := Finish(p, m.(status := LegacyComplete));
            && Inv(r.disk, q, original) && AliveOrCrashed(r)
            && (r.outcome.Going? ==> r.disk.legacySidecar == Some(m.(status := LegacyComplete)) && Committed(r.disk, q, original))
            && (p.left >= 2 ==> r.outcome.Going?)
  {
  }

  lemma StoppedStays(p: Progress, q: Request, m: LegacyMarker)
    requires !p.outcome.Going?
    ensures MoveAside(p, q.id) == p && Install(p, q) == p && Finish(p, m) == p
  {
  }

  /** The migration, crashed anywhere, leaves a disk that recovery can handle; eight steps without
      a failed rename complete it. */
  lemma MigrateKeeps(d: Disk, budget: nat, q: Request)
    requires Admissible(d, q) && d.roleSidecar.None?
    ensures var r := Migrate(d, budget, q);
            && Inv(r.disk, q, d.root)
            && (r.outcome.Going? ==> Committed(r.disk, q, d.root)
                                     && r.disk.legacySidecar == Some(Prepared(q, d.root.Some?).(status := LegacyComplete)))
            && (budget >= 8 && !q.renameFails ==> r.outcome.Going?)
  {
    StartupAccepts(d);
    var p := Progress(d, budget, Going);
    var m := Prepared(q, d.root.Some?).(status := LegacyComplete);
    PrepareKeeps(p, q, d.root);
    var r := Prepare(p, q);
    hide Prepare;
    if r.outcome.Going? {
      InstallKeeps(r, q, d.root);
      var s := Install(MoveAside(r, q.id), q);
      hide Install;
      hide MoveAside;
      if s.outcome.Going? {
        FinishKeeps(s, q, d.root);
      } else {
        StoppedStays(s, q, m);
      }
    } else {
      StoppedStays(r, q, m);
    }
  }

  // ---- Recovery ----

  /** What recovery is for: a startable disk with the whole original or the whole new layout. */
  predicate Restored(d: Disk, q: Request, original: Option<Tree>) {
    CheckStartup(d).None? && (AtTarget(d, q, original) || Committed(d, q, original))
  }

  predicate Pending(d: Disk) {
    d.legacySidecar.Some? && !LegacyFinal(d.legacySidecar.value.status)
  }

  /** No role upgrade was completed in this tree. */
  predicate NoUpgrade(original: Option<Tree>) {
    original.Some? && original.value.role.Some? ==> original.value.role.value.phase == RolledBack
  }

  lemma SettledRestores(d: Disk, q: Request, original: Option<Tree>)
    requires Inv(d, q, original) && !Pending(d) && NoUpgrade(original)
    ensures Restored(d, q, original)
  {
    StartupAccepts(d);
  }

  lemma RollBackKeeps(p: Progress, q: Request, original: Option<Tree>)
    requires p.outcome.Going? && Inv(p.disk, q, original) && !Committed(p.disk, q, original)
    requires p.disk.legacySidecar == Some(Prepared(q, original.Some?))
    requires original.Some? ==> q.id in p.disk.legacyBackups
    ensures var r := RollBack(p, Prepared(q, original.Some?).(status := LegacyRolledBack));
            && Inv(r.disk, q, original) && AliveOrCrashed(r) && (r.outcome.Going? ==> !Pending(r.disk))
            && (p.left >= 3 ==> r.outcome.Going?)
            && (Unmarked(original) ==> !Committed(r.disk, q, original))
  {
    var undone := Prepared(q, original.Some?).(status := LegacyRolledBack);
    var aside := SetUncommittedAside(p);
    assert aside.outcome.Going? ==> if original.Some? then MovedAside(aside.disk, q, original) else AtTarget(aside.disk, q, original);
    if aside.outcome.Going? {
      PutBackKeeps(aside, q, original);
    } else {
      assert RollBack(p, undone) == aside;
    }
    hide SetUncommittedAside;
  }

  lemma PutBackKeeps(p: Progress, q: Request, original: Option<Tree>)
    requires p.outcome.Going? && p.disk.roleSidecar.None? && p.disk.legacySidecar == Some(Prepared(q, original.Some?))
    requires if original.Some? then MovedAside(p.disk, q, original) else AtTarget(p.disk, q, original)
    ensures var back := if original.Some? then MoveBack(p, q.id) else p;
            var r := Sidecar(back, Prepared(q, original.Some?).(status := LegacyRolledBack));
            && Inv(r.disk, q, original) && AliveOrCrashed(r) && (r.outcome.Going? ==> !Pending(r.disk))
            && (p.left >= 2 ==> r.outcome.Going?)
            && (Unmarked(original) ==> !Committed(r.disk, q, original))
  {
  }

  /** Recovery keeps the invariant wherever it is cut off, never changes whether the migration is
      committed, and three steps always finish it. */
  lemma RecoverKeeps(d: Disk, budget: nat, q: Request, original: Option<Tree>)
    requires Inv(d, q, original) && Recoverable(original, q.bot)
    ensures var r := Recover(d, budget);
            && Inv(r.disk, q, original) && AliveOrCrashed(r) && (r.outcome.Going? ==> !Pending(r.disk))
            && (budget >= 3 ==> r.outcome.Going?)
            && (Unmarked(original) ==> (Committed(r.disk, q, original) <==> Committed(d, q, original)))
  {
    var m := Prepared(q, original.Some?);
    var inner := InnerLegacy(d);
    if d.legacySidecar == Some(m) {
      if inner.Some? && inner.value.status == LegacyComplete && inner.value.bot == m.bot {
        hide RollBack;
      } else if m.backup.Some? && m.backup.value !in d.legacyBackups {
        hide RollBack;
      } else {
        RollBackKeeps(Progress(d, budget, Going), q, original);
        hide RollBack;
        hide Inv;
      }
    }
  }

  lemma {:induction false} RepairedKeeps(d: Disk, budgets: seq<nat>, q: Request, original: Option<Tree>)
    requires Inv(d, q, original) && Recoverable(original, q.bot)
    ensures var r := Repaired(d, budgets);
            && Inv(r, q, original)
            && (Unmarked(original) ==> (Committed(r, q, original) <==> Committed(d, q, original)))
  {
    if budgets != [] {
      RepairedKeeps(d, budgets[..|budgets| - 1], q, original);
      RecoverKeeps(Repaired(d, budgets[..|budgets| - 1]), budgets[|budgets| - 1], q, original);
      hide Recover;
    }
  }

  // ---- The new layout ----

  function NewLayout(q: Request, original: Option<Tree>): Tree {
    NewRoot(q, Prepared(q, original.Some?))
  }

  /** The layouts set aside, together with an uncommitted one at the root. */
  function Uncommitted(d: Disk, t: Tree): seq<Tree> {
    d.uncommitted + if d.root == Some(t) then [t] else []
  }

  lemma MigrateSetsNothingAside(d: Disk, budget: nat, q: Request)
    ensures Migrate(d, budget, q).disk.uncommitted == d.uncommitted
  {
    hide Prepare;
    hide Install;
    hide MoveAside;
    hide Finish;
    hide CheckStartup;
    var p := Progress(d, budget, Going);
    PrepareSetsNothingAside(p, q);
    InstallSetsNothingAside(Prepare(p, q), q);
    FinishSetsNothingAside(Install(MoveAside(Prepare(p, q), q.id), q), Prepared(q, d.root.Some?).(status := LegacyComplete));
  }

  lemma PrepareSetsNothingAside(p: Progress, q: Request)
    ensures Prepare(p, q).disk.uncommitted == p.disk.uncommitted
  {
  }

  lemma FinishSetsNothingAside(p: Progress, m: LegacyMarker)
    ensures Finish(p, m).disk.uncommitted == p.disk.uncommitted
  {
  }

  lemma InstallSetsNothingAside(p: Progress, q: Request)
    ensures Install(MoveAside(p, q.id), q).disk.uncommitted == p.disk.uncommitted
  {
  }

  /** Recovery moves an uncommitted layout aside and never loses one. */
  lemma RecoverKeepsLayout(d: Disk, budget: nat, q: Request, original: Option<Tree>)
    requires Inv(d, q, original) && Recoverable(original, q.bot)
    ensures var r := Recover(d, budget).disk;
            && Uncommitted(r, NewLayout(q, original)) == Uncommitted(d, NewLayout(q, original))
            && r.legacyStages == d.legacyStages
  {
    var m := Prepared(q, original.Some?);
    var inner := InnerLegacy(d);
    if d.legacySidecar == Some(m) {
      if !(inner.Some? && inner.value.status == LegacyComplete && inner.value.bot == m.bot)
         && !(m.backup.Some? && m.backup.value !in d.legacyBackups) {
        RollBackKeepsLayout(Progress(d, budget, Going), q, original);
      }
    }
    hide RollBack;
  }

  lemma RollBackKeepsLayout(p: Progress, q: Request, original: Option<Tree>)
    requires p.outcome.Going? && Inv(p.disk, q, original) && Recoverable(original, q.bot) && !Committed(p.disk, q, original)
    requires p.disk.legacySidecar == Some(Prepared(q, original.Some?))
    requires original.Some? ==> q.id in p.disk.legacyBackups
    ensures var r := RollBack(p, Prepared(q, original.Some?).(status := LegacyRolledBack)).disk;
            && Uncommitted(r, NewLayout(q, original)) == Uncommitted(p.disk, NewLayout(q, original))
            && r.legacyStages == p.disk.legacyStages
  {
  }

  lemma {:induction false} RepairedKeepsLayout(d: Disk, budgets: seq<nat>, q: Request, original: Option<Tree>)
    requires Inv(d, q, original) && Recoverable(original, q.bot)
    ensures var r := Repaired(d, budgets);
            && Uncommitted(r, NewLayout(q, original)) == Uncommitted(d, NewLayout(q, original))
            && r.legacyStages == d.legacyStages
  {
    if budgets != [] {
      var front := budgets[..|budgets| - 1];
      RepairedKeeps(d, front, q, original);
      RepairedKeepsLayout(d, front, q, original);
      RecoverKeepsLayout(Repaired(d, front), budgets[|budgets| - 1], q, original);
      hide Recover;
      hide Inv;
    }
  }

  /** The migration and its recovery crash anywhere and any number of times; a last recovery of
      three steps ends with the whole new layout, both markers complete, exactly if the new root's
      own complete marker had been written. Otherwise the original is at the target, and the new
      layout is kept where it is: its stage stays, and an installed one is set aside once. */
  lemma CommitsAtInnerMarker(d: Disk, budget: nat, q: Request, repairs: seq<nat>, last: nat)
    requires Admissible(d, q) && d.roleSidecar.None? && Unmarked(d.root) && last >= 3
    ensures var crashed, t := Migrate(d, budget, q).disk, NewLayout(q, d.root);
            var r := Recover(Repaired(crashed, repairs), last);
            && r.outcome.Going? && CheckStartup(r.disk).None? && r.disk.legacyStages == crashed.legacyStages
            && (if Committed(crashed, q, d.root) then
                  && r.disk.legacySidecar == InnerLegacy(r.disk) && Committed(r.disk, q, d.root)
                  && r.disk.uncommitted == d.uncommitted
                else
                  && r.disk.root == d.root && r.disk.legacySidecar != Some(Prepared(q, d.root.Some?))
                  && r.disk.uncommitted == d.uncommitted + if crashed.root == Some(t) then [t] else [])
  {
    StartupAccepts(d);
    MigrateKeeps(d, budget, q);
    MigrateSetsNothingAside(d, budget, q);
    var crashed := Migrate(d, budget, q).disk;
    hide Migrate;
    RepairedKeeps(crashed, repairs, q, d.root);
    RepairedKeepsLayout(crashed, repairs, q, d.root);
    var again := Repaired(crashed, repairs);
    hide Repaired;
    RecoverKeeps(again, last, q, d.root);
    RecoverKeepsLayout(again, last, q, d.root);
    hide Recover;
    hide CheckStartup;
    hide Inv;
    hide Admissible;
    FinalLayout(crashed, Recover(again, last).disk, q, d.root);
  }

  lemma FinalLayout(crashed: Disk, d: Disk, q: Request, original: Option<Tree>)
    requires Inv(crashed, q, original) && Inv(d, q, original) && !Pending(d) && Unmarked(original) && NoUpgrade(original)
    requires Committed(d, q, original) <==> Committed(crashed, q, original)
    requires Uncommitted(d, NewLayout(q, original)) == Uncommitted(crashed, NewLayout(q, original))
    ensures CheckStartup(d).None?
    ensures if Committed(crashed, q, original) then d.legacySidecar == InnerLegacy(d) && d.uncommitted == crashed.uncommitted
            else && d.root == original && d.legacySidecar != Some(Prepared(q, original.Some?))
                 && d.uncommitted == Uncommitted(crashed, NewLayout(q, original))
  {
    SettledRestores(d, q, original);
    hide CheckStartup;
    var t := NewLayout(q, original);
    assert original != Some(t);
    assert d.root != Some(t) && (Committed(crashed, q, original) ==> crashed.root != Some(t));
    assert Uncommitted(d, t) == d.uncommitted;
    assert Committed(crashed, q, original) ==> Uncommitted(crashed, t) == crashed.uncommitted;
  }

  /** At every moment the original is whole, at the target or in the backup that the marker names,
      or the target did not exist. */
  lemma OriginalNeverLost(d: Disk, budget: nat, q: Request, repairs: seq<nat>)
    requires Admissible(d, q) && d.roleSidecar.None? && Recoverable(d.root, q.bot)
    ensures var r := Repaired(Migrate(d, budget, q).disk, repairs);
            r.root == d.root || d.root.None? || Kept(r, q, d.root)
  {
    MigrateKeeps(d, budget, q);
    hide Migrate;
    RepairedKeeps(Migrate(d, budget, q).disk, repairs, q, d.root);
  }

  // ---- Exactly when recovery works ----

  /** Recovery does its job after every crash of the migration and of earlier recoveries. */
  ghost predicate AlwaysRecovers(d: Disk, q: Request) {
    forall budget: nat, repairs: seq<nat>, last: nat :: last >= 3 ==> RecoversFrom(d, q, budget, repairs, last)
  }

  predicate RecoversFrom(d: Disk, q: Request, budget: nat, repairs: seq<nat>, last: nat) {
    var r := Recover(Repaired(Migrate(d, budget, q).disk, repairs), last);
    r.outcome.Going? && Restored(r.disk, q, d.root)
  }

  lemma RecoversWhenUnmarked(d: Disk, q: Request, budget: nat, repairs: seq<nat>, last: nat)
    requires Admissible(d, q) && d.roleSidecar.None? && Recoverable(d.root, q.bot) && last >= 3
    ensures RecoversFrom(d, q, budget, repairs, last)
  {
    StartupAccepts(d);
    MigrateKeeps(d, budget, q);
    var crashed := Migrate(d, budget, q).disk;
    hide Migrate;
    RepairedKeeps(crashed, repairs, q, d.root);
    var again := Repaired(crashed, repairs);
    hide Repaired;
    RecoverKeeps(again, last, q, d.root);
    SettledRestores(Recover(again, last).disk, q, d.root);
    hide Recover;
  }

  /** A crash right after the sidecar was written leaves the target untouched and, when it carries
      a role sidecar or a foreign or unfinished migration.json, beyond recovery. */
  lemma StuckWhenMarked(d: Disk, q: Request)
    requires Admissible(d, q) && (d.roleSidecar.Some? || !Recoverable(d.root, q.bot))
    ensures !Recover(Migrate(d, 3, q).disk, 3).outcome.Going?
  {
    StartupAccepts(d);
    var p := Progress(d, 3, Going);
    var r := Prepare(p, q);
    assert r.outcome.Crashed? && r.disk.legacySidecar == Some(Prepared(q, d.root.Some?)) && r.disk.root == d.root
           && r.disk.roleSidecar == d.roleSidecar && r.disk.legacyBackups == d.legacyBackups;
    StoppedStays(r, q, Prepared(q, d.root.Some?).(status := LegacyComplete));
    StartupAccepts(r.disk);
  }

  /** Recovery always works exactly when the target has no role marker beside it and no
      migration.json inside other than the same Bot's complete one. */
  lemma RecoveryCondition(d: Disk, q: Request)
    requires Admissible(d, q)
    ensures AlwaysRecovers(d, q) <==> d.roleSidecar.None? && Recoverable(d.root, q.bot)
  {
    if d.roleSidecar.None? && Recoverable(d.root, q.bot) {
      forall budget: nat, repairs: seq<nat>, last: nat | last >= 3 ensures RecoversFrom(d, q, budget, repairs, last) {
        RecoversWhenUnmarked(d, q, budget, repairs, last);
      }
    } else {
      StuckWhenMarked(d, q);
      assert Repaired(Migrate(d, 3, q).disk, []) == Migrate(d, 3, q).disk;
      assert !RecoversFrom(d, q, 3, [], 3);
    }
  }
}
