/** Both migrations and their recoveries as the program that performs them on a disk, one durable
    step after another. */
module MigrationTool {
  import opened Wrappers
  import opened MigrationDisk
  import L = LegacyMigration
  import R = RoleUpgrade

  class Migrator {
    var disk: Disk
    var left: nat

    ghost function Now(o: Outcome): Progress
      reads this
    {
      Progress(disk, left, o)
    }

    constructor (disk: Disk, left: nat)
      ensures Now(Going) == Progress(disk, left, Going)
    {
      this.disk, this.left := disk, left;
    }

    /** One rename or atomic write; the power may fail just before it. */
    method Commit(next: Disk) returns (o: Outcome)
      modifies this
      ensures Now(o) == Durable(old(Now(Going)), next)
    {
      if left == 0 {
        return Crashed;
      }
      disk, left := next, left - 1;
      o := Going;
    }

    method WriteRolePhase(m: RoleMarker) returns (o: Outcome)
      modifies this
      ensures Now(o) == R.WritePhase(old(Now(Going)), m)
    {
      if R.MarksRoot(m.phase) {
        if disk.root.None? {
          return Failed(RootUnavailable);
        }
        o := Commit(disk.(root := Some(disk.root.value.(role := Some(m)))));
      } else {
        if m.id !in disk.roleStages {
          return Failed(RootUnavailable);
        }
        o := Commit(disk.(roleStages := disk.roleStages[m.id := disk.roleStages[m.id].(role := Some(m))]));
      }
      if o.Going? {
        o := Commit(disk.(roleSidecar := Some(m)));
      }
    }

    /** The root becomes the backup, unless a crash came after that rename. */
    method BackUpRoot(id: nat) returns (o: Outcome)
      modifies this
      ensures Now(o) == R.BackUp(old(Now(Going)), id)
    {
      hide R.WritePhase;
      if id !in disk.roleBackups {
        if disk.root.None? {
          R.StoppedPhase(Now(Failed(RootUnavailable)), RoleMarker(id, BackedUp));
          return Failed(RootUnavailable);
        }
        o := Commit(disk.(root := None, roleBackups := disk.roleBackups[id := disk.root.value]));
        if !o.Going? {
          R.StoppedPhase(Now(o), RoleMarker(id, BackedUp));
          return;
        }
      }
      o := WriteRolePhase(RoleMarker(id, BackedUp));
    }

    /** The stage becomes the root. */
    method InstallStage(id: nat) returns (o: Outcome)
      modifies this
      ensures Now(o) == R.PublishStage(old(Now(Going)), id)
    {
      hide R.WritePhase;
      if disk.root.Some? || id !in disk.roleStages {
        o := Failed(if disk.root.Some? then UnexpectedRoot else RootUnavailable);
        R.StoppedPhase(Now(o), RoleMarker(id, Published));
        return;
      }
      o := Commit(disk.(root := Some(disk.roleStages[id]), roleStages := disk.roleStages - {id}));
      if !o.Going? {
        R.StoppedPhase(Now(o), RoleMarker(id, Published));
        return;
      }
      o := WriteRolePhase(RoleMarker(id, Published));
    }

    method PublishRoles(marker: RoleMarker) returns (o: Outcome)
      modifies this
      ensures Now(o) == R.Publish(old(Now(Going)), marker)
    {
      hide R.BackUp;
      hide R.PublishStage;
      hide R.WritePhase;
      var m := marker;
      if m.phase == Prepared {
        o := BackUpRoot(m.id);
        if !o.Going? {
          StoppedLater(Now(o), m.id);
          return;
        }
        m := m.(phase := BackedUp);
      }
      if m.phase == BackedUp {
        o := InstallStage(m.id);
        if !o.Going? {
          R.StoppedPhase(Now(o), RoleMarker(m.id, Complete));
          return;
        }
      }
      o := WriteRolePhase(m.(phase := Complete));
    }

    /** A failure ends the publication. */
    lemma StoppedLater(p: Progress, id: nat)
      requires !p.outcome.Going?
      ensures R.WritePhase(R.PublishStage(p, id), RoleMarker(id, Complete)) == p
    {
      R.StoppedStage(p, id);
      R.StoppedPhase(p, RoleMarker(id, Complete));
    }

    /** The stage, its markers and the conversion, up to the durable prepared phase. */
    method PrepareRoles(id: nat, convertible: bool) returns (o: Outcome)
      requires disk.root.Some?
      modifies this
      ensures Now(o) == R.Prepare(old(Now(Going)), id, convertible)
    {
      hide R.WritePhase;
      o := Commit(disk.(roleStages := disk.roleStages[id := Tree(Draft, [], None, None)]));
      if o.Going? {
        o := Commit(disk.(roleSidecar := Some(RoleMarker(id, Preparing))));
      }
      if o.Going? && !convertible {
        return Failed(ConversionFailed);
      }
      if o.Going? {
        o := Commit(disk.(roleStages := disk.roleStages[id := Tree(V3, disk.root.value.data, None, disk.root.value.legacy)]));
      }
      if !o.Going? {
        R.StoppedPhase(Now(o), RoleMarker(id, Prepared));
        return;
      }
      o := WriteRolePhase(RoleMarker(id, Prepared));
    }

    method UpgradeRoles(id: nat, convertible: bool) returns (o: Outcome)
      modifies this
      ensures Now(o) == R.Upgrade(old(disk), old(left), id, convertible)
    {
      hide CheckStartup;
      hide R.Prepare;
      hide R.Publish;
      var refused := CheckStartup(disk);
      if refused.Some? {
        return Failed(refused.value);
      }
      if disk.root.None? {
        return Failed(RootUnavailable);
      }
      if disk.root.value.layout != V2 {
        return if disk.root.value.layout == V3 then Going else Failed(WrongLayout);
      }
      o := PrepareRoles(id, convertible);
      if !o.Going? {
        R.StoppedStays(Now(o), RoleMarker(id, Prepared));
        return;
      }
      o := PublishRoles(RoleMarker(id, Prepared));
    }

    method RecoverRoles() returns (o: Outcome)
      requires disk.roleSidecar.Some?
      modifies this
      ensures Now(o) == R.Recover(old(disk), old(left))
    {
      var m := disk.roleSidecar.value;
      if m.phase == Complete || m.phase == RolledBack {
        var refused := CheckStartup(disk);
        return if refused.Some? then Failed(refused.value) else Going;
      }
      if m.phase == Preparing {
        if disk.root.None? {
          return Failed(RootUnavailable);
        }
        m := m.(phase := RolledBack);
        o := Commit(disk.(roleSidecar := Some(m)));
        return;
      }
      var validated := if m.id in disk.roleStages then Some(disk.roleStages[m.id]) else None;
      var inner := InnerRole(disk);
      if inner.Some? && inner.value.id == m.id {
        validated := disk.root;
        m := m.(phase := Published);
      }
      if validated.None? || validated.value.layout != V3 {
        return Failed(WrongLayout);
      }
      o := PublishRoles(m);
    }

    /** The stage is renamed to the target; on failure the original is moved back as far as possible. */
    method Install(q: L.Request) returns (o: Outcome)
      modifies this
      ensures Now(o) == L.Install(old(Now(Going)), q)
    {
      if q.renameFails || q.id !in disk.legacyStages {
        if !q.undoFails && q.id in disk.legacyBackups {
          o := Commit(disk.(root := Some(disk.legacyBackups[q.id]), legacyBackups := disk.legacyBackups - {q.id}));
          if !o.Going? {
            return;
          }
        }
        return Failed(RenameFailed);
      }
      o := Commit(disk.(root := Some(disk.legacyStages[q.id]), legacyStages := disk.legacyStages - {q.id}));
    }

    method MoveAside(q: L.Request) returns (o: Outcome)
      modifies this
      ensures Now(o) == L.MoveAside(old(Now(Going)), q.id)
    {
      o := Going;
      if disk.root.Some? {
        o := Commit(disk.(root := None, legacyBackups := disk.legacyBackups[q.id := disk.root.value]));
      }
    }

    method PrepareLegacy(q: L.Request, m: LegacyMarker) returns (o: Outcome)
      requires m == L.Prepared(q, disk.root.Some?)
      modifies this
      ensures Now(o) == L.Prepare(old(Now(Going)), q)
    {
      var stage := Tree(Draft, [], None, Some(LegacyMarker(q.bot, LegacyPreparing, None)));
      o := Commit(disk.(legacyStages := disk.legacyStages[q.id := stage]));
      if !o.Going? {
        return;
      }
      stage := stage.(layout := V3, data := q.data);
      o := Commit(disk.(legacyStages := disk.legacyStages[q.id := stage]));
      if !o.Going? {
        return;
      }
      o := Commit(disk.(legacySidecar := Some(m)));
      if !o.Going? {
        return;
      }
      stage := stage.(legacy := Some(m));
      o := Commit(disk.(legacyStages := disk.legacyStages[q.id := stage]));
    }

    method FinishLegacy(m: LegacyMarker) returns (o: Outcome)
      modifies this
      ensures Now(o) == L.Finish(old(Now(Going)), m)
    {
      if disk.root.None? {
        return Failed(RootUnavailable);
      }
      o := Commit(disk.(root := Some(disk.root.value.(legacy := Some(m)))));
      if o.Going? {
        o := Commit(disk.(legacySidecar := Some(m)));
      }
    }

    method MigrateLegacy(q: L.Request) returns (o: Outcome)
      modifies this
      ensures Now(o) == L.Migrate(old(disk), old(left), q)
    {
      var refused := CheckStartup(disk);
      if refused.Some? {
        return Failed(refused.value);
      }
      if q.inPlace && disk.root.None? {
        return Failed(RootUnavailable);
      }
      if !q.inPlace && disk.root.Some? && disk.root.value.layout != Empty {
        return Failed(UnexpectedRoot);
      }
      var m := LegacyMarker(q.bot, LegacyPrepared, if disk.root.Some? then Some(q.id) else None);
      ghost var last := m.(status := LegacyComplete);
      hide L.Prepare;
      hide L.Install;
      hide L.MoveAside;
      hide L.Finish;
      o := PrepareLegacy(q, m);
      if !o.Going? {
        L.StoppedStays(Now(o), q, last);
        return;
      }
      o := MoveAside(q);
      if !o.Going? {
        L.StoppedStays(Now(o), q, last);
        return;
      }
      o := Install(q);
      if !o.Going? {
        L.StoppedStays(Now(o), q, last);
        return;
      }
      o := FinishLegacy(m.(status := LegacyComplete));
    }

    /** Recover of either migration: a role sidecar takes precedence. */
    method Recover() returns (o: Outcome)
      modifies this
      ensures Now(o) == L.Recover(old(disk), old(left))
    {
      if disk.roleSidecar.Some? {
        o := RecoverRoles();
        return;
      }
      hide R.Recover;
      o := Going;
      if disk.legacySidecar.None? || LegacyFinal(disk.legacySidecar.value.status) {
        return;
      }
      var m := disk.legacySidecar.value;
      if m.status != LegacyPrepared {
        return Failed(Incomplete);
      }
      var inner := InnerLegacy(disk);
      if inner.Some? && inner.value.status == LegacyComplete && inner.value.bot == m.bot {
        o := Commit(disk.(legacySidecar := inner));
        return;
      }
      if m.backup.Some? && m.backup.value !in disk.legacyBackups {
        if disk.root.None? {
          return Failed(RootUnavailable);
        }
        if inner.Some? {
          return Failed(BackupMissing);
        }
      } else {
        if disk.root.Some? {
          o := Commit(disk.(root := None, uncommitted := disk.uncommitted + [disk.root.value]));
          if !o.Going? {
            return;
          }
        }
        if m.backup.Some? {
          o := Commit(disk.(root := Some(disk.legacyBackups[m.backup.value]), legacyBackups := disk.legacyBackups - {m.backup.value}));
          if !o.Going? {
            return;
          }
        }
      }
      o := Commit(disk.(legacySidecar := Some(m.(status := LegacyRolledBack))));
    }
  }
}
