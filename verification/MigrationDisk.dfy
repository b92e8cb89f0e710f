/** The directories and markers that the offline migrations move: a data root, its siblings named
    by transaction, the sidecar markers beside the root and the markers inside a tree
    (internal/migration). Every durable write or rename is one step, and a run of steps may be cut
    off by a crash after any number of them. */
module MigrationDisk {
  import opened Wrappers

  datatype RolePhase = Preparing | Prepared | BackedUp | Published | Complete | RolledBack

  /** Stage and backup directories are named after the transaction. */
  datatype RoleMarker = RoleMarker(id: nat, phase: RolePhase)

  datatype LegacyStatus = LegacyPreparing | LegacyPrepared | LegacyComplete | LegacyRolledBack

  /** `backup` names the moved-away original; it is absent when the target did not exist. */
  datatype LegacyMarker = LegacyMarker(bot: string, status: LegacyStatus, backup: Option<nat>)

  /** Empty is an empty directory, Legacy the single-Bot root, V3 a version 3 tree that
      validateRoleLayout accepts, and Draft a tree that is none of these, such as a stage being
      written or a damaged root. */
  datatype Layout = Empty | Legacy | V2 | V3 | Draft

  /** `data` stands for everything the daemon stored in the tree; `role` and `legacy` are the
      role-migration.json and migration.json inside it. */
  datatype Tree = Tree(layout: Layout, data: seq<nat>, role: Option<RoleMarker>, legacy: Option<LegacyMarker>)

  datatype Disk = Disk(
    root: Option<Tree>,
    roleStages: map<nat, Tree>, roleBackups: map<nat, Tree>, roleSidecar: Option<RoleMarker>,
    legacyStages: map<nat, Tree>, legacyBackups: map<nat, Tree>, legacySidecar: Option<LegacyMarker>,
    uncommitted: seq<Tree>)

  datatype Failure = Incomplete | MarkersDisagree | MarkerUnavailable | RootUnavailable | WrongLayout
    | ConversionFailed | UnexpectedRoot | BackupMissing | RenameFailed

  /** Going: every step so far succeeded. */
  datatype Outcome = Going | Crashed | Failed(why: Failure)

  /** A sequence of disk steps under way: `left` steps remain before the crash. */
  datatype Progress = Progress(disk: Disk, left: nat, outcome: Outcome)

  /** One durable step. */
  function Durable(p: Progress, disk: Disk): Progress {
    if !p.outcome.Going? then p else if p.left == 0 then p.(outcome := Crashed) else Progress(disk, p.left - 1, p.outcome)
  }

  function Stop(p: Progress, why: Failure): Progress {
    if p.outcome.Going? then p.(outcome := Failed(why)) else p
  }

  predicate Final(phase: RolePhase) {
    phase == Complete || phase == RolledBack
  }

  predicate LegacyFinal(status: LegacyStatus) {
    status == LegacyComplete || status == LegacyRolledBack
  }

  function InnerRole(d: Disk): Option<RoleMarker> {
    if d.root.Some? then d.root.value.role else None
  }

  function InnerLegacy(d: Disk): Option<LegacyMarker> {
    if d.root.Some? then d.root.value.legacy else None
  }

  /** One of the two role markers, checked against the other one. */
  function CheckMarker(marker: Option<RoleMarker>, other: Option<RoleMarker>): Option<Failure> {
    if marker.None? then None
    else if !Final(marker.value.phase) then Some(Incomplete)
    else if marker.value.phase == RolledBack then None
    else if other.None? then Some(MarkerUnavailable)
    else if other.value.id != marker.value.id || other.value.phase != Complete then Some(MarkersDisagree)
    else None
  }

  /** Startup is refused while any publication is unresolved. */
  function CheckStartup(d: Disk): Option<Failure> {
    var outer := CheckMarker(d.roleSidecar, InnerRole(d));
    if outer.Some? then outer
    else
      var inner := CheckMarker(InnerRole(d), d.roleSidecar);
      if inner.Some? then inner
      else if d.legacySidecar.None? || LegacyFinal(d.legacySidecar.value.status) then None
      else Some(Incomplete)
  }

  /** CheckStartup accepts exactly the disks on which neither migration is pending and the two role
      markers agree on a completed upgrade, if either claims one. */
  lemma StartupAccepts(d: Disk)
    ensures CheckStartup(d).None? <==>
            && (d.roleSidecar.Some? ==> Final(d.roleSidecar.value.phase))
            && (InnerRole(d).Some? ==> Final(InnerRole(d).value.phase))
            && (forall m :: d.roleSidecar == Some(m) && m.phase == Complete ==> InnerRole(d) == Some(m))
            && (forall m :: InnerRole(d) == Some(m) && m.phase == Complete ==> d.roleSidecar == Some(m))
            && (d.legacySidecar.Some? ==> LegacyFinal(d.legacySidecar.value.status))
  {
    if d.roleSidecar.Some? && InnerRole(d).Some? {
      var x, y := d.roleSidecar.value, InnerRole(d).value;
      assert x.id == y.id && x.phase == y.phase ==> x == y;
    }
  }
}
