/** The configuration, read-only once Init has run; durations in nanoseconds. */
module Settings {
  import opened Options
  import opened Nodes
  import opened JsonPatch

  datatype Kind = Repair | Update

  /** What the two jobs configure separately. */
  datatype JobSettings = JobSettings(limit: int, lockAnnotation: string, lockDuration: int, lockDurationError: int)

  datatype DrainSettings = DrainSettings(
    enable: bool, dryRun: bool, disableEviction: bool, retryWithoutEviction: bool, ignoreFailure: bool, waitAfter: int)

  datatype Config = Config(
    reading: Reading,               // how AnnotationLockCheck measures a lock, see Nodes.Reading
    dryRun: bool,
    self: Option<string>,           // node name, if node name, namespace and pod are all set
    scaledownLockTime: int,
    repair: JobSettings,
    notReadyThreshold: int,
    repairVmssAction: string,
    repairVmAction: string,
    states: seq<string>,            // provisioning states, lower-cased by Init
    allStates: bool,
    update: JobSettings,
    ongoingAnnotation: string,
    excludeAnnotation: string,
    updateAction: string,
    updateStates: seq<string>,      // provisioning states for updates, as configured; nothing reads them
    failedThreshold: int,
    drain: DrainSettings)
  {
    function Job(kind: Kind): JobSettings {
      match kind
      case Repair => repair
      case Update => update
    }

    predicate LimitReached(kind: Kind, count: nat) {
      Job(kind).limit > 0 && count >= Job(kind).limit
    }

    /** The annotations that protect a node from the next steps of the autopilot all have names of their own. */
    predicate DistinctAnnotations() {
      Distinct([repair.lockAnnotation, update.lockAnnotation, ongoingAnnotation, excludeAnnotation,
                SCALE_DOWN_EXPIRE, SCALE_DOWN_DISABLED])
    }

    lemma OwnNames()
      requires DistinctAnnotations()
      ensures ongoingAnnotation !in {repair.lockAnnotation, update.lockAnnotation, excludeAnnotation,
                                         SCALE_DOWN_EXPIRE, SCALE_DOWN_DISABLED}
      ensures excludeAnnotation !in {repair.lockAnnotation, update.lockAnnotation,
                                         SCALE_DOWN_EXPIRE, SCALE_DOWN_DISABLED}
      ensures repair.lockAnnotation !in {update.lockAnnotation, SCALE_DOWN_EXPIRE, SCALE_DOWN_DISABLED}
      ensures update.lockAnnotation !in {SCALE_DOWN_EXPIRE, SCALE_DOWN_DISABLED}
      ensures SCALE_DOWN_EXPIRE != SCALE_DOWN_DISABLED
    {
      var names := [repair.lockAnnotation, update.lockAnnotation, ongoingAnnotation, excludeAnnotation,
                    SCALE_DOWN_EXPIRE, SCALE_DOWN_DISABLED];
      assert names[0] != names[1] && names[0] != names[2] && names[0] != names[3] && names[0] != names[4];
      assert names[0] != names[5] && names[1] != names[2] && names[1] != names[3] && names[1] != names[4];
      assert names[1] != names[5] && names[2] != names[3] && names[2] != names[4] && names[2] != names[5];
      assert names[3] != names[4] && names[3] != names[5] && names[4] != names[5];
    }
  }

  /** Default lifetime of both lock caches: 15 minutes. */
  const LOCK_LIFE := 15 * 60 * SECOND
}
