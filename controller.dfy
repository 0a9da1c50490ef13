/**
 * The NetworkDevice controller's upgrade logic (pkg/controller/controller.go).
 * The controller remembers at most one upgrade in flight (`currentUpgrade`).
 * An upgrade is one SetPackage request (download and activate) followed by
 * a reboot; it stays tracked after both succeed, and is forgotten when a
 * phase fails, when the versions agree, or when another target is asked for.
 *
 * The Kubernetes object is a `map<string, Value>`; the device's and the API
 * server's answers, the clock, and the DEBUG_MODE / DRY_RUN switches are
 * parameters. The requests the controller attempts on the device and the
 * status writes that succeed are kept in a ghost log.
 */
module Controller {
  import opened Wrappers
  import opened GoStrings
  import opened Unstructured

  /** `UpgradeState`; `startTime` is the clock reading passed in. */
  datatype UpgradeState = UpgradeState(targetVersion: string, startTime: int, phase: string)

  /** The phase every upgrade is tracked in. */
  const UpgradePhase := "download+activate+reboot"

  /** Where the device puts an upgrade image. */
  const UpgradeDownloadPath := "/tmp/sonic-upgrade.bin"

  /** The image URL used when the spec names none is this prefix, the version and ".bin". */
  const FallbackImagePrefix := "http://10.250.0.1:8888/sonic-vs-"

  /** What `queryOSVersion` answers in debug mode. */
  const DebugOSVersion := "SONiC-OS-20250505.03"

  const DesiredVersionPath: seq<string> := ["spec", "os", "desiredVersion"]
  const CurrentVersionPath: seq<string> := ["status", "os", "currentVersion"]
  const FirmwareURLPath: seq<string> := ["spec", "os", "firmwareURL"]

  /** The environment switches `DEBUG_MODE == "true"` and `DRY_RUN == "true"`. */
  datatype Mode = Mode(debugMode: bool, dryRun: bool)

  /** Whether the device accepts the SetPackage request and the reboot request. */
  datatype DeviceAnswers = DeviceAnswers(setPackageOk: bool, rebootOk: bool)

  /** What the controller asks of the outside world. */
  datatype Request =
    | SetPackage(imageURL: string, version: string, filename: string, activate: bool)
    | Reboot
    | UpdateStatus(currentVersion: string)

  /** `desiredVersion`, read as Go's `NestedString` with its error ignored: "" unless a string is there. */
  function DesiredVersion(u: map<string, Value>): string
  {
    StringOrEmpty(u, DesiredVersionPath)
  }

  function CurrentVersion(u: map<string, Value>): string
  {
    StringOrEmpty(u, CurrentVersionPath)
  }

  /** The image to install: the spec's `firmwareURL` when given, else the fallback built from the version. */
  function ImageURL(firmwareURL: string, desiredVersion: string): (url: string)
    ensures firmwareURL != "" ==> url == firmwareURL
    ensures firmwareURL == "" ==> HasPrefix(url, FallbackImagePrefix) && HasSuffix(url, ".bin")
    ensures firmwareURL == "" ==> |url| == |FallbackImagePrefix| + |desiredVersion| + 4
    ensures firmwareURL == "" ==> url[|FallbackImagePrefix|..|url| - 4] == desiredVersion
  {
    if firmwareURL != "" then firmwareURL
    else
      var url := FallbackImagePrefix + desiredVersion + ".bin";
      assert url[..|FallbackImagePrefix|] == FallbackImagePrefix;
      assert url[|url| - 4..] == ".bin";
      assert url[|FallbackImagePrefix|..|url| - 4] == desiredVersion;
      url
  }

  /** Different versions without a spec URL fetch different images. */
  lemma FallbackURLNamesVersion(v1: string, v2: string)
    ensures ImageURL("", v1) == ImageURL("", v2) <==> v1 == v2
  {
    var u1 := ImageURL("", v1);
    var u2 := ImageURL("", v2);
    if u1 == u2 {
      assert v1 == u1[|FallbackImagePrefix|..|u1| - 4] == u2[|FallbackImagePrefix|..|u2| - 4] == v2;
    }
  }

  /** A version differs from the running one and asks for a change. */
  predicate NeedsReconciliation(desiredVersion: string, currentVersion: string)
  {
    desiredVersion != "" && desiredVersion != currentVersion
  }

  /** The update-event trigger: the desired version changed, and to something the device does not run. */
  predicate UpgradeTriggered(oldObj: map<string, Value>, newObj: map<string, Value>)
  {
    DesiredVersion(oldObj) != DesiredVersion(newObj)
    && NeedsReconciliation(DesiredVersion(newObj), CurrentVersion(newObj))
  }

  /** An upgrade event is a reconciliation need whose desired version has just changed. */
  lemma TriggerIsChangedNeed(oldObj: map<string, Value>, newObj: map<string, Value>)
    ensures UpgradeTriggered(oldObj, newObj)
        <==> DesiredVersion(oldObj) != DesiredVersion(newObj)
             && DesiredVersion(newObj) != ""
             && DesiredVersion(newObj) != CurrentVersion(newObj)
    ensures UpgradeTriggered(oldObj, newObj) ==> DesiredVersion(newObj) != CurrentVersion(newObj)
  {
  }

  /** Whether each phase succeeds: in debug mode the request is not sent and the phase is faked as a success. */
  predicate SetPackageSucceeds(mode: Mode, answers: DeviceAnswers)
  {
    mode.debugMode || answers.setPackageOk
  }

  predicate RebootSucceeds(mode: Mode, answers: DeviceAnswers)
  {
    mode.debugMode || answers.rebootOk
  }

  /**
   * The requests one upgrade to `desired` sends from `url`: nothing in debug
   * mode; otherwise SetPackage with activation on, then a reboot only if
   * SetPackage succeeded.
   */
  function UpgradeRequests(url: string, desired: string, mode: Mode, answers: DeviceAnswers): (rs: seq<Request>)
    ensures mode.debugMode ==> rs == []
    ensures !mode.debugMode ==> 1 <= |rs| <= 2 && rs[0] == SetPackage(url, desired, UpgradeDownloadPath, true)
    ensures Reboot in rs <==> !mode.debugMode && answers.setPackageOk
    ensures !mode.debugMode && answers.setPackageOk ==> rs[|rs| - 1] == Reboot
  {
    if mode.debugMode then []
    else [SetPackage(url, desired, UpgradeDownloadPath, true)] + if answers.setPackageOk then [Reboot] else []
  }

  /** The tracked upgrade after an operation, and the requests it sent. */
  datatype Effect = Effect(upgrade: Option<UpgradeState>, sent: seq<Request>)

  /** Nothing changes and nothing is sent. */
  function NoEffect(u0: Option<UpgradeState>): Effect
  {
    Effect(u0, [])
  }

  /** `u0` is an upgrade to `targetVersion`. */
  predicate IsTracking(u0: Option<UpgradeState>, targetVersion: string)
  {
    u0.Some? && u0.value.targetVersion == targetVersion
  }

  /**
   * What `handleUpgradeOperation` does to the object `u` when `u0` is tracked:
   * nothing when the versions agree; otherwise the upgrade requests, leaving
   * the upgrade tracked only when both phases succeeded.
   */
  function UpgradeEffect(u0: Option<UpgradeState>, u: map<string, Value>, mode: Mode, answers: DeviceAnswers, now: int): (e: Effect)
    ensures DesiredVersion(u) == CurrentVersion(u) ==> e == NoEffect(u0)
    ensures DesiredVersion(u) != CurrentVersion(u) ==>
              e.upgrade == None || e.upgrade == Some(UpgradeState(DesiredVersion(u), now, UpgradePhase))
  {
    var desired := DesiredVersion(u);
    if desired == CurrentVersion(u) then NoEffect(u0)
    else
      Effect(if SetPackageSucceeds(mode, answers) && RebootSucceeds(mode, answers)
             then Some(UpgradeState(desired, now, UpgradePhase))
             else None,
             UpgradeRequests(ImageURL(StringOrEmpty(u, FirmwareURLPath), desired), desired, mode, answers))
  }

  /**
   * What `checkReconciliation` does for the running version `currentVersion`
   * and the object read back (`None` when the read failed).
   */
  function ReconciliationEffect(u0: Option<UpgradeState>, currentVersion: string, fetched: Option<map<string, Value>>,
                                mode: Mode, answers: DeviceAnswers, now: int): (e: Effect)
    ensures e.upgrade == u0 || e.upgrade == None
         || (fetched.Some? && e.upgrade == Some(UpgradeState(DesiredVersion(fetched.value), now, UpgradePhase)))
  {
    if fetched.None? then NoEffect(u0)
    else if !NeedsReconciliation(DesiredVersion(fetched.value), currentVersion) then NoEffect(None)
    else if IsTracking(u0, DesiredVersion(fetched.value)) then NoEffect(u0)
    else if mode.dryRun then NoEffect(None)
    else UpgradeEffect(None, fetched.value, mode, answers, now)
  }

  /** The version `syncOSVersion` reads: the fixed debug version, or the device's answer (`None` on error). */
  function QueriedVersion(deviceVersion: Option<string>, mode: Mode): Option<string>
  {
    if mode.debugMode then Some(DebugOSVersion) else deviceVersion
  }

  /** What `syncOSVersion` does: query, write the status, then reconcile for a non-empty version. */
  function SyncEffect(u0: Option<UpgradeState>, deviceVersion: Option<string>, statusOk: bool,
                      fetched: Option<map<string, Value>>, mode: Mode, answers: DeviceAnswers, now: int): (e: Effect)
    ensures forall i :: 0 < i < |e.sent| ==> !e.sent[i].UpdateStatus?
  {
    var version := QueriedVersion(deviceVersion, mode);
    if version.None? || !statusOk then NoEffect(u0)
    else if version.value == "" then Effect(u0, [UpdateStatus("")])
    else
      var e := ReconciliationEffect(u0, version.value, fetched, mode, answers, now);
      Effect(e.upgrade, [UpdateStatus(version.value)] + e.sent)
  }

  /** What `onNetworkDeviceUpdate` does: the upgrade is handled whenever the trigger fires. */
  function UpdateEventEffect(u0: Option<UpgradeState>, oldObj: map<string, Value>, newObj: map<string, Value>,
                             mode: Mode, answers: DeviceAnswers, now: int): (e: Effect)
    ensures forall i :: 0 <= i < |e.sent| ==> !e.sent[i].UpdateStatus?
  {
    if UpgradeTriggered(oldObj, newObj) then UpgradeEffect(u0, newObj, mode, answers, now) else NoEffect(u0)
  }

  // ---------------------------------------------------------------------
  // Properties of the effects.

  /**
   * An upgrade sends SetPackage first, with activation on, to the upgrade
   * path; the reboot follows only a successful SetPackage, and the upgrade
   * stays tracked only when both phases succeed.
   */
  lemma UpgradePhasesInOrder(u0: Option<UpgradeState>, u: map<string, Value>, mode: Mode, answers: DeviceAnswers, now: int)
    requires DesiredVersion(u) != CurrentVersion(u)
    ensures var e := UpgradeEffect(u0, u, mode, answers, now);
            var url := ImageURL(StringOrEmpty(u, FirmwareURLPath), DesiredVersion(u));
            && (!mode.debugMode ==> e.sent[0] == SetPackage(url, DesiredVersion(u), UpgradeDownloadPath, true))
            && (!SetPackageSucceeds(mode, answers) ==> e.upgrade == None && Reboot !in e.sent)
            && (SetPackageSucceeds(mode, answers) && !RebootSucceeds(mode, answers) ==> e.upgrade == None)
            && (SetPackageSucceeds(mode, answers) && RebootSucceeds(mode, answers) ==>
                  e.upgrade == Some(UpgradeState(DesiredVersion(u), now, UpgradePhase)))
  {
  }

  /**
   * After an upgrade whose two phases succeeded, reconciliation against an
   * object that still asks for the same version (the device not yet running
   * it) sends nothing and keeps the upgrade tracked: the reconciliation loop
   * does not repeat an upgrade.
   */
  lemma ReconciliationDoesNotRepeat(u0: Option<UpgradeState>, u: map<string, Value>, mode: Mode, answers: DeviceAnswers,
                                    now: int, currentVersion: string, fetched: map<string, Value>,
                                    mode2: Mode, answers2: DeviceAnswers, now2: int)
    requires DesiredVersion(u) != CurrentVersion(u)
    requires SetPackageSucceeds(mode, answers) && RebootSucceeds(mode, answers)
    requires DesiredVersion(fetched) == DesiredVersion(u)
    ensures var e1 := UpgradeEffect(u0, u, mode, answers, now);
            ReconciliationEffect(e1.upgrade, currentVersion, Some(fetched), mode2, answers2, now2) == NoEffect(e1.upgrade)
                || ReconciliationEffect(e1.upgrade, currentVersion, Some(fetched), mode2, answers2, now2) == NoEffect(None)
    ensures var e1 := UpgradeEffect(u0, u, mode, answers, now);
            NeedsReconciliation(DesiredVersion(u), currentVersion) ==>
              ReconciliationEffect(e1.upgrade, currentVersion, Some(fetched), mode2, answers2, now2) == NoEffect(e1.upgrade)
  {
    var e1 := UpgradeEffect(u0, u, mode, answers, now);
    assert IsTracking(e1.upgrade, DesiredVersion(u));
  }

  /** Once the device runs the desired version, or none is desired, reconciliation forgets the upgrade and sends nothing. */
  lemma ReconciliationSettles(u0: Option<UpgradeState>, currentVersion: string, fetched: map<string, Value>,
                              mode: Mode, answers: DeviceAnswers, now: int)
    requires DesiredVersion(fetched) == currentVersion || DesiredVersion(fetched) == ""
    ensures ReconciliationEffect(u0, currentVersion, Some(fetched), mode, answers, now) == NoEffect(None)
  {
  }

  /**
   * Reconciliation sends a request only when the object was read, asks for
   * a version the device does not run, that version is not already tracked,
   * and neither dry-run nor debug mode is on; what it sends then starts with
   * SetPackage for that version.
   */
  lemma ReconciliationSendsOnlyWhenNeeded(u0: Option<UpgradeState>, currentVersion: string,
                                          fetched: Option<map<string, Value>>,
                                          mode: Mode, answers: DeviceAnswers, now: int)
    ensures var e := ReconciliationEffect(u0, currentVersion, fetched, mode, answers, now);
            e.sent != [] ==>
              && fetched.Some?
              && NeedsReconciliation(DesiredVersion(fetched.value), currentVersion)
              && !IsTracking(u0, DesiredVersion(fetched.value))
              && !mode.dryRun && !mode.debugMode
              && DesiredVersion(fetched.value) != CurrentVersion(fetched.value)
              && e.sent[0].SetPackage? && e.sent[0].version == DesiredVersion(fetched.value)
  {
  }

  /**
   * The converse: when the object asks for a version the device does not
   * run and that version is not the one tracked, reconciliation (outside
   * dry-run and debug mode) forgets any upgrade toward another version and
   * sends SetPackage for the new one; the new version is tracked once both
   * phases succeed.
   */
  lemma ReconciliationReplacesStaleTarget(u0: Option<UpgradeState>, currentVersion: string,
                                          fetched: Option<map<string, Value>>,
                                          mode: Mode, answers: DeviceAnswers, now: int)
    requires fetched.Some?
    requires NeedsReconciliation(DesiredVersion(fetched.value), currentVersion)
    requires !IsTracking(u0, DesiredVersion(fetched.value))
    requires !mode.dryRun && !mode.debugMode
    requires DesiredVersion(fetched.value) != CurrentVersion(fetched.value)
    ensures var e := ReconciliationEffect(u0, currentVersion, fetched, mode, answers, now);
            var desired := DesiredVersion(fetched.value);
            && e.sent != []
            && e.sent[0] == SetPackage(ImageURL(StringOrEmpty(fetched.value, FirmwareURLPath), desired),
                                       desired, UpgradeDownloadPath, true)
            && (answers.setPackageOk && answers.rebootOk <==> IsTracking(e.upgrade, desired))
            && (e.upgrade.Some? ==> e.upgrade.value.targetVersion == desired)
  {
  }

  /** With dry-run on, reconciliation sends nothing (it may still forget an upgrade). */
  lemma DryRunSendsNothing(u0: Option<UpgradeState>, currentVersion: string, fetched: Option<map<string, Value>>,
                           answers: DeviceAnswers, now: int, debugMode: bool)
    ensures ReconciliationEffect(u0, currentVersion, fetched, Mode(debugMode, true), answers, now).sent == []
  {
  }

  /**
   * The update-event path does not consult the tracked upgrade: an event that
   * fires repeats the SetPackage request even when that very version is
   * already tracked.
   */
  lemma UpdateEventIgnoresTracking(u0: Option<UpgradeState>, oldObj: map<string, Value>, newObj: map<string, Value>,
                                   mode: Mode, answers: DeviceAnswers, now: int)
    requires UpgradeTriggered(oldObj, newObj) && !mode.debugMode
    ensures var e := UpdateEventEffect(u0, oldObj, newObj, mode, answers, now);
            e.sent != [] && e.sent[0].SetPackage? && e.sent[0].version == DesiredVersion(newObj)
    ensures UpdateEventEffect(u0, oldObj, newObj, mode, answers, now)
         == UpdateEventEffect(None, oldObj, newObj, mode, answers, now)
  {
  }

  /** A sync first writes the version it read to the status; a failed query or status write ends it with no effect. */
  lemma SyncWritesStatusFirst(u0: Option<UpgradeState>, deviceVersion: Option<string>, statusOk: bool,
                              fetched: Option<map<string, Value>>, mode: Mode, answers: DeviceAnswers, now: int)
    ensures var e := SyncEffect(u0, deviceVersion, statusOk, fetched, mode, answers, now);
            var version := QueriedVersion(deviceVersion, mode);
            && (version.None? || !statusOk ==> e == NoEffect(u0))
            && (version.Some? && statusOk ==> e.sent != [] && e.sent[0] == UpdateStatus(version.value))
            && (version.Some? && statusOk && version.value == "" ==> e.upgrade == u0)
    ensures mode.debugMode && statusOk ==>
              SyncEffect(u0, deviceVersion, statusOk, fetched, mode, answers, now).sent[0] == UpdateStatus(DebugOSVersion)
  {
  }

  /** A tracked upgrade is always in the one upgrade phase, toward a non-empty version. */
  predicate WellTracked(u0: Option<UpgradeState>)
  {
    u0.Some? ==> u0.value.phase == UpgradePhase && u0.value.targetVersion != ""
  }

  /** Both entry points (the periodic sync and the update event) keep the tracked upgrade well formed. */
  lemma EntryPointsKeepWellTracked(u0: Option<UpgradeState>, deviceVersion: Option<string>, statusOk: bool,
                                   fetched: Option<map<string, Value>>, oldObj: map<string, Value>,
                                   newObj: map<string, Value>, mode: Mode, answers: DeviceAnswers, now: int)
    requires WellTracked(u0)
    ensures WellTracked(SyncEffect(u0, deviceVersion, statusOk, fetched, mode, answers, now).upgrade)
    ensures WellTracked(UpdateEventEffect(u0, oldObj, newObj, mode, answers, now).upgrade)
  {
  }

  class Controller {
    const deviceName: string

    /** The upgrade in flight, if any. */
    var currentUpgrade: Option<UpgradeState>

    /**
     * What the controller has asked of the outside world, in order. A
     * SetPackage or Reboot entry records an attempt, whatever the device
     * answered (a failed dial included); an UpdateStatus entry records a
     * status write that succeeded, since a failed write ends the sync.
     */
    ghost var requests: seq<Request>

    constructor (deviceName: string)
      ensures this.deviceName == deviceName
      ensures currentUpgrade == None && requests == []
    {
      this.deviceName := deviceName;
      currentUpgrade := None;
      requests := [];
    }

    /**
     * `isUpgradeInProgress`: true exactly when an upgrade to `targetVersion`
     * is tracked, which is then kept; an upgrade to another target is
     * forgotten.
     */
    method IsUpgradeInProgress(targetVersion: string) returns (inProgress: bool)
      modifies this
      ensures inProgress <==> IsTracking(old(currentUpgrade), targetVersion)
      ensures inProgress ==> currentUpgrade == old(currentUpgrade)
      ensures !inProgress ==> currentUpgrade == None
      ensures requests == old(requests)
    {
      if currentUpgrade.None? {
        return false;
      }
      if currentUpgrade.value.targetVersion == targetVersion {
        return true;
      }
      currentUpgrade := None;
      return false;
    }

    /** `startUpgrade`: exactly an upgrade to `targetVersion`, started at `now`, is tracked. */
    method StartUpgrade(targetVersion: string, now: int)
      modifies this
      ensures currentUpgrade == Some(UpgradeState(targetVersion, now, UpgradePhase))
      ensures requests == old(requests)
    {
      currentUpgrade := Some(UpgradeState(targetVersion, now, UpgradePhase));
    }

    /** `clearUpgrade`: nothing is tracked afterwards, whatever was before. */
    method ClearUpgrade()
      modifies this
      ensures currentUpgrade == None
      ensures requests == old(requests)
    {
      if currentUpgrade.Some? {
        currentUpgrade := None;
      }
    }

    /** `executeDownloadPackage`: a SetPackage request with activation on, unless in debug mode. */
    method ExecuteDownloadPackage(imageURL: string, targetVersion: string, downloadPath: string,
                                  mode: Mode, answers: DeviceAnswers)
      returns (ok: bool)
      modifies this
      ensures ok == SetPackageSucceeds(mode, answers)
      ensures requests
           == old(requests) + if mode.debugMode then [] else [SetPackage(imageURL, targetVersion, downloadPath, true)]
      ensures currentUpgrade == old(currentUpgrade)
    {
      if mode.debugMode {
        return true;
      }
      requests := requests + [SetPackage(imageURL, targetVersion, downloadPath, true)];
      return answers.setPackageOk;
    }

    /** `executeSystemReboot`: a reboot request, unless in debug mode. */
    method ExecuteSystemReboot(mode: Mode, answers: DeviceAnswers) returns (ok: bool)
      modifies this
      ensures ok == RebootSucceeds(mode, answers)
      ensures requests == old(requests) + if mode.debugMode then [] else [Reboot]
      ensures currentUpgrade == old(currentUpgrade)
    {
      if mode.debugMode {
        return true;
      }
      requests := requests + [Reboot];
      return answers.rebootOk;
    }

    /**
     * `handleUpgradeOperation` on the object `u`: nothing when its desired
     * and current versions agree; otherwise track the upgrade, send the
     * SetPackage request and, if it succeeded, the reboot. A failed phase
     * forgets the upgrade.
     */
    method HandleUpgradeOperation(u: map<string, Value>, mode: Mode, answers: DeviceAnswers, now: int)
      modifies this
      ensures var e := UpgradeEffect(old(currentUpgrade), u, mode, answers, now);
              currentUpgrade == e.upgrade && requests == old(requests) + e.sent
    {
      var desiredVersion := DesiredVersion(u);
      var currentVersion := CurrentVersion(u);
      if desiredVersion == currentVersion {
        return;
      }
      StartUpgrade(desiredVersion, now);
      var imageURL := ImageURL(StringOrEmpty(u, FirmwareURLPath), desiredVersion);
      var downloadPath := UpgradeDownloadPath;

      // Phase 1: download and activate.
      var downloaded := ExecuteDownloadPackage(imageURL, desiredVersion, downloadPath, mode, answers);
      if !downloaded {
        ClearUpgrade();
        return;
      }
      // Phase 2: reboot.
      var rebooted := ExecuteSystemReboot(mode, answers);
      if !rebooted {
        ClearUpgrade();
        return;
      }
    }

    /**
     * `checkReconciliation` against the object read back from the API server
     * (`None` when that read failed).
     */
    method CheckReconciliation(currentVersion: string, fetched: Option<map<string, Value>>,
                               mode: Mode, answers: DeviceAnswers, now: int)
      modifies this
      ensures var e := ReconciliationEffect(old(currentUpgrade), currentVersion, fetched, mode, answers, now);
              currentUpgrade == e.upgrade && requests == old(requests) + e.sent
    {
      if fetched.None? {
        return;
      }
      var device := fetched.value;
      var desiredVersion := DesiredVersion(device);
      if NeedsReconciliation(desiredVersion, currentVersion) {
        var inProgress := IsUpgradeInProgress(desiredVersion);
        if inProgress {
          return;
        }
        if !mode.dryRun {
          HandleUpgradeOperation(device, mode, answers, now);
        }
      } else {
        ClearUpgrade();
      }
    }

    /**
     * `syncOSVersion`: `deviceVersion` is the device's answer (`None` when
     * the query failed) and `statusOk` whether the status write went through.
     */
    method SyncOSVersion(deviceVersion: Option<string>, statusOk: bool, fetched: Option<map<string, Value>>,
                         mode: Mode, answers: DeviceAnswers, now: int)
      modifies this
      ensures var e := SyncEffect(old(currentUpgrade), deviceVersion, statusOk, fetched, mode, answers, now);
              currentUpgrade == e.upgrade && requests == old(requests) + e.sent
    {
      var currentVersion: string;
      if mode.debugMode {
        currentVersion := DebugOSVersion;
      } else if deviceVersion.None? {
        return;
      } else {
        currentVersion := deviceVersion.value;
      }
      if !statusOk {
        return;
      }
      requests := requests + [UpdateStatus(currentVersion)];
      if currentVersion != "" {
        CheckReconciliation(currentVersion, fetched, mode, answers, now);
      }
    }

    /** `onNetworkDeviceUpdate`; the event path does not ask whether the upgrade is already tracked. */
    method OnNetworkDeviceUpdate(oldObj: map<string, Value>, newObj: map<string, Value>,
                                 mode: Mode, answers: DeviceAnswers, now: int)
      modifies this
      ensures var e := UpdateEventEffect(old(currentUpgrade), oldObj, newObj, mode, answers, now);
              currentUpgrade == e.upgrade && requests == old(requests) + e.sent
    {
      if UpgradeTriggered(oldObj, newObj) {
        HandleUpgradeOperation(newObj, mode, answers, now);
      }
    }
  }
}
