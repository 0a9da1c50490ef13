/**
 * One upgrade traced through the controller: an update event starts it, the
 * periodic sync leaves it alone while the device still runs the old version,
 * and forgets it once the device reports the new one.
 */
module ControllerExamples {
  import opened Wrappers
  import opened Unstructured
  import opened Controller

  /** A resource asking for `desired` while the device is reported at `current`. */
  function Device(desired: string, current: string): map<string, Value>
  {
    map["spec" := Obj(map["os" := Obj(map["desiredVersion" := Str(desired)])]),
        "status" := Obj(map["os" := Obj(map["currentVersion" := Str(current)])])]
  }

  method UpgradeLifecycle() returns (ghost afterEvent: seq<Request>, trackedAfterEvent: Option<UpgradeState>,
                                     ghost afterFirstSync: seq<Request>, trackedAfterFirstSync: Option<UpgradeState>,
                                     ghost afterSecondSync: seq<Request>, trackedAfterSecondSync: Option<UpgradeState>)
    ensures afterEvent == [SetPackage(FallbackImagePrefix + "v2" + ".bin", "v2", UpgradeDownloadPath, true), Reboot]
    ensures trackedAfterEvent == Some(UpgradeState("v2", 10, UpgradePhase))
    ensures afterFirstSync == afterEvent + [UpdateStatus("v1")]
    ensures trackedAfterFirstSync == trackedAfterEvent
    ensures afterSecondSync == afterFirstSync + [UpdateStatus("v2")]
    ensures trackedAfterSecondSync == None
  {
    var c := new Controller("dut");
    var mode := Mode(false, false);
    var answers := DeviceAnswers(true, true);
    var before := Device("v1", "v1");
    var after := Device("v2", "v1");
    assert DesiredVersion(after) == "v2" && CurrentVersion(after) == "v1";
    assert DesiredVersion(before) == "v1";

    // The event fires: SetPackage from the fallback URL, then the reboot.
    c.OnNetworkDeviceUpdate(before, after, mode, answers, 10);
    assert StringOrEmpty(after, FirmwareURLPath) == "";
    afterEvent := c.requests;
    trackedAfterEvent := c.currentUpgrade;

    // The device still runs v1: the sync writes the status and sends nothing else.
    c.SyncOSVersion(Some("v1"), true, Some(after), mode, answers, 20);
    afterFirstSync := c.requests;
    trackedAfterFirstSync := c.currentUpgrade;

    // The device reports v2: the upgrade is forgotten.
    c.SyncOSVersion(Some("v2"), true, Some(after), mode, answers, 30);
    afterSecondSync := c.requests;
    trackedAfterSecondSync := c.currentUpgrade;
  }
}
