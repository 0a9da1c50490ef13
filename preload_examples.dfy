/** Cases of pkg/workflow/preload_test.go that use the default firmware profile and base URL. */
module PreloadExamples {
  import opened Wrappers
  import opened GoStrings
  import opened Unstructured
  import opened Preload
  import Mocks

  /** With no profile and no configured base URL, the image is the Mellanox one from the local repository. */
  lemma EmptyProfileUsesDefaults()
    ensures PlatformFromProfile("") == "mellanox"
    ensures ConstructImageURL("202505.01", "", "") == "http://localhost:8080/images/sonic-mellanox-202505.01.bin"
  {
    assert HasSuffix(DefaultImageRepoBaseURL, "/");
  }

  /** A device without `spec.osVersion` fails the workflow before any transfer. */
  method MissingVersionMakesNoCall() returns (r: Outcome<WorkflowError>, calls: nat)
    ensures r == Fail(OsVersionNotSpecified) && calls == 0
  {
    var file := new Mocks.FileService();
    var device := map["spec" := Obj(map["firmwareProfile" := Str("SONiC-Test-Profile")])];
    r := Execute(PreloadWorkflow, device, file, "");
    calls := file.GetTransferToRemoteCallCount();
  }

  /** A device whose `spec.osVersion` is empty is treated as having none. */
  method EmptyVersionMakesNoCall() returns (r: Outcome<WorkflowError>, calls: nat)
    ensures r == Fail(OsVersionNotSpecified) && calls == 0
  {
    var file := new Mocks.FileService();
    var device := map["spec" := Obj(map["osVersion" := Str(""), "firmwareProfile" := Str("SONiC-Test-Profile")])];
    r := Execute(PreloadWorkflow, device, file, "");
    calls := file.GetTransferToRemoteCallCount();
  }

  /** A device with only a version transfers the default image to the default path. */
  method DefaultProfileCall() returns (r: Outcome<WorkflowError>, calls: nat,
                                       last: Result<Mocks.TransferToRemoteCall, string>)
    ensures r == Pass && calls == 1
    ensures last == Success(Mocks.TransferToRemoteCall("http://localhost:8080/images/sonic-mellanox-202505.01.bin",
                                                       "/tmp/sonic-image.bin"))
  {
    var file := new Mocks.FileService();
    var device := map["spec" := Obj(map["osVersion" := Str("202505.01")])];
    r := Execute(PreloadWorkflow, device, file, "");
    EmptyProfileUsesDefaults();
    calls := file.GetTransferToRemoteCallCount();
    last := file.GetLastTransferToRemoteCall();
  }
}
