/**
 * The preload workflow (pkg/workflow/preload.go): from the device's
 * `spec.osVersion` and `spec.firmwareProfile` it builds the URL of the
 * SONiC image for the platform and asks the device, with one gNOI
 * `TransferToRemote` call, to download it to a fixed path. The image
 * repository's base URL (`IMAGE_REPO_BASE_URL`) is a parameter.
 */
module Preload {
  import opened Wrappers
  import opened GoStrings
  import opened Unstructured
  import Mocks

  /** `defaultDownloadPath`: where the device puts the image. */
  const DefaultDownloadPath := "/tmp/sonic-image.bin"

  /** The base URL used when the environment does not name one. */
  const DefaultImageRepoBaseURL := "http://localhost:8080/images/"

  /** The platforms in the order they are tried; the first is also the fallback. */
  const Platforms: seq<string> := ["mellanox", "broadcom", "cisco", "arista"]

  /** `PreloadWorkflow`; its gNOI client is passed to `Execute`. */
  datatype PreloadWorkflow = PreloadWorkflow

  /** `GetName`. */
  function GetName(w: PreloadWorkflow): (name: string)
    ensures name == "preload"
  {
    "preload"
  }

  /** `getPlatformFromProfile`: the first platform named in the lower-cased profile. */
  function PlatformFromProfile(firmwareProfile: string): (platform: string)
    ensures platform in Platforms
  {
    var profile := ToLower(firmwareProfile);
    if Contains(profile, "mellanox") then "mellanox"
    else if Contains(profile, "broadcom") then "broadcom"
    else if Contains(profile, "cisco") then "cisco"
    else if Contains(profile, "arista") then "arista"
    else "mellanox"
  }

  /** `isAbootProfile`: the lower-cased profile mentions "aboot". */
  predicate IsAbootProfile(firmwareProfile: string)
  {
    Contains(ToLower(firmwareProfile), "aboot")
  }

  /** `constructFilename`: the Aboot image for Broadcom Aboot profiles, else `sonic-<platform>-<v>.bin`. */
  function ConstructFilename(osVersion: string, firmwareProfile: string): string
  {
    var platform := PlatformFromProfile(firmwareProfile);
    if platform == "broadcom" && IsAbootProfile(firmwareProfile) then
      "sonic-aboot-broadcom-" + osVersion + ".swi"
    else
      "sonic-" + platform + "-" + osVersion + ".bin"
  }

  /** The base URL in use: the configured one or the default, always ending in a slash. */
  function ImageRepoBase(imageRepoBaseURL: string): (base: string)
    ensures HasSuffix(base, "/")
    ensures imageRepoBaseURL != "" ==> HasPrefix(base, imageRepoBaseURL)
    ensures imageRepoBaseURL == "" ==> base == DefaultImageRepoBaseURL
  {
    var b := if imageRepoBaseURL == "" then DefaultImageRepoBaseURL else imageRepoBaseURL;
    if HasSuffix(b, "/") then b else b + "/"
  }

  /** `constructImageURL`. */
  function ConstructImageURL(osVersion: string, firmwareProfile: string, imageRepoBaseURL: string): string
  {
    ImageRepoBase(imageRepoBaseURL) + ConstructFilename(osVersion, firmwareProfile)
  }

  /** Why the workflow failed. */
  datatype WorkflowError =
    | OsVersionNotSpecified
    | TransferFailed(cause: string)

  /** The workflow's reading of `spec.osVersion`: present only when a non-empty string. */
  function OsVersion(device: map<string, Value>): (r: Option<string>)
    ensures r.Some? <==> NestedString(device, ["spec", "osVersion"]).Found?
                         && NestedString(device, ["spec", "osVersion"]).value != ""
    ensures r.Some? ==> NestedString(device, ["spec", "osVersion"]) == Found(r.value)
  {
    match NestedString(device, ["spec", "osVersion"])
    case Found(v) => if v == "" then None else Some(v)
    case _ => None
  }

  /** `spec.firmwareProfile`, or "" when it is not a string. */
  function FirmwareProfile(device: map<string, Value>): string
  {
    StringOrEmpty(device, ["spec", "firmwareProfile"])
  }

  /**
   * `Execute`: without an OS version nothing is called; otherwise exactly one
   * transfer of the image URL to the default download path is made, and its
   * error, if any, becomes the workflow's.
   */
  method Execute(w: PreloadWorkflow, device: map<string, Value>, file: Mocks.FileService, imageRepoBaseURL: string)
    returns (r: Outcome<WorkflowError>)
    modifies file
    ensures file.transferToRemoteFunc == old(file.transferToRemoteFunc)
    ensures OsVersion(device).None? ==>
              r == Fail(OsVersionNotSpecified) && file.transferToRemoteCalls == old(file.transferToRemoteCalls)
    ensures OsVersion(device).Some? ==>
              var url := ConstructImageURL(OsVersion(device).value, FirmwareProfile(device), imageRepoBaseURL);
              && file.transferToRemoteCalls
                 == old(file.transferToRemoteCalls) + [Mocks.TransferToRemoteCall(url, DefaultDownloadPath)]
              && r == match file.transferToRemoteFunc(url, DefaultDownloadPath)
                      case Pass => Pass
                      case Fail(e) => Fail(TransferFailed(e))
  {
    var version := OsVersion(device);
    if version.None? {
      return Fail(OsVersionNotSpecified);
    }
    var imageURL := ConstructImageURL(version.value, FirmwareProfile(device), imageRepoBaseURL);
    var err := file.TransferToRemote(imageURL, DefaultDownloadPath);
    if err.Fail? {
      return Fail(TransferFailed(err.error));
    }
    return Pass;
  }

  // ---------------------------------------------------------------------
  // Properties.

  /** The first of `names` that `s` contains, or `fallback` when none is. */
  function FirstContained(s: string, names: seq<string>, fallback: string): (r: string)
    ensures r in names || r == fallback
  {
    if names == [] then fallback
    else if Contains(s, names[0]) then names[0]
    else FirstContained(s, names[1..], fallback)
  }

  /** Platform selection is a first-match search through `Platforms`, falling back to the first. */
  lemma PlatformIsFirstMatch(firmwareProfile: string)
    ensures PlatformFromProfile(firmwareProfile) == FirstContained(ToLower(firmwareProfile), Platforms, Platforms[0])
  {
    var l := ToLower(firmwareProfile);
    var m := Platforms[0];
    assert FirstContained(l, ["arista"], m) == if Contains(l, "arista") then "arista" else m;
    assert FirstContained(l, ["cisco", "arista"], m)
        == if Contains(l, "cisco") then "cisco" else FirstContained(l, ["arista"], m);
    assert FirstContained(l, ["broadcom", "cisco", "arista"], m)
        == if Contains(l, "broadcom") then "broadcom" else FirstContained(l, ["cisco", "arista"], m);
  }

  /** Lower-casing twice is lower-casing once. */
  lemma ToLowerIdempotent(s: string)
    ensures ToLower(ToLower(s)) == ToLower(s)
  {
    var t := ToLower(s);
    assert forall i :: 0 <= i < |t| ==> LowerChar(t[i]) == t[i];
  }

  /** Platform and Aboot detection ignore case. */
  lemma DetectionIgnoresCase(firmwareProfile: string)
    ensures PlatformFromProfile(ToLower(firmwareProfile)) == PlatformFromProfile(firmwareProfile)
    ensures IsAbootProfile(ToLower(firmwareProfile)) == IsAbootProfile(firmwareProfile)
  {
    ToLowerIdempotent(firmwareProfile);
  }

  /** The image is the Aboot `.swi` exactly for Broadcom Aboot profiles; otherwise it is the platform's `.bin`. */
  lemma FilenameShape(osVersion: string, firmwareProfile: string)
    ensures HasSuffix(ConstructFilename(osVersion, firmwareProfile), ".swi")
        <==> PlatformFromProfile(firmwareProfile) == "broadcom" && IsAbootProfile(firmwareProfile)
    ensures !(PlatformFromProfile(firmwareProfile) == "broadcom" && IsAbootProfile(firmwareProfile)) ==>
              ConstructFilename(osVersion, firmwareProfile)
              == "sonic-" + PlatformFromProfile(firmwareProfile) + "-" + osVersion + ".bin"
  {
    var f := ConstructFilename(osVersion, firmwareProfile);
    if !(PlatformFromProfile(firmwareProfile) == "broadcom" && IsAbootProfile(firmwareProfile)) {
      assert f[|f| - 4..] == ".bin";
    } else {
      assert f[|f| - 4..] == ".swi";
    }
  }

  /** The prefix and suffix around the version in a filename, which depend on the profile only. */
  function FilenameFrame(firmwareProfile: string): (string, string)
  {
    var platform := PlatformFromProfile(firmwareProfile);
    if platform == "broadcom" && IsAbootProfile(firmwareProfile) then ("sonic-aboot-broadcom-", ".swi")
    else ("sonic-" + platform + "-", ".bin")
  }

  /** The version appears verbatim, between a fixed prefix and suffix, so different versions name different files. */
  lemma FilenameKeepsVersion(v1: string, v2: string, firmwareProfile: string)
    ensures var (pre, post) := FilenameFrame(firmwareProfile);
            ConstructFilename(v1, firmwareProfile) == pre + v1 + post
    ensures ConstructFilename(v1, firmwareProfile) == ConstructFilename(v2, firmwareProfile) ==> v1 == v2
  {
    var (pre, post) := FilenameFrame(firmwareProfile);
    var f1 := ConstructFilename(v1, firmwareProfile);
    var f2 := ConstructFilename(v2, firmwareProfile);
    assert f1 == pre + v1 + post;
    assert f2 == pre + v2 + post;
    if f1 == f2 {
      assert |v1| == |v2|;
      assert v1 == f1[|pre|..|pre| + |v1|];
      assert v2 == f2[|pre|..|pre| + |v2|];
    }
  }

  /** The URL is the slash-terminated base followed by the filename. */
  lemma ImageURLShape(osVersion: string, firmwareProfile: string, imageRepoBaseURL: string)
    ensures var url := ConstructImageURL(osVersion, firmwareProfile, imageRepoBaseURL);
            var base := ImageRepoBase(imageRepoBaseURL);
            && HasPrefix(url, base)
            && url[|base|..] == ConstructFilename(osVersion, firmwareProfile)
            && url[|base| - 1] == '/'
  {
    var base := ImageRepoBase(imageRepoBaseURL);
    var url := ConstructImageURL(osVersion, firmwareProfile, imageRepoBaseURL);
    assert url[..|base|] == base;
  }

  /** A base URL that already ends in a slash is used as it is; otherwise exactly one slash is added. */
  lemma BaseGetsOneSlash(imageRepoBaseURL: string)
    requires imageRepoBaseURL != ""
    ensures HasSuffix(imageRepoBaseURL, "/") ==> ImageRepoBase(imageRepoBaseURL) == imageRepoBaseURL
    ensures !HasSuffix(imageRepoBaseURL, "/") ==> ImageRepoBase(imageRepoBaseURL) == imageRepoBaseURL + "/"
  {
  }
}
