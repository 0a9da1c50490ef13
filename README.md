# sonic-change-agent, modelled in Dafny

sonic-change-agent keeps SONiC network switches at the OS version their
Kubernetes `NetworkDevice` resource asks for. This project models its core
and proves properties of the model. The core is made of these parts:

- **Download-path policy** (`PathValidator`). A file may be downloaded only to
  a non-empty, NUL-free, absolute path whose cleaned form lies strictly inside
  `/tmp/` or `/var/tmp/`.
- **Go's `path/filepath` rules** (`FilePath`), as the policy and the
  translator use them. `Clean` is a recursive function over path segments,
  and `Join` is built on it.
- **Host-path translation** (`PathUtil`). It maps a container path to the
  host root filesystem's mount point.
- **The device-side gNOI File service** (`FileService`). `TransferToRemote`
  checks its request in a fixed order, with one gRPC code per failure, then
  downloads over HTTP into the cleaned path. The other RPCs are
  unimplemented.
- **The file-service test double** (`Mocks`). It logs every
  `TransferToRemote` call.
- **The preload workflow** (`Preload`). It builds the image URL from the OS
  version and the firmware profile, then asks the device for one transfer.
  `Preload.Execute` takes the file-service test double (`Mocks.FileService`)
  as its device, because the model has no interface type to stand for the
  gNOI client. The workflow factory (`WorkflowFactory`) creates it by exact
  name.
- **The controller's upgrade logic** (`Controller`). It is a class that
  tracks at most one upgrade in flight. An upgrade is a SetPackage request
  followed by a reboot. Both the update event and the periodic sync start
  upgrades, and reconciliation clears the tracked upgrade once the versions
  agree.
- **The resource validators** (`CrdValidation`). They are methods with the
  source's two search loops, each proved equal to a predicate that states the
  rule by membership.

Each step-by-step operation is a method. Each method is tied by its `ensures`
to a function of its inputs and old state. The properties are proved about
those functions.

Some things come from outside the program: the device's answers, the HTTP and
filesystem results, the API server's reads and writes, the clock, and the
`DEBUG_MODE`, `DRY_RUN` and `IMAGE_REPO_BASE_URL` environment variables. All
of them become parameters. Ghost logs record the controller's requests and
the file service's HTTP GETs. In the controller's log, a SetPackage or Reboot
entry is an attempt, whatever the device answered. An UpdateStatus entry is
a status write that succeeded, because a failed write ends the sync.

Files:

- `wrappers.dfy`: Option, Result and Outcome.
- `gostrings.dfy`: `strings.HasPrefix`, `HasSuffix`, `Contains` and `ToLower`.
- `filepath.dfy`, `pathvalidator.dfy` and `translator.dfy`: the path logic.
- `fileservice.dfy`, `mocks.dfy`, `unstructured.dfy` (nested field access on
  a resource), `preload.dfy`, `factory.dfy`, `controller.dfy` and `crd.dfy`:
  the rest of the core.
- The `*_examples.dfy` files state the repository's test cases on the model.

Two behaviours of the code are worth stating on their own:

- **The update-event path does not check for an upgrade already in flight**
  (pkg/controller/controller.go:190-196). Suppose an upgrade to V is tracked,
  and the desired version goes away and then comes back to V. The event then
  sends a second SetPackage for V (`Controller.UpdateEventIgnoresTracking`).
  Only the reconciliation path de-duplicates
  (`Controller.ReconciliationDoesNotRepeat`).
- **The phase-1 request sets `Activate: true`**, and the upgrade is a
  download-and-activate followed by a reboot. `executeUpgradePackage` is
  never called.

## Model

| member | source | states |
|---|---|---|
| PathValidator.ValidatePathForDownload | pkg/security/pathvalidator/validator.go:11-33 | the guards run in order: empty, then NUL, then not absolute (the error carries the path), then outside the roots (the error carries the cleaned path) |
| PathValidator.StrictlyInsideAllowedRoot | pkg/security/pathvalidator/validator.go:27-30 | definition: the cleaned segments start with `tmp` and one more, or with `var`, `tmp` and one more |
| PathValidator.ValidateIffStrictlyInside | pkg/security/pathvalidator/validator.go:11-33 | a path is accepted iff it is non-empty, NUL-free and absolute, and its cleaned segments start with `tmp` plus at least one more, or with `var`,`tmp` plus at least one more |
| PathValidator.AllowedPrefixIffInside | pkg/security/pathvalidator/validator.go:27-30 | the string-prefix test on the cleaned path is equivalent to the segment-level rule above, in both directions |
| PathValidator.NulGuardIsContains | pkg/security/pathvalidator/validator.go:17 | `strings.Contains(path, "\x00")` holds iff a NUL character occurs in the path |
| PathValidator.AcceptedHasNoTraversal | pkg/security/pathvalidator/validator.go:26-30 | an accepted path's cleaned form has no "..", "." or empty segment |
| PathValidator.ValidationSeesOnlyCleanForm | pkg/security/pathvalidator/validator.go:27-28 | two absolute NUL-free paths with the same cleaned form are accepted alike |
| PathValidator.AcceptedCleanFormIsAccepted | pkg/security/pathvalidator/validator.go:27-32 | the cleaned form of an accepted path is itself accepted and cleans to itself |
| PathValidator.CleanHasNoNul | pkg/security/pathvalidator/validator.go:17-27 | cleaning an absolute NUL-free path introduces no NUL |
| PathValidator.ValidateSegments | pkg/security/pathvalidator/validator.go:11-33 | for an absolute path given by its pieces, the verdict is decided by the pieces that cleaning keeps |
| PathValidator.JoinFromPrefix | pkg/security/pathvalidator/validator.go:28 | a slash-joined path starts with `w/rest` iff its first segment is `w` and the remainder starts with `rest` |
| PathValidator.SlashPrefix | pkg/security/pathvalidator/validator.go:28 | `"/"+x` starts with `"/"+y` iff `x` starts with `y` |
| PathValidator.SlashAfter | pkg/security/pathvalidator/validator.go:28 | in `a + "/" + t` the character after `a` is the slash |
| PathValidator.SplitKeepsChars | pkg/security/pathvalidator/validator.go:27 | splitting keeps out any character absent from the path |
| PathValidator.ResolveKeepsChars | pkg/security/pathvalidator/validator.go:27 | resolving segments keeps out any character absent from them |
| PathValidator.JoinFromKeepsChars | pkg/security/pathvalidator/validator.go:27 | joining keeps out any character absent from the segments |
| PathValidatorExamples.AcceptsTmpFile | pkg/security/pathvalidator/validator_test.go:16 | `/tmp/test.json` is accepted |
| PathValidatorExamples.AcceptsVarTmpFile | pkg/security/pathvalidator/validator_test.go:17 | `/var/tmp/image.bin` is accepted |
| PathValidatorExamples.AcceptsDeepSubdirectory | pkg/security/pathvalidator/validator_test.go:20 | `/tmp/a/b/c/file.bin` is accepted |
| PathValidatorExamples.AcceptsDoubleSlash | pkg/security/pathvalidator/validator_test.go:51 | `/tmp//file.txt` is accepted |
| PathValidatorExamples.AcceptsTrailingSlash | pkg/security/pathvalidator/validator_test.go:52 | `/tmp/dir/` is accepted |
| PathValidatorExamples.AcceptsDotSegment | pkg/security/pathvalidator/validator_test.go:53 | `/tmp/./file.txt` is accepted |
| PathValidatorExamples.AcceptsTraversalThatStaysInside | pkg/security/pathvalidator/validator_test.go:106 | `/tmp/link/../etc/passwd` cleans to `/tmp/etc/passwd` and is accepted |
| PathValidatorExamples.RefusesEtc | pkg/security/pathvalidator/validator_test.go:29 | `/etc/passwd` is refused as outside the roots |
| PathValidatorExamples.RefusesRootFile | pkg/security/pathvalidator/validator_test.go:31 | `/file.txt` is refused as outside the roots |
| PathValidatorExamples.RefusesVarLog | pkg/security/pathvalidator/validator_test.go:33 | `/var/log/file.txt` is refused as outside the roots |
| PathValidatorExamples.RefusesTraversalFromTmp | pkg/security/pathvalidator/validator_test.go:37 | `/tmp/../etc/passwd` is refused, cleaned to `/etc/passwd` |
| PathValidatorExamples.RefusesTraversalFromVarTmp | pkg/security/pathvalidator/validator_test.go:38 | `/var/tmp/../etc/passwd` is refused, cleaned to `/var/etc/passwd` |
| PathValidatorExamples.RefusesComplexTraversal | pkg/security/pathvalidator/validator_test.go:39 | `/tmp/dir/../../../etc/passwd` is refused, cleaned to `/etc/passwd` |
| PathValidatorExamples.RefusesDotTraversal | pkg/security/pathvalidator/validator_test.go:40 | `/tmp/./../../etc/passwd` is refused, cleaned to `/etc/passwd` |
| PathValidatorExamples.RefusesNestedTraversal | pkg/security/pathvalidator/validator_test.go:41 | `/tmp/a/b/../../../etc/passwd` is refused, cleaned to `/etc/passwd` |
| PathValidatorExamples.RefusesEscapeThroughSubdirectory | pkg/security/pathvalidator/validator_test.go:82 | `/tmp/link/../../etc/passwd` is refused, cleaned to `/etc/passwd` |
| PathValidatorExamples.RefusesBareTmp | pkg/security/pathvalidator/validator_test.go:44 | `/tmp` itself is refused |
| PathValidatorExamples.RefusesBareVarTmp | pkg/security/pathvalidator/validator_test.go:45 | `/var/tmp` itself is refused |
| PathValidatorExamples.RefusesTmpdir | pkg/security/pathvalidator/validator_test.go:46 | `/tmpdir/file.txt` is refused |
| PathValidatorExamples.RefusesVartmp | pkg/security/pathvalidator/validator_test.go:47 | `/vartmp/file.txt` is refused |
| PathValidatorExamples.RefusesTmpBackup | pkg/security/pathvalidator/validator_test.go:48 | `/tmp-backup/file.txt` is refused |
| PathValidatorExamples.RefusesUpperCaseTmp | pkg/security/pathvalidator/validator_test.go:85 | `/TMP/file.txt` is refused: the comparison is case-sensitive |
| PathValidatorExamples.RefusesEmpty | pkg/security/pathvalidator/validator_test.go:23 | the empty path is refused as empty |
| PathValidatorExamples.RefusesRelativeFile | pkg/security/pathvalidator/validator_test.go:24 | `test.json` is refused as not absolute |
| PathValidatorExamples.RefusesRelativeSubdirectory | pkg/security/pathvalidator/validator_test.go:25 | `downloads/file.bin` is refused as not absolute |
| PathValidatorExamples.RefusesRelativeWithDot | pkg/security/pathvalidator/validator_test.go:26 | `./test.json` is refused as not absolute |
| PathValidatorExamples.RefusesRelativeTraversal | pkg/gnoi/server/services/file/service_test.go:170-181 | `../../../etc/passwd` is refused as not absolute |
| PathValidatorExamples.RefusesNullByte | pkg/security/pathvalidator/validator_test.go:93-94 | paths with an embedded NUL are refused for the NUL, before any other check |
| FilePath.Split | pkg/security/pathvalidator/validator.go:27 | splitting yields at least one piece |
| FilePath.IsAbs | pkg/security/pathvalidator/validator.go:22 | definition: `filepath.IsAbs` on Unix, a leading slash |
| FilePath.Join | pkg/gnoi/server/pathutil/translator.go:21 | definition: `strings.Join` of the segments with "/", the string the cleaning lemmas split back |
| FilePath.Join2 | pkg/gnoi/server/pathutil/translator.go:21 | `filepath.Join(a, b)`: empty iff both parts are, and otherwise already clean |
| FilePath.SplitJoin | pkg/security/pathvalidator/validator.go:27 | splitting the slash-join of slash-free segments gives them back |
| FilePath.SplitJoinFrom | pkg/security/pathvalidator/validator.go:27 | the same for every suffix of the segments |
| FilePath.SplitAppend | pkg/security/pathvalidator/validator.go:27 | splitting `a/b` is splitting `a`, then `b` |
| FilePath.SplitName | pkg/security/pathvalidator/validator.go:27 | a slash-free string splits into itself |
| FilePath.SplitHasNoSlash | pkg/security/pathvalidator/validator.go:27 | no piece of a split holds a slash |
| FilePath.JoinFromHead | pkg/security/pathvalidator/validator.go:27 | a join starts with its first segment's first character |
| FilePath.JoinFromShift | pkg/security/pathvalidator/validator.go:27 | joining from position i+1 after a leading empty piece is joining from i |
| FilePath.StepPreservesNormal | pkg/security/pathvalidator/validator.go:27 | one cleaning step keeps the kept names normal: no empty, "." or slash, and ".." only at the front of a relative path |
| FilePath.ResolveIsNormal | pkg/security/pathvalidator/validator.go:27 | resolving any slash-free segments yields normal names |
| FilePath.CleanSegmentsAreNormal | pkg/security/pathvalidator/validator.go:27 | the cleaned segments of any path are normal |
| FilePath.ResolveNormalIsIdentity | pkg/security/pathvalidator/validator.go:27 | resolving normal names keeps them all |
| FilePath.ResolveSkipsLeadingEmpty | pkg/security/pathvalidator/validator.go:27 | a leading empty piece changes nothing |
| FilePath.ResolvePrefix | pkg/security/pathvalidator/validator.go:27 | the first n steps see only the first n pieces |
| FilePath.ResolveAppendNames | pkg/security/pathvalidator/validator.go:27 | plain names appended after a prefix are kept after what the prefix resolves to |
| FilePath.ResolveAppendEmpty | pkg/security/pathvalidator/validator.go:27 | an appended empty piece is dropped |
| FilePath.RenderRoundTrip | pkg/security/pathvalidator/validator.go:27 | rendering normal names gives a non-empty path with the right absoluteness whose cleaned segments are those names |
| FilePath.Clean | pkg/security/pathvalidator/validator.go:27 | `filepath.Clean`: never "", keeps a non-empty path absolute or relative, and has the same cleaned segments as its input |
| FilePath.CleanIdempotent | pkg/gnoi/server/pathutil/translator.go:20 | cleaning a cleaned path changes nothing |
| FilePath.SplitOfClean | pkg/security/pathvalidator/validator.go:27-28 | the pieces of a cleaned absolute path are "" followed by its cleaned segments, or it is "/" |
| FilePath.CleanByParts | pkg/security/pathvalidator/validator.go:27 | an absolute path given by its pieces cleans to the rendering of the names resolving keeps |
| GoStrings.ContainsIffOccurs | pkg/workflow/preload.go:101-120 | `strings.Contains` holds iff the substring occurs at some position |
| GoStrings.ToLower | pkg/workflow/preload.go:99 | lower-casing keeps the length and maps each character through the ASCII case map |
| PathUtil.NewTranslator | pkg/gnoi/server/pathutil/translator.go:11-15 | the translator holds the mount point it was given |
| PathUtil.GetHostRootFS | pkg/gnoi/server/pathutil/translator.go:25-27 | definition: the stored mount point (`HostRootFSRoundTrip` ties it to the constructor) |
| PathUtil.TranslateToHost | pkg/gnoi/server/pathutil/translator.go:19-22 | definition: `filepath.Join(hostRootFS, filepath.Clean(containerPath))`; its properties are the PathUtil lemmas below |
| PathUtil.HostRootFSRoundTrip | pkg/gnoi/server/pathutil/translator.go:25-27 | `GetHostRootFS` returns the mount point passed to `NewTranslator` |
| PathUtil.EmptyHostRootIsClean | pkg/gnoi/server/pathutil/translator.go:19-22 | with an empty mount point a path translates to its cleaned form |
| PathUtil.TranslationIsClean | pkg/gnoi/server/pathutil/translator.go:19-22 | every translation is already clean |
| PathUtil.EquivalentPathsTranslateAlike | pkg/gnoi/server/pathutil/translator.go:20-21 | container paths with the same cleaned form translate alike |
| PathUtil.TranslationStaysUnderHostRoot | pkg/gnoi/server/pathutil/translator.go:19-22 | for an absolute container path, the translation's cleaned segments are the mount point's followed by the path's; nothing escapes the mount point |
| PathUtilExamples.TranslateBySegments | pkg/gnoi/server/pathutil/translator.go:19-22 | a translation given by the pieces of mount point and path is the rendering of both kept parts |
| PathUtilExamples.TranslateWithoutHostBySegments | pkg/gnoi/server/pathutil/translator.go:19-22 | with an empty mount point, the translation is the path's kept pieces rendered |
| PathUtilExamples.TranslatesTmpFile | pkg/gnoi/server/pathutil/translator_test.go:28-32 | `/tmp/test.bin` under `/mnt/host` is `/mnt/host/tmp/test.bin` |
| PathUtilExamples.TranslatesVarTmpFile | pkg/gnoi/server/pathutil/translator_test.go:34-38 | `/var/tmp/downloads/file.bin` under `/mnt/host` |
| PathUtilExamples.TranslatesUncleanPath | pkg/gnoi/server/pathutil/translator_test.go:40-44 | `/tmp//test/../final.bin` becomes `/mnt/host/tmp/final.bin` |
| PathUtilExamples.TranslatesRoot | pkg/gnoi/server/pathutil/translator_test.go:46-50 | `/` becomes `/mnt/host` |
| PathUtilExamples.TranslatesUnderOtherMountPoint | pkg/gnoi/server/pathutil/translator_test.go:52-56 | `/tmp/test.bin` under `/host-fs` is `/host-fs/tmp/test.bin` |
| PathUtilExamples.TranslatesWithEmptyHostRoot | pkg/gnoi/server/pathutil/translator_test.go:58-62 | with an empty mount point `/tmp/test.bin` stays `/tmp/test.bin` |
| PathUtilExamples.TranslatesDoubleSlash | pkg/gnoi/server/pathutil/translator_test.go:83-88 | `/tmp//test.bin` becomes `/mnt/host/tmp/test.bin` |
| PathUtilExamples.TranslatesDotSegment | pkg/gnoi/server/pathutil/translator_test.go:84-88 | `/tmp/./test.bin` becomes `/mnt/host/tmp/test.bin` |
| PathUtilExamples.TranslatesParentSegment | pkg/gnoi/server/pathutil/translator_test.go:85-88 | `/tmp/subdir/../test.bin` becomes `/mnt/host/tmp/test.bin` |
| PathUtilExamples.RelativePathLeavesHostRoot | pkg/gnoi/server/pathutil/translator.go:19-22 | a relative container path is not confined: `../../etc` under `/mnt/host` becomes `/etc` |
| FileService.CheckTransferRequest | pkg/gnoi/server/services/file/service.go:53-77 | a request passes iff the remote download is present, uses HTTP and has a URL, and the local path passes the download policy; the download then goes to the cleaned local path; Unimplemented means a non-HTTP protocol |
| FileService.ChecksRunInOrder | pkg/gnoi/server/services/file/service.go:53-75 | each validation error is reported exactly when every earlier check passed and this one fails |
| FileService.CheckCodes | pkg/gnoi/server/services/file/service.go:54-75 | validation never answers Internal; InvalidArgument means exactly a missing descriptor, URL or local path |
| FileService.DownloadVerdict | pkg/gnoi/server/services/file/service.go:95-139 | the download succeeds iff the request is built, the server answers 200, and the directory, the file and the copy all succeed; a non-200 answer is reported with its status text |
| FileService.FilesAfterDownload | pkg/gnoi/server/services/file/service.go:114-131 | only the destination file can change; it holds the body after a complete copy |
| FileService.Service.constructor | pkg/gnoi/server/services/file/service.go:33-40 | a new service holds the given files and has issued no request |
| FileService.Service.DownloadFile | pkg/gnoi/server/services/file/service.go:95-139 | the result is the download verdict; one GET is logged once the request is built; the files become those after the download |
| FileService.Service.TransferToRemote | pkg/gnoi/server/services/file/service.go:48-92 | the result is the validation verdict followed by the download; a refused request changes nothing and issues no GET |
| FileService.DownloadTargetIsConfined | pkg/gnoi/server/services/file/service.go:73-80 | a validated download goes to an already clean path strictly inside `/tmp` or `/var/tmp` |
| FileService.TransferSucceedsIff | pkg/gnoi/server/services/file/service.go:48-92 | the RPC succeeds iff validation passes and the download succeeds; it answers Internal iff the download failed |
| FileService.RejectedRequestIgnoresOutcome | pkg/gnoi/server/services/file/service.go:53-75 | a refused request's answer does not depend on the network or the disk |
| FileService.BadStatusIsInternal | pkg/gnoi/server/services/file/service.go:110-112 | a non-200 answer to a valid request is Internal, carrying the status text |
| FileService.TransferWritesOnlyInsideAllowedRoots | pkg/gnoi/server/services/file/service.go:73-80 | any file a transfer changes lies strictly inside an allowed root |
| FileService.CallOtherRpc | pkg/gnoi/server/services/file/service.go:142-159 | `Get`, `Put`, `Stat` and `Remove` always answer Unimplemented, each naming itself |
| Unstructured.NestedField | pkg/workflow/preload.go:38 | a one-step lookup finds the field when present and is Missing otherwise |
| Unstructured.NestedString | pkg/workflow/preload.go:38-43 | a string is found iff the field is there and holds a string, and it is that string |
| Unstructured.NestedMap | pkg/controller/crd_test.go:335-338 | an object is found iff the field is there and holds an object |
| Unstructured.NestedStringInSpec | pkg/controller/crd_test.go:351-370 | a `spec.<key>` lookup is the `<key>` lookup in the spec object |
| Mocks.LastCall | pkg/gnoi/mocks/file.go:57-65 | errors iff the log is empty; otherwise returns a logged call |
| Mocks.LastCallOfAppend | pkg/gnoi/mocks/file.go:37-65 | after a call is appended, it is the last call |
| Mocks.FileService.constructor | pkg/gnoi/mocks/file.go:28-34 | a new double has an empty log and succeeds on every call |
| Mocks.FileService.TransferToRemote | pkg/gnoi/mocks/file.go:37-47 | appends exactly one `(sourceURL, remotePath)` record, whatever the outcome; answers with the configured function; leaves the function unchanged |
| Mocks.FileService.ResetCalls | pkg/gnoi/mocks/file.go:68-73 | empties the log and keeps the configured function |
| Mocks.CallLogScenario | pkg/gnoi/mocks/file.go:28-73 | a new double answers a call with success, counts it once and reports it as the last call; a reset brings the count back to zero |
| Preload.GetName | pkg/workflow/preload.go:31-33 | the workflow is named "preload" |
| Preload.PlatformFromProfile | pkg/workflow/preload.go:98-116 | the platform is always one of mellanox, broadcom, cisco or arista |
| Preload.PlatformIsFirstMatch | pkg/workflow/preload.go:98-116 | the platform is the first of the four names that the lower-cased profile contains, else mellanox |
| Preload.FirstContained | pkg/workflow/preload.go:101-115 | a first-match search returns one of the names or the fallback |
| Preload.IsAbootProfile | pkg/workflow/preload.go:119-121 | definition: the lower-cased profile contains "aboot" |
| Preload.ConstructFilename | pkg/workflow/preload.go:85-95 | definition; `FilenameShape` and `FilenameKeepsVersion` state its shape |
| Preload.ConstructImageURL | pkg/workflow/preload.go:69-82 | definition; `ImageURLShape` states its shape |
| Preload.OsVersion | pkg/workflow/preload.go:38-41 | present iff `spec.osVersion` is a non-empty string, and then it is that string |
| Preload.ToLowerIdempotent | pkg/workflow/preload.go:98-121 | lower-casing twice is lower-casing once |
| Preload.DetectionIgnoresCase | pkg/workflow/preload.go:98-121 | platform and Aboot detection give the same answer on the lower-cased profile |
| Preload.FilenameShape | pkg/workflow/preload.go:85-95 | the image is a `.swi` exactly for Broadcom Aboot profiles; otherwise it is `sonic-<platform>-<version>.bin` |
| Preload.FilenameKeepsVersion | pkg/workflow/preload.go:85-95 | the version appears verbatim between a profile-determined prefix and suffix, so different versions give different filenames |
| Preload.ImageRepoBase | pkg/workflow/preload.go:70-78 | the base URL always ends in "/"; it extends the configured value, or is the default when none is configured |
| Preload.BaseGetsOneSlash | pkg/workflow/preload.go:75-78 | a base ending in "/" is kept as it is; otherwise exactly one "/" is added |
| Preload.ImageURLShape | pkg/workflow/preload.go:69-82 | the URL is the slash-terminated base followed by the filename |
| Preload.Execute | pkg/workflow/preload.go:36-66 | without a non-empty OS version it fails with no call; otherwise it makes exactly one transfer of the image URL to `/tmp/sonic-image.bin` and wraps an error from it |
| PreloadExamples.EmptyProfileUsesDefaults | pkg/workflow/preload_test.go:252-262 | with no profile and no configured base, the URL is `http://localhost:8080/images/sonic-mellanox-202505.01.bin` |
| PreloadExamples.MissingVersionMakesNoCall | pkg/workflow/preload_test.go:57-81 | without `spec.osVersion` the workflow fails as unspecified and makes no transfer |
| PreloadExamples.EmptyVersionMakesNoCall | pkg/workflow/preload_test.go:83-108 | with an empty `spec.osVersion` the workflow fails the same way with no transfer |
| PreloadExamples.DefaultProfileCall | pkg/workflow/preload_test.go:21-55 | a device with only a version makes one transfer of `http://localhost:8080/images/sonic-mellanox-202505.01.bin` to `/tmp/sonic-image.bin` and succeeds |
| WorkflowFactory.NewWorkflow | pkg/workflow/factory.go:10-21 | a workflow is made iff the type is "preload" or "OSUpgrade-PreloadImage"; otherwise the error names the type; the two results exclude each other |
| WorkflowFactory.ErrorMessage | pkg/workflow/factory.go:19 | the message is "unknown workflow type: " followed by the type |
| WorkflowFactory.MessageNamesType | pkg/workflow/factory.go:19 | two refused types give the same message iff they are the same type |
| WorkflowFactory.MadeWorkflowIsPreload | pkg/workflow/factory.go:13-17 | every workflow made is the preload workflow |
| WorkflowFactory.CaseSensitive | pkg/workflow/factory_test.go:101-137 | other capitalisations are refused; the two exact names are accepted |
| WorkflowFactory.UnsupportedOperations | pkg/workflow/factory_test.go:61-99 | other operation names, the empty name and blank names are refused |
| Controller.ImageURL | pkg/controller/controller.go:242-251 | the spec's `firmwareURL` when non-empty; otherwise `http://10.250.0.1:8888/sonic-vs-` + version + `.bin` |
| Controller.UpgradeEffect | pkg/controller/controller.go:210-303 | `handleUpgradeOperation`: nothing happens when desired equals current; otherwise afterwards either nothing is tracked or exactly the new target is, from `now`, in the upgrade phase |
| Controller.ReconciliationEffect | pkg/controller/controller.go:449-505 | `checkReconciliation`: afterwards the old upgrade is kept, or nothing is tracked, or the object's desired version is tracked from `now` |
| Controller.SyncEffect | pkg/controller/controller.go:393-446 | `syncOSVersion`: no status write follows the first request |
| Controller.UpdateEventEffect | pkg/controller/controller.go:165-200 | `onNetworkDeviceUpdate`: the event path never writes the status |
| Controller.FallbackURLNamesVersion | pkg/controller/controller.go:249-251 | two versions give the same fallback URL iff they are equal |
| Controller.TriggerIsChangedNeed | pkg/controller/controller.go:182-197 | the update trigger fires iff the desired version changed, is non-empty, and differs from the current one |
| Controller.UpgradeRequests | pkg/controller/controller.go:253-282 | an upgrade sends SetPackage (activate on, to `/tmp/sonic-upgrade.bin`) and then a reboot only after SetPackage succeeds; nothing is sent in debug mode |
| Controller.UpgradePhasesInOrder | pkg/controller/controller.go:238-303 | a failed phase 1 leaves nothing tracked and no reboot; a failed reboot leaves nothing tracked; after both succeed the target stays tracked |
| Controller.ReconciliationDoesNotRepeat | pkg/controller/controller.go:477-482 | after a successful upgrade, reconciliation for the same target while the device still differs sends nothing and keeps it tracked |
| Controller.ReconciliationSettles | pkg/controller/controller.go:497-505 | when the desired version is empty or equals the current one, reconciliation clears the state and sends nothing |
| Controller.ReconciliationSendsOnlyWhenNeeded | pkg/controller/controller.go:461-505 | reconciliation sends only when the object was read, its desired version differs from both the running one and the object's status, that version is not tracked, and neither dry-run nor debug mode is on; the first request is SetPackage for it |
| Controller.ReconciliationReplacesStaleTarget | pkg/controller/controller.go:470-495 | the converse: under those conditions SetPackage for the desired version is sent first, any other tracked target is dropped, and the new one is tracked iff both phases succeed |
| Controller.DryRunSendsNothing | pkg/controller/controller.go:483-488 | with dry-run on, reconciliation sends nothing |
| Controller.UpdateEventIgnoresTracking | pkg/controller/controller.go:190-197 | an update event that fires sends SetPackage even when that version is already tracked |
| Controller.SyncWritesStatusFirst | pkg/controller/controller.go:393-446 | a sync with a failed query or status write has no effect; otherwise its first request is the status write of the version read (the fixed debug version in debug mode) |
| Controller.EntryPointsKeepWellTracked | pkg/controller/controller.go:713-726 | both entry points keep the tracked upgrade in the one upgrade phase, toward a non-empty version |
| Controller.Controller.constructor | pkg/controller/controller.go:37-47 | a new controller tracks nothing and has sent nothing |
| Controller.Controller.IsUpgradeInProgress | pkg/controller/controller.go:681-710 | true iff an upgrade to the target is tracked, which is then kept; otherwise nothing is tracked afterwards |
| Controller.Controller.StartUpgrade | pkg/controller/controller.go:713-727 | exactly `{target, now, "download+activate+reboot"}` is tracked |
| Controller.Controller.ClearUpgrade | pkg/controller/controller.go:730-741 | nothing is tracked afterwards, whatever was before, so clearing twice is clearing once |
| Controller.Controller.ExecuteDownloadPackage | pkg/controller/controller.go:575-638 | sends one SetPackage with activate on unless in debug mode; succeeds as the device answers, or always in debug mode |
| Controller.Controller.ExecuteSystemReboot | pkg/controller/controller.go:641-678 | sends one reboot unless in debug mode; succeeds as the device answers, or always in debug mode |
| Controller.Controller.HandleUpgradeOperation | pkg/controller/controller.go:210-303 | the new tracked upgrade and the requests sent are those of `UpgradeEffect`: nothing when desired equals current |
| Controller.Controller.CheckReconciliation | pkg/controller/controller.go:449-505 | the new state and the requests sent are those of `ReconciliationEffect` |
| Controller.Controller.SyncOSVersion | pkg/controller/controller.go:393-446 | the new state and the requests sent are those of `SyncEffect` |
| Controller.Controller.OnNetworkDeviceUpdate | pkg/controller/controller.go:165-200 | the new state and the requests sent are those of `UpdateEventEffect` |
| ControllerExamples.UpgradeLifecycle | pkg/controller/controller.go:165-505 | an event from v1 to v2 sends SetPackage from the fallback URL and a reboot and tracks v2; a sync at v1 adds only the status write and keeps v2 tracked; a sync at v2 adds the status write and forgets the upgrade |
| CrdValidation.IsOneOf | pkg/controller/crd_test.go:356-365 | the linear search finds `s` iff `s` is in the candidates |
| CrdValidation.SpecValid | pkg/controller/crd_test.go:347-401 | definition: a known type, operation and action both present or both absent, and an allowed pair |
| CrdValidation.SchemaValid | pkg/controller/crd_test.go:322-345 | definition: the API version, the kind, a non-empty name, a spec object, and a valid spec |
| CrdValidation.ValidateNetworkDeviceSpec | pkg/controller/crd_test.go:347-401 | returns exactly `SpecValid`: a known type, both or neither of operation and action, and an allowed pair |
| CrdValidation.ValidateNetworkDeviceSchema | pkg/controller/crd_test.go:322-345 | returns exactly `SchemaValid`: the API version, the kind, a non-empty name, a spec object, and a valid spec |
| CrdValidation.SchemaValidImpliesSpecValid | pkg/controller/crd_test.go:344 | a valid resource has a valid spec |
| CrdValidation.CombinationsListed | pkg/controller/crd_test.go:377-399 | the allowed pairs are exactly the six listed |
| CrdValidation.SpecValidOnSpecObject | pkg/controller/crd_test.go:349-399 | validity is decided by the spec object's type, operation and action fields |
| CrdValidation.TypeAloneIsValid | pkg/controller/crd_test.go:264-270 | a spec with a known type and no operation fields is valid |
| CrdValidation.OperationNeedsAction | pkg/controller/crd_test.go:368-374 | an operation without an action, or an action without an operation, is invalid |
| CrdValidation.UnknownTypeIsInvalid | pkg/controller/crd_test.go:349-365 | a missing or unknown type is invalid whatever else the spec holds |
| CrdValidationExamples.CompleteResourceIsValid | pkg/controller/crd_test.go:18-45 | the complete example resource is valid |
| CrdValidationExamples.MinimalResourceIsValid | pkg/controller/crd_test.go:47-60 | the minimal example resource is valid |
| CrdValidationExamples.WrongApiVersionIsInvalid | pkg/controller/crd_test.go:65-79 | apiVersion `v1` is invalid |
| CrdValidationExamples.WrongKindIsInvalid | pkg/controller/crd_test.go:82-96 | kind `Device` is invalid |
| CrdValidationExamples.MissingNameIsInvalid | pkg/controller/crd_test.go:99-111 | a resource without a name is invalid |
| CrdValidationExamples.MissingSpecIsInvalid | pkg/controller/crd_test.go:114-126 | a resource without a spec is invalid |
| CrdValidationExamples.OperationCombinationIsValid | pkg/controller/crd_test.go:128-146 | OSUpgrade with PreloadImage is valid |
| CrdValidationExamples.SpecCases | pkg/controller/crd_test.go:244-311 | the five spec-validation cases give the expected verdicts |
| CrdValidationExamples.MismatchedPairIsInvalid | pkg/controller/crd_test.go:377-399 | Reboot with PreloadImage is invalid; Reboot with HardReboot is valid |

## Left out

- The network, HTTP and filesystem work is not modelled: gRPC dialing, `queryOSVersion`'s OS.Verify call, the HTTP GET, `MkdirAll`, `os.Create` and `io.Copy`. Their results are parameters (`DeviceAnswers`, `HttpOutcome`, an optional queried version).
- `MkdirAll`'s directory argument is not modelled; only whether the call succeeded matters.
- PathUtil.TranslationStaysUnderHostRoot: covers absolute container paths only. `TranslateToHost` has no guard against relative ones, and `PathUtilExamples.RelativePathLeavesHostRoot` shows one that leaves the mount point.
- The Kubernetes plumbing is not modelled: the informer, `NewController`, `Run`, and the API-server Get and UpdateStatus. A read-back object is a parameter (`None` when the read failed), and a status write is a success flag plus a logged request.
- Mutexes, the ticker loop `StartOSVersionSync`, the context timeouts and the `time.Sleep` of debug mode are not modelled. Calls are sequential, and the clock reading is an integer parameter.
- `DEBUG_MODE`, `DRY_RUN` and `IMAGE_REPO_BASE_URL` are parameters rather than environment reads.
- Error texts are not modelled; errors are kinds and gRPC codes. One message is an exception: the factory's "unknown workflow type: " text. The service test expects "must start with /tmp/ or /var/tmp/" (pkg/gnoi/server/services/file/service_test.go:193), while the validator produces "must be inside /tmp/ or /var/tmp/ directories". The model keeps only the kind.
- GoStrings.ToLower: only ASCII letters are case-mapped. Go's `strings.ToLower` also maps non-ASCII letters.
- Preload.PlatformFromProfile: profile strings that name a platform ("SONiC-Cisco-Profile" and the like) are not stated as concrete lemmas. `PlatformIsFirstMatch` and `FilenameShape` cover them for every profile.
- The path test cases are stated with each path written as the slash-join of its pieces, for example `Join(["", "tmp", "test.json"])` for `/tmp/test.json`. `FilePath.SplitJoin` proves that this form names the same string.
- `ValidatePathForDownload` uses only `Clean`, `IsAbs` and prefix tests of Go's `path/filepath` and `strings` packages, and only their Unix behaviour is modelled. Windows volume names are not modelled.
- The onNetworkDeviceAdd and onNetworkDeviceDelete handlers only log, so they are not modelled. `executeUpgradePackage` is never called, so it is not modelled either.
- `SetHTTPClient` and the service's unused `baseDir` are not modelled beyond the constructor argument.
- The mock's `GetTransferToRemoteCallCount` and `GetLastTransferToRemoteCall` are functions over the log. The first is its length, and the second is `Mocks.LastCall` of it.
- The startup and wiring files, the gNOI client wrappers and the Python test scripts are not part of this model.
