/**
 * The device-side gNOI File service (pkg/gnoi/server/services/file/service.go).
 * `TransferToRemote` checks its request in a fixed order, failing fast with
 * a gRPC status code, and then downloads the remote URL over HTTP into the
 * cleaned local path. The HTTP exchange and the filesystem calls are not
 * executed here: their results arrive as an `HttpOutcome`, and the files the
 * service writes are a map from path to contents.
 */
module FileService {
  import opened Wrappers
  import opened FilePath
  import opened PathValidator

  /** The protocols of gNOI's `common.RemoteDownload`. */
  datatype Protocol = Unknown | Sftp | Http | Https | Scp

  /** `common.RemoteDownload`: where to fetch from, and how. */
  datatype RemoteDownload = RemoteDownload(path: string, protocol: Protocol)

  /** `file.TransferToRemoteRequest`; the remote download descriptor may be missing (nil). */
  datatype TransferRequest = TransferRequest(localPath: string, remoteDownload: Option<RemoteDownload>)

  /** The gRPC status codes the service answers with. */
  datatype Code = InvalidArgument | Unimplemented | PermissionDenied | Internal

  /** Why `downloadFile` gave up. */
  datatype DownloadError =
    | RequestNotCreated
    | TransportFailed
    | BadStatus(status: string)
    | DirectoryNotCreated
    | FileNotCreated(path: string)
    | WriteFailed

  /** Why an RPC failed; `CodeOf` gives its status code. */
  datatype RpcError =
    | MissingRemoteDownload
    | UnsupportedProtocol(protocol: Protocol)
    | MissingRemoteUrl
    | MissingLocalPath
    | InvalidDownloadPath(reason: PathError)
    | DownloadFailed(cause: DownloadError)
    | NotImplemented(rpc: string)

  function CodeOf(e: RpcError): Code
  {
    match e
    case MissingRemoteDownload => InvalidArgument
    case UnsupportedProtocol(_) => Unimplemented
    case MissingRemoteUrl => InvalidArgument
    case MissingLocalPath => InvalidArgument
    case InvalidDownloadPath(_) => PermissionDenied
    case DownloadFailed(_) => Internal
    case NotImplemented(_) => Unimplemented
  }

  /** A validated request: fetch `url` into the cleaned local path `dest`. */
  datatype Download = Download(url: string, dest: string)

  /** The empty `file.TransferToRemoteResponse`. */
  datatype TransferResponse = TransferResponse

  /**
   * The validation chain of `TransferToRemote`: the first failing check
   * decides the error; when all pass, the download goes to `Clean(localPath)`.
   */
  function CheckTransferRequest(req: TransferRequest): (r: Result<Download, RpcError>)
    ensures r.Success? <==>
              && req.remoteDownload.Some?
              && req.remoteDownload.value.protocol == Http
              && req.remoteDownload.value.path != ""
              && ValidatePathForDownload(req.localPath) == Pass
    ensures r.Success? ==> r.value == Download(req.remoteDownload.value.path, Clean(req.localPath))
    ensures r.Failure? && CodeOf(r.error) == Unimplemented ==>
              req.remoteDownload.Some? && req.remoteDownload.value.protocol != Http
  {
    if req.remoteDownload.None? then Failure(MissingRemoteDownload)
    else if req.remoteDownload.value.protocol != Http then
      Failure(UnsupportedProtocol(req.remoteDownload.value.protocol))
    else if req.remoteDownload.value.path == "" then Failure(MissingRemoteUrl)
    else if req.localPath == "" then Failure(MissingLocalPath)
    else if ValidatePathForDownload(req.localPath).Fail? then
      Failure(InvalidDownloadPath(ValidatePathForDownload(req.localPath).error))
    else Success(Download(req.remoteDownload.value.path, Clean(req.localPath)))
  }

  /**
   * What the outside world does during one download: whether the request
   * could be built, whether the server answered and with which status, the
   * body it sent, and how the directory creation, file creation and copy
   * went (`copied` bytes reach the file when the copy fails).
   */
  datatype HttpOutcome = HttpOutcome(
    requestBuilt: bool,
    responded: bool,
    statusCode: int,
    status: string,
    body: seq<bv8>,
    dirCreated: bool,
    fileCreated: bool,
    copyOk: bool,
    copied: nat)

  /** The HTTP status `downloadFile` accepts (`http.StatusOK`). */
  const StatusOK := 200

  /** `downloadFile`'s verdict, checking in its own order. */
  function DownloadVerdict(dest: string, o: HttpOutcome): (r: Outcome<DownloadError>)
    ensures r == Pass <==>
              o.requestBuilt && o.responded && o.statusCode == StatusOK
              && o.dirCreated && o.fileCreated && o.copyOk
    ensures o.requestBuilt && o.responded && o.statusCode != StatusOK ==> r == Fail(BadStatus(o.status))
  {
    if !o.requestBuilt then Fail(RequestNotCreated)
    else if !o.responded then Fail(TransportFailed)
    else if o.statusCode != StatusOK then Fail(BadStatus(o.status))
    else if !o.dirCreated then Fail(DirectoryNotCreated)
    else if !o.fileCreated then Fail(FileNotCreated(dest))
    else if !o.copyOk then Fail(WriteFailed)
    else Pass
  }

  /** The download reaches `os.Create`, which truncates the destination. */
  predicate ReachesCreate(o: HttpOutcome)
  {
    o.requestBuilt && o.responded && o.statusCode == StatusOK && o.dirCreated && o.fileCreated
  }

  /** What ends up in the destination file once it was created. */
  function Written(o: HttpOutcome): seq<bv8>
  {
    if o.copyOk then o.body
    else if o.copied <= |o.body| then o.body[..o.copied]
    else o.body
  }

  /** The files after a download into `dest`: only `dest` can change, and only once it was created. */
  function FilesAfterDownload(files: map<string, seq<bv8>>, dest: string, o: HttpOutcome): (r: map<string, seq<bv8>>)
    ensures forall p :: p in r && (p !in files || r[p] != files[p]) ==> p == dest
    ensures forall p :: p in files ==> p in r
    ensures ReachesCreate(o) && o.copyOk ==> dest in r && r[dest] == o.body
  {
    if ReachesCreate(o) then files[dest := Written(o)] else files
  }

  /** The whole RPC as a function of the request and the outside world. */
  function TransferToRemoteResult(req: TransferRequest, o: HttpOutcome): Result<TransferResponse, RpcError>
  {
    match CheckTransferRequest(req)
    case Failure(e) => Failure(e)
    case Success(d) =>
      match DownloadVerdict(d.dest, o)
      case Fail(e) => Failure(DownloadFailed(e))
      case Pass => Success(TransferResponse)
  }

  /** The service; `requests` records the HTTP GETs it issued, in order. */
  class Service {
    var files: map<string, seq<bv8>>
    ghost var requests: seq<string>

    /** `NewService` over the files already present; `baseDir` is not used by the service. */
    constructor (baseDir: string, files0: map<string, seq<bv8>>)
      ensures files == files0 && requests == []
    {
      files := files0;
      requests := [];
    }

    /** `downloadFile`: GET `url` and stream the body into `destPath`. */
    method DownloadFile(url: string, destPath: string, o: HttpOutcome) returns (r: Outcome<DownloadError>)
      modifies this
      ensures r == DownloadVerdict(destPath, o)
      ensures requests == old(requests) + (if o.requestBuilt then [url] else [])
      ensures files == FilesAfterDownload(old(files), destPath, o)
    {
      if !o.requestBuilt {
        return Fail(RequestNotCreated);
      }
      requests := requests + [url];
      if !o.responded {
        return Fail(TransportFailed);
      }
      if o.statusCode != StatusOK {
        return Fail(BadStatus(o.status));
      }
      if !o.dirCreated {
        return Fail(DirectoryNotCreated);
      }
      if !o.fileCreated {
        return Fail(FileNotCreated(destPath));
      }
      files := files[destPath := []];
      if !o.copyOk {
        files := files[destPath := Written(o)];
        return Fail(WriteFailed);
      }
      files := files[destPath := o.body];
      return Pass;
    }

    /** `TransferToRemote`: validate, then download into the cleaned local path. */
    method TransferToRemote(req: TransferRequest, o: HttpOutcome) returns (r: Result<TransferResponse, RpcError>)
      modifies this
      ensures r == TransferToRemoteResult(req, o)
      ensures CheckTransferRequest(req).Failure? ==> requests == old(requests) && files == old(files)
      ensures CheckTransferRequest(req).Success? ==>
                var d := CheckTransferRequest(req).value;
                && requests == old(requests) + (if o.requestBuilt then [d.url] else [])
                && files == FilesAfterDownload(old(files), d.dest, o)
    {
      var check := CheckTransferRequest(req);
      if check.Failure? {
        return Failure(check.error);
      }
      var err := DownloadFile(check.value.url, check.value.dest, o);
      if err.Fail? {
        return Failure(DownloadFailed(err.error));
      }
      return Success(TransferResponse);
    }
  }

  /** The File service's other RPCs. */
  datatype OtherRpc = Get | Put | Stat | Remove

  /** The name an unimplemented RPC reports. */
  function RpcName(rpc: OtherRpc): string
  {
    match rpc
    case Get => "Get"
    case Put => "Put"
    case Stat => "Stat"
    case Remove => "Remove"
  }

  /** `Get`, `Put`, `Stat` and `Remove` are not implemented: each answers Unimplemented, naming itself. */
  function CallOtherRpc(rpc: OtherRpc): (r: Outcome<RpcError>)
    ensures r.Fail? && CodeOf(r.error) == Unimplemented
    ensures r.error == NotImplemented(RpcName(rpc))
  {
    Fail(NotImplemented(RpcName(rpc)))
  }

  // ---------------------------------------------------------------------
  // Properties of the validation chain and of the RPC.

  /**
   * The checks run in order: each error is reported exactly when every
   * earlier check passed and this one fails.
   */
  lemma ChecksRunInOrder(req: TransferRequest)
    ensures CheckTransferRequest(req) == Failure(MissingRemoteDownload) <==> req.remoteDownload.None?
    ensures (CheckTransferRequest(req).Failure? && CheckTransferRequest(req).error.UnsupportedProtocol?)
        <==> req.remoteDownload.Some? && req.remoteDownload.value.protocol != Http
    ensures CheckTransferRequest(req) == Failure(MissingRemoteUrl)
        <==> req.remoteDownload.Some? && req.remoteDownload.value.protocol == Http
             && req.remoteDownload.value.path == ""
    ensures CheckTransferRequest(req) == Failure(MissingLocalPath)
        <==> req.remoteDownload.Some? && req.remoteDownload.value.protocol == Http
             && req.remoteDownload.value.path != "" && req.localPath == ""
    ensures (CheckTransferRequest(req).Failure? && CheckTransferRequest(req).error.InvalidDownloadPath?)
        <==> req.remoteDownload.Some? && req.remoteDownload.value.protocol == Http
             && req.remoteDownload.value.path != "" && req.localPath != ""
             && ValidatePathForDownload(req.localPath).Fail?
  {
  }

  /** Status codes: which failures are InvalidArgument, and that validation never reports Internal. */
  lemma CheckCodes(req: TransferRequest)
    ensures CheckTransferRequest(req).Failure? ==> CodeOf(CheckTransferRequest(req).error) != Internal
    ensures (CheckTransferRequest(req).Failure? && CodeOf(CheckTransferRequest(req).error) == InvalidArgument)
        <==> || req.remoteDownload.None?
             || (req.remoteDownload.value.protocol == Http
                 && (req.remoteDownload.value.path == "" || req.localPath == ""))
  {
  }

  /** A validated download always goes strictly inside /tmp or /var/tmp, to an already clean path. */
  lemma DownloadTargetIsConfined(req: TransferRequest)
    requires CheckTransferRequest(req).Success?
    ensures StrictlyInsideAllowedRoot(CleanSegments(CheckTransferRequest(req).value.dest))
    ensures Clean(CheckTransferRequest(req).value.dest) == CheckTransferRequest(req).value.dest
  {
    var p := req.localPath;
    ValidateIffStrictlyInside(p);
    CleanIdempotent(p);
    CleanSegmentsAreNormal(p);
    RenderRoundTrip(CleanSegments(p), true);
  }

  /** The RPC succeeds exactly when validation passes and the download goes through. */
  lemma TransferSucceedsIff(req: TransferRequest, o: HttpOutcome)
    ensures TransferToRemoteResult(req, o).Success?
        <==> CheckTransferRequest(req).Success? && DownloadVerdict(CheckTransferRequest(req).value.dest, o) == Pass
    ensures TransferToRemoteResult(req, o).Failure? && CodeOf(TransferToRemoteResult(req, o).error) == Internal
        <==> CheckTransferRequest(req).Success? && DownloadVerdict(CheckTransferRequest(req).value.dest, o).Fail?
  {
  }

  /** When validation fails, nothing the network or the disk would do matters. */
  lemma RejectedRequestIgnoresOutcome(req: TransferRequest, o1: HttpOutcome, o2: HttpOutcome)
    requires CheckTransferRequest(req).Failure?
    ensures TransferToRemoteResult(req, o1) == TransferToRemoteResult(req, o2)
  {
  }

  /** A non-200 answer to a valid request is an Internal error carrying the HTTP status text. */
  lemma BadStatusIsInternal(req: TransferRequest, o: HttpOutcome)
    requires CheckTransferRequest(req).Success?
    requires o.requestBuilt && o.responded && o.statusCode != StatusOK
    ensures TransferToRemoteResult(req, o) == Failure(DownloadFailed(BadStatus(o.status)))
    ensures CodeOf(TransferToRemoteResult(req, o).error) == Internal
  {
  }

  /**
   * A transfer changes at most one file, and that file lies strictly inside
   * an allowed root.
   */
  lemma TransferWritesOnlyInsideAllowedRoots(
    files: map<string, seq<bv8>>, req: TransferRequest, o: HttpOutcome, p: string)
    requires CheckTransferRequest(req).Success?
    requires var after := FilesAfterDownload(files, CheckTransferRequest(req).value.dest, o);
             p in after && (p !in files || after[p] != files[p])
    ensures StrictlyInsideAllowedRoot(CleanSegments(p))
  {
    DownloadTargetIsConfined(req);
  }
}
