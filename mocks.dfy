/**
 * The in-memory file service double (pkg/gnoi/mocks/file.go): every
 * `TransferToRemote` call is recorded, in order, and answered by a
 * configurable function that succeeds by default.
 */
module Mocks {
  import opened Wrappers

  /** One recorded call. */
  datatype TransferToRemoteCall = TransferToRemoteCall(sourceURL: string, remotePath: string)

  /** The default behaviour: every transfer succeeds. */
  function AlwaysSucceeds(sourceURL: string, remotePath: string): Outcome<string>
  {
    Pass
  }

  /** The last call of a log, or an error when nothing was recorded. */
  function LastCall(calls: seq<TransferToRemoteCall>): (r: Result<TransferToRemoteCall, string>)
    ensures r.Success? <==> |calls| > 0
    ensures r.Success? ==> r.value in calls
  {
    if |calls| == 0 then Failure("no TransferToRemote calls recorded")
    else Success(calls[|calls| - 1])
  }

  /** After one more call is recorded, it is the last one. */
  lemma LastCallOfAppend(calls: seq<TransferToRemoteCall>, c: TransferToRemoteCall)
    ensures LastCall(calls + [c]) == Success(c)
  {
  }

  class FileService {
    /** `TransferToRemoteFunc`: the configured answer to each call. */
    var transferToRemoteFunc: (string, string) -> Outcome<string>
    /** `TransferToRemoteCalls`: every call so far, oldest first. */
    var transferToRemoteCalls: seq<TransferToRemoteCall>

    /** `NewFileService`: no calls yet, and every transfer succeeds. */
    constructor ()
      ensures transferToRemoteCalls == []
      ensures transferToRemoteFunc == AlwaysSucceeds
    {
      transferToRemoteFunc := AlwaysSucceeds;
      transferToRemoteCalls := [];
    }

    /** Records the call, then answers it with the configured function. */
    method TransferToRemote(sourceURL: string, remotePath: string) returns (r: Outcome<string>)
      modifies this
      ensures transferToRemoteCalls == old(transferToRemoteCalls) + [TransferToRemoteCall(sourceURL, remotePath)]
      ensures transferToRemoteFunc == old(transferToRemoteFunc)
      ensures r == transferToRemoteFunc(sourceURL, remotePath)
    {
      transferToRemoteCalls := transferToRemoteCalls + [TransferToRemoteCall(sourceURL, remotePath)];
      r := transferToRemoteFunc(sourceURL, remotePath);
    }

    /** `GetTransferToRemoteCallCount`. */
    function GetTransferToRemoteCallCount(): nat
      reads this
    {
      |transferToRemoteCalls|
    }

    /** `GetLastTransferToRemoteCall`. */
    function GetLastTransferToRemoteCall(): Result<TransferToRemoteCall, string>
      reads this
    {
      LastCall(transferToRemoteCalls)
    }

    /** `ResetCalls`: forgets every call; the configured behaviour stays. */
    method ResetCalls()
      modifies this
      ensures transferToRemoteCalls == []
      ensures transferToRemoteFunc == old(transferToRemoteFunc)
    {
      transferToRemoteCalls := [];
    }
  }

  /**
   * A fresh double answers a call with success, counts it once and reports
   * it as the last call; resetting brings the count back to zero.
   */
  method CallLogScenario() returns (answer: Outcome<string>, countAfterCall: nat,
                                     last: Result<TransferToRemoteCall, string>, countAfterReset: nat)
    ensures answer == Pass && countAfterCall == 1
    ensures last == Success(TransferToRemoteCall("http://example.com/a.bin", "/tmp/a.bin"))
    ensures countAfterReset == 0
  {
    var f := new FileService();
    assert f.GetTransferToRemoteCallCount() == 0;
    assert f.GetLastTransferToRemoteCall().Failure?;
    answer := f.TransferToRemote("http://example.com/a.bin", "/tmp/a.bin");
    countAfterCall := f.GetTransferToRemoteCallCount();
    last := f.GetLastTransferToRemoteCall();
    f.ResetCalls();
    countAfterReset := f.GetTransferToRemoteCallCount();
  }
}
