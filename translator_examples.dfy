/**
 * Container-to-host translation on the cases its tests list, with paths
 * written as `Join` of their pieces between slashes and results as
 * `Render` of their cleaned segments.
 */
module PathUtilExamples {
  import opened FilePath
  import opened PathUtil

  /**
   * Translating the absolute container path with pieces `segs` under the
   * absolute mount point with pieces `host` yields the mount point's kept
   * segments followed by the container path's.
   */
  lemma TranslateBySegments(host: seq<string>, hn: nat, hostKept: seq<string>,
                            segs: seq<string>, n: nat, kept: seq<string>, result: seq<string>)
    requires hn == |host| >= 2 && host[0] == ""
    requires forall j :: 0 <= j < |host| ==> '/' !in host[j]
    requires Resolve(host, hn, true) == hostKept
    requires n == |segs| >= 2 && segs[0] == ""
    requires forall j :: 0 <= j < |segs| ==> '/' !in segs[j]
    requires Resolve(segs, n, true) == kept
    requires hostKept + kept == result
    ensures TranslateToHost(NewTranslator(Join(host)), Join(segs)) == Render(result, true)
  {
    var t := NewTranslator(Join(host));
    assert Join(host) == "" + "/" + JoinFrom(host, 1);
    assert Join(segs) == "" + "/" + JoinFrom(segs, 1);
    SplitJoin(host);
    SplitJoin(segs);
    TranslationStaysUnderHostRoot(t, Join(segs));
    TranslationIsClean(t, Join(segs));
  }

  /** "/tmp/test.bin" under "/mnt/host" is "/mnt/host/tmp/test.bin". */
  lemma TranslatesTmpFile()
    ensures TranslateToHost(NewTranslator(Join(["", "mnt", "host"])), Join(["", "tmp", "test.bin"]))
         == Render(["mnt", "host", "tmp", "test.bin"], true)
  {
    TranslateBySegments(["", "mnt", "host"], 3, ["mnt", "host"],
                        ["", "tmp", "test.bin"], 3, ["tmp", "test.bin"], ["mnt", "host", "tmp", "test.bin"]);
  }

  /** "/var/tmp/downloads/file.bin" under "/mnt/host". */
  lemma TranslatesVarTmpFile()
    ensures TranslateToHost(NewTranslator(Join(["", "mnt", "host"])), Join(["", "var", "tmp", "downloads", "file.bin"]))
         == Render(["mnt", "host", "var", "tmp", "downloads", "file.bin"], true)
  {
    TranslateBySegments(["", "mnt", "host"], 3, ["mnt", "host"],
                        ["", "var", "tmp", "downloads", "file.bin"], 5, ["var", "tmp", "downloads", "file.bin"], ["mnt", "host", "var", "tmp", "downloads", "file.bin"]);
  }

  /** "/tmp//test/../final.bin" is cleaned before it is joined: "/mnt/host/tmp/final.bin". */
  lemma TranslatesUncleanPath()
    ensures TranslateToHost(NewTranslator(Join(["", "mnt", "host"])), Join(["", "tmp", "", "test", "..", "final.bin"]))
         == Render(["mnt", "host", "tmp", "final.bin"], true)
  {
    TranslateBySegments(["", "mnt", "host"], 3, ["mnt", "host"],
                        ["", "tmp", "", "test", "..", "final.bin"], 6, ["tmp", "final.bin"], ["mnt", "host", "tmp", "final.bin"]);
  }

  /** The container root "/" is the mount point itself. */
  lemma TranslatesRoot()
    ensures TranslateToHost(NewTranslator(Join(["", "mnt", "host"])), Join(["", ""]))
         == Render(["mnt", "host"], true)
  {
    TranslateBySegments(["", "mnt", "host"], 3, ["mnt", "host"],
                        ["", ""], 2, [], ["mnt", "host"]);
  }

  /** Another mount point: "/tmp/test.bin" under "/host-fs". */
  lemma TranslatesUnderOtherMountPoint()
    ensures TranslateToHost(NewTranslator(Join(["", "host-fs"])), Join(["", "tmp", "test.bin"]))
         == Render(["host-fs", "tmp", "test.bin"], true)
  {
    TranslateBySegments(["", "host-fs"], 2, ["host-fs"],
                        ["", "tmp", "test.bin"], 3, ["tmp", "test.bin"], ["host-fs", "tmp", "test.bin"]);
  }

  /** "/tmp//test.bin" translates like "/tmp/test.bin". */
  lemma TranslatesDoubleSlash()
    ensures TranslateToHost(NewTranslator(Join(["", "mnt", "host"])), Join(["", "tmp", "", "test.bin"]))
         == Render(["mnt", "host", "tmp", "test.bin"], true)
  {
    TranslateBySegments(["", "mnt", "host"], 3, ["mnt", "host"],
                        ["", "tmp", "", "test.bin"], 4, ["tmp", "test.bin"], ["mnt", "host", "tmp", "test.bin"]);
  }

  /** "/tmp/./test.bin" translates like "/tmp/test.bin". */
  lemma TranslatesDotSegment()
    ensures TranslateToHost(NewTranslator(Join(["", "mnt", "host"])), Join(["", "tmp", ".", "test.bin"]))
         == Render(["mnt", "host", "tmp", "test.bin"], true)
  {
    TranslateBySegments(["", "mnt", "host"], 3, ["mnt", "host"],
                        ["", "tmp", ".", "test.bin"], 4, ["tmp", "test.bin"], ["mnt", "host", "tmp", "test.bin"]);
  }

  /** "/tmp/subdir/../test.bin" translates like "/tmp/test.bin". */
  lemma TranslatesParentSegment()
    ensures TranslateToHost(NewTranslator(Join(["", "mnt", "host"])), Join(["", "tmp", "subdir", "..", "test.bin"]))
         == Render(["mnt", "host", "tmp", "test.bin"], true)
  {
    TranslateBySegments(["", "mnt", "host"], 3, ["mnt", "host"],
                        ["", "tmp", "subdir", "..", "test.bin"], 5, ["tmp", "test.bin"], ["mnt", "host", "tmp", "test.bin"]);
  }

  /** Without a mount point, the absolute container path with pieces `segs` becomes its cleaned form. */
  lemma TranslateWithoutHostBySegments(segs: seq<string>, n: nat, kept: seq<string>)
    requires n == |segs| >= 2 && segs[0] == ""
    requires forall j :: 0 <= j < |segs| ==> '/' !in segs[j]
    requires Resolve(segs, n, true) == kept
    ensures TranslateToHost(NewTranslator(""), Join(segs)) == Render(kept, true)
  {
    assert Join(segs) == "" + "/" + JoinFrom(segs, 1);
    EmptyHostRootIsClean(Join(segs));
    CleanByParts(Join(segs), segs, true, kept);
  }

  /** With an empty mount point "/tmp/test.bin" stays "/tmp/test.bin". */
  lemma TranslatesWithEmptyHostRoot()
    ensures TranslateToHost(NewTranslator(""), Join(["", "tmp", "test.bin"]))
         == Render(["tmp", "test.bin"], true)
  {
    TranslateWithoutHostBySegments(["", "tmp", "test.bin"], 3, ["tmp", "test.bin"]);
  }

  /**
   * Only absolute container paths are confined: nothing guards a relative
   * one, and "../../etc" under "/mnt/host" translates to "/etc", outside the
   * mount point.
   */
  lemma RelativePathLeavesHostRoot()
    ensures TranslateToHost(NewTranslator(Join(["", "mnt", "host"])), Join(["..", "..", "etc"]))
         == Render(["etc"], true)
  {
    var rel := ["..", "..", "etc"];
    var all := ["", "mnt", "host", "..", "..", "etc"];
    SplitJoin(rel);
    JoinFromHead(rel, 0);
    assert Resolve(rel, 3, false) == rel;
    assert Clean(Join(rel)) == Join(rel);
    assert Join(["", "mnt", "host"]) + "/" + Join(rel) == Join(all);
    SplitJoin(all);
    assert Resolve(all, 6, true) == ["etc"];
  }
}
