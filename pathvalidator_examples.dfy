/**
 * The download-path policy on the cases its tests list. An absolute path is
 * written as `Join` of its pieces between slashes, so `Join(["", "tmp",
 * "test.json"])` is "/tmp/test.json"; a refused path carries its cleaned
 * form, written as `Render` of the segments cleaning keeps.
 */
module PathValidatorExamples {
  import opened Wrappers
  import opened FilePath
  import opened PathValidator

  /** /tmp/test.json */
  lemma AcceptsTmpFile()
    ensures ValidatePathForDownload(Join(["", "tmp", "test.json"]))
         == Pass
  {
    ValidateSegments(["", "tmp", "test.json"], 3, ["tmp", "test.json"]);
  }

  /** /var/tmp/image.bin */
  lemma AcceptsVarTmpFile()
    ensures ValidatePathForDownload(Join(["", "var", "tmp", "image.bin"]))
         == Pass
  {
    ValidateSegments(["", "var", "tmp", "image.bin"], 4, ["var", "tmp", "image.bin"]);
  }

  /** /tmp/a/b/c/file.bin */
  lemma AcceptsDeepSubdirectory()
    ensures ValidatePathForDownload(Join(["", "tmp", "a", "b", "c", "file.bin"]))
         == Pass
  {
    ValidateSegments(["", "tmp", "a", "b", "c", "file.bin"], 6, ["tmp", "a", "b", "c", "file.bin"]);
  }

  /** /tmp//file.txt */
  lemma AcceptsDoubleSlash()
    ensures ValidatePathForDownload(Join(["", "tmp", "", "file.txt"]))
         == Pass
  {
    ValidateSegments(["", "tmp", "", "file.txt"], 4, ["tmp", "file.txt"]);
  }

  /** /tmp/dir/ */
  lemma AcceptsTrailingSlash()
    ensures ValidatePathForDownload(Join(["", "tmp", "dir", ""]))
         == Pass
  {
    ValidateSegments(["", "tmp", "dir", ""], 4, ["tmp", "dir"]);
  }

  /** /tmp/./file.txt */
  lemma AcceptsDotSegment()
    ensures ValidatePathForDownload(Join(["", "tmp", ".", "file.txt"]))
         == Pass
  {
    ValidateSegments(["", "tmp", ".", "file.txt"], 4, ["tmp", "file.txt"]);
  }

  /** /tmp/link/../etc/passwd */
  lemma AcceptsTraversalThatStaysInside()
    ensures ValidatePathForDownload(Join(["", "tmp", "link", "..", "etc", "passwd"]))
         == Pass
  {
    ValidateSegments(["", "tmp", "link", "..", "etc", "passwd"], 6, ["tmp", "etc", "passwd"]);
  }

  /** /etc/passwd */
  lemma RefusesEtc()
    ensures ValidatePathForDownload(Join(["", "etc", "passwd"]))
         == Fail(OutsideAllowedRoots(Render(["etc", "passwd"], true)))
  {
    ValidateSegments(["", "etc", "passwd"], 3, ["etc", "passwd"]);
  }

  /** /file.txt */
  lemma RefusesRootFile()
    ensures ValidatePathForDownload(Join(["", "file.txt"]))
         == Fail(OutsideAllowedRoots(Render(["file.txt"], true)))
  {
    ValidateSegments(["", "file.txt"], 2, ["file.txt"]);
  }

  /** /var/log/file.txt */
  lemma RefusesVarLog()
    ensures ValidatePathForDownload(Join(["", "var", "log", "file.txt"]))
         == Fail(OutsideAllowedRoots(Render(["var", "log", "file.txt"], true)))
  {
    ValidateSegments(["", "var", "log", "file.txt"], 4, ["var", "log", "file.txt"]);
  }

  /** /tmp/../etc/passwd */
  lemma RefusesTraversalFromTmp()
    ensures ValidatePathForDownload(Join(["", "tmp", "..", "etc", "passwd"]))
         == Fail(OutsideAllowedRoots(Render(["etc", "passwd"], true)))
  {
    ValidateSegments(["", "tmp", "..", "etc", "passwd"], 5, ["etc", "passwd"]);
  }

  /** /var/tmp/../etc/passwd */
  lemma RefusesTraversalFromVarTmp()
    ensures ValidatePathForDownload(Join(["", "var", "tmp", "..", "etc", "passwd"]))
         == Fail(OutsideAllowedRoots(Render(["var", "etc", "passwd"], true)))
  {
    ValidateSegments(["", "var", "tmp", "..", "etc", "passwd"], 6, ["var", "etc", "passwd"]);
  }

  /** /tmp/dir/../../../etc/passwd */
  lemma RefusesComplexTraversal()
    ensures ValidatePathForDownload(Join(["", "tmp", "dir", "..", "..", "..", "etc", "passwd"]))
         == Fail(OutsideAllowedRoots(Render(["etc", "passwd"], true)))
  {
    ValidateSegments(["", "tmp", "dir", "..", "..", "..", "etc", "passwd"], 8, ["etc", "passwd"]);
  }

  /** /tmp/./../../etc/passwd */
  lemma RefusesDotTraversal()
    ensures ValidatePathForDownload(Join(["", "tmp", ".", "..", "..", "etc", "passwd"]))
         == Fail(OutsideAllowedRoots(Render(["etc", "passwd"], true)))
  {
    ValidateSegments(["", "tmp", ".", "..", "..", "etc", "passwd"], 7, ["etc", "passwd"]);
  }

  /** /tmp/a/b/../../../etc/passwd */
  lemma RefusesNestedTraversal()
    ensures ValidatePathForDownload(Join(["", "tmp", "a", "b", "..", "..", "..", "etc", "passwd"]))
         == Fail(OutsideAllowedRoots(Render(["etc", "passwd"], true)))
  {
    ValidateSegments(["", "tmp", "a", "b", "..", "..", "..", "etc", "passwd"], 9, ["etc", "passwd"]);
  }

  /** /tmp/link/../../etc/passwd */
  lemma RefusesEscapeThroughSubdirectory()
    ensures ValidatePathForDownload(Join(["", "tmp", "link", "..", "..", "etc", "passwd"]))
         == Fail(OutsideAllowedRoots(Render(["etc", "passwd"], true)))
  {
    ValidateSegments(["", "tmp", "link", "..", "..", "etc", "passwd"], 7, ["etc", "passwd"]);
  }

  /** /tmp */
  lemma RefusesBareTmp()
    ensures ValidatePathForDownload(Join(["", "tmp"]))
         == Fail(OutsideAllowedRoots(Render(["tmp"], true)))
  {
    ValidateSegments(["", "tmp"], 2, ["tmp"]);
  }

  /** /var/tmp */
  lemma RefusesBareVarTmp()
    ensures ValidatePathForDownload(Join(["", "var", "tmp"]))
         == Fail(OutsideAllowedRoots(Render(["var", "tmp"], true)))
  {
    ValidateSegments(["", "var", "tmp"], 3, ["var", "tmp"]);
  }

  /** /tmpdir/file.txt */
  lemma RefusesTmpdir()
    ensures ValidatePathForDownload(Join(["", "tmpdir", "file.txt"]))
         == Fail(OutsideAllowedRoots(Render(["tmpdir", "file.txt"], true)))
  {
    ValidateSegments(["", "tmpdir", "file.txt"], 3, ["tmpdir", "file.txt"]);
  }

  /** /vartmp/file.txt */
  lemma RefusesVartmp()
    ensures ValidatePathForDownload(Join(["", "vartmp", "file.txt"]))
         == Fail(OutsideAllowedRoots(Render(["vartmp", "file.txt"], true)))
  {
    ValidateSegments(["", "vartmp", "file.txt"], 3, ["vartmp", "file.txt"]);
  }

  /** /tmp-backup/file.txt */
  lemma RefusesTmpBackup()
    ensures ValidatePathForDownload(Join(["", "tmp-backup", "file.txt"]))
         == Fail(OutsideAllowedRoots(Render(["tmp-backup", "file.txt"], true)))
  {
    ValidateSegments(["", "tmp-backup", "file.txt"], 3, ["tmp-backup", "file.txt"]);
  }

  /** /TMP/file.txt */
  lemma RefusesUpperCaseTmp()
    ensures ValidatePathForDownload(Join(["", "TMP", "file.txt"]))
         == Fail(OutsideAllowedRoots(Render(["TMP", "file.txt"], true)))
  {
    ValidateSegments(["", "TMP", "file.txt"], 3, ["TMP", "file.txt"]);
  }

  lemma RefusesEmpty()
    ensures ValidatePathForDownload("") == Fail(EmptyPath)
  {
  }

  lemma RefusesRelativeFile()
    ensures ValidatePathForDownload("test.json") == Fail(NotAbsolute("test.json"))
  {
  }

  lemma RefusesRelativeSubdirectory()
    ensures ValidatePathForDownload("downloads/file.bin") == Fail(NotAbsolute("downloads/file.bin"))
  {
  }

  lemma RefusesRelativeWithDot()
    ensures ValidatePathForDownload("./test.json") == Fail(NotAbsolute("./test.json"))
  {
  }

  lemma RefusesRelativeTraversal()
    ensures ValidatePathForDownload("../../../etc/passwd") == Fail(NotAbsolute("../../../etc/passwd"))
  {
  }

  lemma RefusesNullByte()
    ensures ValidatePathForDownload("/tmp/file\0.txt") == Fail(NullByte)
    ensures ValidatePathForDownload("/tmp/normal.txt\0/etc/passwd") == Fail(NullByte)
  {
  }
}
