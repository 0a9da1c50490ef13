/**
 * Container-to-host path translation (pkg/gnoi/server/pathutil/translator.go):
 * the host's root filesystem is mounted at `hostRootFS` inside the
 * container, and a container path is translated by cleaning it and joining
 * it under that mount point.
 */
module PathUtil {
  import opened FilePath

  /** A translator remembers the mount point of the host root filesystem. */
  datatype Translator = Translator(hostRootFS: string)

  /** `NewTranslator`. */
  function NewTranslator(hostRootFS: string): (t: Translator)
    ensures t.hostRootFS == hostRootFS
  {
    Translator(hostRootFS)
  }

  /** `GetHostRootFS`. */
  function GetHostRootFS(t: Translator): string
  {
    t.hostRootFS
  }

  /** `TranslateToHost`: `filepath.Join(hostRootFS, filepath.Clean(containerPath))`. */
  function TranslateToHost(t: Translator, containerPath: string): string
  {
    Join2(t.hostRootFS, Clean(containerPath))
  }

  /** A translator hands back the mount point it was made with. */
  lemma HostRootFSRoundTrip(hostRootFS: string)
    ensures GetHostRootFS(NewTranslator(hostRootFS)) == hostRootFS
  {
  }

  /** With no mount point the translation is just the cleaned container path. */
  lemma EmptyHostRootIsClean(containerPath: string)
    ensures TranslateToHost(NewTranslator(""), containerPath) == Clean(containerPath)
  {
    CleanIdempotent(containerPath);
  }

  /** Every translation is already in clean form. */
  lemma TranslationIsClean(t: Translator, containerPath: string)
    ensures Clean(TranslateToHost(t, containerPath)) == TranslateToHost(t, containerPath)
  {
    if t.hostRootFS != "" {
      CleanIdempotent(t.hostRootFS + "/" + Clean(containerPath));
    } else {
      EmptyHostRootIsClean(containerPath);
      CleanIdempotent(containerPath);
    }
  }

  /** Container paths with the same cleaned form translate alike; in particular a path and its cleaned form do. */
  lemma EquivalentPathsTranslateAlike(t: Translator, p: string, q: string)
    requires Clean(p) == Clean(q)
    ensures TranslateToHost(t, p) == TranslateToHost(t, q)
    ensures TranslateToHost(t, p) == TranslateToHost(t, Clean(p))
  {
    CleanIdempotent(p);
  }

  /**
   * An absolute container path lands under the mount point: the cleaned
   * segments of the translation are those of the mount point followed by
   * those of the container path, and the translation is absolute exactly
   * when the mount point is.
   */
  lemma TranslationStaysUnderHostRoot(t: Translator, containerPath: string)
    requires t.hostRootFS != "" && IsAbs(containerPath)
    ensures CleanSegments(TranslateToHost(t, containerPath))
         == CleanSegments(t.hostRootFS) + CleanSegments(containerPath)
    ensures IsAbs(TranslateToHost(t, containerPath)) == IsAbs(t.hostRootFS)
  {
    var host := t.hostRootFS;
    var c := Clean(containerPath);
    var k := CleanSegments(containerPath);
    var joined := host + "/" + c;
    var a := Split(host);
    CleanSegmentsAreNormal(containerPath);
    SplitAppend(host, c);
    assert IsAbs(joined) == IsAbs(host);
    SplitOfClean(containerPath);
    if Split(c) == [""] + k {
      assert a + Split(c) == (a + [""]) + k;
      ResolveAppendNames(a + [""], k, |k|, IsAbs(host));
      ResolveAppendEmpty(a, IsAbs(host));
      assert k[..|k|] == k;
    } else {
      assert c == "/";
      assert Split(c) == ["", ""] by {
        SplitJoin(["", ""]);
      }
      assert a + Split(c) == (a + [""]) + [""];
      ResolveAppendEmpty(a + [""], IsAbs(host));
      ResolveAppendEmpty(a, IsAbs(host));
    }
    assert CleanSegments(joined) == CleanSegments(host) + k;
    CleanSegmentsAreNormal(joined);
    RenderRoundTrip(CleanSegments(joined), IsAbs(joined));
  }
}
