/**
 * Download-path policy (pkg/security/pathvalidator/validator.go): a path is
 * accepted for a download only when it is non-empty, holds no NUL byte, is
 * absolute, and its lexically cleaned form starts with "/tmp/" or
 * "/var/tmp/". The guards run in that order and the first failing one
 * decides the error.
 */
module PathValidator {
  import opened Wrappers
  import opened GoStrings
  import opened FilePath

  /** Why a download path was refused. */
  datatype PathError =
    | EmptyPath
    | NullByte
    | NotAbsolute(path: string)
    | OutsideAllowedRoots(cleaned: string)

  /** `ValidatePathForDownload`: Pass, or the first guard that fails. */
  function ValidatePathForDownload(path: string): (r: Outcome<PathError>)
    ensures path == "" ==> r == Fail(EmptyPath)
    ensures path != "" && '\0' in path ==> r == Fail(NullByte)
    ensures (r == Fail(NotAbsolute(path))) <==> (path != "" && '\0' !in path && !IsAbs(path))
    ensures r.Fail? && r.error.OutsideAllowedRoots? ==> r.error.cleaned == Clean(path)
  {
    if path == "" then Fail(EmptyPath)
    else if '\0' in path then Fail(NullByte)
    else if !IsAbs(path) then Fail(NotAbsolute(path))
    else
      var cleanPath := Clean(path);
      if !HasPrefix(cleanPath, "/tmp/") && !HasPrefix(cleanPath, "/var/tmp/") then
        Fail(OutsideAllowedRoots(cleanPath))
      else
        Pass
  }

  /** The NUL guard, written as membership, is Go's `strings.Contains(path, "\x00")`. */
  lemma NulGuardIsContains(path: string)
    ensures Contains(path, "\0") <==> '\0' in path
  {
    ContainsIffOccurs(path, "\0");
    if '\0' in path {
      var i :| 0 <= i < |path| && path[i] == '\0';
      assert path[i..i + 1] == "\0";
      assert OccursAt(path, "\0", i);
    }
    if exists i: nat :: OccursAt(path, "\0", i) {
      var i: nat :| OccursAt(path, "\0", i);
      assert path[i] == path[i..i + 1][0];
    }
  }

  /**
   * The policy stated on path segments: the cleaned path names something
   * strictly below "/tmp" or strictly below "/var/tmp".
   */
  predicate StrictlyInsideAllowedRoot(segs: seq<string>)
  {
    || (|segs| >= 2 && segs[0] == "tmp")
    || (|segs| >= 3 && segs[0] == "var" && segs[1] == "tmp")
  }

  /** A slash-joined path starts with `w + "/" + rest` iff its first segment is `w` and more follow. */
  lemma JoinFromPrefix(k: seq<string>, i: nat, w: string, rest: string)
    requires forall j :: 0 <= j < |k| ==> '/' !in k[j]
    requires '/' !in w
    ensures HasPrefix(JoinFrom(k, i), w + "/" + rest)
        <==> i + 1 < |k| && k[i] == w && HasPrefix(JoinFrom(k, i + 1), rest)
  {
    var s := JoinFrom(k, i);
    var p := w + "/" + rest;
    assert p[|w|] == '/';
    if HasPrefix(s, p) && i + 1 < |k| {
      var t := JoinFrom(k, i + 1);
      assert s == k[i] + "/" + t;
      assert |k[i]| == |w| by {
        if |k[i]| > |w| {
          assert false;
        } else if |k[i]| < |w| {
          SlashAfter(k[i], t);
          assert false;
        }
      }
      assert k[i] == s[..|w|] == p[..|w|] == w;
      assert t[..|rest|] == s[|w| + 1..|w| + 1 + |rest|] == p[|w| + 1..] == rest;
    }
    if i + 1 < |k| && k[i] == w && HasPrefix(JoinFrom(k, i + 1), rest) {
      var t := JoinFrom(k, i + 1);
      assert s == w + "/" + t;
      assert s[..|p|] == w + "/" + t[..|rest|];
    }
  }

  lemma SlashAfter(a: string, t: string)
    ensures |a| < |a + "/" + t| && (a + "/" + t)[|a|] == '/'
  {
  }

  /** `"/" + x` starts with `"/" + y` iff `x` starts with `y`. */
  lemma SlashPrefix(x: string, y: string)
    ensures HasPrefix("/" + x, "/" + y) <==> HasPrefix(x, y)
  {
    if HasPrefix(x, y) {
      assert ("/" + x)[..|y| + 1] == "/" + x[..|y|];
    }
    if HasPrefix("/" + x, "/" + y) {
      assert x[..|y|] == ("/" + x)[1..|y| + 1] == ("/" + y)[1..] == y;
    }
  }

  /** The prefix test on a cleaned absolute path is the segment-level policy. */
  lemma AllowedPrefixIffInside(path: string)
    requires IsAbs(path)
    ensures (HasPrefix(Clean(path), "/tmp/") || HasPrefix(Clean(path), "/var/tmp/"))
        <==> StrictlyInsideAllowedRoot(CleanSegments(path))
  {
    var k := CleanSegments(path);
    CleanSegmentsAreNormal(path);
    assert forall j :: 0 <= j < |k| ==> '/' !in k[j];
    assert Clean(path) == "/" + JoinFrom(k, 0);
    SlashPrefix(JoinFrom(k, 0), "tmp/");
    SlashPrefix(JoinFrom(k, 0), "var/tmp/");
    assert "tmp/" == "tmp" + "/" + "";
    assert "var/tmp/" == "var" + "/" + "tmp/";
    JoinFromPrefix(k, 0, "tmp", "");
    JoinFromPrefix(k, 0, "var", "tmp/");
    JoinFromPrefix(k, 1, "tmp", "");
  }

  /**
   * The whole policy: a path is accepted exactly when it is non-empty,
   * NUL-free, absolute, and its cleaned form lies strictly inside one of
   * the two allowed roots.
   */
  lemma ValidateIffStrictlyInside(path: string)
    ensures ValidatePathForDownload(path) == Pass
        <==> path != "" && '\0' !in path && IsAbs(path)
             && StrictlyInsideAllowedRoot(CleanSegments(path))
  {
    if path != "" && '\0' !in path && IsAbs(path) {
      AllowedPrefixIffInside(path);
    }
  }

  /**
   * Validation of the absolute path whose pieces between slashes are
   * `segs` (so `segs[0]` is the empty piece before the leading slash),
   * when cleaning keeps `kept` of its `n` pieces: accepted exactly when `kept` lies
   * strictly inside an allowed root, refused with `kept` rendered as an
   * absolute path otherwise.
   */
  lemma ValidateSegments(segs: seq<string>, n: nat, kept: seq<string>)
    requires n == |segs| >= 2 && segs[0] == ""
    requires forall j :: 0 <= j < |segs| ==> '/' !in segs[j] && '\0' !in segs[j]
    requires Resolve(segs, n, true) == kept
    ensures ValidatePathForDownload(Join(segs))
         == if StrictlyInsideAllowedRoot(kept) then Pass else Fail(OutsideAllowedRoots(Render(kept, true)))
  {
    var path := Join(segs);
    assert path == "" + "/" + JoinFrom(segs, 1);
    assert IsAbs(path);
    JoinFromKeepsChars(segs, 0, '\0');
    SplitJoin(segs);
    CleanByParts(path, segs, true, kept);
    AllowedPrefixIffInside(path);
  }

  /**
   * An accepted path cleans to a path with no "..", "." or empty segment:
   * no traversal survives validation.
   */
  lemma AcceptedHasNoTraversal(path: string)
    requires ValidatePathForDownload(path) == Pass
    ensures forall j :: 0 <= j < |CleanSegments(path)| ==>
      IsName(CleanSegments(path)[j]) && CleanSegments(path)[j] != ".."
  {
    CleanSegmentsAreNormal(path);
  }

  /** Validation depends on the path only through its cleaned form (for absolute, NUL-free paths). */
  lemma ValidationSeesOnlyCleanForm(p: string, q: string)
    requires IsAbs(p) && IsAbs(q) && '\0' !in p && '\0' !in q
    requires Clean(p) == Clean(q)
    ensures ValidatePathForDownload(p) == Pass <==> ValidatePathForDownload(q) == Pass
  {
  }

  /** An accepted path's cleaned form is itself accepted, and cleans to itself. */
  lemma AcceptedCleanFormIsAccepted(path: string)
    requires ValidatePathForDownload(path) == Pass
    ensures ValidatePathForDownload(Clean(path)) == Pass
    ensures Clean(Clean(path)) == Clean(path)
  {
    CleanIdempotent(path);
    assert '\0' !in Clean(path) by {
      CleanSegmentsAreNormal(path);
      CleanHasNoNul(path);
    }
  }

  /** Cleaning introduces no character that was not in the path, in particular no NUL. */
  lemma CleanHasNoNul(path: string)
    requires '\0' !in path && IsAbs(path)
    ensures '\0' !in Clean(path)
  {
    var k := CleanSegments(path);
    SplitKeepsChars(path, '\0');
    ResolveKeepsChars(Split(path), |Split(path)|, IsAbs(path), '\0');
    JoinFromKeepsChars(k, 0, '\0');
  }

  lemma {:induction false} SplitKeepsChars(s: string, c: char)
    requires c !in s && c != '/'
    ensures forall j :: 0 <= j < |Split(s)| ==> c !in Split(s)[j]
    decreases |s|
  {
    if s != [] {
      SplitKeepsChars(s[1..], c);
    }
  }

  lemma {:induction false} ResolveKeepsChars(segs: seq<string>, n: nat, rooted: bool, c: char)
    requires n <= |segs|
    requires forall j :: 0 <= j < |segs| ==> c !in segs[j]
    requires c != '.'
    ensures forall j :: 0 <= j < |Resolve(segs, n, rooted)| ==> c !in Resolve(segs, n, rooted)[j]
  {
    if n > 0 {
      ResolveKeepsChars(segs, n - 1, rooted, c);
    }
  }

  lemma {:induction false} JoinFromKeepsChars(k: seq<string>, i: nat, c: char)
    requires forall j :: 0 <= j < |k| ==> c !in k[j]
    requires c != '/'
    ensures c !in JoinFrom(k, i)
    decreases |k| - i
  {
    if i + 1 < |k| {
      JoinFromKeepsChars(k, i + 1, c);
    }
  }
}
