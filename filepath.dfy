/**
 * A model of the Unix behaviour of Go's `path/filepath` functions that the
 * core relies on: `IsAbs`, `Clean` and `Join`. `Clean` is modelled on path
 * segments: the path is split at every '/', empty and "." segments are
 * dropped, ".." removes the name before it (or is dropped at the root of
 * an absolute path, or kept at the front of a relative one), and the result
 * is rendered back with single slashes, "/" for the bare root and "." for
 * an empty relative result.
 */
module FilePath {

  /** `filepath.IsAbs` on Unix: the path starts with a slash. */
  predicate IsAbs(p: string)
  {
    |p| > 0 && p[0] == '/'
  }

  /** The pieces of `s` between slashes (Go's `strings.Split(s, "/")`). */
  function Split(s: string): (r: seq<string>)
    ensures |r| >= 1
  {
    if s == [] then [""]
    else if s[0] == '/' then [""] + Split(s[1..])
    else
      var rest := Split(s[1..]);
      [[s[0]] + rest[0]] + rest[1..]
  }

  /** `segs[i..]` joined with single slashes (Go's `strings.Join(segs[i:], "/")`). */
  function JoinFrom(segs: seq<string>, i: nat): string
    decreases |segs| - i
  {
    if i >= |segs| then ""
    else if i == |segs| - 1 then segs[i]
    else segs[i] + "/" + JoinFrom(segs, i + 1)
  }

  /** The segments joined with single slashes. */
  function Join(segs: seq<string>): string
  {
    JoinFrom(segs, 0)
  }

  /** A segment that survives cleaning: a non-empty name that is not "." and holds no slash. */
  predicate IsName(seg: string)
  {
    seg != "" && seg != "." && '/' !in seg
  }

  /**
   * The segments a cleaned path consists of: names only, and ".." only as
   * a leading run of a relative path (never in an absolute one).
   */
  predicate IsNormal(segs: seq<string>, rooted: bool)
  {
    && (forall i :: 0 <= i < |segs| ==> IsName(segs[i]))
    && (forall i :: 0 <= i < |segs| && segs[i] == ".." ==> !rooted)
    && (forall i, j :: 0 <= i < j < |segs| && segs[j] == ".." ==> segs[i] == "..")
  }

  /** Processes one segment against the names kept so far. */
  function Step(kept: seq<string>, seg: string, rooted: bool): seq<string>
  {
    if seg == "" || seg == "." then kept
    else if seg == ".." then
      if |kept| > 0 && kept[|kept| - 1] != ".." then kept[..|kept| - 1]
      else if rooted then kept
      else kept + [".."]
    else kept + [seg]
  }

  /** The names kept after processing the first `n` segments from left to right. */
  function Resolve(segs: seq<string>, n: nat, rooted: bool): seq<string>
    requires n <= |segs|
  {
    if n == 0 then [] else Step(Resolve(segs, n - 1, rooted), segs[n - 1], rooted)
  }

  /** The segments of the cleaned form of `p`. */
  function CleanSegments(p: string): seq<string>
  {
    var segs := Split(p);
    Resolve(segs, |segs|, IsAbs(p))
  }

  /** Renders cleaned segments: absolute with a leading slash, "." when relative and empty. */
  function Render(segs: seq<string>, rooted: bool): string
  {
    if rooted then "/" + Join(segs)
    else if segs == [] then "."
    else Join(segs)
  }

  /**
   * `filepath.Clean` (Unix): the shortest lexically equivalent path. It is
   * never empty, keeps a path absolute or relative, and has the same cleaned
   * segments as the path it came from.
   */
  function Clean(p: string): (r: string)
    ensures r != ""
    ensures p != "" ==> IsAbs(r) == IsAbs(p)
    ensures p != "" ==> CleanSegments(r) == CleanSegments(p)
  {
    if p == "" then "."
    else
      CleanSegmentsAreNormal(p);
      RenderRoundTrip(CleanSegments(p), IsAbs(p));
      Render(CleanSegments(p), IsAbs(p))
  }

  /**
   * `filepath.Join(a, b)`: the elements from the first non-empty one on,
   * joined with "/" and cleaned; empty when both are empty.
   */
  function Join2(a: string, b: string): (r: string)
    ensures r == "" <==> a == "" && b == ""
    ensures r != "" ==> Clean(r) == r
  {
    if a != "" then CleanIdempotent(a + "/" + b); Clean(a + "/" + b)
    else if b != "" then CleanIdempotent(b); Clean(b)
    else ""
  }

  // ---------------------------------------------------------------------
  // Splitting and joining are inverse on slash-free segments.

  lemma {:induction false} SplitAppend(a: string, b: string)
    ensures Split(a + "/" + b) == Split(a) + Split(b)
    decreases |a|
  {
    if a == [] {
      assert a + "/" + b == "/" + b;
    } else {
      assert (a + "/" + b)[1..] == a[1..] + "/" + b;
      SplitAppend(a[1..], b);
    }
  }

  lemma {:induction false} SplitName(a: string)
    requires '/' !in a
    ensures Split(a) == [a]
    decreases |a|
  {
    if a != [] {
      SplitName(a[1..]);
      assert [a[0]] + a[1..] == a;
    }
  }

  /** Splitting the slash-joined form of slash-free segments gives the segments back. */
  lemma {:induction false} SplitJoinFrom(segs: seq<string>, i: nat)
    requires i < |segs|
    requires forall k :: 0 <= k < |segs| ==> '/' !in segs[k]
    ensures Split(JoinFrom(segs, i)) == segs[i..]
    decreases |segs| - i
  {
    SplitName(segs[i]);
    if i < |segs| - 1 {
      SplitJoinFrom(segs, i + 1);
      SplitAppend(segs[i], JoinFrom(segs, i + 1));
      assert segs[i..] == [segs[i]] + segs[i + 1..];
    }
  }

  lemma SplitJoin(segs: seq<string>)
    requires |segs| >= 1
    requires forall k :: 0 <= k < |segs| ==> '/' !in segs[k]
    ensures Split(Join(segs)) == segs
  {
    SplitJoinFrom(segs, 0);
  }

  /** The first character of a join is the first character of its first segment. */
  lemma JoinFromHead(segs: seq<string>, i: nat)
    requires i < |segs| && segs[i] != ""
    ensures |JoinFrom(segs, i)| > 0 && JoinFrom(segs, i)[0] == segs[i][0]
  {
  }

  // ---------------------------------------------------------------------
  // Cleaning yields normal segments, and normal segments are left alone.

  lemma {:induction false} StepPreservesNormal(kept: seq<string>, seg: string, rooted: bool)
    requires IsNormal(kept, rooted)
    requires '/' !in seg
    ensures IsNormal(Step(kept, seg, rooted), rooted)
  {
    var r := Step(kept, seg, rooted);
    if seg == ".." && |kept| > 0 && kept[|kept| - 1] != ".." {
      assert r == kept[..|kept| - 1];
    } else if seg == ".." && !rooted && !(|kept| > 0 && kept[|kept| - 1] != "..") {
      assert r == kept + [".."];
      forall i, j | 0 <= i < j < |r| && r[j] == ".." ensures r[i] == ".." {
        if j < |kept| {
        } else if |kept| > 0 {
          assert kept[|kept| - 1] == "..";
          if i < |kept| - 1 {
            assert kept[i] == "..";
          }
        }
      }
    } else if seg != "" && seg != "." && seg != ".." {
      assert r == kept + [seg];
    }
  }

  /** The segments kept by resolving any '/'-free segments are normal. */
  lemma {:induction false} ResolveIsNormal(segs: seq<string>, n: nat, rooted: bool)
    requires n <= |segs|
    requires forall k :: 0 <= k < |segs| ==> '/' !in segs[k]
    ensures IsNormal(Resolve(segs, n, rooted), rooted)
  {
    if n > 0 {
      ResolveIsNormal(segs, n - 1, rooted);
      StepPreservesNormal(Resolve(segs, n - 1, rooted), segs[n - 1], rooted);
    }
  }

  lemma {:induction false} SplitHasNoSlash(s: string)
    ensures forall k :: 0 <= k < |Split(s)| ==> '/' !in Split(s)[k]
    decreases |s|
  {
    if s != [] {
      SplitHasNoSlash(s[1..]);
    }
  }

  /** Every cleaned path consists of normal segments. */
  lemma CleanSegmentsAreNormal(p: string)
    ensures IsNormal(CleanSegments(p), IsAbs(p))
  {
    SplitHasNoSlash(p);
    ResolveIsNormal(Split(p), |Split(p)|, IsAbs(p));
  }

  /** Resolving normal segments keeps every one of them. */
  lemma {:induction false} ResolveNormalIsIdentity(segs: seq<string>, n: nat, rooted: bool)
    requires IsNormal(segs, rooted)
    requires n <= |segs|
    ensures Resolve(segs, n, rooted) == segs[..n]
  {
    if n > 0 {
      ResolveNormalIsIdentity(segs, n - 1, rooted);
      var kept := segs[..n - 1];
      if segs[n - 1] == ".." && n >= 2 {
        assert kept[|kept| - 1] == "..";
      }
      assert segs[..n] == kept + [segs[n - 1]];
    }
  }

  /** Resolving from the leading empty segment of an absolute path changes nothing. */
  lemma {:induction false} ResolveSkipsLeadingEmpty(k: seq<string>, n: nat, rooted: bool)
    requires n <= |k|
    ensures Resolve([""] + k, n + 1, rooted) == Resolve(k, n, rooted)
  {
    if n > 0 {
      ResolveSkipsLeadingEmpty(k, n - 1, rooted);
      assert ([""] + k)[n] == k[n - 1];
    }
  }

  /** The segments of a rendered normal form are that normal form. */
  lemma RenderRoundTrip(k: seq<string>, rooted: bool)
    requires IsNormal(k, rooted)
    ensures Render(k, rooted) != ""
    ensures IsAbs(Render(k, rooted)) == rooted
    ensures CleanSegments(Render(k, rooted)) == k
  {
    var r := Render(k, rooted);
    if rooted {
      if k == [] {
        assert r == Join(["", ""]);
        SplitJoin(["", ""]);
        assert Resolve(["", ""], 2, true) == [];
      } else {
        assert r == Join([""] + k) by {
          assert JoinFrom([""] + k, 1) == JoinFrom(k, 0) by {
            JoinFromShift(k, 0);
          }
        }
        SplitJoin([""] + k);
        ResolveSkipsLeadingEmpty(k, |k|, true);
        ResolveNormalIsIdentity(k, |k|, true);
        assert k[..|k|] == k;
      }
    } else if k == [] {
      assert r == ".";
      SplitName(".");
    } else {
      JoinFromHead(k, 0);
      SplitJoin(k);
      ResolveNormalIsIdentity(k, |k|, false);
      assert k[..|k|] == k;
    }
  }

  lemma {:induction false} JoinFromShift(k: seq<string>, i: nat)
    requires i <= |k|
    ensures JoinFrom([""] + k, i + 1) == JoinFrom(k, i)
    decreases |k| - i
  {
    var k' := [""] + k;
    assert |k'| == |k| + 1;
    if i < |k| {
      assert k'[i + 1] == k[i];
      JoinFromShift(k, i + 1);
    }
  }

  /** `Clean` is idempotent: a cleaned path is already clean. */
  lemma CleanIdempotent(p: string)
    ensures Clean(Clean(p)) == Clean(p)
  {
    if p == "" {
      SplitName(".");
    } else {
      CleanSegmentsAreNormal(p);
      RenderRoundTrip(CleanSegments(p), IsAbs(p));
    }
  }

  /** The segments of `Clean(p)` are its normal segments, after a leading "" when absolute. */
  lemma SplitOfClean(p: string)
    requires IsAbs(p)
    ensures Split(Clean(p)) == [""] + CleanSegments(p) || (CleanSegments(p) == [] && Clean(p) == "/")
  {
    var k := CleanSegments(p);
    var c := Clean(p);
    assert c == "/" + Join(k);
    if k != [] {
      CleanSegmentsAreNormal(p);
      assert "/" + Join(k) == Join([""] + k) by {
        JoinFromShift(k, 0);
      }
      SplitJoin([""] + k);
    }
  }

  // ---------------------------------------------------------------------
  // Resolving a concatenation of segment lists.

  /** The first `n` steps only see the first list. */
  lemma {:induction false} ResolvePrefix(a: seq<string>, b: seq<string>, n: nat, rooted: bool)
    requires n <= |a|
    ensures Resolve(a + b, n, rooted) == Resolve(a, n, rooted)
  {
    if n > 0 {
      ResolvePrefix(a, b, n - 1, rooted);
      assert (a + b)[n - 1] == a[n - 1];
    }
  }

  /** Names other than ".." that follow `a` are kept after whatever `a` resolves to. */
  lemma {:induction false} ResolveAppendNames(a: seq<string>, k: seq<string>, m: nat, rooted: bool)
    requires m <= |k|
    requires forall j :: 0 <= j < |k| ==> IsName(k[j]) && k[j] != ".."
    ensures Resolve(a + k, |a| + m, rooted) == Resolve(a, |a|, rooted) + k[..m]
  {
    if m == 0 {
      ResolvePrefix(a, k, |a|, rooted);
    } else {
      ResolveAppendNames(a, k, m - 1, rooted);
      assert (a + k)[|a| + m - 1] == k[m - 1];
      assert k[..m] == k[..m - 1] + [k[m - 1]];
    }
  }

  /** Empty pieces that follow `a` are dropped. */
  lemma ResolveAppendEmpty(a: seq<string>, rooted: bool)
    ensures Resolve(a + [""], |a| + 1, rooted) == Resolve(a, |a|, rooted)
  {
    ResolvePrefix(a, [""], |a|, rooted);
    assert (a + [""])[|a|] == "";
  }

  /**
   * Turns a concrete path into its cleaned form: `p` is the slash-join of
   * the literal segments `segs`, and resolving them keeps `kept`.
   */
  lemma CleanByParts(p: string, segs: seq<string>, rooted: bool, kept: seq<string>)
    requires p != "" && |segs| >= 1 && IsAbs(p) == rooted
    requires forall k :: 0 <= k < |segs| ==> '/' !in segs[k]
    requires Join(segs) == p
    requires Resolve(segs, |segs|, rooted) == kept
    ensures Clean(p) == Render(kept, rooted)
  {
    SplitJoin(segs);
  }
}
