/**
 * The application hooks that carry logic: the version string and the
 * run-once guard around truncating the users table. The guard is modelled
 * sequentially; the lock that makes it safe under concurrent first callers
 * is not part of this model.
 */
module App {
  import opened Wrappers

  /**
   * `App::app_version`: the package version followed by the build's commit
   * in parentheses; BUILD_SHA wins over GITHUB_SHA, and "dev" is used when
   * neither was set at build time.
   */
  function AppVersion(pkgVersion: string, buildSha: Option<string>, githubSha: Option<string>): (v: string)
    ensures buildSha.Some? ==> v == pkgVersion + " (" + buildSha.value + ")"
    ensures buildSha.None? && githubSha.Some? ==> v == pkgVersion + " (" + githubSha.value + ")"
    ensures buildSha.None? && githubSha.None? ==> v == pkgVersion + " (dev)"
  {
    pkgVersion + " (" + buildSha.Or(githubSha).UnwrapOr("dev") + ")"
  }

  /**
   * TRUNCATE_GUARD and the `truncate` hook. `truncations` counts the calls
   * made to `truncate_table`, whose own effect on the database is not
   * modelled.
   */
  class TruncateGuard {
    var hasRun: bool
    var truncations: nat

    /** The table is truncated exactly when the flag is set, and at most once. */
    ghost predicate Valid()
      reads this
    {
      truncations == if hasRun then 1 else 0
    }

    constructor()
      ensures Valid() && !hasRun && truncations == 0
    {
      hasRun := false;
      truncations := 0;
    }

    /**
     * `App::truncate`: a later call returns Ok without truncating; the first
     * call sets the flag before it truncates, so a failure of the
     * truncation (reported as `ok == false`) is never retried.
     */
    method Truncate(tableFails: bool) returns (ok: bool)
      requires Valid()
      modifies this
      ensures Valid() && hasRun
      ensures old(hasRun) ==> ok && truncations == old(truncations)
      ensures !old(hasRun) ==> truncations == old(truncations) + 1 && (ok <==> !tableFails)
    {
      if hasRun {
        return true;
      }
      hasRun := true;
      truncations := truncations + 1;
      ok := !tableFails;
    }
  }

  /**
   * One guard called once per outcome in `tableFails` (each test boot calls
   * the hook): only the first call truncates, only it can fail, and every
   * later call succeeds.
   */
  method TruncateRepeatedly(tableFails: seq<bool>) returns (oks: seq<bool>, truncations: nat)
    ensures |oks| == |tableFails|
    ensures truncations == if |tableFails| == 0 then 0 else 1
    ensures |tableFails| > 0 ==> (oks[0] <==> !tableFails[0])
    ensures forall k :: 0 < k < |oks| ==> oks[k]
  {
    var guard := new TruncateGuard();
    oks := [];
    var i := 0;
    while i < |tableFails|
      invariant 0 <= i <= |tableFails|
      invariant guard.Valid() && |oks| == i
      invariant guard.hasRun <==> i > 0
      invariant i > 0 ==> (oks[0] <==> !tableFails[0])
      invariant forall k :: 0 < k < i ==> oks[k]
    {
      var ok := guard.Truncate(tableFails[i]);
      oks := oks + [ok];
      i := i + 1;
    }
    truncations := guard.truncations;
  }
}
