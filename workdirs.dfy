/**
 * The working directories (`prepare_working_dirs`, `cleanup_folders`,
 * `cleanup_temp`) as a set of directory roles that exist on disk.
 */
module WorkingDirs {

  /** Output, scratch conversion and post-loudness directories. */
  datatype Role = Output | Temp | Intermediate

  /** The roles audio_enhancer.py prepares and the roles audio_normalizer.py prepares. */
  const EnhancerRoles: set<Role> := {Output, Temp, Intermediate}
  const NormalizerRoles: set<Role> := {Output, Temp}

  /**
   * The directories left after `cleanup_folders(keep_normalized)` when the removals
   * listed in `failed` raise (and are swallowed): temp always goes, intermediate goes
   * unless kept, output is never touched.
   */
  function AfterCleanup(existing: set<Role>, keepNormalized: bool, failed: set<Role>): (after: set<Role>)
    ensures after <= existing
    ensures Output in after <==> Output in existing
    ensures Temp in after <==> Temp in existing && Temp in failed
    ensures Intermediate in after <==> Intermediate in existing && (keepNormalized || Intermediate in failed)
  {
    var doomed := if keepNormalized then {Temp} else {Temp, Intermediate};
    existing - (doomed - failed)
  }

  /** The directories left after `cleanup_temp()`: only temp is removed, unless its removal raises. */
  function AfterTempCleanup(existing: set<Role>, failed: bool): (after: set<Role>)
    ensures after <= existing
    ensures Temp in after <==> Temp in existing && failed
    ensures forall r :: r != Temp ==> (r in after <==> r in existing)
  {
    if failed then existing else existing - {Temp}
  }

  class Workspace {
    /** The roles whose directory currently exists. */
    var existing: set<Role>

    constructor (initial: set<Role>)
      ensures existing == initial
    {
      existing := initial;
    }

    /** `if not os.path.exists(d): os.makedirs(d)`; `made` tells whether makedirs ran. */
    method Ensure(role: Role) returns (made: bool)
      modifies this
      ensures existing == old(existing) + {role}
      ensures made == (role !in old(existing))
    {
      made := role !in existing;
      if made {
        existing := existing + {role};
      }
    }

    /**
     * audio_enhancer.py `prepare_working_dirs`: output, temp, intermediate, each created
     * only if absent; `made` is the set of roles `os.makedirs` ran for.
     */
    method PrepareEnhancer() returns (made: set<Role>)
      modifies this
      ensures existing == old(existing) + EnhancerRoles
      ensures made == EnhancerRoles - old(existing)
    {
      made := {};
      var m := Ensure(Output);
      if m { made := made + {Output}; }
      m := Ensure(Temp);
      if m { made := made + {Temp}; }
      m := Ensure(Intermediate);
      if m { made := made + {Intermediate}; }
    }

    /** audio_normalizer.py `prepare_working_dirs`: output and temp, each created only if absent. */
    method PrepareNormalizer() returns (made: set<Role>)
      modifies this
      ensures existing == old(existing) + NormalizerRoles
      ensures made == NormalizerRoles - old(existing)
    {
      made := {};
      var m := Ensure(Output);
      if m { made := made + {Output}; }
      m := Ensure(Temp);
      if m { made := made + {Temp}; }
    }

    /** Calling audio_enhancer.py's `prepare_working_dirs` a second time creates nothing and changes nothing. */
    method PrepareEnhancerTwice() returns (first: set<Role>, second: set<Role>)
      modifies this
      ensures first == EnhancerRoles - old(existing) && second == {}
      ensures existing == old(existing) + EnhancerRoles
    {
      first := PrepareEnhancer();
      ghost var once := existing;
      second := PrepareEnhancer();
      assert existing == once;
    }

    /** Calling audio_normalizer.py's `prepare_working_dirs` a second time creates nothing and changes nothing. */
    method PrepareNormalizerTwice() returns (first: set<Role>, second: set<Role>)
      modifies this
      ensures first == NormalizerRoles - old(existing) && second == {}
      ensures existing == old(existing) + NormalizerRoles
    {
      first := PrepareNormalizer();
      ghost var once := existing;
      second := PrepareNormalizer();
      assert existing == once;
    }

    /** audio_enhancer.py `cleanup_folders`; removals that raise are listed in `failed` and swallowed. */
    method CleanupFolders(keepNormalized: bool, failed: set<Role>)
      modifies this
      ensures existing == AfterCleanup(old(existing), keepNormalized, failed)
    {
      if Temp in existing && Temp !in failed {
        existing := existing - {Temp};
      }
      if !keepNormalized && Intermediate in existing && Intermediate !in failed {
        existing := existing - {Intermediate};
      }
    }

    /** audio_normalizer.py `cleanup_temp`; a removal that raises is swallowed. */
    method CleanupTemp(failed: bool)
      modifies this
      ensures existing == AfterTempCleanup(old(existing), failed)
    {
      if Temp in existing && !failed {
        existing := existing - {Temp};
      }
    }
  }
}
