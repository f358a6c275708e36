/**
 * Properties of `delete_common`, as written and as intended: what it
 * declares, that its binary links keep the `not_if` guard, that the
 * as-written method always raises before the runtime artifacts, and that
 * the intended method undoes everything `create_common` set up apart from
 * the module directory the instances share.
 */
module DeleteProperties {

  import opened Wrappers
  import opened RubyNumeric
  import opened Resources
  import opened Profile
  import opened Declarations
  import opened BuilderProperties
  import opened LifecycleProperties

  /** `p` is one of `removed`, or lies inside one of them (removed recursively). */
  ghost predicate Removed(p: string, removed: seq<string>) {
    exists q | q in removed :: p == q || HasPrefix(p, q + "/")
  }

  lemma DeleteHeadSection(res: HttpdService, n: string, legacy: bool)
    ensures var ds := DeleteHead(res, n, legacy);
      && Links(ds) == [BinaryPath(n, "")]
                      + (if legacy then [BinaryPath(n, ".worker"), BinaryPath(n, ".event")] else [])
      && Directories(ds) == ["/etc/" + n, "/var/log/" + n]
      && ModulesOf(ds) == []
  {
    var u := [UnlinkDecl(res, BinaryPath(n, ""), NotIfApacheNameIsHttpd)];
    var mpm: seq<Resource> := if legacy then [UnlinkDecl(res, BinaryPath(n, ".worker"), NotIfApacheNameIsHttpd),
                                              UnlinkDecl(res, BinaryPath(n, ".event"), NotIfApacheNameIsHttpd)]
                              else [];
    var dirs := [RemoveDirectoryDecl(res, "/etc/" + n), RemoveDirectoryDecl(res, "/var/log/" + n)];
    Inventory1(u[0]);
    if legacy {
      Inventory2(mpm[0], mpm[1]);
    }
    Inventory2(dirs[0], dirs[1]);
    InventoryConcat(u, mpm);
    InventoryConcat(u + mpm, dirs);
  }

  lemma RunRemovalsSection(res: HttpdService, n: string, el: int)
    ensures var ds := RunRemovals(res, n, el);
      && Links(ds) == ["/etc/" + n + "/run"]
      && Directories(ds) == (if el > 5 then ["/var/run/" + n] else [])
      && ModulesOf(ds) == []
  {
    var unlink := UnlinkDecl(res, "/etc/" + n + "/run", Unguarded);
    if el > 5 {
      Inventory2(RemoveDirectoryDecl(res, "/var/run/" + n), unlink);
    } else {
      Inventory1(unlink);
    }
  }

  lemma DeleteHeadWiring(res: HttpdService, n: string, legacy: bool)
    ensures WellWired(res, n, DeleteHead(res, n, legacy))
    ensures forall r | r in DeleteHead(res, n, legacy) :: r.action == Delete
  {
    SbinIsBinary(n, "");
    SbinIsBinary(n, ".worker");
    SbinIsBinary(n, ".event");
  }

  lemma RunRemovalsWiring(res: HttpdService, n: string, el: int)
    ensures WellWired(res, n, RunRemovals(res, n, el))
    ensures forall r | r in RunRemovals(res, n, el) :: r.action == Delete
  {
    EtcIsNotBinary("/etc/" + n + "/run");
  }

  /**
   * `delete_common` as written always raises `NameError` for `@@eleversion`,
   * after declaring the unlinking of the binaries and the removal of the
   * configuration and log directories; it never reaches the declarations
   * for the runtime directory or the run link.
   */
  lemma DeleteAsWritten(v: ClassVariables, res: HttpdService)
    ensures var n, legacy, b := Interpolate(v.apacheName), VersionBelowTwoFour(v.apacheVersion), DeleteDecls(v, res);
      && b.failure == Some(NameError("@@eleversion"))
      && Links(b.decls) == [BinaryPath(n, "")]
                           + (if legacy then [BinaryPath(n, ".worker"), BinaryPath(n, ".event")] else [])
      && Directories(b.decls) == ["/etc/" + n, "/var/log/" + n]
      && WellWired(res, n, b.decls)
      && forall r | r in b.decls :: r.action == Delete
  {
    var n, legacy := Interpolate(v.apacheName), VersionBelowTwoFour(v.apacheVersion);
    DeleteHeadSection(res, n, legacy);
    DeleteHeadWiring(res, n, legacy);
  }

  /**
   * The intended `delete_common` declares the same removals, then the
   * runtime ones of the channel; it raises exactly when `create_common`
   * does.
   */
  lemma DeleteIntended(v: ClassVariables, res: HttpdService)
    ensures var n, legacy, b := Interpolate(v.apacheName), VersionBelowTwoFour(v.apacheVersion), IntendedDeleteDecls(v, res);
      && b.failure == CreateDecls(v, res).failure
      && Links(b.decls) == [BinaryPath(n, "")]
                           + (if legacy then [BinaryPath(n, ".worker"), BinaryPath(n, ".event")] else [])
                           + (if v.elversion.Some? then ["/etc/" + n + "/run"] else [])
      && Directories(b.decls) == ["/etc/" + n, "/var/log/" + n]
                                 + (if v.elversion.Some? && v.elversion.value > 5 then ["/var/run/" + n] else [])
  {
    var n, legacy := Interpolate(v.apacheName), VersionBelowTwoFour(v.apacheVersion);
    var head := DeleteHead(res, n, legacy);
    DeleteHeadSection(res, n, legacy);
    if v.elversion.Some? {
      var tail := RunRemovals(res, n, v.elversion.value);
      assert IntendedDeleteDecls(v, res).decls == head + tail;
      RunRemovalsSection(res, n, v.elversion.value);
      LinksConcat(head, tail);
      DirectoriesConcat(head, tail);
    }
  }

  /** The intended `delete_common` only deletes, and guards exactly its binary links. */
  lemma DeleteIntendedWiring(v: ClassVariables, res: HttpdService)
    ensures var n, ds := Interpolate(v.apacheName), IntendedDeleteDecls(v, res).decls;
      WellWired(res, n, ds) && forall r | r in ds :: r.action == Delete
  {
    var n, legacy := Interpolate(v.apacheName), VersionBelowTwoFour(v.apacheVersion);
    var head := DeleteHead(res, n, legacy);
    DeleteHeadWiring(res, n, legacy);
    if v.elversion.Some? {
      var tail := RunRemovals(res, n, v.elversion.value);
      assert IntendedDeleteDecls(v, res).decls == head + tail;
      RunRemovalsWiring(res, n, v.elversion.value);
      WiredConcat(res, n, head, tail);
    }
  }

  /** A path below `/etc/<name>/` lies inside the configuration directory. */
  lemma UnderEtc(n: string, leaf: string)
    requires |leaf| > 0 && leaf[0] == '/'
    ensures HasPrefix("/etc/" + n + leaf, "/etc/" + n + "/")
  {
    var s, p := "/etc/" + n + leaf, "/etc/" + n + "/";
    assert s[..|p|] == p by {
      forall i | 0 <= i < |p| ensures s[i] == p[i] {
        if i < |n| + 5 {
          assert s[i] == ("/etc/" + n)[i] == p[i];
        }
      }
    }
  }

  /** The paths `create_common` declares (links, then directories), as `CreateLinks` and `CreateDirectories` list them. */
  function CreatedPaths(n: string, legacy: bool, libarch: string, run: bool, runDirectory: bool): seq<string> {
    [BinaryPath(n, "")]
    + (if legacy then [BinaryPath(n, ".worker"), BinaryPath(n, ".event")] else [])
    + ["/etc/" + n + "/logs", "/etc/" + n + "/modules"]
    + (if run then ["/etc/" + n + "/run"] else [])
    + (["/etc/" + n, "/etc/" + n + "/conf", "/etc/" + n + "/conf.d"]
       + (if legacy then [] else ["/etc/" + n + "/conf.modules.d"])
       + ["/usr/" + libarch + "/httpd/modules", "/var/log/" + n]
       + (if runDirectory then ["/var/run/" + n] else []))
  }

  /** The paths the intended `delete_common` removes (links, then directories), as `DeleteIntended` lists them. */
  function IntendedRemovedPaths(n: string, legacy: bool, run: bool, runDirectory: bool): seq<string> {
    [BinaryPath(n, "")]
    + (if legacy then [BinaryPath(n, ".worker"), BinaryPath(n, ".event")] else [])
    + (if run then ["/etc/" + n + "/run"] else [])
    + (["/etc/" + n, "/var/log/" + n] + (if runDirectory then ["/var/run/" + n] else []))
  }

  lemma CoverageOfPaths(n: string, legacy: bool, libarch: string, run: bool, runDirectory: bool)
    ensures forall p | p in CreatedPaths(n, legacy, libarch, run, runDirectory) ::
      p == "/usr/" + libarch + "/httpd/modules" || Removed(p, IntendedRemovedPaths(n, legacy, run, runDirectory))
  {
    var removed := IntendedRemovedPaths(n, legacy, run, runDirectory);
    var etc := "/etc/" + n;
    assert etc in removed;
    UnderEtc(n, "/logs");
    UnderEtc(n, "/modules");
    UnderEtc(n, "/run");
    UnderEtc(n, "/conf");
    UnderEtc(n, "/conf.d");
    UnderEtc(n, "/conf.modules.d");
    forall p | p in CreatedPaths(n, legacy, libarch, run, runDirectory)
      ensures p == "/usr/" + libarch + "/httpd/modules" || Removed(p, removed)
    {
      if HasPrefix(p, etc + "/") {
        assert etc in removed;
      } else {
        assert p == "/usr/" + libarch + "/httpd/modules" || p in removed;
      }
    }
  }

  /**
   * Everything `create_common` declares is removed by the intended
   * `delete_common`, directly or inside a directory it removes with its
   * contents, apart from `/usr/<libarch>/httpd/modules`, which the instances
   * share.
   */
  lemma IntendedDeleteUndoesCreate(v: ClassVariables, res: HttpdService)
    ensures var created := Links(CreateDecls(v, res).decls) + Directories(CreateDecls(v, res).decls);
      var removed := Links(IntendedDeleteDecls(v, res).decls) + Directories(IntendedDeleteDecls(v, res).decls);
      forall p | p in created :: p == "/usr/" + Interpolate(v.libarch) + "/httpd/modules" || Removed(p, removed)
  {
    var n, legacy, libarch := Interpolate(v.apacheName), VersionBelowTwoFour(v.apacheVersion), Interpolate(v.libarch);
    var run, runDirectory := v.elversion.Some?, v.elversion.Some? && v.elversion.value > 5;
    assert Links(CreateDecls(v, res).decls) + Directories(CreateDecls(v, res).decls)
        == CreatedPaths(n, legacy, libarch, run, runDirectory) by {
      CreateLinks(v, res);
      CreateDirectories(v, res);
    }
    assert Links(IntendedDeleteDecls(v, res).decls) + Directories(IntendedDeleteDecls(v, res).decls)
        == IntendedRemovedPaths(n, legacy, run, runDirectory) by {
      DeleteIntended(v, res);
    }
    CoverageOfPaths(n, legacy, libarch, run, runDirectory);
  }

  /** `/var/run/<name>` is neither one of the paths below nor inside one of them. */
  lemma RuntimeDirectoryOutside(n: string, legacy: bool)
    ensures !Removed("/var/run/" + n, [BinaryPath(n, "")]
                                      + (if legacy then [BinaryPath(n, ".worker"), BinaryPath(n, ".event")] else [])
                                      + ["/etc/" + n, "/var/log/" + n])
  {
    var p := "/var/run/" + n;
    var removed := [BinaryPath(n, "")] + (if legacy then [BinaryPath(n, ".worker"), BinaryPath(n, ".event")] else [])
                   + ["/etc/" + n, "/var/log/" + n];
    forall q | q in removed
      ensures !(p == q || HasPrefix(p, q + "/"))
    {
      var i := if q == "/var/log/" + n then 5 else 1;
      DifferAt(p, q, i);
      NoPrefixAt(p, q + "/", i);
    }
  }

  /**
   * The finding: on channels above 5 `create_common` declares
   * `/var/run/<name>`, and `delete_common` as written removes it neither
   * directly nor inside another directory.
   */
  lemma DeleteLeavesRuntimeDirectory(v: ClassVariables, res: HttpdService)
    requires v.elversion.Some? && v.elversion.value > 5
    ensures var n, d := Interpolate(v.apacheName), DeleteDecls(v, res).decls;
      && "/var/run/" + n in Directories(CreateDecls(v, res).decls)
      && !Removed("/var/run/" + n, Links(d) + Directories(d))
  {
    var n, legacy := Interpolate(v.apacheName), VersionBelowTwoFour(v.apacheVersion);
    RuntimeArtifacts(v, res);
    DeleteAsWritten(v, res);
    RuntimeDirectoryOutside(n, legacy);
  }
}
