/**
 * The RHEL `httpd_service` provider. Its class variables `@@libarch` ...
 * `@@mutex` are shared by every provider object and persist between calls;
 * one `Rhel` object stands for that class-level state. The declarations a
 * provider makes go into the run's `ResourceCollection`, in order.
 */
module Provider {

  import opened Wrappers
  import opened RubyNumeric
  import opened Resources
  import opened Profile
  import opened Declarations

  /** The run's resource collection: declarations in the order they were made. */
  class ResourceCollection {
    var resources: seq<Resource>

    constructor ()
      ensures resources == []
    {
      resources := [];
    }

    method Add(r: Resource)
      modifies this
      ensures resources == old(resources) + [r]
    {
      resources := resources + [r];
    }
  }

  class Rhel {
    var libarch: Option<string>
    var elversion: Option<int>
    var apacheVersion: Option<string>
    var apacheName: Option<string>
    var includes: Option<seq<string>>
    var includeOptionals: Option<seq<string>>
    var pidFile: Option<string>
    var lockFile: Option<string>
    var mutex: Option<string>

    /** The class variables as one value. */
    function Vars(): ClassVariables
      reads this
    {
      ClassVariables(libarch, elversion, apacheVersion, apacheName, includes, includeOptionals,
                     pidFile, lockFile, mutex)
    }

    ghost predicate Valid()
      reads this
    {
      Consistent(Vars())
    }

    /** Loading the class: every class variable is `nil`. */
    constructor ()
      ensures Vars() == Unset && Valid()
    {
      libarch, elversion, apacheVersion, apacheName := None, None, None, None;
      includes, includeOptionals, pidFile, lockFile, mutex := None, None, None, None, None;
    }

    /** `set_class_variables`: resolve the profile into the class variables. */
    method SetClassVariables(node: Node, res: HttpdService)
      modifies this
      ensures Vars() == Resolve(old(Vars()), node, res)
      ensures old(Valid()) ==> Valid()
    {
      ghost var before := Vars();
      SetLibArch(node.machine);
      SetElVersion(node.platformVersion);

      apacheVersion := Some(res.version);

      // support multiple instances
      apacheName := Some(if res.instance == "default" then "httpd" else "httpd-" + res.instance);

      SetPidFile();

      lockFile := None;
      mutex := None;

      SetIncludes(res.version);

      if Consistent(before) {
        ResolvePreservesConsistent(before, node, res);
      }
    }

    /** The `case` on the CPU architecture; other architectures keep `@@libarch`. */
    method SetLibArch(machine: string)
      modifies this`libarch
      ensures libarch == Overwrite(LibArchFor(machine), old(libarch))
    {
      if machine == "x86_64" {
        libarch := Some("lib64");
      } else if machine == "i686" {
        libarch := Some("lib");
      }
    }

    /** The `case` on the OS major version; other versions keep `@@elversion`. */
    method SetElVersion(platformVersion: string)
      modifies this`elversion
      ensures elversion == Overwrite(ChannelFor(ToI(platformVersion)), old(elversion))
    {
      var major := ToI(platformVersion);
      if major == 5 {
        elversion := Some(5);
      } else if major == 6 {
        elversion := Some(6);
      } else if major == 7 {
        elversion := Some(7);
      } else if major == 2013 {
        elversion := Some(6);
      } else if major == 2014 {
        elversion := Some(6);
      }
    }

    /** The `case` on the channel; with no matching channel `@@pid_file` is kept. */
    method SetPidFile()
      modifies this`pidFile
      ensures elversion.Some? ==> pidFile == Overwrite(PidFileFor(elversion.value, Interpolate(apacheName)), old(pidFile))
      ensures elversion.None? ==> pidFile == old(pidFile)
    {
      var name := Interpolate(apacheName);
      if elversion == Some(5) {
        pidFile := Some("/var/run/" + name + ".pid");
      } else if elversion == Some(6) {
        pidFile := Some("/var/run/" + name + "/httpd.pid");
      } else if elversion == Some(7) {
        pidFile := Some("/var/run/" + name + "/httpd.pid");
      }
    }

    /** Below 2.4 the hard includes are set, otherwise the optional ones; the other list is kept. */
    method SetIncludes(version: string)
      modifies this`includes, this`includeOptionals
      ensures includes == if BelowTwoFour(version) then Some(LegacyIncludes) else old(includes)
      ensures includeOptionals == if BelowTwoFour(version) then old(includeOptionals) else Some(OptionalIncludes)
    {
      if BelowTwoFour(version) {
        includes := Some(["conf.d/*.conf", "conf.d/*.load"]);
      } else {
        includeOptionals := Some(["conf.d/*.conf", "conf.d/*.load", "conf.modules.d/*.conf", "conf.modules.d/*.load"]);
      }
    }

    /** One `httpd_module` declaration per name, in order (the `.each` loops). */
    static method DeclareModules(res: HttpdService, version: Option<string>, apacheName: string,
                                 names: seq<string>, coll: ResourceCollection)
      modifies coll
      ensures coll.resources == old(coll.resources) + ModuleDecls(res, version, apacheName, names)
    {
      for i := 0 to |names|
        invariant coll.resources == old(coll.resources) + ModuleDecls(res, version, apacheName, names[..i])
      {
        assert names[..i + 1][..i] == names[..i];
        coll.Add(ModuleDecl(res, version, apacheName, names[i]));
      }
      assert names[..|names|] == names;
    }

    static method DeclarePackages(res: HttpdService, coll: ResourceCollection)
      modifies coll
      ensures coll.resources == old(coll.resources) + PackageDecls(res)
    {
      coll.Add(PackageDecl(res));
      coll.Add(RemovePackageConfigDecl(res));
      coll.Add(NetToolsDecl(res));
    }

    static method DeclareMpm(res: HttpdService, version: Option<string>, apacheName: string, legacy: bool,
                             coll: ResourceCollection)
      modifies coll
      ensures coll.resources == old(coll.resources) + MpmDecls(res, version, apacheName, legacy)
    {
      if legacy {
        coll.Add(BinaryLinkDecl(res, apacheName, ".worker"));
        coll.Add(BinaryLinkDecl(res, apacheName, ".event"));
      } else {
        coll.Add(ModuleDecl(res, version, apacheName, "mpm_" + res.mpm));
      }
      coll.Add(MpmConfigDecl(res, apacheName));
    }

    static method DeclareConfigDirectories(res: HttpdService, apacheName: string, legacy: bool,
                                           coll: ResourceCollection)
      modifies coll
      ensures coll.resources == old(coll.resources) + ConfigDirectoryDecls(res, apacheName, legacy)
    {
      coll.Add(DirectoryDecl(res, "/etc/" + apacheName));
      coll.Add(DirectoryDecl(res, "/etc/" + apacheName + "/conf"));
      coll.Add(DirectoryDecl(res, "/etc/" + apacheName + "/conf.d"));
      if !legacy {
        coll.Add(DirectoryDecl(res, "/etc/" + apacheName + "/conf.modules.d"));
      }
    }

    static method DeclareSupport(res: HttpdService, apacheName: string, libarch: string, coll: ResourceCollection)
      modifies coll
      ensures coll.resources == old(coll.resources) + SupportDecls(res, apacheName, libarch)
    {
      coll.Add(DirectoryDecl(res, "/usr/" + libarch + "/httpd/modules"));
      coll.Add(DirectoryDecl(res, "/var/log/" + apacheName));
      coll.Add(LinkDecl(res, "/etc/" + apacheName + "/logs", "../../var/log/" + apacheName));
      coll.Add(LinkDecl(res, "/etc/" + apacheName + "/modules", "../../usr/" + libarch + "/httpd/modules"));
    }

    static method DeclareRun(res: HttpdService, apacheName: string, elversion: int, coll: ResourceCollection)
      modifies coll
      ensures coll.resources == old(coll.resources) + RunDecls(res, apacheName, elversion)
    {
      if elversion > 5 {
        coll.Add(DirectoryDecl(res, "/var/run/" + apacheName));
        coll.Add(LinkDecl(res, "/etc/" + apacheName + "/run", "../../var/run/" + apacheName));
      } else {
        coll.Add(LinkDecl(res, "/etc/" + apacheName + "/run", "../../var/run/"));
      }
    }

    static method DeclareSoftware(res: HttpdService, version: Option<string>, apacheName: string, legacy: bool,
                                  coll: ResourceCollection)
      modifies coll
      ensures coll.resources == old(coll.resources) + SoftwareDecls(res, version, apacheName, legacy)
    {
      // software installation
      DeclarePackages(res, coll);
      // modules that Debian and Ubuntu compile in statically
      var names := if legacy then ["log_config", "logio"]
                   else ["log_config", "logio", "unixd", "version", "watchdog"];
      assert names == ModuleNames(legacy);
      DeclareModules(res, version, apacheName, names, coll);
      ghost var installed := coll.resources;
      // httpd binary symlink
      coll.Add(BinaryLinkDecl(res, apacheName, ""));
      DeclareMpm(res, version, apacheName, legacy, coll);
      assert coll.resources == installed + [BinaryLinkDecl(res, apacheName, "")] + MpmDecls(res, version, apacheName, legacy);
    }

    static method DeclareLayout(res: HttpdService, apacheName: string, legacy: bool, libarch: string,
                                coll: ResourceCollection)
      modifies coll
      ensures coll.resources == old(coll.resources) + LayoutDecls(res, apacheName, legacy, libarch)
    {
      DeclareConfigDirectories(res, apacheName, legacy, coll);
      DeclareSupport(res, apacheName, libarch, coll);
    }

    /** Everything `create_common` declares before its channel test. */
    method DeclareCreateHead(res: HttpdService, coll: ResourceCollection)
      modifies coll
      ensures coll.resources == old(coll.resources) + CreateHead(Vars(), res)
    {
      var name := Interpolate(apacheName);
      var legacy := VersionBelowTwoFour(apacheVersion);
      DeclareSoftware(res, apacheVersion, name, legacy, coll);
      DeclareLayout(res, name, legacy, Interpolate(libarch), coll);
    }

    /**
     * `create_common`: declare the installation of one instance. Returns the
     * exception that stopped it, if any.
     */
    method CreateCommon(res: HttpdService, coll: ResourceCollection) returns (failure: Option<RubyError>)
      modifies coll
      ensures coll.resources == old(coll.resources) + CreateDecls(Vars(), res).decls
      ensures failure == CreateDecls(Vars(), res).failure
    {
      DeclareCreateHead(res, coll);
      if elversion.None? {
        return Some(NoMethodError(">"));
      }
      var name := Interpolate(apacheName);
      DeclareRun(res, name, elversion.value, coll);

      // configuration files
      coll.Add(MagicDecl(res, name));
      coll.Add(HttpdConfDecl(res, name, ConfVariables("/etc/" + name, "/var/log/" + name + "/error_log",
                                                      pidFile, lockFile, mutex, includes, includeOptionals)));
      failure := None;
    }

    /** The declarations both versions of `delete_common` make before the channel test. */
    static method DeclareDeleteHead(res: HttpdService, apacheName: string, legacy: bool, coll: ResourceCollection)
      modifies coll
      ensures coll.resources == old(coll.resources) + DeleteHead(res, apacheName, legacy)
    {
      coll.Add(UnlinkDecl(res, BinaryPath(apacheName, ""), NotIfApacheNameIsHttpd));
      if legacy {
        coll.Add(UnlinkDecl(res, BinaryPath(apacheName, ".worker"), NotIfApacheNameIsHttpd));
        coll.Add(UnlinkDecl(res, BinaryPath(apacheName, ".event"), NotIfApacheNameIsHttpd));
      }
      coll.Add(RemoveDirectoryDecl(res, "/etc/" + apacheName));
      coll.Add(RemoveDirectoryDecl(res, "/var/log/" + apacheName));
    }

    /**
     * `delete_common` as written: the channel test reads `@@eleversion`,
     * which no code assigns, so it raises `NameError` every time.
     */
    method DeleteCommon(res: HttpdService, coll: ResourceCollection) returns (failure: Option<RubyError>)
      modifies coll
      ensures coll.resources == old(coll.resources) + DeleteDecls(Vars(), res).decls
      ensures failure == DeleteDecls(Vars(), res).failure
    {
      DeclareDeleteHead(res, Interpolate(apacheName), VersionBelowTwoFour(apacheVersion), coll);
      failure := Some(NameError("@@eleversion"));
    }

    /** `delete_common` with its channel test reading `@@elversion`, mirroring `create_common`. */
    method DeleteCommonIntended(res: HttpdService, coll: ResourceCollection) returns (failure: Option<RubyError>)
      modifies coll
      ensures coll.resources == old(coll.resources) + IntendedDeleteDecls(Vars(), res).decls
      ensures failure == IntendedDeleteDecls(Vars(), res).failure
    {
      var name := Interpolate(apacheName);
      DeclareDeleteHead(res, name, VersionBelowTwoFour(apacheVersion), coll);
      if elversion.None? {
        return Some(NoMethodError(">"));
      }
      if elversion.value > 5 {
        coll.Add(RemoveDirectoryDecl(res, "/var/run/" + name));
        coll.Add(UnlinkDecl(res, "/etc/" + name + "/run", Unguarded));
      } else {
        coll.Add(UnlinkDecl(res, "/etc/" + name + "/run", Unguarded));
      }
      failure := None;
    }
  }
}
