/**
 * Properties of whole `create_common` calls: what they declare for each
 * version family and channel, how the declarations are guarded and wired,
 * and when they raise.
 */
module LifecycleProperties {

  import opened Wrappers
  import opened RubyNumeric
  import opened Resources
  import opened Profile
  import opened Declarations
  import opened BuilderProperties

  lemma DifferAt(a: string, b: string, i: nat)
    requires i < |a| && i < |b| && a[i] != b[i]
    ensures a != b
  {
  }

  lemma NoPrefixAt(s: string, p: string, i: nat)
    requires i < |s| && i < |p| && s[i] != p[i]
    ensures !HasPrefix(s, p)
  {
    assert |p| <= |s| ==> s[..|p|][i] == s[i];
  }

  // ---------------------------------------------------------------------------
  // create_common

  /** What the declarations before the channel test contribute. */
  lemma HeadInventory(v: ClassVariables, res: HttpdService)
    ensures var n, legacy, ds := Interpolate(v.apacheName), VersionBelowTwoFour(v.apacheVersion), CreateHead(v, res);
      && Links(ds) == [BinaryPath(n, "")]
                      + (if legacy then [BinaryPath(n, ".worker"), BinaryPath(n, ".event")] else [])
                      + ["/etc/" + n + "/logs", "/etc/" + n + "/modules"]
      && Directories(ds) == ["/etc/" + n, "/etc/" + n + "/conf", "/etc/" + n + "/conf.d"]
                            + (if legacy then [] else ["/etc/" + n + "/conf.modules.d"])
                            + ["/usr/" + Interpolate(v.libarch) + "/httpd/modules", "/var/log/" + n]
      && ModulesOf(ds) == ModuleNames(legacy) + (if legacy then [] else ["mpm_" + res.mpm])
  {
    var n, legacy, libarch := Interpolate(v.apacheName), VersionBelowTwoFour(v.apacheVersion), Interpolate(v.libarch);
    var sw := SoftwareDecls(res, v.apacheVersion, n, legacy);
    var lay := LayoutDecls(res, n, legacy, libarch);
    SoftwareSection(res, v.apacheVersion, n, legacy);
    LayoutSection(res, n, legacy, libarch);
    InventoryConcat(sw, lay);
  }

  /** The tail after the channel test: the runtime artifacts and the two configuration files. */
  lemma TailInventory(v: ClassVariables, res: HttpdService, el: int)
    ensures var n := Interpolate(v.apacheName);
      var ds := RunDecls(res, n, el) + ConfigFileDecls(res, n, ConfVariablesOf(v));
      && Links(ds) == ["/etc/" + n + "/run"]
      && Directories(ds) == (if el > 5 then ["/var/run/" + n] else [])
      && ModulesOf(ds) == []
  {
    var n := Interpolate(v.apacheName);
    RunSection(res, n, el);
    ConfigFileSection(res, n, ConfVariablesOf(v));
    InventoryConcat(RunDecls(res, n, el), ConfigFileDecls(res, n, ConfVariablesOf(v)));
  }

  /** The links `create_common` declares, in order, for every state of the class variables. */
  lemma CreateLinks(v: ClassVariables, res: HttpdService)
    ensures var n, legacy := Interpolate(v.apacheName), VersionBelowTwoFour(v.apacheVersion);
      Links(CreateDecls(v, res).decls)
      == [BinaryPath(n, "")]
         + (if legacy then [BinaryPath(n, ".worker"), BinaryPath(n, ".event")] else [])
         + ["/etc/" + n + "/logs", "/etc/" + n + "/modules"]
         + (if v.elversion.Some? then ["/etc/" + n + "/run"] else [])
  {
    HeadInventory(v, res);
    if v.elversion.Some? {
      var n := Interpolate(v.apacheName);
      var tail := RunDecls(res, n, v.elversion.value) + ConfigFileDecls(res, n, ConfVariablesOf(v));
      assert CreateDecls(v, res).decls == CreateHead(v, res) + tail;
      TailInventory(v, res, v.elversion.value);
      LinksConcat(CreateHead(v, res), tail);
    }
  }

  /** The directories `create_common` declares, in order, for every state of the class variables. */
  lemma CreateDirectories(v: ClassVariables, res: HttpdService)
    ensures var n, legacy := Interpolate(v.apacheName), VersionBelowTwoFour(v.apacheVersion);
      Directories(CreateDecls(v, res).decls)
      == ["/etc/" + n, "/etc/" + n + "/conf", "/etc/" + n + "/conf.d"]
         + (if legacy then [] else ["/etc/" + n + "/conf.modules.d"])
         + ["/usr/" + Interpolate(v.libarch) + "/httpd/modules", "/var/log/" + n]
         + (if v.elversion.Some? && v.elversion.value > 5 then ["/var/run/" + n] else [])
  {
    HeadInventory(v, res);
    if v.elversion.Some? {
      var n := Interpolate(v.apacheName);
      var tail := RunDecls(res, n, v.elversion.value) + ConfigFileDecls(res, n, ConfVariablesOf(v));
      assert CreateDecls(v, res).decls == CreateHead(v, res) + tail;
      TailInventory(v, res, v.elversion.value);
      DirectoriesConcat(CreateHead(v, res), tail);
    }
  }

  /**
   * The modules `create_common` declares, in order: `log_config` and `logio`
   * below 2.4; from 2.4 on also `unixd`, `version` and `watchdog`, and then
   * the module of the configured MPM.
   */
  lemma CreateModules(v: ClassVariables, res: HttpdService)
    ensures ModulesOf(CreateDecls(v, res).decls)
      == if VersionBelowTwoFour(v.apacheVersion) then ["log_config", "logio"]
         else ["log_config", "logio", "unixd", "version", "watchdog", "mpm_" + res.mpm]
  {
    HeadInventory(v, res);
    if v.elversion.Some? {
      var n := Interpolate(v.apacheName);
      var tail := RunDecls(res, n, v.elversion.value) + ConfigFileDecls(res, n, ConfVariablesOf(v));
      assert CreateDecls(v, res).decls == CreateHead(v, res) + tail;
      TailInventory(v, res, v.elversion.value);
      ModulesConcat(CreateHead(v, res), tail);
    }
  }

  /** A binary link of an MPM is none of the links before or after the MPM links. */
  lemma MpmLinkNotElsewhere(n: string, suffix: string, hasRun: bool)
    requires suffix == ".worker" || suffix == ".event"
    ensures BinaryPath(n, suffix) !in [BinaryPath(n, "")] + ["/etc/" + n + "/logs", "/etc/" + n + "/modules"]
                                      + (if hasRun then ["/etc/" + n + "/run"] else [])
  {
    var b := BinaryPath(n, suffix);
    assert |b| != |BinaryPath(n, "")|;
    DifferAt(b, "/etc/" + n + "/logs", 1);
    DifferAt(b, "/etc/" + n + "/modules", 1);
    DifferAt(b, "/etc/" + n + "/run", 1);
  }

  /** The `.worker` and `.event` binary links are declared exactly below 2.4. */
  lemma MpmLinkIffLegacy(v: ClassVariables, res: HttpdService, suffix: string)
    requires suffix == ".worker" || suffix == ".event"
    ensures BinaryPath(Interpolate(v.apacheName), suffix) in Links(CreateDecls(v, res).decls)
            <==> VersionBelowTwoFour(v.apacheVersion)
  {
    var n := Interpolate(v.apacheName);
    CreateLinks(v, res);
    if !VersionBelowTwoFour(v.apacheVersion) {
      MpmLinkNotElsewhere(n, suffix, v.elversion.Some?);
      assert [BinaryPath(n, "")] + [] == [BinaryPath(n, "")];
    }
  }

  /** `conf.modules.d` is none of the other directories `create_common` declares. */
  lemma ModulesDirectoryNotElsewhere(n: string, libarch: string, hasRunDirectory: bool)
    ensures "/etc/" + n + "/conf.modules.d"
            !in ["/etc/" + n, "/etc/" + n + "/conf", "/etc/" + n + "/conf.d"]
                + ["/usr/" + libarch + "/httpd/modules", "/var/log/" + n]
                + (if hasRunDirectory then ["/var/run/" + n] else [])
  {
    var d := "/etc/" + n + "/conf.modules.d";
    assert |d| != |"/etc/" + n| && |d| != |"/etc/" + n + "/conf"| && |d| != |"/etc/" + n + "/conf.d"|;
    DifferAt(d, "/usr/" + libarch + "/httpd/modules", 1);
    DifferAt(d, "/var/log/" + n, 1);
    DifferAt(d, "/var/run/" + n, 1);
  }

  /**
   * The `mpm_<mpm>` module and the `conf.modules.d` directory are declared
   * exactly from 2.4 on.
   */
  lemma MpmModuleIffModern(v: ClassVariables, res: HttpdService)
    ensures var n, legacy, ds := Interpolate(v.apacheName), VersionBelowTwoFour(v.apacheVersion), CreateDecls(v, res).decls;
      && ("mpm_" + res.mpm in ModulesOf(ds) <==> !legacy)
      && ("/etc/" + n + "/conf.modules.d" in Directories(ds) <==> !legacy)
  {
    var n := Interpolate(v.apacheName);
    CreateModules(v, res);
    CreateDirectories(v, res);
    if VersionBelowTwoFour(v.apacheVersion) {
      DifferAt("mpm_" + res.mpm, "log_config", 0);
      DifferAt("mpm_" + res.mpm, "logio", 0);
      ModulesDirectoryNotElsewhere(n, Interpolate(v.libarch), v.elversion.Some? && v.elversion.value > 5);
      assert ["/etc/" + n, "/etc/" + n + "/conf", "/etc/" + n + "/conf.d"] + []
          == ["/etc/" + n, "/etc/" + n + "/conf", "/etc/" + n + "/conf.d"];
    }
  }

  /** The runtime directory is none of the directories declared before it. */
  lemma RunDirectoryNotElsewhere(n: string, libarch: string, legacy: bool)
    ensures "/var/run/" + n
            !in ["/etc/" + n, "/etc/" + n + "/conf", "/etc/" + n + "/conf.d"]
                + (if legacy then [] else ["/etc/" + n + "/conf.modules.d"])
                + ["/usr/" + libarch + "/httpd/modules", "/var/log/" + n]
  {
    var d := "/var/run/" + n;
    DifferAt(d, "/etc/" + n, 1);
    DifferAt(d, "/etc/" + n + "/conf", 1);
    DifferAt(d, "/etc/" + n + "/conf.d", 1);
    DifferAt(d, "/etc/" + n + "/conf.modules.d", 1);
    DifferAt(d, "/usr/" + libarch + "/httpd/modules", 1);
    DifferAt(d, "/var/log/" + n, 5);
  }

  /** The runtime link is none of the links declared before it. */
  lemma RunLinkNotElsewhere(n: string, legacy: bool)
    ensures "/etc/" + n + "/run"
            !in [BinaryPath(n, "")]
                + (if legacy then [BinaryPath(n, ".worker"), BinaryPath(n, ".event")] else [])
                + ["/etc/" + n + "/logs", "/etc/" + n + "/modules"]
  {
    var l := "/etc/" + n + "/run";
    DifferAt(l, BinaryPath(n, ""), 1);
    DifferAt(l, BinaryPath(n, ".worker"), 1);
    DifferAt(l, BinaryPath(n, ".event"), 1);
    DifferAt(l, "/etc/" + n + "/logs", |n| + 6);
    DifferAt(l, "/etc/" + n + "/modules", |n| + 6);
  }

  /**
   * The runtime directory: channels above 5 get a `/var/run/<name>`
   * directory, and every channel gets the `/etc/<name>/run` link; with no
   * channel known neither is declared.
   */
  lemma RuntimeArtifacts(v: ClassVariables, res: HttpdService)
    ensures var n, ds := Interpolate(v.apacheName), CreateDecls(v, res).decls;
      && ("/var/run/" + n in Directories(ds) <==> v.elversion.Some? && v.elversion.value > 5)
      && ("/etc/" + n + "/run" in Links(ds) <==> v.elversion.Some?)
  {
    var n := Interpolate(v.apacheName);
    CreateLinks(v, res);
    CreateDirectories(v, res);
    RunDirectoryNotElsewhere(n, Interpolate(v.libarch), VersionBelowTwoFour(v.apacheVersion));
    RunLinkNotElsewhere(n, VersionBelowTwoFour(v.apacheVersion));
  }

  /**
   * Right after the declarations before the channel test: above channel 5
   * the `/var/run/<name>` directory and then the run link into it; otherwise
   * only the run link, to `/var/run` itself.
   */
  lemma RuntimeLayout(v: ClassVariables, res: HttpdService, el: int)
    requires v.elversion == Some(el)
    ensures var n, ds, h := Interpolate(v.apacheName), CreateDecls(v, res).decls, |CreateHead(v, res)|;
      if el > 5 then
        && h + 1 < |ds|
        && ds[h].props == DirectoryProps("/var/run/" + n, Some("root"), Some("root"), Some("0755"), true)
        && ds[h + 1].props == LinkProps("/etc/" + n + "/run", Some("../../var/run/" + n))
      else
        && h < |ds|
        && ds[h].props == LinkProps("/etc/" + n + "/run", Some("../../var/run/"))
  {
  }

  /** Every declaration of `create_common` follows the guard and notification rules. */
  lemma CreateWellWired(v: ClassVariables, res: HttpdService)
    ensures WellWired(res, Interpolate(v.apacheName), CreateDecls(v, res).decls)
  {
    var n, legacy, libarch := Interpolate(v.apacheName), VersionBelowTwoFour(v.apacheVersion), Interpolate(v.libarch);
    var sw := SoftwareDecls(res, v.apacheVersion, n, legacy);
    var lay := LayoutDecls(res, n, legacy, libarch);
    SoftwareWiring(res, v.apacheVersion, n, legacy);
    LayoutWiring(res, n, legacy, libarch);
    WiredConcat(res, n, sw, lay);
    if v.elversion.Some? {
      var run := RunDecls(res, n, v.elversion.value);
      var files := ConfigFileDecls(res, n, ConfVariablesOf(v));
      RunWiring(res, n, v.elversion.value);
      ConfigFileWiring(res, n, ConfVariablesOf(v));
      WiredConcat(res, n, sw + lay, run);
      WiredConcat(res, n, sw + lay + run, files);
      assert CreateDecls(v, res).decls == sw + lay + run + files;
    }
  }

  /** What the notification rule says about the edges of any well-wired list. */
  lemma WiredNotifications(res: HttpdService, n: string, ds: seq<Resource>)
    requires WellWired(res, n, ds)
    ensures forall r, nt | r in ds && nt in r.notifies ::
      && (nt.timing == Immediately <==> nt == Notification(Run, RemovePackageConfigDecl(res).Key(), Immediately))
      && (nt.timing == Delayed ==> nt.target == ServiceTarget(res, n))
      && (nt.action == Restart ==> r.props.TemplateProps? && r.props.source == "httpd.conf.erb")
      && (nt.action == Reload ==> r.props.ModuleProps? || r.props.ConfigProps?)
  {
    forall r, nt | r in ds && nt in r.notifies
      ensures && (nt.timing == Immediately <==> nt == Notification(Run, RemovePackageConfigDecl(res).Key(), Immediately))
              && (nt.timing == Delayed ==> nt.target == ServiceTarget(res, n))
              && (nt.action == Restart ==> r.props.TemplateProps? && r.props.source == "httpd.conf.erb")
              && (nt.action == Reload ==> r.props.ModuleProps? || r.props.ConfigProps?)
    {
      assert GuardRule(r) && NotifiesByKind(res, n, r);
    }
  }

  /**
   * The notification edges of `create_common`: the only immediate one runs
   * the clean-up script; every delayed one goes to the instance's service;
   * only `httpd.conf` asks for a restart, and only modules and the MPM
   * configuration ask for a reload.
   */
  lemma CreateNotifications(v: ClassVariables, res: HttpdService)
    ensures var n, ds := Interpolate(v.apacheName), CreateDecls(v, res).decls;
      forall r, nt | r in ds && nt in r.notifies ::
        && (nt.timing == Immediately <==> nt == Notification(Run, RemovePackageConfigDecl(res).Key(), Immediately))
        && (nt.timing == Delayed ==> nt.target == ServiceTarget(res, n))
        && (nt.action == Restart ==> r.props.TemplateProps? && r.props.source == "httpd.conf.erb")
        && (nt.action == Reload ==> r.props.ModuleProps? || r.props.ConfigProps?)
  {
    CreateWellWired(v, res);
    WiredNotifications(res, Interpolate(v.apacheName), CreateDecls(v, res).decls);
  }

  /** `create_common` starts with the three software installation declarations. */
  lemma CreateStartsWithPackages(v: ClassVariables, res: HttpdService)
    ensures |CreateDecls(v, res).decls| >= 3 && CreateDecls(v, res).decls[..3] == PackageDecls(res)
  {
    var n, legacy := Interpolate(v.apacheName), VersionBelowTwoFour(v.apacheVersion);
    var p := PackageDecls(res);
    var sw := SoftwareDecls(res, v.apacheVersion, n, legacy);
    var head := CreateHead(v, res);
    var ds := CreateDecls(v, res).decls;
    assert |sw| >= 3 && sw[..3] == p;
    assert |head| >= 3 && head[..3] == p by {
      assert head == sw + LayoutDecls(res, n, legacy, Interpolate(v.libarch));
    }
    assert ds[..3] == p by {
      assert ds[..|head|] == head;
    }
  }

  /**
   * Installing the package runs the clean-up script at once: the package is
   * declared first and notifies the second declaration, a root `bash` script
   * that does nothing unless notified; `net-tools` follows.
   */
  lemma PackageTriggersCleanup(v: ClassVariables, res: HttpdService)
    ensures var ds := CreateDecls(v, res).decls;
      && |ds| >= 3
      && ds[0].props == PackageProps(res.packageName) && ds[0].action == Install
      && ds[0].notifies == [Notification(Run, ds[1].Key(), Immediately)]
      && ds[1].props == BashProps("root", RemovePackageConfigScript) && ds[1].action == Nothing
      && ds[2].props == PackageProps("net-tools") && ds[2].notifies == []
  {
    var ds := CreateDecls(v, res).decls;
    CreateStartsWithPackages(v, res);
    assert ds[0] == ds[..3][0] && ds[1] == ds[..3][1] && ds[2] == ds[..3][2];
    assert ds[1].Key() == "bash[" + RemovePackageConfigName(res) + "]" by {
      assert "bash" + "[" == "bash[";
    }
  }

  /**
   * `create_common` raises exactly when no channel is known, and it raises
   * `NoMethodError` for `>` after the declarations before the channel test,
   * so the runtime link is never declared then.
   */
  lemma CreateFailure(v: ClassVariables, res: HttpdService)
    ensures CreateDecls(v, res).failure.Some? <==> v.elversion.None?
    ensures v.elversion.None? ==>
      && CreateDecls(v, res).failure == Some(NoMethodError(">"))
      && CreateDecls(v, res).decls == CreateHead(v, res)
      && "/etc/" + Interpolate(v.apacheName) + "/run" !in Links(CreateDecls(v, res).decls)
  {
    RuntimeArtifacts(v, res);
  }

  /**
   * On a fresh class, `create_common` after `set_class_variables` succeeds
   * exactly when the platform version maps to a channel.
   */
  lemma FirstCreateSucceedsIffChannelMapped(node: Node, res: HttpdService)
    ensures CreateDecls(Resolve(Unset, node, res), res).failure.None?
            <==> ChannelFor(ToI(node.platformVersion)).Some?
  {
  }

  /**
   * After `set_class_variables` on a mapped platform, the last declaration
   * is `httpd.conf`, rendered with the PID file of the channel and the
   * include list of the version family, and restarting the service.
   */
  lemma MainConfigAfterResolve(v: ClassVariables, node: Node, res: HttpdService)
    requires ChannelFor(ToI(node.platformVersion)).Some?
    ensures var name, b := ApacheNameFor(res.instance), CreateDecls(Resolve(v, node, res), res);
      && b.failure.None? && |b.decls| > 0
      && var last := b.decls[|b.decls| - 1];
      && last.props.TemplateProps?
      && last.props.path == "/etc/" + name + "/conf/httpd.conf"
      && last.props.variables.Some?
      && last.props.variables.value.pidFile == PidFileFor(ChannelFor(ToI(node.platformVersion)).value, name)
      && (BelowTwoFour(res.version) ==> last.props.variables.value.includes == Some(LegacyIncludes))
      && (!BelowTwoFour(res.version) ==> last.props.variables.value.includeOptionals == Some(OptionalIncludes))
      && last.props.variables.value.lockFile.None? && last.props.variables.value.mutex.None?
      && last.notifies == [Notification(Restart, ServiceTarget(res, name), Delayed)]
  {
  }

  /**
   * In every state `set_class_variables` can leave behind (the provider's
   * `Valid` invariant) with a channel set, `create_common` succeeds and
   * renders `httpd.conf` with an actual PID file, the one of the current
   * channel and service name, and with the include list of the current
   * version family.
   */
  lemma ConsistentMainConfig(v: ClassVariables, res: HttpdService)
    requires Consistent(v) && v.elversion.Some?
    ensures var b := CreateDecls(v, res);
      && b.failure.None? && |b.decls| > 0
      && var last := b.decls[|b.decls| - 1];
      && last.props.TemplateProps? && last.props.variables.Some?
      && last.props.variables.value.pidFile.Some?
      && last.props.variables.value.pidFile == PidFileFor(v.elversion.value, v.apacheName.value)
      && (BelowTwoFour(v.apacheVersion.value) ==> last.props.variables.value.includes == Some(LegacyIncludes))
      && (!BelowTwoFour(v.apacheVersion.value) ==> last.props.variables.value.includeOptionals == Some(OptionalIncludes))
  {
  }
}
