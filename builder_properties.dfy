/**
 * What the declaration lists of `create_common` and `delete_common` contain:
 * the modules, links and directories in order, which declarations carry the
 * `not_if` guard and how they are wired by notifications, stated section by
 * section.
 */
module BuilderProperties {

  import opened Wrappers
  import opened RubyNumeric
  import opened Resources
  import opened Profile
  import opened Declarations

  predicate HasPrefix(s: string, p: string) {
    |p| <= |s| && s[..|p|] == p
  }

  /** The link one declaration contributes to `Links`. */
  function LinkItem(r: Resource): seq<string> {
    if r.props.LinkProps? then [r.props.targetFile] else []
  }

  /** The directory one declaration contributes to `Directories`. */
  function DirectoryItem(r: Resource): seq<string> {
    if r.props.DirectoryProps? then [r.props.path] else []
  }

  /** The module name one declaration contributes to `ModulesOf`. */
  function ModuleItem(r: Resource): seq<string> {
    if r.props.ModuleProps? then [r.props.moduleName] else []
  }

  /** The paths of the `link` declarations, in declaration order. */
  function Links(ds: seq<Resource>): seq<string> {
    if ds == [] then [] else LinkItem(ds[0]) + Links(ds[1..])
  }

  /** The paths of the `directory` declarations, in declaration order. */
  function Directories(ds: seq<Resource>): seq<string> {
    if ds == [] then [] else DirectoryItem(ds[0]) + Directories(ds[1..])
  }

  /** The module names of the `httpd_module` declarations, in declaration order. */
  function ModulesOf(ds: seq<Resource>): seq<string> {
    if ds == [] then [] else ModuleItem(ds[0]) + ModulesOf(ds[1..])
  }

  /** A link under `/usr/sbin`: the binaries of the service. */
  predicate IsBinaryLink(r: Resource) {
    r.props.LinkProps? && HasPrefix(r.props.targetFile, "/usr/sbin/")
  }

  /** The `not_if { @@apache_name == 'httpd' }` guard sits on exactly the binary links. */
  predicate GuardRule(r: Resource) {
    r.guard == NotIfApacheNameIsHttpd <==> IsBinaryLink(r)
  }

  /**
   * The notifications each kind of declaration sends: a package at most the
   * immediate run of the clean-up script; modules and the MPM configuration
   * a delayed reload of the service; `httpd.conf` a delayed restart; every
   * other declaration nothing.
   */
  predicate NotifiesByKind(res: HttpdService, apacheName: string, r: Resource) {
    match r.props
    case PackageProps(_) =>
      r.notifies == [] || r.notifies == [Notification(Run, RemovePackageConfigDecl(res).Key(), Immediately)]
    case ModuleProps(_, _, _) => r.notifies == [ReloadService(res, apacheName)]
    case ConfigProps(_, _, _, _) => r.notifies == [ReloadService(res, apacheName)]
    case TemplateProps(_, source, _, _, _, _, _) =>
      r.notifies == (if source == "httpd.conf.erb"
                     then [Notification(Restart, ServiceTarget(res, apacheName), Delayed)] else [])
    case _ => r.notifies == []
  }

  /** Every declaration of `ds` follows the guard rule and the notification rule. */
  predicate WellWired(res: HttpdService, apacheName: string, ds: seq<Resource>) {
    forall r | r in ds :: GuardRule(r) && NotifiesByKind(res, apacheName, r)
  }

  /** `Links` lists exactly the paths of the link declarations. */
  lemma {:induction false} LinksMembership(ds: seq<Resource>, p: string)
    ensures p in Links(ds) <==> exists r | r in ds :: r.props.LinkProps? && r.props.targetFile == p
  {
    if ds != [] {
      LinksMembership(ds[1..], p);
      assert forall r | r in ds :: r == ds[0] || r in ds[1..];
    }
  }

  /** `Directories` lists exactly the paths of the directory declarations. */
  lemma {:induction false} DirectoriesMembership(ds: seq<Resource>, p: string)
    ensures p in Directories(ds) <==> exists r | r in ds :: r.props.DirectoryProps? && r.props.path == p
  {
    if ds != [] {
      DirectoriesMembership(ds[1..], p);
      assert forall r | r in ds :: r == ds[0] || r in ds[1..];
    }
  }

  lemma {:induction false} LinksConcat(a: seq<Resource>, b: seq<Resource>)
    ensures Links(a + b) == Links(a) + Links(b)
  {
    if a == [] {
      assert a + b == b;
    } else {
      assert (a + b)[1..] == a[1..] + b;
      LinksConcat(a[1..], b);
    }
  }

  lemma {:induction false} DirectoriesConcat(a: seq<Resource>, b: seq<Resource>)
    ensures Directories(a + b) == Directories(a) + Directories(b)
  {
    if a == [] {
      assert a + b == b;
    } else {
      assert (a + b)[1..] == a[1..] + b;
      DirectoriesConcat(a[1..], b);
    }
  }

  lemma {:induction false} ModulesConcat(a: seq<Resource>, b: seq<Resource>)
    ensures ModulesOf(a + b) == ModulesOf(a) + ModulesOf(b)
  {
    if a == [] {
      assert a + b == b;
    } else {
      assert (a + b)[1..] == a[1..] + b;
      ModulesConcat(a[1..], b);
    }
  }

  /** Links, directories and modules of a concatenation, in one step. */
  lemma InventoryConcat(a: seq<Resource>, b: seq<Resource>)
    ensures Links(a + b) == Links(a) + Links(b)
    ensures Directories(a + b) == Directories(a) + Directories(b)
    ensures ModulesOf(a + b) == ModulesOf(a) + ModulesOf(b)
  {
    LinksConcat(a, b);
    DirectoriesConcat(a, b);
    ModulesConcat(a, b);
  }

  /** Links, directories and modules of a declaration followed by others. */
  lemma InventoryCons(r: Resource, ds: seq<Resource>)
    ensures Links([r] + ds) == LinkItem(r) + Links(ds)
    ensures Directories([r] + ds) == DirectoryItem(r) + Directories(ds)
    ensures ModulesOf([r] + ds) == ModuleItem(r) + ModulesOf(ds)
  {
    assert ([r] + ds)[1..] == ds;
  }

  lemma Inventory1(a: Resource)
    ensures Links([a]) == LinkItem(a) && Directories([a]) == DirectoryItem(a) && ModulesOf([a]) == ModuleItem(a)
  {
    InventoryCons(a, []);
    assert [a] + [] == [a];
  }

  lemma Inventory2(a: Resource, b: Resource)
    ensures Links([a, b]) == LinkItem(a) + LinkItem(b)
    ensures Directories([a, b]) == DirectoryItem(a) + DirectoryItem(b)
    ensures ModulesOf([a, b]) == ModuleItem(a) + ModuleItem(b)
  {
    Inventory1(b);
    InventoryCons(a, [b]);
    assert [a] + [b] == [a, b];
  }

  lemma Inventory3(a: Resource, b: Resource, c: Resource)
    ensures Links([a, b, c]) == LinkItem(a) + LinkItem(b) + LinkItem(c)
    ensures Directories([a, b, c]) == DirectoryItem(a) + DirectoryItem(b) + DirectoryItem(c)
    ensures ModulesOf([a, b, c]) == ModuleItem(a) + ModuleItem(b) + ModuleItem(c)
  {
    var ds := [a, b, c];
    assert ds[1..] == [b, c];
    Inventory2(b, c);
  }

  lemma SbinIsBinary(apacheName: string, suffix: string)
    ensures HasPrefix(BinaryPath(apacheName, suffix), "/usr/sbin/")
  {
    assert BinaryPath(apacheName, suffix)[..10] == "/usr/sbin/";
  }

  lemma EtcIsNotBinary(s: string)
    requires |s| >= 2 && s[1] == 'e'
    ensures !HasPrefix(s, "/usr/sbin/")
  {
    assert |s| >= 10 ==> s[..10][1] == 'e';
  }

  // ---------------------------------------------------------------------------
  // The sections of `create_common`

  lemma PackageSection(res: HttpdService, apacheName: string)
    ensures var ds := PackageDecls(res);
      Links(ds) == [] && Directories(ds) == [] && ModulesOf(ds) == []
  {
    Inventory3(PackageDecl(res), RemovePackageConfigDecl(res), NetToolsDecl(res));
  }

  lemma {:induction false} ModuleSection(res: HttpdService, version: Option<string>, apacheName: string, ms: seq<string>)
    ensures var ds := ModuleDecls(res, version, apacheName, ms);
      Links(ds) == [] && Directories(ds) == [] && ModulesOf(ds) == ms
  {
    if ms != [] {
      var init := ModuleDecls(res, version, apacheName, ms[..|ms| - 1]);
      var last := ModuleDecl(res, version, apacheName, ms[|ms| - 1]);
      var ds := ModuleDecls(res, version, apacheName, ms);
      assert ds == init + [last];
      assert Links(init) == [] && Directories(init) == [] && ModulesOf(init) == ms[..|ms| - 1] by {
        ModuleSection(res, version, apacheName, ms[..|ms| - 1]);
      }
      assert Links(ds) == [] && Directories(ds) == [] && ModulesOf(ds) == ms[..|ms| - 1] + [ms[|ms| - 1]] by {
        InventoryConcat(init, [last]);
        Inventory1(last);
      }
      assert ms == ms[..|ms| - 1] + [ms[|ms| - 1]];
    }
  }

  lemma BinaryLinkSection(res: HttpdService, apacheName: string, suffix: string)
    ensures var ds := [BinaryLinkDecl(res, apacheName, suffix)];
      Links(ds) == [BinaryPath(apacheName, suffix)] && Directories(ds) == []
      && ModulesOf(ds) == []
  {
    Inventory1(BinaryLinkDecl(res, apacheName, suffix));
  }

  lemma MpmSection(res: HttpdService, version: Option<string>, apacheName: string, legacy: bool)
    ensures var ds := MpmDecls(res, version, apacheName, legacy);
      && Links(ds) == (if legacy then [BinaryPath(apacheName, ".worker"), BinaryPath(apacheName, ".event")]
                               else [])
      && Directories(ds) == []
      && ModulesOf(ds) == (if legacy then [] else ["mpm_" + res.mpm])
  {
    var c := MpmConfigDecl(res, apacheName);
    if legacy {
      var w, e := BinaryLinkDecl(res, apacheName, ".worker"), BinaryLinkDecl(res, apacheName, ".event");
      assert MpmDecls(res, version, apacheName, legacy) == [w, e, c];
      Inventory3(w, e, c);
    } else {
      var m := ModuleDecl(res, version, apacheName, "mpm_" + res.mpm);
      assert MpmDecls(res, version, apacheName, legacy) == [m, c];
      Inventory2(m, c);
    }
  }

  /** The software half of the head, summarised. */
  lemma SoftwareSection(res: HttpdService, version: Option<string>, apacheName: string, legacy: bool)
    ensures var ds := SoftwareDecls(res, version, apacheName, legacy);
      && Links(ds) == [BinaryPath(apacheName, "")]
                              + (if legacy then [BinaryPath(apacheName, ".worker"), BinaryPath(apacheName, ".event")]
                                 else [])
      && Directories(ds) == []
      && ModulesOf(ds) == ModuleNames(legacy) + (if legacy then [] else ["mpm_" + res.mpm])
  {
    var p := PackageDecls(res);
    var m := ModuleDecls(res, version, apacheName, ModuleNames(legacy));
    var b := [BinaryLinkDecl(res, apacheName, "")];
    var x := MpmDecls(res, version, apacheName, legacy);
    assert Links(p + m) == [] && Directories(p + m) == [] && ModulesOf(p + m) == ModuleNames(legacy) by {
      PackageSection(res, apacheName);
      ModuleSection(res, version, apacheName, ModuleNames(legacy));
      InventoryConcat(p, m);
    }
    assert Links(p + m + b) == [BinaryPath(apacheName, "")] && Directories(p + m + b) == []
        && ModulesOf(p + m + b) == ModuleNames(legacy) by {
      BinaryLinkSection(res, apacheName, "");
      InventoryConcat(p + m, b);
    }
    MpmSection(res, version, apacheName, legacy);
    InventoryConcat(p + m + b, x);
  }

  lemma ConfigDirectorySection(res: HttpdService, apacheName: string, legacy: bool)
    ensures var ds := ConfigDirectoryDecls(res, apacheName, legacy);
      && Links(ds) == [] && ModulesOf(ds) == []
      && Directories(ds) == ["/etc/" + apacheName, "/etc/" + apacheName + "/conf", "/etc/" + apacheName + "/conf.d"]
                                   + (if legacy then [] else ["/etc/" + apacheName + "/conf.modules.d"])
  {
    var a, b, c := DirectoryDecl(res, "/etc/" + apacheName), DirectoryDecl(res, "/etc/" + apacheName + "/conf"),
                   DirectoryDecl(res, "/etc/" + apacheName + "/conf.d");
    var back: seq<Resource> := if legacy then [] else [DirectoryDecl(res, "/etc/" + apacheName + "/conf.modules.d")];
    assert ConfigDirectoryDecls(res, apacheName, legacy) == [a, b, c] + back;
    assert && Links([a, b, c]) == [] && ModulesOf([a, b, c]) == []
           && Directories([a, b, c]) == ["/etc/" + apacheName, "/etc/" + apacheName + "/conf", "/etc/" + apacheName + "/conf.d"] by {
      Inventory3(a, b, c);
    }
    assert && Links(back) == [] && ModulesOf(back) == []
           && Directories(back) == (if legacy then [] else ["/etc/" + apacheName + "/conf.modules.d"]) by {
      if !legacy {
        Inventory1(back[0]);
      }
    }
    InventoryConcat([a, b, c], back);
  }

  lemma SupportSection(res: HttpdService, apacheName: string, libarch: string)
    ensures var ds := SupportDecls(res, apacheName, libarch);
      && Links(ds) == ["/etc/" + apacheName + "/logs", "/etc/" + apacheName + "/modules"]
      && Directories(ds) == ["/usr/" + libarch + "/httpd/modules", "/var/log/" + apacheName]
      && ModulesOf(ds) == []
  {
    var a, b := DirectoryDecl(res, "/usr/" + libarch + "/httpd/modules"), DirectoryDecl(res, "/var/log/" + apacheName);
    var c := LinkDecl(res, "/etc/" + apacheName + "/logs", "../../var/log/" + apacheName);
    var d := LinkDecl(res, "/etc/" + apacheName + "/modules", "../../usr/" + libarch + "/httpd/modules");
    assert SupportDecls(res, apacheName, libarch) == [a, b] + [c, d];
    Inventory2(a, b);
    Inventory2(c, d);
    InventoryConcat([a, b], [c, d]);
  }

  lemma LayoutSection(res: HttpdService, apacheName: string, legacy: bool, libarch: string)
    ensures var ds := LayoutDecls(res, apacheName, legacy, libarch);
      && Links(ds) == ["/etc/" + apacheName + "/logs", "/etc/" + apacheName + "/modules"]
      && Directories(ds) == ["/etc/" + apacheName, "/etc/" + apacheName + "/conf", "/etc/" + apacheName + "/conf.d"]
                                   + (if legacy then [] else ["/etc/" + apacheName + "/conf.modules.d"])
                                   + ["/usr/" + libarch + "/httpd/modules", "/var/log/" + apacheName]
      && ModulesOf(ds) == []
  {
    ConfigDirectorySection(res, apacheName, legacy);
    SupportSection(res, apacheName, libarch);
    InventoryConcat(ConfigDirectoryDecls(res, apacheName, legacy), SupportDecls(res, apacheName, libarch));
  }

  lemma RunSection(res: HttpdService, apacheName: string, elversion: int)
    ensures var ds := RunDecls(res, apacheName, elversion);
      && Links(ds) == ["/etc/" + apacheName + "/run"]
      && Directories(ds) == (if elversion > 5 then ["/var/run/" + apacheName] else [])
      && ModulesOf(ds) == []
  {
    var link := LinkDecl(res, "/etc/" + apacheName + "/run",
                         if elversion > 5 then "../../var/run/" + apacheName else "../../var/run/");
    if elversion > 5 {
      Inventory2(DirectoryDecl(res, "/var/run/" + apacheName), link);
    } else {
      Inventory1(link);
    }
  }

  lemma ConfigFileSection(res: HttpdService, apacheName: string, variables: ConfVariables)
    ensures var ds := ConfigFileDecls(res, apacheName, variables);
      Links(ds) == [] && Directories(ds) == [] && ModulesOf(ds) == []
  {
    Inventory2(MagicDecl(res, apacheName), HttpdConfDecl(res, apacheName, variables));
  }

  // ---------------------------------------------------------------------------
  // Guards and notifications, section by section

  lemma WiredConcat(res: HttpdService, apacheName: string, a: seq<Resource>, b: seq<Resource>)
    requires WellWired(res, apacheName, a) && WellWired(res, apacheName, b)
    ensures WellWired(res, apacheName, a + b)
  {
    forall r | r in a + b
      ensures GuardRule(r) && NotifiesByKind(res, apacheName, r)
    {
      assert r in a || r in b;
    }
  }

  lemma PackageWiring(res: HttpdService, apacheName: string)
    ensures WellWired(res, apacheName, PackageDecls(res))
  {
    var a, b, c := PackageDecl(res), RemovePackageConfigDecl(res), NetToolsDecl(res);
    assert b.Key() == "bash[" + RemovePackageConfigName(res) + "]" by {
      assert "bash" + "[" == "bash[";
    }
    assert GuardRule(a) && NotifiesByKind(res, apacheName, a);
    assert GuardRule(b) && NotifiesByKind(res, apacheName, b);
    assert GuardRule(c) && NotifiesByKind(res, apacheName, c);
  }

  lemma {:induction false} ModuleWiring(res: HttpdService, version: Option<string>, apacheName: string, ms: seq<string>)
    ensures WellWired(res, apacheName, ModuleDecls(res, version, apacheName, ms))
  {
    if ms != [] {
      ModuleWiring(res, version, apacheName, ms[..|ms| - 1]);
    }
  }

  lemma BinaryLinkWiring(res: HttpdService, apacheName: string, suffix: string)
    ensures GuardRule(BinaryLinkDecl(res, apacheName, suffix))
    ensures NotifiesByKind(res, apacheName, BinaryLinkDecl(res, apacheName, suffix))
  {
    SbinIsBinary(apacheName, suffix);
  }

  lemma SoftwareWiring(res: HttpdService, version: Option<string>, apacheName: string, legacy: bool)
    ensures WellWired(res, apacheName, SoftwareDecls(res, version, apacheName, legacy))
  {
    PackageWiring(res, apacheName);
    ModuleWiring(res, version, apacheName, ModuleNames(legacy));
    BinaryLinkWiring(res, apacheName, "");
    BinaryLinkWiring(res, apacheName, ".worker");
    BinaryLinkWiring(res, apacheName, ".event");
  }

  lemma SupportWiring(res: HttpdService, apacheName: string, libarch: string)
    ensures WellWired(res, apacheName, SupportDecls(res, apacheName, libarch))
  {
    EtcIsNotBinary("/etc/" + apacheName + "/logs");
    EtcIsNotBinary("/etc/" + apacheName + "/modules");
  }

  lemma ConfigDirectoryWiring(res: HttpdService, apacheName: string, legacy: bool)
    ensures WellWired(res, apacheName, ConfigDirectoryDecls(res, apacheName, legacy))
  {
  }

  lemma LayoutWiring(res: HttpdService, apacheName: string, legacy: bool, libarch: string)
    ensures WellWired(res, apacheName, LayoutDecls(res, apacheName, legacy, libarch))
  {
    ConfigDirectoryWiring(res, apacheName, legacy);
    SupportWiring(res, apacheName, libarch);
    WiredConcat(res, apacheName, ConfigDirectoryDecls(res, apacheName, legacy), SupportDecls(res, apacheName, libarch));
  }

  lemma RunWiring(res: HttpdService, apacheName: string, elversion: int)
    ensures WellWired(res, apacheName, RunDecls(res, apacheName, elversion))
  {
    EtcIsNotBinary("/etc/" + apacheName + "/run");
  }

  lemma ConfigFileWiring(res: HttpdService, apacheName: string, variables: ConfVariables)
    ensures WellWired(res, apacheName, ConfigFileDecls(res, apacheName, variables))
  {
  }
}
