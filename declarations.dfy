/**
 * The declarations `create_common` and `delete_common` make, as pure
 * functions of the class variables and the `httpd_service` resource. The
 * provider's methods are proved to append exactly these lists; the
 * properties of the lists are proved in module `BuilderProperties`.
 */
module Declarations {

  import opened Wrappers
  import opened RubyNumeric
  import opened Resources
  import opened Profile

  /** The Ruby exceptions the builders can raise part-way through. */
  datatype RubyError =
    /** `nil > 5`: `>` is not defined on `nil`. */
    | NoMethodError(selector: string)
    /** A class variable read before anything assigned it. */
    | NameError(variable: string)

  /** The declarations made before returning or raising, and the exception if one was raised. */
  datatype Built = Built(decls: seq<Resource>, failure: Option<RubyError>)

  /** `"#{new_resource.name} <action> <what>"`, the name every declaration gets. */
  function Named(res: HttpdService, action: string, what: string): string {
    res.name + " " + action + " " + what
  }

  /** The service the subclasses declare, which the notifications address. */
  function ServiceTarget(res: HttpdService, apacheName: string): string {
    "service[" + Named(res, "create", apacheName) + "]"
  }

  function ReloadService(res: HttpdService, apacheName: string): Notification {
    Notification(Reload, ServiceTarget(res, apacheName), Delayed)
  }

  /** The commands of the script that clears the configuration the package installs. */
  const RemovePackageConfigScript: seq<string> :=
    ["rm -f /etc/httpd/conf.d/*", "rm -rf /etc/httpd/conf.modules.d/*"]

  function RemovePackageConfigName(res: HttpdService): string {
    Named(res, "create", "remove_package_config")
  }

  /** The httpd package, which runs the clean-up script as soon as it is installed. */
  function PackageDecl(res: HttpdService): Resource {
    Resource(Named(res, "create", res.packageName), PackageProps(res.packageName), Install, Unguarded,
             [Notification(Run, "bash[" + RemovePackageConfigName(res) + "]", Immediately)])
  }

  /** The clean-up script: it does nothing unless notified. */
  function RemovePackageConfigDecl(res: HttpdService): Resource {
    Resource(RemovePackageConfigName(res), BashProps("root", RemovePackageConfigScript), Nothing, Unguarded, [])
  }

  function NetToolsDecl(res: HttpdService): Resource {
    Resource(Named(res, "create", "net-tools"), PackageProps("net-tools"), Install, Unguarded, [])
  }

  /** The modules loaded in both families; the 2.4 family loads three more. */
  function ModuleNames(legacy: bool): seq<string> {
    if legacy then ["log_config", "logio"]
    else ["log_config", "logio", "unixd", "version", "watchdog"]
  }

  /** An `httpd_module` resource, which reloads the service when it changes. */
  function ModuleDecl(res: HttpdService, version: Option<string>, apacheName: string, m: string): Resource {
    Resource(Named(res, "create", m), ModuleProps(m, version, res.instance), Create, Unguarded,
             [ReloadService(res, apacheName)])
  }

  /** One `httpd_module` declaration per module name, in order. */
  function ModuleDecls(res: HttpdService, version: Option<string>, apacheName: string, ms: seq<string>): seq<Resource> {
    if ms == [] then []
    else ModuleDecls(res, version, apacheName, ms[..|ms| - 1]) + [ModuleDecl(res, version, apacheName, ms[|ms| - 1])]
  }

  /** `/usr/sbin/<name><suffix>`: the binary of one MPM under the service's name. */
  function BinaryPath(apacheName: string, suffix: string): string {
    "/usr/sbin/" + apacheName + suffix
  }

  /** A link from the service's binary name to httpd's, skipped for the default instance. */
  function BinaryLinkDecl(res: HttpdService, apacheName: string, suffix: string): Resource {
    var path := BinaryPath(apacheName, suffix);
    Resource(Named(res, "create", path), LinkProps(path, Some("/usr/sbin/httpd" + suffix)), Create,
             NotIfApacheNameIsHttpd, [])
  }

  function MpmConfigDecl(res: HttpdService, apacheName: string): Resource {
    Resource(Named(res, "create", "mpm_" + res.mpm),
             ConfigProps("mpm_" + res.mpm, res.instance, "mpm.conf.erb", "httpd"), Create, Unguarded,
             [ReloadService(res, apacheName)])
  }

  /** A root-owned directory with mode 0755, created with its parents. */
  function DirectoryDecl(res: HttpdService, path: string): Resource {
    Resource(Named(res, "create", path), DirectoryProps(path, Some("root"), Some("root"), Some("0755"), true),
             Create, Unguarded, [])
  }

  function LinkDecl(res: HttpdService, path: string, to: string): Resource {
    Resource(Named(res, "create", path), LinkProps(path, Some(to)), Create, Unguarded, [])
  }

  function MagicDecl(res: HttpdService, apacheName: string): Resource {
    var path := "/etc/" + apacheName + "/conf/magic";
    Resource(Named(res, "create", path),
             TemplateProps(path, "magic.erb", Some("root"), Some("root"), Some("0644"), "httpd", None),
             Create, Unguarded, [])
  }

  /** The variables `httpd.conf.erb` is rendered with, taken from the class variables. */
  function ConfVariablesOf(v: ClassVariables): ConfVariables {
    var name := Interpolate(v.apacheName);
    ConfVariables("/etc/" + name, "/var/log/" + name + "/error_log", v.pidFile, v.lockFile, v.mutex,
                  v.includes, v.includeOptionals)
  }

  /** The main configuration file, which restarts the service when it changes. */
  function HttpdConfDecl(res: HttpdService, apacheName: string, variables: ConfVariables): Resource {
    var path := "/etc/" + apacheName + "/conf/httpd.conf";
    Resource(Named(res, "create", path),
             TemplateProps(path, "httpd.conf.erb", Some("root"), Some("root"), Some("0644"), "httpd",
                           Some(variables)),
             Create, Unguarded,
             [Notification(Restart, ServiceTarget(res, apacheName), Delayed)])
  }

  /** Software installation: the httpd package, its clean-up script and net-tools. */
  function PackageDecls(res: HttpdService): seq<Resource> {
    [PackageDecl(res), RemovePackageConfigDecl(res), NetToolsDecl(res)]
  }

  /**
   * MPM loading: below 2.4 links for the worker and event binaries, from 2.4
   * on the `mpm_<mpm>` module; then the MPM configuration either way.
   */
  function MpmDecls(res: HttpdService, version: Option<string>, apacheName: string, legacy: bool): seq<Resource> {
    (if legacy then [BinaryLinkDecl(res, apacheName, ".worker"), BinaryLinkDecl(res, apacheName, ".event")]
     else [ModuleDecl(res, version, apacheName, "mpm_" + res.mpm)])
    + [MpmConfigDecl(res, apacheName)]
  }

  /** The configuration directories; `conf.modules.d` from 2.4 on only. */
  function ConfigDirectoryDecls(res: HttpdService, apacheName: string, legacy: bool): seq<Resource> {
    [DirectoryDecl(res, "/etc/" + apacheName),
     DirectoryDecl(res, "/etc/" + apacheName + "/conf"),
     DirectoryDecl(res, "/etc/" + apacheName + "/conf.d")]
    + (if legacy then [] else [DirectoryDecl(res, "/etc/" + apacheName + "/conf.modules.d")])
  }

  /** The module and log directories and the `logs` and `modules` links into them. */
  function SupportDecls(res: HttpdService, apacheName: string, libarch: string): seq<Resource> {
    [DirectoryDecl(res, "/usr/" + libarch + "/httpd/modules"),
     DirectoryDecl(res, "/var/log/" + apacheName),
     LinkDecl(res, "/etc/" + apacheName + "/logs", "../../var/log/" + apacheName),
     LinkDecl(res, "/etc/" + apacheName + "/modules", "../../usr/" + libarch + "/httpd/modules")]
  }

  /** The runtime directory layout of a channel. */
  function RunDecls(res: HttpdService, apacheName: string, elversion: int): seq<Resource> {
    if elversion > 5 then
      [DirectoryDecl(res, "/var/run/" + apacheName),
       LinkDecl(res, "/etc/" + apacheName + "/run", "../../var/run/" + apacheName)]
    else
      [LinkDecl(res, "/etc/" + apacheName + "/run", "../../var/run/")]
  }

  /** The two rendered configuration files. */
  function ConfigFileDecls(res: HttpdService, apacheName: string, variables: ConfVariables): seq<Resource> {
    [MagicDecl(res, apacheName), HttpdConfDecl(res, apacheName, variables)]
  }

  /** The software half of the head: packages, modules, the binary link and MPM loading. */
  function SoftwareDecls(res: HttpdService, version: Option<string>, apacheName: string, legacy: bool): seq<Resource> {
    PackageDecls(res)
    + ModuleDecls(res, version, apacheName, ModuleNames(legacy))
    + [BinaryLinkDecl(res, apacheName, "")]
    + MpmDecls(res, version, apacheName, legacy)
  }

  /** The filesystem half of the head: configuration and support directories and links. */
  function LayoutDecls(res: HttpdService, apacheName: string, legacy: bool, libarch: string): seq<Resource> {
    ConfigDirectoryDecls(res, apacheName, legacy) + SupportDecls(res, apacheName, libarch)
  }

  /** Everything `create_common` declares before it reads `@@elversion`. */
  function CreateHead(v: ClassVariables, res: HttpdService): seq<Resource> {
    var name := Interpolate(v.apacheName);
    var legacy := VersionBelowTwoFour(v.apacheVersion);
    SoftwareDecls(res, v.apacheVersion, name, legacy) + LayoutDecls(res, name, legacy, Interpolate(v.libarch))
  }

  /**
   * What `create_common` declares. With `@@elversion` still `nil` the test
   * `@@elversion > 5` raises, after the declarations of `CreateHead`.
   */
  function CreateDecls(v: ClassVariables, res: HttpdService): Built {
    var name := Interpolate(v.apacheName);
    match v.elversion
    case None => Built(CreateHead(v, res), Some(NoMethodError(">")))
    case Some(el) =>
      Built(CreateHead(v, res) + RunDecls(res, name, el) + ConfigFileDecls(res, name, ConfVariablesOf(v)), None)
  }

  function UnlinkDecl(res: HttpdService, path: string, guard: Guard): Resource {
    Resource(Named(res, "delete", path), LinkProps(path, None), Delete, guard, [])
  }

  /** A directory removed with everything in it. */
  function RemoveDirectoryDecl(res: HttpdService, path: string): Resource {
    Resource(Named(res, "delete", path), DirectoryProps(path, None, None, None, true), Delete, Unguarded, [])
  }

  /** Everything `delete_common` declares before it reads the channel. */
  function DeleteHead(res: HttpdService, apacheName: string, legacy: bool): seq<Resource> {
    [UnlinkDecl(res, BinaryPath(apacheName, ""), NotIfApacheNameIsHttpd)]
    + (if legacy
       then [UnlinkDecl(res, BinaryPath(apacheName, ".worker"), NotIfApacheNameIsHttpd),
             UnlinkDecl(res, BinaryPath(apacheName, ".event"), NotIfApacheNameIsHttpd)]
       else [])
    + [RemoveDirectoryDecl(res, "/etc/" + apacheName), RemoveDirectoryDecl(res, "/var/log/" + apacheName)]
  }

  /**
   * What `delete_common` declares as written: the channel test reads
   * `@@eleversion`, a class variable nothing assigns, so it always raises
   * after the declarations of `DeleteHead`.
   */
  function DeleteDecls(v: ClassVariables, res: HttpdService): Built {
    Built(DeleteHead(res, Interpolate(v.apacheName), VersionBelowTwoFour(v.apacheVersion)),
          Some(NameError("@@eleversion")))
  }

  /** The runtime directory teardown of a channel. */
  function RunRemovals(res: HttpdService, apacheName: string, elversion: int): seq<Resource> {
    if elversion > 5 then
      [RemoveDirectoryDecl(res, "/var/run/" + apacheName),
       UnlinkDecl(res, "/etc/" + apacheName + "/run", Unguarded)]
    else
      [UnlinkDecl(res, "/etc/" + apacheName + "/run", Unguarded)]
  }

  /** What `delete_common` declares once its channel test reads `@@elversion`. */
  function IntendedDeleteDecls(v: ClassVariables, res: HttpdService): Built {
    var name := Interpolate(v.apacheName);
    var head := DeleteHead(res, name, VersionBelowTwoFour(v.apacheVersion));
    match v.elversion
    case None => Built(head, Some(NoMethodError(">")))
    case Some(el) => Built(head + RunRemovals(res, name, el), None)
  }
}
