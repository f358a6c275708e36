/**
 * Profile resolution: `set_class_variables` maps the host facts and the
 * `httpd_service` resource onto the provider's class-level variables
 * (`@@libarch` ... `@@mutex`). The variables persist between calls and are
 * only partly overwritten, so the resolution is a function of the previous
 * values as well as of the inputs.
 */
module Profile {

  import opened Wrappers
  import opened RubyNumeric

  /** The node attributes the provider reads: `kernel.machine` and `platform_version`. */
  datatype Node = Node(machine: string, platformVersion: string)

  /** The attributes of the `httpd_service` resource the provider reads. */
  datatype HttpdService = HttpdService(
    name: string,
    instance: string,
    version: string,
    packageName: string,
    mpm: string)

  /** The values of the class variables `@@libarch` ... `@@mutex`. */
  datatype ClassVariables = ClassVariables(
    libarch: Option<string>,
    elversion: Option<int>,
    apacheVersion: Option<string>,
    apacheName: Option<string>,
    includes: Option<seq<string>>,
    includeOptionals: Option<seq<string>>,
    pidFile: Option<string>,
    lockFile: Option<string>,
    mutex: Option<string>)

  /** Every class variable starts out `nil`. */
  const Unset := ClassVariables(None, None, None, None, None, None, None, None, None)

  const LegacyIncludes: seq<string> := ["conf.d/*.conf", "conf.d/*.load"]

  const OptionalIncludes: seq<string> :=
    ["conf.d/*.conf", "conf.d/*.load", "conf.modules.d/*.conf", "conf.modules.d/*.load"]

  /** The library directory of a CPU architecture; `None` where the `case` has no branch. */
  function LibArchFor(machine: string): Option<string> {
    if machine == "x86_64" then Some("lib64")
    else if machine == "i686" then Some("lib")
    else None
  }

  /** The EL channel of an OS major version; 2013 and 2014 are Amazon Linux releases. */
  function ChannelFor(major: int): Option<int> {
    match major
    case 5 => Some(5)
    case 6 => Some(6)
    case 7 => Some(7)
    case 2013 => Some(6)
    case 2014 => Some(6)
    case _ => None
  }

  /** The service name of an instance. */
  function ApacheNameFor(instance: string): string {
    if instance == "default" then "httpd" else "httpd-" + instance
  }

  /** The PID file of a service on a channel; `None` where the `case` has no branch. */
  function PidFileFor(channel: int, name: string): Option<string> {
    match channel
    case 5 => Some("/var/run/" + name + ".pid")
    case 6 => Some("/var/run/" + name + "/httpd.pid")
    case 7 => Some("/var/run/" + name + "/httpd.pid")
    case _ => None
  }

  /** A new value where the source assigns one, else the value already there. */
  function Overwrite<T>(update: Option<T>, current: Option<T>): Option<T> {
    if update.Some? then update else current
  }

  /** What `set_class_variables` leaves in the class variables `v`. */
  function Resolve(v: ClassVariables, node: Node, res: HttpdService): ClassVariables {
    var libarch := Overwrite(LibArchFor(node.machine), v.libarch);
    var elversion := Overwrite(ChannelFor(ToI(node.platformVersion)), v.elversion);
    var name := ApacheNameFor(res.instance);
    var pidFile :=
      if elversion.Some? then Overwrite(PidFileFor(elversion.value, name), v.pidFile)
      else v.pidFile;
    var legacy := BelowTwoFour(res.version);
    ClassVariables(
      libarch, elversion, Some(res.version), Some(name),
      if legacy then Some(LegacyIncludes) else v.includes,
      if legacy then v.includeOptionals else Some(OptionalIncludes),
      pidFile, None, None)
  }

  /**
   * What the class variables can hold once `set_class_variables` has run any
   * number of times: only mapped architectures and channels, a PID file that
   * belongs to the current service name and channel, the lock file and mutex
   * `nil`, and for the current version the include list its branch assigns.
   */
  ghost predicate Consistent(v: ClassVariables) {
    && v.libarch in {None, Some("lib"), Some("lib64")}
    && v.elversion in {None, Some(5), Some(6), Some(7)}
    && (v.elversion.Some? ==> v.apacheName.Some? && v.pidFile == PidFileFor(v.elversion.value, v.apacheName.value))
    && v.lockFile.None? && v.mutex.None?
    && v.includes in {None, Some(LegacyIncludes)}
    && v.includeOptionals in {None, Some(OptionalIncludes)}
    && (v.apacheVersion.Some? <==> v.apacheName.Some?)
    && (v.apacheVersion.Some? && BelowTwoFour(v.apacheVersion.value) ==> v.includes == Some(LegacyIncludes))
    && (v.apacheVersion.Some? && !BelowTwoFour(v.apacheVersion.value) ==> v.includeOptionals == Some(OptionalIncludes))
  }

  lemma UnsetIsConsistent()
    ensures Consistent(Unset)
  {
  }

  /** `set_class_variables` keeps the class variables consistent. */
  lemma ResolvePreservesConsistent(v: ClassVariables, node: Node, res: HttpdService)
    requires Consistent(v)
    ensures Consistent(Resolve(v, node, res))
  {
  }

  /**
   * Architecture: `x86_64` gives `lib64`, `i686` gives `lib`, and any other
   * machine leaves `@@libarch` as it was.
   */
  lemma ArchitectureMapping(v: ClassVariables, node: Node, res: HttpdService)
    ensures Resolve(v, node, res).libarch == Some("lib64") <==>
      node.machine == "x86_64" || (node.machine != "i686" && v.libarch == Some("lib64"))
    ensures Resolve(v, node, res).libarch == Some("lib") <==>
      node.machine == "i686" || (node.machine != "x86_64" && v.libarch == Some("lib"))
    ensures node.machine !in {"x86_64", "i686"} ==> Resolve(v, node, res).libarch == v.libarch
  {
  }

  /**
   * Channel: a platform version whose leading integer is 5, 6 or 7 gives that
   * channel, one whose leading integer is 2013 or 2014 gives channel 6, and
   * any other leaves `@@elversion` as it was.
   */
  lemma ChannelMapping(v: ClassVariables, node: Node, res: HttpdService, major: string, rest: string)
    requires node.platformVersion == major + rest
    requires major != [] && AllDigits(major) && (rest == [] || !IsDigit(rest[0]))
    ensures DigitsValue(major) in {5, 6, 7} ==> Resolve(v, node, res).elversion == Some(DigitsValue(major))
    ensures DigitsValue(major) in {2013, 2014} ==> Resolve(v, node, res).elversion == Some(6)
    ensures DigitsValue(major) !in {5, 6, 7, 2013, 2014} ==> Resolve(v, node, res).elversion == v.elversion
  {
    ToIReadsLeadingInteger(major, rest);
  }

  /** The platform versions of Amazon Linux 2013.09 and 2014.03 read as their years. */
  lemma AmazonLinuxYears()
    ensures ToI("2013.09") == 2013 && ToI("2014.03") == 2014
  {
    assert DigitsValue("201") == 201 by {
      assert "201"[..2] == "20" && "20"[..1] == "2";
    }
    assert DigitsValue("2013") == 2013 by { assert "2013"[..3] == "201"; }
    assert DigitsValue("2014") == 2014 by { assert "2014"[..3] == "201"; }
    assert "2013.09" == "2013" + ".09";
    ToIReadsLeadingInteger("2013", ".09");
    assert "2014.03" == "2014" + ".03";
    ToIReadsLeadingInteger("2014", ".03");
  }

  /** Amazon Linux 2013.09 and 2014.03 both resolve to channel 6. */
  lemma AmazonLinuxAliases(v: ClassVariables, machine: string, res: HttpdService)
    ensures Resolve(v, Node(machine, "2013.09"), res).elversion == Some(6)
    ensures Resolve(v, Node(machine, "2014.03"), res).elversion == Some(6)
  {
    AmazonLinuxYears();
  }

  /**
   * Service name and PID file: the instance "default" runs as `httpd`, any
   * other as `httpd-<instance>`; channel 5 keeps its PID file directly under
   * `/var/run`, channels 6 and 7 in a directory of the service's own.
   */
  lemma NameAndPidFile(v: ClassVariables, node: Node, res: HttpdService)
    ensures var w := Resolve(v, node, res);
      && w.apacheName == Some(if res.instance == "default" then "httpd" else "httpd-" + res.instance)
      && (w.elversion == Some(5) ==> w.pidFile == Some("/var/run/" + w.apacheName.value + ".pid"))
      && (w.elversion in {Some(6), Some(7)} ==> w.pidFile == Some("/var/run/" + w.apacheName.value + "/httpd.pid"))
      && (w.elversion.None? ==> w.pidFile == v.pidFile)
  {
  }

  /** Two different instances never get the same service name. */
  lemma ApacheNameInjective(i: string, j: string)
    requires i != j
    ensures ApacheNameFor(i) != ApacheNameFor(j)
  {
    if i != "default" && j != "default" {
      assert ("httpd-" + i)[6..] == i;
      assert ("httpd-" + j)[6..] == j;
    }
  }

  /** On one channel, two different services never share a PID file. */
  lemma PidFileInjective(channel: int, m: string, n: string)
    requires m != n
    requires PidFileFor(channel, m).Some?
    ensures PidFileFor(channel, m) != PidFileFor(channel, n)
  {
    var p := PidFileFor(channel, m).value;
    var suffix := if channel == 5 then ".pid" else "/httpd.pid";
    assert p == "/var/run/" + m + suffix;
    assert p[9..|p| - |suffix|] == m;
  }

  /**
   * Include lists: below 2.4 `@@includes` becomes the two `conf.d` patterns
   * and `@@include_optionals` keeps its value; from 2.4 on
   * `@@include_optionals` becomes the four `conf.d` and `conf.modules.d`
   * patterns and `@@includes` keeps its value. The lock file and the mutex
   * are reset to `nil` either way.
   */
  lemma IncludeLists(v: ClassVariables, node: Node, res: HttpdService)
    ensures var w := Resolve(v, node, res);
      && (BelowTwoFour(res.version) ==>
            w.includes == Some(["conf.d/*.conf", "conf.d/*.load"]) && w.includeOptionals == v.includeOptionals)
      && (!BelowTwoFour(res.version) ==>
            w.includeOptionals == Some(["conf.d/*.conf", "conf.d/*.load",
                                        "conf.modules.d/*.conf", "conf.modules.d/*.load"])
            && w.includes == v.includes)
      && w.lockFile.None? && w.mutex.None?
  {
  }

  /**
   * Resolving the same inputs twice gives the same class variables as
   * resolving them once.
   */
  lemma ResolveIdempotent(v: ClassVariables, node: Node, res: HttpdService)
    ensures Resolve(Resolve(v, node, res), node, res) == Resolve(v, node, res)
  {
  }

  /**
   * Once the architecture and the platform are mapped, every class variable
   * except the include list of the other version family is determined by
   * the inputs alone.
   */
  lemma MappedInputsDetermineProfile(v1: ClassVariables, v2: ClassVariables, node: Node, res: HttpdService)
    requires LibArchFor(node.machine).Some? && ChannelFor(ToI(node.platformVersion)).Some?
    ensures var w1, w2 := Resolve(v1, node, res), Resolve(v2, node, res);
      && w1.libarch == w2.libarch && w1.elversion == w2.elversion
      && w1.apacheVersion == w2.apacheVersion && w1.apacheName == w2.apacheName
      && w1.pidFile == w2.pidFile && w1.lockFile == w2.lockFile && w1.mutex == w2.mutex
      && (BelowTwoFour(res.version) ==> w1.includes == w2.includes)
      && (!BelowTwoFour(res.version) ==> w1.includeOptionals == w2.includeOptionals)
  {
  }

  /**
   * The include list of the other version family leaks between calls:
   * resolving a 2.4 instance and then a 2.2 instance leaves the 2.4
   * optional includes in `@@include_optionals`.
   */
  lemma IncludeOptionalsCarryOver(node: Node, modern: HttpdService, legacy: HttpdService)
    requires !BelowTwoFour(modern.version) && BelowTwoFour(legacy.version)
    ensures var w := Resolve(Resolve(Unset, node, modern), node, legacy);
      w.includes == Some(LegacyIncludes) && w.includeOptionals == Some(OptionalIncludes)
  {
  }
}
