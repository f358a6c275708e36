# httpd service provider for RHEL-family platforms — Dafny model

This project models the shared part of the Chef provider that installs and
removes Apache httpd instances on Red Hat Enterprise Linux, CentOS and Amazon
Linux (`Chef::Provider::HttpdService::Rhel`). It covers three methods:

- `set_class_variables` turns the node's facts and the `httpd_service`
  resource into the provider's class variables: library directory, EL
  channel, Apache version and service name, include lists, PID file, lock
  file and mutex.
- `create_common` declares every resource that installs one instance:
  packages, modules, binary links, the MPM, directories, links, the magic
  file and `httpd.conf`.
- `delete_common` declares the resources that remove one instance.

What the model captures:

- The class variables live in one object of class `Provider.Rhel`.
  - They start out `nil` (`Option.None`) and persist from one call to the next.
  - `set_class_variables` overwrites only some of them: an unknown
    architecture or platform keeps the old value, and each version family
    assigns only its own include list.
- A declaration is a value (`Resources.Resource`): a name, the attributes
  (`Props`), the action, the `not_if` guard and the notifications.
- The methods append their declarations, in source order, to the run's
  resource collection (`Provider.ResourceCollection`).
- Each method is proved against a pure function of the class variables and
  the resource (`Declarations.CreateDecls`, `Declarations.DeleteDecls`). The
  lemmas in `LifecycleProperties`, `BuilderProperties` and `DeleteProperties`
  state what those declarations contain.
- Ruby's numeric parsing is written out in `RubyNumeric`:
  - `String#to_i`: leading whitespace, an optional sign, then decimal digits.
  - `String#to_f < 2.4`: decided exactly on the leading decimal numeral.
- Two Ruby exceptions are modelled as results (`Declarations.RubyError`):
  - `nil > 5` raises `NoMethodError`.
  - Reading a class variable that was never assigned raises `NameError`.

  The methods return the exception together with the declarations made
  before it was raised.

## Model

| member | source | states |
|---|---|---|
| Provider.Rhel.SetClassVariables | libraries/provider_httpd_service_rhel.rb:33-89 | the new class variables are `Resolve` of the old ones and the inputs, and a consistent state stays consistent |
| Provider.Rhel.SetLibArch | libraries/provider_httpd_service_rhel.rb:34-39 | `x86_64` sets `lib64`, `i686` sets `lib`, any other machine keeps `@@libarch` |
| Provider.Rhel.SetElVersion | libraries/provider_httpd_service_rhel.rb:42-53 | the leading integer 5, 6, 7, 2013 or 2014 sets the channel it maps to; any other keeps `@@elversion` |
| Provider.Rhel.SetPidFile | libraries/provider_httpd_service_rhel.rb:62-69 | channels 5, 6 and 7 set the channel's PID file for the current service name; otherwise `@@pid_file` is kept |
| Provider.Rhel.SetIncludes | libraries/provider_httpd_service_rhel.rb:76-88 | below 2.4 only `@@includes` is set, from 2.4 on only `@@include_optionals`; the other list is kept |
| Profile.UnsetIsConsistent | libraries/provider_httpd_service_rhel.rb:7-15 | the all-`nil` initial state satisfies the consistency invariant |
| Profile.ResolvePreservesConsistent | libraries/provider_httpd_service_rhel.rb:33-89 | resolving keeps the invariant: mapped architecture and channel only, a PID file that matches the channel and the service name, `nil` lock file and mutex, and the include list of the current version family set |
| Profile.ArchitectureMapping | libraries/provider_httpd_service_rhel.rb:34-39 | the library directory is `lib64` iff the machine is `x86_64` or an unmapped machine kept `lib64`, and likewise for `lib`; an unmapped machine keeps the old value |
| Profile.ChannelMapping | libraries/provider_httpd_service_rhel.rb:42-53 | for a platform version whose leading integer is 5, 6 or 7 the channel is that integer; 2013 and 2014 give 6; any other integer keeps the old channel |
| Profile.AmazonLinuxYears | libraries/provider_httpd_service_rhel.rb:42 | `"2013.09".to_i` is 2013 and `"2014.03".to_i` is 2014 |
| Profile.AmazonLinuxAliases | libraries/provider_httpd_service_rhel.rb:49-52 | Amazon Linux 2013.09 and 2014.03 both resolve to channel 6, whatever the previous state |
| Profile.NameAndPidFile | libraries/provider_httpd_service_rhel.rb:59-69 | the instance `default` is named `httpd`, any other `httpd-<instance>`; channel 5 uses `/var/run/<name>.pid`, channels 6 and 7 use `/var/run/<name>/httpd.pid`, and with no channel the PID file is kept |
| Profile.ApacheNameInjective | libraries/provider_httpd_service_rhel.rb:59 | two different instances never share a service name |
| Profile.PidFileInjective | libraries/provider_httpd_service_rhel.rb:62-69 | on one channel, two different service names never share a PID file |
| Profile.IncludeLists | libraries/provider_httpd_service_rhel.rb:71-88 | below 2.4 the two `conf.d` patterns are set and the optional list is kept; from 2.4 on the four optional patterns are set and the hard list is kept; the lock file and mutex are reset to `nil` |
| Profile.ResolveIdempotent | libraries/provider_httpd_service_rhel.rb:33-89 | resolving the same inputs twice leaves the same state as resolving once |
| Profile.MappedInputsDetermineProfile | libraries/provider_httpd_service_rhel.rb:33-89 | once the architecture and the channel are mapped, every variable except the other version family's include list is independent of the previous state |
| Profile.IncludeOptionalsCarryOver | libraries/provider_httpd_service_rhel.rb:75-88 | resolving a 2.4 instance and then a 2.2 instance leaves both include lists set |
| RubyNumeric.BelowTwoFourExact | libraries/provider_httpd_service_rhel.rb:76 | the digit-level test agrees with comparing the real value of the leading numeral with 2.4 |
| RubyNumeric.FractionBounds | libraries/provider_httpd_service_rhel.rb:76 | a fraction's value lies in [0, 1) and between its first digit's tenths |
| RubyNumeric.ToIReadsLeadingInteger | libraries/provider_httpd_service_rhel.rb:42 | `to_i` of digits followed by a non-digit is the value of those digits |
| RubyNumeric.ReadsDecimal | libraries/provider_httpd_service_rhel.rb:76 | `to_f` of `<whole>.<fraction><rest>`, where `rest` does not start with a digit, reads exactly that numeral |
| RubyNumeric.LeadingDigitsOfNumeral | libraries/provider_httpd_service_rhel.rb:42 | the digit run read from `w + rest` is exactly `w` when `rest` does not start with a digit |
| RubyNumeric.ModernVersions | libraries/provider_httpd_service_rhel.rb:76 | "2.4" and "2.4.6" are not below 2.4 |
| RubyNumeric.LegacyVersions | libraries/provider_httpd_service_rhel.rb:76 | "2.2.15" and "2.3.99" are below 2.4 |
| RubyNumeric.TwoTenIsLegacy | libraries/provider_httpd_service_rhel.rb:118 | "2.10" reads as 2.1 and so takes the pre-2.4 branches |
| Provider.Rhel.CreateCommon | libraries/provider_httpd_service_rhel.rb:94-309 | appends exactly the declarations of `CreateDecls` and returns its failure |
| Provider.Rhel.DeclareCreateHead | libraries/provider_httpd_service_rhel.rb:94-252 | appends the declarations made before the `/var/run` test |
| Provider.Rhel.DeclareSoftware | libraries/provider_httpd_service_rhel.rb:95-182 | appends the packages, modules, binary link and MPM declarations |
| Provider.Rhel.DeclarePackages | libraries/provider_httpd_service_rhel.rb:95-114 | appends the httpd package, the clean-up script and net-tools |
| Provider.Rhel.DeclareModules | libraries/provider_httpd_service_rhel.rb:118-138 | the `.each` loop appends one `httpd_module` per name, in order |
| Provider.Rhel.DeclareMpm | libraries/provider_httpd_service_rhel.rb:148-182 | below 2.4 the worker and event links, otherwise the `mpm_<mpm>` module, then the MPM config |
| Provider.Rhel.DeclareLayout | libraries/provider_httpd_service_rhel.rb:184-252 | appends the configuration and support directories and links |
| Provider.Rhel.DeclareConfigDirectories | libraries/provider_httpd_service_rhel.rb:184-221 | appends `/etc/<name>`, `conf`, `conf.d`, and from 2.4 on `conf.modules.d` |
| Provider.Rhel.DeclareSupport | libraries/provider_httpd_service_rhel.rb:223-252 | appends the modules and log directories and the `logs` and `modules` links |
| Provider.Rhel.DeclareRun | libraries/provider_httpd_service_rhel.rb:254-276 | above channel 5 the `/var/run/<name>` directory and a link to it, otherwise a link to `/var/run/` |
| LifecycleProperties.CreateLinks | libraries/provider_httpd_service_rhel.rb:140-162 | the links `create_common` declares: the binary, the worker and event binaries iff below 2.4, `logs`, `modules`, and `run` iff a channel is set |
| LifecycleProperties.CreateDirectories | libraries/provider_httpd_service_rhel.rb:184-263 | the directories it declares, in order: `conf.modules.d` iff 2.4 or later, `/var/run/<name>` iff the channel is above 5 |
| LifecycleProperties.CreateModules | libraries/provider_httpd_service_rhel.rb:116-171 | the modules are `log_config` and `logio` below 2.4, otherwise those plus `unixd`, `version`, `watchdog` and `mpm_<mpm>` |
| LifecycleProperties.MpmLinkIffLegacy | libraries/provider_httpd_service_rhel.rb:148-162 | the worker and event binary links are declared iff the version is below 2.4 |
| LifecycleProperties.MpmModuleIffModern | libraries/provider_httpd_service_rhel.rb:163-171 | the `mpm_<mpm>` module and the `conf.modules.d` directory are declared iff the version is 2.4 or later |
| LifecycleProperties.RuntimeArtifacts | libraries/provider_httpd_service_rhel.rb:254-276 | `/var/run/<name>` is declared iff the channel is above 5; the `run` link is declared iff a channel is set |
| LifecycleProperties.RuntimeLayout | libraries/provider_httpd_service_rhel.rb:255-276 | right after the head, the `/var/run` declarations come with their exact attributes and link targets |
| LifecycleProperties.HeadInventory | libraries/provider_httpd_service_rhel.rb:94-252 | the links, directories and modules declared before the `/var/run` test |
| LifecycleProperties.TailInventory | libraries/provider_httpd_service_rhel.rb:254-308 | the links and directories declared from the `/var/run` test to the end |
| LifecycleProperties.CreateWellWired | libraries/provider_httpd_service_rhel.rb:94-308 | exactly the binary links carry the `not_if` guard, and each kind of declaration sends only its own notifications |
| LifecycleProperties.CreateNotifications | libraries/provider_httpd_service_rhel.rb:98-306 | the only immediate notification runs the clean-up script; every delayed one targets this instance's service; restarts come only from `httpd.conf`, reloads only from modules and the MPM config |
| LifecycleProperties.WiredNotifications | libraries/provider_httpd_service_rhel.rb:98-306 | for any well-wired declaration list, the notification facts above hold |
| LifecycleProperties.CreateStartsWithPackages | libraries/provider_httpd_service_rhel.rb:95-114 | the first three declarations are the package section |
| LifecycleProperties.PackageTriggersCleanup | libraries/provider_httpd_service_rhel.rb:96-114 | the httpd package is installed first and immediately runs the clean-up script, which itself does nothing unless notified; net-tools notifies nothing |
| LifecycleProperties.CreateFailure | libraries/provider_httpd_service_rhel.rb:255 | `create_common` fails iff no channel is set, with `NoMethodError` for `>` after the head, and then no `run` link is declared |
| LifecycleProperties.FirstCreateSucceedsIffChannelMapped | libraries/provider_httpd_service_rhel.rb:42-53 | on a fresh provider, resolving then creating succeeds iff the platform's major version is mapped |
| LifecycleProperties.MainConfigAfterResolve | libraries/provider_httpd_service_rhel.rb:289-308 | after resolving a mapped platform, the last declaration is `httpd.conf` with the channel's PID file, the version family's include list, `nil` lock file and mutex, and a delayed restart |
| LifecycleProperties.ConsistentMainConfig | libraries/provider_httpd_service_rhel.rb:289-308 | in any state that satisfies the invariant `set_class_variables` keeps (`Rhel.Valid`) and has a channel, `create_common` succeeds and `httpd.conf` gets the PID file of that channel and service name, never `nil`, and the include list of the current version family |
| LifecycleProperties.MpmLinkNotElsewhere | libraries/provider_httpd_service_rhel.rb:141-146 | a worker or event binary path differs from every link declared unconditionally |
| LifecycleProperties.ModulesDirectoryNotElsewhere | libraries/provider_httpd_service_rhel.rb:185-263 | `conf.modules.d` differs from every other directory declared |
| LifecycleProperties.RunDirectoryNotElsewhere | libraries/provider_httpd_service_rhel.rb:185-240 | `/var/run/<name>` differs from every other directory declared |
| LifecycleProperties.RunLinkNotElsewhere | libraries/provider_httpd_service_rhel.rb:141-252 | the `run` link differs from every other link declared |
| BuilderProperties.PackageSection | libraries/provider_httpd_service_rhel.rb:95-114 | the package section declares no link, directory or module |
| BuilderProperties.ModuleSection | libraries/provider_httpd_service_rhel.rb:118-138 | the module loop declares exactly the given module names, in order |
| BuilderProperties.BinaryLinkSection | libraries/provider_httpd_service_rhel.rb:140-146 | the binary link declares `/usr/sbin/<name><suffix>` and nothing else |
| BuilderProperties.MpmSection | libraries/provider_httpd_service_rhel.rb:148-182 | the MPM section declares the two binary links below 2.4, otherwise the `mpm_<mpm>` module |
| BuilderProperties.SoftwareSection | libraries/provider_httpd_service_rhel.rb:95-182 | the software part declares the binary links and modules of the version family and no directory |
| BuilderProperties.ConfigDirectorySection | libraries/provider_httpd_service_rhel.rb:184-221 | the configuration directories, with `conf.modules.d` only from 2.4 on |
| BuilderProperties.SupportSection | libraries/provider_httpd_service_rhel.rb:223-252 | the modules and log directories, then the `logs` and `modules` links |
| BuilderProperties.LayoutSection | libraries/provider_httpd_service_rhel.rb:184-252 | the layout part's links and directories, in order |
| BuilderProperties.RunSection | libraries/provider_httpd_service_rhel.rb:254-276 | the `/var/run` part: the `run` link always, the directory iff the channel is above 5 |
| BuilderProperties.ConfigFileSection | libraries/provider_httpd_service_rhel.rb:278-308 | the configuration files declare no link, directory or module |
| BuilderProperties.PackageWiring | libraries/provider_httpd_service_rhel.rb:96-114 | the package section follows the guard and notification rules |
| BuilderProperties.ModuleWiring | libraries/provider_httpd_service_rhel.rb:120-137 | every module declaration notifies a reload of the service and has no guard |
| BuilderProperties.BinaryLinkWiring | libraries/provider_httpd_service_rhel.rb:141-161 | a binary link carries the `not_if` guard and notifies nothing |
| BuilderProperties.SoftwareWiring | libraries/provider_httpd_service_rhel.rb:95-182 | the software part follows the guard and notification rules |
| BuilderProperties.ConfigDirectoryWiring | libraries/provider_httpd_service_rhel.rb:184-221 | the configuration directories have no guard and notify nothing |
| BuilderProperties.SupportWiring | libraries/provider_httpd_service_rhel.rb:223-252 | the support directories and links have no guard and notify nothing |
| BuilderProperties.LayoutWiring | libraries/provider_httpd_service_rhel.rb:184-252 | the layout part follows the guard and notification rules |
| BuilderProperties.RunWiring | libraries/provider_httpd_service_rhel.rb:254-276 | the `/var/run` part has no guard and notifies nothing |
| BuilderProperties.ConfigFileWiring | libraries/provider_httpd_service_rhel.rb:278-308 | `magic` notifies nothing; `httpd.conf` notifies a delayed restart of the service |
| BuilderProperties.LinksMembership | libraries/provider_httpd_service_rhel.rb:141-276 | a path is in the link inventory iff some `link` declaration targets it |
| BuilderProperties.DirectoriesMembership | libraries/provider_httpd_service_rhel.rb:185-263 | a path is in the directory inventory iff some `directory` declaration has it as its path |
| Provider.Rhel.DeleteCommon | libraries/provider_httpd_service_rhel.rb:315-369 | appends the declarations of `DeleteDecls` (as written) and returns its failure |
| Provider.Rhel.DeleteCommonIntended | libraries/provider_httpd_service_rhel.rb:315-369 | the same with the channel test reading `@@elversion`: appends `IntendedDeleteDecls` and returns its failure |
| Provider.Rhel.DeclareDeleteHead | libraries/provider_httpd_service_rhel.rb:316-349 | appends the binary unlinks (worker and event below 2.4), then the recursive removals of `/etc/<name>` and `/var/log/<name>` |
| DeleteProperties.DeleteHeadSection | libraries/provider_httpd_service_rhel.rb:316-349 | the links and directories whose removal the head of `delete_common` declares |
| DeleteProperties.RunRemovalsSection | libraries/provider_httpd_service_rhel.rb:351-368 | the `/var/run` removals: the `run` link always, the directory iff the channel is above 5 |
| DeleteProperties.DeleteHeadWiring | libraries/provider_httpd_service_rhel.rb:316-349 | every head removal has the `delete` action, and exactly the binary unlinks carry the guard |
| DeleteProperties.RunRemovalsWiring | libraries/provider_httpd_service_rhel.rb:351-368 | every `/var/run` removal has the `delete` action and no guard |
| DeleteProperties.DeleteAsWritten | libraries/provider_httpd_service_rhel.rb:315-369 | as written, `delete_common` always fails with `NameError` after declaring the removal of the binary links, `/etc/<name>` and `/var/log/<name>`; every declaration it makes has the `delete` action |
| DeleteProperties.DeleteIntended | libraries/provider_httpd_service_rhel.rb:315-369 | the corrected version fails exactly when `create_common` does, and declares the removal of the `run` link and the `/var/run/<name>` directory under the same conditions as `create_common` declares them |
| DeleteProperties.DeleteIntendedWiring | libraries/provider_httpd_service_rhel.rb:315-369 | every corrected removal has the `delete` action and follows the guard rule |
| DeleteProperties.CoverageOfPaths | libraries/provider_httpd_service_rhel.rb:315-369 | every path in the create inventory except the shared modules directory is one the removal list names or lies under one |
| DeleteProperties.IntendedDeleteUndoesCreate | libraries/provider_httpd_service_rhel.rb:315-369 | every link and directory `create_common` declares, except the shared `/usr/<libarch>/httpd/modules`, is covered by a removal the corrected `delete_common` declares, directly or through a removed parent |
| DeleteProperties.RuntimeDirectoryOutside | libraries/provider_httpd_service_rhel.rb:338-349 | `/var/run/<name>` is neither one of the head's removals nor under one |
| DeleteProperties.DeleteLeavesRuntimeDirectory | libraries/provider_httpd_service_rhel.rb:352 | above channel 5, `create_common` declares `/var/run/<name>` but `delete_common` as written never declares a removal that covers it |
| DeleteProperties.UnderEtc | libraries/provider_httpd_service_rhel.rb:338-342 | every `/etc/<name>/...` path lies under the removed `/etc/<name>` |

## Left out

- The Chef run itself is not modelled:
  - converging the declared resources;
  - evaluating `not_if` guards;
  - delivering notifications.

  Guards and notifications are recorded as data on each declaration.
- What each resource type does on the host is not modelled: packages, the
  bash script, templates, and the `httpd_module` and `httpd_config`
  resources. The model records their attributes only.
- The empty actions and override hooks (`action :create`, `:delete`,
  `:restart`, `:reload`, `create_service`, `delete_service`,
  `restart_service`, `reload_service`) declare nothing. They are left to
  the platform subclasses, which are not part of this model.
- The service resource that notifications target is declared by those
  subclasses. Here it appears only as its name.
- The `:config => new_resource` template variable is not modelled, because
  it passes the whole resource object to the template. The other
  `httpd.conf` variables are modelled.
- Ruby parsing details not modelled:
  - `String#to_i`: underscores between digits, and the `0d`/`0D` radix
    prefix it skips (`"0d6".to_i` is 6; the model reads 0).
  - `String#to_f`: underscores, exponents and floating-point rounding.

  The model compares the leading decimal numeral with 2.4 exactly. This
  differs from Ruby only for numerals with more digits than a double
  holds, such as "2.3999999999999999", which Ruby rounds to 2.4.
- An exception aborts the whole Chef run. The model returns the exception
  with the declarations made before it, and says nothing about what runs
  afterwards.
- Class variables are shared by every provider object in the process, and
  concurrent runs are not modelled. One `Rhel` object stands for that
  state in a single run.
- The model follows the code as written:
  - an unmapped platform is not rejected up front;
  - the class variables are mutable state that persists between calls;
  - the only exception `create_common` raises is `NoMethodError` from
    `@@elversion > 5`.
- Provider.Rhel.SetClassVariables: the `old(Valid()) ==> Valid()` part says
  nothing about states that were already inconsistent. No other code writes
  these variables, so every reachable state is consistent.

## Findings

| source | as written | input that shows it | evidently intended | confidence | as-written member | corrected member |
|---|---|---|---|---|---|---|
| libraries/provider_httpd_service_rhel.rb:352 | `delete_common` tests `@@eleversion > 5`, a class variable no code assigns, so it raises `NameError` before declaring any removal under `/var/run` | any call of `delete_common`, e.g. after `set_class_variables` on platform version "6.5" | test `@@elversion > 5`, as `create_common` does at line 255, so the removal of `/var/run/<name>` and the `run` link is declared | high, not executed | Provider.Rhel.DeleteCommon, DeleteProperties.DeleteLeavesRuntimeDirectory | Provider.Rhel.DeleteCommonIntended, DeleteProperties.IntendedDeleteUndoesCreate |
