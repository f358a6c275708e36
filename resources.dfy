/**
 * Chef resource declarations as the provider makes them: each one is data
 * (a resource type with its attributes, an action, an optional `not_if`
 * guard and its outgoing notifications). What Chef later does with them,
 * evaluating guards and sending notifications while it converges, is not
 * part of this model.
 */
module Resources {

  import opened Wrappers

  /** The actions the declarations use, and the actions notifications ask for. */
  datatype Action = Install | Run | Nothing | Create | Delete | Reload | Restart

  /** `:immediately`, or the default delayed timing. */
  datatype Timing = Immediately | Delayed

  /** `notifies <action>, "<type>[<name>]", <timing>` */
  datatype Notification = Notification(action: Action, target: string, timing: Timing)

  /**
   * The only guard the provider writes is `not_if { @@apache_name == 'httpd' }`.
   * The block reads the class variable when Chef evaluates it, so it is kept
   * as the guard itself, not as a boolean frozen at declaration time.
   */
  datatype Guard = Unguarded | NotIfApacheNameIsHttpd

  /** The variables the main configuration template is rendered with. */
  datatype ConfVariables = ConfVariables(
    serverRoot: string,
    errorLog: string,
    pidFile: Option<string>,
    lockFile: Option<string>,
    mutex: Option<string>,
    includes: Option<seq<string>>,
    includeOptionals: Option<seq<string>>)

  /** A resource's type together with the attributes the provider sets on it. */
  datatype Props =
    | PackageProps(packageName: string)
    | BashProps(user: string, script: seq<string>)
    | ModuleProps(moduleName: string, httpdVersion: Option<string>, instance: string)
    | LinkProps(targetFile: string, to: Option<string>)
    | DirectoryProps(path: string, owner: Option<string>, group: Option<string>,
                     mode: Option<string>, recursive: bool)
    | ConfigProps(configName: string, instance: string, source: string, cookbook: string)
    | TemplateProps(path: string, source: string, owner: Option<string>, group: Option<string>,
                    mode: Option<string>, cookbook: string, variables: Option<ConfVariables>)
  {
    /** The Chef resource type name, as written in a notification target. */
    function TypeName(): string {
      match this
      case PackageProps(_) => "package"
      case BashProps(_, _) => "bash"
      case ModuleProps(_, _, _) => "httpd_module"
      case LinkProps(_, _) => "link"
      case DirectoryProps(_, _, _, _, _) => "directory"
      case ConfigProps(_, _, _, _) => "httpd_config"
      case TemplateProps(_, _, _, _, _, _, _) => "template"
    }
  }

  /** One declaration: the name it is declared under, what it is, and how it is wired. */
  datatype Resource = Resource(
    name: string,
    props: Props,
    action: Action,
    guard: Guard,
    notifies: seq<Notification>)
  {
    /** `type[name]`, the string a notification uses to find this resource. */
    function Key(): string {
      props.TypeName() + "[" + name + "]"
    }
  }
}
