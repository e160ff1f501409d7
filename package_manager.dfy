/**
 * `Bolt\Composer\PackageManager`: set up against the host application, it
 * keeps the setup messages, the `require` section of the manifest snapshot
 * and the cached transport decision, and forwards the package actions to the
 * action registry.
 */
module PackageManagement {
  import opened Wrappers
  import opened Packages
  import opened Connectivity
  import opened Transport
  import opened Actions
  import opened Collaborators

  /** The registry argument `getAllPackages` passes to the "show" action. */
  const SHOW_INSTALLED := ShowTarget(Some("installed"))

  /**
   * The answer of `getAllPackages` for what the "show" action returned: its
   * exception propagates; a package list is reconciled with the requirements;
   * anything else reconciles an empty installed list.
   */
  function PackagesFromShow(shown: Result<Value, string>, required: seq<Requirement>, platform: string): (r: Result<Table, string>)
    ensures shown.Failure? <==> r.Failure?
    ensures shown.Failure? ==> r.error == shown.error
    ensures shown.Success? && shown.value.InstalledList? ==> r == Success(Reconcile(shown.value.list, required, platform))
  {
    match shown
    case Failure(e) => Failure(e)
    case Success(v) => Success(Reconcile(if v.InstalledList? then v.list else [], required, platform))
  }

  class PackageManager {
    const app: Application
    /** Diagnostics collected during setup, in order. */
    var messages: seq<string>
    /** The `require` section of the manifest snapshot taken at setup. */
    var requirements: seq<Requirement>
    /** The cached `useSsl` decision. */
    var ssl: SslCell

    /**
     * Setup. When the host grants write access: update the manifest once,
     * turning a parse error into one danger flash; decide the transport; probe
     * the extension server and queue the message of its failure. Nothing is
     * thrown in any case.
     */
    constructor (app: Application, probe: ProbeOutcome)
      modifies app.json`updateCalls, app.flash
      ensures this.app == app
      ensures app.json.updateCalls == old(app.json.updateCalls) + (if app.writeable then 1 else 0)
      ensures app.flash.log == old(app.flash.log) +
        (if app.writeable && app.json.parseError.Some? then [Flash(DangerLevel, app.json.parseError.value)] else [])
      ensures requirements == if app.writeable && app.json.parseError.None? then app.json.require else []
      ensures messages == if app.writeable then ProbeMessages(probe) else []
      ensures ssl == if app.writeable then Computed(IsSecure(app.site)) else Unset
    {
      this.app := app;
      messages := [];
      requirements := [];
      ssl := Unset;
      new;
      if app.writeable {
        var updated := app.json.Update();
        match updated {
          case Success(rs) => requirements := rs;
          case Failure(e) => app.flash.Danger(e);
        }
        var _ := UseSsl();
        match probe {
          case Reachable =>
          case Threw(c, msg) =>
            if InstanceOf(c, ClientException) {
              messages := messages + [CLIENT_PREFIX + msg];
            } else if InstanceOf(c, ServerException) {
              messages := messages + [SERVER_PREFIX + msg];
            } else if InstanceOf(c, RequestException) {
              messages := messages + [REQUEST_PREFIX + msg];
            } else {
              messages := messages + [GENERIC_PREFIX + msg];
            }
        }
      }
    }

    method GetMessages() returns (ms: seq<string>)
      ensures ms == messages
    {
      ms := messages;
    }

    /** Secure transport for an `https` site; computed on the first call and returned from the cache afterwards. */
    method UseSsl() returns (secure: bool)
      modifies this`ssl
      ensures secure == if old(ssl).Computed? then old(ssl).value else IsSecure(app.site)
      ensures ssl == Computed(secure)
    {
      if ssl.Computed? {
        return ssl.value;
      }
      secure := Scheme(app.site) == Some("https");
      ssl := Computed(secure);
    }

    /** Looks up the executor bound to `action` and returns what its single `execute` call gives. */
    method Dispatch(action: Action, args: Args) returns (r: Result<Value, string>)
      requires Key(action) in app.actions && ArgsFit(action, args)
      modifies app.actions[Key(action)]
      ensures app.actions[Key(action)].calls == old(app.actions[Key(action)].calls) + [args]
      ensures r == app.actions[Key(action)].outcome
    {
      r := app.actions[Key(action)].Execute(args);
    }

    method CheckPackage() returns (r: Result<Value, string>)
      requires "check" in app.actions
      modifies app.actions["check"]
      ensures app.actions["check"].calls == old(app.actions["check"].calls) + [NoArgs]
      ensures r == app.actions["check"].outcome
    {
      r := Dispatch(Check, NoArgs);
    }

    method DependsPackage(packageName: Option<string>, constraint: Option<string>) returns (r: Result<Value, string>)
      requires "depends" in app.actions
      modifies app.actions["depends"]
      ensures app.actions["depends"].calls == old(app.actions["depends"].calls) + [PackageQuery(packageName, constraint)]
      ensures r == app.actions["depends"].outcome
    {
      r := Dispatch(Depends, PackageQuery(packageName, constraint));
    }

    method DumpAutoload() returns (r: Result<Value, string>)
      requires "autoload" in app.actions
      modifies app.actions["autoload"]
      ensures app.actions["autoload"].calls == old(app.actions["autoload"].calls) + [NoArgs]
      ensures r == app.actions["autoload"].outcome
    {
      r := Dispatch(Autoload, NoArgs);
    }

    method InstallPackages() returns (r: Result<Value, string>)
      requires "install" in app.actions
      modifies app.actions["install"]
      ensures app.actions["install"].calls == old(app.actions["install"].calls) + [NoArgs]
      ensures r == app.actions["install"].outcome
    {
      r := Dispatch(Install, NoArgs);
    }

    method ProhibitsPackage(packageName: Option<string>, constraint: Option<string>) returns (r: Result<Value, string>)
      requires "prohibits" in app.actions
      modifies app.actions["prohibits"]
      ensures app.actions["prohibits"].calls == old(app.actions["prohibits"].calls) + [PackageQuery(packageName, constraint)]
      ensures r == app.actions["prohibits"].outcome
    {
      r := Dispatch(Prohibits, PackageQuery(packageName, constraint));
    }

    method RemovePackage(packages: seq<string>) returns (r: Result<Value, string>)
      requires "remove" in app.actions
      modifies app.actions["remove"]
      ensures app.actions["remove"].calls == old(app.actions["remove"].calls) + [PackageList(packages)]
      ensures r == app.actions["remove"].outcome
    {
      r := Dispatch(Remove, PackageList(packages));
    }

    method RequirePackage(packages: seq<string>) returns (r: Result<Value, string>)
      requires "require" in app.actions
      modifies app.actions["require"]
      ensures app.actions["require"].calls == old(app.actions["require"].calls) + [PackageList(packages)]
      ensures r == app.actions["require"].outcome
    {
      r := Dispatch(Require, PackageList(packages));
    }

    method SearchPackage(packages: seq<string>) returns (r: Result<Value, string>)
      requires "search" in app.actions
      modifies app.actions["search"]
      ensures app.actions["search"].calls == old(app.actions["search"].calls) + [PackageList(packages)]
      ensures r == app.actions["search"].outcome
    {
      r := Dispatch(Search, PackageList(packages));
    }

    method ShowPackage(target: Option<string>) returns (r: Result<Value, string>)
      requires "show" in app.actions
      modifies app.actions["show"]
      ensures app.actions["show"].calls == old(app.actions["show"].calls) + [ShowTarget(target)]
      ensures r == app.actions["show"].outcome
    {
      r := Dispatch(Show, ShowTarget(target));
    }

    method UpdatePackage(packages: seq<string>) returns (r: Result<Value, string>)
      requires "update" in app.actions
      modifies app.actions["update"]
      ensures app.actions["update"].calls == old(app.actions["update"].calls) + [PackageList(packages)]
      ensures r == app.actions["update"].outcome
    {
      r := Dispatch(Update, PackageList(packages));
    }

    /** Asks the "show" action for the installed packages and reconciles them with the manifest's requirements. */
    method GetAllPackages() returns (r: Result<Table, string>)
      requires "show" in app.actions
      modifies app.actions["show"]
      ensures app.actions["show"].calls == old(app.actions["show"].calls) + [SHOW_INSTALLED]
      ensures r == PackagesFromShow(app.actions["show"].outcome, requirements, app.platformConstraint)
    {
      var shown := Dispatch(Show, SHOW_INSTALLED);
      r := PackagesFromShow(shown, requirements, app.platformConstraint);
    }

    method GetOutput() returns (s: string)
      modifies app.io`calls
      ensures app.io.calls == old(app.io.calls) + 1
      ensures s == app.io.output
    {
      s := app.io.GetOutput();
    }

    method InitJson(file: string, data: map<string, string>) returns (r: Value)
      modifies app.json`initCalls
      ensures app.json.initCalls == old(app.json.initCalls) + [(file, data)]
      ensures r == app.json.initResult
    {
      r := app.json.Init(file, data);
    }
  }
}
