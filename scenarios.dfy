/**
 * The situations of the `PackageManager` unit tests, replayed against the
 * model: each method builds its own application and collaborators and states
 * what the test asserts, proved from the contracts alone.
 */
module Scenarios {
  import opened Wrappers
  import opened Packages
  import opened Connectivity
  import opened Transport
  import opened Actions
  import opened Collaborators
  import opened PackageManagement

  /** An application with a manifest, an empty flash log, no output and the given registry. */
  method NewApplication(writeable: bool, site: string, require: seq<Requirement>, parseError: Option<string>,
                        actions: map<string, ActionExecutor>) returns (app: Application)
    ensures fresh(app) && fresh(app.json) && fresh(app.flash) && fresh(app.io)
    ensures app.writeable == writeable && app.site == site && app.actions == actions
    ensures app.platformConstraint == "4.0.0 alpha 1"
    ensures app.json.require == require && app.json.parseError == parseError && app.json.initResult == Text("gum leaves")
    ensures app.json.updateCalls == 0 && app.json.initCalls == []
    ensures app.flash.log == [] && app.io.output == "gum leaves" && app.io.calls == 0
  {
    var json := new JsonManager(require, parseError, Text("gum leaves"));
    var flash := new FlashLogger();
    var io := new ActionIo("gum leaves");
    app := new Application(writeable, site, "4.0.0 alpha 1", actions, json, flash, io);
  }

  /** Setup with write access and a reachable server updates the manifest exactly once and queues nothing. */
  method SetupUpdatesOnce() returns (updates: nat, messages: seq<string>)
    ensures updates == 1 && messages == []
  {
    var app := NewApplication(true, "https://example.com", [], None, map[]);
    var pm := new PackageManager(app, Reachable);
    updates := app.json.updateCalls;
    messages := pm.GetMessages();
  }

  /** A parse error in the manifest update is absorbed: one danger flash, and setup completes. */
  method SetupJsonFail() returns (updates: nat, flashes: seq<Flash>)
    ensures updates == 1 && flashes == [Flash(DangerLevel, "bad")]
  {
    var app := NewApplication(true, "https://example.com", [], Some("bad"), map[]);
    var pm := new PackageManager(app, Reachable);
    updates := app.json.updateCalls;
    flashes := app.flash.log;
  }

  /** Each probe failure of the test's data provider queues the message of its own class first. */
  method SetupPingException(c: ExceptionClass, msg: string) returns (messages: seq<string>)
    ensures |messages| == 1
    ensures c == ClientException ==> messages[0] == "Client error: " + msg
    ensures c == ServerException ==> messages[0] == "Extension server returned an error: " + msg
    ensures c == RequestException ==> messages[0] == "Testing connection to " + "extension server failed: " + msg
    ensures c == GenericException ==> messages[0] == "Generic failure while " + "testing connection to extension server: " + msg
  {
    var app := NewApplication(true, "https://example.com", [], None, map[]);
    var pm := new PackageManager(app, Threw(c, msg));
    messages := pm.GetMessages();
    ProbeMessagesClassified(Threw(c, msg));
  }

  const INSTALLED_A := InstalledPackage("test/installed-a", None, "1.2.3.0", "1.2.3", None, None)
  const INSTALLED_B := InstalledPackage("test/installed-b", None, "2.4.6.0", "2.4.6", None, None)
  const REQUIRED_A := Requirement("test/required-a", "^3.0")
  const REQUIRED_B := Requirement("test/required-b", "^4.0")
  const PLATFORM := "4.0.0 alpha 1"

  /** The rows of the reconciliation test: the two installed packages, then the two requirements. */
  lemma ExampleTable()
    ensures Reconcile([INSTALLED_A, INSTALLED_B], [REQUIRED_A, REQUIRED_B], PLATFORM) ==
      [InstalledEntry(INSTALLED_A, PLATFORM), InstalledEntry(INSTALLED_B, PLATFORM),
       PendingEntry(REQUIRED_A), PendingEntry(REQUIRED_B)]
  {
    var installed := [INSTALLED_A, INSTALLED_B];
    var required := [REQUIRED_A, REQUIRED_B];
    assert DistinctInstalled(installed) && DistinctRequirements(required) && Disjoint(installed, required);
    ReconcileDisjointLayout(installed, required, PLATFORM);
  }

  /** The reconciliation test: two installed packages, two further requirements, four rows in that order. */
  method GetAllPackagesExample() returns (r: Result<Table, string>)
    ensures r == Success([InstalledEntry(INSTALLED_A, PLATFORM), InstalledEntry(INSTALLED_B, PLATFORM),
                          PendingEntry(REQUIRED_A), PendingEntry(REQUIRED_B)])
  {
    var show := new ActionExecutor(Success(InstalledList([INSTALLED_A, INSTALLED_B])));
    var app := NewApplication(false, "https://example.com", [], None, map["show" := show]);
    var pm := new PackageManager(app, Reachable);
    pm.requirements := [REQUIRED_A, REQUIRED_B];
    r := pm.GetAllPackages();
    ExampleTable();
  }

  /** The arguments the test passes to the method of each action. */
  function TestArgs(a: Action): (args: Args)
    ensures ArgsFit(a, args)
  {
    match a
    case Check | Autoload | Install => NoArgs
    case Depends | Prohibits => PackageQuery(None, None)
    case Remove | Require | Search | Update => PackageList([])
    case Show => ShowTarget(None)
  }

  /** Every action method calls the executor under its own key exactly once and returns its result. */
  method ActionCall(a: Action) returns (r: Result<Value, string>, calls: seq<Args>)
    ensures r == Success(Bool(true))
    ensures calls == [TestArgs(a)]
  {
    var executor := new ActionExecutor(Success(Bool(true)));
    var app := NewApplication(false, "https://example.com", [], None, map[Key(a) := executor]);
    var pm := new PackageManager(app, Reachable);
    match a {
      case Check => r := pm.CheckPackage();
      case Depends => r := pm.DependsPackage(None, None);
      case Autoload => r := pm.DumpAutoload();
      case Install => r := pm.InstallPackages();
      case Prohibits => r := pm.ProhibitsPackage(None, None);
      case Remove => r := pm.RemovePackage([]);
      case Require => r := pm.RequirePackage([]);
      case Search => r := pm.SearchPackage([]);
      case Show => r := pm.ShowPackage(None);
      case Update => r := pm.UpdatePackage([]);
    }
    calls := executor.calls;
  }

  /** `getOutput` returns the output of the action runner, asking it once. */
  method GetOutputExample() returns (output: string, calls: nat)
    ensures output == "gum leaves" && calls == 1
  {
    var app := NewApplication(false, "https://example.com", [], None, map[]);
    var pm := new PackageManager(app, Reachable);
    output := pm.GetOutput();
    calls := app.io.calls;
  }

  /** `initJson` calls the manifest store's `init` once with its arguments. */
  method InitJsonExample() returns (result: Value, calls: seq<(string, map<string, string>)>)
    ensures result == Text("gum leaves") && calls == [("composer.json", map[])]
  {
    var app := NewApplication(false, "https://example.com", [], None, map[]);
    var pm := new PackageManager(app, Reachable);
    result := pm.InitJson("composer.json", map[]);
    calls := app.json.initCalls;
  }

  /**
   * `useSsl` is false for an http site and true for an https site; the second
   * call answers from the cache, even after the site setting has changed.
   */
  method UseSslExample() returns (plain: bool, secure: bool, again: bool)
    ensures !plain && secure && again
  {
    var app := NewApplication(false, "http://example.com", [], None, map[]);
    var pm := new PackageManager(app, Reachable);
    PlainSiteNotSecure();
    HttpsSiteSecure();
    plain := pm.UseSsl();
    app.site := "https://example.com";
    pm := new PackageManager(app, Reachable);
    secure := pm.UseSsl();
    app.site := "http://example.com";
    again := pm.UseSsl();
  }
}
