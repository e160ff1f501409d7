# PackageManager model

A Dafny model of `Bolt\Composer\PackageManager`, the façade Bolt puts in front
of Composer for managing extensions, as its PHPUnit suite
(`tests/phpunit/unit/Composer/PackageManagerTest.php`) pins it down. The
implementation file itself is not part of this model; every behaviour below is
the one the tests assert, and where the tests are silent, the choices are listed
under Design choices.

The model has four parts:

- **Package reconciliation** (`getAllPackages`, module `Packages`). The packages the
  "show" action reports as installed and the manifest's `require` section are merged
  into one ordered name -> status table. The table is a PHP ordered array; it is modelled
  as a sequence of rows keyed by their `name`, where assigning to a key that is present
  replaces the row in place and assigning to a new key appends it. For all inputs,
  installed rows come first, one per installed name, in executor order when the names
  are distinct. Pending rows follow: one for each requirement whose name is not installed
  and not taken by an earlier requirement, in manifest order. Each kind of row has fixed
  field values.
- **Setup** (the `PackageManager` constructor, modules `Connectivity` and `PackageManagement`).
  When the host grants write access (`extend.writeable`), setup does three things:
  - it updates the manifest once, turning a parse error into one `danger` flash;
  - it decides the transport;
  - it probes the extension server, and a failed probe queues one message.
  The probe's exception is classified by catch clauses listed from specific to general.
  `ClientException` and `ServerException` extend `RequestException`, so the order
  matters. Each clause has its own fixed message prefix.
- **Transport decision** (`useSsl`, module `Transport`). It is true exactly for an
  `https` site URL. It is computed once and cached in an `Unset | Computed(bool)` cell.
- **Action dispatch** (module `Actions`, methods of `PackageManager`). Ten methods each
  look up one fixed registry key, call that executor's `execute` exactly once, and return
  its result or its exception unchanged. `getOutput` and `initJson` forward the same way.

Collaborators (action executors, the manifest store, the flash logger, the
output capture and the application container) are classes in module
`Collaborators` that record the calls they receive and answer with values
fixed by the host. Module `Scenarios` replays each unit test against the
model; each replay is proved from the contracts alone.

## Model

| member | source | states |
|---|---|---|
| `Packages.Put` | tests/phpunit/unit/Composer/PackageManagerTest.php:167 | assigning a row stores it under its name, leaves every other name's row and every existing key position alone, and keeps keys unique |
| `Packages.AddInstalledLookup` | tests/phpunit/unit/Composer/PackageManagerTest.php:135-137 | after inserting the installed packages, a name holds the row of the last installed package of that name, or what it held before |
| `Packages.AddPendingLookup` | tests/phpunit/unit/Composer/PackageManagerTest.php:139-142 | a requirement adds a pending row only for a name not yet in the table; present names keep their rows |
| `Packages.ReconcileLookup` | tests/phpunit/unit/Composer/PackageManagerTest.php:133-169 | the reconciled table holds, for every name, the installed row if the name is installed (installed wins), else the pending row if it is required, else nothing |
| `Packages.ReconcileUniqueKeys` | tests/phpunit/unit/Composer/PackageManagerTest.php:167 | every package name occurs at most once in the table |
| `Packages.ReconcileEntryFields` | tests/phpunit/unit/Composer/PackageManagerTest.php:135-169 | every row has the field values of its status: installed rows carry type or "library", pretty version, platform constraint, null description and links, valid and enabled; pending rows carry "unknown", "Not yet installed.", the raw constraint as version, empty authors and keywords, null constraint, not valid, not enabled; a row is installed exactly when its name is installed |
| `Packages.ReconcileDisjointLayout` | tests/phpunit/unit/Composer/PackageManagerTest.php:135-169 | for distinct, disjoint names the table is one installed row per package in executor order followed by one pending row per requirement in manifest order, so it has \|installed\| + \|required\| rows |
| `Packages.AddInstalledAllInstalled` | tests/phpunit/unit/Composer/PackageManagerTest.php:135-169 | folding the installed packages into a table of installed rows leaves every row installed |
| `Packages.AddPendingAppends` | tests/phpunit/unit/Composer/PackageManagerTest.php:135-169 | adding the requirements keeps the existing rows and appends one pending row per fresh requirement (name neither present nor taken earlier), in manifest order |
| `Packages.ReconcileLayout` | tests/phpunit/unit/Composer/PackageManagerTest.php:135-169 | for all inputs the table is the installed part, all of whose rows are installed, followed by the pending rows of the fresh requirements; every installed row comes before every pending row |
| `Connectivity.FirstCatch` | tests/phpunit/unit/Composer/PackageManagerTest.php:103-108 | the clause that runs is one the exception is an instance of, and no clause matches only when none of them catches it |
| `Connectivity.FirstCatchIsFirst` | tests/phpunit/unit/Composer/PackageManagerTest.php:103-108 | the clause that runs is the first in listed order that the exception is an instance of: no earlier clause matches |
| `Connectivity.CatchSelectsOwnClass` | tests/phpunit/unit/Composer/PackageManagerTest.php:103-108 | with the clauses listed specific-first, every exception is handled by the clause of its own class |
| `Connectivity.GeneralFirstMisroutes` | tests/phpunit/unit/Composer/PackageManagerTest.php:104-106 | listing `RequestException` first would handle client and server errors under the general clause |
| `Connectivity.ProbeMessagesClassified` | tests/phpunit/unit/Composer/PackageManagerTest.php:118-128 | a probe queues at most one message, one exactly when it threw, and that message is its class's prefix followed by the exception message |
| `Connectivity.PrefixesExclusive` | tests/phpunit/unit/Composer/PackageManagerTest.php:104-107 | a message written by one clause does not start with another clause's prefix |
| `Connectivity.ParseWritten` | tests/phpunit/unit/Composer/PackageManagerTest.php:104-107 | a queued message reads back as the class of the clause that wrote it and the exception message |
| `Connectivity.ParsedWasWritten` | tests/phpunit/unit/Composer/PackageManagerTest.php:104-107 | every message that reads back is the prefix of the class read followed by the message read |
| `Transport.ColonIndex` | tests/phpunit/unit/Composer/PackageManagerTest.php:255-261 | the position found is the first ':' of the URL, or there is none |
| `Transport.SecureIffHttpsPrefix` | tests/phpunit/unit/Composer/PackageManagerTest.php:255-261 | secure transport is chosen exactly for URLs starting with "https:" |
| `Transport.PlainSiteNotSecure` | tests/phpunit/unit/Composer/PackageManagerTest.php:255-257 | "http://example.com" is not a secure site |
| `Transport.HttpsSiteSecure` | tests/phpunit/unit/Composer/PackageManagerTest.php:259-261 | "https://example.com" is a secure site |
| `Actions.KeyBinding` | tests/phpunit/unit/Composer/PackageManagerTest.php:174-185 | the action -> registry key table is one-to-one and its inverse gives back each action |
| `Collaborators.ActionExecutor.Execute` | tests/phpunit/unit/Composer/PackageManagerTest.php:284-298 | an executor records one call with its arguments and answers with its fixed outcome |
| `Collaborators.JsonManager.Update` | tests/phpunit/unit/Composer/PackageManagerTest.php:58-69 | an update counts one call and returns the `require` section, or throws the parse error |
| `Collaborators.JsonManager.Init` | tests/phpunit/unit/Composer/PackageManagerTest.php:233-246 | `init` records its file and data and returns its fixed result |
| `Collaborators.FlashLogger.Danger` | tests/phpunit/unit/Composer/PackageManagerTest.php:72-80 | a danger flash appends exactly one entry to the log |
| `Collaborators.ActionIo.GetOutput` | tests/phpunit/unit/Composer/PackageManagerTest.php:211-221 | `getOutput` counts one call and returns the captured output |
| `PackageManagement.PackagesFromShow` | tests/phpunit/unit/Composer/PackageManagerTest.php:143-169 | an exception of the "show" action propagates unchanged; a package list is reconciled with the requirements |
| `PackageManagement.PackageManager.constructor` | tests/phpunit/unit/Composer/PackageManagerTest.php:30-128 | with write access: exactly one manifest update, one danger flash carrying a parse error and no other flash, the probe's classified message (or none), the transport decided; without it: no update, no flash, no message, nothing cached |
| `PackageManagement.PackageManager.GetMessages` | tests/phpunit/unit/Composer/PackageManagerTest.php:124-127 | returns the queued setup messages |
| `PackageManagement.PackageManager.UseSsl` | tests/phpunit/unit/Composer/PackageManagerTest.php:249-264 | the first call decides from the site URL's scheme; every later call returns the cached value |
| `PackageManagement.PackageManager.Dispatch` | tests/phpunit/unit/Composer/PackageManagerTest.php:195-205 | the executor under the action's key receives exactly one call with the given arguments, and its outcome is returned unchanged |
| `PackageManagement.PackageManager.CheckPackage` | tests/phpunit/unit/Composer/PackageManagerTest.php:175 | forwards to "check" once with no arguments and returns its outcome |
| `PackageManagement.PackageManager.DependsPackage` | tests/phpunit/unit/Composer/PackageManagerTest.php:176 | forwards to "depends" once with the package and constraint and returns its outcome |
| `PackageManagement.PackageManager.DumpAutoload` | tests/phpunit/unit/Composer/PackageManagerTest.php:177 | forwards to "autoload" once with no arguments and returns its outcome |
| `PackageManagement.PackageManager.InstallPackages` | tests/phpunit/unit/Composer/PackageManagerTest.php:178 | forwards to "install" once with no arguments and returns its outcome |
| `PackageManagement.PackageManager.ProhibitsPackage` | tests/phpunit/unit/Composer/PackageManagerTest.php:179 | forwards to "prohibits" once with the package and constraint and returns its outcome |
| `PackageManagement.PackageManager.RemovePackage` | tests/phpunit/unit/Composer/PackageManagerTest.php:180 | forwards to "remove" once with the package list and returns its outcome |
| `PackageManagement.PackageManager.RequirePackage` | tests/phpunit/unit/Composer/PackageManagerTest.php:181 | forwards to "require" once with the package list and returns its outcome |
| `PackageManagement.PackageManager.SearchPackage` | tests/phpunit/unit/Composer/PackageManagerTest.php:182 | forwards to "search" once with the package list and returns its outcome |
| `PackageManagement.PackageManager.ShowPackage` | tests/phpunit/unit/Composer/PackageManagerTest.php:183 | forwards to "show" once with the target and returns its outcome |
| `PackageManagement.PackageManager.UpdatePackage` | tests/phpunit/unit/Composer/PackageManagerTest.php:184 | forwards to "update" once with the package list and returns its outcome |
| `PackageManagement.PackageManager.GetAllPackages` | tests/phpunit/unit/Composer/PackageManagerTest.php:133-169 | asks "show" once and returns the reconciliation of its package list with the snapshot's requirements and the platform constraint |
| `PackageManagement.PackageManager.GetOutput` | tests/phpunit/unit/Composer/PackageManagerTest.php:207-227 | asks the output capture once and returns its value unchanged |
| `PackageManagement.PackageManager.InitJson` | tests/phpunit/unit/Composer/PackageManagerTest.php:229-247 | calls the manifest store's `init` once with the file and data and returns its result |
| `Scenarios.SetupUpdatesOnce` | tests/phpunit/unit/Composer/PackageManagerTest.php:30-56 | setup with write access and a reachable server updates the manifest exactly once and queues nothing |
| `Scenarios.SetupJsonFail` | tests/phpunit/unit/Composer/PackageManagerTest.php:58-84 | a parse error "bad" in the update yields exactly one danger flash and setup completes |
| `Scenarios.SetupPingException` | tests/phpunit/unit/Composer/PackageManagerTest.php:86-128 | each of the four probe failures queues exactly one message, with its own class's prefix |
| `Scenarios.ExampleTable` | tests/phpunit/unit/Composer/PackageManagerTest.php:135-169 | the test's two installed packages and two requirements reconcile to four rows in that order |
| `Scenarios.GetAllPackagesExample` | tests/phpunit/unit/Composer/PackageManagerTest.php:133-170 | the reconciliation test's table is exactly the two installed rows then the two pending rows, which fixes all fourteen fields of each of the four rows of the expected JSON |
| `Scenarios.TestArgs` | tests/phpunit/unit/Composer/PackageManagerTest.php:174-185 | the arguments of each provider row fit the method of its action |
| `Scenarios.ActionCall` | tests/phpunit/unit/Composer/PackageManagerTest.php:195-205 | every action method returns its executor's `true` and calls it exactly once |
| `Scenarios.GetOutputExample` | tests/phpunit/unit/Composer/PackageManagerTest.php:207-227 | `getOutput` returns "gum leaves" after exactly one call |
| `Scenarios.InitJsonExample` | tests/phpunit/unit/Composer/PackageManagerTest.php:229-247 | `initJson('composer.json', [])` calls `init` exactly once with those arguments |
| `Scenarios.UseSslExample` | tests/phpunit/unit/Composer/PackageManagerTest.php:249-264 | `useSsl` is false for the http site, true for the https site, and true again from the cache after the site setting changed |

## Design choices

- `ReconcileLookup` states the rule that a requirement adds a row only when its name is
  not yet a key, so an installed package wins over a requirement of the same name. The
  tests use disjoint names and do not exercise it.
- The tests mock `Extension\Manager::getResolved` to return `false`, yet the installed rows
  still say `valid` and `enabled` are true. The model follows the tests.
- A requirement map is keyed by package name, so it cannot repeat a name. The installed
  list from "show" is a positional list, so two of its entries can carry the same name;
  then the later row overwrites the earlier one in place, as PHP keyed assignment does
  (`Put`). Should a requirement list repeat a name, the model keeps the first.
- Setup with write access also decides the transport, so `useSsl` is cached from then on.
  The tests do not observe this order.
- `getAllPackages` passes the target "installed" to the "show" action. The tests do not
  fix this argument.
- If "show" returns something other than a package list, the model treats the answer as
  no installed packages. The tests do not cover this case.

## Left out

- HTTP transport (Guzzle client, mock handler, PSR-7 requests and responses): a probe is a tagged outcome carrying its exception class and message, passed to the constructor.
- The Silex container, `Request::createFromGlobals` and the request stack: the container is the `Application` class holding the settings and collaborators.
- Manifest parsing and writing, flash-message rendering and `json_encode`: the manifest store returns its `require` section or a parse error, the flash logger is an append-only log, and the reconciled table stands for its own serialisation.
- Composer's version normalisation and `Extension\Manager::getResolved`: the pretty version and the platform constraint string are inputs.
- Executor internals: an executor answers with a fixed outcome; an exception is a `Failure` carrying its message, returned rather than thrown.
- The reflection that overwrites the private `json` property: the scenario assigns the manager's `requirements` field directly.
- The invalid-CA test: its assertions are commented out, so it states no behaviour.
- Transport.Scheme: the scheme is the text before the first ':', compared case-sensitively with "https", so "HTTPS://example.com" is not secure. No other URL validity rules are modelled. A URL with no ':' or an empty scheme is not secure.
- PackageManagement.PackageManager.Dispatch: requires the action's key to be in the registry and the arguments to fit the method's parameters. In PHP a missing key is an undefined-index failure, and the model does not reproduce that failure.
- Concurrency: the manager is single-threaded and none is modelled.
