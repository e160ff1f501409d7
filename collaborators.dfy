/**
 * The objects a `PackageManager` finds in the host application container.
 * Their internals are not modelled: each records the calls it receives and
 * answers with a value fixed by the host, which is all the manager relies on.
 */
module Collaborators {
  import opened Wrappers
  import opened Packages
  import opened Actions

  /** One entry of the action registry (`extend.action`): a single `execute` operation. */
  class ActionExecutor {
    /** The argument lists of every `execute` call so far. */
    var calls: seq<Args>
    /** What `execute` returns, or the message of the exception it throws. */
    const outcome: Result<Value, string>

    constructor (outcome: Result<Value, string>)
      ensures calls == [] && this.outcome == outcome
    {
      calls := [];
      this.outcome := outcome;
    }

    method Execute(args: Args) returns (r: Result<Value, string>)
      modifies this`calls
      ensures calls == old(calls) + [args]
      ensures r == outcome
    {
      calls := calls + [args];
      r := outcome;
    }
  }

  /** The manifest store (`extend.manager.json`). */
  class JsonManager {
    /** The `require` section of the manifest on disk, in declaration order. */
    const require: seq<Requirement>
    /** The message of the parse error `update` hits, when the manifest is corrupt. */
    const parseError: Option<string>
    var updateCalls: nat
    /** The (file, data) arguments of every `init` call so far. */
    var initCalls: seq<(string, map<string, string>)>
    const initResult: Value

    constructor (require: seq<Requirement>, parseError: Option<string>, initResult: Value)
      ensures this.require == require && this.parseError == parseError && this.initResult == initResult
      ensures updateCalls == 0 && initCalls == []
    {
      this.require := require;
      this.parseError := parseError;
      this.initResult := initResult;
      updateCalls := 0;
      initCalls := [];
    }

    /** Reloads the manifest and returns its `require` section, or throws the parse error. */
    method Update() returns (r: Result<seq<Requirement>, string>)
      modifies this`updateCalls
      ensures updateCalls == old(updateCalls) + 1
      ensures r == if parseError.Some? then Failure(parseError.value) else Success(require)
    {
      updateCalls := updateCalls + 1;
      r := if parseError.Some? then Failure(parseError.value) else Success(require);
    }

    method Init(file: string, data: map<string, string>) returns (r: Value)
      modifies this`initCalls
      ensures initCalls == old(initCalls) + [(file, data)]
      ensures r == initResult
    {
      initCalls := initCalls + [(file, data)];
      r := initResult;
    }
  }

  datatype Severity = DangerLevel

  datatype Flash = Flash(severity: Severity, message: string)

  /** The flash message sink (`logger.flash`), an append-only log. */
  class FlashLogger {
    var log: seq<Flash>

    constructor ()
      ensures log == []
    {
      log := [];
    }

    method Danger(message: string)
      modifies this
      ensures log == old(log) + [Flash(DangerLevel, message)]
    {
      log := log + [Flash(DangerLevel, message)];
    }
  }

  /** The output capture of the action runner (`extend.action.io`). */
  class ActionIo {
    const output: string
    var calls: nat

    constructor (output: string)
      ensures this.output == output && calls == 0
    {
      this.output := output;
      calls := 0;
    }

    method GetOutput() returns (s: string)
      modifies this`calls
      ensures calls == old(calls) + 1
      ensures s == output
    {
      calls := calls + 1;
      s := output;
    }
  }

  /** The host application container, holding configuration and collaborators. */
  class Application {
    /** `extend.writeable`: whether the manifest may be updated and the server probed at setup. */
    var writeable: bool
    /** `extend.site`: the extension server's URL. */
    var site: string
    /** The platform compatibility string attached to installed packages (e.g. "4.0.0 alpha 1"). */
    var platformConstraint: string
    /** `extend.action`: the action registry. */
    var actions: map<string, ActionExecutor>
    const json: JsonManager
    const flash: FlashLogger
    const io: ActionIo

    constructor (writeable: bool, site: string, platformConstraint: string,
                 actions: map<string, ActionExecutor>, json: JsonManager, flash: FlashLogger, io: ActionIo)
      ensures this.writeable == writeable && this.site == site && this.platformConstraint == platformConstraint
      ensures this.actions == actions && this.json == json && this.flash == flash && this.io == io
    {
      this.writeable := writeable;
      this.site := site;
      this.platformConstraint := platformConstraint;
      this.actions := actions;
      this.json := json;
      this.flash := flash;
      this.io := io;
    }
  }
}
