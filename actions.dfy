/**
 * The ten action methods of `PackageManager`, each bound to one entry of the
 * action executor registry, and the values that pass through them.
 */
module Actions {
  import opened Wrappers
  import opened Packages

  datatype Action = Check | Depends | Autoload | Install | Prohibits | Remove | Require | Search | Show | Update

  /** The registry key each action method looks up. */
  function Key(a: Action): string {
    match a
    case Check => "check"
    case Depends => "depends"
    case Autoload => "autoload"
    case Install => "install"
    case Prohibits => "prohibits"
    case Remove => "remove"
    case Require => "require"
    case Search => "search"
    case Show => "show"
    case Update => "update"
  }

  /** The action bound to a registry key, if any. */
  function ActionOfKey(k: string): Option<Action> {
    if k == "check" then Some(Check)
    else if k == "depends" then Some(Depends)
    else if k == "autoload" then Some(Autoload)
    else if k == "install" then Some(Install)
    else if k == "prohibits" then Some(Prohibits)
    else if k == "remove" then Some(Remove)
    else if k == "require" then Some(Require)
    else if k == "search" then Some(Search)
    else if k == "show" then Some(Show)
    else if k == "update" then Some(Update)
    else None
  }

  /** The binding is one-to-one: every action has its own key, and a key names at most one action. */
  lemma KeyBinding(a: Action, k: string)
    ensures ActionOfKey(Key(a)) == Some(a)
    ensures ActionOfKey(k) == Some(a) <==> k == Key(a)
  {
  }

  /** The arguments an action method forwards, by the shape of its parameters. */
  datatype Args =
    | NoArgs                                                       // check, autoload, install
    | PackageQuery(packageName: Option<string>, constraint: Option<string>)  // depends, prohibits
    | PackageList(packages: seq<string>)                           // remove, require, search, update
    | ShowTarget(target: Option<string>)                           // show

  /** The argument shape the method of each action takes. */
  predicate ArgsFit(a: Action, args: Args) {
    match a
    case Check | Autoload | Install => args.NoArgs?
    case Depends | Prohibits => args.PackageQuery?
    case Remove | Require | Search | Update => args.PackageList?
    case Show => args.ShowTarget?
  }

  /** What an executor can hand back. */
  datatype Value = Null | Bool(b: bool) | Text(s: string) | InstalledList(list: seq<InstalledPackage>)
}
