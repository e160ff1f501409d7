/**
 * The package reconciliation behind `PackageManager::getAllPackages`: the
 * packages the "show" action reports as installed and the requirements of the
 * manifest's `require` section are merged into one ordered name -> status table.
 *
 * The table is a PHP ordered array keyed by package name. It is modelled as a
 * sequence of entries whose key is the entry's `name`; assigning to a key that
 * is present replaces the entry in place, assigning to a new key appends.
 */
module Packages {
  import opened Wrappers

  /** One installed package as the "show" action reports it. */
  datatype InstalledPackage = InstalledPackage(
    name: string,
    declaredType: Option<string>,
    version: string,        // normalised version, e.g. "1.2.3.0"
    prettyVersion: string,  // version as written, e.g. "1.2.3"
    authors: Option<seq<string>>,
    keywords: Option<seq<string>>)

  /** One entry of the manifest's `require` section. */
  datatype Requirement = Requirement(name: string, constraint: string)

  datatype Status = Installed | Pending

  /** One row of the reconciled table; `None` is serialised as `null`. */
  datatype StatusEntry = StatusEntry(
    status: Status,
    packageType: string,
    name: string,
    title: string,
    description: Option<string>,
    version: string,
    authors: Option<seq<string>>,
    keywords: Option<seq<string>>,
    readmeLink: Option<string>,
    configLink: Option<string>,
    repositoryLink: Option<string>,
    constraint: Option<string>,
    valid: bool,
    enabled: bool)

  /** An ordered name -> entry table; the key of an entry is its `name`. */
  type Table = seq<StatusEntry>

  const DEFAULT_TYPE := "library"
  const PENDING_TYPE := "unknown"
  const PENDING_DESCRIPTION := "Not yet installed."

  /** The row for an installed package; `platform` is the platform constraint string. */
  function InstalledEntry(p: InstalledPackage, platform: string): StatusEntry {
    StatusEntry(
      Installed,
      if p.declaredType.Some? then p.declaredType.value else DEFAULT_TYPE,
      p.name, p.name, None, p.prettyVersion, p.authors, p.keywords,
      None, None, None, Some(platform), true, true)
  }

  /** The row for a requirement that is not installed. */
  function PendingEntry(q: Requirement): StatusEntry {
    StatusEntry(
      Pending, PENDING_TYPE, q.name, q.name, Some(PENDING_DESCRIPTION), q.constraint,
      Some([]), Some([]), None, None, None, None, false, false)
  }

  /** The position of key `n` in `t`, if present. */
  function Find(t: Table, n: string): (r: Option<nat>)
    ensures r.Some? ==> r.value < |t| && t[r.value].name == n
    ensures r.Some? ==> forall j :: 0 <= j < r.value ==> t[j].name != n
    ensures r.None? ==> forall j :: 0 <= j < |t| ==> t[j].name != n
  {
    if t == [] then None
    else if t[0].name == n then Some(0)
    else match Find(t[1..], n)
      case None => None
      case Some(i) => Some(i + 1)
  }

  /** The entry stored under key `n`, if any. */
  function Lookup(t: Table, n: string): Option<StatusEntry> {
    match Find(t, n)
    case None => None
    case Some(i) => Some(t[i])
  }

  /** Every key occurs at most once. */
  predicate UniqueKeys(t: Table) {
    forall i, j :: 0 <= i < j < |t| ==> t[i].name != t[j].name
  }

  /** `Find` returns the first position holding key `n`. */
  lemma FindIs(t: Table, n: string, i: nat)
    requires i < |t| && t[i].name == n
    requires forall j :: 0 <= j < i ==> t[j].name != n
    ensures Find(t, n) == Some(i)
  {
  }

  /** Appending an entry leaves the positions of the present keys alone and gives a new key the last position. */
  lemma FindAppend(t: Table, e: StatusEntry, n: string)
    ensures Find(t + [e], n) ==
      if Find(t, n).Some? then Find(t, n) else if e.name == n then Some(|t|) else None
  {
    var t' := t + [e];
    if Find(t, n).Some? {
      var i := Find(t, n).value;
      FindIs(t', n, i);
    } else if e.name == n {
      FindIs(t', n, |t|);
    } else {
      assert forall j :: 0 <= j < |t'| ==> t'[j].name != n by {
        forall j | 0 <= j < |t'| ensures t'[j].name != n {
          if j < |t| { assert t'[j] == t[j]; }
        }
      }
    }
  }

  /** Replacing the entry at a position by one with the same key moves no key. */
  lemma FindReplace(t: Table, i: nat, e: StatusEntry, n: string)
    requires i < |t| && t[i].name == e.name
    ensures Find(t[i := e], n) == Find(t, n)
  {
    var t' := t[i := e];
    if Find(t, n).Some? {
      FindIs(t', n, Find(t, n).value);
    } else {
      assert forall j :: 0 <= j < |t'| ==> t'[j].name != n by {
        forall j | 0 <= j < |t'| ensures t'[j].name != n {
          assert t'[j].name == t[j].name;
        }
      }
    }
  }

  /** `$table[$e->name] = $e`: replace the entry in place, or append it under a new key. */
  function Put(t: Table, e: StatusEntry): (r: Table)
    ensures Lookup(r, e.name) == Some(e)
    ensures forall n :: n != e.name ==> Lookup(r, n) == Lookup(t, n)
    ensures UniqueKeys(t) ==> UniqueKeys(r)
    ensures |t| <= |r| && forall i :: 0 <= i < |t| ==> r[i].name == t[i].name
  {
    match Find(t, e.name)
    case None =>
      assert forall n :: (Find(t + [e], n) ==
        if Find(t, n).Some? then Find(t, n) else if e.name == n then Some(|t|) else None) by {
        forall n { FindAppend(t, e, n); }
      }
      t + [e]
    case Some(i) =>
      assert forall n :: Find(t[i := e], n) == Find(t, n) by {
        forall n { FindReplace(t, i, e, n); }
      }
      t[i := e]
  }

  /** Inserts one row per installed package, in the order the executor returned them. */
  function AddInstalled(t: Table, ps: seq<InstalledPackage>, platform: string): Table
    decreases |ps|
  {
    if ps == [] then t
    else AddInstalled(Put(t, InstalledEntry(ps[0], platform)), ps[1..], platform)
  }

  /** Appends one pending row per requirement whose name is not yet a key, in manifest order. */
  function AddPending(t: Table, rs: seq<Requirement>): Table
    decreases |rs|
  {
    if rs == [] then t
    else AddPending(if Find(t, rs[0].name).Some? then t else t + [PendingEntry(rs[0])], rs[1..])
  }

  /** `getAllPackages` on the installed list and the requirement list. */
  function Reconcile(installed: seq<InstalledPackage>, required: seq<Requirement>, platform: string): Table {
    AddPending(AddInstalled([], installed, platform), required)
  }

  // ---------------------------------------------------------------------------
  // Per-name reference definition of the result

  /** The last installed package called `n` (a later duplicate overwrites an earlier one). */
  function LatestInstalled(ps: seq<InstalledPackage>, n: string): (r: Option<InstalledPackage>)
    ensures r.Some? ==> r.value in ps && r.value.name == n
    ensures r.None? ==> forall k :: 0 <= k < |ps| ==> ps[k].name != n
  {
    if ps == [] then None
    else match LatestInstalled(ps[1..], n)
      case Some(p) => Some(p)
      case None => if ps[0].name == n then Some(ps[0]) else None
  }

  /** The first requirement called `n`. */
  function FirstRequirement(rs: seq<Requirement>, n: string): (r: Option<Requirement>)
    ensures r.Some? ==> r.value in rs && r.value.name == n
    ensures r.None? ==> forall k :: 0 <= k < |rs| ==> rs[k].name != n
  {
    if rs == [] then None
    else if rs[0].name == n then Some(rs[0])
    else FirstRequirement(rs[1..], n)
  }

  /** What the table holds under `n`: the installed row if `n` is installed, else the pending row if required. */
  function Expected(installed: seq<InstalledPackage>, required: seq<Requirement>, platform: string, n: string): Option<StatusEntry> {
    match LatestInstalled(installed, n)
    case Some(p) => Some(InstalledEntry(p, platform))
    case None =>
      match FirstRequirement(required, n)
      case Some(q) => Some(PendingEntry(q))
      case None => None
  }

  lemma {:induction false} AddInstalledLookup(t: Table, ps: seq<InstalledPackage>, platform: string, n: string)
    ensures Lookup(AddInstalled(t, ps, platform), n) ==
      match LatestInstalled(ps, n)
      case Some(p) => Some(InstalledEntry(p, platform))
      case None => Lookup(t, n)
    decreases |ps|
  {
    if ps != [] {
      AddInstalledLookup(Put(t, InstalledEntry(ps[0], platform)), ps[1..], platform, n);
    }
  }

  lemma {:induction false} AddPendingLookup(t: Table, rs: seq<Requirement>, n: string)
    ensures Lookup(AddPending(t, rs), n) ==
      if Find(t, n).Some? then Lookup(t, n)
      else match FirstRequirement(rs, n)
        case Some(q) => Some(PendingEntry(q))
        case None => None
    decreases |rs|
  {
    if rs != [] {
      var t' := if Find(t, rs[0].name).Some? then t else t + [PendingEntry(rs[0])];
      AppendLookup(t, PendingEntry(rs[0]), n);
      AddPendingLookup(t', rs[1..], n);
    }
  }

  /** Appending under a key changes nothing for the keys already present. */
  lemma AppendLookup(t: Table, e: StatusEntry, n: string)
    ensures Find(t, n).Some? ==> Lookup(t + [e], n) == Lookup(t, n)
    ensures Find(t, n).None? ==> Lookup(t + [e], n) == if e.name == n then Some(e) else None
  {
    FindAppend(t, e, n);
  }

  lemma {:induction false} AddInstalledUnique(t: Table, ps: seq<InstalledPackage>, platform: string)
    requires UniqueKeys(t)
    ensures UniqueKeys(AddInstalled(t, ps, platform))
    decreases |ps|
  {
    if ps != [] {
      AddInstalledUnique(Put(t, InstalledEntry(ps[0], platform)), ps[1..], platform);
    }
  }

  lemma {:induction false} AddPendingUnique(t: Table, rs: seq<Requirement>)
    requires UniqueKeys(t)
    ensures UniqueKeys(AddPending(t, rs))
    decreases |rs|
  {
    if rs != [] {
      AddPendingUnique(if Find(t, rs[0].name).Some? then t else t + [PendingEntry(rs[0])], rs[1..]);
    }
  }

  /**
   * The reconciled table is exactly the per-name reference: the installed row
   * wins over a requirement of the same name, a requirement-only name gets its
   * pending row, and a name in neither input is absent.
   */
  lemma ReconcileLookup(installed: seq<InstalledPackage>, required: seq<Requirement>, platform: string, n: string)
    ensures Lookup(Reconcile(installed, required, platform), n) == Expected(installed, required, platform, n)
  {
    var t := AddInstalled([], installed, platform);
    AddInstalledLookup([], installed, platform, n);
    AddPendingLookup(t, required, n);
  }

  /** Every name occurs at most once in the reconciled table. */
  lemma ReconcileUniqueKeys(installed: seq<InstalledPackage>, required: seq<Requirement>, platform: string)
    ensures UniqueKeys(Reconcile(installed, required, platform))
  {
    AddInstalledUnique([], installed, platform);
    AddPendingUnique(AddInstalled([], installed, platform), required);
  }

  /** In a table with unique keys, the entry at position `i` is the one stored under its name. */
  lemma UniqueLookupAt(t: Table, i: nat)
    requires UniqueKeys(t) && i < |t|
    ensures Lookup(t, t[i].name) == Some(t[i])
  {
  }

  /**
   * Every row has the field values fixed by its status: installed rows carry
   * the pretty version and the platform constraint and are valid and enabled;
   * pending rows carry the raw requirement constraint as version and are
   * neither valid nor enabled. A row is installed exactly when its name is
   * installed.
   */
  lemma ReconcileEntryFields(installed: seq<InstalledPackage>, required: seq<Requirement>, platform: string, i: nat)
    requires i < |Reconcile(installed, required, platform)|
    ensures var e := Reconcile(installed, required, platform)[i];
      e.title == e.name && e.readmeLink == None && e.configLink == None && e.repositoryLink == None &&
      (e.status == Installed <==> LatestInstalled(installed, e.name).Some?) &&
      (e.status == Installed ==>
        var p := LatestInstalled(installed, e.name).value;
        e.packageType == (if p.declaredType.Some? then p.declaredType.value else "library") &&
        e.description == None && e.version == p.prettyVersion &&
        e.authors == p.authors && e.keywords == p.keywords &&
        e.constraint == Some(platform) && e.valid && e.enabled) &&
      (e.status == Pending ==>
        FirstRequirement(required, e.name).Some? &&
        e.packageType == "unknown" && e.description == Some("Not yet installed.") &&
        e.version == FirstRequirement(required, e.name).value.constraint &&
        e.authors == Some([]) && e.keywords == Some([]) &&
        e.constraint == None && !e.valid && !e.enabled)
  {
    var t := Reconcile(installed, required, platform);
    ReconcileUniqueKeys(installed, required, platform);
    UniqueLookupAt(t, i);
    ReconcileLookup(installed, required, platform, t[i].name);
  }

  // ---------------------------------------------------------------------------
  // Layout when installed and required names are disjoint

  function InstalledEntries(ps: seq<InstalledPackage>, platform: string): (r: Table)
    ensures |r| == |ps| && forall k :: 0 <= k < |ps| ==> r[k] == InstalledEntry(ps[k], platform)
  {
    if ps == [] then [] else [InstalledEntry(ps[0], platform)] + InstalledEntries(ps[1..], platform)
  }

  function PendingEntries(rs: seq<Requirement>): (r: Table)
    ensures |r| == |rs| && forall k :: 0 <= k < |rs| ==> r[k] == PendingEntry(rs[k])
  {
    if rs == [] then [] else [PendingEntry(rs[0])] + PendingEntries(rs[1..])
  }

  predicate DistinctInstalled(ps: seq<InstalledPackage>) {
    forall i, j :: 0 <= i < j < |ps| ==> ps[i].name != ps[j].name
  }

  predicate DistinctRequirements(rs: seq<Requirement>) {
    forall i, j :: 0 <= i < j < |rs| ==> rs[i].name != rs[j].name
  }

  predicate Disjoint(ps: seq<InstalledPackage>, rs: seq<Requirement>) {
    forall i, j :: 0 <= i < |ps| && 0 <= j < |rs| ==> ps[i].name != rs[j].name
  }

  lemma {:induction false} AddInstalledFresh(t: Table, ps: seq<InstalledPackage>, platform: string)
    requires DistinctInstalled(ps)
    requires forall k :: 0 <= k < |ps| ==> Find(t, ps[k].name).None?
    ensures AddInstalled(t, ps, platform) == t + InstalledEntries(ps, platform)
    decreases |ps|
  {
    if ps != [] {
      var e := InstalledEntry(ps[0], platform);
      var t' := t + [e];
      assert AddInstalled(t, ps, platform) == AddInstalled(t', ps[1..], platform) by {
        assert Find(t, ps[0].name).None?;
        assert Put(t, e) == t';
      }
      assert forall k :: 0 <= k < |ps[1..]| ==> Find(t', ps[1..][k].name).None? by {
        forall k | 0 <= k < |ps[1..]| ensures Find(t', ps[1..][k].name).None? {
          assert ps[1..][k] == ps[k + 1];
          FindAppend(t, e, ps[k + 1].name);
        }
      }
      AddInstalledFresh(t', ps[1..], platform);
      InstalledEntriesCons(t, ps, platform);
    }
  }

  lemma InstalledEntriesCons(t: Table, ps: seq<InstalledPackage>, platform: string)
    requires ps != []
    ensures (t + [InstalledEntry(ps[0], platform)]) + InstalledEntries(ps[1..], platform) == t + InstalledEntries(ps, platform)
  {
    assert InstalledEntries(ps, platform) == [InstalledEntry(ps[0], platform)] + InstalledEntries(ps[1..], platform);
  }

  lemma {:induction false} AddPendingFresh(t: Table, rs: seq<Requirement>)
    requires DistinctRequirements(rs)
    requires forall k :: 0 <= k < |rs| ==> Find(t, rs[k].name).None?
    ensures AddPending(t, rs) == t + PendingEntries(rs)
    decreases |rs|
  {
    if rs != [] {
      var e := PendingEntry(rs[0]);
      var t' := t + [e];
      assert AddPending(t, rs) == AddPending(t', rs[1..]) by {
        assert Find(t, rs[0].name).None?;
      }
      assert forall k :: 0 <= k < |rs[1..]| ==> Find(t', rs[1..][k].name).None? by {
        forall k | 0 <= k < |rs[1..]| ensures Find(t', rs[1..][k].name).None? {
          assert rs[1..][k] == rs[k + 1];
          FindAppend(t, e, rs[k + 1].name);
        }
      }
      AddPendingFresh(t', rs[1..]);
      PendingEntriesCons(t, rs);
    }
  }

  lemma PendingEntriesCons(t: Table, rs: seq<Requirement>)
    requires rs != []
    ensures (t + [PendingEntry(rs[0])]) + PendingEntries(rs[1..]) == t + PendingEntries(rs)
  {
    assert PendingEntries(rs) == [PendingEntry(rs[0])] + PendingEntries(rs[1..]);
  }

  /**
   * For distinct, disjoint names the table is one installed row per installed
   * package in executor order, followed by one pending row per requirement in
   * manifest order; so it has |installed| + |required| rows.
   */
  lemma ReconcileDisjointLayout(installed: seq<InstalledPackage>, required: seq<Requirement>, platform: string)
    requires DistinctInstalled(installed) && DistinctRequirements(required)
    requires Disjoint(installed, required)
    ensures Reconcile(installed, required, platform) ==
      InstalledEntries(installed, platform) + PendingEntries(required)
    ensures |Reconcile(installed, required, platform)| == |installed| + |required|
  {
    var t := InstalledEntries(installed, platform);
    assert AddInstalled([], installed, platform) == t by {
      AddInstalledFresh([], installed, platform);
      assert [] + t == t;
    }
    assert forall k :: 0 <= k < |required| ==> Find(t, required[k].name).None? by {
      forall k | 0 <= k < |required| ensures Find(t, required[k].name).None? {
        assert forall i :: 0 <= i < |t| ==> t[i].name == installed[i].name;
      }
    }
    AddPendingFresh(t, required);
  }

  // ---------------------------------------------------------------------------
  // Layout for all inputs

  /** The names of the installed packages. */
  function InstalledNames(ps: seq<InstalledPackage>): set<string> {
    set k | 0 <= k < |ps| :: ps[k].name
  }

  /**
   * The requirements that get a pending row, in manifest order: those whose
   * name is not in `seen` (the installed names) and not taken by an earlier
   * requirement.
   */
  function FreshRequirements(rs: seq<Requirement>, seen: set<string>): (r: seq<Requirement>)
    ensures forall k :: 0 <= k < |r| ==> r[k] in rs && r[k].name !in seen
    decreases |rs|
  {
    if rs == [] then []
    else if rs[0].name in seen then FreshRequirements(rs[1..], seen)
    else [rs[0]] + FreshRequirements(rs[1..], seen + {rs[0].name})
  }

  predicate AllInstalled(t: Table) {
    forall i :: 0 <= i < |t| ==> t[i].status == Installed
  }

  /** Every row after an assignment is the assigned one or a row that was there before. */
  lemma PutRows(t: Table, e: StatusEntry)
    ensures |Put(t, e)| <= |t| + 1
    ensures forall i :: 0 <= i < |Put(t, e)| ==> Put(t, e)[i] == e || (i < |t| && Put(t, e)[i] == t[i])
  {
  }

  lemma {:induction false} AddInstalledAllInstalled(t: Table, ps: seq<InstalledPackage>, platform: string)
    requires AllInstalled(t)
    ensures AllInstalled(AddInstalled(t, ps, platform))
    decreases |ps|
  {
    if ps != [] {
      var e := InstalledEntry(ps[0], platform);
      PutRows(t, e);
      AddInstalledAllInstalled(Put(t, e), ps[1..], platform);
    }
  }

  /** The requirements append the pending rows of the fresh requirements after the existing rows. */
  lemma {:induction false} AddPendingAppends(t: Table, rs: seq<Requirement>, seen: set<string>)
    requires forall n :: Find(t, n).Some? <==> n in seen
    ensures AddPending(t, rs) == t + PendingEntries(FreshRequirements(rs, seen))
    decreases |rs|
  {
    if rs != [] {
      var q := rs[0];
      if q.name in seen {
        assert Find(t, q.name).Some?;
        AddPendingAppends(t, rs[1..], seen);
      } else {
        var t' := t + [PendingEntry(q)];
        var seen' := seen + {q.name};
        assert AddPending(t, rs) == AddPending(t', rs[1..]) by {
          assert Find(t, q.name).None?;
        }
        forall n ensures Find(t', n).Some? <==> n in seen' {
          FindAppend(t, PendingEntry(q), n);
        }
        AddPendingAppends(t', rs[1..], seen');
        FreshCons(t, rs, seen);
      }
    }
  }

  lemma FreshCons(t: Table, rs: seq<Requirement>, seen: set<string>)
    requires rs != [] && rs[0].name !in seen
    ensures (t + [PendingEntry(rs[0])]) + PendingEntries(FreshRequirements(rs[1..], seen + {rs[0].name}))
         == t + PendingEntries(FreshRequirements(rs, seen))
  {
    var f := FreshRequirements(rs, seen);
    assert f == [rs[0]] + FreshRequirements(rs[1..], seen + {rs[0].name});
    PendingEntriesCons(t, f);
  }

  /** A name is a key of the installed part exactly when some installed package has it. */
  lemma InstalledKeys(ps: seq<InstalledPackage>, platform: string, n: string)
    ensures Find(AddInstalled([], ps, platform), n).Some? <==> n in InstalledNames(ps)
  {
    AddInstalledLookup([], ps, platform, n);
    if n in InstalledNames(ps) {
      var k :| 0 <= k < |ps| && ps[k].name == n;
      assert LatestInstalled(ps, n).Some?;
    }
  }

  /**
   * For all inputs, the table is the installed part (installed rows only)
   * followed by one pending row per fresh requirement in manifest order; so
   * every installed row comes before every pending row.
   */
  lemma ReconcileLayout(installed: seq<InstalledPackage>, required: seq<Requirement>, platform: string)
    ensures var t := AddInstalled([], installed, platform);
      AllInstalled(t) &&
      Reconcile(installed, required, platform) == t + PendingEntries(FreshRequirements(required, InstalledNames(installed)))
    ensures var r := Reconcile(installed, required, platform);
      forall i, j :: 0 <= i < j < |r| && r[i].status == Pending ==> r[j].status == Pending
  {
    var t := AddInstalled([], installed, platform);
    AddInstalledAllInstalled([], installed, platform);
    forall n ensures Find(t, n).Some? <==> n in InstalledNames(installed) {
      InstalledKeys(installed, platform, n);
    }
    AddPendingAppends(t, required, InstalledNames(installed));
  }
}

