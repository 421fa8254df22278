/// The scanner part modules of a vehicle: their identity and sensor mask,
/// their mutable scanning state, the status rows the service reports for
/// them, and the lookup of a module by part and family.
module ScannerRegistry {
  import opened ScannerFamilyMask

  datatype Option<T> = None | Some(value: T)

  /** A scanner part module. Its part id, sensor mask and part title are
      fixed; whether it is scanning changes only through StartScan and
      StopScan, and `requests` records every such call (true for a start). */
  class ScannerModule {
    const partId: nat
    const mask: bv32
    const title: string
    var active: bool
    ghost var requests: seq<bool>

    constructor(partId: nat, mask: bv32, title: string, active: bool)
      ensures this.partId == partId && this.mask == mask && this.title == title
      ensures this.active == active && requests == []
    {
      this.partId := partId;
      this.mask := mask;
      this.title := title;
      this.active := active;
      requests := [];
    }

    /** The start-scan call of the part module; its effect is to scan. */
    method StartScan()
      modifies this
      ensures active && requests == old(requests) + [true]
    {
      active := true;
      requests := requests + [true];
    }

    /** The stop-scan call of the part module; its effect is to stop scanning. */
    method StopScan()
      modifies this
      ensures !active && requests == old(requests) + [false]
    {
      active := false;
      requests := requests + [false];
    }
  }

  /** The state of a module as the service observes it. */
  datatype ModuleView = ModuleView(partId: nat, mask: bv32, title: string, active: bool)

  /** The observed state of every module of a vehicle, in order. */
  function Views(modules: seq<ScannerModule>): (views: seq<ModuleView>)
    reads modules
    ensures |views| == |modules|
    ensures forall i :: 0 <= i < |modules| ==>
              views[i] == ModuleView(modules[i].partId, modules[i].mask, modules[i].title, modules[i].active)
  {
    seq(|modules|, i reads modules requires 0 <= i < |modules| =>
      ModuleView(modules[i].partId, modules[i].mask, modules[i].title, modules[i].active))
  }

  /** Each module object of a vehicle is listed once. */
  predicate Distinct(modules: seq<ScannerModule>) {
    forall i, j :: 0 <= i < j < |modules| ==> modules[i] != modules[j]
  }

  /** A status row of the scanner report. */
  datatype ScannerModuleStatus = ScannerModuleStatus(
    vesselName: string,
    partFlightId: nat,
    partTitle: string,
    family: ScannerFamily,
    sensorMask: bv32,
    active: bool)

  /** The rows reported for one module whose mask decomposes into
      `families`: one per family, in order, or a single Nothing row when
      there is none. */
  function RowsFor(vesselName: string, v: ModuleView, families: seq<ScannerFamily>): (rows: seq<ScannerModuleStatus>)
    ensures |rows| == if |families| == 0 then 1 else |families|
    ensures forall n :: 0 <= n < |rows| ==>
              rows[n].vesselName == vesselName && rows[n].partFlightId == v.partId &&
              rows[n].partTitle == v.title && rows[n].sensorMask == v.mask && rows[n].active == v.active
    ensures |families| == 0 ==> rows[0].family == Nothing
    ensures |families| != 0 ==> forall n :: 0 <= n < |rows| ==> rows[n].family == families[n]
  {
    if |families| == 0 then
      [ScannerModuleStatus(vesselName, v.partId, v.title, Nothing, v.mask, v.active)]
    else
      seq(|families|, n requires 0 <= n < |families| =>
        ScannerModuleStatus(vesselName, v.partId, v.title, families[n], v.mask, v.active))
  }

  /** The atomic families of every module's mask, in module order. */
  function FamilyLists(views: seq<ModuleView>): (lists: seq<seq<ScannerFamily>>)
    ensures |lists| == |views|
  {
    seq(|views|, i requires 0 <= i < |views| => FamiliesOf(views[i].mask))
  }

  lemma FamilyListsAt(views: seq<ModuleView>, i: nat)
    requires i < |views|
    ensures FamilyLists(views)[i] == FamiliesOf(views[i].mask)
  {
  }

  /** Each list names only atomic families that share a bit with its
      module's mask. */
  predicate SoundLists(views: seq<ModuleView>, lists: seq<seq<ScannerFamily>>) {
    |lists| == |views| &&
    forall i, f :: 0 <= i < |views| && f in lists[i] ==> f in AtomicFamilies && Shares(views[i].mask, f)
  }

  /** The decomposition the report uses is sound. */
  lemma FamilyListsSound(views: seq<ModuleView>)
    ensures SoundLists(views, FamilyLists(views))
  {
    forall i | 0 <= i < |views|
      ensures forall f :: f in FamilyLists(views)[i] ==> f in AtomicFamilies && Shares(views[i].mask, f)
    {
      FamilyListsAt(views, i);
      FamiliesOfSpec(views[i].mask);
    }
  }

  /** Whether the report keeps a module: it must be scanning when only active
      modules are wanted, and share a bit with a non-zero family filter. */
  predicate Kept(v: ModuleView, filterMask: bv32, activeOnly: bool) {
    !(activeOnly && !v.active) && !(filterMask != 0 && !Shares(v.mask, filterMask))
  }

  /** The rows one module contributes to the report: its rows when the
      filters keep it, none otherwise. */
  function KeptRows(vesselName: string, v: ModuleView, families: seq<ScannerFamily>, filterMask: bv32, activeOnly: bool)
    : seq<ScannerModuleStatus>
  {
    if Kept(v, filterMask, activeOnly) then RowsFor(vesselName, v, families) else []
  }

  /** The report over the first n modules, in module order, where lists[i]
      is the decomposition of module i's mask. */
  function Describe(vesselName: string, views: seq<ModuleView>, lists: seq<seq<ScannerFamily>>,
                    filterMask: bv32, activeOnly: bool, n: nat)
    : seq<ScannerModuleStatus>
    requires n <= |views| && n <= |lists|
  {
    if n == 0 then []
    else
      Describe(vesselName, views, lists, filterMask, activeOnly, n - 1)
        + KeptRows(vesselName, views[n - 1], lists[n - 1], filterMask, activeOnly)
  }

  /** The number of rows the report has over the first n modules: one per
      family of each kept module, and at least one per kept module. */
  function RowCount(views: seq<ModuleView>, lists: seq<seq<ScannerFamily>>,
                    filterMask: bv32, activeOnly: bool, n: nat): nat
    requires n <= |views| && n <= |lists|
  {
    if n == 0 then 0
    else
      RowCount(views, lists, filterMask, activeOnly, n - 1)
        + (if !Kept(views[n - 1], filterMask, activeOnly) then 0
           else if |lists[n - 1]| == 0 then 1
           else |lists[n - 1]|)
  }

  /** What every row of the report satisfies: it is active when only
      active modules are wanted, shares a bit with a non-zero filter, and
      names either Nothing or an atomic family of its own mask. */
  predicate RowOfKept(r: ScannerModuleStatus, vesselName: string, filterMask: bv32, activeOnly: bool) {
    (activeOnly ==> r.active) &&
    (filterMask != 0 ==> Shares(r.sensorMask, filterMask)) &&
    r.vesselName == vesselName &&
    (r.family == Nothing || (r.family in AtomicFamilies && Shares(r.sensorMask, r.family)))
  }

  lemma RowsForOfKept(vesselName: string, v: ModuleView, families: seq<ScannerFamily>,
                      filterMask: bv32, activeOnly: bool)
    requires Kept(v, filterMask, activeOnly)
    requires forall f :: f in families ==> f in AtomicFamilies && Shares(v.mask, f)
    ensures forall m :: 0 <= m < |RowsFor(vesselName, v, families)| ==>
              RowOfKept(RowsFor(vesselName, v, families)[m], vesselName, filterMask, activeOnly)
  {
    var rows := RowsFor(vesselName, v, families);
    forall m | 0 <= m < |rows|
      ensures RowOfKept(rows[m], vesselName, filterMask, activeOnly)
    {
      if |families| != 0 {
        assert rows[m].family in families;
      }
    }
  }

  /** Every row of the report comes from a kept module and names one of
      its atomic families or Nothing. */
  lemma {:induction false} DescribeRowsKept(vesselName: string, views: seq<ModuleView>, lists: seq<seq<ScannerFamily>>,
                                            filterMask: bv32, activeOnly: bool, n: nat)
    requires n <= |views| && SoundLists(views, lists)
    ensures forall m :: 0 <= m < |Describe(vesselName, views, lists, filterMask, activeOnly, n)| ==>
              RowOfKept(Describe(vesselName, views, lists, filterMask, activeOnly, n)[m], vesselName, filterMask, activeOnly)
  {
    if n > 0 {
      DescribeRowsKept(vesselName, views, lists, filterMask, activeOnly, n - 1);
      var v := views[n - 1];
      var prefix := Describe(vesselName, views, lists, filterMask, activeOnly, n - 1);
      var tail := KeptRows(vesselName, v, lists[n - 1], filterMask, activeOnly);
      if Kept(v, filterMask, activeOnly) {
        RowsForOfKept(vesselName, v, lists[n - 1], filterMask, activeOnly);
      }
      var whole := Describe(vesselName, views, lists, filterMask, activeOnly, n);
      assert whole == prefix + tail;
      forall m | 0 <= m < |whole|
        ensures RowOfKept(whole[m], vesselName, filterMask, activeOnly)
      {
        if m < |prefix| {
          assert whole[m] == prefix[m];
        } else {
          assert whole[m] == tail[m - |prefix|];
        }
      }
    }
  }

  /** The report has one row per family of every kept module, one row for a
      kept module without families, and none for the others. */
  lemma {:induction false} DescribeLength(vesselName: string, views: seq<ModuleView>, lists: seq<seq<ScannerFamily>>,
                                          filterMask: bv32, activeOnly: bool, n: nat)
    requires n <= |views| && n <= |lists|
    ensures |Describe(vesselName, views, lists, filterMask, activeOnly, n)| == RowCount(views, lists, filterMask, activeOnly, n)
  {
    if n > 0 {
      DescribeLength(vesselName, views, lists, filterMask, activeOnly, n - 1);
    }
  }

  /** The report is empty exactly when no module is kept. */
  lemma {:induction false} DescribeEmpty(vesselName: string, views: seq<ModuleView>, lists: seq<seq<ScannerFamily>>,
                                         filterMask: bv32, activeOnly: bool, n: nat)
    requires n <= |views| && n <= |lists|
    ensures Describe(vesselName, views, lists, filterMask, activeOnly, n) == [] <==>
            forall i :: 0 <= i < n ==> !Kept(views[i], filterMask, activeOnly)
  {
    if n > 0 {
      DescribeEmpty(vesselName, views, lists, filterMask, activeOnly, n - 1);
      var rest := Describe(vesselName, views, lists, filterMask, activeOnly, n - 1);
      var tail := KeptRows(vesselName, views[n - 1], lists[n - 1], filterMask, activeOnly);
      assert Describe(vesselName, views, lists, filterMask, activeOnly, n) == rest + tail;
      if Kept(views[n - 1], filterMask, activeOnly) {
        assert |tail| >= 1;
      } else {
        assert tail == [];
        assert rest + tail == rest;
      }
    }
  }

  /** The rows DescribeScannerModules yields for one kept module: one per
      family the mask decomposes into, or a single Nothing row. */
  method ModuleRows(vesselName: string, scanner: ScannerModule) returns (moduleRows: seq<ScannerModuleStatus>)
    ensures moduleRows
            == RowsFor(vesselName, ModuleView(scanner.partId, scanner.mask, scanner.title, scanner.active),
                       FamiliesOf(scanner.mask))
  {
    ghost var vrows := RowsFor(vesselName, ModuleView(scanner.partId, scanner.mask, scanner.title, scanner.active),
                               FamiliesOf(scanner.mask));
    var families := EnumerateScannerFamilies(scanner.mask);
    if |families| == 0 {
      return [ScannerModuleStatus(vesselName, scanner.partId, scanner.title, Nothing, scanner.mask, scanner.active)];
    }
    moduleRows := [];
    for j := 0 to |families|
      invariant |moduleRows| == j
      invariant forall n :: 0 <= n < j ==> moduleRows[n] == vrows[n]
    {
      moduleRows := moduleRows
        + [ScannerModuleStatus(vesselName, scanner.partId, scanner.title, families[j], scanner.mask, scanner.active)];
    }
  }

  /** One pass of the report loop: no rows for a module the filters skip,
      otherwise the module's rows. */
  method KeptModuleRows(vesselName: string, scanner: ScannerModule, filterMask: bv32, activeOnly: bool)
    returns (moduleRows: seq<ScannerModuleStatus>)
    ensures moduleRows
            == KeptRows(vesselName, ModuleView(scanner.partId, scanner.mask, scanner.title, scanner.active),
                        FamiliesOf(scanner.mask), filterMask, activeOnly)
  {
    if activeOnly && !scanner.active {
      return [];
    }
    if filterMask != 0 && !Shares(scanner.mask, filterMask) {
      return [];
    }
    moduleRows := ModuleRows(vesselName, scanner);
  }

  /** One pass of the report loop over module i: the report so far grows
      by that module's rows when the filters keep it. */
  method ReportModule(vesselName: string, modules: seq<ScannerModule>, ghost views: seq<ModuleView>,
                      ghost lists: seq<seq<ScannerFamily>>, i: nat, filterMask: bv32, activeOnly: bool,
                      rows: seq<ScannerModuleStatus>)
    returns (extended: seq<ScannerModuleStatus>)
    requires views == Views(modules) && lists == FamilyLists(views) && i < |modules|
    requires rows == Describe(vesselName, views, lists, filterMask, activeOnly, i)
    ensures extended == Describe(vesselName, views, lists, filterMask, activeOnly, i + 1)
  {
    assert views[i] == ModuleView(modules[i].partId, modules[i].mask, modules[i].title, modules[i].active);
    FamilyListsAt(views, i);
    var moduleRows := KeptModuleRows(vesselName, modules[i], filterMask, activeOnly);
    extended := rows + moduleRows;
  }

  /** DescribeScannerModules: the status rows of a vehicle's scanner modules,
      optionally only the active ones and only those sharing a bit with a
      family filter (normalized first; Nothing keeps every module). */
  method DescribeScannerModules(vesselName: string, modules: seq<ScannerModule>,
                                filterFamily: ScannerFamily, activeOnly: bool)
    returns (rows: seq<ScannerModuleStatus>)
    ensures rows == Describe(vesselName, Views(modules), FamilyLists(Views(modules)),
                             NormalizeFamilyMask(filterFamily), activeOnly, |modules|)
  {
    var filterMask := NormalizeFamilyMask(filterFamily);
    ghost var views := Views(modules);
    ghost var lists := FamilyLists(views);
    rows := [];
    for i := 0 to |modules|
      invariant rows == Describe(vesselName, views, lists, filterMask, activeOnly, i)
    {
      rows := ReportModule(vesselName, modules, views, lists, i, filterMask, activeOnly, rows);
    }
  }

  /** A module is on the given part and shares a bit with the family mask. */
  predicate Matches(v: ModuleView, partId: nat, familyMask: bv32) {
    v.partId == partId && Shares(v.mask, familyMask)
  }

  /** FindMatchingScannerModule: the first module on the given part that
      shares a bit with the family mask, if any. */
  function FindMatching(views: seq<ModuleView>, partId: nat, familyMask: bv32): (r: Option<nat>)
    ensures r.Some? ==> r.value < |views| && Matches(views[r.value], partId, familyMask)
    ensures r.Some? ==> forall i :: 0 <= i < r.value ==> !Matches(views[i], partId, familyMask)
    ensures r.None? <==> forall i :: 0 <= i < |views| ==> !Matches(views[i], partId, familyMask)
  {
    if views == [] then None
    else if Matches(views[0], partId, familyMask) then Some(0)
    else
      match FindMatching(views[1..], partId, familyMask)
      case None =>
        assert forall i :: 1 <= i < |views| ==> views[i] == views[1..][i - 1];
        None
      case Some(k) =>
        assert forall i :: 1 <= i < |views| ==> views[i] == views[1..][i - 1];
        Some(k + 1)
  }
}
