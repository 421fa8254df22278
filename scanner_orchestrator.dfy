/// The scanner procedures that act on a vehicle: switching one module on or
/// off, querying it, and enabling exactly one module of a family while
/// disabling every other module of that family.
module ScannerOrchestrator {
  import opened ServiceErrors
  import opened ScannerFamilyMask
  import opened ScannerRegistry

  const FamilyRequired: string := "Scanner family is required."

  /** The number a string of decimal digits denotes, most significant first. */
  function DigitsValue(s: string): nat
    requires forall k :: 0 <= k < |s| ==> '0' <= s[k] <= '9'
  {
    if s == [] then 0
    else DigitsValue(s[..|s| - 1]) * 10 + (s[|s| - 1] as int - '0' as int)
  }

  /** The decimal digits of a number, with no leading zero. */
  function DecimalText(n: nat): (s: string)
    ensures 1 <= |s|
    ensures forall k :: 0 <= k < |s| ==> '0' <= s[k] <= '9'
    ensures DigitsValue(s) == n
    ensures 0 < n ==> s[0] != '0'
    ensures 1 < |s| ==> s[0] != '0'
  {
    var digit := ('0' as int + n % 10) as char;
    if n < 10 then [digit]
    else
      var prefix := DecimalText(n / 10);
      assert (prefix + [digit])[..|prefix + [digit]| - 1] == prefix;
      prefix + [digit]
  }

  /** How a family value is written into a message: the name of the enum
      member that has the value (the high-resolution altimetry name for the
      value SAR shares with it), otherwise the signed 32-bit number. */
  function FamilyText(family: ScannerFamily): string {
    if family == Nothing then "Nothing"
    else if family == AltimetryLoRes then "AltimetryLoRes"
    else if family == AltimetryHiRes then "AltimetryHiRes"
    else if family == Altimetry then "Altimetry"
    else if family == VisualLoRes then "VisualLoRes"
    else if family == Biome then "Biome"
    else if family == Anomaly then "Anomaly"
    else if family == AnomalyDetail then "AnomalyDetail"
    else if family == VisualHiRes then "VisualHiRes"
    else if family == ResourceLoRes then "ResourceLoRes"
    else if family == ResourceHiRes then "ResourceHiRes"
    else if family < 0x8000_0000 then DecimalText(family as nat)
    else "-" + DecimalText(0x1_0000_0000 - family as int)
  }

  function NotFoundMessage(vesselName: string, partId: nat, family: ScannerFamily): string {
    "Scanner module not found on vessel '" + vesselName + "' for part " + DecimalText(partId)
      + " and family " + FamilyText(family) + "."
  }

  function NoModulesMessage(vesselName: string, family: ScannerFamily): string {
    "No scanner modules found on vessel '" + vesselName + "' for family " + FamilyText(family) + "."
  }

  /** SetScannerState: starts or stops a module unless it is already in the
      requested state, in which case no call is made. */
  method SetScannerState(scanner: ScannerModule, enabled: bool)
    modifies scanner
    ensures scanner.active == enabled
    ensures old(scanner.active) == enabled ==> scanner.requests == old(scanner.requests)
    ensures old(scanner.active) != enabled ==> scanner.requests == old(scanner.requests) + [enabled]
  {
    var currentlyActive := scanner.active;
    if enabled == currentlyActive {
      return;
    }
    if enabled {
      scanner.StartScan();
    } else {
      scanner.StopScan();
    }
  }

  /** IsScannerEnabled: whether the first module on the part that serves the
      family is scanning; fails without a family, or without such a module. */
  function IsScannerEnabled(vesselName: string, modules: seq<ScannerModule>, partId: nat,
                            family: ScannerFamily): (r: Result<bool>)
    reads modules
    ensures NormalizeFamilyMask(family) == 0 ==> r == Failure(FamilyRequired)
    ensures r.Ok? <==> (NormalizeFamilyMask(family) != 0 &&
              exists i :: 0 <= i < |modules| && Matches(Views(modules)[i], partId, NormalizeFamilyMask(family)))
    ensures NormalizeFamilyMask(family) != 0 && r.Failure? ==>
              r == Failure(NotFoundMessage(vesselName, partId, family))
    ensures r.Ok? ==>
              exists i :: (0 <= i < |modules| && Matches(Views(modules)[i], partId, NormalizeFamilyMask(family))
                           && (forall j :: 0 <= j < i ==> !Matches(Views(modules)[j], partId, NormalizeFamilyMask(family)))
                           && r.value == modules[i].active)
  {
    var familyMask := NormalizeFamilyMask(family);
    if familyMask == 0 then Failure(FamilyRequired)
    else
      match FindMatching(Views(modules), partId, familyMask)
      case None => Failure(NotFoundMessage(vesselName, partId, family))
      case Some(i) => Ok(modules[i].active)
  }

  /** SetScannerEnabled: starts or stops the first module on the part that
      serves the family; fails, changing nothing, without a family or
      without such a module. */
  method SetScannerEnabled(vesselName: string, modules: seq<ScannerModule>, partId: nat,
                           family: ScannerFamily, enabled: bool)
    returns (outcome: Outcome)
    modifies modules
    ensures NormalizeFamilyMask(family) == 0 ==> outcome == Fail(FamilyRequired)
    ensures outcome.Pass? <==> (NormalizeFamilyMask(family) != 0 &&
              FindMatching(old(Views(modules)), partId, NormalizeFamilyMask(family)).Some?)
    ensures NormalizeFamilyMask(family) != 0 && outcome.Fail? ==>
              outcome == Fail(NotFoundMessage(vesselName, partId, family))
    ensures outcome.Fail? ==> forall i :: 0 <= i < |modules| ==>
              modules[i].active == old(modules[i].active) && modules[i].requests == old(modules[i].requests)
    ensures outcome.Pass? ==>
              var k := FindMatching(old(Views(modules)), partId, NormalizeFamilyMask(family)).value;
              modules[k].active == enabled &&
              modules[k].requests == old(modules[k].requests)
                + (if old(modules[k].active) == enabled then [] else [enabled]) &&
              forall i :: 0 <= i < |modules| && modules[i] != modules[k] ==>
                modules[i].active == old(modules[i].active) && modules[i].requests == old(modules[i].requests)
  {
    var familyMask := NormalizeFamilyMask(family);
    if familyMask == 0 {
      return Fail(FamilyRequired);
    }
    var found := FindMatching(Views(modules), partId, familyMask);
    if found.None? {
      return Fail(NotFoundMessage(vesselName, partId, family));
    }
    SetScannerState(modules[found.value], enabled);
    return Pass;
  }

  /** A module serves the family mask. */
  predicate IsCandidate(v: ModuleView, familyMask: bv32) {
    Shares(v.mask, familyMask)
  }

  /** The indices, in ascending order, of the first n modules that serve the
      family mask. */
  function CandidatesBelow(views: seq<ModuleView>, familyMask: bv32, n: nat): (c: seq<nat>)
    requires n <= |views|
    ensures forall p :: 0 <= p < |c| ==> c[p] < n && IsCandidate(views[c[p]], familyMask)
    ensures forall i :: 0 <= i < n && IsCandidate(views[i], familyMask) ==> i in c
    ensures forall p, q :: 0 <= p < q < |c| ==> c[p] < c[q]
  {
    if n == 0 then []
    else
      var rest := CandidatesBelow(views, familyMask, n - 1);
      if IsCandidate(views[n - 1], familyMask) then rest + [n - 1] else rest
  }

  /** The matching modules of SetSingleScannerEnabled, as indices. */
  function Candidates(views: seq<ModuleView>, familyMask: bv32): seq<nat> {
    CandidatesBelow(views, familyMask, |views|)
  }

  /** The candidate list depends only on the masks of the modules. */
  lemma {:induction false} CandidatesFollowMasks(v1: seq<ModuleView>, v2: seq<ModuleView>, familyMask: bv32, n: nat)
    requires |v1| == |v2| && n <= |v1|
    requires forall i :: 0 <= i < |v1| ==> v1[i].mask == v2[i].mask
    ensures CandidatesBelow(v1, familyMask, n) == CandidatesBelow(v2, familyMask, n)
  {
    if n > 0 {
      CandidatesFollowMasks(v1, v2, familyMask, n - 1);
    }
  }

  /** The first position of `s` whose entry passes `test`. */
  function FirstWhere(s: seq<nat>, test: nat -> bool): (r: Option<nat>)
    ensures r.Some? ==> r.value < |s| && test(s[r.value])
    ensures r.Some? ==> forall q :: 0 <= q < r.value ==> !test(s[q])
    ensures r.None? <==> forall q :: 0 <= q < |s| ==> !test(s[q])
  {
    if s == [] then None
    else if test(s[0]) then Some(0)
    else
      match FirstWhere(s[1..], test)
      case None =>
        assert forall q :: 1 <= q < |s| ==> s[q] == s[1..][q - 1];
        None
      case Some(k) =>
        assert forall q :: 1 <= q < |s| ==> s[q] == s[1..][q - 1];
        Some(k + 1)
  }

  /** A candidate on the preferred part exists (a preferred id of 0 means
      none is preferred). */
  predicate PreferredPresent(views: seq<ModuleView>, familyMask: bv32, preferred: nat) {
    preferred != 0 &&
    exists i :: 0 <= i < |views| && IsCandidate(views[i], familyMask) && views[i].partId == preferred
  }

  /** Some candidate is scanning. */
  predicate ActivePresent(views: seq<ModuleView>, familyMask: bv32) {
    exists i :: 0 <= i < |views| && IsCandidate(views[i], familyMask) && views[i].active
  }

  /** The first candidate passing a test is the first module, in module
      order, that is a candidate and passes it. */
  lemma EarlierCandidatesFail(views: seq<ModuleView>, familyMask: bv32, test: nat -> bool, p: nat)
    requires p < |Candidates(views, familyMask)|
    requires forall q :: 0 <= q < p ==> !test(Candidates(views, familyMask)[q])
    ensures forall i :: 0 <= i < Candidates(views, familyMask)[p] && IsCandidate(views[i], familyMask) ==> !test(i)
  {
    var c := Candidates(views, familyMask);
    forall i | 0 <= i < c[p] && IsCandidate(views[i], familyMask)
      ensures !test(i)
    {
      var q :| 0 <= q < |c| && c[q] == i;
      assert q < p;
    }
  }

  /** Some candidate passes a test exactly when the search finds one. */
  lemma FoundIffPresent(views: seq<ModuleView>, familyMask: bv32, test: nat -> bool)
    ensures FirstWhere(Candidates(views, familyMask), test).Some? <==>
            exists i :: 0 <= i < |views| && IsCandidate(views[i], familyMask) && test(i)
  {
    var c := Candidates(views, familyMask);
    if exists i :: 0 <= i < |views| && IsCandidate(views[i], familyMask) && test(i) {
      var i :| 0 <= i < |views| && IsCandidate(views[i], familyMask) && test(i);
      var q :| 0 <= q < |c| && c[q] == i;
      assert test(c[q]);
    }
  }

  /** The module SetSingleScannerEnabled keeps on: the first candidate on
      the preferred part, otherwise the first scanning candidate, otherwise
      the first candidate. */
  function Select(views: seq<ModuleView>, familyMask: bv32, preferred: nat): (sel: nat)
    requires Candidates(views, familyMask) != []
    ensures sel < |views| && IsCandidate(views[sel], familyMask)
    ensures PreferredPresent(views, familyMask, preferred) ==>
              views[sel].partId == preferred &&
              forall i :: 0 <= i < sel && IsCandidate(views[i], familyMask) ==> views[i].partId != preferred
    ensures !PreferredPresent(views, familyMask, preferred) && ActivePresent(views, familyMask) ==>
              views[sel].active &&
              forall i :: 0 <= i < sel && IsCandidate(views[i], familyMask) ==> !views[i].active
    ensures !PreferredPresent(views, familyMask, preferred) && !ActivePresent(views, familyMask) ==>
              forall i :: 0 <= i < sel ==> !IsCandidate(views[i], familyMask)
  {
    var cands := Candidates(views, familyMask);
    var onPartTest := (i: nat) => i < |views| && views[i].partId == preferred;
    var activeTest := (i: nat) => i < |views| && views[i].active;
    var onPart := if preferred != 0 then FirstWhere(cands, onPartTest) else None;
    var scanning := FirstWhere(cands, activeTest);
    FoundIffPresent(views, familyMask, onPartTest);
    FoundIffPresent(views, familyMask, activeTest);
    if onPart.Some? then
      EarlierCandidatesFail(views, familyMask, onPartTest, onPart.value);
      cands[onPart.value]
    else if scanning.Some? then
      EarlierCandidatesFail(views, familyMask, activeTest, scanning.value);
      cands[scanning.value]
    else
      EarlierCandidatesFail(views, familyMask, _ => true, 0);
      cands[0]
  }

  /** What SetSingleScannerEnabled leaves behind: the selected module
      scanning, every other candidate stopped, every other module as it was. */
  function ExclusiveApply(views: seq<ModuleView>, familyMask: bv32, sel: nat): (after: seq<ModuleView>)
    ensures |after| == |views|
    ensures forall i :: 0 <= i < |views| ==>
              after[i].partId == views[i].partId && after[i].mask == views[i].mask &&
              after[i].title == views[i].title
    ensures forall i :: 0 <= i < |views| && IsCandidate(views[i], familyMask) ==> (after[i].active <==> i == sel)
    ensures forall i :: 0 <= i < |views| && !IsCandidate(views[i], familyMask) ==> after[i] == views[i]
  {
    seq(|views|, i requires 0 <= i < |views| =>
      if IsCandidate(views[i], familyMask) then views[i].(active := i == sel) else views[i])
  }

  /** After an exclusive selection exactly one candidate scans: the
      selected one. */
  lemma ExactlyOneActive(views: seq<ModuleView>, familyMask: bv32, preferred: nat)
    requires Candidates(views, familyMask) != []
    ensures var sel := Select(views, familyMask, preferred);
            var after := ExclusiveApply(views, familyMask, sel);
            after[sel].active &&
            forall i :: 0 <= i < |after| && IsCandidate(after[i], familyMask) && after[i].active ==> i == sel
  {
  }

  /** Applying the same exclusive selection twice is applying it once. */
  lemma ExclusiveApplyIdempotent(views: seq<ModuleView>, familyMask: bv32, sel: nat)
    ensures ExclusiveApply(ExclusiveApply(views, familyMask, sel), familyMask, sel)
            == ExclusiveApply(views, familyMask, sel)
  {
    var after := ExclusiveApply(views, familyMask, sel);
    var twice := ExclusiveApply(after, familyMask, sel);
    forall i | 0 <= i < |views|
      ensures twice[i] == after[i]
    {
      assert IsCandidate(after[i], familyMask) == IsCandidate(views[i], familyMask);
    }
  }

  /** After an exclusive selection the same module is selected again. */
  lemma SelectionStable(views: seq<ModuleView>, familyMask: bv32, preferred: nat)
    requires Candidates(views, familyMask) != []
    ensures var after := ExclusiveApply(views, familyMask, Select(views, familyMask, preferred));
            Candidates(after, familyMask) == Candidates(views, familyMask) &&
            Select(after, familyMask, preferred) == Select(views, familyMask, preferred)
  {
    var sel := Select(views, familyMask, preferred);
    var after := ExclusiveApply(views, familyMask, sel);
    CandidatesFollowMasks(views, after, familyMask, |views|);
    var again := Select(after, familyMask, preferred);
    assert IsCandidate(after[sel], familyMask) && after[sel].active;
    if PreferredPresent(views, familyMask, preferred) {
      assert PreferredPresent(after, familyMask, preferred);
      assert IsCandidate(views[again], familyMask);
    } else {
      assert !PreferredPresent(after, familyMask, preferred);
      assert ActivePresent(after, familyMask);
    }
  }

  /** Repeating SetSingleScannerEnabled with the same arguments selects the
      same module and changes nothing more. */
  lemma SecondCallChangesNothing(views: seq<ModuleView>, familyMask: bv32, preferred: nat)
    requires Candidates(views, familyMask) != []
    ensures var sel := Select(views, familyMask, preferred);
            var after := ExclusiveApply(views, familyMask, sel);
            Candidates(after, familyMask) != [] &&
            Select(after, familyMask, preferred) == sel &&
            ExclusiveApply(after, familyMask, Select(after, familyMask, preferred)) == after
  {
    SelectionStable(views, familyMask, preferred);
    ExclusiveApplyIdempotent(views, familyMask, Select(views, familyMask, preferred));
  }

  /** ExclusiveApply is the only way to stop and start the candidates so
      that only the selected one scans, leaving everything else alone. */
  lemma ExclusiveApplyCharacterized(views: seq<ModuleView>, now: seq<ModuleView>, familyMask: bv32, sel: nat)
    requires |now| == |views|
    requires forall i :: 0 <= i < |views| ==>
               now[i].partId == views[i].partId && now[i].mask == views[i].mask && now[i].title == views[i].title
    requires forall i :: 0 <= i < |views| && IsCandidate(views[i], familyMask) ==> now[i].active == (i == sel)
    requires forall i :: 0 <= i < |views| && !IsCandidate(views[i], familyMask) ==> now[i].active == views[i].active
    ensures now == ExclusiveApply(views, familyMask, sel)
  {
    var after := ExclusiveApply(views, familyMask, sel);
    assert forall i :: 0 <= i < |views| ==> now[i] == after[i];
  }

  /** The loop of SetSingleScannerEnabled over the matching modules, given
      by their indices: keeps the selected one scanning and stops the others. */
  method KeepOnlySelected(modules: seq<ScannerModule>, matching: seq<nat>, selectedIndex: nat)
    requires Distinct(modules)
    requires forall q :: 0 <= q < |matching| ==> matching[q] < |modules|
    modifies modules
    ensures forall i :: 0 <= i < |modules| ==>
              modules[i].active == (if i in matching then i == selectedIndex else old(modules[i].active))
    ensures forall i :: 0 <= i < |modules| ==>
              modules[i].requests == old(modules[i].requests)
                + (if old(modules[i].active) == modules[i].active then [] else [modules[i].active])
  {
    for p := 0 to |matching|
      invariant forall i :: 0 <= i < |modules| ==>
                  modules[i].active == (if i in matching[..p] then i == selectedIndex else old(modules[i].active))
      invariant forall i :: 0 <= i < |modules| ==>
                  modules[i].requests == old(modules[i].requests)
                    + (if old(modules[i].active) == modules[i].active then [] else [modules[i].active])
    {
      var scanner := modules[matching[p]];
      assert matching[..p + 1] == matching[..p] + [matching[p]];
      assert forall i :: 0 <= i < |modules| && i != matching[p] ==> modules[i] != scanner;
      SetScannerState(scanner, matching[p] == selectedIndex);
    }
    assert matching[..|matching|] == matching;
  }

  /** SetSingleScannerEnabled: among the modules serving the family, keeps
      the selected one scanning and stops every other one, starting or
      stopping only modules whose state changes; returns the part id of the
      selected module. Fails, changing nothing, without a family or without
      a module serving it. */
  method SetSingleScannerEnabled(vesselName: string, modules: seq<ScannerModule>,
                                 family: ScannerFamily, preferredPartId: nat)
    returns (result: Result<nat>)
    requires Distinct(modules)
    modifies modules
    ensures NormalizeFamilyMask(family) == 0 ==> result == Failure(FamilyRequired)
    ensures NormalizeFamilyMask(family) != 0 && Candidates(old(Views(modules)), NormalizeFamilyMask(family)) == [] ==>
              result == Failure(NoModulesMessage(vesselName, family))
    ensures result.Ok? <==>
              NormalizeFamilyMask(family) != 0 && Candidates(old(Views(modules)), NormalizeFamilyMask(family)) != []
    ensures result.Failure? ==> forall i :: 0 <= i < |modules| ==>
              modules[i].active == old(modules[i].active) && modules[i].requests == old(modules[i].requests)
    ensures result.Ok? ==>
              NormalizeFamilyMask(family) != 0 && Candidates(old(Views(modules)), NormalizeFamilyMask(family)) != [] &&
              var sel := Select(old(Views(modules)), NormalizeFamilyMask(family), preferredPartId);
              Views(modules) == ExclusiveApply(old(Views(modules)), NormalizeFamilyMask(family), sel) &&
              result.value == modules[sel].partId
    ensures forall i :: 0 <= i < |modules| ==>
              modules[i].requests == old(modules[i].requests)
                + (if old(modules[i].active) == modules[i].active then [] else [modules[i].active])
  {
    var familyMask := NormalizeFamilyMask(family);
    if familyMask == 0 {
      return Failure(FamilyRequired);
    }
    var views := Views(modules);
    var matching := Candidates(views, familyMask);
    if |matching| == 0 {
      return Failure(NoModulesMessage(vesselName, family));
    }
    var selectedIndex := Select(views, familyMask, preferredPartId);
    KeepOnlySelected(modules, matching, selectedIndex);
    ghost var now := Views(modules);
    ExclusiveApplyCharacterized(views, now, familyMask, selectedIndex);
    return Ok(modules[selectedIndex].partId);
  }
}
