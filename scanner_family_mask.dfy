/// The scanner-family bit flags of the mapping mod, the wider scan-type
/// domain used for coverage queries, mask normalization, and the
/// decomposition of a sensor mask into the nine atomic families.
module ScannerFamilyMask {

  /** The underlying 32-bit value of a ScannerFamily enum member. */
  type ScannerFamily = bv32

  /** The underlying 32-bit value of a ScanType enum member (coverage queries). */
  type ScanType = bv32

  const Nothing: bv32 := 0
  const AltimetryLoRes: bv32 := 1
  const AltimetryHiRes: bv32 := 2
  const Altimetry: bv32 := 3
  const VisualLoRes: bv32 := 4
  const Biome: bv32 := 8
  const Anomaly: bv32 := 16
  const AnomalyDetail: bv32 := 32
  const VisualHiRes: bv32 := 64
  const ResourceLoRes: bv32 := 128
  const ResourceHiRes: bv32 := 256

  /** The legacy alias of high-resolution altimetry; the enum gives it the
      same value. */
  const SAR: bv32 := AltimetryHiRes

  /** The bits of the nine atomic families, (1 << 9) - 1. */
  const KnownScanMask: bv32 := 511

  /** Composite members that only the scan-type domain has. */
  const EverythingSCAN: bv32 := 511
  const Science: bv32 := 143
  const Everything: bv32 := 0x7FFF_FFFF

  /** The nine atomic families in their canonical order. */
  const AtomicFamilies: seq<bv32> := [
    AltimetryLoRes, AltimetryHiRes, VisualLoRes, Biome, Anomaly,
    AnomalyDetail, VisualHiRes, ResourceLoRes, ResourceHiRes
  ]

  /** The canonical order is the order of the bits: family b is bit b. */
  lemma AtomicFamiliesAreBits()
    ensures |AtomicFamilies| == 9
    ensures forall b :: 0 <= b < 9 ==> AtomicFamilies[b] == (1 as bv32) << b
    ensures forall b, c :: 0 <= b < c < 9 ==> Below(AtomicFamilies[b], AtomicFamilies[c])
    ensures forall b :: 0 <= b < 9 ==> AtomicFamilies[b] & !KnownScanMask == 0
  {
  }

  /** NormalizeFamilyMask: the SAR alias becomes the high-resolution altimetry
      bit; any other value keeps only its known bits. */
  function NormalizeFamilyMask(family: ScannerFamily): (mask: bv32)
    ensures mask & !KnownScanMask == 0
    ensures family == SAR ==> mask == AltimetryHiRes
    ensures family & !KnownScanMask == 0 ==> mask == family
  {
    if family == SAR then AltimetryHiRes else family & KnownScanMask
  }

  /** Normalizing a normalized mask changes nothing. */
  lemma NormalizeFamilyMaskIdempotent(family: ScannerFamily)
    ensures NormalizeFamilyMask(NormalizeFamilyMask(family)) == NormalizeFamilyMask(family)
  {
  }

  /** Because SAR and AltimetryHiRes share one value, the alias branch agrees
      with plain masking: normalization is exactly `family & KnownScanMask`. */
  lemma NormalizeIsMasking(family: ScannerFamily)
    ensures NormalizeFamilyMask(family) == family & KnownScanMask
    ensures NormalizeFamilyMask(family) <= KnownScanMask
  {
  }

  /** Two masks have a bit in common. */
  predicate Shares(mask: bv32, family: bv32) {
    mask & family != 0
  }

  /** The members of `families` that share a bit with `mask`, in order. */
  function Matching(families: seq<bv32>, mask: bv32): seq<bv32> {
    if families == [] then []
    else
      var last := families[|families| - 1];
      Matching(families[..|families| - 1], mask) + (if Shares(mask, last) then [last] else [])
  }

  /** The atomic families present in a sensor mask, in canonical order. */
  function FamiliesOf(sensorMask: bv32): seq<bv32> {
    Matching(AtomicFamilies, sensorMask)
  }

  /** Matching keeps exactly the members that share a bit with the mask. */
  lemma {:induction false} MatchingMembers(families: seq<bv32>, mask: bv32)
    ensures forall f :: f in Matching(families, mask) <==> f in families && Shares(mask, f)
  {
    if families != [] {
      var prefix := families[..|families| - 1];
      MatchingMembers(prefix, mask);
      assert families == prefix + [families[|families| - 1]];
    }
  }

  /** a comes before b in the canonical order (a lower bit). */
  predicate Below(a: bv32, b: bv32) {
    a < b
  }

  /** Matching keeps only members, so a bound on the members bounds it. */
  lemma {:induction false} MatchingBelow(families: seq<bv32>, mask: bv32, bound: bv32)
    requires forall i :: 0 <= i < |families| ==> Below(families[i], bound)
    ensures forall i :: 0 <= i < |Matching(families, mask)| ==> Below(Matching(families, mask)[i], bound)
  {
    if families != [] {
      var prefix, last := families[..|families| - 1], families[|families| - 1];
      assert forall i :: 0 <= i < |prefix| ==> prefix[i] == families[i];
      MatchingBelow(prefix, mask, bound);
    }
  }

  /** Matching keeps the order of a strictly ascending sequence. */
  lemma {:induction false} MatchingAscending(families: seq<bv32>, mask: bv32)
    requires forall i, j :: 0 <= i < j < |families| ==> Below(families[i], families[j])
    ensures forall i, j :: 0 <= i < j < |Matching(families, mask)| ==>
              Below(Matching(families, mask)[i], Matching(families, mask)[j])
  {
    if families != [] {
      var prefix := families[..|families| - 1];
      var last := families[|families| - 1];
      assert forall i :: 0 <= i < |prefix| ==> prefix[i] == families[i];
      MatchingAscending(prefix, mask);
      MatchingBelow(prefix, mask, last);
    }
  }

  /** Nothing matches a mask that shares no bit with any member. */
  lemma {:induction false} MatchingNone(families: seq<bv32>, mask: bv32)
    requires forall i :: 0 <= i < |families| ==> !Shares(mask, families[i])
    ensures Matching(families, mask) == []
  {
    if families != [] {
      MatchingNone(families[..|families| - 1], mask);
    }
  }

  /** What EnumerateScannerFamilies yields: exactly the atomic families whose
      bit is set in the mask, each once, in ascending bit order. */
  lemma FamiliesOfSpec(sensorMask: bv32)
    ensures forall f :: f in FamiliesOf(sensorMask) <==> f in AtomicFamilies && Shares(sensorMask, f)
    ensures forall b :: 0 <= b < 9 ==>
              (AtomicFamilies[b] in FamiliesOf(sensorMask) <==> Shares(sensorMask, AtomicFamilies[b]))
    ensures forall i, j :: 0 <= i < j < |FamiliesOf(sensorMask)| ==>
              Below(FamiliesOf(sensorMask)[i], FamiliesOf(sensorMask)[j])
  {
    AtomicFamiliesAreBits();
    MatchingMembers(AtomicFamilies, sensorMask);
    MatchingAscending(AtomicFamilies, sensorMask);
  }

  /** A mask has one of the nine known bits exactly when it shares a bit
      with one of the nine atomic families. */
  lemma KnownBits(m: bv32)
    ensures m & KnownScanMask != 0 <==>
      (m & 1 != 0 || m & 2 != 0 || m & 4 != 0 || m & 8 != 0 || m & 16 != 0 ||
       m & 32 != 0 || m & 64 != 0 || m & 128 != 0 || m & 256 != 0)
  {
  }

  /** A mask yields no family exactly when it has none of the nine known bits. */
  lemma FamiliesOfEmpty(sensorMask: bv32)
    ensures FamiliesOf(sensorMask) == [] <==> sensorMask & KnownScanMask == 0
  {
    KnownBits(sensorMask);
    MatchingMembers(AtomicFamilies, sensorMask);
    if sensorMask & KnownScanMask == 0 {
      MatchingNone(AtomicFamilies, sensorMask);
    } else {
      var k: int := if sensorMask & 1 != 0 then 0
        else if sensorMask & 2 != 0 then 1
        else if sensorMask & 4 != 0 then 2
        else if sensorMask & 8 != 0 then 3
        else if sensorMask & 16 != 0 then 4
        else if sensorMask & 32 != 0 then 5
        else if sensorMask & 64 != 0 then 6
        else if sensorMask & 128 != 0 then 7
        else 8;
      assert sensorMask & AtomicFamilies[k] != 0;
      assert AtomicFamilies[k] in FamiliesOf(sensorMask);
    }
  }

  /** EnumerateScannerFamilies: walks the atomic families in canonical order
      and yields each one the sensor mask shares a bit with. */
  method EnumerateScannerFamilies(sensorMask: bv32) returns (families: seq<bv32>)
    ensures families == FamiliesOf(sensorMask)
  {
    families := [];
    var i := 0;
    while i < |AtomicFamilies|
      invariant 0 <= i <= |AtomicFamilies|
      invariant families == Matching(AtomicFamilies[..i], sensorMask)
    {
      var family := AtomicFamilies[i];
      assert AtomicFamilies[..i + 1][..i] == AtomicFamilies[..i];
      if Shares(sensorMask, family) {
        families := families + [family];
      }
      i := i + 1;
    }
    assert AtomicFamilies[..i] == AtomicFamilies;
  }
}
