/** The Tegra210 characterization data compiled into the driver (keys,
    maximum frequencies, ladders), and what the selectors and the core
    nominal index make of it. */
module Tegra210Data {
  import opened Common
  import opened Selector
  import opened CoreNominal
  import opened CpuTable

  /** cpu_max_freq, indexed by CPU speedo id (kHz). */
  const CPU_MAX_FREQ: seq<nat> :=
    [1912500, 1912500, 2218500, 1785000, 1632000, 1912500, 2014500, 1734000, 1683000, 1555500, 1504500]

  /** cpu_lp_max_freq, indexed by CPU speedo id (kHz). */
  const CPU_LP_MAX_FREQ: seq<nat> := [1132800, 1132800, 1132800, 1132800, 940800, 1132800]

  /** The keys of cpu_fv_dvfs_table, in table order. */
  const CPU_KEYS: seq<MatchKey> := [
    MatchKey(10, 0), MatchKey(10, 1), MatchKey(9, 0), MatchKey(9, 1),
    MatchKey(8, 0), MatchKey(8, 1), MatchKey(7, 0), MatchKey(7, 1),
    MatchKey(6, 0), MatchKey(6, 1), MatchKey(5, 0), MatchKey(5, 1),
    MatchKey(4, WILDCARD),
    MatchKey(3, 0), MatchKey(3, 1), MatchKey(2, 0), MatchKey(2, 1),
    MatchKey(1, 0), MatchKey(1, 1), MatchKey(0, 0), MatchKey(0, 1)]

  /** The keys of cpu_lp_fv_dvfs_table, in table order. */
  const CPU_LP_KEYS: seq<MatchKey> :=
    [MatchKey(5, WILDCARD), MatchKey(2, WILDCARD), MatchKey(1, WILDCARD), MatchKey(WILDCARD, WILDCARD)]

  /** The keys of gpu_cvb_dvfs_table, in table order. */
  const GPU_KEYS: seq<MatchKey> :=
    [MatchKey(4, WILDCARD), MatchKey(3, WILDCARD), MatchKey(2, WILDCARD), MatchKey(1, WILDCARD), MatchKey(0, WILDCARD)]

  /** The slow CPU frequency-voltage table (CPU_LP_FV_TABLE: kHz, mV). */
  const CPU_LP_FV_TABLE: seq<FvPoint> := [
    FvPoint(51000, 850), FvPoint(102000, 850), FvPoint(204000, 850), FvPoint(307200, 850),
    FvPoint(403200, 850), FvPoint(518400, 850), FvPoint(614400, 868), FvPoint(710400, 912),
    FvPoint(825600, 962), FvPoint(921600, 1006), FvPoint(1036800, 1062), FvPoint(1132800, 1118),
    FvPoint(1228800, 1168)]

  /** The listed entries of core_millivolts; the rest of the array is 0. */
  const CORE_MILLIVOLTS: seq<int> :=
    [800, 825, 850, 875, 900, 925, 950, 975, 1000, 1025, 1050, 1062, 1075, 1100, 1125]

  /** core_millivolts as an array of n entries. */
  function CoreLadder(n: nat): (ladder: seq<int>)
    requires n >= |CORE_MILLIVOLTS|
    ensures |ladder| == n
    ensures forall k :: 0 <= k < |CORE_MILLIVOLTS| ==> ladder[k] == CORE_MILLIVOLTS[k]
    ensures forall k :: |CORE_MILLIVOLTS| <= k < n ==> ladder[k] == 0
  {
    CORE_MILLIVOLTS + seq(n - |CORE_MILLIVOLTS|, _ => 0)
  }

  /** The position of the fast CPU entry for a speedo id (0..10) and a
      process id (0 or 1, or anything for speedo 4). */
  function CpuEntryIndex(speedoId: int, processId: int): int {
    if speedoId == 4 then 12
    else if speedoId > 4 then 2 * (10 - speedoId) + processId
    else 13 + 2 * (3 - speedoId) + processId
  }

  /** The fast CPU keys run through speedo ids 10 down to 0, process 0
      before process 1, with a single entry for speedo id 4. */
  lemma CpuKeysByPosition()
    ensures forall j :: 0 <= j < 12 ==> CPU_KEYS[j] == MatchKey(10 - j / 2, j % 2)
    ensures CPU_KEYS[12] == MatchKey(4, WILDCARD)
    ensures forall j :: 13 <= j < |CPU_KEYS| ==> CPU_KEYS[j] == MatchKey(3 - (j - 13) / 2, (j - 13) % 2)
  {
  }

  /** The fast CPU table has an entry for every speedo id that passes the
      cpu_max_freq bound and for process ids 0 and 1 (any process id for
      speedo 4), and the entry selected carries the chip's speedo id. */
  lemma {:induction false} FastCpuEntryFound(speedoId: int, processId: int)
    requires 0 <= speedoId < |CPU_MAX_FREQ|
    requires speedoId == 4 || processId == 0 || processId == 1
    ensures SelectFirst(CPU_KEYS, speedoId, processId) == Some(CpuEntryIndex(speedoId, processId) as nat)
    ensures CPU_KEYS[CpuEntryIndex(speedoId, processId)] == MatchKey(speedoId, if speedoId == 4 then WILDCARD else processId)
  {
    CpuKeysByPosition();
    var k := CpuEntryIndex(speedoId, processId);
    forall j | 0 <= j < k
      ensures !MatchDvfsOne(CPU_KEYS[j], speedoId, processId)
    {
    }
    FirstMatchSelected(CPU_KEYS, speedoId, processId, k);
  }

  /** Any other process id finds no fast CPU entry, and
      init_cpu_dvfs_table halts. */
  lemma {:induction false} FastCpuEntryMissing(speedoId: int, processId: int)
    requires speedoId != 4 && processId != 0 && processId != 1
    ensures SelectFirst(CPU_KEYS, speedoId, processId).None?
  {
    forall j | 0 <= j < |CPU_KEYS|
      ensures !MatchDvfsOne(CPU_KEYS[j], speedoId, processId)
    {
    }
  }

  /** The slow CPU table ends with a full wildcard, so a slow CPU entry is
      always found; the first three entries go to speedo ids 5, 2 and 1. */
  lemma {:induction false} LpCpuSelection(speedoId: int, processId: int)
    ensures SelectFirst(CPU_LP_KEYS, speedoId, processId)
            == Some(if speedoId == 5 then 0 else if speedoId == 2 then 1 else if speedoId == 1 then 2 else 3)
  {
    WildcardTailAlwaysSelects(CPU_LP_KEYS, speedoId, processId, 3);
    var r := SelectFirst(CPU_LP_KEYS, speedoId, processId).value;
    assert MatchDvfsOne(CPU_LP_KEYS[r], speedoId, processId);
    if speedoId == 5 {
      assert MatchDvfsOne(CPU_LP_KEYS[0], speedoId, processId);
    } else if speedoId == 2 {
      assert MatchDvfsOne(CPU_LP_KEYS[1], speedoId, processId) && r != 0;
    } else if speedoId == 1 {
      assert MatchDvfsOne(CPU_LP_KEYS[2], speedoId, processId) && r != 0 && r != 1;
    } else {
      assert r != 0 && r != 1 && r != 2;
    }
  }

  /** cpu_lp_max_freq is indexed with the fast CPU's speedo id, which the
      bound of init_cpu_dvfs_table lets range up to 10: speedo ids 6 to 10
      select a fast CPU entry and then read past the end of
      cpu_lp_max_freq. */
  lemma LpMaxFreqOverrun(speedoId: int, processId: int)
    requires 6 <= speedoId <= 10 && (processId == 0 || processId == 1)
    ensures speedoId < |CPU_MAX_FREQ| && SelectFirst(CPU_KEYS, speedoId, processId).Some?
    ensures speedoId >= |CPU_LP_MAX_FREQ|
  {
    FastCpuEntryFound(speedoId, processId);
  }

  /** On the slow CPU table compiled into the driver, the cut at
      cpu_lp_max_freq ends the table: every point up to 1132.8 MHz is kept
      (up to 940.8 MHz for speedo id 4), given a rounded maximum voltage of
      at least 1118 mV, the highest voltage among those points. */
  lemma {:induction false} LpTableOnTegra210(speedoId: nat, minMv: int, maxMv: int)
    requires speedoId < |CPU_LP_MAX_FREQ| && minMv <= maxMv && 1118 <= maxMv
    ensures LpCpuScan(CPU_LP_FV_TABLE, CPU_LP_MAX_FREQ[speedoId], minMv, maxMv).Outcome()
            == Built(if speedoId == 4 then 9 else 11)
  {
    var c := LpCpuScan(CPU_LP_FV_TABLE, CPU_LP_MAX_FREQ[speedoId], minMv, maxMv);
    var n := if speedoId == 4 then 10 else 12;
    forall k | 0 <= k < n
      ensures !c.StopsAt(k)
    {
    }
    assert c.StopsAt(n);
    LpStopIsFirst(c, n);
  }

  /** The GPU table has one entry per GPU speedo id 0..4, matched for any
      process id; any other speedo id finds no entry and
      init_gpu_dvfs_table halts. */
  lemma {:induction false} GpuEntrySelection(speedoId: int, processId: int)
    ensures 0 <= speedoId <= 4 ==> SelectFirst(GPU_KEYS, speedoId, processId) == Some(4 - speedoId)
    ensures !(0 <= speedoId <= 4) ==> SelectFirst(GPU_KEYS, speedoId, processId).None?
  {
    if 0 <= speedoId <= 4 {
      assert MatchDvfsOne(GPU_KEYS[4 - speedoId], speedoId, processId);
      forall j | 0 <= j < 4 - speedoId
        ensures !MatchDvfsOne(GPU_KEYS[j], speedoId, processId)
      {
      }
    } else {
      forall j | 0 <= j < |GPU_KEYS|
        ensures !MatchDvfsOne(GPU_KEYS[j], speedoId, processId)
      {
      }
    }
  }

  /** The core nominal index on the Tegra210 ladder: process 0 parts of
      speedo revision 1 or lower and process 2 parts sit at 1000 mV
      (index 8), process 1 parts at 1075 mV (index 12), later process 0
      parts at 1125 mV (index 14); any other process id fails with
      -EINVAL. */
  lemma {:induction false} CoreNominalIndexOnTegra210(n: nat, sku: SkuInfo)
    requires n >= |CORE_MILLIVOLTS|
    ensures var r := GetCoreNominalMvIndex(CoreLadder(n), sku);
            && (sku.socProcessId == 0 && sku.revision <= 1 ==> r == 8)
            && (sku.socProcessId == 0 && sku.revision >= 2 ==> r == 14)
            && (sku.socProcessId == 1 ==> r == 12)
            && (sku.socProcessId == 2 ==> r == 8)
            && (!(0 <= sku.socProcessId <= 2) ==> r == -EINVAL)
  {
    var ladder := CoreLadder(n);
    var mv := GetCoreSpeedoMv(sku);
    if mv >= 0 {
      var i := CoreScanFrom(ladder, mv, 0);
      if mv == 1000 {
        assert ladder[9] == 1025;
        assert i == 9;
      } else if mv == 1075 {
        assert ladder[13] == 1100;
        assert i == 13;
      } else {
        assert mv == 1125;
        assert n == 15 || ladder[15] == 0;
        assert i == 15;
      }
    }
  }
}
