/** The state of the Tegra210 DVFS table builders (rails, DVFS tables, the
    static millivolt arrays and the characterization entries) and the
    builders themselves, which fill that state in place. */
module Tegra210Dvfs {
  import opened Common
  import opened Selector
  import opened CoreNominal
  import opened CpuTable
  import opened GpuTable

  /** A voltage rail (struct dvfs_rail): the fields the builders use. */
  class Rail {
    const alignment: Alignment
    const maxMv: int
    var minMv: int
    var nominalMv: int
    var disabled: bool

    constructor (alignment: Alignment, minMv: int, maxMv: int)
      ensures this.alignment == alignment && this.minMv == minMv && this.maxMv == maxMv
      ensures nominalMv == 0 && !disabled
    {
      this.alignment := alignment;
      this.minMv := minMv;
      this.maxMv := maxMv;
      nominalMv := 0;
      disabled := false;
    }
  }

  /** A clock's DVFS table (struct dvfs): its frequency array and the
      fields the builders set. */
  class Dvfs {
    const freqs: array<int>
    var speedoId: int
    var processId: int
    var freqsMult: int
    var useDfllRateMin: int
    var fmaxAtVminSafeT: int

    constructor (n: nat, freqsMult: int)
      ensures fresh(freqs) && freqs.Length == n
      ensures forall k :: 0 <= k < n ==> freqs[k] == 0
      ensures speedoId == 0 && processId == 0 && this.freqsMult == freqsMult
      ensures useDfllRateMin == 0 && fmaxAtVminSafeT == 0
    {
      freqs := new int[n](_ => 0);
      speedoId := 0;
      processId := 0;
      this.freqsMult := freqsMult;
      useDfllRateMin := 0;
      fmaxAtVminSafeT := 0;
    }
  }

  /** A CPU characterization entry (struct cpu_dvfs): the key it is
      selected by, its voltage limits and its PLL frequency-voltage table.
      The builders round max_mv in place. */
  class CpuEntry {
    const key: MatchKey
    const minMv: int
    var maxMv: int
    const fvTable: seq<FvPoint>

    constructor (key: MatchKey, minMv: int, maxMv: int, fvTable: seq<FvPoint>)
      ensures this.key == key && this.minMv == minMv && this.maxMv == maxMv && this.fvTable == fvTable
    {
      this.key := key;
      this.minMv := minMv;
      this.maxMv := maxMv;
      this.fvTable := fvTable;
    }
  }

  /** A GPU characterization entry (struct cvb_dvfs). The builder rounds
      max_mv and shifts the trip-point table in place. */
  class GpuEntry {
    const key: MatchKey
    const pllMinMv: int
    var maxMv: int
    const maxFreq: nat
    const freqsMult: int
    const speedoScale: int
    const thermalScale: int
    const voltageScale: int
    const cvbTable: seq<CvbEntry>
    const thermFloors: seq<int>
    var vtsTrips: seq<int>

    constructor (key: MatchKey, pllMinMv: int, maxMv: int, maxFreq: nat, freqsMult: int,
                 speedoScale: int, thermalScale: int, voltageScale: int,
                 cvbTable: seq<CvbEntry>, thermFloors: seq<int>, vtsTrips: seq<int>)
      ensures this.key == key && this.pllMinMv == pllMinMv && this.maxMv == maxMv
      ensures this.maxFreq == maxFreq && this.freqsMult == freqsMult
      ensures this.speedoScale == speedoScale && this.thermalScale == thermalScale
      ensures this.voltageScale == voltageScale && this.cvbTable == cvbTable
      ensures this.thermFloors == thermFloors && this.vtsTrips == vtsTrips
    {
      this.key := key;
      this.pllMinMv := pllMinMv;
      this.maxMv := maxMv;
      this.maxFreq := maxFreq;
      this.freqsMult := freqsMult;
      this.speedoScale := speedoScale;
      this.thermalScale := thermalScale;
      this.voltageScale := voltageScale;
      this.cvbTable := cvbTable;
      this.thermFloors := thermFloors;
      this.vtsTrips := vtsTrips;
    }
  }

  /** How tegra210_init_dvfs ends: halted by a BUG_ON, or returning. */
  datatype Boot = Halt | Return(ret: int)

  /** The number of GPU thermal ranges (init_gpu_rail_thermal_scaling). */
  function InitGpuRailThermalScaling(): nat
  {
    1
  }

  /** The keys of a list of CPU entries, in order. */
  function CpuKeys(entries: seq<CpuEntry>): (keys: seq<MatchKey>)
    ensures |keys| == |entries|
    ensures forall k :: 0 <= k < |entries| ==> keys[k] == entries[k].key
  {
    seq(|entries|, k requires 0 <= k < |entries| => entries[k].key)
  }

  /** The keys of a list of GPU entries, in order. The same as CpuKeys
      on the other entry class: a shared version taking the key projection
      as a function argument makes the builders' proofs several times
      costlier for the solver. */
  function GpuKeys(entries: seq<GpuEntry>): (keys: seq<MatchKey>)
    ensures |keys| == |entries|
    ensures forall k :: 0 <= k < |entries| ==> keys[k] == entries[k].key
  {
    seq(|entries|, k requires 0 <= k < |entries| => entries[k].key)
  }

  /** The builders' world: the chip's fuse identifiers, the compiled-in
      tables, the three rails, the three DVFS tables and the static arrays
      (MAX_DVFS_FREQS entries per frequency, MAX_THERMAL_RANGES rows). */
  class Engine {
    const maxFreqs: nat
    const maxRanges: nat
    const p: Platform
    const sku: SkuInfo
    const coreMillivolts: seq<int>
    const cpuMaxFreq: seq<nat>
    const cpuLpMaxFreq: seq<nat>
    const cpuTable: seq<CpuEntry>
    const cpuLpTable: seq<CpuEntry>
    const gpuTable: seq<GpuEntry>
    const cpuRail: Rail
    const coreRail: Rail
    const gpuRail: Rail
    const cpuDvfs: Dvfs
    const cpuLpDvfs: Dvfs
    const gpuDvfs: Dvfs
    const cpuMillivolts: array<int>
    const cpuDfllMillivolts: array<int>
    const cpuLpMillivolts: array<int>
    const gpuVmin: array<int>
    const gpuPeakMillivolts: array<int>
    const gpuMillivolts: array2<int>
    var coreDisabled: bool

    /** The shapes of the static arrays and entries; no fast CPU entry is
        also a slow CPU entry, and no two of the rails, DVFS tables or
        arrays are the same object. */
    ghost predicate Valid() {
      CpuArrays() && LpArrays() && GpuArrays() && 0 < maxFreqs && 0 < maxRanges
      && |coreMillivolts| == maxFreqs
      && cpuMillivolts.Length == maxFreqs && cpuDfllMillivolts.Length == maxFreqs
      && cpuLpMillivolts.Length == maxFreqs && gpuPeakMillivolts.Length == maxFreqs
      && cpuDvfs.freqs.Length == maxFreqs && cpuLpDvfs.freqs.Length == maxFreqs
      && gpuDvfs.freqs.Length == maxFreqs
      && gpuVmin.Length == maxRanges
      && gpuMillivolts.Length0 == maxRanges && gpuMillivolts.Length1 == maxFreqs
      && (forall k :: 0 <= k < |cpuTable| ==> |cpuTable[k].fvTable| == maxFreqs)
      && (forall k :: 0 <= k < |cpuLpTable| ==> |cpuLpTable[k].fvTable| == maxFreqs)
      && (forall k :: 0 <= k < |gpuTable| ==>
            |gpuTable[k].cvbTable| == maxFreqs && |gpuTable[k].thermFloors| == maxRanges)
      && PeakRowShape(p)
      && (forall i, j :: 0 <= i < |cpuTable| && 0 <= j < |cpuLpTable| ==> cpuTable[i] != cpuLpTable[j])
      && cpuRail != coreRail && cpuRail != gpuRail && coreRail != gpuRail
      && cpuDvfs != cpuLpDvfs && cpuDvfs != gpuDvfs && cpuLpDvfs != gpuDvfs
      && cpuMillivolts != cpuDfllMillivolts && cpuMillivolts != cpuLpMillivolts && cpuMillivolts != gpuVmin
      && cpuMillivolts != gpuPeakMillivolts && cpuMillivolts != cpuDvfs.freqs && cpuMillivolts != cpuLpDvfs.freqs
      && cpuMillivolts != gpuDvfs.freqs && cpuDfllMillivolts != cpuLpMillivolts && cpuDfllMillivolts != gpuVmin
      && cpuDfllMillivolts != gpuPeakMillivolts && cpuDfllMillivolts != cpuDvfs.freqs && cpuDfllMillivolts != cpuLpDvfs.freqs
      && cpuDfllMillivolts != gpuDvfs.freqs && cpuLpMillivolts != gpuVmin && cpuLpMillivolts != gpuPeakMillivolts
      && cpuLpMillivolts != cpuDvfs.freqs && cpuLpMillivolts != cpuLpDvfs.freqs && cpuLpMillivolts != gpuDvfs.freqs
      && gpuVmin != gpuPeakMillivolts && gpuVmin != cpuDvfs.freqs && gpuVmin != cpuLpDvfs.freqs
      && gpuVmin != gpuDvfs.freqs && gpuPeakMillivolts != cpuDvfs.freqs && gpuPeakMillivolts != cpuLpDvfs.freqs
      && gpuPeakMillivolts != gpuDvfs.freqs && cpuDvfs.freqs != cpuLpDvfs.freqs && cpuDvfs.freqs != gpuDvfs.freqs
      && cpuLpDvfs.freqs != gpuDvfs.freqs
    }

    /** The boot-time state: the Tegra210 rails (vdd-cpu 800..1300 mV on a
        6.25 mV grid, vdd-core up to 1300 mV on a 12.5 mV grid, vdd-gpu up
        to 1300 mV on a 6.25 mV grid), the DVFS tables (the slow CPU's
        frequencies in kHz) and zeroed static arrays. */
    constructor (maxFreqs: nat, maxRanges: nat, p: Platform, sku: SkuInfo,
                 coreMillivolts: seq<int>, cpuMaxFreq: seq<nat>, cpuLpMaxFreq: seq<nat>,
                 cpuTable: seq<CpuEntry>, cpuLpTable: seq<CpuEntry>, gpuTable: seq<GpuEntry>)
      requires 0 < maxFreqs && 0 < maxRanges && |coreMillivolts| == maxFreqs
      requires forall k :: 0 <= k < |cpuTable| ==> |cpuTable[k].fvTable| == maxFreqs
      requires forall k :: 0 <= k < |cpuLpTable| ==> |cpuLpTable[k].fvTable| == maxFreqs
      requires forall k :: 0 <= k < |gpuTable| ==>
                 |gpuTable[k].cvbTable| == maxFreqs && |gpuTable[k].thermFloors| == maxRanges
      requires PeakRowShape(p)
      requires forall i, j :: 0 <= i < |cpuTable| && 0 <= j < |cpuLpTable| ==> cpuTable[i] != cpuLpTable[j]
      ensures Valid()
      ensures this.maxFreqs == maxFreqs && this.maxRanges == maxRanges && this.p == p && this.sku == sku
      ensures this.coreMillivolts == coreMillivolts && this.cpuMaxFreq == cpuMaxFreq
      ensures this.cpuLpMaxFreq == cpuLpMaxFreq && this.cpuTable == cpuTable
      ensures this.cpuLpTable == cpuLpTable && this.gpuTable == gpuTable
      ensures cpuRail.alignment == Alignment(6250, 0) && cpuRail.minMv == 800 && cpuRail.maxMv == 1300
      ensures coreRail.alignment == Alignment(12500, 0) && coreRail.minMv == 0 && coreRail.maxMv == 1300
      ensures gpuRail.alignment == Alignment(6250, 0) && gpuRail.minMv == 0 && gpuRail.maxMv == 1300
      ensures cpuRail.nominalMv == 0 && coreRail.nominalMv == 0 && gpuRail.nominalMv == 0
      ensures !cpuRail.disabled && !coreRail.disabled && !gpuRail.disabled && !coreDisabled
      ensures cpuDvfs.freqsMult == 0 && cpuLpDvfs.freqsMult == KHZ && gpuDvfs.freqsMult == 0
      ensures forall k :: 0 <= k < maxFreqs ==>
                cpuMillivolts[k] == 0 && cpuDfllMillivolts[k] == 0 && cpuLpMillivolts[k] == 0
                && gpuPeakMillivolts[k] == 0
      ensures forall j :: 0 <= j < maxRanges ==> gpuVmin[j] == 0
      ensures forall j, k :: 0 <= j < maxRanges && 0 <= k < maxFreqs ==> gpuMillivolts[j, k] == 0
    {
      this.maxFreqs := maxFreqs;
      this.maxRanges := maxRanges;
      this.p := p;
      this.sku := sku;
      this.coreMillivolts := coreMillivolts;
      this.cpuMaxFreq := cpuMaxFreq;
      this.cpuLpMaxFreq := cpuLpMaxFreq;
      this.cpuTable := cpuTable;
      this.cpuLpTable := cpuLpTable;
      this.gpuTable := gpuTable;
      cpuRail := new Rail(Alignment(6250, 0), 800, 1300);
      coreRail := new Rail(Alignment(12500, 0), 0, 1300);
      gpuRail := new Rail(Alignment(6250, 0), 0, 1300);
      cpuDvfs := new Dvfs(maxFreqs, 0);
      cpuLpDvfs := new Dvfs(maxFreqs, KHZ);
      gpuDvfs := new Dvfs(maxFreqs, 0);
      cpuMillivolts := new int[maxFreqs](_ => 0);
      cpuDfllMillivolts := new int[maxFreqs](_ => 0);
      cpuLpMillivolts := new int[maxFreqs](_ => 0);
      gpuVmin := new int[maxRanges](_ => 0);
      gpuPeakMillivolts := new int[maxFreqs](_ => 0);
      gpuMillivolts := new int[maxRanges, maxFreqs]((_, _) => 0);
      coreDisabled := false;
    }

    // ---------------------------------------------------------------
    // Fast CPU cluster: set_cpu_dvfs_data

    /** min_dfll_mv of entry d: its minimum, at least the rail minimum,
        rounded up onto the rail grid. */
    ghost function CpuMinDfllMv(d: CpuEntry): int
      reads cpuRail`minMv
    {
      p.roundVoltage(Max(d.minMv, cpuRail.minMv), cpuRail.alignment, true)
    }

    /** The loop inputs of set_cpu_dvfs_data for entry d, with d's current
        maximum voltage. */
    ghost function CpuScanOf(d: CpuEntry, maxFreq: nat, ladder: DfllLadder): FastCpuScan
      reads cpuRail`minMv, d`maxMv
    {
      FastCpuScan(ladder, d.fvTable, maxFreq, CpuMinDfllMv(d), d.maxMv)
    }

    /** The DFLL ladder is one set_cpu_dvfs_data handles without undefined
        behaviour for entry d: no longer than the arrays, positive rates,
        and the loop does not end before filling an entry unless it
        returns an error (line 841 reads index i - 1). */
    ghost predicate CpuLadderFits(d: CpuEntry, maxFreq: nat, ladder: DfllLadder)
      reads cpuRail`minMv, d`maxMv
    {
      var c := CpuScanOf(d, maxFreq, ladder);
      c.Valid() && c.Defined() && c.N() <= maxFreqs
    }

    /** The fast CPU arrays and their shape. */
    ghost predicate CpuArrays() {
      cpuDvfs.freqs.Length == maxFreqs && cpuMillivolts.Length == maxFreqs
      && cpuDfllMillivolts.Length == maxFreqs
      && cpuMillivolts != cpuDfllMillivolts && cpuMillivolts != cpuDvfs.freqs
      && cpuDfllMillivolts != cpuDvfs.freqs
    }

    /** The fast CPU arrays hold the entries scan c keeps: the DFLL rates,
        the PLL voltages and the DFLL voltages clipped at the maximum. */
    ghost predicate CpuCellsHold(c: FastCpuScan)
      reads cpuDvfs.freqs, cpuMillivolts, cpuDfllMillivolts
    {
      CpuArrays() && c.Valid() && c.Stop() <= maxFreqs
      && forall k :: 0 <= k < c.Stop() ==>
           cpuDvfs.freqs[k] == c.ladder.freqs[k] && cpuMillivolts[k] == c.fv[k].volt
           && cpuDfllMillivolts[k] == c.StoredDfllMv(k)
    }

    /** The loop of set_cpu_dvfs_data (lines 797-827): it fills the fast
        CPU arrays up to where the scan stops, tracking fmax_at_vmin and
        fmin_use_dfll; `failed` when it leaves by one of the -EINVAL
        returns. */
    method FillCpuTables(d: CpuEntry, l: DfllLadder, maxFreq: nat, minDfllMv: int, ghost c: FastCpuScan)
      returns (i: nat, failed: bool, fmaxAtVmin: nat, fminUseDfll: nat)
      requires CpuArrays()
      requires c == FastCpuScan(l, d.fvTable, maxFreq, minDfllMv, d.maxMv)
      requires c.Valid() && c.Defined() && c.N() <= maxFreqs
      modifies cpuDvfs.freqs, cpuMillivolts, cpuDfllMillivolts
      ensures i == c.Stop()
      ensures failed <==> c.Outcome().Failed?
      ensures !failed ==> fmaxAtVmin == c.FmaxAtVmin(i) && fminUseDfll == c.FminUseDfll(i)
      ensures CpuCellsHold(c)
      ensures forall k :: i <= k < maxFreqs ==>
                cpuDvfs.freqs[k] == old(cpuDvfs.freqs[k]) && cpuMillivolts[k] == old(cpuMillivolts[k])
                && cpuDfllMillivolts[k] == old(cpuDfllMillivolts[k])
    {
      var freqs := l.freqs;
      var dfllMicrovolts := l.microvolts;
      var maxMv := d.maxMv;
      fmaxAtVmin, fminUseDfll := 0, 0;
      i := 0;
      while i < |freqs|
        invariant 0 <= i <= c.N()
        invariant forall k :: 0 <= k < i ==> !c.StopsAt(k)
        invariant fmaxAtVmin == c.FmaxAtVmin(i)
        invariant fminUseDfll == c.FminUseDfll(i)
        invariant forall k :: 0 <= k < i ==>
                    cpuDvfs.freqs[k] == freqs[k] && cpuMillivolts[k] == d.fvTable[k].volt
                    && cpuDfllMillivolts[k] == c.StoredDfllMv(k)
        invariant forall k :: i <= k < maxFreqs ==>
                    cpuDvfs.freqs[k] == old(cpuDvfs.freqs[k]) && cpuMillivolts[k] == old(cpuMillivolts[k])
                    && cpuDfllMillivolts[k] == old(cpuDfllMillivolts[k])
      {
        if Khz(freqs[i]) != d.fvTable[i].freq {
          StopIsFirst(c, i);
          return i, true, fmaxAtVmin, fminUseDfll;
        }
        if d.fvTable[i].freq > maxFreq {
          break;
        }
        var mv := d.fvTable[i].volt;
        var dfllMv := Max(DivTrunc(dfllMicrovolts[i], 1000), minDfllMv);
        if dfllMv > minDfllMv {
          if i == 0 {
            fmaxAtVmin := freqs[i];
          }
          if fmaxAtVmin == 0 {
            fmaxAtVmin := freqs[i - 1];
          }
        }
        if mv > maxMv && i == 0 {
          StopIsFirst(c, i);
          return i, true, fmaxAtVmin, fminUseDfll;
        }
        if mv >= minDfllMv && fminUseDfll == 0 {
          fminUseDfll := freqs[i];
        }
        cpuDvfs.freqs[i] := freqs[i];
        cpuMillivolts[i] := mv;
        cpuDfllMillivolts[i] := Min(dfllMv, maxMv);
        i := i + 1;
      }
      StopIsFirst(c, i);
      failed := false;
    }

    /** set_cpu_dvfs_data: builds the fast CPU table from entry d and the
        DFLL ladder (tegra_get_cpu_fv_table's answer, None when the DFLL
        is not there yet), clipped at the SKU maximum frequency. d's
        maximum voltage is rounded down in place whatever the outcome;
        without a ladder nothing else changes; otherwise the arrays hold
        the entries the scan keeps and, on success only, the table's ids,
        use_dfll_rate_min and the rail's nominal voltage are set. */
    method SetCpuDvfsData(maxFreq: nat, d: CpuEntry, ladder: Option<DfllLadder>) returns (r: BuildResult, ghost c: FastCpuScan)
      requires CpuArrays()
      requires ladder.Some? ==> CpuLadderFits(d, maxFreq, ladder.value)
      modifies d`maxMv, cpuRail`nominalMv, cpuDvfs, cpuDvfs.freqs, cpuMillivolts, cpuDfllMillivolts
      ensures d.maxMv == p.roundVoltage(old(d.maxMv), cpuRail.alignment, false)
      ensures ladder.None? ==>
                r == Failed(-EPROBE_DEFER) && cpuRail.nominalMv == old(cpuRail.nominalMv)
                && unchanged(cpuDvfs, cpuDvfs.freqs, cpuMillivolts, cpuDfllMillivolts)
      ensures ladder.Some? ==>
                c == CpuScanOf(d, maxFreq, ladder.value) && c.Valid() && c.Defined() && c.N() <= maxFreqs
      ensures ladder.Some? ==> r == c.Outcome()
      ensures ladder.Some? ==> CpuCellsHold(c)
      ensures ladder.Some? ==>
                forall k :: c.Stop() <= k < maxFreqs ==>
                  cpuDvfs.freqs[k] == old(cpuDvfs.freqs[k]) && cpuMillivolts[k] == old(cpuMillivolts[k])
                  && cpuDfllMillivolts[k] == old(cpuDfllMillivolts[k])
      ensures ladder.Some? && r.Built? ==>
                cpuDvfs.speedoId == d.key.speedoId && cpuDvfs.processId == d.key.processId
                && cpuDvfs.useDfllRateMin == c.UseDfllRateMin(c.Stop())
                && cpuRail.nominalMv == c.Nominal(c.Stop())
      ensures !r.Built? ==>
                cpuDvfs.speedoId == old(cpuDvfs.speedoId) && cpuDvfs.processId == old(cpuDvfs.processId)
                && cpuDvfs.useDfllRateMin == old(cpuDvfs.useDfllRateMin)
                && cpuRail.nominalMv == old(cpuRail.nominalMv)
      ensures cpuDvfs.freqsMult == old(cpuDvfs.freqsMult)
      ensures cpuDvfs.fmaxAtVminSafeT == old(cpuDvfs.fmaxAtVminSafeT)
    {
      var align := cpuRail.alignment;
      var minDfllMv := d.minMv;
      if minDfllMv < cpuRail.minMv {
        minDfllMv := cpuRail.minMv;
      }
      minDfllMv := p.roundVoltage(minDfllMv, align, true);
      d.maxMv := p.roundVoltage(d.maxMv, align, false);

      if ladder.None? {
        c := FastCpuScan(DfllLadder([], []), d.fvTable, maxFreq, minDfllMv, d.maxMv);
        return Failed(-EPROBE_DEFER), c;
      }
      c := CpuScanOf(d, maxFreq, ladder.value);
      var i, failed, fmaxAtVmin, fminUseDfll := FillCpuTables(d, ladder.value, maxFreq, minDfllMv, c);
      if failed {
        return Failed(-EINVAL), c;
      }

      if fminUseDfll == 0 || fminUseDfll > fmaxAtVmin {
        fminUseDfll := fmaxAtVmin;
      }
      cpuDvfs.speedoId := d.key.speedoId;
      cpuDvfs.processId := d.key.processId;
      cpuRail.nominalMv := Min(d.maxMv, Max(cpuMillivolts[i - 1], cpuDfllMillivolts[i - 1]));
      r := Built(i - 1);
      cpuDvfs.useDfllRateMin := fminUseDfll;
    }

    // ---------------------------------------------------------------
    // Slow CPU cluster: set_cpu_lp_dvfs_data

    /** The loop inputs of set_cpu_lp_dvfs_data for entry d: the minimum
        raised to the rail minimum and rounded up, d's current maximum. */
    ghost function LpScanOf(d: CpuEntry, maxFreq: nat): LpCpuScan
      reads cpuRail`minMv, d`maxMv
    {
      LpCpuScan(d.fvTable, maxFreq, CpuMinDfllMv(d), d.maxMv)
    }

    /** The slow CPU arrays and their shape. */
    ghost predicate LpArrays() {
      cpuLpDvfs.freqs.Length == maxFreqs && cpuLpMillivolts.Length == maxFreqs
      && cpuLpMillivolts != cpuLpDvfs.freqs
    }

    /** The slow CPU arrays hold the entries scan c keeps: the PLL
        frequencies and their voltages raised to the minimum. */
    ghost predicate LpCellsHold(c: LpCpuScan)
      reads cpuLpDvfs.freqs, cpuLpMillivolts
    {
      LpArrays() && c.Stop() <= maxFreqs
      && forall k :: 0 <= k < c.Stop() ==> cpuLpDvfs.freqs[k] == c.fv[k].freq && cpuLpMillivolts[k] == c.StoredMv(k)
    }

    /** set_cpu_lp_dvfs_data: builds the slow CPU table from entry d (PLL
        only), cut at the first entry that is the end of the table, above
        the SKU maximum frequency or above the rounded maximum voltage.
        d's maximum is rounded down in place; a maximum above the rail's
        halts (BUG_ON); otherwise the rail's nominal voltage is raised to
        it, the arrays hold the kept entries and, unless none is kept
        (-ENOENT), the table's ids are set. */
    method SetCpuLpDvfsData(maxFreq: nat, d: CpuEntry) returns (r: BuildResult, ghost c: LpCpuScan)
      requires LpArrays() && |d.fvTable| == maxFreqs
      modifies d`maxMv, cpuRail`nominalMv, cpuLpDvfs, cpuLpDvfs.freqs, cpuLpMillivolts
      ensures d.maxMv == p.roundVoltage(old(d.maxMv), cpuRail.alignment, false)
      ensures c == LpScanOf(d, maxFreq)
      ensures d.maxMv > cpuRail.maxMv ==>
                r == Halted && cpuRail.nominalMv == old(cpuRail.nominalMv)
                && unchanged(cpuLpDvfs, cpuLpDvfs.freqs, cpuLpMillivolts)
      ensures d.maxMv <= cpuRail.maxMv ==>
                r == c.Outcome() && cpuRail.nominalMv == Max(old(cpuRail.nominalMv), d.maxMv)
      ensures d.maxMv <= cpuRail.maxMv ==> LpCellsHold(c)
      ensures forall k :: c.Stop() <= k < maxFreqs ==>
                cpuLpDvfs.freqs[k] == old(cpuLpDvfs.freqs[k]) && cpuLpMillivolts[k] == old(cpuLpMillivolts[k])
      ensures r.Built? ==> cpuLpDvfs.speedoId == d.key.speedoId && cpuLpDvfs.processId == d.key.processId
      ensures !r.Built? ==>
                cpuLpDvfs.speedoId == old(cpuLpDvfs.speedoId) && cpuLpDvfs.processId == old(cpuLpDvfs.processId)
      ensures cpuLpDvfs.freqsMult == old(cpuLpDvfs.freqsMult)
      ensures cpuLpDvfs.useDfllRateMin == old(cpuLpDvfs.useDfllRateMin)
      ensures cpuLpDvfs.fmaxAtVminSafeT == old(cpuLpDvfs.fmaxAtVminSafeT)
    {
      var align := cpuRail.alignment;
      var minMv := d.minMv;
      if minMv < cpuRail.minMv {
        minMv := cpuRail.minMv;
      }
      minMv := p.roundVoltage(minMv, align, true);
      d.maxMv := p.roundVoltage(d.maxMv, align, false);
      c := LpScanOf(d, maxFreq);
      var maxMv := d.maxMv;
      if maxMv > cpuRail.maxMv {
        return Halted, c;
      }
      cpuRail.nominalMv := Max(cpuRail.nominalMv, maxMv);

      var i := 0;
      while i < maxFreqs
        modifies cpuLpDvfs.freqs, cpuLpMillivolts
        invariant 0 <= i <= maxFreqs
        invariant forall k :: 0 <= k < i ==> !c.StopsAt(k)
        invariant forall k :: 0 <= k < i ==>
                    cpuLpDvfs.freqs[k] == c.fv[k].freq && cpuLpMillivolts[k] == c.StoredMv(k)
        invariant forall k :: i <= k < maxFreqs ==>
                    cpuLpDvfs.freqs[k] == old(cpuLpDvfs.freqs[k]) && cpuLpMillivolts[k] == old(cpuLpMillivolts[k])
      {
        var t := d.fvTable[i];
        if t.freq == 0 || t.freq > maxFreq {
          break;
        }
        var mv := t.volt;
        mv := Max(mv, minMv);
        if mv > maxMv {
          break;
        }
        cpuLpDvfs.freqs[i] := t.freq;
        cpuLpMillivolts[i] := mv;
        i := i + 1;
      }
      LpStopIsFirst(c, i);

      if i == 0 {
        return Failed(-ENOENT), c;
      }
      cpuLpDvfs.speedoId := d.key.speedoId;
      cpuLpDvfs.processId := d.key.processId;
      r := Built(i - 1);
    }

    /** When rounding up never lowers a voltage, every voltage the slow CPU
        table keeps for entry d lies within the CPU rail's limits: the
        minimum is raised to the rail's before it is rounded up, and the
        BUG_ON of line 874 holds d's rounded maximum under the rail's. */
    lemma LpTableWithinCpuRail(d: CpuEntry, maxFreq: nat, k: nat)
      requires RoundsUp(p) && d.maxMv <= cpuRail.maxMv
      requires k < LpScanOf(d, maxFreq).Stop()
      ensures cpuRail.minMv <= LpScanOf(d, maxFreq).StoredMv(k) <= cpuRail.maxMv
    {
      LpVoltagesWithinRail(LpScanOf(d, maxFreq), cpuRail.minMv, cpuRail.maxMv, k);
    }

    // ---------------------------------------------------------------
    // GPU: set_gpu_dvfs_data

    /** The GPU arrays and their shape. */
    ghost predicate GpuArrays() {
      gpuDvfs.freqs.Length == maxFreqs && gpuPeakMillivolts.Length == maxFreqs
      && gpuVmin.Length == maxRanges
      && gpuMillivolts.Length0 == maxRanges && gpuMillivolts.Length1 == maxFreqs
      && gpuDvfs.freqs != gpuPeakMillivolts && gpuDvfs.freqs != gpuVmin && gpuPeakMillivolts != gpuVmin
    }

    /** gpu_vmin[j]: range j's thermal floor, raised to the PLL minimum and
        the rail minimum, rounded up onto the rail grid. */
    ghost function GpuFloor(d: GpuEntry, j: nat): int
      requires j < |d.thermFloors|
      reads gpuRail`minMv
    {
      p.roundVoltage(Max(Max(d.pllMinMv, gpuRail.minMv), d.thermFloors[j]), gpuRail.alignment, true)
    }

    /** The loop inputs of set_gpu_dvfs_data for entry d: `ranges` thermal
        ranges with the trip points `trips` and the floors `vmin`. */
    ghost function GpuScanOf(d: GpuEntry, maxFreq: nat, ranges: nat, trips: seq<int>, vmin: seq<int>): GpuScan
      reads d`maxMv
    {
      GpuScan(p, d.cvbTable, maxFreq, sku.gpuSpeedoValue, d.speedoScale, d.thermalScale, d.voltageScale,
              gpuRail.alignment, ranges, trips, vmin, d.maxMv)
    }

    /** Scan g describes entry d as it stands, with the floors now in
        gpu_vmin. */
    ghost predicate GpuScanMatches(d: GpuEntry, g: GpuScan)
      requires GpuArrays()
      reads d`maxMv, d`vtsTrips, gpuVmin
    {
      g.Valid() && g.ranges <= maxRanges && |g.cvb| == maxFreqs
      && g == GpuScanOf(d, g.maxFreq, g.ranges, d.vtsTrips, g.vmin)
      && forall j :: 0 <= j < g.ranges ==> g.vmin[j] == gpuVmin[j]
    }

    /** The verdict of the thermal DVFS helper on the first n frequencies
        of the voltage matrix as it stands. */
    ghost function GpuThermalCheck(n: nat, ranges: nat): ThermalCheck
      reads gpuMillivolts
    {
      p.thermalDvfsVoltages(MatrixRows(gpuMillivolts), n, ranges)
    }

    /** The thermal floors of set_gpu_dvfs_data (lines 1186-1189). */
    method ApplyGpuFloors(d: GpuEntry, minMv: int, ranges: nat)
      requires GpuArrays() && ranges <= maxRanges && ranges <= |d.thermFloors|
      requires minMv == Max(d.pllMinMv, gpuRail.minMv)
      modifies gpuVmin
      ensures forall j :: 0 <= j < ranges ==> gpuVmin[j] == GpuFloor(d, j)
      ensures forall j :: ranges <= j < maxRanges ==> gpuVmin[j] == old(gpuVmin[j])
    {
      var j := 0;
      while j < ranges
        invariant 0 <= j <= ranges
        invariant forall k :: 0 <= k < j ==> gpuVmin[k] == GpuFloor(d, k)
        invariant forall k :: j <= k < maxRanges ==> gpuVmin[k] == old(gpuVmin[k])
      {
        var mv := Max(minMv, d.thermFloors[j]);
        gpuVmin[j] := p.roundVoltage(mv, gpuRail.alignment, true);
        j := j + 1;
      }
    }

    /** The inner loop of set_gpu_dvfs_data (lines 1205-1231) at CVB row i,
        with mv the row's CVB voltage: it writes the ranges that fit under
        the maximum, each raising the range before it. */
    method FillGpuColumn(d: GpuEntry, i: nat, ranges: nat, mv: int, ghost g: GpuScan) returns (j: nat)
      requires GpuArrays() && GpuScanMatches(d, g) && i < maxFreqs && ranges == g.ranges
      requires mv == p.cvbVoltage(g.speedo, g.speedoScale, g.cvb[i].pll)
      modifies gpuMillivolts
      ensures j == g.Fit(i)
      ensures forall t :: 0 <= t < j ==> gpuMillivolts[t, i] == g.Cell(i, t)
      ensures forall t :: j <= t < maxRanges ==> gpuMillivolts[t, i] == old(gpuMillivolts[t, i])
      ensures forall t, k :: 0 <= t < maxRanges && 0 <= k < maxFreqs && k != i ==>
                gpuMillivolts[t, k] == old(gpuMillivolts[t, k])
    {
      var maxMv := d.maxMv;
      var pll := d.cvbTable[i].pll;
      j := 0;
      while j < ranges
        invariant 0 <= j <= ranges
        invariant forall t :: 0 <= t < j ==> g.RangeMv(i, t) <= maxMv
        invariant forall t :: 0 <= t < j ==>
                    gpuMillivolts[t, i] == if t + 1 < j then Max(g.RangeMv(i, t), g.RangeMv(i, t + 1)) else g.RangeMv(i, t)
        invariant forall t :: j <= t < maxRanges ==> gpuMillivolts[t, i] == old(gpuMillivolts[t, i])
        invariant forall t, k :: 0 <= t < maxRanges && 0 <= k < maxFreqs && k != i ==>
                    gpuMillivolts[t, k] == old(gpuMillivolts[t, k])
      {
        var t := 0;
        if ranges > 1 {
          t := d.vtsTrips[j];
        }
        var mvj := mv + p.cvbThermalVoltage(sku.gpuSpeedoValue, d.speedoScale, t, d.thermalScale, pll);
        mvj := p.roundCvbVoltage(mvj, d.voltageScale, gpuRail.alignment);
        mvj := Max(mvj, gpuVmin[j]);
        assert mvj == g.RangeMv(i, j);
        if mvj > maxMv {
          break;
        }
        gpuMillivolts[j, i] := mvj;
        if j > 0 && gpuMillivolts[j - 1, i] < mvj {
          gpuMillivolts[j - 1, i] := mvj;
        }
        j := j + 1;
      }
      FitIsFirst(g, i, j);
    }

    /** The outer loop of set_gpu_dvfs_data (lines 1196-1239): it fills the
        voltage matrix and the frequencies up to where the scan stops. */
    method FillGpuTable(d: GpuEntry, maxFreq: nat, ranges: nat, ghost g: GpuScan) returns (i: nat)
      requires GpuArrays() && GpuScanMatches(d, g) && g.maxFreq == maxFreq && g.ranges == ranges
      modifies gpuMillivolts, gpuDvfs.freqs
      ensures i == g.Stop()
      ensures forall k :: 0 <= k < i ==> gpuDvfs.freqs[k] == g.cvb[k].freq
      ensures forall k :: i <= k < maxFreqs ==> gpuDvfs.freqs[k] == old(gpuDvfs.freqs[k])
      ensures forall t, k :: 0 <= t < maxRanges && 0 <= k < maxFreqs ==>
                gpuMillivolts[t, k] == if k < g.Written() && t < g.Fit(k) then g.Cell(k, t) else old(gpuMillivolts[t, k])
    {
      i := 0;
      while i < maxFreqs
        invariant 0 <= i <= maxFreqs
        invariant forall k :: 0 <= k < i ==> !g.StopsAt(k)
        invariant forall k :: 0 <= k < i ==> gpuDvfs.freqs[k] == g.cvb[k].freq
        invariant forall k :: i <= k < maxFreqs ==> gpuDvfs.freqs[k] == old(gpuDvfs.freqs[k])
        invariant forall t, k :: 0 <= t < maxRanges && 0 <= k < maxFreqs ==>
                    gpuMillivolts[t, k] == if k < i && t < g.Fit(k) then g.Cell(k, t) else old(gpuMillivolts[t, k])
      {
        var table := d.cvbTable[i];
        if table.freq == 0 || table.freq > maxFreq {
          break;
        }
        var mv := p.cvbVoltage(sku.gpuSpeedoValue, d.speedoScale, table.pll);
        var j := FillGpuColumn(d, i, ranges, mv, g);
        if j < ranges {
          break;
        }
        gpuDvfs.freqs[i] := table.freq;
        i := i + 1;
      }
      GpuStopIsFirst(g, i);
    }

    /** tegra_dvfs_init_thermal_dvfs_voltages on the first n frequencies:
        the helper's verdict, with the peak-voltage row it fills in. */
    method InitThermalDvfsVoltages(n: nat, ranges: nat) returns (err: bool)
      requires GpuArrays() && PeakRowShape(p) && n <= maxFreqs
      modifies gpuPeakMillivolts
      ensures err == GpuThermalCheck(n, ranges).err
      ensures forall k :: 0 <= k < n ==> gpuPeakMillivolts[k] == GpuThermalCheck(n, ranges).peak[k]
      ensures forall k :: n <= k < maxFreqs ==> gpuPeakMillivolts[k] == old(gpuPeakMillivolts[k])
    {
      var check := p.thermalDvfsVoltages(MatrixRows(gpuMillivolts), n, ranges);
      var k := 0;
      while k < n
        invariant 0 <= k <= n
        invariant forall t :: 0 <= t < k ==> gpuPeakMillivolts[t] == check.peak[t]
        invariant forall t :: k <= t < maxFreqs ==> gpuPeakMillivolts[t] == old(gpuPeakMillivolts[t])
      {
        gpuPeakMillivolts[k] := check.peak[k];
        k := k + 1;
      }
      err := check.err;
    }

    /** Shifting out the first trip point (lines 1249-1251): each of the
        first ranges - 1 trip points takes the value of the next one. */
    static method ShiftVtsTrips(d: GpuEntry, ranges: nat)
      requires ranges <= 1 || ranges <= |d.vtsTrips|
      modifies d`vtsTrips
      ensures |d.vtsTrips| == |old(d.vtsTrips)|
      ensures forall k :: 0 <= k < |d.vtsTrips| ==>
                d.vtsTrips[k] == if k + 1 < ranges then old(d.vtsTrips[k + 1]) else old(d.vtsTrips[k])
    {
      var j := 1;
      while j < ranges
        invariant 1 <= j && (j <= ranges || j == 1)
        invariant |d.vtsTrips| == |old(d.vtsTrips)|
        invariant forall k :: 0 <= k < |d.vtsTrips| ==>
                    d.vtsTrips[k] == if k + 1 < j then old(d.vtsTrips[k + 1]) else old(d.vtsTrips[k])
      {
        d.vtsTrips := d.vtsTrips[j - 1 := d.vtsTrips[j]];
        j := j + 1;
      }
    }

    /** find_gpu_vmin_at_fmax: the highest voltage any of the first
        `ranges` ranges needs at the last of n retained frequencies. */
    method FindGpuVminAtFmax(ranges: nat, n: nat) returns (vmin: int)
      requires GpuArrays() && ranges <= maxRanges && 0 < n <= maxFreqs
      ensures vmin == GpuVminAtFmax(gpuMillivolts, ranges, n - 1)
    {
      vmin := 0;
      var j := 0;
      while j < ranges
        invariant 0 <= j <= ranges
        invariant vmin == GpuVminAtFmax(gpuMillivolts, j, n - 1)
      {
        vmin := Max(vmin, gpuMillivolts[j, n - 1]);
        j := j + 1;
      }
    }

    /** The inner loop of find_gpu_fmax_at_vmin on range j: the last of the
        first n frequencies before range j's voltage first rises above its
        voltage at the lowest frequency. */
    method RangeRunEnd(j: nat, n: nat) returns (k: nat)
      requires GpuArrays() && j < maxRanges && 0 < n <= maxFreqs
      ensures k == RunEnd(MatrixRow(gpuMillivolts, j), n)
    {
      var i := 1;
      while i < n
        invariant 1 <= i <= n
        invariant forall t :: 1 <= t < i ==> gpuMillivolts[j, t] <= gpuMillivolts[j, 0]
      {
        if gpuMillivolts[j, i] > gpuMillivolts[j, 0] {
          break;
        }
        i := i + 1;
      }
      RiseIsFirst(MatrixRow(gpuMillivolts, j), n, i);
      k := i - 1;
    }

    /** The same scan over the peak-voltage row. */
    method PeakRunEnd(n: nat) returns (k: nat)
      requires GpuArrays() && 0 < n <= maxFreqs
      ensures k == RunEnd(gpuPeakMillivolts[..], n)
    {
      var i := 1;
      while i < n
        invariant 1 <= i <= n
        invariant forall t :: 1 <= t < i ==> gpuPeakMillivolts[t] <= gpuPeakMillivolts[0]
      {
        if gpuPeakMillivolts[i] > gpuPeakMillivolts[0] {
          break;
        }
        i := i + 1;
      }
      RiseIsFirst(gpuPeakMillivolts[..], n, i);
      k := i - 1;
    }

    /** find_gpu_fmax_at_vmin: the highest of n retained rates that every
        range, and the peak-voltage row, reaches at its lowest voltage. */
    method FindGpuFmaxAtVmin(ranges: nat, n: nat) returns (fmax: int)
      requires GpuArrays() && ranges <= maxRanges && 0 < n <= maxFreqs
      ensures fmax == GpuFmaxAtVmin(gpuMillivolts, gpuPeakMillivolts, gpuDvfs.freqs, ranges, n)
    {
      fmax := ULONG_MAX;
      var j := 0;
      while j < ranges
        invariant 0 <= j <= ranges
        invariant fmax == FmaxOverRanges(gpuMillivolts, gpuDvfs.freqs, j, n)
      {
        var k := RangeRunEnd(j, n);
        fmax := Min(fmax, gpuDvfs.freqs[k]);
        j := j + 1;
      }
      var k := PeakRunEnd(n);
      fmax := Min(fmax, gpuDvfs.freqs[k]);
    }

    /** The part of set_gpu_dvfs_data up to the thermal helper's verdict
        (lines 1173-1246): d's maximum rounded down, the range floors, the
        matrix and frequencies up to where the scan stops (n of them) and
        the peak row. */
    method BuildGpuMatrix(maxFreq: nat, d: GpuEntry, ranges: nat) returns (n: nat, err: bool, ghost g: GpuScan)
      requires GpuArrays() && PeakRowShape(p) && 0 < ranges <= maxRanges
      requires |d.cvbTable| == maxFreqs && |d.thermFloors| == maxRanges
      requires ranges > 1 ==> ranges <= |d.vtsTrips|
      modifies d`maxMv, gpuVmin, gpuMillivolts, gpuDvfs.freqs, gpuPeakMillivolts
      ensures d.maxMv == p.roundVoltage(old(d.maxMv), gpuRail.alignment, false)
      ensures g == GpuScanOf(d, maxFreq, ranges, d.vtsTrips, gpuVmin[..])
      ensures g.Valid() && n == g.Stop() && n <= maxFreqs
      ensures forall j :: 0 <= j < ranges ==> gpuVmin[j] == GpuFloor(d, j)
      ensures forall j :: ranges <= j < maxRanges ==> gpuVmin[j] == old(gpuVmin[j])
      ensures forall t, k :: 0 <= t < maxRanges && 0 <= k < maxFreqs ==>
                gpuMillivolts[t, k] == if k < g.Written() && t < g.Fit(k) then g.Cell(k, t) else old(gpuMillivolts[t, k])
      ensures forall k :: 0 <= k < n ==> gpuDvfs.freqs[k] == g.cvb[k].freq
      ensures forall k :: n <= k < maxFreqs ==> gpuDvfs.freqs[k] == old(gpuDvfs.freqs[k])
      ensures err == GpuThermalCheck(n, ranges).err
      ensures forall k :: 0 <= k < n ==> gpuPeakMillivolts[k] == GpuThermalCheck(n, ranges).peak[k]
      ensures forall k :: n <= k < maxFreqs ==> gpuPeakMillivolts[k] == old(gpuPeakMillivolts[k])
    {
      d.maxMv := p.roundVoltage(d.maxMv, gpuRail.alignment, false);
      var minMv := d.pllMinMv;
      if minMv < gpuRail.minMv {
        minMv := gpuRail.minMv;
      }
      ApplyGpuFloors(d, minMv, ranges);
      g := GpuScanOf(d, maxFreq, ranges, d.vtsTrips, gpuVmin[..]);
      n := FillGpuTable(d, maxFreq, ranges, g);
      err := InitThermalDvfsVoltages(n, ranges);
    }

    /** The GPU arrays hold what scan g of entry d computes: the floors of
        its ranges, the matrix cells the loop writes, the kept frequencies
        and the thermal helper's peak voltages for them. */
    ghost predicate GpuCellsHold(d: GpuEntry, g: GpuScan)
      reads gpuRail`minMv, gpuVmin, gpuMillivolts, gpuDvfs.freqs, gpuPeakMillivolts
    {
      GpuArrays() && PeakRowShape(p) && g.Valid() && g.ranges <= maxRanges && g.ranges <= |d.thermFloors|
      && |g.cvb| == maxFreqs
      && (forall j :: 0 <= j < g.ranges ==> gpuVmin[j] == GpuFloor(d, j))
      && (forall t, k :: 0 <= k < g.Written() && 0 <= t < g.Fit(k) ==> gpuMillivolts[t, k] == g.Cell(k, t))
      && (forall k :: 0 <= k < g.Stop() ==>
            gpuDvfs.freqs[k] == g.cvb[k].freq && gpuPeakMillivolts[k] == GpuThermalCheck(g.Stop(), g.ranges).peak[k])
    }

    /** The GPU table published for entry d with n frequencies: its ids
        and multiplier are d's, the rail's nominal voltage is the highest
        voltage at the top frequency (at most d's maximum) and the safe
        rate at vmin is the multiplier times find_gpu_fmax_at_vmin. */
    ghost predicate GpuPublished(d: GpuEntry, ranges: nat, n: nat)
      requires GpuArrays() && ranges <= maxRanges && 0 < n <= maxFreqs
      reads d`maxMv, gpuRail`nominalMv, gpuDvfs, gpuDvfs.freqs, gpuMillivolts, gpuPeakMillivolts
    {
      gpuDvfs.speedoId == d.key.speedoId && gpuDvfs.processId == d.key.processId
      && gpuDvfs.freqsMult == d.freqsMult
      && gpuRail.nominalMv == Min(d.maxMv, GpuVminAtFmax(gpuMillivolts, ranges, n - 1))
      && gpuDvfs.fmaxAtVminSafeT == Scaled(d.freqsMult, GpuFmaxAtVmin(gpuMillivolts, gpuPeakMillivolts, gpuDvfs.freqs, ranges, n))
    }

    /** The rest of set_gpu_dvfs_data once the frequency loop kept n
        frequencies and the thermal helper gave its verdict `err` (lines
        1246-1270): -ENOENT when the helper rejects the table or n is 0;
        otherwise the trip points are shifted, the table's ids and
        multiplier set, the rail's nominal voltage is the highest voltage
        at the top frequency (at most d's maximum) and the safe rate at
        vmin is the multiplier times find_gpu_fmax_at_vmin. */
    method FinishGpuTable(d: GpuEntry, ranges: nat, n: nat, err: bool) returns (r: BuildResult)
      requires GpuArrays() && ranges <= maxRanges && n <= maxFreqs
      requires ranges <= 1 || ranges <= |d.vtsTrips|
      modifies d`vtsTrips, gpuRail`nominalMv, gpuDvfs`speedoId, gpuDvfs`processId, gpuDvfs`freqsMult, gpuDvfs`fmaxAtVminSafeT
      ensures r == if err || n == 0 then Failed(-ENOENT) else Built(n - 1)
      ensures r.Built? ==>
                |d.vtsTrips| == |old(d.vtsTrips)|
                && forall k :: 0 <= k < |d.vtsTrips| ==>
                     d.vtsTrips[k] == if k + 1 < ranges then old(d.vtsTrips[k + 1]) else old(d.vtsTrips[k])
      ensures r.Built? ==> GpuPublished(d, ranges, n)
      ensures !r.Built? ==>
                d.vtsTrips == old(d.vtsTrips) && gpuRail.nominalMv == old(gpuRail.nominalMv)
                && gpuDvfs.speedoId == old(gpuDvfs.speedoId) && gpuDvfs.processId == old(gpuDvfs.processId)
                && gpuDvfs.freqsMult == old(gpuDvfs.freqsMult) && gpuDvfs.fmaxAtVminSafeT == old(gpuDvfs.fmaxAtVminSafeT)
    {
      if err || n == 0 {
        return Failed(-ENOENT);
      }
      ShiftVtsTrips(d, ranges);
      gpuDvfs.speedoId := d.key.speedoId;
      gpuDvfs.processId := d.key.processId;
      gpuDvfs.freqsMult := d.freqsMult;
      r := Built(n - 1);
      var vmin := FindGpuVminAtFmax(ranges, n);
      gpuRail.nominalMv := Min(d.maxMv, vmin);
      var fmax := FindGpuFmaxAtVmin(ranges, n);
      gpuDvfs.fmaxAtVminSafeT := Scaled(d.freqsMult, fmax);
    }

    /** set_gpu_dvfs_data: builds the GPU voltage matrix from entry d's CVB
        table (BuildGpuMatrix); the table is rejected (-ENOENT) when the
        thermal helper rejects it or no frequency is kept, and is otherwise
        published with the index of its top frequency (FinishGpuTable).
        With the single thermal range, shifting out the first trip point
        leaves the trip points as they were. */
    method SetGpuDvfsData(maxFreq: nat, d: GpuEntry) returns (r: BuildResult, ghost g: GpuScan)
      requires GpuArrays() && PeakRowShape(p) && 0 < maxRanges
      requires |d.cvbTable| == maxFreqs && |d.thermFloors| == maxRanges
      modifies d`maxMv, d`vtsTrips, gpuRail`nominalMv, gpuDvfs`speedoId, gpuDvfs`processId, gpuDvfs`freqsMult
      modifies gpuDvfs`fmaxAtVminSafeT, gpuDvfs.freqs, gpuVmin, gpuMillivolts, gpuPeakMillivolts
      ensures d.maxMv == p.roundVoltage(old(d.maxMv), gpuRail.alignment, false)
      ensures g == GpuScanOf(d, maxFreq, InitGpuRailThermalScaling(), old(d.vtsTrips), gpuVmin[..])
      ensures g.Valid() && g.Stop() <= maxFreqs
      ensures forall j :: 0 <= j < g.ranges ==> gpuVmin[j] == GpuFloor(d, j)
      ensures forall j :: g.ranges <= j < maxRanges ==> gpuVmin[j] == old(gpuVmin[j])
      ensures forall t, k :: 0 <= t < maxRanges && 0 <= k < maxFreqs ==>
                gpuMillivolts[t, k] == if k < g.Written() && t < g.Fit(k) then g.Cell(k, t) else old(gpuMillivolts[t, k])
      ensures forall k :: 0 <= k < g.Stop() ==> gpuDvfs.freqs[k] == g.cvb[k].freq
      ensures forall k :: g.Stop() <= k < maxFreqs ==> gpuDvfs.freqs[k] == old(gpuDvfs.freqs[k])
      ensures forall k :: 0 <= k < g.Stop() ==> gpuPeakMillivolts[k] == GpuThermalCheck(g.Stop(), g.ranges).peak[k]
      ensures forall k :: g.Stop() <= k < maxFreqs ==> gpuPeakMillivolts[k] == old(gpuPeakMillivolts[k])
      ensures r == g.Outcome(GpuThermalCheck(g.Stop(), g.ranges).err)
      ensures r.Built? ==> GpuPublished(d, g.ranges, g.Stop())
      ensures d.vtsTrips == old(d.vtsTrips)
      ensures !r.Built? ==>
                gpuRail.nominalMv == old(gpuRail.nominalMv)
                && gpuDvfs.speedoId == old(gpuDvfs.speedoId) && gpuDvfs.processId == old(gpuDvfs.processId)
                && gpuDvfs.freqsMult == old(gpuDvfs.freqsMult) && gpuDvfs.fmaxAtVminSafeT == old(gpuDvfs.fmaxAtVminSafeT)
    {
      var ranges := InitGpuRailThermalScaling();
      var n, err;
      n, err, g := BuildGpuMatrix(maxFreq, d, ranges);
      r := FinishGpuTable(d, ranges, n, err);
    }

    // ---------------------------------------------------------------
    // Core rail: get_core_nominal_mv_index and adjust_emc_dvfs_table

    /** get_core_nominal_mv_index: the loop over core_millivolts computes
        the index GetCoreNominalMvIndex specifies. */
    method CoreNominalMvIndex() returns (r: int)
      ensures r == GetCoreNominalMvIndex(coreMillivolts, sku)
    {
      var mv := GetCoreSpeedoMv(sku);
      if mv < 0 {
        return mv;
      }
      var i := 0;
      while i < |coreMillivolts|
        invariant 0 <= i <= |coreMillivolts|
        invariant CoreScanFrom(coreMillivolts, mv, i) == CoreScanFrom(coreMillivolts, mv, 0)
      {
        if coreMillivolts[i] == 0 || mv < coreMillivolts[i] {
          break;
        }
        i := i + 1;
      }
      if i == 0 {
        return -ENOSYS;
      }
      r := i - 1;
    }

    /** adjust_emc_dvfs_table: along the core voltage ladder, up to its
        first 0 entry or first error prediction, each EMC frequency becomes
        the rate predicted at that voltage unless the prediction is 0. */
    method AdjustEmcDvfsTable(d: Dvfs)
      requires |coreMillivolts| <= d.freqs.Length
      modifies d.freqs
      ensures forall k :: 0 <= k < |coreMillivolts| ==>
                d.freqs[k] == AdjustedEmcRate(coreMillivolts, p.predictEmcRate, old(d.freqs[k]), k)
      ensures forall k :: |coreMillivolts| <= k < d.freqs.Length ==> d.freqs[k] == old(d.freqs[k])
    {
      var i := 0;
      while i < |coreMillivolts|
        invariant 0 <= i <= |coreMillivolts|
        invariant EmcScanFrom(coreMillivolts, p.predictEmcRate, i) == EmcScanFrom(coreMillivolts, p.predictEmcRate, 0)
        invariant forall k :: 0 <= k < i ==>
                    d.freqs[k] == AdjustedEmcRate(coreMillivolts, p.predictEmcRate, old(d.freqs[k]), k)
        invariant forall k :: i <= k < d.freqs.Length ==> d.freqs[k] == old(d.freqs[k])
      {
        if coreMillivolts[i] == 0 {
          return;
        }
        var rate := p.predictEmcRate(coreMillivolts[i]);
        if IsErrValue(rate) {
          return;
        }
        if rate != 0 {
          d.freqs[i] := rate;
        }
        i := i + 1;
      }
    }

    // ---------------------------------------------------------------
    // Selection: init_cpu_dvfs_table, init_cpu_lp_dvfs_table,
    // init_gpu_dvfs_table

    /** The selection loop of the init_*_dvfs_table functions: the first
        entry whose key matches the chip's ids. */
    static method FindMatchingEntry(keys: seq<MatchKey>, speedoId: int, processId: int) returns (r: Option<nat>)
      ensures r == SelectFirst(keys, speedoId, processId)
    {
      var i := 0;
      while i < |keys|
        invariant 0 <= i <= |keys|
        invariant SelectFrom(keys, speedoId, processId, i) == SelectFirst(keys, speedoId, processId)
      {
        if MatchDvfsOne(keys[i], speedoId, processId) {
          return Some(i);
        }
        i := i + 1;
      }
      return None;
    }

    /** The fast CPU entry selected for the chip's ids. */
    ghost function CpuSelection(): Option<nat> {
      SelectFirst(CpuKeys(cpuTable), sku.cpuSpeedoId, sku.cpuProcessId)
    }

    /** The slow CPU entry selected for the chip's (CPU) ids. */
    ghost function LpSelection(): Option<nat> {
      SelectFirst(CpuKeys(cpuLpTable), sku.cpuSpeedoId, sku.cpuProcessId)
    }

    /** The GPU entry selected for the chip's GPU ids. */
    ghost function GpuSelection(): Option<nat> {
      SelectFirst(GpuKeys(gpuTable), sku.gpuSpeedoId, sku.gpuProcessId)
    }

    /** The fast CPU entry selected, as a frame: the one entry whose
        maximum voltage init_cpu_dvfs_table rounds in place. */
    ghost function CpuSelected(): set<CpuEntry> {
      if CpuSelection().Some? then {cpuTable[CpuSelection().value]} else {}
    }

    /** The slow CPU entry selected, as a frame. */
    ghost function LpSelected(): set<CpuEntry> {
      if LpSelection().Some? then {cpuLpTable[LpSelection().value]} else {}
    }

    /** The GPU entry selected, as a frame. */
    ghost function GpuSelected(): set<GpuEntry> {
      if GpuSelection().Some? then {gpuTable[GpuSelection().value]} else {}
    }

    /** When init_cpu_dvfs_table reaches set_cpu_dvfs_data with a DFLL
        ladder, the ladder fits the selected entry (CpuLadderFits). */
    ghost predicate CpuSelectionFits(ladder: Option<DfllLadder>)
      reads cpuRail`minMv, cpuTable
    {
      var sel := CpuSelection();
      ladder.Some? && 0 <= sku.cpuSpeedoId < |cpuMaxFreq| && sel.Some? ==>
        CpuLadderFits(cpuTable[sel.value], cpuMaxFreq[sku.cpuSpeedoId], ladder.value)
    }

    /** What init_cpu_dvfs_table leaves behind, result r and scan c, in
        terms of the state as it now stands: a halt exactly when the speedo
        id is out of range or no entry matches; -EPROBE_DEFER without a
        DFLL ladder; otherwise the scan's outcome, with the fast CPU arrays
        holding the entries kept and, on success, the table's ids and
        use_dfll_rate_min set. */
    ghost predicate CpuOutcome(ladder: Option<DfllLadder>, r: BuildResult, c: FastCpuScan)
      reads cpuRail`minMv, cpuDvfs, cpuDvfs.freqs, cpuMillivolts, cpuDfllMillivolts
    {
      (r == Halted <==> !(0 <= sku.cpuSpeedoId < |cpuMaxFreq|) || CpuSelection().None?)
      && (r != Halted ==>
            var d := cpuTable[CpuSelection().value];
            (ladder.None? ==> r == Failed(-EPROBE_DEFER))
            && (ladder.Some? ==>
                  c.ladder == ladder.value && c.fv == d.fvTable && c.maxFreq == cpuMaxFreq[sku.cpuSpeedoId]
                  && c.minDfllMv == CpuMinDfllMv(d) && c.Valid() && c.Defined()
                  && r == c.Outcome() && CpuCellsHold(c))
            && (r.Built? ==>
                  cpuDvfs.speedoId == d.key.speedoId && cpuDvfs.processId == d.key.processId
                  && cpuDvfs.useDfllRateMin == c.UseDfllRateMin(c.Stop())))
    }

    /** What init_cpu_dvfs_table sets the CPU rail's nominal voltage to
        when it succeeds with scan c. */
    ghost function CpuNominal(c: FastCpuScan): int
      requires c.Valid() && c.Defined() && c.Outcome().Built?
    {
      c.Nominal(c.Stop())
    }

    /** What init_cpu_lp_dvfs_table leaves behind, result r and scan c:
        Unmatched when no slow CPU entry matches; otherwise a halt when the
        rounded maximum is above the rail's, else the scan's outcome with
        the slow CPU arrays holding the entries kept and, on success, the
        table's ids set. */
    ghost predicate LpOutcome(r: BuildResult, c: LpCpuScan)
      reads cpuRail`minMv, cpuLpDvfs, cpuLpDvfs.freqs, cpuLpMillivolts
    {
      (LpSelection().None? ==> r == Unmatched)
      && (LpSelection().Some? ==>
            var d := cpuLpTable[LpSelection().value];
            0 <= sku.cpuSpeedoId < |cpuLpMaxFreq|
            && c.fv == d.fvTable && c.maxFreq == cpuLpMaxFreq[sku.cpuSpeedoId] && c.minMv == CpuMinDfllMv(d)
            && r == (if c.maxMv > cpuRail.maxMv then Halted else c.Outcome())
            && (!r.Halted? ==> LpCellsHold(c))
            && (r.Built? ==> cpuLpDvfs.speedoId == d.key.speedoId && cpuLpDvfs.processId == d.key.processId))
    }

    /** What init_gpu_dvfs_table leaves behind, result r and scan g: a halt
        when no GPU entry matches or set_gpu_dvfs_data fails; otherwise the
        GPU arrays hold the scan's values and the table is published. */
    ghost predicate GpuOutcome(r: BuildResult, g: GpuScan)
      reads gpuTable, gpuRail`minMv, gpuRail`nominalMv, gpuDvfs, gpuDvfs.freqs, gpuVmin, gpuMillivolts, gpuPeakMillivolts
    {
      (GpuSelection().None? ==> r == Halted)
      && (GpuSelection().Some? ==>
            var d := gpuTable[GpuSelection().value];
            g == GpuScanOf(d, d.maxFreq, InitGpuRailThermalScaling(), d.vtsTrips, gpuVmin[..])
            && GpuCellsHold(d, g)
            && r == (var o := g.Outcome(GpuThermalCheck(g.Stop(), g.ranges).err); if o.Built? then o else Halted)
            && (r.Built? ==> g.Stop() <= maxFreqs && GpuPublished(d, g.ranges, g.Stop())))
    }

    /** What init_cpu_dvfs_table leaves behind apart from the rail's
        nominal voltage and its entry, relative to the state it started
        from: its outcome; the scan run with the selected entry's maximum
        voltage rounded down; the arrays untouched without a scan and
        beyond the entries kept; the ids and use_dfll_rate_min kept unless
        the table is built. */
    twostate predicate CpuTableInitialized(ladder: Option<DfllLadder>, r: BuildResult, c: FastCpuScan)
      requires CpuArrays()
      reads cpuRail`minMv, cpuDvfs, cpuDvfs.freqs, cpuMillivolts, cpuDfllMillivolts
    {
      CpuOutcome(ladder, r, c)
      && (r != Halted && ladder.Some? ==>
            c.maxMv == p.roundVoltage(old(cpuTable[CpuSelection().value].maxMv), cpuRail.alignment, false))
      && (r == Halted || ladder.None? ==> unchanged(cpuDvfs.freqs, cpuMillivolts, cpuDfllMillivolts))
      && (r != Halted && ladder.Some? ==>
            forall k :: c.Stop() <= k < maxFreqs ==>
              cpuDvfs.freqs[k] == old(cpuDvfs.freqs[k]) && cpuMillivolts[k] == old(cpuMillivolts[k])
              && cpuDfllMillivolts[k] == old(cpuDfllMillivolts[k]))
      && (!r.Built? ==>
            cpuDvfs.speedoId == old(cpuDvfs.speedoId) && cpuDvfs.processId == old(cpuDvfs.processId)
            && cpuDvfs.useDfllRateMin == old(cpuDvfs.useDfllRateMin))
      && cpuDvfs.freqsMult == old(cpuDvfs.freqsMult) && cpuDvfs.fmaxAtVminSafeT == old(cpuDvfs.fmaxAtVminSafeT)
    }

    /** init_cpu_dvfs_table builds the fast CPU table: the speedo id is
        within cpu_max_freq, an entry matches, the DFLL ladder is there and
        the scan with the entry's maximum voltage rounded down succeeds. */
    ghost predicate FastCpuBuilds(ladder: Option<DfllLadder>)
      reads cpuRail`minMv, cpuTable
    {
      var sel := CpuSelection();
      ladder.Some? && 0 <= sku.cpuSpeedoId < |cpuMaxFreq| && sel.Some?
      && var d := cpuTable[sel.value];
         var c := FastCpuScan(ladder.value, d.fvTable, cpuMaxFreq[sku.cpuSpeedoId], CpuMinDfllMv(d),
                              p.roundVoltage(d.maxMv, cpuRail.alignment, false));
         c.Valid() && c.Defined() && c.Outcome().Built?
    }

    /** init_cpu_dvfs_table: a CPU speedo id outside cpu_max_freq (a
        negative one too, compared as an unsigned size) or no matching
        entry halts (BUG_ON); otherwise the result is set_cpu_dvfs_data's
        for the first matching entry at the speedo's maximum frequency. */
    method InitCpuDvfsTable(ladder: Option<DfllLadder>) returns (r: BuildResult, ghost c: FastCpuScan)
      requires CpuArrays() && CpuSelectionFits(ladder)
      modifies CpuSelected()`maxMv, cpuRail`nominalMv, cpuDvfs, cpuDvfs.freqs, cpuMillivolts, cpuDfllMillivolts
      ensures CpuTableInitialized(ladder, r, c)
      ensures r == Halted ==> unchanged(CpuSelected()`maxMv)
      ensures r != Halted ==>
                cpuTable[CpuSelection().value].maxMv
                == p.roundVoltage(old(cpuTable[CpuSelection().value].maxMv), cpuRail.alignment, false)
      ensures r.Built? <==> old(FastCpuBuilds(ladder))
      ensures r.Built? ==> cpuRail.nominalMv == CpuNominal(c)
      ensures !r.Built? ==> cpuRail.nominalMv == old(cpuRail.nominalMv)
    {
      var speedo := sku.cpuSpeedoId;
      c := FastCpuScan(DfllLadder([], []), [], 0, 0, 0);
      if speedo < 0 || speedo >= |cpuMaxFreq| {
        return Halted, c;
      }
      var sel := FindMatchingEntry(CpuKeys(cpuTable), speedo, sku.cpuProcessId);
      if sel.None? {
        return Halted, c;
      }
      r, c := SetCpuDvfsData(cpuMaxFreq[speedo], cpuTable[sel.value], ladder);
    }

    /** init_cpu_dvfs_table as tegra210_init_dvfs calls it (line 1343): it
        leaves the slow CPU and GPU entries as they were. */
    method InitCpuDvfsTableApart(ladder: Option<DfllLadder>) returns (r: BuildResult, ghost c: FastCpuScan)
      requires CpuArrays() && CpuSelectionFits(ladder) && CpuSelected() !! LpSelected()
      modifies CpuSelected()`maxMv, cpuRail`nominalMv, cpuDvfs, cpuDvfs.freqs, cpuMillivolts, cpuDfllMillivolts
      ensures CpuTableInitialized(ladder, r, c)
      ensures r.Built? <==> old(FastCpuBuilds(ladder))
      ensures r.Built? ==> cpuRail.nominalMv == CpuNominal(c)
      ensures !r.Built? ==> cpuRail.nominalMv == old(cpuRail.nominalMv)
      ensures r == Halted ==> unchanged(CpuSelected()`maxMv)
      ensures unchanged(LpSelected()`maxMv, GpuSelected()`maxMv, GpuSelected()`vtsTrips)
    {
      r, c := InitCpuDvfsTable(ladder);
    }

    /** What init_cpu_lp_dvfs_table leaves behind apart from the rail's
        nominal voltage and its entry, relative to the state it started
        from: its outcome; the scan run with the selected entry's maximum
        voltage rounded down; the arrays untouched without a match or on a
        halt, and beyond the entries kept; the ids kept unless the table is
        built. */
    twostate predicate LpTableInitialized(r: BuildResult, c: LpCpuScan)
      requires LpArrays()
      reads cpuLpTable, cpuRail`minMv, cpuLpDvfs, cpuLpDvfs.freqs, cpuLpMillivolts
    {
      LpOutcome(r, c)
      && (LpSelection().Some? ==>
            c.maxMv == p.roundVoltage(old(cpuLpTable[LpSelection().value].maxMv), cpuRail.alignment, false))
      && (LpSelection().None? || r.Halted? ==> unchanged(cpuLpDvfs, cpuLpDvfs.freqs, cpuLpMillivolts))
      && (LpSelection().Some? ==>
            forall k :: c.Stop() <= k < maxFreqs ==>
              cpuLpDvfs.freqs[k] == old(cpuLpDvfs.freqs[k]) && cpuLpMillivolts[k] == old(cpuLpMillivolts[k]))
      && (!r.Built? ==>
            cpuLpDvfs.speedoId == old(cpuLpDvfs.speedoId) && cpuLpDvfs.processId == old(cpuLpDvfs.processId))
      && cpuLpDvfs.freqsMult == old(cpuLpDvfs.freqsMult) && cpuLpDvfs.useDfllRateMin == old(cpuLpDvfs.useDfllRateMin)
      && cpuLpDvfs.fmaxAtVminSafeT == old(cpuLpDvfs.fmaxAtVminSafeT)
    }

    /** init_cpu_lp_dvfs_table: with no matching entry it returns 0 having
        built nothing (Unmatched); otherwise the result is
        set_cpu_lp_dvfs_data's for the first matching entry at the speedo's
        slow-CPU maximum frequency. */
    method InitCpuLpDvfsTable() returns (r: BuildResult, ghost c: LpCpuScan)
      requires LpArrays() && (forall k :: 0 <= k < |cpuLpTable| ==> |cpuLpTable[k].fvTable| == maxFreqs)
      requires |cpuLpTable| > 0 ==> 0 <= sku.cpuSpeedoId < |cpuLpMaxFreq|
      modifies LpSelected()`maxMv, cpuRail`nominalMv, cpuLpDvfs, cpuLpDvfs.freqs, cpuLpMillivolts
      ensures FastApartFromSlow() ==> unchanged(cpuRail`minMv, cpuDvfs, cpuDvfs.freqs, cpuMillivolts, cpuDfllMillivolts)
      ensures LpTableInitialized(r, c)
      ensures LpSelection().Some? ==> cpuLpTable[LpSelection().value].maxMv == c.maxMv
      ensures LpSelection().Some? && !r.Halted? ==> cpuRail.nominalMv == Max(old(cpuRail.nominalMv), c.maxMv)
      ensures LpSelection().None? || r.Halted? ==> cpuRail.nominalMv == old(cpuRail.nominalMv)
    {
      c := LpCpuScan([], 0, 0, 0);
      var sel := FindMatchingEntry(CpuKeys(cpuLpTable), sku.cpuSpeedoId, sku.cpuProcessId);
      if sel.None? {
        return Unmatched, c;
      }
      r, c := SetCpuLpDvfsData(cpuLpMaxFreq[sku.cpuSpeedoId], cpuLpTable[sel.value]);
    }

    /** init_cpu_lp_dvfs_table as tegra210_init_dvfs calls it (line 1347):
        it leaves the GPU entries as they were. */
    method InitCpuLpDvfsTableApart() returns (r: BuildResult, ghost c: LpCpuScan)
      requires LpArrays() && (forall k :: 0 <= k < |cpuLpTable| ==> |cpuLpTable[k].fvTable| == maxFreqs)
      requires |cpuLpTable| > 0 ==> 0 <= sku.cpuSpeedoId < |cpuLpMaxFreq|
      modifies LpSelected()`maxMv, cpuRail`nominalMv, cpuLpDvfs, cpuLpDvfs.freqs, cpuLpMillivolts
      ensures FastApartFromSlow() ==> unchanged(cpuRail`minMv, cpuDvfs, cpuDvfs.freqs, cpuMillivolts, cpuDfllMillivolts)
      ensures LpTableInitialized(r, c)
      ensures LpSelection().Some? && !r.Halted? ==> cpuRail.nominalMv == Max(old(cpuRail.nominalMv), c.maxMv)
      ensures LpSelection().None? || r.Halted? ==> cpuRail.nominalMv == old(cpuRail.nominalMv)
      ensures unchanged(GpuSelected()`maxMv, GpuSelected()`vtsTrips)
    {
      r, c := InitCpuLpDvfsTable();
    }

    /** What init_gpu_dvfs_table leaves behind, relative to the state it
        started from: its outcome; the selected entry's maximum voltage
        rounded and its trip points kept; the GPU arrays written only where
        the scan says; the published fields kept unless the table is built. */
    twostate predicate GpuTableInitialized(r: BuildResult, g: GpuScan)
      requires GpuArrays() && PeakRowShape(p) && 0 < maxRanges
      reads gpuTable, gpuRail, gpuDvfs, gpuDvfs.freqs, gpuVmin, gpuMillivolts, gpuPeakMillivolts
    {
      GpuOutcome(r, g)
      && (GpuSelection().None? ==> unchanged(gpuDvfs.freqs, gpuVmin, gpuMillivolts, gpuPeakMillivolts))
      && (GpuSelection().Some? ==>
                var d := gpuTable[GpuSelection().value];
                d.maxMv == p.roundVoltage(old(d.maxMv), gpuRail.alignment, false)
                && d.vtsTrips == old(d.vtsTrips))
      && (GpuSelection().Some? ==>
                g.Valid()
                && (forall j :: g.ranges <= j < maxRanges ==> gpuVmin[j] == old(gpuVmin[j]))
                && (forall t, k :: 0 <= t < maxRanges && 0 <= k < maxFreqs && !(k < g.Written() && t < g.Fit(k)) ==>
                      gpuMillivolts[t, k] == old(gpuMillivolts[t, k]))
                && (forall k :: g.Stop() <= k < maxFreqs ==>
                      gpuDvfs.freqs[k] == old(gpuDvfs.freqs[k]) && gpuPeakMillivolts[k] == old(gpuPeakMillivolts[k])))
      && (!r.Built? ==>
                gpuRail.nominalMv == old(gpuRail.nominalMv)
                && gpuDvfs.speedoId == old(gpuDvfs.speedoId) && gpuDvfs.processId == old(gpuDvfs.processId)
                && gpuDvfs.freqsMult == old(gpuDvfs.freqsMult) && gpuDvfs.fmaxAtVminSafeT == old(gpuDvfs.fmaxAtVminSafeT))
    }

    /** init_gpu_dvfs_table: no matching entry, or a failure of
        set_gpu_dvfs_data on the first matching entry (at the entry's own
        maximum frequency), halts (BUG_ON). */
    method InitGpuDvfsTable() returns (r: BuildResult, ghost g: GpuScan)
      requires GpuArrays() && PeakRowShape(p) && 0 < maxRanges
      requires forall k :: 0 <= k < |gpuTable| ==>
                 |gpuTable[k].cvbTable| == maxFreqs && |gpuTable[k].thermFloors| == maxRanges
      modifies GpuSelected()`maxMv, GpuSelected()`vtsTrips, gpuRail`nominalMv, gpuDvfs`speedoId, gpuDvfs`processId, gpuDvfs`freqsMult
      modifies gpuDvfs`fmaxAtVminSafeT, gpuDvfs.freqs, gpuVmin, gpuMillivolts, gpuPeakMillivolts
      ensures GpuTableInitialized(r, g)
    {
      g := GpuScan(p, [], 0, 0, 0, 0, 0, gpuRail.alignment, 1, [], [0], 0);
      var sel := FindMatchingEntry(GpuKeys(gpuTable), sku.gpuSpeedoId, sku.gpuProcessId);
      assert sel == GpuSelection();
      if sel.None? {
        return Halted, g;
      }
      var d := gpuTable[sel.value];
      r, g := SetGpuDvfsData(d.maxFreq, d);
      if !r.Built? {
        r := Halted;
      }
    }

    /** init_gpu_dvfs_table as tegra210_init_dvfs calls it (line 1355),
        once the CPU tables are built: it leaves the CPU rail, tables and
        arrays as they were. */
    method InitGpuDvfsTableApart() returns (r: BuildResult, ghost g: GpuScan)
      requires GpuArrays() && PeakRowShape(p) && 0 < maxRanges
      requires forall k :: 0 <= k < |gpuTable| ==>
                 |gpuTable[k].cvbTable| == maxFreqs && |gpuTable[k].thermFloors| == maxRanges
      modifies GpuSelected()`maxMv, GpuSelected()`vtsTrips, gpuRail`nominalMv, gpuDvfs`speedoId, gpuDvfs`processId, gpuDvfs`freqsMult
      modifies gpuDvfs`fmaxAtVminSafeT, gpuDvfs.freqs, gpuVmin, gpuMillivolts, gpuPeakMillivolts
      ensures GpuTableInitialized(r, g)
      ensures CpuApartFromGpu() ==>
                unchanged({cpuRail, cpuDvfs, cpuDvfs.freqs, cpuMillivolts, cpuDfllMillivolts, cpuLpDvfs, cpuLpDvfs.freqs, cpuLpMillivolts})
    {
      r, g := InitGpuDvfsTable();
    }

    // ---------------------------------------------------------------
    // tegra210_init_dvfs

    /** The core nominal index tegra210_init_dvfs uses: 0 when
        get_core_nominal_mv_index fails. */
    ghost function CoreNominalIndexUsed(): nat {
      var idx := GetCoreNominalMvIndex(coreMillivolts, sku);
      if idx < 0 then 0 else idx
    }

    /** The core-rail part of tegra210_init_dvfs (lines 1326-1337). It
        touches neither the CPU and GPU rails nor the characterization
        entries. */
    method InitCoreRail()
      requires |coreMillivolts| > 0 && coreRail != cpuRail && coreRail != gpuRail
      modifies this`coreDisabled, coreRail`disabled, coreRail`nominalMv, coreRail`minMv
      ensures unchanged(cpuRail, gpuRail)
      ensures unchanged(CpuSelected()`maxMv, LpSelected()`maxMv, GpuSelected()`maxMv, GpuSelected()`vtsTrips)
      ensures GetCoreNominalMvIndex(coreMillivolts, sku) < 0 ==> coreRail.disabled && coreDisabled
      ensures GetCoreNominalMvIndex(coreMillivolts, sku) >= 0 ==>
                coreRail.disabled == old(coreRail.disabled) && coreDisabled == old(coreDisabled)
      ensures coreRail.nominalMv == coreMillivolts[CoreNominalIndexUsed()]
      ensures coreRail.minMv == Max(old(coreRail.minMv), coreMillivolts[0])
    {
      var coreIndex := CoreNominalMvIndex();
      if coreIndex < 0 {
        coreRail.disabled := true;
        coreDisabled := true;
        coreIndex := 0;
      }
      coreRail.nominalMv := coreMillivolts[coreIndex];
      coreRail.minMv := Max(coreRail.minMv, coreMillivolts[0]);
    }

    /** The fast CPU table and arrays are not the slow CPU's. */
    ghost predicate FastApartFromSlow() {
      cpuDvfs != cpuLpDvfs
      && cpuDvfs.freqs != cpuLpDvfs.freqs && cpuDvfs.freqs != cpuLpMillivolts
      && cpuMillivolts != cpuLpDvfs.freqs && cpuMillivolts != cpuLpMillivolts
      && cpuDfllMillivolts != cpuLpDvfs.freqs && cpuDfllMillivolts != cpuLpMillivolts
    }

    /** The CPU rail, tables and arrays are not the GPU's. */
    ghost predicate CpuApartFromGpu() {
      cpuRail != gpuRail && cpuDvfs != gpuDvfs && cpuLpDvfs != gpuDvfs
      && cpuDvfs.freqs != gpuVmin && cpuDvfs.freqs != gpuPeakMillivolts && cpuDvfs.freqs != gpuDvfs.freqs
      && cpuMillivolts != gpuVmin && cpuMillivolts != gpuPeakMillivolts && cpuMillivolts != gpuDvfs.freqs
      && cpuDfllMillivolts != gpuVmin && cpuDfllMillivolts != gpuPeakMillivolts && cpuDfllMillivolts != gpuDvfs.freqs
      && cpuLpDvfs.freqs != gpuVmin && cpuLpDvfs.freqs != gpuPeakMillivolts && cpuLpDvfs.freqs != gpuDvfs.freqs
      && cpuLpMillivolts != gpuVmin && cpuLpMillivolts != gpuPeakMillivolts && cpuLpMillivolts != gpuDvfs.freqs
    }

    /** What the slow CPU and GPU builders need of the state: the shapes of
        their arrays and entries, and no rail, table or array of one is the
        other's. Valid() implies it. */
    ghost predicate LpGpuReady() {
      LpArrays() && GpuArrays() && PeakRowShape(p) && 0 < maxRanges
      && (forall k :: 0 <= k < |cpuLpTable| ==> |cpuLpTable[k].fvTable| == maxFreqs)
      && (forall k :: 0 <= k < |gpuTable| ==>
            |gpuTable[k].cvbTable| == maxFreqs && |gpuTable[k].thermFloors| == maxRanges)
      && FastApartFromSlow() && CpuApartFromGpu()
    }

    /** The slow CPU and GPU builders of tegra210_init_dvfs, run once the
        fast CPU table is built (lines 1347-1355): a halt of the slow CPU
        builder stops the boot before the GPU is built; otherwise the boot
        returns 0 exactly when the GPU table is built. The CPU rail's
        nominal voltage is raised to the slow CPU entry's maximum when that
        table is built. */
    method BuildLpAndGpuTables() returns (b: Boot, lp: BuildResult, gpu: BuildResult, ghost lc: LpCpuScan, ghost g: GpuScan)
      requires LpGpuReady()
      requires |cpuLpTable| > 0 ==> 0 <= sku.cpuSpeedoId < |cpuLpMaxFreq|
      modifies LpSelected()`maxMv, cpuRail`nominalMv, cpuLpDvfs, cpuLpDvfs.freqs, cpuLpMillivolts
      modifies GpuSelected()`maxMv, GpuSelected()`vtsTrips, gpuRail`nominalMv, gpuDvfs`speedoId, gpuDvfs`processId, gpuDvfs`freqsMult
      modifies gpuDvfs`fmaxAtVminSafeT, gpuDvfs.freqs, gpuVmin, gpuMillivolts, gpuPeakMillivolts
      ensures unchanged(cpuRail`minMv, cpuDvfs, cpuDvfs.freqs, cpuMillivolts, cpuDfllMillivolts)
      ensures LpTableInitialized(lp, lc)
      ensures cpuRail.nominalMv
              == if LpSelection().Some? && !lp.Halted? then Max(old(cpuRail.nominalMv), lc.maxMv)
                 else old(cpuRail.nominalMv)
      ensures !lp.Halted? ==> GpuTableInitialized(gpu, g)
      ensures lp.Halted? ==>
                gpu == Unmatched && unchanged(GpuSelected()`maxMv, GpuSelected()`vtsTrips)
                && unchanged(gpuRail`nominalMv, gpuDvfs, gpuDvfs.freqs, gpuVmin, gpuMillivolts, gpuPeakMillivolts)
      ensures b == Return(0) <==> !lp.Halted? && gpu.Built?
      ensures b != Return(0) ==> b == Halt
    {
      gpu := Unmatched;
      g := GpuScan(p, [], 0, 0, 0, 0, 0, gpuRail.alignment, 1, [], [0], 0);
      lp, lc := InitCpuLpDvfsTableApart();
      if lp.Halted? {
        return Halt, lp, gpu, lc, g;
      }
      gpu, g := InitGpuDvfsTableApart();
      b := if gpu.Halted? then Halt else Return(0);
    }

    /** The table builders of tegra210_init_dvfs (lines 1343-1355): the
        fast CPU, slow CPU and GPU tables in that order, with the scans
        they run (c, lc, g). A fast CPU error is returned before the other
        two are built; the slow CPU result is ignored unless it halted; any
        halt stops the boot. A builder that does not run reports Unmatched
        and leaves its state as it was. The CPU rail's nominal voltage ends
        as the fast CPU's, raised to the slow CPU entry's maximum when that
        table is built. The slow CPU builder reads cpu_lp_max_freq only
        once the fast CPU table is built (FastCpuBuilds). */
    method BuildDvfsTables(ladder: Option<DfllLadder>)
      returns (b: Boot, cpu: BuildResult, lp: BuildResult, gpu: BuildResult,
               ghost c: FastCpuScan, ghost lc: LpCpuScan, ghost g: GpuScan)
      requires CpuArrays() && CpuSelectionFits(ladder) && LpGpuReady() && CpuSelected() !! LpSelected()
      requires |cpuLpTable| > 0 && FastCpuBuilds(ladder) ==> 0 <= sku.cpuSpeedoId < |cpuLpMaxFreq|
      modifies CpuSelected()`maxMv, cpuRail`nominalMv, cpuDvfs, cpuDvfs.freqs, cpuMillivolts, cpuDfllMillivolts
      modifies LpSelected()`maxMv, cpuLpDvfs, cpuLpDvfs.freqs, cpuLpMillivolts
      modifies GpuSelected()`maxMv, GpuSelected()`vtsTrips, gpuRail`nominalMv, gpuDvfs`speedoId, gpuDvfs`processId, gpuDvfs`freqsMult
      modifies gpuDvfs`fmaxAtVminSafeT, gpuDvfs.freqs, gpuVmin, gpuMillivolts, gpuPeakMillivolts
      ensures CpuTableInitialized(ladder, cpu, c)
      ensures cpu.Built? <==> old(FastCpuBuilds(ladder))
      ensures cpu.Built? ==> LpTableInitialized(lp, lc)
      ensures cpu.Built? && !lp.Halted? ==> GpuTableInitialized(gpu, g)
      ensures cpu.Built? ==>
                cpuRail.nominalMv
                == if LpSelection().Some? && !lp.Halted? then Max(CpuNominal(c), lc.maxMv)
                   else CpuNominal(c)
      ensures cpu.Halted? ==> unchanged(CpuSelected()`maxMv)
      ensures !cpu.Built? ==>
                lp == Unmatched && cpuRail.nominalMv == old(cpuRail.nominalMv)
                && unchanged(LpSelected()`maxMv) && unchanged(cpuLpDvfs, cpuLpDvfs.freqs, cpuLpMillivolts)
      ensures !(cpu.Built? && !lp.Halted?) ==>
                gpu == Unmatched && unchanged(GpuSelected()`maxMv, GpuSelected()`vtsTrips)
                && unchanged(gpuRail`nominalMv, gpuDvfs, gpuDvfs.freqs, gpuVmin, gpuMillivolts, gpuPeakMillivolts)
      ensures cpu.Halted? ==> b == Halt
      ensures cpu.Failed? ==> b == Return(cpu.ret)
      ensures cpu.Built? && lp.Halted? ==> b == Halt
      ensures cpu.Built? && !lp.Halted? ==> b == (if gpu.Built? then Return(0) else Halt)
      ensures b == Return(0) <==> cpu.Built? && !lp.Halted? && gpu.Built?
    {
      lp, gpu := Unmatched, Unmatched;
      lc := LpCpuScan([], 0, 0, 0);
      g := GpuScan(p, [], 0, 0, 0, 0, 0, gpuRail.alignment, 1, [], [0], 0);
      cpu, c := InitCpuDvfsTableApart(ladder);
      if cpu.Halted? {
        return Halt, cpu, lp, gpu, c, lc, g;
      } else if cpu.Failed? {
        return Return(cpu.ret), cpu, lp, gpu, c, lc, g;
      }
      b, lp, gpu, lc, g := BuildLpAndGpuTables();
    }

    /** tegra210_init_dvfs up to the registration of the tables: the core
        rail first (InitCoreRail), then the table builders
        (BuildDvfsTables), whose outcome decides the boot's. */
    method InitDvfs(ladder: Option<DfllLadder>)
      returns (b: Boot, cpu: BuildResult, lp: BuildResult, gpu: BuildResult,
               ghost c: FastCpuScan, ghost lc: LpCpuScan, ghost g: GpuScan)
      requires Valid() && CpuSelectionFits(ladder)
      requires |cpuLpTable| > 0 && FastCpuBuilds(ladder) ==> 0 <= sku.cpuSpeedoId < |cpuLpMaxFreq|
      modifies this`coreDisabled, coreRail`disabled, coreRail`nominalMv, coreRail`minMv
      modifies CpuSelected()`maxMv, cpuRail`nominalMv, cpuDvfs, cpuDvfs.freqs, cpuMillivolts, cpuDfllMillivolts
      modifies LpSelected()`maxMv, cpuLpDvfs, cpuLpDvfs.freqs, cpuLpMillivolts
      modifies GpuSelected()`maxMv, GpuSelected()`vtsTrips, gpuRail`nominalMv, gpuDvfs`speedoId, gpuDvfs`processId, gpuDvfs`freqsMult
      modifies gpuDvfs`fmaxAtVminSafeT, gpuDvfs.freqs, gpuVmin, gpuMillivolts, gpuPeakMillivolts
      ensures GetCoreNominalMvIndex(coreMillivolts, sku) < 0 ==> coreRail.disabled && coreDisabled
      ensures GetCoreNominalMvIndex(coreMillivolts, sku) >= 0 ==>
                coreRail.disabled == old(coreRail.disabled) && coreDisabled == old(coreDisabled)
      ensures coreRail.nominalMv == coreMillivolts[CoreNominalIndexUsed()]
      ensures coreRail.minMv == Max(old(coreRail.minMv), coreMillivolts[0])
      ensures CpuTableInitialized(ladder, cpu, c)
      ensures cpu.Built? <==> old(FastCpuBuilds(ladder))
      ensures cpu.Built? ==> LpTableInitialized(lp, lc)
      ensures cpu.Built? && !lp.Halted? ==> GpuTableInitialized(gpu, g)
      ensures cpu.Built? ==>
                cpuRail.nominalMv
                == if LpSelection().Some? && !lp.Halted? then Max(CpuNominal(c), lc.maxMv)
                   else CpuNominal(c)
      ensures cpu.Halted? ==> unchanged(CpuSelected()`maxMv)
      ensures !cpu.Built? ==>
                lp == Unmatched && cpuRail.nominalMv == old(cpuRail.nominalMv)
                && unchanged(LpSelected()`maxMv) && unchanged(cpuLpDvfs, cpuLpDvfs.freqs, cpuLpMillivolts)
      ensures !(cpu.Built? && !lp.Halted?) ==>
                gpu == Unmatched && unchanged(GpuSelected()`maxMv, GpuSelected()`vtsTrips)
                && unchanged(gpuRail`nominalMv, gpuDvfs, gpuDvfs.freqs, gpuVmin, gpuMillivolts, gpuPeakMillivolts)
      ensures cpu.Failed? ==> b == Return(cpu.ret)
      ensures !cpu.Failed? && b != Return(0) ==> b == Halt
      ensures b == Return(0) <==> cpu.Built? && !lp.Halted? && gpu.Built?
    {
      InitCoreRail();
      b, cpu, lp, gpu, c, lc, g := BuildDvfsTables(ladder);
    }
  }
}
