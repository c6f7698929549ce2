/** What set_cpu_dvfs_data (fast CPU cluster) and set_cpu_lp_dvfs_data
    (slow CPU cluster) compute, as functions of their inputs. The engine's
    methods are proved to leave exactly these values in the tables. */
module CpuTable {
  import opened Common

  /** The DFLL's frequency ladder (Hz) with the DFLL voltage (uV) at each
      rate, as tegra_get_cpu_fv_table hands them out. */
  datatype DfllLadder = DfllLadder(freqs: seq<nat>, microvolts: seq<int>)

  /** The inputs of the loop of set_cpu_dvfs_data, once the DFLL minimum
      voltage and the entry's maximum voltage are on the rail grid. */
  datatype FastCpuScan = FastCpuScan(ladder: DfllLadder, fv: seq<FvPoint>, maxFreq: nat, minDfllMv: int, maxMv: int)
  {
    /** The ladder has one voltage per rate, no more rates than the PLL
        table has entries, and positive rates. */
    predicate Valid() {
      |ladder.freqs| == |ladder.microvolts| <= |fv|
      && forall k :: 0 <= k < |ladder.freqs| ==> ladder.freqs[k] > 0
    }

    /** num_freqs */
    function N(): nat {
      |ladder.freqs|
    }

    /** The DFLL rate at index k is not the PLL table's frequency. */
    predicate Mismatch(k: nat)
      requires Valid() && k < N()
    {
      Khz(ladder.freqs[k]) != fv[k].freq
    }

    /** The PLL table's frequency at index k is above the SKU maximum. */
    predicate Cut(k: nat)
      requires Valid() && k < N()
    {
      fv[k].freq > maxFreq
    }

    /** The loop leaves at index k: by an error return or by the cut. */
    predicate StopsAt(k: nat)
      requires Valid() && k < N()
    {
      Mismatch(k) || Cut(k) || (k == 0 && fv[0].volt > maxMv)
    }

    /** dfll_mv at index k: the DFLL voltage in mV, raised to the minimum. */
    function DfllMv(k: nat): (mv: int)
      requires Valid() && k < N()
      ensures mv >= minDfllMv
    {
      Max(DivTrunc(ladder.microvolts[k], 1000), minDfllMv)
    }

    /** cpu_dfll_millivolts[k]: the DFLL voltage clipped to the maximum. */
    function StoredDfllMv(k: nat): (mv: int)
      requires Valid() && k < N()
      ensures mv <= maxMv
      ensures minDfllMv <= maxMv ==> minDfllMv <= mv
      ensures mv == maxMv || mv == DfllMv(k)
    {
      Min(DfllMv(k), maxMv)
    }

    /** The first index at or after i where the loop leaves, or N(). */
    function StopFrom(i: nat): (s: nat)
      requires Valid() && i <= N()
      ensures i <= s <= N()
      ensures forall k :: i <= k < s ==> !StopsAt(k)
      ensures s < N() ==> StopsAt(s)
      decreases N() - i
    {
      if i == N() then i
      else if StopsAt(i) then i
      else StopFrom(i + 1)
    }

    /** The number of entries the loop fills in, whatever its outcome:
        each of them agrees with the DFLL ladder and is within the SKU
        maximum frequency. */
    function Stop(): (s: nat)
      requires Valid()
      ensures s <= N()
      ensures forall k :: 0 <= k < s ==> Khz(ladder.freqs[k]) == fv[k].freq && fv[k].freq <= maxFreq
      ensures s > 0 ==> fv[0].volt <= maxMv
    {
      var s := StopFrom(0);
      assert forall k :: 0 <= k < s ==> Khz(ladder.freqs[k]) == fv[k].freq && fv[k].freq <= maxFreq by {
        forall k | 0 <= k < s
          ensures Khz(ladder.freqs[k]) == fv[k].freq && fv[k].freq <= maxFreq
        {
          assert !StopsAt(k);
        }
      }
      s
    }

    /** The loop ends with at least one entry filled in, unless it returns
        an error first; otherwise line 841 reads index -1. */
    predicate Defined()
      requires Valid()
    {
      N() > 0 && (Mismatch(0) || !Cut(0))
    }

    /** The value set_cpu_dvfs_data returns once the DFLL ladder is there. */
    function Outcome(): (r: BuildResult)
      requires Valid() && Defined()
      ensures r.Built? || r == Failed(-EINVAL)
      ensures r.Built? ==> r.maxFreqIndex + 1 == Stop()
      ensures r.Built? ==> Stop() == N() || Cut(Stop())
    {
      var s := Stop();
      if s < N() && (Mismatch(s) || !Cut(s)) then Failed(-EINVAL) else Built(s - 1)
    }

    /** fmax_at_vmin once the loop has handled the entries before s (lines
        808-813): set at the first entry whose DFLL voltage is above the
        minimum, to the rate before it (the first rate if that is entry 0),
        and kept from then on. */
    function FmaxAtVmin(s: nat): nat
      requires Valid() && s <= N()
    {
      if s == 0 then 0
      else
        var f := FmaxAtVmin(s - 1);
        if DfllMv(s - 1) > minDfllMv && f == 0 then (if s == 1 then ladder.freqs[0] else ladder.freqs[s - 2])
        else f
    }

    /** fmin_use_dfll once the loop has handled the entries before s (lines
        822-823): set at the first entry whose PLL voltage reaches the DFLL
        minimum, to that entry's rate, and kept from then on. */
    function FminUseDfll(s: nat): nat
      requires Valid() && s <= N()
    {
      if s == 0 then 0
      else
        var f := FminUseDfll(s - 1);
        if fv[s - 1].volt >= minDfllMv && f == 0 then ladder.freqs[s - 1] else f
    }

    /** use_dfll_rate_min after lines 834-835: the lowest rate at which the
        PLL voltage reaches the DFLL minimum, but never above fmax_at_vmin. */
    function UseDfllRateMin(s: nat): (f: nat)
      requires Valid() && s <= N()
      ensures f <= FmaxAtVmin(s)
    {
      var fmin := FminUseDfll(s);
      var fmax := FmaxAtVmin(s);
      if fmin == 0 || fmin > fmax then fmax else fmin
    }

    /** The CPU rail's nominal voltage from the last of s filled entries. */
    function Nominal(s: nat): (mv: int)
      requires Valid() && 0 < s <= N()
      ensures mv <= maxMv
      ensures mv >= Min(maxMv, fv[s - 1].volt)
      ensures mv == maxMv || mv == fv[s - 1].volt || mv == StoredDfllMv(s - 1)
    {
      Min(maxMv, Max(fv[s - 1].volt, StoredDfllMv(s - 1)))
    }
  }

  /** The first index where the loop leaves is the value of Stop(). */
  lemma StopIsFirst(c: FastCpuScan, i: nat)
    requires c.Valid() && i <= c.N()
    requires forall k :: 0 <= k < i ==> !c.StopsAt(k)
    requires i == c.N() || c.StopsAt(i)
    ensures c.Stop() == i
  {
  }

  /** A disagreement between the DFLL ladder and the PLL table is fatal at
      the first index the loop reaches, even where that entry would be cut
      by the SKU maximum: the comparison comes before the cut. */
  lemma LadderMismatchIsFatal(c: FastCpuScan, k: nat)
    requires c.Valid() && c.Defined() && k < c.N()
    requires c.Mismatch(k)
    requires forall j :: 0 <= j < k ==> !c.Mismatch(j) && !c.Cut(j)
    requires k > 0 ==> c.fv[0].volt <= c.maxMv
    ensures c.Outcome() == Failed(-EINVAL)
  {
    assert c.StopsAt(k);
    assert forall j :: 0 <= j < k ==> !c.StopsAt(j);
    assert c.Stop() == k;
  }

  /** A first entry whose voltage is above the maximum is fatal, unless it
      is already cut by the SKU maximum frequency or disagrees with the
      DFLL ladder (both checked before). */
  lemma FirstEntryAboveVmaxIsFatal(c: FastCpuScan)
    requires c.Valid() && c.Defined()
    requires c.fv[0].volt > c.maxMv
    ensures c.Outcome() == Failed(-EINVAL)
  {
    assert c.StopsAt(0);
    assert c.Stop() == 0;
  }

  /** Success exactly when no entry before the cut disagrees with the
      ladder and the first entry is within the maximum voltage. */
  lemma {:induction false} FastCpuSucceedsIff(c: FastCpuScan)
    requires c.Valid() && c.Defined()
    ensures c.Outcome().Built? <==>
              c.fv[0].volt <= c.maxMv
              && forall k :: 0 <= k < c.N() && (forall j :: 0 <= j < k ==> !c.Cut(j)) ==> !c.Mismatch(k)
  {
    var s := c.Stop();
    if c.Outcome().Built? {
      assert s > 0;
      forall k | 0 <= k < c.N() && (forall j :: 0 <= j < k ==> !c.Cut(j))
        ensures !c.Mismatch(k)
      {
        if k >= s {
          assert c.Cut(s);
        }
      }
    } else if c.fv[0].volt <= c.maxMv {
      assert forall j :: 0 <= j < s ==> !c.Cut(j);
    }
  }

  /** fmax_at_vmin stays 0 exactly while every DFLL voltage seen is at the
      minimum. */
  lemma {:induction false} FmaxAtVminZeroIff(c: FastCpuScan, s: nat)
    requires c.Valid() && s <= c.N()
    ensures c.FmaxAtVmin(s) == 0 <==> forall k :: 0 <= k < s ==> c.DfllMv(k) == c.minDfllMv
  {
    if s > 0 {
      FmaxAtVminZeroIff(c, s - 1);
    }
  }

  /** fmax_at_vmin is the rate before the first entry whose DFLL voltage is
      above the minimum, or the first rate if that is entry 0: up to it the
      DFLL runs at its minimum voltage. */
  lemma {:induction false} FmaxAtVminIsLastRateAtVmin(c: FastCpuScan, s: nat, a: nat)
    requires c.Valid() && s <= c.N()
    requires a < s && c.DfllMv(a) > c.minDfllMv
    requires forall k :: 0 <= k < a ==> c.DfllMv(k) == c.minDfllMv
    ensures c.FmaxAtVmin(s) == if a == 0 then c.ladder.freqs[0] else c.ladder.freqs[a - 1]
  {
    if s == a + 1 {
      FmaxAtVminZeroIff(c, a);
    } else {
      FmaxAtVminIsLastRateAtVmin(c, s - 1, a);
    }
  }

  /** fmin_use_dfll stays 0 exactly while every PLL voltage seen is below
      the DFLL minimum. */
  lemma {:induction false} FminUseDfllZeroIff(c: FastCpuScan, s: nat)
    requires c.Valid() && s <= c.N()
    ensures c.FminUseDfll(s) == 0 <==> forall k :: 0 <= k < s ==> c.fv[k].volt < c.minDfllMv
  {
    if s > 0 {
      FminUseDfllZeroIff(c, s - 1);
    }
  }

  /** fmin_use_dfll is the rate of the first entry whose PLL voltage reaches
      the DFLL minimum. */
  lemma {:induction false} FminUseDfllIsFirstPllAtDfllVmin(c: FastCpuScan, s: nat, b: nat)
    requires c.Valid() && s <= c.N()
    requires b < s && c.fv[b].volt >= c.minDfllMv
    requires forall k :: 0 <= k < b ==> c.fv[k].volt < c.minDfllMv
    ensures c.FminUseDfll(s) == c.ladder.freqs[b]
  {
    if s == b + 1 {
      FminUseDfllZeroIff(c, b);
    } else {
      FminUseDfllIsFirstPllAtDfllVmin(c, s - 1, b);
    }
  }

  /** The DFLL crossover: when some filled entry's PLL voltage reaches the
      DFLL minimum, use_dfll_rate_min is the smaller of the first such rate
      and fmax_at_vmin. */
  lemma CrossoverIsFirstPllAtDfllVmin(c: FastCpuScan, s: nat, b: nat)
    requires c.Valid() && s <= c.N()
    requires b < s && c.fv[b].volt >= c.minDfllMv
    requires forall k :: 0 <= k < b ==> c.fv[k].volt < c.minDfllMv
    ensures c.UseDfllRateMin(s) == Min(c.ladder.freqs[b], c.FmaxAtVmin(s))
  {
    FminUseDfllIsFirstPllAtDfllVmin(c, s, b);
  }

  /** When no filled entry's PLL voltage reaches the DFLL minimum,
      use_dfll_rate_min falls back to fmax_at_vmin. */
  lemma CrossoverFallsBackToFmax(c: FastCpuScan, s: nat)
    requires c.Valid() && s <= c.N()
    requires forall k :: 0 <= k < s ==> c.fv[k].volt < c.minDfllMv
    ensures c.UseDfllRateMin(s) == c.FmaxAtVmin(s)
  {
    FminUseDfllZeroIff(c, s);
  }

  /** The source stores PLL voltages above the rounded maximum for every
      entry but the first: only entry 0 is checked against it (line 815),
      and the rail nominal is clipped instead. */
  lemma PllVoltageAboveVmaxIsStored()
    ensures var c := FastCpuScan(DfllLadder([1000, 2000], [800000, 800000]),
                                 [FvPoint(1, 900), FvPoint(2, 1300)], 10, 800, 1200);
            c.Valid() && c.Defined() && c.Outcome() == Built(1)
            && c.fv[1].volt > c.maxMv && c.Nominal(2) == c.maxMv
  {
    var c := FastCpuScan(DfllLadder([1000, 2000], [800000, 800000]),
                         [FvPoint(1, 900), FvPoint(2, 1300)], 10, 800, 1200);
    assert !c.StopsAt(0) && !c.StopsAt(1);
    assert c.StopFrom(2) == 2;
    assert c.Stop() == 2;
  }

  /** A three-point PLL table (100, 200, 300 MHz at 900, 950, 1000 mV) with
      a 250 MHz SKU maximum keeps two points, and the nominal voltage is
      950 mV, not 1000 mV. */
  lemma CutAtSkuMaxFrequency()
    ensures var c := FastCpuScan(DfllLadder([100000, 200000, 300000], [900000, 900000, 900000]),
                                 [FvPoint(100, 900), FvPoint(200, 950), FvPoint(300, 1000)], 250, 900, 1200);
            c.Valid() && c.Defined() && c.Outcome() == Built(1) && c.Nominal(2) == 950
  {
    var c := FastCpuScan(DfllLadder([100000, 200000, 300000], [900000, 900000, 900000]),
                         [FvPoint(100, 900), FvPoint(200, 950), FvPoint(300, 1000)], 250, 900, 1200);
    assert !c.StopsAt(0) && !c.StopsAt(1) && c.StopsAt(2);
    assert c.Stop() == 2;
  }

  /** A DFLL rate of 305 MHz against a PLL entry of 300 MHz at index 2 is a
      data-consistency fault. */
  lemma LadderDisagreementAtIndexTwo()
    ensures var c := FastCpuScan(DfllLadder([100000, 200000, 305000], [900000, 900000, 900000]),
                                 [FvPoint(100, 900), FvPoint(200, 950), FvPoint(300, 1000)], 2000, 900, 1200);
            c.Valid() && c.Defined() && c.Outcome() == Failed(-EINVAL)
  {
    var c := FastCpuScan(DfllLadder([100000, 200000, 305000], [900000, 900000, 900000]),
                         [FvPoint(100, 900), FvPoint(200, 950), FvPoint(300, 1000)], 2000, 900, 1200);
    LadderMismatchIsFatal(c, 2);
  }

  /** The inputs of the loop of set_cpu_lp_dvfs_data, once the minimum and
      maximum voltages are on the rail grid. */
  datatype LpCpuScan = LpCpuScan(fv: seq<FvPoint>, maxFreq: nat, minMv: int, maxMv: int)
  {
    /** cpu_lp_millivolts[k]: the PLL voltage raised to the minimum. */
    function StoredMv(k: nat): (mv: int)
      requires k < |fv|
      ensures mv >= minMv && mv >= fv[k].volt
      ensures mv == minMv || mv == fv[k].volt
    {
      Max(fv[k].volt, minMv)
    }

    /** The loop leaves at index k: end of table, above the SKU maximum
        frequency, or a voltage above the limit. */
    predicate StopsAt(k: nat)
      requires k < |fv|
    {
      fv[k].freq == 0 || fv[k].freq > maxFreq || StoredMv(k) > maxMv
    }

    function StopFrom(i: nat): (s: nat)
      requires i <= |fv|
      ensures i <= s <= |fv|
      ensures forall k :: i <= k < s ==> !StopsAt(k)
      ensures s < |fv| ==> StopsAt(s)
      decreases |fv| - i
    {
      if i == |fv| then i
      else if StopsAt(i) then i
      else StopFrom(i + 1)
    }

    /** The number of entries filled in: each has a nonzero frequency
        within the SKU maximum and a voltage within [minMv, maxMv]. */
    function Stop(): (s: nat)
      ensures s <= |fv|
      ensures forall k :: 0 <= k < s ==>
                0 < fv[k].freq <= maxFreq && minMv <= StoredMv(k) <= maxMv
    {
      var s := StopFrom(0);
      assert forall k :: 0 <= k < s ==> 0 < fv[k].freq <= maxFreq && minMv <= StoredMv(k) <= maxMv by {
        forall k | 0 <= k < s
          ensures 0 < fv[k].freq <= maxFreq && minMv <= StoredMv(k) <= maxMv
        {
          assert !StopsAt(k);
        }
      }
      s
    }

    /** The value set_cpu_lp_dvfs_data returns once past its BUG_ON. */
    function Outcome(): (r: BuildResult)
      ensures r.Built? || r == Failed(-ENOENT)
      ensures r.Failed? <==> Stop() == 0
      ensures r.Built? ==> r.maxFreqIndex + 1 == Stop()
    {
      var s := Stop();
      if s == 0 then Failed(-ENOENT) else Built(s - 1)
    }
  }

  /** The first index where the slow-CPU loop leaves is the value of Stop(). */
  lemma LpStopIsFirst(c: LpCpuScan, i: nat)
    requires i <= |c.fv|
    requires forall k :: 0 <= k < i ==> !c.StopsAt(k)
    requires i == |c.fv| || c.StopsAt(i)
    ensures c.Stop() == i
  {
  }

  /** The first voltage above the limit ends the table: nothing at or after
      it is kept, even if later entries would fit again. */
  lemma {:induction false} LpTruncatesAtFirstOverLimit(c: LpCpuScan, k: nat)
    requires k < |c.fv| && c.StoredMv(k) > c.maxMv
    requires forall j :: 0 <= j < k ==> !c.StopsAt(j)
    ensures c.Stop() == k
    ensures k == 0 ==> c.Outcome() == Failed(-ENOENT)
  {
    assert c.StopsAt(k);
  }

  /** With the rounded minimum at or above the rail minimum and the rounded
      maximum at or below the rail maximum (the BUG_ON of line 874), every
      slow-CPU voltage lies within the rail's bounds. */
  lemma LpVoltagesWithinRail(c: LpCpuScan, railMin: int, railMax: int, k: nat)
    requires railMin <= c.minMv && c.maxMv <= railMax
    requires k < c.Stop()
    ensures railMin <= c.StoredMv(k) <= railMax
  {
  }
}
