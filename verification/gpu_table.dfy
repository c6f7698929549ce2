/** What set_gpu_dvfs_data computes: the [thermal range][frequency] voltage
    matrix built from CVB data, and the two summary scans over it,
    find_gpu_vmin_at_fmax and find_gpu_fmax_at_vmin. */
module GpuTable {
  import opened Common

  /** The inputs of the frequency loop of set_gpu_dvfs_data: the CVB table,
      the SKU maximum frequency, the chip's GPU speedo value, the entry's
      scales, the rail grid, the number of thermal ranges with their trip
      points, the per-range floors already rounded (gpu_vmin) and the
      rounded maximum voltage. */
  datatype GpuScan = GpuScan(
    p: Platform, cvb: seq<CvbEntry>, maxFreq: nat,
    speedo: int, speedoScale: int, thermalScale: int, voltageScale: int,
    align: Alignment, ranges: nat, trips: seq<int>, vmin: seq<int>, maxMv: int)
  {
    /** At least one range, a floor per range and, with more than one
        range, a trip point per range. */
    predicate Valid() {
      1 <= ranges && ranges <= |vmin| && (ranges > 1 ==> ranges <= |trips|)
    }

    /** The temperature the thermal offset of range j is taken at: its trip
        point, or 0 when there is a single range. */
    function TripPoint(j: nat): int
      requires Valid() && j < ranges
    {
      if ranges > 1 then trips[j] else 0
    }

    /** mvj of range j at CVB row i: the CVB voltage plus the thermal offset
        at the range's trip point, rounded onto the grid and raised to the
        range's floor. */
    function RangeMv(i: nat, j: nat): (mv: int)
      requires Valid() && i < |cvb| && j < ranges
      ensures mv >= vmin[j]
    {
      var base := p.cvbVoltage(speedo, speedoScale, cvb[i].pll);
      var mvj := base + p.cvbThermalVoltage(speedo, speedoScale, TripPoint(j), thermalScale, cvb[i].pll);
      Max(p.roundCvbVoltage(mvj, voltageScale, align), vmin[j])
    }

    /** The first range at or after `from` whose voltage at row i is above
        the maximum, or `ranges`. */
    function FitFrom(i: nat, from: nat): (r: nat)
      requires Valid() && i < |cvb| && from <= ranges
      ensures from <= r <= ranges
      ensures forall j :: from <= j < r ==> RangeMv(i, j) <= maxMv
      ensures r < ranges ==> RangeMv(i, r) > maxMv
      decreases ranges - from
    {
      if from == ranges then from
      else if RangeMv(i, from) > maxMv then from
      else FitFrom(i, from + 1)
    }

    /** The number of ranges the inner loop writes at row i. */
    function Fit(i: nat): (r: nat)
      requires Valid() && i < |cvb|
      ensures r <= ranges
      ensures forall j :: 0 <= j < r ==> RangeMv(i, j) <= maxMv
      ensures r < ranges ==> RangeMv(i, r) > maxMv
    {
      FitFrom(i, 0)
    }

    /** Row i ends the table: unset, or above the SKU maximum frequency. */
    predicate EndOfTable(i: nat)
      requires i < |cvb|
    {
      cvb[i].freq == 0 || cvb[i].freq > maxFreq
    }

    /** The outer loop leaves at row i: end of table, or some range above
        the maximum voltage. */
    predicate StopsAt(i: nat)
      requires Valid() && i < |cvb|
    {
      EndOfTable(i) || Fit(i) < ranges
    }

    function StopFrom(i: nat): (s: nat)
      requires Valid() && i <= |cvb|
      ensures i <= s <= |cvb|
      ensures forall k :: i <= k < s ==> !StopsAt(k)
      ensures s < |cvb| ==> StopsAt(s)
      decreases |cvb| - i
    {
      if i == |cvb| then i
      else if StopsAt(i) then i
      else StopFrom(i + 1)
    }

    /** The number of frequencies retained: a frequency is kept only when
        every thermal range fits under the maximum voltage. */
    function Stop(): (s: nat)
      requires Valid()
      ensures s <= |cvb|
      ensures forall i :: 0 <= i < s ==> 0 < cvb[i].freq <= maxFreq && Fit(i) == ranges
      ensures s < |cvb| ==> EndOfTable(s) || Fit(s) < ranges
    {
      var s := StopFrom(0);
      assert forall i :: 0 <= i < s ==> 0 < cvb[i].freq <= maxFreq && Fit(i) == ranges by {
        forall i | 0 <= i < s
          ensures 0 < cvb[i].freq <= maxFreq && Fit(i) == ranges
        {
          assert !StopsAt(i);
        }
      }
      s
    }

    /** The columns the loop writes into: those of the retained frequencies
        and, when a range ended the table, the column where it did. */
    function Written(): (w: nat)
      requires Valid()
      ensures Stop() <= w <= |cvb|
      ensures w > Stop() ==> !EndOfTable(Stop()) && Fit(Stop()) < ranges
      ensures w <= Stop() + 1
      ensures Stop() < |cvb| && !EndOfTable(Stop()) ==> w == Stop() + 1
    {
      var s := Stop();
      if s < |cvb| && !EndOfTable(s) then s + 1 else s
    }

    /** The voltages of all ranges at CVB row i, before adjacent ranges are
        raised. */
    function RawColumn(i: nat): (col: seq<int>)
      requires Valid() && i < |cvb|
      ensures |col| == ranges
      ensures forall j :: 0 <= j < ranges ==> col[j] == RangeMv(i, j)
    {
      seq(ranges, j requires 0 <= j < ranges => RangeMv(i, j))
    }

    /** gpu_millivolts[j][i] once the inner loop has handled row i, for a
        range j it wrote: within the range's floor and the maximum voltage. */
    function Cell(i: nat, j: nat): (mv: int)
      requires Valid() && i < |cvb| && j < Fit(i)
      ensures vmin[j] <= mv <= maxMv
      ensures mv >= RangeMv(i, j)
    {
      ColumnCell(RawColumn(i), j, Fit(i))
    }

    /** The value set_gpu_dvfs_data returns, given the verdict of the
        thermal DVFS helper on the matrix. */
    function Outcome(thermalErr: bool): (r: BuildResult)
      requires Valid()
      ensures r.Built? || r == Failed(-ENOENT)
      ensures r.Built? <==> !thermalErr && Stop() > 0
      ensures r.Built? ==> r.maxFreqIndex + 1 == Stop()
    {
      if thermalErr || Stop() == 0 then Failed(-ENOENT) else Built(Stop() - 1)
    }
  }

  /** A column of `raw` range voltages after the inner loop has written its
      first `written` ranges: writing range j raises range j - 1 to at least
      the same value, and nothing further down. */
  function ColumnCell(raw: seq<int>, j: nat, written: nat): (mv: int)
    requires j < written <= |raw|
    ensures mv >= raw[j]
    ensures j + 1 < written ==> mv >= raw[j + 1]
    ensures mv == raw[j] || (j + 1 < written && mv == raw[j + 1])
  {
    if j + 1 < written then Max(raw[j], raw[j + 1]) else raw[j]
  }

  /** The first range of row i above the maximum is the value of Fit(i). */
  lemma FitIsFirst(g: GpuScan, i: nat, j: nat)
    requires g.Valid() && i < |g.cvb| && j <= g.ranges
    requires forall t :: 0 <= t < j ==> g.RangeMv(i, t) <= g.maxMv
    requires j == g.ranges || g.RangeMv(i, j) > g.maxMv
    ensures g.Fit(i) == j
  {
  }

  /** The first row where the outer loop leaves is the value of Stop(). */
  lemma GpuStopIsFirst(g: GpuScan, i: nat)
    requires g.Valid() && i <= |g.cvb|
    requires forall k :: 0 <= k < i ==> !g.StopsAt(k)
    requires i == |g.cvb| || g.StopsAt(i)
    ensures g.Stop() == i
  {
  }

  /** Writing range j raises range j - 1 at the same frequency to at least
      the same value. */
  lemma AdjacentRangeRaised(g: GpuScan, i: nat, j: nat)
    requires g.Valid() && i < |g.cvb| && 0 < j < g.Fit(i)
    ensures g.Cell(i, j - 1) >= g.RangeMv(i, j)
  {
  }

  /** With at most two thermal ranges, the colder range is never below the
      warmer one at a retained frequency. */
  lemma {:induction false} TwoRangesOrdered(g: GpuScan, i: nat)
    requires g.Valid() && g.ranges == 2 && i < g.Stop()
    ensures g.Cell(i, 0) >= g.Cell(i, 1)
  {
    assert g.Fit(i) == 2;
    var col := g.RawColumn(i);
    assert g.Cell(i, 1) == col[1];
  }

  /** The raise does not cascade: with three ranges, a high warm voltage
      lifts the middle range above the coldest one. */
  lemma RaiseDoesNotCascade()
    ensures ColumnCell([900, 900, 1000], 0, 3) == 900
    ensures ColumnCell([900, 900, 1000], 1, 3) == 1000
  {
  }

  /** A range's floor wins over a lower CVB voltage: with a 900 mV floor
      and an 850 mV rounded CVB voltage the range gets 900 mV. */
  lemma {:induction false} FloorApplied(g: GpuScan, i: nat, j: nat)
    requires g.Valid() && i < |g.cvb| && j < g.ranges
    requires g.vmin[j] == 900
    requires g.p.roundCvbVoltage(
               g.p.cvbVoltage(g.speedo, g.speedoScale, g.cvb[i].pll)
               + g.p.cvbThermalVoltage(g.speedo, g.speedoScale, g.TripPoint(j), g.thermalScale, g.cvb[i].pll),
               g.voltageScale, g.align) == 850
    ensures g.RangeMv(i, j) == 900
  {
  }

  /** Row j of a matrix as a sequence. */
  function MatrixRow(m: array2<int>, j: nat): (row: seq<int>)
    reads m
    requires j < m.Length0
    ensures |row| == m.Length1
    ensures forall i :: 0 <= i < m.Length1 ==> row[i] == m[j, i]
  {
    seq(m.Length1, i requires 0 <= i < m.Length1 reads m => m[j, i])
  }

  /** The whole matrix as rows, as the thermal DVFS helper receives it. */
  function MatrixRows(m: array2<int>): (rows: seq<seq<int>>)
    reads m
    ensures |rows| == m.Length0
  {
    seq(m.Length0, j requires 0 <= j < m.Length0 reads m => MatrixRow(m, j))
  }

  /** find_gpu_vmin_at_fmax: the highest voltage in column c (the last
      retained frequency) across the first `ranges` ranges, never below 0,
      where the scan starts. */
  function GpuVminAtFmax(m: array2<int>, ranges: nat, c: nat): int
    reads m
    requires ranges <= m.Length0 && c < m.Length1
  {
    if ranges == 0 then 0 else Max(GpuVminAtFmax(m, ranges - 1, c), m[ranges - 1, c])
  }

  /** GpuVminAtFmax is the maximum of column c over the ranges, or 0 when
      that is higher: an upper bound of each entry, never negative, and
      one of the entries unless it is 0. */
  lemma {:induction false} GpuVminAtFmaxIsMaximum(m: array2<int>, ranges: nat, c: nat)
    requires ranges <= m.Length0 && c < m.Length1
    ensures GpuVminAtFmax(m, ranges, c) >= 0
    ensures forall j :: 0 <= j < ranges ==> m[j, c] <= GpuVminAtFmax(m, ranges, c)
    ensures GpuVminAtFmax(m, ranges, c) == 0 || exists j :: 0 <= j < ranges && GpuVminAtFmax(m, ranges, c) == m[j, c]
  {
    if ranges > 0 {
      GpuVminAtFmaxIsMaximum(m, ranges - 1, c);
    }
  }

  /** The first index at or after i (i >= 1) where `row` rises above its
      first entry, or n. */
  function RiseFrom(row: seq<int>, n: nat, i: nat): (k: nat)
    requires 0 < i <= n <= |row|
    ensures i <= k <= n
    ensures forall t :: i <= t < k ==> row[t] <= row[0]
    ensures k < n ==> row[k] > row[0]
    decreases n - i
  {
    if i == n then n
    else if row[i] > row[0] then i
    else RiseFrom(row, n, i + 1)
  }

  /** The first index at or after 1 where `row` rises is the value of
      RiseFrom. */
  lemma RiseIsFirst(row: seq<int>, n: nat, i: nat)
    requires 0 < i <= n <= |row|
    requires forall t :: 1 <= t < i ==> row[t] <= row[0]
    requires i == n || row[i] > row[0]
    ensures RiseFrom(row, n, 1) == i
  {
  }

  /** The last index of the initial run of `row` (among its first n
      entries) whose voltage stays at the first entry's or below. */
  function RunEnd(row: seq<int>, n: nat): (k: nat)
    requires 0 < n <= |row|
    ensures k < n
    ensures forall t :: 1 <= t <= k ==> row[t] <= row[0]
    ensures k + 1 == n || row[k + 1] > row[0]
  {
    RiseFrom(row, n, 1) - 1
  }

  /** The rate at the end of row j's run at its lowest voltage. */
  function RowFmax(m: array2<int>, freqs: array<int>, j: nat, n: nat): int
    reads m, freqs
    requires j < m.Length0 && 0 < n <= m.Length1 && n <= freqs.Length
  {
    freqs[RunEnd(MatrixRow(m, j), n)]
  }

  /** The minimum of RowFmax over the first `ranges` rows; ULONG_MAX for
      no rows. */
  function FmaxOverRanges(m: array2<int>, freqs: array<int>, ranges: nat, n: nat): (f: int)
    reads m, freqs
    requires ranges <= m.Length0 && 0 < n <= m.Length1 && n <= freqs.Length
    ensures f <= ULONG_MAX
  {
    if ranges == 0 then ULONG_MAX
    else Min(FmaxOverRanges(m, freqs, ranges - 1, n), RowFmax(m, freqs, ranges - 1, n))
  }

  /** FmaxOverRanges is the minimum of the per-row rates: a lower bound of
      each, and one of them unless it is the initial ULONG_MAX. */
  lemma {:induction false} FmaxOverRangesIsMinimum(m: array2<int>, freqs: array<int>, ranges: nat, n: nat)
    requires ranges <= m.Length0 && 0 < n <= m.Length1 && n <= freqs.Length
    ensures forall j :: 0 <= j < ranges ==> FmaxOverRanges(m, freqs, ranges, n) <= RowFmax(m, freqs, j, n)
    ensures FmaxOverRanges(m, freqs, ranges, n) == ULONG_MAX
            || exists j :: 0 <= j < ranges && FmaxOverRanges(m, freqs, ranges, n) == RowFmax(m, freqs, j, n)
  {
    if ranges > 0 {
      FmaxOverRangesIsMinimum(m, freqs, ranges - 1, n);
    }
  }

  /** find_gpu_fmax_at_vmin: the highest rate reachable at the lowest
      voltage in every thermal range and in the peak-voltage row. */
  function GpuFmaxAtVmin(m: array2<int>, peak: array<int>, freqs: array<int>, ranges: nat, n: nat): int
    reads m, peak, freqs
    requires ranges <= m.Length0 && 0 < n <= m.Length1 && n <= freqs.Length && n <= peak.Length
  {
    Min(FmaxOverRanges(m, freqs, ranges, n), freqs[RunEnd(peak[..], n)])
  }

  /** GpuFmaxAtVmin is the minimum of the per-row rates of the ranges and of
      the peak-voltage row: bounded by each, and equal to one of them unless
      no range is scanned and the peak row's rate is ULONG_MAX or more. */
  lemma GpuFmaxAtVminIsMinimum(m: array2<int>, peak: array<int>, freqs: array<int>, ranges: nat, n: nat)
    requires ranges <= m.Length0 && 0 < n <= m.Length1 && n <= freqs.Length && n <= peak.Length
    ensures forall j :: 0 <= j < ranges ==> GpuFmaxAtVmin(m, peak, freqs, ranges, n) <= RowFmax(m, freqs, j, n)
    ensures GpuFmaxAtVmin(m, peak, freqs, ranges, n) == freqs[RunEnd(peak[..], n)]
            || GpuFmaxAtVmin(m, peak, freqs, ranges, n) == ULONG_MAX
            || exists j :: 0 <= j < ranges && GpuFmaxAtVmin(m, peak, freqs, ranges, n) == RowFmax(m, freqs, j, n)
    ensures GpuFmaxAtVmin(m, peak, freqs, ranges, n) <= freqs[RunEnd(peak[..], n)]
  {
    FmaxOverRangesIsMinimum(m, freqs, ranges, n);
  }

  /** The rail nominal min(max_mv, vmin at fmax) is the vmin itself when
      every range's voltage at the last retained frequency is within a
      nonnegative max_mv. */
  lemma {:induction false} NominalClipIsInert(m: array2<int>, ranges: nat, c: nat, maxMv: int)
    requires ranges <= m.Length0 && c < m.Length1 && maxMv >= 0
    requires forall j :: 0 <= j < ranges ==> m[j, c] <= maxMv
    ensures Min(maxMv, GpuVminAtFmax(m, ranges, c)) == GpuVminAtFmax(m, ranges, c)
  {
    GpuVminAtFmaxIsMaximum(m, ranges, c);
  }
}
