# Tegra210 DVFS table construction

This project models the table-construction part of the Tegra210 DVFS
(dynamic voltage and frequency scaling) driver,
`drivers/soc/tegra/tegra210-dvfs.c`. At boot, the driver reads the chip's
fuse identifiers (speedo and process ids). From them it picks one
characterization entry per domain: the fast CPU cluster, the slow (LP) CPU
cluster and the GPU. It then turns each entry into a DVFS table of
frequencies with voltages. It also works out the nominal voltage of each
rail: vdd-cpu, vdd-core and vdd-gpu.

The model is split into modules:

- `Common` (common.dfy): error numbers, `unsigned long` limits, C's
  truncating division, and `BuildResult`, which holds what a builder
  reports: an index, a negated errno, no match, or a `BUG_ON` halt. It also
  holds `Platform`, the helpers whose bodies live outside this file
  (voltage rounding, the CVB polynomials, the thermal DVFS checker and the
  EMC rate predictor), as function-typed fields.
- `Selector` (selector.dfy): `match_dvfs_one` and the first-match
  selection that every `init_*_dvfs_table` performs.
- `CoreNominal` (core_nominal.dfy): `get_core_speedo_mv`,
  `get_core_nominal_mv_index`, and the scan of `adjust_emc_dvfs_table`, as
  functions.
- `CpuTable` (cpu_table.dfy): what the loops of `set_cpu_dvfs_data` and
  `set_cpu_lp_dvfs_data` compute, as functions of their inputs
  (`FastCpuScan`, `LpCpuScan`), with lemmas about the cut, the error
  returns, fmax at vmin, and the DFLL crossover rate.
- `GpuTable` (gpu_table.dfy): the same for `set_gpu_dvfs_data`. It covers
  the [thermal range][frequency] voltage matrix (`GpuScan`), and
  `find_gpu_vmin_at_fmax` and `find_gpu_fmax_at_vmin` as a maximum and a
  minimum.
- `Tegra210Dvfs` (engine.dfy): the driver's state as classes. `Rail`,
  `Dvfs`, `CpuEntry`, `GpuEntry` and `Engine` hold the static millivolt
  arrays as `array`/`array2`. The builders are imperative methods that fill
  that state in place. Each method is proved against the functions above:
  its postcondition gives the array cells and fields it writes, and says
  that the rest of what it may modify keeps its old value. The
  `init_*_dvfs_table` builders state their new state through the two-state
  predicates `CpuTableInitialized`, `LpTableInitialized` and
  `GpuTableInitialized`, relative to the state they start from.
  `BuildDvfsTables` and `InitDvfs` state the same three predicates relative
  to the state before the fast CPU build. The `modifies` clauses name only
  the selected characterization entry, so the other entries stay as they
  were. One fact is not carried up to `BuildDvfsTables` and `InitDvfs`:
  the value the fast and slow CPU entries' max_mv field holds at the end
  (see "Left out").
- `Tegra210Data` (tegra210_data.dfy): the characterization data compiled
  into the driver, and what selection and the core nominal index make of
  it.

Control-flow points of `tegra210_init_dvfs`:

- A failed fast-CPU table ends `tegra210_init_dvfs` before the slow CPU and
  the GPU are built (the `goto out` of line 1345).
- A GPU failure halts the boot. The domains are therefore not independent.
- The slow-CPU builder's result is ignored. Line 1348 tests the fast CPU's
  `ret` again, so only a halt inside the slow-CPU builder stops the boot.

## Model

| member | source | states |
|---|---|---|
| Selector.MatchDvfsOne | drivers/soc/tegra/tegra210-dvfs.c:757-767 | an entry matches iff each of its ids is the wildcard -1 or equals the chip's id; a full wildcard always matches |
| Selector.SelectFrom | drivers/soc/tegra/tegra210-dvfs.c:1033-1042 | the result is the first matching entry at or after `from`; None iff no entry from there matches |
| Selector.SelectFirst | drivers/soc/tegra/tegra210-dvfs.c:1033-1042 | the selected entry matches and no earlier entry does; None iff no entry matches |
| Selector.WildcardTailAlwaysSelects | drivers/soc/tegra/tegra210-dvfs.c:1054-1063 | a table containing a full wildcard entry always selects, at or before that entry |
| Selector.FirstMatchSelected | drivers/soc/tegra/tegra210-dvfs.c:1296-1305 | a matching entry with no match before it is the one selected |
| Selector.PrefixTakesPriority | drivers/soc/tegra/tegra210-dvfs.c:1033-1042 | entries placed in front take priority; otherwise the old selection, shifted, or none |
| CoreNominal.GetCoreSpeedoMv | drivers/soc/tegra/tegra210-dvfs.c:982-1001 | 1000 mV for process 0 with revision at most 1 and for process 2; 1125 mV for later process 0; 1075 mV for process 1; -EINVAL for any other process id |
| CoreNominal.CoreScanFrom | drivers/soc/tegra/tegra210-dvfs.c:1012-1015 | every entry it passes is nonzero and at most mv; it stops at a 0 entry, an entry above mv, or the end |
| CoreNominal.GetCoreNominalMvIndex | drivers/soc/tegra/tegra210-dvfs.c:1003-1024 | a negative mv is passed through; -ENOSYS iff the first step is 0 or above mv; otherwise the last index of the nonzero prefix at or below mv |
| CoreNominal.NominalIndexIsLargestAtMost | drivers/soc/tegra/tegra210-dvfs.c:1011-1023 | on a non-decreasing ladder, every nonzero entry after the index is above the nominal voltage |
| CoreNominal.EmcScanFrom | drivers/soc/tegra/tegra210-dvfs.c:1073-1080 | the scan passes only nonzero voltages with non-error predictions, and stops at the first 0 or error value |
| CoreNominal.AdjustedEmcRate | drivers/soc/tegra/tegra210-dvfs.c:1068-1084 | an EMC frequency at index k becomes the predicted rate for the ladder voltage exactly when k precedes the first 0 voltage or error prediction and that rate is nonzero, and is otherwise unchanged; a changed rate is positive and not an error value |
| CpuTable.FastCpuScan.DfllMv | drivers/soc/tegra/tegra210-dvfs.c:806 | the DFLL voltage in mV (truncating the uV) is never below min_dfll_mv |
| CpuTable.FastCpuScan.StoredDfllMv | drivers/soc/tegra/tegra210-dvfs.c:827 | the stored DFLL voltage is at most max_mv, at least min_dfll_mv when that is within max_mv, and is max_mv or the DFLL voltage |
| CpuTable.FastCpuScan.StopFrom | drivers/soc/tegra/tegra210-dvfs.c:791-798 | the first index at or after i where the loop leaves (ladder mismatch, cut, or over-Vmax first entry) |
| CpuTable.FastCpuScan.Stop | drivers/soc/tegra/tegra210-dvfs.c:791-828 | every filled entry agrees with the DFLL ladder and is within the SKU maximum frequency; the first entry is within Vmax |
| CpuTable.FastCpuScan.Outcome | drivers/soc/tegra/tegra210-dvfs.c:791-846 | the result is -EINVAL or success with max index Stop()-1; success only when the loop ran to the end or to the frequency cut |
| CpuTable.FastCpuScan.UseDfllRateMin | drivers/soc/tegra/tegra210-dvfs.c:834-835 | use_dfll_rate_min never exceeds fmax_at_vmin |
| CpuTable.FastCpuScan.Nominal | drivers/soc/tegra/tegra210-dvfs.c:840-841 | the CPU rail nominal is at most max_mv, at least min(max_mv, last PLL voltage), and is one of max_mv, the last PLL voltage, or the last stored DFLL voltage |
| CpuTable.StopIsFirst | drivers/soc/tegra/tegra210-dvfs.c:791-798 | the first index where the loop leaves is Stop() |
| CpuTable.LadderMismatchIsFatal | drivers/soc/tegra/tegra210-dvfs.c:791-798 | a DFLL/PLL frequency mismatch reached before the cut gives -EINVAL, even where that entry would have been cut |
| CpuTable.FirstEntryAboveVmaxIsFatal | drivers/soc/tegra/tegra210-dvfs.c:815-818 | a first PLL voltage above the rounded Vmax gives -EINVAL |
| CpuTable.FastCpuSucceedsIff | drivers/soc/tegra/tegra210-dvfs.c:791-846 | success iff the first voltage is within Vmax and no entry reached before the cut mismatches the ladder |
| CpuTable.FmaxAtVminZeroIff | drivers/soc/tegra/tegra210-dvfs.c:806-812 | fmax_at_vmin stays 0 exactly while every DFLL voltage seen is at the minimum |
| CpuTable.FmaxAtVminIsLastRateAtVmin | drivers/soc/tegra/tegra210-dvfs.c:806-812 | fmax_at_vmin is the rate before the first DFLL voltage above the minimum (the first rate if that is entry 0) |
| CpuTable.FminUseDfllZeroIff | drivers/soc/tegra/tegra210-dvfs.c:821-822 | fmin_use_dfll stays 0 exactly while every PLL voltage is below the DFLL minimum |
| CpuTable.FminUseDfllIsFirstPllAtDfllVmin | drivers/soc/tegra/tegra210-dvfs.c:821-822 | fmin_use_dfll is the rate of the first entry whose PLL voltage reaches the DFLL minimum |
| CpuTable.CrossoverIsFirstPllAtDfllVmin | drivers/soc/tegra/tegra210-dvfs.c:834-835 | use_dfll_rate_min is min(first rate with PLL voltage at the DFLL minimum, fmax_at_vmin) |
| CpuTable.CrossoverFallsBackToFmax | drivers/soc/tegra/tegra210-dvfs.c:834-835 | with no such rate, use_dfll_rate_min is fmax_at_vmin |
| CpuTable.PllVoltageAboveVmaxIsStored | drivers/soc/tegra/tegra210-dvfs.c:815-841 | a later PLL voltage above Vmax is stored (only entry 0 is checked) and the rail nominal is clipped to Vmax |
| CpuTable.CutAtSkuMaxFrequency | drivers/soc/tegra/tegra210-dvfs.c:797-798 | a 250 MHz maximum keeps two of three points, with a nominal of 950 mV |
| CpuTable.LadderDisagreementAtIndexTwo | drivers/soc/tegra/tegra210-dvfs.c:792-795 | a 305 MHz DFLL rate against a 300 MHz PLL entry gives -EINVAL |
| CpuTable.LpCpuScan.StoredMv | drivers/soc/tegra/tegra210-dvfs.c:883-884 | the stored slow-CPU voltage is the PLL voltage raised to the minimum |
| CpuTable.LpCpuScan.StopFrom | drivers/soc/tegra/tegra210-dvfs.c:878-889 | the first index at or after i where the loop leaves (end of table, frequency cut, voltage above the limit) |
| CpuTable.LpCpuScan.Stop | drivers/soc/tegra/tegra210-dvfs.c:878-894 | every kept entry has a nonzero frequency within the SKU maximum and a voltage within [min, max] |
| CpuTable.LpCpuScan.Outcome | drivers/soc/tegra/tegra210-dvfs.c:896-907 | -ENOENT iff no entry is kept, otherwise success with max index Stop()-1 |
| CpuTable.LpStopIsFirst | drivers/soc/tegra/tegra210-dvfs.c:878-889 | the first index where the slow-CPU loop leaves is Stop() |
| CpuTable.LpTruncatesAtFirstOverLimit | drivers/soc/tegra/tegra210-dvfs.c:885-888 | the first voltage above the limit ends the table; at index 0 this gives -ENOENT |
| CpuTable.LpVoltagesWithinRail | drivers/soc/tegra/tegra210-dvfs.c:865-893 | past the BUG_ON, every kept slow-CPU voltage lies within the rail bounds |
| GpuTable.GpuScan.RangeMv | drivers/soc/tegra/tegra210-dvfs.c:1203-1219 | a range's voltage at a CVB row is never below the range's floor |
| GpuTable.GpuScan.FitFrom | drivers/soc/tegra/tegra210-dvfs.c:1206-1221 | the first range at or after `from` above the maximum voltage, or the range count |
| GpuTable.GpuScan.Fit | drivers/soc/tegra/tegra210-dvfs.c:1206-1221 | the ranges written at a row are within the maximum; the next one is above it |
| GpuTable.GpuScan.StopFrom | drivers/soc/tegra/tegra210-dvfs.c:1198-1234 | the first row at or after i where the outer loop leaves |
| GpuTable.GpuScan.Stop | drivers/soc/tegra/tegra210-dvfs.c:1198-1238 | every kept frequency is nonzero, within the SKU maximum, and fits all ranges; the next row ends the table or overflows a range |
| GpuTable.GpuScan.Written | drivers/soc/tegra/tegra210-dvfs.c:1198-1234 | the columns written are the kept ones plus exactly one more when the scan stopped on an entry that is not the end of the table (a range overflowed there), and no others |
| GpuTable.GpuScan.RawColumn | drivers/soc/tegra/tegra210-dvfs.c:1206-1219 | the column holds each range's voltage at that row |
| GpuTable.GpuScan.Cell | drivers/soc/tegra/tegra210-dvfs.c:1228-1230 | a written cell is between the range's floor and the maximum, and at least the range's own voltage |
| GpuTable.GpuScan.Outcome | drivers/soc/tegra/tegra210-dvfs.c:1250-1264 | success iff the thermal check passes and some frequency is kept, with max index Stop()-1; otherwise -ENOENT |
| GpuTable.ColumnCell | drivers/soc/tegra/tegra210-dvfs.c:1228-1230 | the cell is its own voltage or, when the next range was written, the higher of the two |
| GpuTable.FitIsFirst | drivers/soc/tegra/tegra210-dvfs.c:1206-1221 | the first range above the maximum is Fit |
| GpuTable.GpuStopIsFirst | drivers/soc/tegra/tegra210-dvfs.c:1198-1234 | the first row where the loop leaves is Stop |
| GpuTable.AdjacentRangeRaised | drivers/soc/tegra/tegra210-dvfs.c:1229-1230 | writing range j raises range j-1 to at least range j's voltage |
| GpuTable.TwoRangesOrdered | drivers/soc/tegra/tegra210-dvfs.c:1228-1230 | with two ranges, the colder range is never below the warmer one at a kept frequency |
| GpuTable.RaiseDoesNotCascade | drivers/soc/tegra/tegra210-dvfs.c:1228-1230 | with three ranges, the raise reaches only the neighbouring range |
| GpuTable.FloorApplied | drivers/soc/tegra/tegra210-dvfs.c:1218-1219 | a 900 mV floor wins over an 850 mV rounded CVB voltage |
| GpuTable.GpuVminAtFmaxIsMaximum | drivers/soc/tegra/tegra210-dvfs.c:1125-1138 | find_gpu_vmin_at_fmax is at least 0 and at least every range's voltage at the top frequency, and is one of them unless it is 0 |
| GpuTable.RiseFrom | drivers/soc/tegra/tegra210-dvfs.c:1105-1108 | the first index where a row rises above its first voltage, or n |
| GpuTable.RiseIsFirst | drivers/soc/tegra/tegra210-dvfs.c:1105-1108 | the first rise of a row is RiseFrom |
| GpuTable.RunEnd | drivers/soc/tegra/tegra210-dvfs.c:1105-1109 | the last index of the row's initial run at or below its first voltage |
| GpuTable.FmaxOverRanges | drivers/soc/tegra/tegra210-dvfs.c:1094-1110 | the running minimum starts at ULONG_MAX and never exceeds it |
| GpuTable.FmaxOverRangesIsMinimum | drivers/soc/tegra/tegra210-dvfs.c:1104-1110 | the minimum over the ranges is at most each range's rate at vmin, and is one of them unless it is ULONG_MAX |
| GpuTable.GpuFmaxAtVminIsMinimum | drivers/soc/tegra/tegra210-dvfs.c:1090-1119 | find_gpu_fmax_at_vmin is at most each range's rate at vmin and at most the peak row's rate, and equals the peak row's rate, ULONG_MAX or a range's rate |
| GpuTable.NominalClipIsInert | drivers/soc/tegra/tegra210-dvfs.c:1266-1267 | the max_mv clip of the GPU nominal changes nothing when all top-frequency voltages are within max_mv |
| Tegra210Dvfs.Engine.constructor | drivers/soc/tegra/tegra210-dvfs.c:39-85 | the rails' limits and grids (vdd-cpu 800..1300 mV at 6.25 mV, vdd-core and vdd-gpu up to 1300 mV at 12.5 and 6.25 mV), the slow CPU's kHz multiplier, and zeroed arrays |
| Tegra210Dvfs.Engine.FillCpuTables | drivers/soc/tegra/tegra210-dvfs.c:791-828 | fills exactly the first Stop() fast CPU entries (rate, PLL mV, clipped DFLL mV) and leaves the rest; it fails iff Outcome is -EINVAL; when it does not fail, fmax_at_vmin and fmin_use_dfll are FmaxAtVmin and FminUseDfll after those entries |
| Tegra210Dvfs.Engine.SetCpuDvfsData | drivers/soc/tegra/tegra210-dvfs.c:769-847 | max_mv is rounded down in place; -EPROBE_DEFER without a ladder; otherwise the result is Outcome, the arrays hold the kept entries, and on success the ids, use_dfll_rate_min and the rail nominal are set and nothing else changes |
| Tegra210Dvfs.Engine.SetCpuLpDvfsData | drivers/soc/tegra/tegra210-dvfs.c:859-908 | max_mv is rounded down; a max above the rail halts; otherwise the rail nominal is raised to it, the arrays hold the kept entries, the result is Outcome, and ids are set only on success |
| Tegra210Dvfs.Engine.ApplyGpuFloors | drivers/soc/tegra/tegra210-dvfs.c:1185-1191 | gpu_vmin of each range is its floor, raised to the PLL and rail minimum and rounded up |
| Tegra210Dvfs.Engine.FillGpuColumn | drivers/soc/tegra/tegra210-dvfs.c:1206-1231 | writes Fit(i) ranges of column i with their Cell values; every other cell is unchanged |
| Tegra210Dvfs.Engine.FillGpuTable | drivers/soc/tegra/tegra210-dvfs.c:1198-1238 | keeps Stop() frequencies; each matrix cell is the written Cell value or unchanged |
| Tegra210Dvfs.Engine.InitThermalDvfsVoltages | drivers/soc/tegra/tegra210-dvfs.c:1247-1248 | the helper's verdict, and its peak row copied into the first n entries |
| Tegra210Dvfs.Engine.ShiftVtsTrips | drivers/soc/tegra/tegra210-dvfs.c:1255-1257 | each of the first ranges-1 trip points takes the next one's value; the rest are unchanged |
| Tegra210Dvfs.Engine.FindGpuVminAtFmax | drivers/soc/tegra/tegra210-dvfs.c:1125-1138 | the loop computes GpuVminAtFmax at the last kept frequency |
| Tegra210Dvfs.Engine.RangeRunEnd | drivers/soc/tegra/tegra210-dvfs.c:1105-1108 | the inner loop computes RunEnd of the range's row |
| Tegra210Dvfs.Engine.PeakRunEnd | drivers/soc/tegra/tegra210-dvfs.c:1112-1115 | the peak-row loop computes RunEnd of the peak row |
| Tegra210Dvfs.Engine.FindGpuFmaxAtVmin | drivers/soc/tegra/tegra210-dvfs.c:1090-1119 | the loops compute GpuFmaxAtVmin |
| Tegra210Dvfs.Engine.BuildGpuMatrix | drivers/soc/tegra/tegra210-dvfs.c:1169-1248 | max_mv rounded down; the floors, the matrix cells, the Stop() kept frequencies and the peak row, each as specified; the rest unchanged |
| Tegra210Dvfs.Engine.FinishGpuTable | drivers/soc/tegra/tegra210-dvfs.c:1250-1270 | -ENOENT when the check fails or nothing is kept, with nothing published; otherwise trips shifted, ids and multiplier set, nominal = min(max_mv, vmin at fmax), fmax_at_vmin_safe_t = multiplier times fmax at vmin |
| Tegra210Dvfs.Engine.SetGpuDvfsData | drivers/soc/tegra/tegra210-dvfs.c:1160-1288 | the composition of the two above for one thermal range: the result is Outcome of the thermal verdict; the published fields are set on success only |
| Tegra210Dvfs.Engine.CoreNominalMvIndex | drivers/soc/tegra/tegra210-dvfs.c:1003-1024 | the loop computes GetCoreNominalMvIndex |
| Tegra210Dvfs.Engine.AdjustEmcDvfsTable | drivers/soc/tegra/tegra210-dvfs.c:1068-1084 | each EMC frequency along the core ladder becomes AdjustedEmcRate; frequencies beyond the ladder are unchanged |
| Tegra210Dvfs.Engine.FindMatchingEntry | drivers/soc/tegra/tegra210-dvfs.c:1033-1042 | the selection loop computes SelectFirst |
| Tegra210Dvfs.Engine.InitCpuDvfsTable | drivers/soc/tegra/tegra210-dvfs.c:1026-1046 | halts iff the speedo id is outside cpu_max_freq (a negative one too) or nothing matches, changing no entry; otherwise set_cpu_dvfs_data's result for the selected entry at the speedo's maximum frequency: its max_mv rounded down, the arrays holding the kept entries and unchanged beyond them, and on success the ids, use_dfll_rate_min and the rail nominal; only the selected entry may change; the table is built iff `FastCpuBuilds` held at the start (speedo in range, an entry matches, a DFLL ladder, and the scan with the rounded maximum succeeds) |
| Tegra210Dvfs.Engine.InitCpuDvfsTableApart | drivers/soc/tegra/tegra210-dvfs.c:1343 | the same, and the slow CPU and GPU entries are left as they were |
| Tegra210Dvfs.Engine.InitCpuLpDvfsTable | drivers/soc/tegra/tegra210-dvfs.c:1048-1066 | with no match, returns 0 having built nothing; otherwise set_cpu_lp_dvfs_data's result for the selected entry: its max_mv rounded down, a halt above the rail, the arrays holding the kept entries and unchanged beyond them, the ids on success, and the rail nominal raised to max_mv; the fast CPU's table, arrays and rail minimum are left as they were |
| Tegra210Dvfs.Engine.LpTableWithinCpuRail | drivers/soc/tegra/tegra210-dvfs.c:865-893 | when rounding up never lowers a voltage, every voltage kept for the slow CPU lies within the CPU rail's minimum and maximum |
| Tegra210Dvfs.Engine.InitCpuLpDvfsTableApart | drivers/soc/tegra/tegra210-dvfs.c:1347 | the same as InitCpuLpDvfsTable, and the GPU entries are left as they were |
| Tegra210Dvfs.Engine.InitGpuDvfsTable | drivers/soc/tegra/tegra210-dvfs.c:1290-1307 | halts on no match or on any failure of set_gpu_dvfs_data; otherwise the selected entry's max_mv rounded down, the floors, matrix cells, frequencies and peak row as the scan gives them and unchanged elsewhere, and on success the ids, multiplier, nominal min(max_mv, vmin at fmax) and fmax_at_vmin_safe_t published; the published fields are kept when it halts |
| Tegra210Dvfs.Engine.InitGpuDvfsTableApart | drivers/soc/tegra/tegra210-dvfs.c:1355 | the same, and the CPU rail, tables, arrays and selected entries are left as they were |
| Tegra210Dvfs.Engine.InitCoreRail | drivers/soc/tegra/tegra210-dvfs.c:1326-1336 | a negative nominal index disables core scaling and uses index 0; the core nominal is the ladder voltage at that index; the core minimum is raised to the first step; the CPU and GPU rails and the selected entries are left as they were |
| Tegra210Dvfs.Engine.BuildLpAndGpuTables | drivers/soc/tegra/tegra210-dvfs.c:1347-1355 | LpTableInitialized, then GpuTableInitialized unless the slow CPU halted (the GPU state and entry untouched if it did), both relative to the state at the call; the CPU rail nominal raised to the slow entry's max_mv when that table is built; the fast CPU state unchanged; returns 0 iff the slow CPU did not halt and the GPU table is built |
| Tegra210Dvfs.Engine.BuildDvfsTables | drivers/soc/tegra/tegra210-dvfs.c:1343-1355 | relative to the state at the call: CpuTableInitialized; after a fast CPU build, LpTableInitialized, and GpuTableInitialized unless the slow CPU halted, so each builder's arrays are written where its scan says and unchanged elsewhere; the fast CPU table is built iff `FastCpuBuilds` holds; a builder that does not run leaves its arrays, fields and entry and reports Unmatched; the CPU rail nominal is the fast CPU's, raised to the slow entry's max_mv when that table is built; a fast CPU error is returned, any halt halts, the slow CPU result is otherwise ignored, and 0 is returned iff fast CPU and GPU succeed and the slow CPU did not halt |
| Tegra210Dvfs.Engine.InitDvfs | drivers/soc/tegra/tegra210-dvfs.c:1309-1355 | the core-rail facts of InitCoreRail, then the contract of BuildDvfsTables relative to the state before the core rail is set up |
| Tegra210Data.CoreLadder | drivers/soc/tegra/tegra210-dvfs.c:491-493 | core_millivolts holds the 15 listed steps followed by zeros |
| Tegra210Data.CpuKeysByPosition | drivers/soc/tegra/tegra210-dvfs.c:134-282 | the fast CPU keys run from speedo 10 down to 0, process 0 before 1, with one wildcard entry for speedo 4 |
| Tegra210Data.FastCpuEntryFound | drivers/soc/tegra/tegra210-dvfs.c:1032-1043 | every in-range speedo id with process 0 or 1 (any process for speedo 4) selects the entry carrying its own speedo id |
| Tegra210Data.FastCpuEntryMissing | drivers/soc/tegra/tegra210-dvfs.c:1033-1043 | any other process id selects nothing, and init_cpu_dvfs_table halts |
| Tegra210Data.LpCpuSelection | drivers/soc/tegra/tegra210-dvfs.c:307-336 | the slow CPU table always selects: the entries for speedo 5, 2 and 1, else the full wildcard |
| Tegra210Data.LpMaxFreqOverrun | drivers/soc/tegra/tegra210-dvfs.c:1032-1056 | speedo ids 6 to 10 pass the fast CPU bound and select an entry, but index past the end of cpu_lp_max_freq |
| Tegra210Data.LpTableOnTegra210 | drivers/soc/tegra/tegra210-dvfs.c:285-305 | on the compiled-in slow CPU table the cut at cpu_lp_max_freq keeps 12 points (10 for speedo id 4) once the rounded maximum is at least 1118 mV |
| Tegra210Data.GpuEntrySelection | drivers/soc/tegra/tegra210-dvfs.c:419-484 | GPU speedo ids 0..4 select entry 4-id for any process id; any other speedo id selects nothing |
| Tegra210Data.CoreNominalIndexOnTegra210 | drivers/soc/tegra/tegra210-dvfs.c:982-1024 | on the Tegra210 ladder the core nominal index is 8 (1000 mV), 14 (1125 mV) or 12 (1075 mV) by process id and revision, and -EINVAL for an unknown process id |

## Left out

- The clock framework: `init_dvfs_one` and `tegra_setup_dvfs`, which register the tables with clocks. The model stops once the tables and rail voltages are computed.
- The core clock loop of lines 1368-1382, `init_qspi_dvfs`, `init_sor1_dvfs` and `of_tegra_dvfs_init`. They register peripheral clocks and read the device tree. `adjust_emc_dvfs_table` is modelled on its own (`AdjustEmcDvfsTable`); whether `tegra210_emc_is_ready()` calls it is not modelled.
- The rail initialisation, thermal limits and log output after the builders: `tegra_dvfs_init_therm_limits`, `tegra_dvfs_init_rails` and the `pr_*` messages.
- The `disable_core`/`disable_cpu` module parameters.
- The bodies of the helpers: `tegra_round_voltage`, `tegra_get_cvb_voltage`, `tegra_get_cvb_t_voltage`, `tegra_round_cvb_voltage`, `tegra_dvfs_init_thermal_dvfs_voltages` and `tegra210_predict_emc_rate`. Their files are not part of this model. They are function fields of `Common.Platform`, constrained only where a requires clause says so (`PeakRowShape`, and `RoundsUp` in `LpTableWithinCpuRail`). `tegra_get_cpu_fv_table` is an `Option` parameter; None stands for its error return.
- The `CONFIG_TEGRA_USE_NA_GPCPLL` flag (lines 1275-1286) is a build option and is not modelled.
- The `vts_cdev = NULL` store (line 1183) is not modelled.
- The `gpu_dvfs->millivolts` pointer store (line 1240) is not modelled.
- `init_gpu_rail_thermal_caps` is not modelled: it returns 0 for one range and only warns otherwise.
- MAX_DVFS_FREQS and MAX_THERMAL_RANGES are defined outside this file. The engine takes both as parameters.
- Tegra210Dvfs.Engine.SetGpuDvfsData: is stated for the single thermal range that `init_gpu_rail_thermal_scaling` returns, so its trip points stay as they were. The sub-methods (`BuildGpuMatrix`, `FinishGpuTable`, `ShiftVtsTrips`) and `GpuScan` take any number of ranges.
- Tegra210Dvfs.Engine.FinishGpuTable: the product `freqs_mult * fmax` (`Common.Scaled`) is taken without the wrap-around of `unsigned long`.
- Tegra210Dvfs.Engine.InitCpuLpDvfsTable: requires the CPU speedo id to index `cpu_lp_max_freq`. Line 1056 reads past the array for speedo ids 6 to 10 (`Tegra210Data.LpMaxFreqOverrun`). The value read there is undefined, so the model does not cover it.
- Tegra210Dvfs.Engine.SetCpuDvfsData: requires a DFLL ladder that ends the loop with at least one entry filled unless an error is returned (`CpuLadderFits`). Otherwise line 841 reads index -1. The ladder's rates must also be positive, because a zero rate changes the set-once tests of lines 808-811.
- Tegra210Dvfs.Engine.InitDvfs: the out-parameters stand for `cpu_max_freq_index`, `cpu_lp_max_freq_index` and `gpu_max_freq_index`, which are passed on to `init_dvfs_one`.
- Tegra210Dvfs.Engine.BuildDvfsTables: requires the CPU speedo id to index `cpu_lp_max_freq` only when the fast CPU table is built (`FastCpuBuilds`) and the slow CPU table has entries. Only then does the source reach line 1056. In that case, speedo ids 6 to 10 read past the array (`Tegra210Data.LpMaxFreqOverrun`), and the value read is undefined.
- Tegra210Dvfs.Engine.BuildDvfsTables: the rounded max_mv of the fast and slow CPU entries is stated through the scans (`c.maxMv` and `lc.maxMv`, in `CpuTableInitialized` and `LpTableInitialized`). That the entries' fields still hold these values at the end is stated by `InitCpuDvfsTable` and `InitCpuLpDvfsTable` but not repeated here. The GPU entry's rounded max_mv and kept trip points are repeated.
- Tegra210Dvfs.Engine.InitDvfs: has the same speedo-id requirement and the same gap as `BuildDvfsTables` above.
