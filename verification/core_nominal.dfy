/** The core rail's nominal voltage: get_core_speedo_mv and
    get_core_nominal_mv_index, and the scan of adjust_emc_dvfs_table over
    the core voltage ladder. */
module CoreNominal {
  import opened Common

  /** The fuse-derived identifiers of the chip (tegra_sku_info). */
  datatype SkuInfo = SkuInfo(
    revision: int,
    socSpeedoId: int, socProcessId: int,
    cpuSpeedoId: int, cpuProcessId: int,
    gpuSpeedoId: int, gpuProcessId: int,
    gpuSpeedoValue: int)

  /** get_core_speedo_mv: the core nominal voltage for the SoC process id;
      process 0 depends on the speedo revision. */
  function GetCoreSpeedoMv(sku: SkuInfo): (mv: int)
    ensures mv < 0 <==> !(0 <= sku.socProcessId <= 2)
    ensures mv < 0 ==> mv == -EINVAL
    ensures mv >= 0 ==> 1000 <= mv <= 1125
    ensures sku.socProcessId == 0 && sku.revision >= 2 ==> mv == 1125
    ensures sku.socProcessId == 1 ==> mv == 1075
    ensures sku.socProcessId == 2 || (sku.socProcessId == 0 && sku.revision <= 1) ==> mv == 1000
  {
    match sku.socProcessId
    case 0 => if sku.revision <= 1 then 1000 else 1125
    case 1 => 1075
    case 2 => 1000
    case _ => -EINVAL
  }

  /** The loop of get_core_nominal_mv_index from index `i`: the first entry
      that is 0 or above `mv`, or the ladder length. */
  function CoreScanFrom(ladder: seq<int>, mv: int, i: nat): (k: nat)
    requires i <= |ladder|
    ensures i <= k <= |ladder|
    ensures forall j :: i <= j < k ==> ladder[j] != 0 && ladder[j] <= mv
    ensures k < |ladder| ==> ladder[k] == 0 || mv < ladder[k]
    decreases |ladder| - i
  {
    if i == |ladder| then i
    else if ladder[i] == 0 || mv < ladder[i] then i
    else CoreScanFrom(ladder, mv, i + 1)
  }

  /** get_core_nominal_mv_index: the core voltage `mv` rounded down onto the
      ladder, scanning only up to its first 0 entry; a negative `mv` is
      passed through and an `mv` below the first step is -ENOSYS. */
  function GetCoreNominalMvIndex(ladder: seq<int>, sku: SkuInfo): (r: int)
    ensures var mv := GetCoreSpeedoMv(sku);
            mv < 0 ==> r == mv
    ensures var mv := GetCoreSpeedoMv(sku);
            mv >= 0 ==> (r == -ENOSYS <==> |ladder| == 0 || ladder[0] == 0 || mv < ladder[0])
    ensures r < 0 ==> r == -EINVAL || r == -ENOSYS
    ensures var mv := GetCoreSpeedoMv(sku);
            r >= 0 ==> r < |ladder|
                       && (forall j :: 0 <= j <= r ==> ladder[j] != 0 && ladder[j] <= mv)
                       && (r + 1 == |ladder| || ladder[r + 1] == 0 || mv < ladder[r + 1])
  {
    var mv := GetCoreSpeedoMv(sku);
    if mv < 0 then mv
    else
      var i := CoreScanFrom(ladder, mv, 0);
      if i == 0 then -ENOSYS else i - 1
  }

  /** On a ladder that does not decrease, the nominal index is the largest
      index before the first 0 entry whose voltage is at most the nominal
      voltage: every later entry of that prefix is above it. */
  lemma NominalIndexIsLargestAtMost(ladder: seq<int>, sku: SkuInfo, k: nat)
    requires forall a, b :: 0 <= a < b < |ladder| ==> ladder[a] <= ladder[b]
    requires var r := GetCoreNominalMvIndex(ladder, sku);
             r >= 0 && r < k < |ladder|
    requires forall j :: 0 <= j <= k ==> ladder[j] != 0
    ensures ladder[k] > GetCoreSpeedoMv(sku)
  {
    var r := GetCoreNominalMvIndex(ladder, sku);
    assert ladder[r + 1] <= ladder[k];
  }

  /** The scan of adjust_emc_dvfs_table from index `i`: it stops at the
      first 0 voltage or at the first predicted rate that is an error value. */
  function EmcScanFrom(ladder: seq<int>, predict: int -> nat, i: nat): (k: nat)
    requires i <= |ladder|
    ensures i <= k <= |ladder|
    ensures forall j :: i <= j < k ==> ladder[j] != 0 && !IsErrValue(predict(ladder[j]))
    ensures k < |ladder| ==> ladder[k] == 0 || IsErrValue(predict(ladder[k]))
    decreases |ladder| - i
  {
    if i == |ladder| then i
    else if ladder[i] == 0 || IsErrValue(predict(ladder[i])) then i
    else EmcScanFrom(ladder, predict, i + 1)
  }

  /** The EMC frequency at ladder index `k` after adjust_emc_dvfs_table:
      the predicted rate when the scan reached `k` and the prediction is
      nonzero, else what was there. */
  function AdjustedEmcRate(ladder: seq<int>, predict: int -> nat, prior: int, k: nat): (f: int)
    requires k < |ladder|
    ensures f != prior ==> f > 0 && !IsErrValue(f) && ladder[k] != 0
    ensures f != prior ==> f == predict(ladder[k]) && k < EmcScanFrom(ladder, predict, 0)
    ensures k < EmcScanFrom(ladder, predict, 0) && predict(ladder[k]) != 0 ==> f == predict(ladder[k])
    ensures k >= EmcScanFrom(ladder, predict, 0) ==> f == prior
  {
    if k < EmcScanFrom(ladder, predict, 0) && predict(ladder[k]) != 0 then predict(ladder[k]) else prior
  }
}
