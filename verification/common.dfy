/** Constants, integer helpers and the collaborators of the Tegra210 DVFS
    table builders that are not modelled themselves. */
module Common {

  /** Frequencies in the characterization tables are in kHz, rates in Hz. */
  const KHZ: int := 1000

  /** Linux error numbers returned (negated) by the builders. */
  const ENOENT: int := 2
  const EINVAL: int := 22
  const ENOSYS: int := 38
  const EPROBE_DEFER: int := 517

  /** Width of `unsigned long` on the 64-bit kernel, and the error window
      recognised by IS_ERR_VALUE. */
  const ULONG_MAX: int := 0xFFFF_FFFF_FFFF_FFFF
  const MAX_ERRNO: int := 4095

  /** A rate in Hz as the kHz of the characterization tables, rounded
      down as C's unsigned division does. */
  function Khz(rate: nat): nat {
    rate / KHZ
  }

  /** A rate times a DVFS table's freqs_mult, the C product taken without
      wrap-around. */
  function Scaled(mult: int, rate: int): int {
    mult * rate
  }

  function Max(a: int, b: int): (r: int)
    ensures r >= a && r >= b
    ensures r == a || r == b
  {
    if a >= b then a else b
  }

  function Min(a: int, b: int): (r: int)
    ensures r <= a && r <= b
    ensures r == a || r == b
  {
    if a <= b then a else b
  }

  /** C's `/` on `int`: the quotient is truncated toward zero. */
  function DivTrunc(a: int, b: int): (q: int)
    requires b > 0
    ensures a >= 0 ==> q == a / b
    ensures a <= 0 ==> q <= 0
  {
    if a >= 0 then a / b else -((-a) / b)
  }

  /** IS_ERR_VALUE: the last MAX_ERRNO values of an unsigned long are
      negated error numbers. */
  predicate IsErrValue(v: int) {
    v >= ULONG_MAX + 1 - MAX_ERRNO
  }

  datatype Option<T> = None | Some(value: T)

  /** What one table builder (set_*_dvfs_data, or init_*_dvfs_table around
      it) reports: the index of the highest retained frequency on success,
      a negated error number, no matching characterization entry (the slow
      CPU only), or a BUG_ON that halts the kernel. */
  datatype BuildResult = Built(maxFreqIndex: nat) | Failed(ret: int) | Unmatched | Halted
  {
    /** The int the C function returns (0 on success). */
    function Ret(): int
      requires !Halted?
    {
      if Failed? then ret else 0
    }
  }

  /** A rail's voltage grid (struct rail_alignment). */
  datatype Alignment = Alignment(stepUv: int, offsetUv: int)

  /** A frequency-voltage point of a PLL ladder (kHz, mV). */
  datatype FvPoint = FvPoint(freq: nat, volt: int)

  /** The PLL coefficients of one CVB table row. */
  datatype CvbCoefficients = CvbCoefficients(c0: int, c1: int, c2: int, c3: int, c4: int, c5: int)

  /** One row of a GPU CVB table: frequency (kHz) and coefficients;
      frequency 0 ends the table. */
  datatype CvbEntry = CvbEntry(freq: nat, pll: CvbCoefficients)

  /** What tegra_dvfs_init_thermal_dvfs_voltages reports: whether the
      voltage matrix was rejected, and the peak-voltage row it fills. */
  datatype ThermalCheck = ThermalCheck(err: bool, peak: seq<int>)

  /** The helpers the builders call but whose bodies live elsewhere. Nothing
      is assumed about them beyond their types, except where a member
      states a predicate below in its requires clause. */
  datatype Platform = Platform(
    /** tegra_round_voltage(mv, align, up) */
    roundVoltage: (int, Alignment, bool) -> int,
    /** tegra_get_cvb_voltage(speedo, speedo_scale, coefficients) */
    cvbVoltage: (int, int, CvbCoefficients) -> int,
    /** tegra_get_cvb_t_voltage(speedo, speedo_scale, t, thermal_scale, coefficients) */
    cvbThermalVoltage: (int, int, int, int, CvbCoefficients) -> int,
    /** tegra_round_cvb_voltage(mv, voltage_scale, align) */
    roundCvbVoltage: (int, int, Alignment) -> int,
    /** tegra_dvfs_init_thermal_dvfs_voltages(matrix, peak, freqs_num, ranges_num) */
    thermalDvfsVoltages: (seq<seq<int>>, nat, nat) -> ThermalCheck,
    /** tegra210_predict_emc_rate(mv) */
    predictEmcRate: int -> nat
  )

  /** The thermal DVFS helper fills exactly `freqs_num` entries of the peak
      row it is handed. */
  ghost predicate PeakRowShape(p: Platform) {
    forall m: seq<seq<int>>, n: nat, r: nat {:trigger p.thermalDvfsVoltages(m, n, r)} ::
      |p.thermalDvfsVoltages(m, n, r).peak| == n
  }

  /** Rounding a voltage up never lowers it. */
  ghost predicate RoundsUp(p: Platform) {
    forall mv: int, a: Alignment {:trigger p.roundVoltage(mv, a, true)} :: p.roundVoltage(mv, a, true) >= mv
  }
}
