/**
 * The per-channel receive state machine manager of the OFDM physical layer.
 *
 * One `RxStateMachineManager` object per channel owns every calibration scalar and
 * every buffer. Once per tick `Receive` stores the demodulated carrier detail, gates on
 * input connectivity and lets the state-machine driver run the handler of the current
 * state. The handlers calibrate noise and signal power, buffer symbol samples, pick the
 * strongest sample of every symbol, assemble packets, and correct carrier frequency and
 * phase drift.
 *
 * The module has two layers. Pure step functions over a `ChannelContext` record state
 * what each handler does to the channel and carry the lemmas; the class keeps the same
 * state in fields that its methods update in place, and each method is proved to
 * produce exactly the step function's result.
 */
module RxStateMachineManager {
  import opened Wrappers
  import opened Stats

  // ---------------------------------------------------------------------------
  // Constants of the manager
  // ---------------------------------------------------------------------------

  /** Threshold right after a reset; the first noise calibration replaces it. */
  const INITIAL_POWER_THRESHOLD: real := 0.0
  /** Decibels above the average noise power for the first, conservative threshold. */
  const INITIAL_DIFFERENCE_BETWEEN_NOISE_AND_SIGNAL: real := 10.0
  /** 0.0 puts the refined threshold on the signal, 1.0 on the noise. */
  const THRESHOLD_DIFFERENCE_BETWEEN_AVERAGE_SIGNAL_POWER_UNIT_FACTOR: real := 0.3
  /** Pilot power reported by the demodulator when there is no input at all. */
  const NO_INPUT_POWER: real := -99.0
  /** Relative positions in the phase history of the two drift sample points. */
  const PHASE_HISTORY_INDEX_A_FACTOR: real := 0.43
  const PHASE_HISTORY_INDEX_B_FACTOR: real := 0.57
  /** Drift magnitudes at or below this are treated as noise and not corrected. */
  const FREQUENCY_DRIFT_MIN: real := 0.005

  // ---------------------------------------------------------------------------
  // Data model
  // ---------------------------------------------------------------------------

  /** States of the receive state machine whose handlers this manager supplies. */
  datatype RxState =
    | IdleInit | FirstSyncWait | SignalInit | FatalError
    | Idle | Symbol | Sync | Guard | Error

  /** One subcarrier's sample for one tick. */
  datatype CarrierSample = CarrierSample(powerDecibel: real, phase: real)

  /** The current tick: all subcarriers, with subcarrier 0 aliased as the pilot. */
  datatype Tick = Tick(pilotSignal: CarrierSample, carrierDetail: seq<CarrierSample>)

  /** One phase-history entry: state duration time and phase of subcarrier 0. */
  datatype PhasePoint = PhasePoint(time: real, phase: real)

  /** What one `Receive` call reports: the no-input short cut, or what the driver was given and the handler returned. */
  datatype ReceiveOutcome =
    | NoInput
    | Dispatched(pilotPresent: bool, next: Option<RxState>)

  /**
   * Settings made through the setters. An unset (null) collection time compares as 0,
   * an unset preamble flag is false, an unset PSK size is 0. The three maximum
   * durations are handed on to the driver.
   */
  datatype Config = Config(
    sampleCollectionTimeNoise: real,
    sampleCollectionTimeSignal: real,
    syncPreamble: bool,
    pskSize: int,
    symbolStateMaxDurationTime: Option<real>,
    guardStateMaxDurationTime: Option<real>,
    syncStateMaxDurationTime: Option<real>)

  /** Calibration scalars; None stands for null (not measured yet). */
  datatype PowerLevels = PowerLevels(
    maxSignalPower: Option<real>,
    maxSignalPowerSampleSize: Option<nat>,
    minGuardPower: Option<real>,
    minGuardPowerSampleSize: Option<nat>,
    averageNoisePower: Option<real>,
    averageSignalPower: Option<real>,
    powerThreshold: real)

  /** Pilot power per state, and the phase of subcarrier 0 over time. */
  datatype Histories = Histories(
    powerHistoryNoise: seq<real>,
    powerHistoryGuard: seq<real>,
    powerHistorySignal: seq<real>,
    phaseHistory: seq<PhasePoint>)

  const INITIAL_POWER_LEVELS: PowerLevels := PowerLevels(None, None, None, None, None, None, INITIAL_POWER_THRESHOLD)
  const EMPTY_HISTORIES: Histories := Histories([], [], [], [])

  /**
   * Everything a channel's handlers can change: configuration, calibration, histories,
   * symbol and packet buffers, and the collaborators' state that the manager drives
   * (receive frequency and phase-correction table of this channel, packets handed to
   * the packet handler, a pending restart of the driver).
   */
  datatype ChannelContext = ChannelContext(
    cfg: Config,
    power: PowerLevels,
    history: Histories,
    dataPacket: seq<seq<CarrierSample>>,
    dataSymbol: seq<Tick>,
    rxFrequency: real,
    phaseCorrection: seq<real>,
    delivered: seq<seq<seq<int>>>,
    resetScheduled: bool)

  /** A handler's effect: the new context, and the state it asks for (None: stay). */
  datatype Step = Step(ctx: ChannelContext, next: Option<RxState>)

  /** A tick as the demodulator delivers it for a channel of `n` subcarriers. */
  predicate WellFormedTick(t: Tick, n: nat) {
    n >= 1 && |t.carrierDetail| == n && t.pilotSignal == t.carrierDetail[0]
  }

  /** Every buffered sample and packet row, and the phase table, have one entry per subcarrier. */
  predicate WellFormed(c: ChannelContext, n: nat) {
    && n >= 1
    && |c.phaseCorrection| == n
    && (forall k :: 0 <= k < |c.dataSymbol| ==> WellFormedTick(c.dataSymbol[k], n))
    && (forall k :: 0 <= k < |c.dataPacket| ==> |c.dataPacket[k]| == n)
  }

  // ---------------------------------------------------------------------------
  // Numeric helpers: JavaScript's Math.round and %
  // ---------------------------------------------------------------------------

  /** Math.round: the nearest integer, halves rounded up. */
  function Round(x: real): (r: int)
    ensures r as real <= x + 0.5 < r as real + 1.0
  {
    (x + 0.5).Floor
  }

  function Abs(x: int): int {
    if x < 0 then -x else x
  }

  function AbsReal(x: real): real {
    if x < 0.0 then -x else x
  }

  /** JavaScript's `a % n`: the remainder takes the sign of the dividend. */
  function JsRemainder(a: int, n: int): (r: int)
    requires n != 0
    ensures -Abs(n) < r < Abs(n)
    ensures a >= 0 ==> r >= 0
    ensures a <= 0 ==> r <= 0
    ensures a >= 0 && n > 0 ==> r == a % n
    ensures Abs(r) == Abs(a) % Abs(n)
  {
    if a >= 0 then a % Abs(n) else -((-a) % Abs(n))
  }

  // ---------------------------------------------------------------------------
  // Pure parts of the handlers
  // ---------------------------------------------------------------------------

  /** Pilot presence is a strict comparison against the current threshold (no hysteresis). */
  predicate IsPilotSignalPresent(pilotPower: real, powerThreshold: real): (present: bool)
    ensures present <==> pilotPower > powerThreshold
    ensures pilotPower == powerThreshold ==> !present
  {
    pilotPower > powerThreshold
  }

  /** Whether the packet holds only its first entry, the synchronisation preamble. */
  predicate IsPacketSyncPreamble(syncPreamble: bool, packetLength: nat): (isPreamble: bool)
    ensures isPreamble <==> syncPreamble && packetLength == 1
  {
    syncPreamble && packetLength == 1
  }

  /** The handlers are run unless the pilot reports the no-input level before both averages exist. */
  predicate IsInputReallyConnected(p: PowerLevels, pilotPower: real): (connected: bool)
    ensures !connected <==>
      pilotPower == NO_INPUT_POWER && (p.averageNoisePower.None? || p.averageSignalPower.None?)
  {
    (p.averageNoisePower.Some? && p.averageSignalPower.Some?) || pilotPower != NO_INPUT_POWER
  }

  /** The noise average as arithmetic sees it: an unset (null) average reads as 0. */
  function NoiseFloor(c: ChannelContext): real {
    c.power.averageNoisePower.GetOr(0.0)
  }

  /** The refined threshold, placed between the signal and noise averages. */
  function SignalThreshold(averageSignalPower: real, averageNoisePower: real): (threshold: real)
    ensures threshold == 0.7 * averageSignalPower + 0.3 * averageNoisePower
    ensures averageNoisePower < averageSignalPower ==> averageNoisePower < threshold < averageSignalPower
    ensures averageNoisePower == averageSignalPower ==> threshold == averageSignalPower
  {
    averageSignalPower
      - THRESHOLD_DIFFERENCE_BETWEEN_AVERAGE_SIGNAL_POWER_UNIT_FACTOR * (averageSignalPower - averageNoisePower)
  }

  /** The threshold computed from a history whose samples all exceed the noise lies strictly between noise and signal. */
  lemma SignalThresholdBetween(history: seq<real>, averageNoisePower: real)
    requires history != []
    requires forall i :: 0 <= i < |history| ==> history[i] > averageNoisePower
    ensures averageNoisePower < ComputeAverage(history)
    ensures averageNoisePower < SignalThreshold(ComputeAverage(history), averageNoisePower) < ComputeAverage(history)
  {
    MeanAbove(history, averageNoisePower);
  }

  /** Subcarrier phase (in turns) converted to a PSK symbol index: round(phase * pskSize) % pskSize. */
  function PskIndex(phase: real, pskSize: int): (index: int)
    requires pskSize != 0
    ensures -Abs(pskSize) < index < Abs(pskSize)
    ensures phase >= 0.0 && pskSize > 0 ==> 0 <= index < pskSize
    ensures phase >= 0.0 && pskSize > 0 ==> index == Round(phase * pskSize as real) % pskSize
    ensures Abs(index) == Abs(Round(phase * pskSize as real)) % Abs(pskSize)
    ensures Round(phase * pskSize as real) >= 0 ==> index >= 0
    ensures Round(phase * pskSize as real) <= 0 ==> index <= 0
  {
    JsRemainder(Round(phase * pskSize as real), pskSize)
  }

  /** One packet row: the symbol index of every subcarrier. */
  function PskRow(carrierDetail: seq<CarrierSample>, pskSize: int): (row: seq<int>)
    requires pskSize != 0
    ensures |row| == |carrierDetail|
    ensures forall j :: 0 <= j < |row| ==> -Abs(pskSize) < row[j] < Abs(pskSize)
    ensures forall j :: 0 <= j < |row| ==> row[j] == PskIndex(carrierDetail[j].phase, pskSize)
  {
    seq(|carrierDetail|, j requires 0 <= j < |carrierDetail| => PskIndex(carrierDetail[j].phase, pskSize))
  }

  /** Whether a packet holds any entry besides the synchronisation preamble. */
  predicate HasPayload(dataPacket: seq<seq<CarrierSample>>, syncPreamble: bool) {
    |dataPacket| > (if syncPreamble then 1 else 0)
  }

  /** The packet as delivered: the preamble entry dropped when enabled, every row converted to symbol indices. */
  function PreparedPacket(dataPacket: seq<seq<CarrierSample>>, syncPreamble: bool, pskSize: int): (packet: seq<seq<int>>)
    requires HasPayload(dataPacket, syncPreamble) ==> pskSize != 0
    ensures |packet| == if syncPreamble && dataPacket != [] then |dataPacket| - 1 else |dataPacket|
    ensures forall k :: 0 <= k < |packet| ==>
      var row := dataPacket[if syncPreamble then k + 1 else k];
      |packet[k]| == |row| && forall j :: 0 <= j < |row| ==> packet[k][j] == PskIndex(row[j].phase, pskSize)
  {
    var payload := if syncPreamble && dataPacket != [] then dataPacket[1..] else dataPacket;
    seq(|payload|, k requires 0 <= k < |payload| => PskRow(payload[k], pskSize))
  }

  /** Positions in a phase history of length n of the two drift points: round(0.43 n), and round(0.57 n) clamped to the last entry. */
  function DriftIndices(n: nat): (ab: (nat, nat))
    requires n > 0
    ensures ab.0 < n && ab.1 < n
    ensures ab.0 <= ab.1
  {
    var a := Round(PHASE_HISTORY_INDEX_A_FACTOR * n as real);
    var b := Round(PHASE_HISTORY_INDEX_B_FACTOR * n as real);
    (a, if b >= n then n - 1 else b)
  }

  /** The two drift points are distinct exactly for histories of other lengths than 1, 2, 4 and 6. */
  lemma DriftIndicesDistinct(n: nat)
    requires n > 0
    ensures DriftIndices(n).0 < DriftIndices(n).1 <==> n != 1 && n != 2 && n != 4 && n != 6
  {
    var a := Round(PHASE_HISTORY_INDEX_A_FACTOR * n as real);
    var b := Round(PHASE_HISTORY_INDEX_B_FACTOR * n as real);
    if n >= 8 {
      assert a as real <= PHASE_HISTORY_INDEX_A_FACTOR * n as real + 0.5;
      assert PHASE_HISTORY_INDEX_B_FACTOR * n as real - 0.5 < b as real;
      assert a < b;
      assert a < n - 1;
    } else if n == 1 {
      assert a == 0;
    } else if n == 2 {
      assert a == 1 && b == 1;
    } else if n == 3 {
      assert a == 1 && b == 2;
    } else if n == 4 {
      assert a == 2 && b == 2;
    } else if n == 5 {
      assert a == 2 && b == 3;
    } else if n == 6 {
      assert a == 3 && b == 3;
    } else {
      assert a == 3 && b == 4;
    }
  }

  /** The drift points of a history are usable: their times differ whenever they are distinct points. */
  predicate DriftDefined(h: seq<PhasePoint>)
    requires h != []
  {
    var ab := DriftIndices(|h|);
    ab.0 < ab.1 ==> h[ab.1].time != h[ab.0].time
  }

  /** Drift estimated from two history points: minus the phase change per unit of time. */
  function Drift(h: seq<PhasePoint>, a: nat, b: nat): (drift: real)
    requires a < b < |h| && h[b].time != h[a].time
    ensures drift * (h[b].time - h[a].time) == h[a].phase - h[b].phase
    ensures h[b].phase == h[a].phase ==> drift == 0.0
  {
    -(h[b].phase - h[a].phase) / (h[b].time - h[a].time)
  }

  /** The receive frequency after drift correction from a phase history. */
  function CorrectedFrequency(frequency: real, h: seq<PhasePoint>): (corrected: real)
    requires h != [] && DriftDefined(h)
    ensures corrected == frequency || AbsReal(corrected - frequency) > FREQUENCY_DRIFT_MIN
    ensures corrected != frequency ==>
      DriftIndices(|h|).0 < DriftIndices(|h|).1 &&
      corrected == frequency + Drift(h, DriftIndices(|h|).0, DriftIndices(|h|).1)
    ensures (DriftIndices(|h|).0 < DriftIndices(|h|).1 &&
             AbsReal(Drift(h, DriftIndices(|h|).0, DriftIndices(|h|).1)) > FREQUENCY_DRIFT_MIN) ==>
      corrected == frequency + Drift(h, DriftIndices(|h|).0, DriftIndices(|h|).1)
    ensures (DriftIndices(|h|).0 < DriftIndices(|h|).1 &&
             AbsReal(Drift(h, DriftIndices(|h|).0, DriftIndices(|h|).1)) <= FREQUENCY_DRIFT_MIN) ==>
      corrected == frequency
  {
    var ab := DriftIndices(|h|);
    if ab.0 < ab.1 then
      var drift := Drift(h, ab.0, ab.1);
      if AbsReal(drift) > FREQUENCY_DRIFT_MIN then frequency + drift else frequency
    else frequency
  }

  /** Histories of length 1, 2, 4 or 6 never correct the frequency. */
  lemma ShortHistoryNoCorrection(frequency: real, h: seq<PhasePoint>)
    requires h != [] && DriftDefined(h)
    requires |h| == 1 || |h| == 2 || |h| == 4 || |h| == 6
    ensures CorrectedFrequency(frequency, h) == frequency
  {
    DriftIndicesDistinct(|h|);
  }

  /** With the phase exactly on any line of slope -d in time, the correction adds d when |d| exceeds the noise bound. */
  lemma LinearPhaseDrift(frequency: real, h: seq<PhasePoint>, p0: real, d: real)
    requires h != [] && DriftDefined(h)
    requires |h| != 1 && |h| != 2 && |h| != 4 && |h| != 6
    requires AbsReal(d) > FREQUENCY_DRIFT_MIN
    requires forall i :: 0 <= i < |h| ==> h[i].phase == p0 - d * h[i].time
    ensures CorrectedFrequency(frequency, h) == frequency + d
  {
    DriftIndicesDistinct(|h|);
    var ab := DriftIndices(|h|);
    var ta, tb := h[ab.0].time, h[ab.1].time;
    assert h[ab.1].phase - h[ab.0].phase == -d * (tb - ta);
    assert Drift(h, ab.0, ab.1) == d;
  }

  /** The phase-correction table after a preamble: each subcarrier's observed phase added to its entry. */
  function PhaseCorrected(phaseCorrection: seq<real>, carrierDetail: seq<CarrierSample>): (corrected: seq<real>)
    ensures |corrected| == |phaseCorrection|
    ensures forall i :: 0 <= i < |corrected| && i < |carrierDetail| ==>
      corrected[i] == phaseCorrection[i] + carrierDetail[i].phase
    ensures forall i :: |carrierDetail| <= i < |corrected| ==> corrected[i] == phaseCorrection[i]
  {
    seq(|phaseCorrection|, i requires 0 <= i < |phaseCorrection| =>
      if i < |carrierDetail| then phaseCorrection[i] + carrierDetail[i].phase else phaseCorrection[i])
  }

  /** Index k names a sample of maximal pilot power (any of them on a tie). */
  predicate IsStrongestIndex(symbols: seq<Tick>, k: int) {
    0 <= k < |symbols| &&
    forall j :: 0 <= j < |symbols| ==> symbols[j].pilotSignal.powerDecibel <= symbols[k].pilotSignal.powerDecibel
  }

  /** Every non-empty symbol buffer has a strongest sample. */
  lemma {:induction false} StrongestIndexExists(symbols: seq<Tick>)
    requires symbols != []
    ensures exists k :: IsStrongestIndex(symbols, k)
    decreases |symbols|
  {
    if |symbols| == 1 {
      assert IsStrongestIndex(symbols, 0);
    } else {
      var init := symbols[..|symbols| - 1];
      StrongestIndexExists(init);
      var k :| IsStrongestIndex(init, k);
      var last := |symbols| - 1;
      if symbols[last].pilotSignal.powerDecibel > symbols[k].pilotSignal.powerDecibel {
        assert IsStrongestIndex(symbols, last);
      } else {
        assert IsStrongestIndex(symbols, k);
      }
    }
  }

  /** The choice a GUARD tick may make: any strongest sample, or nothing to choose from. */
  predicate GuardChoice(symbols: seq<Tick>, k: int) {
    symbols == [] || IsStrongestIndex(symbols, k)
  }

  /** During signal calibration every collected signal sample lies above the noise. */
  predicate SignalHistoryAboveNoise(c: ChannelContext) {
    forall i :: 0 <= i < |c.history.powerHistorySignal| ==> c.history.powerHistorySignal[i] > NoiseFloor(c)
  }

  // ---------------------------------------------------------------------------
  // Step functions: what each operation does to a channel
  // ---------------------------------------------------------------------------

  /** reset: clears every calibration scalar and buffer; asks the driver for a restart unless called while constructing. */
  function ResetStep(c: ChannelContext, fromConstructor: bool): (r: ChannelContext)
    ensures r.power == INITIAL_POWER_LEVELS && r.history == EMPTY_HISTORIES
    ensures r.power.maxSignalPowerSampleSize.None? && r.power.minGuardPowerSampleSize.None?
    ensures r.power.averageNoisePower.None? && r.power.averageSignalPower.None?
    ensures r.power.powerThreshold == INITIAL_POWER_THRESHOLD
    ensures r.power.maxSignalPower.None? && r.power.minGuardPower.None?
    ensures r.history.powerHistoryNoise == [] && r.history.powerHistorySignal == []
    ensures r.history.powerHistoryGuard == [] && r.history.phaseHistory == []
    ensures r.dataPacket == [] && r.dataSymbol == [] && SignalHistoryAboveNoise(r)
    ensures r.cfg == c.cfg && r.rxFrequency == c.rxFrequency
    ensures r.phaseCorrection == c.phaseCorrection && r.delivered == c.delivered
    ensures r.resetScheduled <==> c.resetScheduled || !fromConstructor
  {
    c.(power := INITIAL_POWER_LEVELS, history := EMPTY_HISTORIES, dataPacket := [], dataSymbol := [],
       resetScheduled := c.resetScheduled || !fromConstructor)
  }

  /** Resetting twice leaves the channel as resetting once does. */
  lemma ResetIdempotent(c: ChannelContext, fromConstructor: bool)
    ensures ResetStep(ResetStep(c, fromConstructor), fromConstructor) == ResetStep(c, fromConstructor)
  {
  }

  /** What a tick in `state` needs to be defined: no mean of an empty history (NaN), a PSK size to divide by, distinct drift times. */
  predicate HandlerDefined(c: ChannelContext, hasPacketHandler: bool, state: RxState, tick: Tick, stateDurationTime: real) {
    tick.carrierDetail != [] &&
    match state
    case IdleInit =>
      (c.power.averageNoisePower.None? && stateDurationTime >= c.cfg.sampleCollectionTimeNoise) ==>
        c.history.powerHistoryNoise != []
    case SignalInit =>
      (c.power.averageSignalPower.None? && stateDurationTime >= c.cfg.sampleCollectionTimeSignal
       && tick.pilotSignal.powerDecibel > NoiseFloor(c)) ==> c.history.powerHistorySignal != []
    case Idle =>
      (HasPayload(c.dataPacket, c.cfg.syncPreamble) && hasPacketHandler ==> c.cfg.pskSize != 0) &&
      (c.history.phaseHistory != [] ==> DriftDefined(c.history.phaseHistory))
    case _ => true
  }

  /** IDLE_INIT: collect noise; after the collection time set the noise average and the threshold 10 dB above it; report FIRST_SYNC_WAIT on the tick after that. */
  function IdleInitStep(c: ChannelContext, pilotPower: real, stateDurationTime: real): (r: Step)
    requires (c.power.averageNoisePower.None? && stateDurationTime >= c.cfg.sampleCollectionTimeNoise) ==>
      c.history.powerHistoryNoise != []
    ensures r.ctx == c.(power := r.ctx.power, history := r.ctx.history)
    ensures r.ctx.power == c.power.(averageNoisePower := r.ctx.power.averageNoisePower,
                                    powerThreshold := r.ctx.power.powerThreshold)
    ensures r.ctx.history == c.history.(powerHistoryNoise := r.ctx.history.powerHistoryNoise)
    ensures r.next == (if c.power.averageNoisePower.Some? then Some(FirstSyncWait) else None)
    ensures c.power.averageNoisePower.Some? ==> r.ctx == c
    ensures c.power.averageNoisePower.None? && stateDurationTime < c.cfg.sampleCollectionTimeNoise ==>
      r.ctx.power == c.power && r.ctx.history.powerHistoryNoise == c.history.powerHistoryNoise + [pilotPower]
    ensures c.power.averageNoisePower.None? && stateDurationTime >= c.cfg.sampleCollectionTimeNoise ==>
      r.ctx.history.powerHistoryNoise == [] &&
      r.ctx.power.averageNoisePower == Some(ComputeAverage(c.history.powerHistoryNoise)) &&
      r.ctx.power.powerThreshold
        == ComputeAverage(c.history.powerHistoryNoise) + INITIAL_DIFFERENCE_BETWEEN_NOISE_AND_SIGNAL
  {
    if c.power.averageNoisePower.Some? then Step(c, Some(FirstSyncWait))
    else if stateDurationTime < c.cfg.sampleCollectionTimeNoise then
      Step(c.(history := c.history.(powerHistoryNoise := c.history.powerHistoryNoise + [pilotPower])), None)
    else
      var average := ComputeAverage(c.history.powerHistoryNoise);
      Step(c.(power := c.power.(averageNoisePower := Some(average),
                                powerThreshold := average + INITIAL_DIFFERENCE_BETWEEN_NOISE_AND_SIGNAL),
              history := c.history.(powerHistoryNoise := [])), None)
  }

  /** A constant noise level N calibrates to the average N and the threshold N + 10. */
  lemma NoiseCalibrationOfConstantStream(c: ChannelContext, pilotPower: real, stateDurationTime: real, level: real)
    requires c.power.averageNoisePower.None? && stateDurationTime >= c.cfg.sampleCollectionTimeNoise
    requires c.history.powerHistoryNoise != []
    requires forall i :: 0 <= i < |c.history.powerHistoryNoise| ==> c.history.powerHistoryNoise[i] == level
    ensures IdleInitStep(c, pilotPower, stateDurationTime).ctx.power.averageNoisePower == Some(level)
    ensures IdleInitStep(c, pilotPower, stateDurationTime).ctx.power.powerThreshold == level + 10.0
  {
    MeanOfConstant(c.history.powerHistoryNoise, level);
  }

  /** SIGNAL_INIT: leave for IDLE once calibrated and the pilot is gone; FATAL_ERROR on a pilot at or below the noise; else collect signal, average once, and record phase. */
  function SignalInitStep(c: ChannelContext, tick: Tick, stateDurationTime: real): (r: Step)
    requires tick.carrierDetail != []
    requires (c.power.averageSignalPower.None? && stateDurationTime >= c.cfg.sampleCollectionTimeSignal
              && tick.pilotSignal.powerDecibel > NoiseFloor(c)) ==> c.history.powerHistorySignal != []
    ensures r.ctx == c.(power := r.ctx.power, history := r.ctx.history)
    ensures r.ctx.power == c.power.(averageSignalPower := r.ctx.power.averageSignalPower,
                                    powerThreshold := r.ctx.power.powerThreshold)
    ensures r.ctx.history == c.history.(powerHistorySignal := r.ctx.history.powerHistorySignal,
                                        phaseHistory := r.ctx.history.phaseHistory)
    ensures r.next == Some(Idle) <==>
      c.power.averageSignalPower.Some? && !IsPilotSignalPresent(tick.pilotSignal.powerDecibel, c.power.powerThreshold)
    ensures r.next == Some(FatalError) <==>
      !(c.power.averageSignalPower.Some? && !IsPilotSignalPresent(tick.pilotSignal.powerDecibel, c.power.powerThreshold))
      && tick.pilotSignal.powerDecibel <= NoiseFloor(c)
    ensures r.next == None || r.next == Some(Idle) || r.next == Some(FatalError)
    ensures r.next.Some? ==> r.ctx == c
    ensures r.next.None? ==>
      r.ctx.history.phaseHistory == c.history.phaseHistory + [PhasePoint(stateDurationTime, tick.carrierDetail[0].phase)]
    ensures c.power.averageSignalPower.Some? ==> r.ctx.power == c.power
    ensures r.next.None? && stateDurationTime < c.cfg.sampleCollectionTimeSignal ==>
      r.ctx.power == c.power &&
      r.ctx.history.powerHistorySignal == c.history.powerHistorySignal + [tick.pilotSignal.powerDecibel]
    ensures r.next.None? && stateDurationTime >= c.cfg.sampleCollectionTimeSignal && c.power.averageSignalPower.None? ==>
      r.ctx.history.powerHistorySignal == [] &&
      r.ctx.power.averageSignalPower == Some(ComputeAverage(c.history.powerHistorySignal)) &&
      r.ctx.power.powerThreshold == SignalThreshold(ComputeAverage(c.history.powerHistorySignal), NoiseFloor(c))
    ensures r.next.None? && stateDurationTime >= c.cfg.sampleCollectionTimeSignal && c.power.averageSignalPower.Some? ==>
      r.ctx.history.powerHistorySignal == c.history.powerHistorySignal
    ensures SignalHistoryAboveNoise(c) ==> SignalHistoryAboveNoise(r.ctx)
  {
    var powerDecibel := tick.pilotSignal.powerDecibel;
    var noise := NoiseFloor(c);
    if c.power.averageSignalPower.Some? && !IsPilotSignalPresent(powerDecibel, c.power.powerThreshold) then
      Step(c, Some(Idle))
    else if powerDecibel <= noise then Step(c, Some(FatalError))
    else
      var c1 :=
        if stateDurationTime < c.cfg.sampleCollectionTimeSignal then
          c.(history := c.history.(powerHistorySignal := c.history.powerHistorySignal + [powerDecibel]))
        else if c.power.averageSignalPower.None? then
          var average := ComputeAverage(c.history.powerHistorySignal);
          c.(power := c.power.(averageSignalPower := Some(average), powerThreshold := SignalThreshold(average, noise)),
             history := c.history.(powerHistorySignal := []))
        else c;
      var point := PhasePoint(stateDurationTime, tick.carrierDetail[0].phase);
      Step(c1.(history := c1.history.(phaseHistory := c1.history.phaseHistory + [point])), None)
  }

  /** Signal calibration from samples that all exceed the noise puts the threshold strictly between the noise and the new signal average. */
  lemma SignalInitThresholdBetween(c: ChannelContext, tick: Tick, stateDurationTime: real)
    requires tick.carrierDetail != []
    requires (c.power.averageSignalPower.None? && stateDurationTime >= c.cfg.sampleCollectionTimeSignal
              && tick.pilotSignal.powerDecibel > NoiseFloor(c)) ==> c.history.powerHistorySignal != []
    requires SignalHistoryAboveNoise(c) && c.power.averageSignalPower.None?
    requires SignalInitStep(c, tick, stateDurationTime).ctx.power.averageSignalPower.Some?
    ensures NoiseFloor(c) < SignalInitStep(c, tick, stateDurationTime).ctx.power.powerThreshold
              < SignalInitStep(c, tick, stateDurationTime).ctx.power.averageSignalPower.value
  {
    SignalThresholdBetween(c.history.powerHistorySignal, NoiseFloor(c));
  }

  /** A constant signal level S above the noise N calibrates to the average S and the threshold S - 0.3 (S - N). */
  lemma SignalCalibrationOfConstantStream(c: ChannelContext, tick: Tick, stateDurationTime: real, level: real)
    requires tick.carrierDetail != []
    requires c.power.averageSignalPower.None? && stateDurationTime >= c.cfg.sampleCollectionTimeSignal
    requires tick.pilotSignal.powerDecibel > NoiseFloor(c)
    requires c.history.powerHistorySignal != []
    requires forall i :: 0 <= i < |c.history.powerHistorySignal| ==> c.history.powerHistorySignal[i] == level
    ensures SignalInitStep(c, tick, stateDurationTime).ctx.power.averageSignalPower == Some(level)
    ensures SignalInitStep(c, tick, stateDurationTime).ctx.power.powerThreshold
      == level - 0.3 * (level - NoiseFloor(c))
  {
    MeanOfConstant(c.history.powerHistorySignal, level);
  }

  /** IDLE: hand a non-empty packet to the packet handler (if any) and clear it; correct drift from the phase history and clear it; drop the guard history. */
  function IdleStep(c: ChannelContext, hasPacketHandler: bool): (r: Step)
    requires HasPayload(c.dataPacket, c.cfg.syncPreamble) && hasPacketHandler ==> c.cfg.pskSize != 0
    requires c.history.phaseHistory != [] ==> DriftDefined(c.history.phaseHistory)
    ensures r.ctx == c.(delivered := r.ctx.delivered, dataPacket := r.ctx.dataPacket,
                        rxFrequency := r.ctx.rxFrequency, history := r.ctx.history)
    ensures r.ctx.history == c.history.(phaseHistory := [], powerHistoryGuard := [])
    ensures r.next.None? && r.ctx.dataPacket == []
    ensures r.ctx.delivered ==
      if c.dataPacket != [] && hasPacketHandler
      then c.delivered + [PreparedPacket(c.dataPacket, c.cfg.syncPreamble, c.cfg.pskSize)]
      else c.delivered
    ensures r.ctx.rxFrequency ==
      if c.history.phaseHistory != [] then CorrectedFrequency(c.rxFrequency, c.history.phaseHistory) else c.rxFrequency
  {
    var delivered :=
      if c.dataPacket != [] && hasPacketHandler
      then c.delivered + [PreparedPacket(c.dataPacket, c.cfg.syncPreamble, c.cfg.pskSize)]
      else c.delivered;
    var frequency :=
      if c.history.phaseHistory != [] then CorrectedFrequency(c.rxFrequency, c.history.phaseHistory) else c.rxFrequency;
    Step(c.(delivered := delivered, dataPacket := [], rxFrequency := frequency,
            history := c.history.(phaseHistory := [], powerHistoryGuard := [])), None)
  }

  /** SYMBOL: consume the guard history into its minimum, then record the pilot power and buffer the tick. */
  function SymbolStep(c: ChannelContext, tick: Tick): (r: Step)
    ensures r.ctx == c.(power := r.ctx.power, history := r.ctx.history, dataSymbol := r.ctx.dataSymbol)
    ensures r.ctx.power == c.power.(minGuardPower := r.ctx.power.minGuardPower,
                                    minGuardPowerSampleSize := r.ctx.power.minGuardPowerSampleSize)
    ensures r.ctx.history == c.history.(powerHistoryGuard := [], powerHistorySignal := r.ctx.history.powerHistorySignal)
    ensures r.next.None?
    ensures r.ctx.dataSymbol == c.dataSymbol + [tick]
    ensures r.ctx.history.powerHistorySignal == c.history.powerHistorySignal + [tick.pilotSignal.powerDecibel]
    ensures c.history.powerHistoryGuard != [] ==>
      var guard := c.history.powerHistoryGuard;
      r.ctx.power.minGuardPowerSampleSize == Some(|guard|) &&
      r.ctx.power.minGuardPower.Some? && r.ctx.power.minGuardPower.value in guard &&
      forall i :: 0 <= i < |guard| ==> r.ctx.power.minGuardPower.value <= guard[i]
    ensures c.history.powerHistoryGuard == [] ==> r.ctx.power == c.power
  {
    var c1 :=
      if c.history.powerHistoryGuard != [] then
        c.(power := c.power.(minGuardPower := Some(MinInArray(c.history.powerHistoryGuard)),
                             minGuardPowerSampleSize := Some(|c.history.powerHistoryGuard|)),
           history := c.history.(powerHistoryGuard := []))
      else c;
    Step(c1.(history := c1.history.(powerHistorySignal := c1.history.powerHistorySignal + [tick.pilotSignal.powerDecibel]),
             dataSymbol := c1.dataSymbol + [tick]), None)
  }

  /** SYNC: record the phase of subcarrier 0. */
  function SyncStep(c: ChannelContext, tick: Tick, stateDurationTime: real): (r: Step)
    requires tick.carrierDetail != []
    ensures r.ctx == c.(history := c.history.(phaseHistory := r.ctx.history.phaseHistory))
    ensures r.ctx.history.phaseHistory == c.history.phaseHistory + [PhasePoint(stateDurationTime, tick.carrierDetail[0].phase)]
    ensures r.next.None?
  {
    var point := PhasePoint(stateDurationTime, tick.carrierDetail[0].phase);
    Step(c.(history := c.history.(phaseHistory := c.history.phaseHistory + [point])), None)
  }

  /**
   * GUARD: consume the signal history into its maximum, record the guard power, and
   * move the strongest buffered sample (index k) into the packet; the first entry of a
   * preamble packet also corrects the phase table.
   */
  function GuardStep(c: ChannelContext, tick: Tick, k: int): (r: Step)
    requires GuardChoice(c.dataSymbol, k)
    ensures r.ctx == c.(power := r.ctx.power, history := r.ctx.history, dataPacket := r.ctx.dataPacket,
                        phaseCorrection := r.ctx.phaseCorrection, dataSymbol := [])
    ensures r.ctx.power == c.power.(maxSignalPower := r.ctx.power.maxSignalPower,
                                    maxSignalPowerSampleSize := r.ctx.power.maxSignalPowerSampleSize)
    ensures r.ctx.history == c.history.(powerHistorySignal := [],
                                        powerHistoryGuard := c.history.powerHistoryGuard + [tick.pilotSignal.powerDecibel])
    ensures r.next.None?
    ensures c.history.powerHistorySignal != [] ==>
      var signal := c.history.powerHistorySignal;
      r.ctx.power.maxSignalPowerSampleSize == Some(|signal|) &&
      r.ctx.power.maxSignalPower.Some? && r.ctx.power.maxSignalPower.value in signal &&
      forall i :: 0 <= i < |signal| ==> signal[i] <= r.ctx.power.maxSignalPower.value
    ensures c.history.powerHistorySignal == [] ==> r.ctx.power == c.power
    ensures c.dataSymbol == [] ==> r.ctx.dataPacket == c.dataPacket && r.ctx.phaseCorrection == c.phaseCorrection
    ensures c.dataSymbol != [] ==>
      r.ctx.dataPacket == c.dataPacket + [c.dataSymbol[k].carrierDetail] &&
      r.ctx.phaseCorrection ==
        if IsPacketSyncPreamble(c.cfg.syncPreamble, |r.ctx.dataPacket|)
        then PhaseCorrected(c.phaseCorrection, c.dataSymbol[k].carrierDetail)
        else c.phaseCorrection
  {
    var signal := c.history.powerHistorySignal;
    var power :=
      if signal != [] then c.power.(maxSignalPower := Some(MaxInArray(signal)), maxSignalPowerSampleSize := Some(|signal|))
      else c.power;
    var c1 := c.(power := power,
                 history := c.history.(powerHistorySignal := [],
                                       powerHistoryGuard := c.history.powerHistoryGuard + [tick.pilotSignal.powerDecibel]));
    if c1.dataSymbol == [] then Step(c1, None)
    else
      var best := c1.dataSymbol[k].carrierDetail;
      var packet := c1.dataPacket + [best];
      var corrections :=
        if IsPacketSyncPreamble(c1.cfg.syncPreamble, |packet|) then PhaseCorrected(c1.phaseCorrection, best)
        else c1.phaseCorrection;
      Step(c1.(dataPacket := packet, phaseCorrection := corrections, dataSymbol := []), None)
  }

  /** The result of running the handler of `state` on context c0: context c1 and the requested state `next`. */
  ghost predicate Handled(c0: ChannelContext, c1: ChannelContext, hasPacketHandler: bool,
                          state: RxState, tick: Tick, stateDurationTime: real, next: Option<RxState>)
    requires HandlerDefined(c0, hasPacketHandler, state, tick, stateDurationTime)
  {
    match state
    case IdleInit => Step(c1, next) == IdleInitStep(c0, tick.pilotSignal.powerDecibel, stateDurationTime)
    case SignalInit => Step(c1, next) == SignalInitStep(c0, tick, stateDurationTime)
    case Idle => Step(c1, next) == IdleStep(c0, hasPacketHandler)
    case Symbol => Step(c1, next) == SymbolStep(c0, tick)
    case Sync => Step(c1, next) == SyncStep(c0, tick, stateDurationTime)
    case Guard => exists k :: GuardChoice(c0.dataSymbol, k) && Step(c1, next) == GuardStep(c0, tick, k)
    case FirstSyncWait => c1 == c0 && next.None?
    case FatalError => c1 == c0 && next.None?
    case Error => c1 == c0 && next.None?
  }

  // ---------------------------------------------------------------------------
  // Properties across handlers
  // ---------------------------------------------------------------------------

  /** Every handler keeps the buffers and the phase table shaped by the subcarrier count. */
  lemma HandlersPreserveWellFormed(c0: ChannelContext, c1: ChannelContext, n: nat, hasPacketHandler: bool,
                                   state: RxState, tick: Tick, stateDurationTime: real, next: Option<RxState>)
    requires WellFormed(c0, n) && WellFormedTick(tick, n)
    requires HandlerDefined(c0, hasPacketHandler, state, tick, stateDurationTime)
    requires Handled(c0, c1, hasPacketHandler, state, tick, stateDurationTime, next)
    ensures WellFormed(c1, n)
  {
    if state == Guard {
      var k :| GuardChoice(c0.dataSymbol, k) && Step(c1, next) == GuardStep(c0, tick, k);
    } else if state == Symbol {
      assert c1.dataSymbol == c0.dataSymbol + [tick];
    }
  }

  /** No handler but IDLE removes anything from the packet buffer. */
  lemma PacketOnlyClearedInIdle(c0: ChannelContext, c1: ChannelContext, hasPacketHandler: bool,
                                state: RxState, tick: Tick, stateDurationTime: real, next: Option<RxState>)
    requires HandlerDefined(c0, hasPacketHandler, state, tick, stateDurationTime)
    requires Handled(c0, c1, hasPacketHandler, state, tick, stateDurationTime, next)
    requires state != Idle
    ensures |c0.dataPacket| <= |c1.dataPacket| && c1.dataPacket[..|c0.dataPacket|] == c0.dataPacket
  {
    if state == Guard {
      var k :| GuardChoice(c0.dataSymbol, k) && Step(c1, next) == GuardStep(c0, tick, k);
    }
  }

  /** Once set, the noise and signal averages are never overwritten by a handler, and the threshold stays once both exist. */
  lemma CalibrationSetAtMostOnce(c0: ChannelContext, c1: ChannelContext, hasPacketHandler: bool,
                                 state: RxState, tick: Tick, stateDurationTime: real, next: Option<RxState>)
    requires HandlerDefined(c0, hasPacketHandler, state, tick, stateDurationTime)
    requires Handled(c0, c1, hasPacketHandler, state, tick, stateDurationTime, next)
    ensures c0.power.averageNoisePower.Some? ==> c1.power.averageNoisePower == c0.power.averageNoisePower
    ensures c0.power.averageSignalPower.Some? ==> c1.power.averageSignalPower == c0.power.averageSignalPower
    ensures c0.power.averageNoisePower.Some? && c0.power.averageSignalPower.Some? ==>
      c1.power.powerThreshold == c0.power.powerThreshold
    ensures c1.cfg == c0.cfg && c1.resetScheduled == c0.resetScheduled
  {
    if state == Guard {
      var k :| GuardChoice(c0.dataSymbol, k) && Step(c1, next) == GuardStep(c0, tick, k);
    }
  }

  /** SYMBOL ticks applied in order: their handler steps. */
  function SymbolSteps(c: ChannelContext, ticks: seq<Tick>): ChannelContext
    decreases |ticks|
  {
    if ticks == [] then c else SymbolStep(SymbolSteps(c, ticks[..|ticks| - 1]), ticks[|ticks| - 1]).ctx
  }

  /** A run of SYMBOL ticks buffers exactly those ticks and leaves the packet alone. */
  lemma {:induction false} SymbolStepsBuffer(c: ChannelContext, ticks: seq<Tick>)
    ensures SymbolSteps(c, ticks).dataSymbol == c.dataSymbol + ticks
    ensures SymbolSteps(c, ticks).dataPacket == c.dataPacket
    ensures SymbolSteps(c, ticks).cfg == c.cfg
    ensures SymbolSteps(c, ticks).phaseCorrection == c.phaseCorrection
    decreases |ticks|
  {
    if ticks != [] {
      var init := ticks[..|ticks| - 1];
      SymbolStepsBuffer(c, init);
      assert init + [ticks[|ticks| - 1]] == ticks;
    }
  }

  /** A SYMBOL..SYMBOL,GUARD cycle over N >= 1 samples appends exactly one strongest of them to the packet. */
  lemma SymbolGuardCycle(c: ChannelContext, ticks: seq<Tick>, guardTick: Tick, k: int)
    requires c.dataSymbol == [] && ticks != []
    requires IsStrongestIndex(ticks, k)
    ensures GuardChoice(SymbolSteps(c, ticks).dataSymbol, k)
    ensures GuardStep(SymbolSteps(c, ticks), guardTick, k).ctx.dataPacket == c.dataPacket + [ticks[k].carrierDetail]
    ensures GuardStep(SymbolSteps(c, ticks), guardTick, k).ctx.dataSymbol == []
  {
    SymbolStepsBuffer(c, ticks);
    assert SymbolSteps(c, ticks).dataSymbol == ticks;
  }

  // ---------------------------------------------------------------------------
  // The manager object
  // ---------------------------------------------------------------------------

  /**
   * One channel's manager. The source keeps every scalar and list as its own field;
   * here they are grouped by role into `config`, `power` and `history`, which the
   * methods reassign component by component.
   */
  class RxStateMachineManager {
    const channelIndex: int
    /** Whether a packet receive handler was given at construction. */
    const hasPacketHandler: bool
    /** Number of OFDM subcarriers of this channel, pilot included. */
    const subcarrierCount: nat

    var config: Config
    var power: PowerLevels
    var history: Histories
    var currentData: Option<Tick>
    var dataPacket: seq<seq<CarrierSample>>
    var dataSymbol: seq<Tick>

    /** The physical layer's receive frequency of subcarrier 0 of this channel. */
    var rxFrequency: real
    /** The physical layer's phase corrections of this channel, one per subcarrier. */
    var phaseCorrection: seq<real>
    /** Packets handed to the packet receive handler, oldest first. */
    var delivered: seq<seq<seq<int>>>
    /** Whether a restart of the state-machine driver has been requested. */
    var resetScheduled: bool

    ghost function Snapshot(): ChannelContext
      reads this
    {
      ChannelContext(config, power, history, dataPacket, dataSymbol,
                     rxFrequency, phaseCorrection, delivered, resetScheduled)
    }

    ghost predicate Valid()
      reads this
    {
      WellFormed(Snapshot(), subcarrierCount) &&
      (currentData.Some? ==> WellFormedTick(currentData.value, subcarrierCount))
    }

    /** A manager for one channel: nothing configured, everything reset, no restart requested. */
    constructor (channelIndex: int, hasPacketHandler: bool, subcarrierCount: nat,
                 rxFrequency: real, phaseCorrection: seq<real>)
      requires subcarrierCount >= 1 && |phaseCorrection| == subcarrierCount
      ensures Valid() && currentData.None?
      ensures this.channelIndex == channelIndex && this.hasPacketHandler == hasPacketHandler
      ensures this.subcarrierCount == subcarrierCount
      ensures Snapshot() == ChannelContext(Config(0.0, 0.0, false, 0, None, None, None),
                                           INITIAL_POWER_LEVELS, EMPTY_HISTORIES, [], [],
                                           rxFrequency, phaseCorrection, [], false)
    {
      this.channelIndex := channelIndex;
      this.hasPacketHandler := hasPacketHandler;
      this.subcarrierCount := subcarrierCount;
      config := Config(0.0, 0.0, false, 0, None, None, None);
      power := INITIAL_POWER_LEVELS;
      history := EMPTY_HISTORIES;
      currentData := None;
      dataPacket := [];
      dataSymbol := [];
      this.rxFrequency := rxFrequency;
      this.phaseCorrection := phaseCorrection;
      delivered := [];
      resetScheduled := false;
    }

    /** Clears the channel's calibration and buffers; unless called while constructing, also asks the driver to restart. */
    method Reset(fromConstructor: bool)
      requires Valid()
      modifies this
      ensures Valid() && currentData.None?
      ensures Snapshot() == ResetStep(old(Snapshot()), fromConstructor)
    {
      power := INITIAL_POWER_LEVELS;
      history := EMPTY_HISTORIES;
      currentData := None;
      dataPacket := [];
      dataSymbol := [];
      if !fromConstructor {
        resetScheduled := true;
      }
    }

    method SetSymbolStateMaxDurationTime(value: real)
      modifies this`config
      ensures config == old(config).(symbolStateMaxDurationTime := Some(value))
    {
      config := config.(symbolStateMaxDurationTime := Some(value));
    }

    method SetGuardStateMaxDurationTime(value: real)
      modifies this`config
      ensures config == old(config).(guardStateMaxDurationTime := Some(value))
    {
      config := config.(guardStateMaxDurationTime := Some(value));
    }

    method SetSyncStateMaxDurationTime(value: real)
      modifies this`config
      ensures config == old(config).(syncStateMaxDurationTime := Some(value))
    {
      config := config.(syncStateMaxDurationTime := Some(value));
    }

    method SetSampleCollectionTimeNoise(value: real)
      modifies this`config
      ensures config == old(config).(sampleCollectionTimeNoise := value)
    {
      config := config.(sampleCollectionTimeNoise := value);
    }

    method SetSampleCollectionTimeSignal(value: real)
      modifies this`config
      ensures config == old(config).(sampleCollectionTimeSignal := value)
    {
      config := config.(sampleCollectionTimeSignal := value);
    }

    method SetSyncPreamble(value: bool)
      modifies this`config
      ensures config == old(config).(syncPreamble := value)
    {
      config := config.(syncPreamble := value);
    }

    method SetPskSize(value: int)
      modifies this`config
      ensures config == old(config).(pskSize := value)
    {
      config := config.(pskSize := value);
    }

    method HandlerIdleInit(stateDurationTime: real) returns (next: Option<RxState>)
      requires Valid() && currentData.Some?
      requires (power.averageNoisePower.None? && stateDurationTime >= config.sampleCollectionTimeNoise) ==>
        history.powerHistoryNoise != []
      modifies this
      ensures Valid() && currentData == old(currentData)
      ensures Step(Snapshot(), next) == IdleInitStep(old(Snapshot()), currentData.value.pilotSignal.powerDecibel, stateDurationTime)
    {
      if power.averageNoisePower.Some? {
        return Some(FirstSyncWait);
      }
      if stateDurationTime < config.sampleCollectionTimeNoise {
        history := history.(powerHistoryNoise := history.powerHistoryNoise + [currentData.value.pilotSignal.powerDecibel]);
      } else {
        var average := ComputeAverage(history.powerHistoryNoise);
        power := power.(averageNoisePower := Some(average));
        history := history.(powerHistoryNoise := []);
        power := power.(powerThreshold := average + INITIAL_DIFFERENCE_BETWEEN_NOISE_AND_SIGNAL);
      }
      next := None;
    }

    method HandlerFirstSyncWait(stateDurationTime: real) returns (next: Option<RxState>)
      ensures next.None?
    {
      next := None;
    }

    method HandlerSignalInit(stateDurationTime: real) returns (next: Option<RxState>)
      requires Valid() && currentData.Some?
      requires (power.averageSignalPower.None? && stateDurationTime >= config.sampleCollectionTimeSignal
                && currentData.value.pilotSignal.powerDecibel > power.averageNoisePower.GetOr(0.0)) ==>
        history.powerHistorySignal != []
      modifies this
      ensures Valid() && currentData == old(currentData)
      ensures Step(Snapshot(), next) == SignalInitStep(old(Snapshot()), currentData.value, stateDurationTime)
    {
      var powerDecibel := currentData.value.pilotSignal.powerDecibel;
      if power.averageSignalPower.Some? && !IsPilotSignalPresent(powerDecibel, power.powerThreshold) {
        return Some(Idle);
      }
      var averageNoisePower := power.averageNoisePower.GetOr(0.0);
      if powerDecibel <= averageNoisePower {
        return Some(FatalError);
      }
      if stateDurationTime < config.sampleCollectionTimeSignal {
        history := history.(powerHistorySignal := history.powerHistorySignal + [powerDecibel]);
      } else if power.averageSignalPower.None? {
        var average := ComputeAverage(history.powerHistorySignal);
        history := history.(powerHistorySignal := []);
        var thresholdDifference :=
          THRESHOLD_DIFFERENCE_BETWEEN_AVERAGE_SIGNAL_POWER_UNIT_FACTOR * (average - averageNoisePower);
        power := power.(averageSignalPower := Some(average), powerThreshold := average - thresholdDifference);
      }
      CollectPhaseHistory(stateDurationTime, currentData.value.carrierDetail);
      next := None;
    }

    method HandlerFatalError(stateDurationTime: real) returns (next: Option<RxState>)
      ensures next.None?
    {
      next := None;
    }

    method HandlerIdle(stateDurationTime: real) returns (next: Option<RxState>)
      requires Valid()
      requires HasPayload(dataPacket, config.syncPreamble) && hasPacketHandler ==> config.pskSize != 0
      requires history.phaseHistory != [] ==> DriftDefined(history.phaseHistory)
      modifies this
      ensures Valid() && currentData == old(currentData)
      ensures Step(Snapshot(), next) == IdleStep(old(Snapshot()), hasPacketHandler)
    {
      if |dataPacket| > 0 {
        if hasPacketHandler {
          var packetDataFinal := PreparePacket(dataPacket);
          delivered := delivered + [packetDataFinal];
        }
        dataPacket := [];
      }
      if |history.phaseHistory| > 0 {
        HandlePhaseHistory(history.phaseHistory);
        history := history.(phaseHistory := []);
      }
      history := history.(powerHistoryGuard := []);
      next := None;
    }

    method HandlerSymbol(stateDurationTime: real) returns (next: Option<RxState>)
      requires Valid() && currentData.Some?
      modifies this
      ensures Valid() && currentData == old(currentData)
      ensures Step(Snapshot(), next) == SymbolStep(old(Snapshot()), currentData.value)
    {
      if |history.powerHistoryGuard| > 0 {
        power := power.(minGuardPower := Some(MinInArray(history.powerHistoryGuard)),
                        minGuardPowerSampleSize := Some(|history.powerHistoryGuard|));
        history := history.(powerHistoryGuard := []);
      }
      history := history.(powerHistorySignal := history.powerHistorySignal + [currentData.value.pilotSignal.powerDecibel]);
      dataSymbol := dataSymbol + [currentData.value];
      next := None;
    }

    method HandlerSync(stateDurationTime: real) returns (next: Option<RxState>)
      requires Valid() && currentData.Some?
      modifies this
      ensures Valid() && currentData == old(currentData)
      ensures Step(Snapshot(), next) == SyncStep(old(Snapshot()), currentData.value, stateDurationTime)
    {
      CollectPhaseHistory(stateDurationTime, currentData.value.carrierDetail);
      next := None;
    }

    method HandlerGuard(stateDurationTime: real) returns (next: Option<RxState>)
      requires Valid() && currentData.Some?
      modifies this
      ensures Valid() && currentData == old(currentData)
      ensures exists k :: (GuardChoice(old(dataSymbol), k) &&
                           Step(Snapshot(), next) == GuardStep(old(Snapshot()), currentData.value, k))
    {
      if |history.powerHistorySignal| > 0 {
        power := power.(maxSignalPower := Some(MaxInArray(history.powerHistorySignal)),
                        maxSignalPowerSampleSize := Some(|history.powerHistorySignal|));
        history := history.(powerHistorySignal := []);
      }
      history := history.(powerHistoryGuard := history.powerHistoryGuard + [currentData.value.pilotSignal.powerDecibel]);
      var bestQualityIndex: int := 0;
      if |dataSymbol| > 0 {
        StrongestIndexExists(dataSymbol);
        bestQualityIndex :| IsStrongestIndex(dataSymbol, bestQualityIndex);
        var best := dataSymbol[bestQualityIndex].carrierDetail;
        dataPacket := dataPacket + [best];
        if IsPacketSyncPreamble(config.syncPreamble, |dataPacket|) {
          HandlePacketSyncPreamble(best);
        }
        dataSymbol := [];
      }
      next := None;
      assert GuardChoice(old(dataSymbol), bestQualityIndex);
    }

    method HandlerError(stateDurationTime: real) returns (next: Option<RxState>)
      ensures next.None?
    {
      next := None;
    }

    /** Appends the time and the phase of subcarrier 0 to the phase history. */
    method CollectPhaseHistory(stateDurationTime: real, carrierDetail: seq<CarrierSample>)
      requires carrierDetail != []
      modifies this`history
      ensures history == old(history).(phaseHistory := old(history.phaseHistory)
                                                       + [PhasePoint(stateDurationTime, carrierDetail[0].phase)])
    {
      history := history.(phaseHistory := history.phaseHistory + [PhasePoint(stateDurationTime, carrierDetail[0].phase)]);
    }

    /** Applies the drift correction of a phase history to the receive frequency. */
    method HandlePhaseHistory(phaseHistory: seq<PhasePoint>)
      requires phaseHistory != [] && DriftDefined(phaseHistory)
      modifies this`rxFrequency
      ensures rxFrequency == CorrectedFrequency(old(rxFrequency), phaseHistory)
    {
      var indexA := Round(PHASE_HISTORY_INDEX_A_FACTOR * |phaseHistory| as real);
      var indexB := Round(PHASE_HISTORY_INDEX_B_FACTOR * |phaseHistory| as real);
      indexB := if indexB >= |phaseHistory| then |phaseHistory| - 1 else indexB;
      if indexA != indexB && indexA < indexB {
        var drift := -(phaseHistory[indexB].phase - phaseHistory[indexA].phase)
                     / (phaseHistory[indexB].time - phaseHistory[indexA].time);
        if AbsReal(drift) > FREQUENCY_DRIFT_MIN {
          var current := rxFrequency;
          rxFrequency := current + drift;
        }
      }
    }

    /** Adds each subcarrier's preamble phase to its phase-correction entry. */
    method HandlePacketSyncPreamble(carrierDetail: seq<CarrierSample>)
      requires |carrierDetail| <= |phaseCorrection|
      modifies this`phaseCorrection
      ensures phaseCorrection == PhaseCorrected(old(phaseCorrection), carrierDetail)
    {
      var i := 0;
      while i < |carrierDetail|
        invariant 0 <= i <= |carrierDetail|
        invariant phaseCorrection == PhaseCorrected(old(phaseCorrection), carrierDetail[..i])
      {
        var current := phaseCorrection[i];
        phaseCorrection := phaseCorrection[i := current + carrierDetail[i].phase];
        i := i + 1;
      }
      assert carrierDetail[..i] == carrierDetail;
    }

    /** Converts a packet to symbol indices, leaving out the preamble entry when enabled. */
    method PreparePacket(dataPacket: seq<seq<CarrierSample>>) returns (result: seq<seq<int>>)
      requires HasPayload(dataPacket, config.syncPreamble) ==> config.pskSize != 0
      ensures result == PreparedPacket(dataPacket, config.syncPreamble, config.pskSize)
    {
      var syncPreamble, pskSize := config.syncPreamble, config.pskSize;
      result := [];
      var i := 0;
      while i < |dataPacket|
        invariant 0 <= i <= |dataPacket|
        invariant |result| == if syncPreamble && i > 0 then i - 1 else i
        invariant forall k :: 0 <= k < |result| ==>
          result[k] == PskRow(dataPacket[if syncPreamble then k + 1 else k], pskSize)
      {
        if i == 0 && syncPreamble {
          i := i + 1;
          continue;
        }
        var carrierDetail := dataPacket[i];
        var ofdmList: seq<int> := [];
        var j := 0;
        while j < |carrierDetail|
          invariant 0 <= j <= |carrierDetail|
          invariant |ofdmList| == j
          invariant forall m :: 0 <= m < j ==> ofdmList[m] == PskIndex(carrierDetail[m].phase, pskSize)
        {
          ofdmList := ofdmList + [PskIndex(carrierDetail[j].phase, pskSize)];
          j := j + 1;
        }
        result := result + [ofdmList];
        i := i + 1;
      }
    }

    /** Runs the handler of `state`, as the driver does once per tick. */
    method Dispatch(state: RxState, stateDurationTime: real) returns (next: Option<RxState>)
      requires Valid() && currentData.Some?
      requires HandlerDefined(Snapshot(), hasPacketHandler, state, currentData.value, stateDurationTime)
      modifies this
      ensures Valid() && currentData == old(currentData)
      ensures Handled(old(Snapshot()), Snapshot(), hasPacketHandler, state, currentData.value, stateDurationTime, next)
    {
      match state
      case IdleInit => next := HandlerIdleInit(stateDurationTime);
      case FirstSyncWait => next := HandlerFirstSyncWait(stateDurationTime);
      case SignalInit => next := HandlerSignalInit(stateDurationTime);
      case FatalError => next := HandlerFatalError(stateDurationTime);
      case Idle => next := HandlerIdle(stateDurationTime);
      case Symbol => next := HandlerSymbol(stateDurationTime);
      case Sync => next := HandlerSync(stateDurationTime);
      case Guard => next := HandlerGuard(stateDurationTime);
      case Error => next := HandlerError(stateDurationTime);
    }

    /**
     * One tick: store the carrier detail, and unless the input is disconnected report
     * pilot presence to the driver and run the handler of the state it dispatches.
     */
    method Receive(carrierDetail: seq<CarrierSample>, state: RxState, stateDurationTime: real)
      returns (outcome: ReceiveOutcome)
      requires Valid() && |carrierDetail| == subcarrierCount
      requires IsInputReallyConnected(power, carrierDetail[0].powerDecibel) ==>
        HandlerDefined(Snapshot(), hasPacketHandler, state, Tick(carrierDetail[0], carrierDetail), stateDurationTime)
      modifies this
      ensures Valid() && currentData == Some(Tick(carrierDetail[0], carrierDetail))
      ensures outcome.NoInput? <==>
        carrierDetail[0].powerDecibel == NO_INPUT_POWER &&
        (old(power.averageNoisePower).None? || old(power.averageSignalPower).None?)
      ensures outcome.NoInput? ==> Snapshot() == old(Snapshot())
      ensures outcome.Dispatched? ==>
        (outcome.pilotPresent <==> carrierDetail[0].powerDecibel > old(power.powerThreshold)) &&
        Handled(old(Snapshot()), Snapshot(), hasPacketHandler, state,
                Tick(carrierDetail[0], carrierDetail), stateDurationTime, outcome.next)
    {
      currentData := Some(Tick(carrierDetail[0], carrierDetail));
      var pilotSignal := currentData.value.pilotSignal;
      if IsInputReallyConnected(power, pilotSignal.powerDecibel) {
        var present := IsPilotSignalPresent(pilotSignal.powerDecibel, power.powerThreshold);
        var next := Dispatch(state, stateDurationTime);
        outcome := Dispatched(present, next);
      } else {
        outcome := NoInput;
      }
    }
  }
}
