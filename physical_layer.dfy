/**
 * The transmit side of the physical layer: the symbol range derived from the sample
 * rate, the queue of symbols waiting to be sent with its GAP placeholders, the
 * encoding of a +1/-1 correlation code as the two highest symbols, and the decoding
 * of received symbols back into that code.
 */
module PhysicalLayer {
  import opened Wrappers

  /** Placeholder symbol: silence, removed again when another symbol follows. */
  const TX_SYMBOL_GAP: int := -1
  /** Silence after a synchronisation sequence; never removed. */
  const TX_SYMBOL_GAP_IMPORTANT: int := -2
  /** Code value -1 is sent as the symbol one below the maximum, any other value as the maximum. */
  const SYNC_SYMBOL_A_OFFSET: int := 1
  const SYNC_SYMBOL_B_OFFSET: int := 0

  /** The builder's symbol-range settings. */
  datatype SymbolRangeConfig = SymbolRangeConfig(
    symbolMin44100: int,
    symbolMin48000: int,
    symbolMinDefault: int,
    symbolRange: int)

  /** The builder's defaults: 256 data symbols plus the two synchronisation symbols. */
  const DEFAULT_SYMBOL_RANGE_CONFIG: SymbolRangeConfig := SymbolRangeConfig(114, 82, 1, 256 + 2)
  const DEFAULT_TX_SAMPLE_RATE: int := 44100
  const DEFAULT_CORRELATION_CODE: seq<int> := [1, -1, 1, -1]

  /** What `getTx` reports: the symbol on air (None: idle), a copy of the queue, and whether anything is being sent. */
  datatype TxInfo = TxInfo(symbol: Option<int>, symbolQueue: seq<int>, isTxInProgress: bool)

  // ---------------------------------------------------------------------------
  // Symbol range
  // ---------------------------------------------------------------------------

  /** Lowest symbol for a sample rate: its own setting for 44100 and 48000, the default for any other rate. */
  function GetSymbolMin(cfg: SymbolRangeConfig, sampleRate: int): (min: int)
    ensures sampleRate == 44100 ==> min == cfg.symbolMin44100
    ensures sampleRate == 48000 ==> min == cfg.symbolMin48000
    ensures sampleRate != 44100 && sampleRate != 48000 ==> min == cfg.symbolMinDefault
  {
    if sampleRate == 44100 then cfg.symbolMin44100
    else if sampleRate == 48000 then cfg.symbolMin48000
    else cfg.symbolMinDefault
  }

  /** Highest symbol for a sample rate: the range holds exactly `symbolRange` symbols. */
  function GetSymbolMax(cfg: SymbolRangeConfig, sampleRate: int): (max: int)
    ensures max - GetSymbolMin(cfg, sampleRate) + 1 == cfg.symbolRange
  {
    GetSymbolMin(cfg, sampleRate) + cfg.symbolRange - 1
  }

  /** With the default settings the ranges are 114..371 at 44100, 82..339 at 48000 and 1..258 at any other rate. */
  lemma DefaultSymbolRanges(sampleRate: int)
    ensures GetSymbolMin(DEFAULT_SYMBOL_RANGE_CONFIG, 44100) == 114
    ensures GetSymbolMax(DEFAULT_SYMBOL_RANGE_CONFIG, 44100) == 371
    ensures GetSymbolMin(DEFAULT_SYMBOL_RANGE_CONFIG, 48000) == 82
    ensures GetSymbolMax(DEFAULT_SYMBOL_RANGE_CONFIG, 48000) == 339
    ensures sampleRate != 44100 && sampleRate != 48000 ==>
      GetSymbolMin(DEFAULT_SYMBOL_RANGE_CONFIG, sampleRate) == 1 &&
      GetSymbolMax(DEFAULT_SYMBOL_RANGE_CONFIG, sampleRate) == 258
  {
  }

  // ---------------------------------------------------------------------------
  // Synchronisation code
  // ---------------------------------------------------------------------------

  /** The symbol sent for one correlation code value. */
  function SyncSymbol(codeValue: int, symbolMax: int): int {
    if codeValue == -1 then symbolMax - SYNC_SYMBOL_A_OFFSET else symbolMax - SYNC_SYMBOL_B_OFFSET
  }

  /** The symbols `txSync` sends for a correlation code, one per code value. */
  function SyncSymbols(code: seq<int>, symbolMax: int): (symbols: seq<int>)
    ensures |symbols| == |code|
    ensures forall i :: 0 <= i < |code| ==>
      symbols[i] == (if code[i] == -1 then symbolMax - 1 else symbolMax)
  {
    seq(|code|, i requires 0 <= i < |code| => SyncSymbol(code[i], symbolMax))
  }

  /** Decodes a received raw symbol (None: nothing received) into a correlation code value: max-1 is -1, max is +1, anything else None. */
  function HandleSyncCode(symbolMax: int, rxSymbolRaw: Option<int>): (codeValue: Option<int>)
    ensures codeValue == Some(-1) <==> rxSymbolRaw == Some(symbolMax - 1)
    ensures codeValue == Some(1) <==> rxSymbolRaw == Some(symbolMax)
    ensures codeValue.None? <==> rxSymbolRaw != Some(symbolMax - 1) && rxSymbolRaw != Some(symbolMax)
  {
    match rxSymbolRaw
    case None => None
    case Some(s) =>
      if s == symbolMax - SYNC_SYMBOL_A_OFFSET then Some(-1)
      else if s == symbolMax - SYNC_SYMBOL_B_OFFSET then Some(1)
      else None
  }

  /** Decodes every received symbol of a sequence. */
  function DecodeSyncSymbols(symbols: seq<int>, symbolMax: int): (code: seq<Option<int>>)
    ensures |code| == |symbols|
    ensures forall i :: 0 <= i < |symbols| ==> code[i] == HandleSyncCode(symbolMax, Some(symbols[i]))
  {
    seq(|symbols|, i requires 0 <= i < |symbols| => HandleSyncCode(symbolMax, Some(symbols[i])))
  }

  /** A +1/-1 correlation code survives sending and decoding when both ends use the same maximum symbol. */
  lemma SyncRoundTrip(code: seq<int>, symbolMax: int)
    requires forall i :: 0 <= i < |code| ==> code[i] == -1 || code[i] == 1
    ensures DecodeSyncSymbols(SyncSymbols(code, symbolMax), symbolMax)
      == seq(|code|, i requires 0 <= i < |code| => Some(code[i]))
  {
  }

  /** Any code value other than -1 is sent as the maximum and so comes back as +1. */
  lemma SyncOtherValuesDecodeAsPlusOne(codeValue: int, symbolMax: int)
    requires codeValue != -1
    ensures HandleSyncCode(symbolMax, Some(SyncSymbol(codeValue, symbolMax))) == Some(1)
  {
  }

  /** When the range holds at least two symbols, both synchronisation symbols lie inside it. */
  lemma SyncSymbolsInRange(cfg: SymbolRangeConfig, sampleRate: int, code: seq<int>)
    requires cfg.symbolRange >= 2
    ensures forall i :: 0 <= i < |code| ==>
      GetSymbolMin(cfg, sampleRate) <= SyncSymbols(code, GetSymbolMax(cfg, sampleRate))[i] <= GetSymbolMax(cfg, sampleRate)
  {
  }

  /** Math.ceil(n / 2) + 1: the number of GAP_IMPORTANT symbols after a code of length n. */
  function HalfPlusOne(n: nat): (count: nat)
    ensures n <= 2 * (count - 1) <= n + 1
  {
    (n + 1) / 2 + 1
  }

  /** The GAP_IMPORTANT padding after a code of length n. */
  function GapImportantPadding(n: nat): (padding: seq<int>)
    ensures |padding| == HalfPlusOne(n)
    ensures forall i :: 0 <= i < |padding| ==> padding[i] == TX_SYMBOL_GAP_IMPORTANT
  {
    seq(HalfPlusOne(n), _ => TX_SYMBOL_GAP_IMPORTANT)
  }

  // ---------------------------------------------------------------------------
  // The queue's GAP logic
  // ---------------------------------------------------------------------------

  /** Index of the last entry that is not a GAP, if any. */
  function LastNonGap(queue: seq<int>): (last: Option<nat>)
    ensures last.Some? ==>
      last.value < |queue| && queue[last.value] != TX_SYMBOL_GAP &&
      forall j :: last.value < j < |queue| ==> queue[j] == TX_SYMBOL_GAP
    ensures last.None? <==> forall j :: 0 <= j < |queue| ==> queue[j] == TX_SYMBOL_GAP
    decreases |queue|
  {
    if queue == [] then None
    else if queue[|queue| - 1] != TX_SYMBOL_GAP then Some(|queue| - 1)
    else LastNonGap(queue[..|queue| - 1])
  }

  /** The queue cut after its last non-GAP entry; a queue of GAPs only is left as it is. */
  function WithoutTrailingGaps(queue: seq<int>): (result: seq<int>)
    ensures result <= queue
    ensures forall j :: |result| <= j < |queue| ==> queue[j] == TX_SYMBOL_GAP
    ensures (exists j :: 0 <= j < |queue| && queue[j] != TX_SYMBOL_GAP) ==>
      result != [] && result[|result| - 1] != TX_SYMBOL_GAP
    ensures (forall j :: 0 <= j < |queue| ==> queue[j] == TX_SYMBOL_GAP) ==> result == queue
  {
    match LastNonGap(queue)
    case Some(i) => queue[..i + 1]
    case None => queue
  }

  /** Removing trailing GAPs a second time changes nothing. */
  lemma WithoutTrailingGapsIdempotent(queue: seq<int>)
    ensures WithoutTrailingGaps(WithoutTrailingGaps(queue)) == WithoutTrailingGaps(queue)
  {
    var r := WithoutTrailingGaps(queue);
    if LastNonGap(queue).Some? {
      assert r[|r| - 1] != TX_SYMBOL_GAP;
      assert LastNonGap(r) == Some(|r| - 1);
    }
  }

  /** Only GAPs are ever removed: every other entry, GAP_IMPORTANT included, stays where it is. */
  lemma WithoutTrailingGapsKeepsOtherSymbols(queue: seq<int>, j: int)
    requires 0 <= j < |queue| && queue[j] != TX_SYMBOL_GAP
    ensures j < |WithoutTrailingGaps(queue)| && WithoutTrailingGaps(queue)[j] == queue[j]
  {
  }

  /** A transmission is in progress while a symbol is on air or one is waiting. */
  predicate TxInProgress(queue: seq<int>, symbol: Option<int>): (inProgress: bool)
    ensures !inProgress <==> queue == [] && symbol.None?
  {
    queue != [] || symbol.Some?
  }

  /** The queue after the GAP logic: two leading GAPs when starting from silence, otherwise the trailing GAPs dropped. */
  function GapLogic(queue: seq<int>, symbol: Option<int>): (result: seq<int>)
    ensures !TxInProgress(queue, symbol) ==> result == [TX_SYMBOL_GAP, TX_SYMBOL_GAP]
    ensures TxInProgress(queue, symbol) ==> result == WithoutTrailingGaps(queue)
  {
    if TxInProgress(queue, symbol) then WithoutTrailingGaps(queue)
    else queue + [TX_SYMBOL_GAP, TX_SYMBOL_GAP]
  }

  /** The queue after an accepted `txSymbol`. */
  function Enqueued(queue: seq<int>, symbol: Option<int>, s: int): seq<int> {
    GapLogic(queue, symbol) + [s, TX_SYMBOL_GAP]
  }

  /** The queue after `txSync`. */
  function SyncEnqueued(queue: seq<int>, symbol: Option<int>, code: seq<int>, symbolMax: int): seq<int> {
    GapLogic(queue, symbol) + SyncSymbols(code, symbolMax) + GapImportantPadding(|code|)
  }

  /** A first symbol sent from silence is preceded by two GAPs and followed by one. */
  lemma FirstSymbolFromSilence(s: int)
    ensures Enqueued([], None, s) == [TX_SYMBOL_GAP, TX_SYMBOL_GAP, s, TX_SYMBOL_GAP]
  {
  }

  /** Two symbols in a row: the second removes the GAP placed after the first. */
  lemma ConsecutiveSymbols(queue: seq<int>, symbol: Option<int>, symbolLater: Option<int>, a: int, b: int)
    requires a != TX_SYMBOL_GAP
    ensures Enqueued(Enqueued(queue, symbol, a), symbolLater, b)
      == GapLogic(queue, symbol) + [a, b, TX_SYMBOL_GAP]
  {
    var start := GapLogic(queue, symbol);
    var p := start + [a];
    var q1 := p + [TX_SYMBOL_GAP];
    assert q1 == Enqueued(queue, symbol, a);
    assert TxInProgress(q1, symbolLater);
    SingleTrailingGapRemoved(p);
    assert p + [b, TX_SYMBOL_GAP] == start + [a, b, TX_SYMBOL_GAP];
  }

  /** The one GAP placed after a symbol is what the GAP logic removes. */
  lemma SingleTrailingGapRemoved(p: seq<int>)
    requires p != [] && p[|p| - 1] != TX_SYMBOL_GAP
    ensures WithoutTrailingGaps(p + [TX_SYMBOL_GAP]) == p
  {
    var q := p + [TX_SYMBOL_GAP];
    assert LastNonGap(q[..|q| - 1]) == Some(|p| - 1) by {
      assert q[..|q| - 1] == p;
    }
    assert q[..|p|] == p;
  }

  /** A symbol sent after a synchronisation sequence keeps all of its GAP_IMPORTANT padding. */
  lemma SymbolAfterSyncKeepsPadding(queue: seq<int>, symbol: Option<int>, symbolLater: Option<int>,
                                    code: seq<int>, symbolMax: int, s: int)
    ensures Enqueued(SyncEnqueued(queue, symbol, code, symbolMax), symbolLater, s)
      == SyncEnqueued(queue, symbol, code, symbolMax) + [s, TX_SYMBOL_GAP]
  {
    var prefix := GapLogic(queue, symbol) + SyncSymbols(code, symbolMax);
    var padding := GapImportantPadding(|code|);
    var q := prefix + padding;
    assert q == SyncEnqueued(queue, symbol, code, symbolMax);
    assert q[|q| - 1] == padding[|padding| - 1] == TX_SYMBOL_GAP_IMPORTANT;
    EndingInSymbolKeepsQueue(q);
    assert TxInProgress(q, symbolLater);
  }

  /** A queue whose last entry is not a GAP has no trailing GAPs to remove. */
  lemma EndingInSymbolKeepsQueue(queue: seq<int>)
    requires queue != [] && queue[|queue| - 1] != TX_SYMBOL_GAP
    ensures WithoutTrailingGaps(queue) == queue
  {
    assert LastNonGap(queue) == Some(|queue| - 1);
  }

  // ---------------------------------------------------------------------------
  // The transmitter's state
  // ---------------------------------------------------------------------------

  /** The queue-related state of the physical layer object. */
  class PhysicalLayerTx {
    const symbolRangeConfig: SymbolRangeConfig
    const correlationCode: seq<int>

    var txSampleRate: int
    var txSymbolMin: int
    var txSymbolMax: int
    /** Symbols waiting to be sent, next one first. */
    var txSymbolQueue: seq<int>
    /** The symbol on air; None while idle. */
    var txSymbol: Option<int>

    /** The symbol range always belongs to the current sample rate. */
    ghost predicate Valid()
      reads this
    {
      txSymbolMin == GetSymbolMin(symbolRangeConfig, txSampleRate) &&
      txSymbolMax == GetSymbolMax(symbolRangeConfig, txSampleRate)
    }

    constructor (symbolRangeConfig: SymbolRangeConfig, txSampleRate: int, correlationCode: seq<int>)
      ensures Valid()
      ensures this.symbolRangeConfig == symbolRangeConfig && this.correlationCode == correlationCode
      ensures this.txSampleRate == txSampleRate
      ensures txSymbolQueue == [] && txSymbol.None?
    {
      this.symbolRangeConfig := symbolRangeConfig;
      this.correlationCode := correlationCode;
      this.txSampleRate := txSampleRate;
      txSymbolMin := GetSymbolMin(symbolRangeConfig, txSampleRate);
      txSymbolMax := GetSymbolMax(symbolRangeConfig, txSampleRate);
      txSymbolQueue := [];
      txSymbol := None;
    }

    /** The transmitter's status; the queue is returned as a copy. */
    function GetTx(): (tx: TxInfo)
      reads this
      ensures tx.symbol == txSymbol && tx.symbolQueue == txSymbolQueue
      ensures tx.isTxInProgress <==> TxInProgress(txSymbolQueue, txSymbol)
    {
      TxInfo(txSymbol, txSymbolQueue, |txSymbolQueue| > 0 || txSymbol != None)
    }

    /** Cuts the queue after its last non-GAP entry, scanning backwards. */
    method RemoveAllGapSymbolFromTheEndOfTxSymbolQueue()
      modifies this`txSymbolQueue
      ensures txSymbolQueue == WithoutTrailingGaps(old(txSymbolQueue))
    {
      var i := |txSymbolQueue| - 1;
      while i >= 0
        invariant -1 <= i < |txSymbolQueue|
        invariant txSymbolQueue == old(txSymbolQueue)
        invariant forall j :: i < j < |txSymbolQueue| ==> txSymbolQueue[j] == TX_SYMBOL_GAP
      {
        if txSymbolQueue[i] != TX_SYMBOL_GAP {
          txSymbolQueue := txSymbolQueue[..i + 1];
          return;
        }
        i := i - 1;
      }
    }

    /** Adds two leading GAPs when starting from silence, otherwise drops the trailing GAPs. */
    method HandleGapLogic()
      modifies this`txSymbolQueue
      ensures txSymbolQueue == GapLogic(old(txSymbolQueue), txSymbol)
    {
      var tx := GetTx();
      if tx.isTxInProgress {
        RemoveAllGapSymbolFromTheEndOfTxSymbolQueue();
      } else {
        txSymbolQueue := txSymbolQueue + [TX_SYMBOL_GAP];
        txSymbolQueue := txSymbolQueue + [TX_SYMBOL_GAP];
      }
    }

    /**
     * Queues one symbol followed by a GAP. `accepted` is false where the source throws
     * (symbol out of range); the GAP logic has changed the queue by then.
     */
    method TxSymbol(s: int) returns (accepted: bool)
      requires Valid()
      modifies this`txSymbolQueue
      ensures Valid()
      ensures accepted <==> txSymbolMin <= s <= txSymbolMax
      ensures accepted <==>
        GetSymbolMin(symbolRangeConfig, txSampleRate) <= s <= GetSymbolMax(symbolRangeConfig, txSampleRate)
      ensures accepted ==> txSymbolQueue == Enqueued(old(txSymbolQueue), txSymbol, s)
      ensures !accepted ==> txSymbolQueue == GapLogic(old(txSymbolQueue), txSymbol)
    {
      HandleGapLogic();
      var inRange := txSymbolMin <= s && s <= txSymbolMax;
      if !inRange {
        return false;
      }
      txSymbolQueue := txSymbolQueue + [s];
      txSymbolQueue := txSymbolQueue + [TX_SYMBOL_GAP];
      accepted := true;
    }

    /** Queues the correlation code as synchronisation symbols, then the GAP_IMPORTANT padding. */
    method TxSync()
      requires Valid()
      modifies this`txSymbolQueue
      ensures Valid()
      ensures txSymbolQueue == SyncEnqueued(old(txSymbolQueue), txSymbol, correlationCode, txSymbolMax)
      ensures txSymbolQueue == SyncEnqueued(old(txSymbolQueue), txSymbol, correlationCode,
                                            GetSymbolMax(symbolRangeConfig, txSampleRate))
    {
      HandleGapLogic();
      ghost var start := txSymbolQueue;
      var i := 0;
      while i < |correlationCode|
        invariant 0 <= i <= |correlationCode|
        invariant txSymbolQueue == start + SyncSymbols(correlationCode[..i], txSymbolMax)
      {
        var symbol := if correlationCode[i] == -1
          then txSymbolMax - SYNC_SYMBOL_A_OFFSET
          else txSymbolMax - SYNC_SYMBOL_B_OFFSET;
        txSymbolQueue := txSymbolQueue + [symbol];
        i := i + 1;
      }
      assert correlationCode[..i] == correlationCode;
      ghost var synced := txSymbolQueue;
      var halfPlusOne := (|correlationCode| + 1) / 2 + 1;
      i := 0;
      while i < halfPlusOne
        invariant 0 <= i <= halfPlusOne
        invariant txSymbolQueue == synced + seq(i, _ => TX_SYMBOL_GAP_IMPORTANT)
      {
        txSymbolQueue := txSymbolQueue + [TX_SYMBOL_GAP_IMPORTANT];
        i := i + 1;
        assert txSymbolQueue == synced + seq(i, _ => TX_SYMBOL_GAP_IMPORTANT);
      }
      assert seq(i, _ => TX_SYMBOL_GAP_IMPORTANT) == GapImportantPadding(|correlationCode|);
    }

    /** Switches the sample rate: recomputes the symbol range and drops every queued symbol. */
    method SetTxSampleRate(txSampleRate: int)
      modifies this`txSampleRate, this`txSymbolMin, this`txSymbolMax, this`txSymbolQueue
      ensures Valid() && this.txSampleRate == txSampleRate && txSymbolQueue == []
      ensures txSymbolMax - txSymbolMin + 1 == symbolRangeConfig.symbolRange
    {
      this.txSampleRate := txSampleRate;
      txSymbolMin := GetSymbolMin(symbolRangeConfig, txSampleRate);
      txSymbolMax := GetSymbolMax(symbolRangeConfig, txSampleRate);
      txSymbolQueue := [];
    }

    /**
     * One sample of the transmit timer: at the first sample of a symbol block the next
     * queued symbol goes on air (or the transmitter falls idle). Reports whether
     * transmission just started or just ended, which toggles the microphone.
     */
    method Tx(sampleOffset: int) returns (txJustStarted: bool, txJustEnded: bool)
      modifies this`txSymbolQueue, this`txSymbol
      ensures sampleOffset != 0 ==>
        txSymbolQueue == old(txSymbolQueue) && txSymbol == old(txSymbol) && !txJustStarted && !txJustEnded
      ensures sampleOffset == 0 && old(txSymbolQueue) != [] ==>
        txSymbol == Some(old(txSymbolQueue)[0]) && txSymbolQueue == old(txSymbolQueue)[1..]
      ensures sampleOffset == 0 && old(txSymbolQueue) == [] ==> txSymbol.None? && txSymbolQueue == []
      ensures txJustStarted <==> sampleOffset == 0 && old(txSymbol).None? && old(txSymbolQueue) != []
      ensures txJustEnded <==> sampleOffset == 0 && old(txSymbol).Some? && txSymbol.None?
    {
      txJustStarted, txJustEnded := false, false;
      if sampleOffset == 0 {
        var newSymbolReady := |txSymbolQueue| > 0;
        var txSymbolPrevious := txSymbol;
        txJustStarted := txSymbol.None? && newSymbolReady;
        if newSymbolReady {
          txSymbol := Some(txSymbolQueue[0]);
          txSymbolQueue := txSymbolQueue[1..];
        } else {
          txSymbol := None;
        }
        txJustEnded := txSymbolPrevious.Some? && txSymbol.None?;
      }
    }
  }
}
