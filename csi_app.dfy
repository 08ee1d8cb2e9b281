/** The CSI sampling controller: the receiver-side MAC filter and
    rate-gated deduplication of radio-delivered samples, and the CSI task's
    start / stop / send-tick message loop. */
module CsiApp {
  import opened CsiTypes

  const TWO_POW_32 := 0x1_0000_0000

  /** Frequencies below this are deduplicated by timestamp. */
  const DEDUP_FREQUENCY_LIMIT := 30

  /** The fixed datagram the sender transmits on every tick. */
  const UDP_PAYLOAD := "1"

  /** C division of a non-negative numerator: truncates toward zero. */
  function TruncDiv(a: nat, b: int): (q: int)
    requires b != 0
    ensures b > 0 ==> 0 <= q && q * b <= a < q * b + b
    ensures b < 0 ==> q <= 0 && q * b <= a < q * b - b
  {
    if b > 0 then a / b else -(a / -b)
  }

  /** `sampling_delay`: the period in whole milliseconds, 1000.0 / f truncated. */
  function SamplingDelayMs(freq: int): int
    requires freq != 0
  {
    TruncDiv(1000, freq)
  }

  /** Unsigned 32-bit subtraction, wrapping modulo 2^32. */
  function WrapSub(a: Uint32, b: Uint32): (d: Uint32)
    ensures a >= b ==> d == a - b
    ensures a < b ==> d == a - b + TWO_POW_32
  {
    (a - b) % TWO_POW_32
  }

  /** The dedup test `(ts - last) / 1000.0 >= sd - 0.1 * sd`, stated in exact
      integers: delta / 1000 >= 0.9 * sd, that is delta >= 900 * sd. */
  predicate Gate(freq: int, last: Uint32, ts: Uint32)
    requires freq != 0
  {
    WrapSub(ts, last) >= 900 * SamplingDelayMs(freq)
  }

  /** The callback's own state: `first_csi_callback` and `last_timestamp`. */
  datatype Dedup = Dedup(first: bool, last: Uint32)

  const POWER_ON_DEDUP := Dedup(true, 0)

  /** A sample passes the hard filter: it exists, carries a payload pointer
      and comes from the subscribed MAC. */
  predicate Matches(mac: Mac, arg: Option<CsiInfo>)
  {
    arg.Some? && arg.value.buf.Some? && arg.value.mac == mac
  }

  function Timestamp(info: CsiInfo): Uint32
  {
    info.rxCtrl.timestamp
  }

  /** One callback: the new dedup state and the sample forwarded to the
      informer queue, if any. */
  datatype Reception = Reception(state: Dedup, forwarded: Option<CsiInfo>)

  function Receive(mac: Mac, freq: int, d: Dedup, arg: Option<CsiInfo>): (r: Reception)
    requires freq != 0
    // malformed or foreign samples are dropped and the state is untouched
    ensures !Matches(mac, arg) ==> r == Reception(d, None)
    // only the sample itself is ever forwarded
    ensures r.forwarded.Some? ==> arg.Some? && r.forwarded.value == arg.value
    // at 30 Hz and above: every matching sample is forwarded, the state is not touched
    ensures freq >= DEDUP_FREQUENCY_LIMIT ==> r.state == d && (r.forwarded.Some? <==> Matches(mac, arg))
    // below 30 Hz: the first matching sample is forwarded and becomes the reference
    ensures freq < DEDUP_FREQUENCY_LIMIT && d.first && Matches(mac, arg) ==>
              r == Reception(Dedup(false, Timestamp(arg.value)), arg)
    // below 30 Hz, later samples: forwarded and the new reference iff the gate passes
    ensures freq < DEDUP_FREQUENCY_LIMIT && !d.first && Matches(mac, arg) ==>
              r == (if Gate(freq, d.last, Timestamp(arg.value))
                    then Reception(Dedup(false, Timestamp(arg.value)), arg)
                    else Reception(d, None))
  {
    if arg.None? || arg.value.buf.None? then Reception(d, None)
    else if arg.value.mac != mac then Reception(d, None)
    else if freq < DEDUP_FREQUENCY_LIMIT then
      if d.first then Reception(Dedup(false, Timestamp(arg.value)), arg)
      else if Gate(freq, d.last, Timestamp(arg.value)) then Reception(Dedup(false, Timestamp(arg.value)), arg)
      else Reception(d, None)
    else Reception(d, arg)
  }

  function AsSeq<T>(o: Option<T>): seq<T>
  {
    if o.Some? then [o.value] else []
  }

  /** The effect of a series of callbacks: final state and what was forwarded, in order. */
  datatype Outcome = Outcome(state: Dedup, forwarded: seq<CsiInfo>)

  function Run(mac: Mac, freq: int, d: Dedup, args: seq<Option<CsiInfo>>): Outcome
    requires freq != 0
    decreases |args|
  {
    if args == [] then Outcome(d, [])
    else
      var r := Receive(mac, freq, d, args[0]);
      var rest := Run(mac, freq, r.state, args[1..]);
      Outcome(rest.state, AsSeq(r.forwarded) + rest.forwarded)
  }

  /** The samples that pass the hard filter, in arrival order. */
  function Matching(mac: Mac, args: seq<Option<CsiInfo>>): seq<CsiInfo>
    decreases |args|
  {
    if args == [] then []
    else (if Matches(mac, args[0]) then [args[0].value] else []) + Matching(mac, args[1..])
  }

  /** Reference definition of the dedup window: the greedy subsequence that
      keeps a sample iff there is no reference yet or its delta from the LAST
      KEPT sample passes the gate. */
  function Greedy(freq: int, d: Dedup, xs: seq<CsiInfo>): Outcome
    requires freq != 0
    decreases |xs|
  {
    if xs == [] then Outcome(d, [])
    else if d.first || Gate(freq, d.last, Timestamp(xs[0])) then
      var rest := Greedy(freq, Dedup(false, Timestamp(xs[0])), xs[1..]);
      Outcome(rest.state, [xs[0]] + rest.forwarded)
    else Greedy(freq, d, xs[1..])
  }

  /** At 30 Hz and above the controller forwards exactly the matching samples,
      each exactly once, and never reads or writes the dedup state. */
  lemma {:induction false} HighFrequencyForwardsAllMatching(mac: Mac, freq: int, d: Dedup, args: seq<Option<CsiInfo>>)
    requires freq >= DEDUP_FREQUENCY_LIMIT
    ensures Run(mac, freq, d, args) == Outcome(d, Matching(mac, args))
    decreases |args|
  {
    if args != [] {
      HighFrequencyForwardsAllMatching(mac, freq, d, args[1..]);
    }
  }

  /** Below 30 Hz the controller's output is exactly the greedy rate-gated
      subsequence of the matching samples: the hard filter commutes with dedup. */
  lemma {:induction false} LowFrequencyIsGreedy(mac: Mac, freq: int, d: Dedup, args: seq<Option<CsiInfo>>)
    requires freq != 0 && freq < DEDUP_FREQUENCY_LIMIT
    ensures Run(mac, freq, d, args) == Greedy(freq, d, Matching(mac, args))
    decreases |args|
  {
    if args != [] {
      var r := Receive(mac, freq, d, args[0]);
      LowFrequencyIsGreedy(mac, freq, r.state, args[1..]);
      if Matches(mac, args[0]) {
        assert Matching(mac, args) == [args[0].value] + Matching(mac, args[1..]);
        assert ([args[0].value] + Matching(mac, args[1..]))[1..] == Matching(mac, args[1..]);
      } else {
        assert Matching(mac, args) == Matching(mac, args[1..]);
      }
    }
  }

  /** With no reference yet, the first sample is always kept. */
  lemma GreedyKeepsFirst(freq: int, xs: seq<CsiInfo>)
    requires freq != 0 && xs != []
    ensures var out := Greedy(freq, POWER_ON_DEDUP, xs).forwarded; out != [] && out[0] == xs[0]
  {
  }

  /** Every kept sample passes the gate measured from the previously kept one
      (or from the initial reference). */
  lemma {:induction false} GreedyGapsPassGate(freq: int, d: Dedup, xs: seq<CsiInfo>)
    requires freq != 0
    ensures var out := Greedy(freq, d, xs).forwarded;
            && (!d.first && out != [] ==> Gate(freq, d.last, Timestamp(out[0])))
            && (forall k :: 0 < k < |out| ==> Gate(freq, Timestamp(out[k - 1]), Timestamp(out[k])))
    decreases |xs|
  {
    if xs != [] {
      if d.first || Gate(freq, d.last, Timestamp(xs[0])) {
        GreedyGapsPassGate(freq, Dedup(false, Timestamp(xs[0])), xs[1..]);
      } else {
        GreedyGapsPassGate(freq, d, xs[1..]);
      }
    }
  }

  /** `out` is obtained from `xs` by deleting elements. */
  predicate IsSubsequence<T(==)>(out: seq<T>, xs: seq<T>)
    decreases |xs|
  {
    if out == [] then true
    else if xs == [] then false
    else if out[0] == xs[0] then IsSubsequence(out[1..], xs[1..])
    else IsSubsequence(out, xs[1..])
  }

  lemma {:induction false} GreedyIsSubsequence(freq: int, d: Dedup, xs: seq<CsiInfo>)
    requires freq != 0
    ensures IsSubsequence(Greedy(freq, d, xs).forwarded, xs)
    decreases |xs|
  {
    if xs != [] {
      if d.first || Gate(freq, d.last, Timestamp(xs[0])) {
        var rest := Greedy(freq, Dedup(false, Timestamp(xs[0])), xs[1..]);
        GreedyIsSubsequence(freq, Dedup(false, Timestamp(xs[0])), xs[1..]);
        assert ([xs[0]] + rest.forwarded)[1..] == rest.forwarded;
      } else {
        GreedyIsSubsequence(freq, d, xs[1..]);
        SubsequenceSkip(Greedy(freq, d, xs[1..]).forwarded, xs);
      }
    }
  }

  lemma {:induction false} SubsequenceSkip<T>(out: seq<T>, xs: seq<T>)
    requires xs != [] && IsSubsequence(out, xs[1..])
    ensures IsSubsequence(out, xs)
    decreases |xs|, 0
  {
    if out != [] && out[0] == xs[0] {
      SubsequenceDropFirst(out, xs[1..]);
    }
  }

  lemma {:induction false} SubsequenceDropFirst<T>(out: seq<T>, ys: seq<T>)
    requires out != [] && IsSubsequence(out, ys)
    ensures IsSubsequence(out[1..], ys)
    decreases |ys|, 1
  {
    if out[0] == ys[0] {
      SubsequenceSkip(out[1..], ys);
    } else {
      SubsequenceDropFirst(out, ys[1..]);
      SubsequenceSkip(out[1..], ys);
    }
  }

  /** `first_csi_callback` is only ever cleared: a cleared flag stays cleared
      across any number of callbacks. */
  lemma {:induction false} FirstFlagNeverReset(mac: Mac, freq: int, d: Dedup, args: seq<Option<CsiInfo>>)
    requires freq != 0 && !d.first
    ensures !Run(mac, freq, d, args).state.first
    decreases |args|
  {
    if args != [] {
      FirstFlagNeverReset(mac, freq, Receive(mac, freq, d, args[0]).state, args[1..]);
    }
  }

  /** The worked example: at 20 Hz (a 50 ms period, a 45 ms threshold),
      matching samples stamped 0, 40000 and 60000 us forward the first and
      the third. */
  lemma TwentyHertzExample(mac: Mac, a: CsiInfo, b: CsiInfo, c: CsiInfo)
    requires a.mac == mac && b.mac == mac && c.mac == mac
    requires a.buf.Some? && b.buf.Some? && c.buf.Some?
    requires Timestamp(a) == 0 && Timestamp(b) == 40000 && Timestamp(c) == 60000
    ensures Run(mac, 20, POWER_ON_DEDUP, [Some(a), Some(b), Some(c)]).forwarded == [a, c]
  {
    var args := [Some(a), Some(b), Some(c)];
    assert SamplingDelayMs(20) == 50;
    var d1 := Dedup(false, 0);
    assert Receive(mac, 20, POWER_ON_DEDUP, Some(a)) == Reception(d1, Some(a));
    assert !Gate(20, 0, 40000);
    assert Receive(mac, 20, d1, Some(b)) == Reception(d1, None);
    assert Gate(20, 0, 60000);
    var d3 := Dedup(false, 60000);
    assert Receive(mac, 20, d1, Some(c)) == Reception(d3, Some(c));
    assert args[1..] == [Some(b), Some(c)];
    assert args[1..][1..] == [Some(c)];
    assert args[1..][1..][1..] == [];
    assert Run(mac, 20, d3, []) == Outcome(d3, []);
    assert Run(mac, 20, d1, [Some(c)]) == Outcome(d3, [c]);
    assert Run(mac, 20, d1, [Some(b), Some(c)]) == Outcome(d3, [c]);
  }

  // ---------------------------------------------------------------------
  // The CSI task

  datatype CsiMsg = StartCsiCollection | StopCsiCollection | SendMessage

  /** Driver calls and transmissions the task performs, in order. */
  datatype CsiAction =
    | SetCsiConfig
    | SetCsiRxCallback
    | EnableCsi
    | DisableCsi
    | CreateSocket(attempts: nat)
    | CreateTimer
    | StartPeriodicTimer(periodUs: int)
    | StopTimer
    | DeleteTimer
    | DestroySocket
    | SendDatagram(payload: string)
    | StartInformer(config: Config)

  /** The task's own statics (`has_stopped`, `socket_created`, `period_ms`)
      and the trace of its actions. */
  datatype CsiTask = CsiTask(hasStopped: bool, socketCreated: bool, periodUs: int, actions: seq<CsiAction>)

  /** Some call of `create_socket` in the series returns nonzero. */
  predicate Succeeds(results: seq<int>)
  {
    exists k :: 0 <= k < |results| && results[k] != 0
  }

  /** How many `create_socket` calls the retry loop makes: it stops at the
      first NONZERO result, whatever its sign. */
  function SocketAttempts(results: seq<int>): (n: nat)
    requires Succeeds(results)
    ensures 0 < n <= |results| && results[n - 1] != 0
    ensures forall j :: 0 <= j < n - 1 ==> results[j] == 0
    decreases |results|
  {
    if results[0] != 0 then 1
    else
      var k :| 0 <= k < |results| && results[k] != 0;
      assert results[1..][k - 1] != 0;
      1 + SocketAttempts(results[1..])
  }

  /** `csi_init`'s decisions: the timer period, then the receiver's CSI
      registration or the sender's socket and periodic timer. */
  function Init(cfg: Config, t: CsiTask, results: seq<int>): CsiTask
    requires cfg.packetFrequency != 0
    requires cfg.opMode == CSI_SNDR ==> Succeeds(results)
  {
    var period := TruncDiv(1_000_000, cfg.packetFrequency);
    if cfg.opMode == CSI_RECV then
      t.(periodUs := period, actions := t.actions + [SetCsiConfig, SetCsiRxCallback, EnableCsi])
    else if cfg.opMode == CSI_SNDR then
      t.(periodUs := period, socketCreated := true,
         actions := t.actions + [CreateSocket(SocketAttempts(results)), CreateTimer, StartPeriodicTimer(period)])
    else
      t.(periodUs := period)
  }

  /** `csi_deinit`: release whatever the role acquired. */
  function Deinit(cfg: Config, t: CsiTask): CsiTask
  {
    if cfg.opMode == CSI_RECV then t.(actions := t.actions + [DisableCsi])
    else if cfg.opMode == CSI_SNDR && t.socketCreated then t.(actions := t.actions + [DestroySocket])
    else t
  }

  predicate CanHandle(cfg: Config, msg: CsiMsg, results: seq<int>)
  {
    msg == StartCsiCollection ==> cfg.packetFrequency != 0 && (cfg.opMode == CSI_SNDR ==> Succeeds(results))
  }

  /** One iteration of the task's message loop. */
  function HandleCsiMessage(cfg: Config, t: CsiTask, msg: CsiMsg, results: seq<int>): CsiTask
    requires CanHandle(cfg, msg, results)
  {
    match msg
    case StartCsiCollection => Init(cfg, t, results).(hasStopped := false)
    case StopCsiCollection =>
      if !t.hasStopped then Deinit(cfg, t.(hasStopped := true, actions := t.actions + [StopTimer, DeleteTimer]))
      else t
    case SendMessage =>
      if !t.hasStopped then t.(actions := t.actions + [SendDatagram(UDP_PAYLOAD)])
      else t
  }

  /** STOP is idempotent: a second STOP changes nothing. */
  lemma StopIsIdempotent(cfg: Config, t: CsiTask)
    ensures var once := HandleCsiMessage(cfg, t, StopCsiCollection, []);
            HandleCsiMessage(cfg, once, StopCsiCollection, []) == once
  {
  }

  /** A STOP while running sets the flag and tears down exactly once: the
      timer calls, then the role's release. This is the order of the calls
      as written; only a sender has created the timer, so in a receiver the
      first timer call is made on a null handle. */
  lemma StopTearsDownOnce(cfg: Config, t: CsiTask)
    requires !t.hasStopped
    ensures var after := HandleCsiMessage(cfg, t, StopCsiCollection, []);
            && after.hasStopped
            && after.actions == t.actions + [StopTimer, DeleteTimer]
                 + (if cfg.opMode == CSI_RECV then [DisableCsi]
                    else if cfg.opMode == CSI_SNDR && t.socketCreated then [DestroySocket] else [])
  {
  }

  /** START clears `has_stopped` whatever it was. */
  lemma StartClearsStopped(cfg: Config, t: CsiTask, results: seq<int>)
    requires CanHandle(cfg, StartCsiCollection, results)
    ensures !HandleCsiMessage(cfg, t, StartCsiCollection, results).hasStopped
  {
  }

  /** A send tick transmits exactly one datagram while running and nothing
      once stopped; no other part of the task's state changes. */
  lemma SendTickSendsOnce(cfg: Config, t: CsiTask)
    ensures var after := HandleCsiMessage(cfg, t, SendMessage, []);
            after == if t.hasStopped then t else t.(actions := t.actions + [SendDatagram(UDP_PAYLOAD)])
  {
  }

  /** The sender arms its timer with period 1000000 / f microseconds (C division). */
  lemma SenderTimerPeriod(cfg: Config, t: CsiTask, results: seq<int>)
    requires cfg.opMode == CSI_SNDR && cfg.packetFrequency > 0 && Succeeds(results)
    ensures var after := HandleCsiMessage(cfg, t, StartCsiCollection, results);
            && after.periodUs * cfg.packetFrequency <= 1_000_000 < (after.periodUs + 1) * cfg.packetFrequency
            && after.actions == t.actions + [CreateSocket(SocketAttempts(results)), CreateTimer, StartPeriodicTimer(after.periodUs)]
  {
  }

  /** Processing a series of messages. */
  function RunTask(cfg: Config, t: CsiTask, msgs: seq<CsiMsg>, results: seq<int>): CsiTask
    requires forall i :: 0 <= i < |msgs| ==> CanHandle(cfg, msgs[i], results)
    decreases |msgs|
  {
    if msgs == [] then t
    else RunTask(cfg, HandleCsiMessage(cfg, t, msgs[0], results), msgs[1..], results)
  }

  /** While stopped, nothing but a START has any effect: STOPs and send ticks
      are all ignored, so no datagram leaves after a STOP until the next START. */
  lemma {:induction false} StoppedIsQuiescent(cfg: Config, t: CsiTask, msgs: seq<CsiMsg>)
    requires t.hasStopped
    requires forall i :: 0 <= i < |msgs| ==> msgs[i] != StartCsiCollection
    ensures RunTask(cfg, t, msgs, []) == t
    decreases |msgs|
  {
    if msgs != [] {
      assert msgs[0] != StartCsiCollection;
      RunTask1(cfg, t, msgs);
      StoppedIsQuiescent(cfg, t, msgs[1..]);
    }
  }

  lemma RunTask1(cfg: Config, t: CsiTask, msgs: seq<CsiMsg>)
    requires t.hasStopped && msgs != [] && msgs[0] != StartCsiCollection
    requires forall i :: 0 <= i < |msgs| ==> msgs[i] != StartCsiCollection
    ensures forall i :: 0 <= i < |msgs[1..]| ==> CanHandle(cfg, msgs[1..][i], [])
    ensures RunTask(cfg, t, msgs, []) == RunTask(cfg, t, msgs[1..], [])
  {
  }

  /** `csi_init`'s socket loop: `while (!socket_created) socket_created = create_socket(...)`,
      where each call's int result is taken as a bool. */
  method RetrySocket(results: seq<int>) returns (attempts: nat)
    requires Succeeds(results)
    ensures 0 < attempts <= |results| && results[attempts - 1] != 0
    ensures forall j :: 0 <= j < attempts - 1 ==> results[j] == 0
    ensures attempts == SocketAttempts(results)
  {
    var socketCreated := false;
    attempts := 0;
    while !socketCreated
      invariant 0 <= attempts <= |results|
      invariant forall j :: 0 <= j < attempts - 1 ==> results[j] == 0
      invariant socketCreated <==> attempts > 0 && results[attempts - 1] != 0
      invariant !socketCreated ==> Succeeds(results[attempts..])
      decreases |results| - attempts
    {
      var k :| attempts <= k < |results| && results[k] != 0 by {
        var k' :| 0 <= k' < |results[attempts..]| && results[attempts..][k'] != 0;
        assert results[attempts + k'] != 0;
      }
      socketCreated := results[attempts] != 0;
      attempts := attempts + 1;
      if !socketCreated {
        assert k >= attempts;
        assert results[attempts..][k - attempts] != 0;
      }
    }
    SocketAttemptsUnique(results, attempts);
  }

  lemma {:induction false} SocketAttemptsUnique(results: seq<int>, n: nat)
    requires Succeeds(results) && 0 < n <= |results| && results[n - 1] != 0
    requires forall j :: 0 <= j < n - 1 ==> results[j] == 0
    ensures n == SocketAttempts(results)
  {
  }

  /** The CSI app's statics and queues. `config` is `csi_app_configuration`,
      `informerQueue` holds the MSG_CSI_RECEIVED messages posted to the informer. */
  class CsiApplication {
    var config: Option<Config>
    var hasStopped: bool
    var socketCreated: bool
    var periodUs: int
    var firstCsiCallback: bool
    var lastTimestamp: Uint32
    var queue: seq<CsiMsg>
    var informerQueue: seq<CsiInfo>
    var actions: seq<CsiAction>

    function Task(): CsiTask
      reads this
    {
      CsiTask(hasStopped, socketCreated, periodUs, actions)
    }

    function DedupState(): Dedup
      reads this
    {
      Dedup(firstCsiCallback, lastTimestamp)
    }

    /** Power-on values of the statics. */
    constructor ()
      ensures config == None && queue == [] && informerQueue == []
      ensures Task() == CsiTask(false, false, 0, []) && DedupState() == POWER_ON_DEDUP
    {
      config := None;
      hasStopped := false;
      socketCreated := false;
      periodUs := 0;
      firstCsiCallback := true;
      lastTimestamp := 0;
      queue := [];
      informerQueue := [];
      actions := [];
    }

    /** `csi_received_callback`: filter one radio-delivered sample. */
    method ReceivedCallback(arg: Option<CsiInfo>)
      requires config.Some? && config.value.packetFrequency != 0
      modifies this
      ensures var r := Receive(old(config.value.macSubs), old(config.value.packetFrequency), old(DedupState()), arg);
              DedupState() == r.state && informerQueue == old(informerQueue) + AsSeq(r.forwarded)
      ensures config == old(config) && Task() == old(Task()) && queue == old(queue)
    {
      var cfg := config.value;
      if arg.None? || arg.value.buf.None? {
        return;
      }
      var info := arg.value;
      if info.mac != cfg.macSubs {
        return;
      }
      if cfg.packetFrequency < DEDUP_FREQUENCY_LIMIT {
        if firstCsiCallback {
          firstCsiCallback := false;
          lastTimestamp := info.rxCtrl.timestamp;
          informerQueue := informerQueue + [info];
        } else {
          var current := info.rxCtrl.timestamp;
          if WrapSub(current, lastTimestamp) >= 900 * TruncDiv(1000, cfg.packetFrequency) {
            lastTimestamp := current;
            informerQueue := informerQueue + [info];
          }
        }
      } else {
        informerQueue := informerQueue + [info];
      }
    }

    /** `start_csi_app`: install the configuration, start the informer for a
      receiver, and create a fresh queue holding the task's own START. */
    method Start(cfg: Config)
      modifies this
      ensures config == Some(cfg) && queue == [StartCsiCollection]
      ensures actions == old(actions) + (if cfg.opMode == CSI_RECV then [StartInformer(cfg)] else [])
      ensures hasStopped == old(hasStopped) && socketCreated == old(socketCreated) && periodUs == old(periodUs)
      ensures DedupState() == old(DedupState()) && informerQueue == old(informerQueue)
    {
      config := Some(cfg);
      queue := [];
      if cfg.opMode == CSI_RECV {
        actions := actions + [StartInformer(cfg)];
      }
      queue := queue + [StartCsiCollection];
    }

    /** `stop_csi_app`: post one STOP. */
    method Stop()
      modifies this
      ensures queue == old(queue) + [StopCsiCollection]
      ensures config == old(config) && Task() == old(Task()) && DedupState() == old(DedupState())
      ensures informerQueue == old(informerQueue)
    {
      queue := queue + [StopCsiCollection];
    }

    /** `timer_callback`: post one send request. */
    method TimerTick()
      modifies this
      ensures queue == old(queue) + [SendMessage]
      ensures config == old(config) && Task() == old(Task()) && DedupState() == old(DedupState())
      ensures informerQueue == old(informerQueue)
    {
      queue := queue + [SendMessage];
    }

    /** One message of `csi_task`. `results` are the `create_socket` results
      a sender's START sees; `sendResult` is what `send_to_socket` returns,
      which is only logged. */
    method HandleMessage(msg: CsiMsg, results: seq<int>, sendResult: int)
      requires config.Some? && CanHandle(config.value, msg, results)
      modifies this
      ensures Task() == HandleCsiMessage(old(config.value), old(Task()), msg, results)
      ensures config == old(config) && queue == old(queue) && DedupState() == old(DedupState())
      ensures informerQueue == old(informerQueue)
    {
      var cfg := config.value;
      match msg {
        case StartCsiCollection =>
          periodUs := TruncDiv(1_000_000, cfg.packetFrequency);
          if cfg.opMode == CSI_RECV {
            actions := actions + [SetCsiConfig, SetCsiRxCallback, EnableCsi];
          } else if cfg.opMode == CSI_SNDR {
            socketCreated := false;
            var attempts := RetrySocket(results);
            socketCreated := true;
            actions := actions + [CreateSocket(attempts), CreateTimer, StartPeriodicTimer(periodUs)];
          }
          hasStopped := false;
        case StopCsiCollection =>
          if !hasStopped {
            hasStopped := true;
            actions := actions + [StopTimer, DeleteTimer];
            if cfg.opMode == CSI_RECV {
              actions := actions + [DisableCsi];
            } else if cfg.opMode == CSI_SNDR {
              if socketCreated {
                actions := actions + [DestroySocket];
              }
            }
          }
        case SendMessage =>
          if !hasStopped {
            actions := actions + [SendDatagram(UDP_PAYLOAD)];
            if sendResult == -1 {
              // only logged
            }
          }
      }
    }

    /** Take the message at the head of the queue and handle it. */
    method ProcessNext(results: seq<int>, sendResult: int)
      requires config.Some? && queue != [] && CanHandle(config.value, queue[0], results)
      modifies this
      ensures queue == old(queue)[1..]
      ensures Task() == HandleCsiMessage(old(config.value), old(Task()), old(queue)[0], results)
      ensures config == old(config) && DedupState() == old(DedupState()) && informerQueue == old(informerQueue)
    {
      var msg := queue[0];
      queue := queue[1..];
      HandleMessage(msg, results, sendResult);
    }
  }
}
