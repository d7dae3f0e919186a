/** Write-side hysteresis and the read limiter. */
module Backpressure {
  import opened Bytes

  /** Arithmetic on `usize`, 64 bits wide. */
  function SaturatingAdd(a: nat, b: nat): (r: nat) {
    if a + b < U64 then a + b else U64 - 1
  }

  function SaturatingSub(a: nat, b: nat): (r: nat) {
    if b <= a then a - b else 0
  }

  // ---------------------------------------------------------------
  // The write side
  // ---------------------------------------------------------------

  datatype WriteConfig = WriteConfig(high: nat, low: nat)
  datatype Writing = Writing(config: WriteConfig, buffered: nat, backpressured: bool)

  /** `record_buffered`: the new state, and whether backpressure was just engaged. */
  function Buffer(c: Writing, n: nat): (r: (Writing, bool)) {
    var buffered := SaturatingAdd(c.buffered, n);
    var engage := !c.backpressured && buffered >= c.config.high;
    (c.(buffered := buffered, backpressured := c.backpressured || engage), engage)
  }

  /** `record_flushed`: the new state, and whether backpressure was just released. */
  function Flush(c: Writing, n: nat): (r: (Writing, bool)) {
    var buffered := SaturatingSub(c.buffered, n);
    var release := c.backpressured && buffered <= c.config.low;
    (c.(buffered := buffered, backpressured := c.backpressured && !release), release)
  }

  class BackpressureController {
    const config: WriteConfig
    var bufferedBytes: nat
    var backpressured: bool

    ghost function Value(): (c: Writing)
      reads this
    {
      Writing(config, bufferedBytes, backpressured)
    }

    constructor (config: WriteConfig)
      ensures Value() == Writing(config, 0, false)
    {
      this.config, bufferedBytes, backpressured := config, 0, false;
    }

    method RecordBuffered(n: nat) returns (engaged: bool)
      modifies this
      ensures (Value(), engaged) == Buffer(old(Value()), n)
    {
      bufferedBytes := SaturatingAdd(bufferedBytes, n);
      if !backpressured && bufferedBytes >= config.high {
        backpressured := true;
        return true;
      }
      engaged := false;
    }

    method RecordFlushed(n: nat) returns (released: bool)
      modifies this
      ensures (Value(), released) == Flush(old(Value()), n)
    {
      bufferedBytes := SaturatingSub(bufferedBytes, n);
      if backpressured && bufferedBytes <= config.low {
        backpressured := false;
        return true;
      }
      released := false;
    }
  }

  datatype Report = Buffered(bytes: nat) | Flushed(bytes: nat)

  /** A controller with its history: bytes reported buffered, and the signals given (true for engage). */
  datatype Watch = Watch(c: Writing, total: nat, signals: seq<bool>)

  function Observe(w: Watch, ev: Report): (w': Watch) {
    match ev
    case Buffered(n) =>
      var (c, engaged) := Buffer(w.c, n);
      Watch(c, w.total + n, if engaged then w.signals + [true] else w.signals)
    case Flushed(n) =>
      var (c, released) := Flush(w.c, n);
      Watch(c, w.total, if released then w.signals + [false] else w.signals)
  }

  function ObserveAll(w: Watch, evs: seq<Report>): (w': Watch)
    decreases |evs|
  {
    if evs == [] then w else ObserveAll(Observe(w, evs[0]), evs[1..])
  }

  function Fresh(config: WriteConfig): (w: Watch) {
    Watch(Writing(config, 0, false), 0, [])
  }

  function Engagements(signals: seq<bool>): (n: nat) {
    if signals == [] then 0 else
      Engagements(signals[..|signals| - 1]) + if signals[|signals| - 1] then 1 else 0
  }

  lemma EngagementsPush(signals: seq<bool>, b: bool)
    ensures Engagements(signals + [b]) == Engagements(signals) + if b then 1 else 0
  {
    assert (signals + [b])[..|signals|] == signals;
  }

  /** Engage comes first, then they alternate. */
  ghost predicate Alternating(signals: seq<bool>) {
    forall i :: 0 <= i < |signals| ==> signals[i] == (i % 2 == 0)
  }

  /** Bytes that count towards the next engagement. */
  function Climb(c: Writing): (n: nat) {
    if c.backpressured || c.buffered <= c.config.low then 0 else c.buffered - c.config.low
  }

  /** The marks hold. */
  ghost predicate MarksInv(c: Writing) {
    && c.buffered < U64
    && (c.backpressured ==> c.buffered > c.config.low)
    && (!c.backpressured ==> c.buffered < c.config.high)
  }

  /** Signals alternate, and the last one tells the state. */
  ghost predicate SignalsInv(w: Watch) {
    Alternating(w.signals) && (w.c.backpressured <==> |w.signals| % 2 == 1)
  }

  /** Every engagement is paid for. */
  ghost predicate PaidInv(w: Watch)
    requires w.c.config.low < w.c.config.high
  {
    Engagements(w.signals) * (w.c.config.high - w.c.config.low) + Climb(w.c) <= w.total
  }

  ghost predicate WatchInv(w: Watch)
    requires w.c.config.low < w.c.config.high
  {
    MarksInv(w.c) && SignalsInv(w) && PaidInv(w)
  }

  lemma ObserveMarks(w: Watch, ev: Report)
    requires w.c.config.low < w.c.config.high < U64 && MarksInv(w.c)
    ensures Observe(w, ev).c.config == w.c.config && MarksInv(Observe(w, ev).c)
  {
  }

  lemma ObserveSignals(w: Watch, ev: Report)
    requires SignalsInv(w)
    ensures SignalsInv(Observe(w, ev))
  {
  }

  /** What one report adds: to the engagements, to the climb, to the total. */
  lemma ObserveClimb(w: Watch, ev: Report)
    requires w.c.config.low < w.c.config.high < U64 && MarksInv(w.c)
    ensures var w' := Observe(w, ev);
            var engaged := ev.Buffered? && Buffer(w.c, ev.bytes).1;
            && Engagements(w'.signals) == Engagements(w.signals) + (if engaged then 1 else 0)
            && var gap := if engaged then w.c.config.high - w.c.config.low else 0;
               gap + Climb(w'.c) + w.total <= Climb(w.c) + w'.total
  {
    EngagementsPush(w.signals, ev.Buffered?);
  }

  lemma OneMore(n: nat, d: nat)
    ensures (n + 1) * d == n * d + d
  {
  }

  lemma ObserveInv(w: Watch, ev: Report)
    requires w.c.config.low < w.c.config.high < U64 && WatchInv(w)
    ensures Observe(w, ev).c.config == w.c.config && WatchInv(Observe(w, ev))
  {
    ObserveMarks(w, ev);
    ObserveSignals(w, ev);
    ObserveClimb(w, ev);
    OneMore(Engagements(w.signals), w.c.config.high - w.c.config.low);
    hide Observe, Climb, Engagements, SignalsInv, MarksInv;
  }

  lemma {:induction false} ObserveAllInv(w: Watch, evs: seq<Report>)
    requires w.c.config.low < w.c.config.high < U64 && WatchInv(w)
    ensures ObserveAll(w, evs).c.config == w.c.config && WatchInv(ObserveAll(w, evs))
    decreases |evs|
  {
    hide WatchInv, Observe;
    if evs != [] {
      ObserveInv(w, evs[0]);
      ObserveAllInv(Observe(w, evs[0]), evs[1..]);
    }
  }

  /**
   * Hysteresis and its amortised cost, over every run: backpressured means above the low mark and
   * ready means below the high mark; signals alternate; and each engagement is paid for by as many
   * bytes as lie between the marks.
   */
  lemma Amortised(config: WriteConfig, evs: seq<Report>)
    requires config.low < config.high < U64
    ensures var w := ObserveAll(Fresh(config), evs);
            && (w.c.backpressured ==> w.c.buffered > config.low)
            && (!w.c.backpressured ==> w.c.buffered < config.high)
            && Alternating(w.signals)
            && Engagements(w.signals) * (config.high - config.low) <= w.total
  {
    hide ObserveAll;
    ObserveAllInv(Fresh(config), evs);
  }

  /** The marks must be in order: the first part holds over every run exactly if low < high. */
  lemma MarksInOrder(config: WriteConfig)
    requires config.high < U64
    ensures (forall evs :: var w := ObserveAll(Fresh(config), evs); w.c.backpressured ==> w.c.buffered > config.low)
            <==> config.low < config.high
  {
    if config.low < config.high {
      forall evs ensures var w := ObserveAll(Fresh(config), evs); w.c.backpressured ==> w.c.buffered > config.low {
        Amortised(config, evs);
      }
    } else {
      var w := Observe(Fresh(config), Buffered(config.high));
      assert [Buffered(config.high)][1..] == [];
      assert ObserveAll(w, []) == w;
      assert ObserveAll(Fresh(config), [Buffered(config.high)]) == w;
      assert w.c.backpressured && w.c.buffered <= config.low;
    }
  }

  // ---------------------------------------------------------------
  // The read side
  // ---------------------------------------------------------------

  datatype Reading = Reading(max: nat, current: nat, paused: bool)

  function Receive(r: Reading): (x: (Reading, bool)) {
    var current := SaturatingAdd(r.current, 1);
    var pause := !r.paused && current >= r.max;
    (r.(current := current, paused := r.paused || pause), pause)
  }

  function Consume(r: Reading): (x: (Reading, bool)) {
    var current := SaturatingSub(r.current, 1);
    var resume := r.paused && current < r.max;
    (r.(current := current, paused := r.paused && !resume), resume)
  }

  class ReadLimiter {
    const maxMessages: nat
    var current: nat
    var paused: bool

    ghost function Value(): (r: Reading)
      reads this
    {
      Reading(maxMessages, current, paused)
    }

    constructor (max: nat)
      ensures Value() == Reading(max, 0, false)
    {
      maxMessages, current, paused := max, 0, false;
    }

    method RecordReceived() returns (pause: bool)
      modifies this
      ensures (Value(), pause) == Receive(old(Value()))
    {
      current := SaturatingAdd(current, 1);
      if !paused && current >= maxMessages {
        paused := true;
        return true;
      }
      pause := false;
    }

    method RecordConsumed() returns (resume: bool)
      modifies this
      ensures (Value(), resume) == Consume(old(Value()))
    {
      current := SaturatingSub(current, 1);
      if paused && current < maxMessages {
        paused := false;
        return true;
      }
      resume := false;
    }
  }

  /** True for a message received, false for one consumed. */
  function Track(r: Reading, evs: seq<bool>): (r': Reading)
    decreases |evs|
  {
    if evs == [] then r else Track(if evs[0] then Receive(r).0 else Consume(r).0, evs[1..])
  }

  lemma {:induction false} TrackInv(r: Reading, evs: seq<bool>)
    requires r.max < U64 && r.current < U64 && (r.paused <==> r.current >= r.max)
    ensures var r' := Track(r, evs); r'.max == r.max && (r'.paused <==> r'.current >= r'.max)
    decreases |evs|
  {
    if evs != [] {
      TrackInv(if evs[0] then Receive(r).0 else Consume(r).0, evs[1..]);
    }
  }

  /** Over every run reading is paused exactly while the limit is reached, exactly if the limit is not zero. */
  lemma PausedAtTheLimit(max: nat)
    requires max < U64
    ensures (forall evs :: var r := Track(Reading(max, 0, false), evs); r.paused <==> r.current >= max) <==> max > 0
  {
    if max > 0 {
      forall evs ensures var r := Track(Reading(max, 0, false), evs); r.paused <==> r.current >= max {
        TrackInv(Reading(max, 0, false), evs);
      }
    } else {
      assert Track(Reading(max, 0, false), []) == Reading(max, 0, false);
    }
  }

  // ---------------------------------------------------------------
  // What the counters count
  // ---------------------------------------------------------------

  function Net(deltas: seq<int>): (n: int) {
    if deltas == [] then 0 else deltas[0] + Net(deltas[1..])
  }

  /** The greatest net amount of a suffix, the empty one included. */
  function Peak(deltas: seq<int>): (n: nat) {
    if deltas == [] then 0 else if Net(deltas) > Peak(deltas[1..]) then Net(deltas) else Peak(deltas[1..])
  }

  lemma {:induction false} PeakIsGreatest(deltas: seq<int>)
    ensures forall i :: 0 <= i <= |deltas| ==> Net(deltas[i..]) <= Peak(deltas)
    ensures exists i :: 0 <= i <= |deltas| && Net(deltas[i..]) == Peak(deltas)
  {
    if deltas == [] {
      assert deltas[0..] == [];
    } else {
      PeakIsGreatest(deltas[1..]);
      assert deltas[0..] == deltas;
      assert forall i :: 1 <= i <= |deltas| ==> deltas[i..] == deltas[1..][i - 1..];
      var i :| 0 <= i <= |deltas[1..]| && Net(deltas[1..][i..]) == Peak(deltas[1..]);
      assert deltas[i + 1..] == deltas[1..][i..];
    }
  }

  function Delta(ev: Report): (d: int) {
    if ev.Buffered? then ev.bytes else 0 - ev.bytes
  }

  function Deltas(evs: seq<Report>): (ds: seq<int>) {
    seq(|evs|, i requires 0 <= i < |evs| => Delta(evs[i]))
  }

  function Incoming(evs: seq<Report>): (n: nat) {
    if evs == [] then 0 else (if evs[0].Buffered? then evs[0].bytes else 0) + Incoming(evs[1..])
  }

  lemma {:induction false} LevelFrom(w: Watch, evs: seq<Report>)
    requires w.c.buffered + Incoming(evs) < U64
    ensures var net := w.c.buffered + Net(Deltas(evs));
            ObserveAll(w, evs).c.buffered == if net > Peak(Deltas(evs)) then net else Peak(Deltas(evs))
    decreases |evs|
  {
    if evs != [] {
      assert Deltas(evs)[1..] == Deltas(evs[1..]);
      LevelFrom(Observe(w, evs[0]), evs[1..]);
      assert Net(Deltas(evs[1..])) <= Peak(Deltas(evs[1..]));
    }
  }

  /**
   * Over every run that never reports 2^64 bytes in all, the count of buffered bytes is the greatest
   * net amount of a suffix of the run: bytes buffered less bytes flushed, counted from the last time
   * nothing was buffered.
   */
  lemma BufferedLevel(config: WriteConfig, evs: seq<Report>)
    requires Incoming(evs) < U64
    ensures ObserveAll(Fresh(config), evs).c.buffered == Peak(Deltas(evs))
  {
    LevelFrom(Fresh(config), evs);
    PeakIsGreatest(Deltas(evs));
    assert Deltas(evs)[0..] == Deltas(evs);
  }

  lemma {:induction false} NetSplit(deltas: seq<int>, i: nat)
    requires i <= |deltas|
    ensures Net(deltas) == Net(deltas[..i]) + Net(deltas[i..])
  {
    if i == 0 {
      assert deltas[0..] == deltas;
    } else {
      NetSplit(deltas[1..], i - 1);
      assert deltas[1..][..i - 1] == deltas[..i][1..] && deltas[1..][i - 1..] == deltas[i..];
    }
  }

  /** If never more is flushed than was buffered, it is plainly the difference. */
  lemma BufferedIsDifference(config: WriteConfig, evs: seq<Report>)
    requires Incoming(evs) < U64 && forall i :: 0 <= i <= |evs| ==> Net(Deltas(evs)[..i]) >= 0
    ensures ObserveAll(Fresh(config), evs).c.buffered == Net(Deltas(evs))
  {
    BufferedLevel(config, evs);
    var ds := Deltas(evs);
    PeakIsGreatest(ds);
    var i :| 0 <= i <= |ds| && Net(ds[i..]) == Peak(ds);
    NetSplit(ds, i);
    assert ds[0..] == ds;
  }

  function Ticks(evs: seq<bool>): (ds: seq<int>) {
    seq(|evs|, i requires 0 <= i < |evs| => if evs[i] then 1 else -1)
  }

  lemma {:induction false} ReadLevelFrom(r: Reading, evs: seq<bool>)
    requires r.current + |evs| < U64
    ensures var net := r.current + Net(Ticks(evs));
            Track(r, evs).current == if net > Peak(Ticks(evs)) then net else Peak(Ticks(evs))
    decreases |evs|
  {
    if evs != [] {
      assert Ticks(evs)[1..] == Ticks(evs[1..]);
      ReadLevelFrom(if evs[0] then Receive(r).0 else Consume(r).0, evs[1..]);
      assert Net(Ticks(evs[1..])) <= Peak(Ticks(evs[1..]));
    }
  }

  /** Likewise the limiter counts messages received and not yet consumed. */
  lemma ReadLevel(max: nat, evs: seq<bool>)
    requires |evs| < U64
    ensures Track(Reading(max, 0, false), evs).current == Peak(Ticks(evs))
  {
    ReadLevelFrom(Reading(max, 0, false), evs);
    PeakIsGreatest(Ticks(evs));
    assert Ticks(evs)[0..] == Ticks(evs);
  }
}
