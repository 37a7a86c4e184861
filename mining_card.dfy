/** MiningCard: one coin's card. While the card is active a one-second timer
    advances a cyclic progress gauge and now and then finds a block; going
    inactive resets the gauge but keeps the block count. */
module MiningCard {
  import opened Common

  datatype Crypto = Crypto(id: string, name: string, symbol: string, color: string,
                           hashRate: real, difficulty: string, reward: string,
                           price: string, profit: string, power: string, temp: string)

  /** The card's simulated state: the `isActive` prop and the `progress`
      and `blocks` state variables. */
  datatype Miner = Miner(isActive: bool, progress: real, blocks: nat)

  /** `Math.random()` returns a value in [0, 1). */
  predicate IsDraw(r: real) { 0.0 <= r < 1.0 }

  /** JavaScript's `%`: the remainder after truncating the quotient toward zero. */
  function Trunc(x: real): int {
    if x >= 0.0 then x.Floor else -((-x).Floor)
  }

  function Remainder100(x: real): (r: real)
    ensures 0.0 <= x ==> 0.0 <= r < 100.0
    ensures 0.0 <= x < 100.0 ==> r == x
    ensures 100.0 <= x < 200.0 ==> r == x - 100.0
  {
    x - 100.0 * Trunc(x / 100.0) as real
  }

  /** The card as first rendered: no progress, no blocks. */
  function Initial(isActive: bool): Miner { Miner(isActive, 0.0, 0) }

  /** The reachable states: progress lies in [0, 100) and is 0 while inactive. */
  ghost predicate Valid(m: Miner) {
    0.0 <= m.progress < 100.0 && (!m.isActive ==> m.progress == 0.0)
  }

  /** One firing of the interval, given the two `Math.random()` draws: progress
      advances by `2 * r1` modulo 100, and a block is found when `r2 < 0.1`.
      There is no interval while the card is inactive, so nothing changes then. */
  function TickStep(m: Miner, r1: real, r2: real): Miner {
    if !m.isActive then m
    else Miner(true, Remainder100(m.progress + r1 * 2.0), if r2 < 0.1 then m.blocks + 1 else m.blocks)
  }

  /** The effect on a change of `isActive`: switching on starts the interval
      and leaves the counters; switching off clears it and resets progress
      only. */
  function Switched(m: Miner, active: bool): Miner {
    if active then m.(isActive := true) else Miner(false, 0.0, m.blocks)
  }

  /** A tick keeps the state reachable: progress stays in [0, 100). */
  lemma TickKeepsValid(m: Miner, r1: real, r2: real)
    requires Valid(m) && IsDraw(r1)
    ensures Valid(TickStep(m, r1, r2))
  {
  }

  /** An active tick moves progress forward by `2 * r1`, wrapping past 100. */
  lemma TickAdvancesProgress(m: Miner, r1: real, r2: real)
    requires Valid(m) && m.isActive && IsDraw(r1)
    ensures var p := TickStep(m, r1, r2).progress;
      p == m.progress + 2.0 * r1 || p == m.progress + 2.0 * r1 - 100.0
    ensures TickStep(m, r1, r2).progress < m.progress <==> m.progress + 2.0 * r1 >= 100.0
  {
  }

  /** A tick adds one block exactly when the card is active and the second
      draw is below 0.1, and otherwise leaves the count alone. */
  lemma TickBlocks(m: Miner, r1: real, r2: real)
    ensures TickStep(m, r1, r2).blocks == m.blocks + 1 <==> m.isActive && r2 < 0.1
    ensures TickStep(m, r1, r2).blocks == m.blocks <==> !(m.isActive && r2 < 0.1)
  {
  }

  /** Switching off resets progress and keeps the blocks; switching back on
      starts from zero progress with the same blocks. */
  lemma SwitchOffOn(m: Miner)
    ensures Switched(m, false) == Miner(false, 0.0, m.blocks)
    ensures Switched(Switched(m, false), true) == Miner(true, 0.0, m.blocks)
  {
  }

  lemma SwitchKeepsValid(m: Miner, active: bool)
    requires Valid(m)
    ensures Valid(Switched(m, active))
  {
  }

  /** What can happen to a card: a timer firing, or the prop changing. */
  datatype Event = Tick(r1: real, r2: real) | Toggle(active: bool)

  function Run(m: Miner, events: seq<Event>): Miner
    decreases |events|
  {
    if events == [] then m
    else
      var e := events[0];
      var next := match e
        case Tick(r1, r2) => TickStep(m, r1, r2)
        case Toggle(a) => Switched(m, a);
      Run(next, events[1..])
  }

  ghost predicate DrawsValid(events: seq<Event>) {
    forall i :: 0 <= i < |events| && events[i].Tick? ==> IsDraw(events[i].r1) && IsDraw(events[i].r2)
  }

  /** The number of interval firings in a run: at most its length, and
      equal to it exactly when every event is a firing. */
  function TickCount(events: seq<Event>): (n: nat)
    ensures n <= |events|
    ensures n == |events| <==> forall i :: 0 <= i < |events| ==> events[i].Tick?
  {
    if events == [] then 0 else (if events[0].Tick? then 1 else 0) + TickCount(events[1..])
  }

  /** Over any run: the state stays reachable (progress in [0, 100)), the
      block count never decreases, and it grows by at most one per tick. */
  lemma {:induction false} RunInvariant(m: Miner, events: seq<Event>)
    requires Valid(m) && DrawsValid(events)
    ensures Valid(Run(m, events))
    ensures m.blocks <= Run(m, events).blocks <= m.blocks + TickCount(events)
    decreases |events|
  {
    if events != [] {
      var next := match events[0]
        case Tick(r1, r2) => TickStep(m, r1, r2)
        case Toggle(a) => Switched(m, a);
      if events[0].Tick? {
        TickKeepsValid(m, events[0].r1, events[0].r2);
      } else {
        SwitchKeepsValid(m, events[0].active);
      }
      assert DrawsValid(events[1..]) by {
        forall i | 0 <= i < |events| - 1 && events[1..][i].Tick?
          ensures IsDraw(events[1..][i].r1) && IsDraw(events[1..][i].r2)
        {
          assert events[1..][i] == events[i + 1];
        }
      }
      RunInvariant(next, events[1..]);
    }
  }

  /** The firings of two runs in a row add up. */
  lemma {:induction false} TickCountAppend(a: seq<Event>, b: seq<Event>)
    ensures TickCount(a + b) == TickCount(a) + TickCount(b)
    decreases |a|
  {
    if a == [] {
      assert a + b == b;
    } else {
      assert (a + b)[0] == a[0];
      assert (a + b)[1..] == a[1..] + b;
      TickCountAppend(a[1..], b);
    }
  }

  /** Running two sequences of events is running their concatenation. */
  lemma {:induction false} RunAppend(m: Miner, a: seq<Event>, b: seq<Event>)
    ensures Run(m, a + b) == Run(Run(m, a), b)
    decreases |a|
  {
    if a == [] {
      assert a + b == b;
    } else {
      assert (a + b)[0] == a[0];
      assert (a + b)[1..] == a[1..] + b;
      var next := match a[0]
        case Tick(r1, r2) => TickStep(m, r1, r2)
        case Toggle(x) => Switched(m, x);
      RunAppend(next, a[1..], b);
    }
  }

  /** A run split in two: the second half starts from a reachable state, and
      the blocks found over both halves are bounded by the ticks of the
      whole run. */
  lemma RunInvariantSplit(m: Miner, a: seq<Event>, b: seq<Event>)
    requires Valid(m) && DrawsValid(a) && DrawsValid(b)
    ensures Valid(Run(m, a)) && Valid(Run(m, a + b))
    ensures m.blocks <= Run(m, a).blocks <= Run(m, a + b).blocks <= m.blocks + TickCount(a + b)
  {
    RunInvariant(m, a);
    RunInvariant(Run(m, a), b);
    RunAppend(m, a, b);
    TickCountAppend(a, b);
  }

  /** While a card is inactive, ticks change nothing, however many fire. */
  lemma {:induction false} IdleTicksChangeNothing(m: Miner, events: seq<Event>)
    requires !m.isActive
    requires forall i :: 0 <= i < |events| ==> events[i].Tick?
    ensures Run(m, events) == m
    decreases |events|
  {
    if events != [] {
      IdleTicksChangeNothing(m, events[1..]);
    }
  }

  /** The hash-rate units, as a table. */
  const Units: map<string, string> :=
    map["bitcoin" := "TH/s", "ethereum" := "MH/s", "kaspa" := "GH/s", "dogecoin" := "MH/s"]

  /** `getHashRateUnit(id)`: the table's unit for a known coin, `H/s` otherwise. */
  function GetHashRateUnit(id: string): (unit: string)
    ensures id in Units ==> unit == Units[id]
    ensures id !in Units <==> unit == "H/s"
  {
    match id
    case "bitcoin" => "TH/s"
    case "ethereum" => "MH/s"
    case "kaspa" => "GH/s"
    case "dogecoin" => "MH/s"
    case _ => "H/s"
  }

  /** A hash-rate read-out: a fixed text, or a number (printed with two
      decimals) followed by its unit. */
  datatype Reading = Literal(text: string) | Measured(value: real, unit: string)

  /** The parts of the card that depend on its state. */
  datatype CardView = CardView(hashRate: Reading, profit: string, badge: string,
                               progressBar: Option<real>, button: string, blocks: nat)

  function View(c: Crypto, m: Miner): CardView {
    if m.isActive then
      CardView(Measured(c.hashRate, GetHashRateUnit(c.id)), c.profit, "MINING", Some(m.progress), "Stop", m.blocks)
    else
      CardView(Literal("0.00 H/s"), "$0.00/day", "IDLE", None, "Start", m.blocks)
  }

  /** A switched-off card reads zero hash rate and zero profit, is badged
      IDLE, hides its progress bar, and still shows the blocks it found. */
  lemma SwitchedOffView(c: Crypto, m: Miner)
    ensures View(c, Switched(m, false)) ==
      CardView(Literal("0.00 H/s"), "$0.00/day", "IDLE", None, "Start", m.blocks)
  {
  }

  /** A running card shows the coin's hash rate in its unit, its profit and
      the progress gauge, which lies in [0, 100). */
  lemma ActiveView(c: Crypto, m: Miner)
    requires Valid(m) && m.isActive
    ensures var v := View(c, m);
      && v.hashRate == Measured(c.hashRate, GetHashRateUnit(c.id))
      && v.profit == c.profit && v.badge == "MINING"
      && v.progressBar.Some? && 0.0 <= v.progressBar.value < 100.0
  {
  }

  /** The card component. */
  class MinerCard {
    const crypto: Crypto
    var isActive: bool
    var progress: real
    var blocks: nat

    function State(): Miner reads this { Miner(isActive, progress, blocks) }

    constructor (crypto: Crypto, isActive: bool)
      ensures this.crypto == crypto && State() == Initial(isActive) && Valid(State())
    {
      this.crypto := crypto;
      this.isActive := isActive;
      progress := 0.0;
      blocks := 0;
    }

    /** The parent changes the `isActive` prop. */
    method SetActive(active: bool)
      requires Valid(State())
      modifies this
      ensures Valid(State()) && State() == Switched(old(State()), active)
    {
      isActive := active;
      if !active {
        progress := 0.0;
      }
    }

    /** The interval fires with draws `r1` and `r2`. */
    method Tick(r1: real, r2: real)
      requires Valid(State()) && IsDraw(r1)
      modifies this
      ensures Valid(State()) && State() == TickStep(old(State()), r1, r2)
      ensures blocks >= old(blocks)
    {
      if isActive {
        progress := Remainder100(progress + r1 * 2.0);
        if r2 < 0.1 {
          blocks := blocks + 1;
        }
      }
    }
  }
}
