/** MiningControls: counts the active miners in the status record and
    enables the "Start All" and "Stop All" buttons from those counts. */
module MiningControls {
  import opened Common

  /** A set is no larger than a superset, and equally large only when equal. */
  lemma {:induction false} SubsetSize<T>(a: set<T>, b: set<T>)
    requires a <= b
    ensures |a| <= |b|
    ensures |a| == |b| ==> a == b
    decreases b
  {
    if a != {} {
      var x :| x in a;
      SubsetSize(a - {x}, b - {x});
      assert a == (a - {x}) + {x};
      assert b == (b - {x}) + {x};
    } else if b != {} {
      var y :| y in b;
      assert |b| >= 1;
    }
  }

  /** The keys whose value is `true`. */
  function ActiveKeys(status: map<string, bool>): set<string> {
    set k | k in status && status[k]
  }

  lemma ActiveKeysBounds(status: map<string, bool>)
    ensures |ActiveKeys(status)| <= |status|
    ensures |ActiveKeys(status)| == |status| <==> forall k :: k in status ==> status[k]
    ensures |ActiveKeys(status)| > 0 <==> exists k :: k in status && status[k]
  {
    var active := ActiveKeys(status);
    SubsetSize(active, status.Keys);
    assert (forall k :: k in status ==> status[k]) ==> active == status.Keys;
    if exists k :: k in status && status[k] {
      var k :| k in status && status[k];
      assert k in active;
    }
  }

  /** `Object.values(miningStatus).filter(Boolean).length`. */
  function ActiveCount(status: map<string, bool>): (n: nat)
    ensures n <= |status|
    ensures n == |status| <==> forall k :: k in status ==> status[k]
    ensures n > 0 <==> exists k :: k in status && status[k]
  {
    ActiveKeysBounds(status);
    |ActiveKeys(status)|
  }

  /** `Object.keys(miningStatus).length`. */
  function TotalMiners(status: map<string, bool>): nat { |status| }

  /** `activeMiningCount === totalMiners`: every miner runs (and so an
      empty record counts as all active). */
  function AllActive(status: map<string, bool>): (all: bool)
    ensures all <==> forall k :: k in status ==> status[k]
    ensures status == map[] ==> all
  {
    ActiveCount(status) == TotalMiners(status)
  }

  /** `activeMiningCount > 0`: some miner runs. */
  function SomeActive(status: map<string, bool>): (some: bool)
    ensures some <==> exists k :: k in status && status[k]
  {
    ActiveCount(status) > 0
  }

  /** What a click on a bulk button sends to `onToggleAll`, or nothing when
      the button is disabled: "Start All" sends `true` unless all run,
      "Stop All" sends `false` when any runs. */
  function StartAllClick(status: map<string, bool>): (sent: Option<bool>)
    ensures sent.Some? ==> sent.value
    ensures sent.None? <==> forall k :: k in status ==> status[k]
  {
    if AllActive(status) then None else Some(true)
  }

  function StopAllClick(status: map<string, bool>): (sent: Option<bool>)
    ensures sent.Some? ==> !sent.value
    ensures sent.Some? <==> exists k :: k in status && status[k]
  {
    if SomeActive(status) then Some(false) else None
  }

  /** With at least one miner, at least one bulk button is enabled; with
      none, both are disabled. Both are enabled exactly when some but not
      all miners run. */
  lemma BulkButtons(status: map<string, bool>)
    ensures |status| > 0 ==> StartAllClick(status).Some? || StopAllClick(status).Some?
    ensures |status| == 0 ==> StartAllClick(status).None? && StopAllClick(status).None?
    ensures StartAllClick(status).Some? && StopAllClick(status).Some? <==>
      0 < ActiveCount(status) < TotalMiners(status)
  {
    if |status| > 0 && !SomeActive(status) {
      var k :| k in status;
      assert !status[k];
    }
  }

  /** After "Start All" is honoured every miner counts as active; after
      "Stop All" none does. */
  lemma BulkResults(status: map<string, bool>)
    ensures var on := map k | k in status :: true;
      ActiveCount(on) == TotalMiners(status) && AllActive(on)
    ensures var off := map k | k in status :: false;
      ActiveCount(off) == 0 && TotalMiners(off) == TotalMiners(status)
  {
    var on := map k | k in status :: true;
    var off := map k | k in status :: false;
    assert on.Keys == status.Keys;
    assert off.Keys == status.Keys;
  }
}
