/** The deny path: the control plane puts PIDs into a kernel map, the BPF-LSM exec hook denies each
    once and takes it out again, and SIGKILL is the fallback. The map is shared by both sides; one
    run of the hook is one atomic step. */
module DenyProtocol {

  const MAX_ENTRIES := 256
  const EPERM := 1

  /** What the operating system does with a kill: is the process found, is the signal delivered. */
  datatype KillOutcome = KillOutcome(found: bool, delivered: bool)

  /** How a denial is brought about: by the map, which stops the next exec, or by SIGKILL, which stops the
      process; or not at all. */
  datatype Route = ByMap | BySignal | NoWay

  /** The map takes a PID it holds already, or any PID while it is not full. */
  predicate HasRoom(m: map<nat, nat>, pid: nat) {
    pid in m || |m| < MAX_ENTRIES
  }

  /** Every successful put was used up by one denial, is still pending, or was put over. */
  ghost predicate Balanced(puts: multiset<nat>, denials: multiset<nat>, pending: set<nat>, overwrites: multiset<nat>) {
    puts == denials + multiset(pending) + overwrites
  }

  lemma PutBalances(puts: multiset<nat>, denials: multiset<nat>, pending: set<nat>, overwrites: multiset<nat>, pid: nat)
    requires Balanced(puts, denials, pending, overwrites)
    ensures Balanced(puts + multiset{pid}, denials, pending + {pid},
                     if pid in pending then overwrites + multiset{pid} else overwrites)
  {
    if pid in pending {
      assert pending + {pid} == pending;
    }
  }

  lemma DenialBalances(puts: multiset<nat>, denials: multiset<nat>, pending: set<nat>, overwrites: multiset<nat>, pid: nat)
    requires Balanced(puts, denials, pending, overwrites) && pid in pending
    ensures Balanced(puts, denials + multiset{pid}, pending - {pid}, overwrites)
  {
  }

  lemma OneMorePromise(puts: multiset<nat>, killed: multiset<nat>, pid: nat)
    ensures puts + multiset{pid} + killed == puts + killed + multiset{pid}
    ensures puts + (killed + multiset{pid}) == puts + killed + multiset{pid}
  {
  }

  class DenyPath {
    var lsmAvailable: bool
    var mapOpen: bool
    var fallbackKill: bool
    var denyMap: map<nat, nat>
    var killEvents: seq<nat>
    ghost var puts: multiset<nat>
    ghost var overwrites: multiset<nat>
    ghost var denials: multiset<nat>
    ghost var granted: multiset<nat>
    ghost var killed: multiset<nat>

    /** The map is within bounds and every put is accounted for. */
    ghost predicate MapSound()
      reads this
    {
      |denyMap| <= MAX_ENTRIES && Balanced(puts, denials, denyMap.Keys, overwrites)
    }

    /** And every promise was kept by one put or by one SIGKILL. */
    ghost predicate Valid()
      reads this
    {
      MapSound() && granted == puts + killed
    }

    constructor (lsm: bool, fallback: bool)
      ensures Valid() && denyMap == map[] && puts == multiset{} && granted == multiset{} && killed == multiset{}
      ensures denials == multiset{}
      ensures lsmAvailable == lsm && mapOpen == lsm && fallbackKill == fallback
    {
      lsmAvailable, mapOpen, fallbackKill, denyMap, killEvents := lsm, lsm, fallback, map[], [];
      puts, overwrites, denials, granted, killed := multiset{}, multiset{}, multiset{}, multiset{}, multiset{};
    }

    predicate UsesMap()
      reads this
    {
      lsmAvailable && mapOpen && !fallbackKill
    }

    /** A put would go into the map. */
    predicate PutWorks(pid: nat, fault: bool)
      reads this
    {
      UsesMap() && !fault && HasRoom(denyMap, pid)
    }

    /** The way a denial of pid would take. */
    function Takes(pid: nat, fault: bool, os: KillOutcome): Route
      reads this
    {
      if PutWorks(pid, fault) then ByMap else if os.found && os.delivered then BySignal else NoWay
    }

    /** A put fails when the map is full of other PIDs, or for any other reason (`fault`). */
    method Put(pid: nat, fault: bool) returns (ok: bool)
      requires MapSound()
      modifies this`denyMap, this`puts, this`overwrites
      ensures MapSound()
      ensures ok == (!fault && HasRoom(old(denyMap), pid))
      ensures ok ==> denyMap == old(denyMap)[pid := 1] && puts == old(puts) + multiset{pid}
      ensures !ok ==> unchanged(this)
    {
      ok := !fault && HasRoom(denyMap, pid);
      if ok {
        PutBalances(puts, denials, denyMap.Keys, overwrites, pid);
        assert denyMap[pid := 1].Keys == denyMap.Keys + {pid};
        if pid in denyMap {
          overwrites := overwrites + multiset{pid};
        }
        denyMap := denyMap[pid := 1];
        puts := puts + multiset{pid};
      }
    }

    method SignalKill(pid: nat, os: KillOutcome) returns (ok: bool)
      modifies this`killed
      ensures ok == (os.found && os.delivered)
      ensures killed == if ok then old(killed) + multiset{pid} else old(killed)
    {
      ok := os.found && os.delivered;
      if ok {
        killed := killed + multiset{pid};
      }
    }

    /** Promises that pid will be stopped, by the map where it is usable and takes it, and by SIGKILL
        only otherwise. */
    method DenyExec(pid: nat, fault: bool, os: KillOutcome) returns (ok: bool)
      requires Valid()
      modifies this`denyMap, this`puts, this`overwrites, this`granted, this`killed
      ensures Valid()
      ensures ok <==> old(Takes(pid, fault, os)) != NoWay
      ensures granted == if ok then old(granted) + multiset{pid} else old(granted)
      ensures puts == if old(Takes(pid, fault, os)) == ByMap then old(puts) + multiset{pid} else old(puts)
      ensures killed == if old(Takes(pid, fault, os)) == BySignal then old(killed) + multiset{pid} else old(killed)
      ensures denyMap == if old(Takes(pid, fault, os)) == ByMap then old(denyMap)[pid := 1] else old(denyMap)
    {
      OneMorePromise(puts, killed, pid);
      ok := false;
      if lsmAvailable && mapOpen && !fallbackKill {
        ok := Put(pid, fault);
      }
      if !ok {
        ok := SignalKill(pid, os);
      }
      if ok {
        granted := granted + multiset{pid};
      }
    }

    /** The exec hook. A denial by an earlier LSM is passed on and consumes nothing; otherwise exactly
        the PIDs in the map are denied, each once per put. */
    method BprmCheck(pid: nat, ret: int, ringHasRoom: bool) returns (code: int)
      requires Valid()
      modifies this`denyMap, this`denials, this`killEvents
      ensures Valid()
      ensures ret != 0 ==> code == ret && unchanged(this)
      ensures ret == 0 ==> code == if pid in old(denyMap) then -EPERM else 0
      ensures ret == 0 && pid in old(denyMap) ==>
                denyMap == old(denyMap) - {pid} && denials == old(denials) + multiset{pid} &&
                killEvents == if ringHasRoom then old(killEvents) + [pid] else old(killEvents)
      ensures pid !in old(denyMap) ==> unchanged(this)
      ensures denyMap == if ret == 0 then old(denyMap) - {pid} else old(denyMap)
    {
      if ret != 0 {
        return ret;
      }
      if pid !in denyMap {
        return 0;
      }
      if ringHasRoom {
        killEvents := killEvents + [pid];
      }
      DenialBalances(puts, denials, denyMap.Keys, overwrites, pid);
      KeysShrink(denyMap, pid);
      denyMap := denyMap - {pid};
      denials := denials + multiset{pid};
      return -EPERM;
    }
  }

  lemma KeysShrink(m: map<nat, nat>, k: nat)
    requires k in m
    ensures |m - {k}| == |m| - 1 && (m - {k}).Keys == m.Keys - {k}
  {
    assert (m - {k}).Keys == m.Keys - {k};
  }

  /** What the accounting gives per PID: every promise was kept by a denial, is pending in the map, was
      put over by a later one, or was kept by SIGKILL; so denials, plus one if it is still pending, never
      exceed the successful puts. */
  lemma PromisesAreKept(d: DenyPath, pid: nat)
    requires d.Valid()
    ensures d.granted[pid] == d.denials[pid] + (if pid in d.denyMap then 1 else 0) + d.overwrites[pid] + d.killed[pid]
    ensures d.denials[pid] + (if pid in d.denyMap then 1 else 0) <= d.puts[pid] <= d.granted[pid]
  {
    assert d.puts[pid] == d.denials[pid] + multiset(d.denyMap.Keys)[pid] + d.overwrites[pid];
  }
}
