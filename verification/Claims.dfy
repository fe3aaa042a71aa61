/** What the records of the store claim about processes, against what was done to them. */
module Claims {
  import opened AttackPatterns
  import opened Conformal
  import opened DenyProtocol
  import opened ResponseEngine
  import opened Store
  import opened Verdicts
  import opened Wrappers

  type Records = map<nat, ProcessRecord>

  /** What the store keeps of a decision the engine settled. */
  ghost function Told(procs: Records, b: View, u: Subject, world: World, trust: real, techniqueID: string): Records {
    var o := Settled(b, u, world);
    Recorded(procs, u.pid, u.comm, Verdict(trust, o.status, o.action), techniqueID)
  }

  // ---- killed ----

  ghost predicate KillClaimed(procs: Records, pid: nat) {
    pid in procs && exists i :: 0 <= i < |procs[pid].decisions| && Kills(procs[pid].decisions[i].action)
  }

  /** A running process that has a record is hidden from both views exactly when a kill was ever claimed
      for its PID. */
  lemma HiddenIffClaimed(procs: Records, all: seq<AttackPattern>, verdicts: map<nat, Verdict>, alive: set<nat>, pid: nat)
    requires Consistent(procs, all, verdicts) && pid in procs && pid != 0 && pid in alive
    ensures pid !in Live(procs, alive) <==> KillClaimed(procs, pid)
  {
    assert procs[pid].KillsNoted();
  }

  lemma ClaimGrows(procs: Records, b: View, u: Subject, world: World, trust: real, techniqueID: string)
    ensures KillClaimed(Told(procs, b, u, world, trust, techniqueID), u.pid) <==>
            KillClaimed(procs, u.pid) || Kills(Settled(b, u, world).action)
  {
    var procs' := Told(procs, b, u, world, trust, techniqueID);
    var before := if u.pid in procs then procs[u.pid].decisions else [];
    assert procs'[u.pid].decisions[..|before|] == before;
    assert procs'[u.pid].decisions[|before|].action == Settled(b, u, world).action;
    if KillClaimed(procs, u.pid) {
      var i :| 0 <= i < |before| && Kills(before[i].action);
      assert procs'[u.pid].decisions[i] == before[i];
    }
  }

  /** After a decision about a running process it is hidden exactly when a kill was claimed before, or the
      decision issued a deny that took the map or took SIGKILL, or issued a confirmed one that went no
      way. Only SIGKILL stops the process; the map refuses its next exec, once. So it is hidden and was
      sent no SIGKILL by the decision exactly in the other three cases, all of which show beforehand. */
  lemma HiddenIff(procs: Records, all: seq<AttackPattern>, verdicts: map<nat, Verdict>, alive: set<nat>, b: View, u: Subject,
                  world: World, trust: real, techniqueID: string, puts: multiset<nat>, killed: multiset<nat>,
                  puts': multiset<nat>, killed': multiset<nat>)
    requires Consistent(procs, all, verdicts) && u.pid != 0 && u.pid in alive
    requires Kept(b.ledger, puts, killed) && Kept(Settled(b, u, world).after, puts', killed')
    ensures var hidden := u.pid !in Live(Told(procs, b, u, world, trust, techniqueID), alive);
            && (hidden <==> KillClaimed(procs, u.pid) || DeniesBy(b, u, world, ByMap) || DeniesBy(b, u, world, BySignal) ||
                            ConfirmedInVain(b, u, world))
            && (hidden && killed' == killed <==>
                  !DeniesBy(b, u, world, BySignal) &&
                  (KillClaimed(procs, u.pid) || DeniesBy(b, u, world, ByMap) || ConfirmedInVain(b, u, world)))
    ensures DeniesBy(b, u, world, ByMap) ==> puts' == puts + multiset{u.pid} && u.pid in Settled(b, u, world).after.pending
  {
    var o := Settled(b, u, world);
    var v := Verdict(trust, o.status, o.action);
    DecidedConsistent(procs, all, verdicts, u.pid, u.comm, v, techniqueID);
    HiddenIffClaimed(Told(procs, b, u, world, trust, techniqueID), all, verdicts[u.pid := v], alive, u.pid);
    ClaimGrows(procs, b, u, world, trust, techniqueID);
    KillClaimedIff(b, u, world);
    AccountsTell(b, u, world, puts, killed, puts', killed');
  }

  const PID := 4711

  /** The usual way: with the map in working order a High decision puts the PID there, and the process runs
      on, hidden, denied nothing and sent no SIGKILL. */
  method DeniedRunsOn(comm: string, trust: real, world: World) returns (d: DenyPath, ghost b: View)
    requires !world.mapFault
    ensures fresh(d) && d.Valid() && PID in d.denyMap && d.killed == multiset{} && d.denials == multiset{}
    ensures b.mode == Enforce && b.how == ByMap
    ensures var u := Subject(PID, comm, High, Suspicious);
            PID !in Live(Told(map[], b, u, world, trust, ""), {PID}) && !ConfirmedInVain(b, u, world)
  {
    d := new DenyPath(true, false);
    b := View(Enforce, false, d.Takes(PID, world.mapFault, world.kill), Ledger(map[], [], d.denyMap));
    var ok := d.DenyExec(PID, world.mapFault, world.kill);
  }

  /** A confirmed deny that goes no way: nothing is done at all. */
  lemma HiddenUntouched(comm: string, trust: real)
    ensures var b := View(Enforce, true, NoWay, Ledger(map[], [], map[]));
            var u := Subject(PID, comm, Medium, Suspicious);
            var world := World(false, Some(true), true, KillOutcome(true, false));
            ConfirmedInVain(b, u, world) && PID !in Live(Told(map[], b, u, world, trust, ""), {PID}) &&
            Replay(Settled(b, u, world).after.trace) == Books({}, multiset{}, multiset{})
  {
    ReplayGrows([], Deny(PID, NoWay, Enforce, false, Medium, true));
  }

  /** A PID that is reused: nothing takes the mark back, so the new process is hidden from its first event
      on, even in observe mode, where nothing is ever done. */
  lemma ReusedPidIsHidden(r: ProcessRecord, ppid: nat, comm: string, ev: Telemetry, trust: real, world: World)
    requires r.isKilled
    ensures var b := View(Observe, false, NoWay, Ledger(map[], [], map[]));
            var u := Subject(PID, comm, Low, Unknown);
            var procs := Told(map[PID := Touched(r, ppid, comm, ev)], b, u, world, trust, "");
            PID !in Live(procs, {PID}) && Settled(b, u, world).after == b.ledger && !ConfirmedInVain(b, u, world)
  {
  }

  // ---- paused ----

  /** The record says paused exactly when the engine lists the process as stopped. */
  ghost predicate PausedAgrees(procs: Records, paused: map<nat, string>, pid: nat) {
    pid in procs && (procs[pid].isPaused <==> pid in paused)
  }

  /** After a decision the two agree exactly when the decision found the process stopped or stopped it, or,
      where it did not try, when they agreed before, or, where it failed to, when the record was clean. */
  lemma PausedAgreesIff(procs: Records, b: View, u: Subject, world: World, trust: real, techniqueID: string)
    requires u.pid in procs && u.status != Paused
    ensures PausedAgrees(Told(procs, b, u, world, trust, techniqueID), Settled(b, u, world).after.paused, u.pid) <==>
            if b.mode == Pause && u.tier != Low then
              u.pid in b.ledger.paused || world.stopOk || !procs[u.pid].isPaused
            else PausedAgrees(procs, b.ledger.paused, u.pid)
  {
  }

  /** An operator's stop or continue that reaches the process leaves the record as it is: they agree after
      a stop exactly when the record said paused already, and after a continue exactly when it did not. */
  lemma OperatorAgreesIff(procs: Records, l: Ledger, pid: nat, comm: string, automated: bool, mode: Mode, trusted: bool)
    requires pid in procs
    ensures PausedAgrees(procs, Advance(l, Stop(pid, true, automated, mode, trusted), comm).paused, pid) <==> procs[pid].isPaused
    ensures PausedAgrees(procs, Advance(l, Cont(pid, true), comm).paused, pid) <==> !procs[pid].isPaused
  {
  }

  /** No event and no decision takes the mark back, so a process once paused is a threat ever after. */
  lemma PausedForEver(r: ProcessRecord, ppid: nat, comm: string, ev: Telemetry, v: Verdict, techniqueID: string)
    requires r.isPaused
    ensures Touched(r, ppid, comm, ev).isPaused && Touched(r, ppid, comm, ev).IsGraphThreat()
    ensures AfterDecision(r, v, techniqueID).isPaused && AfterDecision(r, v, techniqueID).IsGraphThreat()
  {
  }

  /** Pause, resume, and a Low decision of full trust: the engine lists nobody, the record is a threat. */
  lemma ResumedIsStillThreat(comm: string)
    ensures var world := World(true, None, true, KillOutcome(false, false));
            var b := View(Pause, false, NoWay, Ledger(map[], [], map[]));
            var stopped := Settled(b, Subject(PID, comm, Medium, Suspicious), world);
            var procs := Told(map[], b, Subject(PID, comm, Medium, Suspicious), world, 30.0, "");
            var resumed := b.(ledger := Advance(stopped.after, Cont(PID, true), ""));
            var calm := Settled(resumed, Subject(PID, comm, Low, Unknown), world);
            var procs' := Told(procs, resumed, Subject(PID, comm, Low, Unknown), world, 75.5, "");
            && PID in stopped.after.paused && calm.after.paused == map[]
            && procs'[PID].trustScore == 75.5 && procs'[PID].status == Unknown && procs'[PID].IsGraphThreat()
  {
  }
}
