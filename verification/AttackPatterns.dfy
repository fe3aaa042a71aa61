/** The four attack patterns, what triggers them, and the index that keeps them per process and
    globally at once. */
module AttackPatterns {
  import opened Decimal
  import opened EdgeLists
  import opened Ordering

  datatype PatternType = StagingScript | C2Beacon | CredentialProbe | Persistence

  datatype AttackPattern = AttackPattern(
    id: string, pid: nat, comm: string, ppid: nat, parentComm: string, techniqueID: string, patternType: PatternType)

  datatype Telemetry = Telemetry(typeStr: string, payload: string, dstIP: string, dstPort: nat)

  predicate HasPrefix(s: string, t: string) { t <= s }

  predicate HasSuffix(s: string, t: string) { |t| <= |s| && s[|s| - |t|..] == t }

  predicate Contains(s: string, t: string) { exists i | 0 <= i <= |s| - |t| :: t <= s[i..] }

  function TechniqueOf(t: PatternType): string {
    match t
    case StagingScript => "T1105 / T1059"
    case C2Beacon => "T1071 / T1095"
    case CredentialProbe => "T1003 / T1083"
    case Persistence => "T1053.003"
  }

  function IdPrefix(t: PatternType): string {
    match t
    case StagingScript => "pat-staging-"
    case C2Beacon => "pat-c2-"
    case CredentialProbe => "pat-cred-"
    case Persistence => "pat-persist-"
  }

  function PatternId(t: PatternType, pid: nat): string {
    IdPrefix(t) + Digits(pid)
  }

  predicate StagesScript(ev: Telemetry) {
    && ev.typeStr == "openat" && (HasPrefix(ev.payload, "/tmp/") || HasPrefix(ev.payload, "/var/tmp/"))
    && (HasSuffix(ev.payload, ".sh") || Contains(ev.payload, "installer") || Contains(ev.payload, "backdoor") ||
        Contains(ev.payload, "payload"))
  }

  predicate CallsHome(comm: string, ev: Telemetry) {
    && ev.typeStr == "connect" && ev.dstIP != "" && ev.dstIP != "127.0.0.1" && !HasPrefix(ev.dstIP, "::1")
    && (ev.dstPort in {4444, 1337, 8888, 9999} || Contains(comm, "backdoor") || Contains(comm, "c2"))
  }

  predicate ProbesCredentials(comm: string, ev: Telemetry) {
    && ev.typeStr == "openat"
    && (ev.payload == "/etc/shadow" || ev.payload == "/etc/passwd" || Contains(ev.payload, ".ssh") ||
        Contains(ev.payload, ".aws"))
    && comm !in {"login", "sudo", "passwd", "sshd"}
  }

  predicate Persists(comm: string, ev: Telemetry) {
    && ev.typeStr == "openat" && (Contains(ev.payload, "cron") || Contains(ev.payload, "systemd/system"))
    && comm !in {"crond", "cron", "systemd"}
  }

  predicate Triggers(t: PatternType, comm: string, ev: Telemetry) {
    match t
    case StagingScript => StagesScript(ev)
    case C2Beacon => CallsHome(comm, ev)
    case CredentialProbe => ProbesCredentials(comm, ev)
    case Persistence => Persists(comm, ev)
  }

  // ---- pattern IDs ----

  lemma PrefixDecides(t: PatternType, x: string, u: PatternType, y: string)
    requires t != u
    ensures IdPrefix(t) + x != IdPrefix(u) + y
  {
    var l, r := IdPrefix(t) + x, IdPrefix(u) + y;
    assert l[4] == IdPrefix(t)[4] && r[4] == IdPrefix(u)[4];
    assert l[5] == IdPrefix(t)[5] && r[5] == IdPrefix(u)[5];
  }

  lemma PatternIdInjective(t: PatternType, p: nat, u: PatternType, q: nat)
    requires PatternId(t, p) == PatternId(u, q)
    ensures t == u && p == q
  {
    if t != u {
      PrefixDecides(t, Digits(p), u, Digits(q));
    } else {
      assert PatternId(t, p)[|IdPrefix(t)|..] == Digits(p) && PatternId(u, q)[|IdPrefix(u)|..] == Digits(q);
      DigitsInjective(p, q);
    }
  }

  // ---- one list per process, and one of all ----

  ghost predicate HasType(list: seq<AttackPattern>, t: PatternType) {
    exists i :: 0 <= i < |list| && list[i].patternType == t
  }

  /** A process's own list: each type at most once, each pattern bearing its type's technique and ID. */
  ghost predicate OwnList(list: seq<AttackPattern>, pid: nat) {
    && (forall i :: 0 <= i < |list| ==>
          list[i].pid == pid && list[i].techniqueID == TechniqueOf(list[i].patternType) &&
          list[i].id == PatternId(list[i].patternType, pid))
    && (forall i, j :: 0 <= i < j < |list| ==> list[i].patternType != list[j].patternType)
  }

  /** The patterns of one process, in order. */
  ghost function OfPid(all: seq<AttackPattern>, pid: nat): seq<AttackPattern> {
    if all == [] then []
    else OfPid(all[..|all| - 1], pid) + if all[|all| - 1].pid == pid then [all[|all| - 1]] else []
  }

  ghost function NotOfPid(all: seq<AttackPattern>, pid: nat): seq<AttackPattern> {
    if all == [] then []
    else NotOfPid(all[..|all| - 1], pid) + if all[|all| - 1].pid != pid then [all[|all| - 1]] else []
  }

  /** The global list filtered by PID is that process's own list. */
  ghost predicate Indexed(all: seq<AttackPattern>, own: map<nat, seq<AttackPattern>>) {
    forall pid :: OfPid(all, pid) == Listed(own, pid) && OwnList(Listed(own, pid), pid)
  }

  lemma OwnListGrows(list: seq<AttackPattern>, pat: AttackPattern)
    requires OwnList(list, pat.pid) && !HasType(list, pat.patternType)
    requires pat.techniqueID == TechniqueOf(pat.patternType) && pat.id == PatternId(pat.patternType, pat.pid)
    ensures OwnList(list + [pat], pat.pid)
  {
    var grown := list + [pat];
    forall i | 0 <= i < |list|
      ensures grown[i].patternType != pat.patternType
    {
      assert grown[i] == list[i];
    }
  }

  lemma AddPatternIndexed(all: seq<AttackPattern>, own: map<nat, seq<AttackPattern>>, pat: AttackPattern)
    requires Indexed(all, own) && pat.pid in own && !HasType(own[pat.pid], pat.patternType)
    requires pat.techniqueID == TechniqueOf(pat.patternType) && pat.id == PatternId(pat.patternType, pat.pid)
    ensures Indexed(all + [pat], own[pat.pid := own[pat.pid] + [pat]])
  {
    var own' := own[pat.pid := own[pat.pid] + [pat]];
    forall pid
      ensures OfPid(all + [pat], pid) == Listed(own', pid) && OwnList(Listed(own', pid), pid)
    {
      OfPidAppend(all, pat, pid);
      assert OfPid(all, pid) == Listed(own, pid) && OwnList(Listed(own, pid), pid);
      if pid == pat.pid {
        OwnListGrows(own[pid], pat);
      }
    }
  }

  lemma OwnListOf(all: seq<AttackPattern>, own: map<nat, seq<AttackPattern>>, pid: nat)
    requires Indexed(all, own) && pid in own
    ensures OwnList(own[pid], pid) && OfPid(all, pid) == own[pid]
  {
    assert OfPid(all, pid) == Listed(own, pid) && OwnList(Listed(own, pid), pid);
  }

  lemma NewProcessIndexed(all: seq<AttackPattern>, own: map<nat, seq<AttackPattern>>, pid: nat)
    requires Indexed(all, own) && pid !in own
    ensures Indexed(all, own[pid := []])
  {
    forall q
      ensures OfPid(all, q) == Listed(own[pid := []], q) && OwnList(Listed(own[pid := []], q), q)
    {
      assert OfPid(all, q) == Listed(own, q) && OwnList(Listed(own, q), q);
    }
  }

  // ---- what an event is expected to leave, said without the checks ----

  function TypesIn(list: seq<AttackPattern>): set<PatternType> {
    set i | 0 <= i < |list| :: list[i].patternType
  }

  ghost predicate Holds(s: string, part: string) {
    exists front: string, back: string :: s == front + part + back
  }

  ghost predicate Begins(s: string, part: string) {
    |part| <= |s| && s[..|part|] == part
  }

  ghost predicate Ends(s: string, part: string) {
    exists front: string :: s == front + part
  }

  /** An open of a script or tool in a temporary directory. */
  ghost predicate OpensStaged(ev: Telemetry) {
    && ev.typeStr == "openat" && (Begins(ev.payload, "/tmp/") || Begins(ev.payload, "/var/tmp/"))
    && (Ends(ev.payload, ".sh") || Holds(ev.payload, "installer") || Holds(ev.payload, "backdoor") || Holds(ev.payload, "payload"))
  }

  /** A connect to another machine, at a port or by a program known for it. */
  ghost predicate ConnectsOut(comm: string, ev: Telemetry) {
    && ev.typeStr == "connect" && !(ev.dstIP == "" || ev.dstIP == "127.0.0.1" || Begins(ev.dstIP, "::1"))
    && (ev.dstPort == 4444 || ev.dstPort == 1337 || ev.dstPort == 8888 || ev.dstPort == 9999 || Holds(comm, "backdoor") ||
        Holds(comm, "c2"))
  }

  /** An open of credentials by a program that has no business with them. */
  ghost predicate OpensCredentials(comm: string, ev: Telemetry) {
    && ev.typeStr == "openat"
    && (ev.payload == "/etc/shadow" || ev.payload == "/etc/passwd" || Holds(ev.payload, ".ssh") || Holds(ev.payload, ".aws"))
    && !(comm == "login" || comm == "sudo" || comm == "passwd" || comm == "sshd")
  }

  /** An open of a schedule or a unit by a program other than their keepers. */
  ghost predicate OpensSchedule(comm: string, ev: Telemetry) {
    && ev.typeStr == "openat" && (Holds(ev.payload, "cron") || Holds(ev.payload, "systemd/system"))
    && !(comm == "crond" || comm == "cron" || comm == "systemd")
  }

  /** The types a process has after an event: those it had, and one more for each thing the event did. */
  ghost predicate Expected(comm: string, ev: Telemetry, had: set<PatternType>, has: set<PatternType>) {
    && (StagingScript in has <==> StagingScript in had || OpensStaged(ev))
    && (C2Beacon in has <==> C2Beacon in had || ConnectsOut(comm, ev))
    && (CredentialProbe in has <==> CredentialProbe in had || OpensCredentials(comm, ev))
    && (Persistence in has <==> Persistence in had || OpensSchedule(comm, ev))
  }

  /** A pattern bears the technique and the ID that go with its type. */
  ghost predicate Named(pat: AttackPattern) {
    && (pat.patternType == StagingScript ==> pat.techniqueID == "T1105 / T1059" && pat.id == "pat-staging-" + Digits(pat.pid))
    && (pat.patternType == C2Beacon ==> pat.techniqueID == "T1071 / T1095" && pat.id == "pat-c2-" + Digits(pat.pid))
    && (pat.patternType == CredentialProbe ==> pat.techniqueID == "T1003 / T1083" && pat.id == "pat-cred-" + Digits(pat.pid))
    && (pat.patternType == Persistence ==> pat.techniqueID == "T1053.003" && pat.id == "pat-persist-" + Digits(pat.pid))
  }

  lemma ContainsIff(s: string, part: string)
    ensures Contains(s, part) <==> Holds(s, part)
  {
    if i :| 0 <= i <= |s| - |part| && part <= s[i..] {
      assert s == s[..i] + part + s[i + |part|..];
    }
    if front: string, back: string :| s == front + part + back {
      assert s[|front|..] == part + back;
    }
  }

  lemma SuffixIff(s: string, part: string)
    ensures HasSuffix(s, part) <==> Ends(s, part)
  {
    if HasSuffix(s, part) {
      assert s == s[..|s| - |part|] + part;
    }
    if front: string :| s == front + part {
      assert s[|s| - |part|..] == part;
    }
  }

  lemma StagesIff(ev: Telemetry)
    ensures StagesScript(ev) <==> OpensStaged(ev)
  {
    SuffixIff(ev.payload, ".sh");
    ContainsIff(ev.payload, "installer");
    ContainsIff(ev.payload, "backdoor");
    ContainsIff(ev.payload, "payload");
  }

  lemma CallsIff(comm: string, ev: Telemetry)
    ensures CallsHome(comm, ev) <==> ConnectsOut(comm, ev)
  {
    ContainsIff(comm, "backdoor");
    ContainsIff(comm, "c2");
  }

  lemma ProbesIff(comm: string, ev: Telemetry)
    ensures ProbesCredentials(comm, ev) <==> OpensCredentials(comm, ev)
  {
    ContainsIff(ev.payload, ".ssh");
    ContainsIff(ev.payload, ".aws");
  }

  lemma PersistsIff(comm: string, ev: Telemetry)
    ensures Persists(comm, ev) <==> OpensSchedule(comm, ev)
  {
    ContainsIff(ev.payload, "cron");
    ContainsIff(ev.payload, "systemd/system");
  }

  lemma TriggeredIsExpected(comm: string, ev: Telemetry, had: set<PatternType>, has: set<PatternType>)
    requires forall t :: t in has <==> t in had || Triggers(t, comm, ev)
    ensures Expected(comm, ev, had, has)
  {
    StagesIff(ev);
    CallsIff(comm, ev);
    ProbesIff(comm, ev);
    PersistsIff(comm, ev);
  }

  lemma OwnListNamed(list: seq<AttackPattern>, pid: nat)
    requires OwnList(list, pid)
    ensures forall i :: 0 <= i < |list| ==> list[i].pid == pid && Named(list[i])
  {
  }

  lemma TypesInIff(list: seq<AttackPattern>, t: PatternType)
    ensures t in TypesIn(list) <==> HasType(list, t)
  {
  }

  /** What it comes to: a connect adds nothing but a beacon, and a loopback connect nothing; an open never
      adds a beacon, and nothing outside the temporary directories is staged; anything else adds nothing. */
  lemma ExpectedOf(comm: string, ev: Telemetry, had: set<PatternType>, has: set<PatternType>)
    requires Expected(comm, ev, had, has)
    ensures had <= has
    ensures ev.typeStr == "connect" ==> has - had <= {C2Beacon}
    ensures ev.typeStr == "connect" && (ev.dstIP == "" || ev.dstIP == "127.0.0.1" || Begins(ev.dstIP, "::1")) ==> has == had
    ensures ev.typeStr == "openat" ==> C2Beacon !in has - had
    ensures !Begins(ev.payload, "/tmp/") && !Begins(ev.payload, "/var/tmp/") ==> StagingScript !in has - had
    ensures ev.typeStr != "openat" && ev.typeStr != "connect" ==> has == had
  {
    forall t
      ensures t in had ==> t in has
      ensures ev.typeStr == "connect" && t in has && t != C2Beacon ==> t in had
      ensures ev.typeStr != "openat" && ev.typeStr != "connect" && t in has ==> t in had
    {
      assert t == StagingScript || t == C2Beacon || t == CredentialProbe || t == Persistence;
    }
  }

  /** And what it comes to for paths and ports one knows: the password file, a script under /tmp, a
      crontab, a beacon at one of four ports. */
  lemma ExpectedFor(comm: string, x: string, had: set<PatternType>, has: set<PatternType>, ev: Telemetry)
    requires Expected(comm, ev, had, has)
    ensures ev.typeStr == "connect" && ev.dstPort in {4444, 1337, 8888, 9999} ==>
              C2Beacon in has || ev.dstIP in {"", "127.0.0.1"} || Begins(ev.dstIP, "::1")
    ensures ev.typeStr == "openat" && ev.payload == "/etc/shadow" ==>
              (CredentialProbe in has <==> CredentialProbe in had || comm !in {"login", "sudo", "passwd", "sshd"})
    ensures ev.typeStr == "openat" && ev.payload == "/tmp/" + x + ".sh" ==> StagingScript in has
    ensures ev.typeStr == "openat" && ev.payload == "/var/spool/" + "cron" + x ==>
              (Persistence in has <==> Persistence in had || comm !in {"crond", "cron", "systemd"})
  {
    assert ("/tmp/" + x + ".sh")[..5] == "/tmp/";
    assert Holds("/var/spool/" + "cron" + x, "cron");
  }

  // ---- what the index gives ----

  /** Where position i of the global list lands in the list of its process. */
  lemma {:induction false} PlaceInOwn(all: seq<AttackPattern>, i: nat) returns (k: nat)
    requires i < |all|
    ensures k == |OfPid(all[..i], all[i].pid)| < |OfPid(all, all[i].pid)|
    ensures OfPid(all, all[i].pid)[k] == all[i]
    decreases |all|
  {
    var n := |all| - 1;
    if i == n {
      k := |OfPid(all[..n], all[i].pid)|;
    } else {
      k := PlaceInOwn(all[..n], i);
      assert all[..n][..i] == all[..i];
    }
  }

  lemma {:induction false} PlacesGrow(all: seq<AttackPattern>, i: nat, j: nat, pid: nat)
    requires i <= j <= |all|
    ensures |OfPid(all[..i], pid)| <= |OfPid(all[..j], pid)|
    ensures i < j && all[i].pid == pid ==> |OfPid(all[..i], pid)| < |OfPid(all[..j], pid)|
    decreases j
  {
    if i < j {
      assert all[..j][..j - 1] == all[..j - 1];
      PlacesGrow(all, i, j - 1, pid);
    }
  }

  /** No process is listed twice with one pattern type, and no pattern ID occurs twice. */
  lemma PatternsDistinct(all: seq<AttackPattern>, own: map<nat, seq<AttackPattern>>, i: nat, j: nat)
    requires Indexed(all, own) && i < j < |all|
    ensures !(all[i].pid == all[j].pid && all[i].patternType == all[j].patternType)
    ensures all[i].id != all[j].id
  {
    var p, q := all[i].pid, all[j].pid;
    var k := PlaceInOwn(all, i);
    var l := PlaceInOwn(all, j);
    assert OfPid(all, p) == Listed(own, p) && OfPid(all, q) == Listed(own, q);
    PlacesGrow(all, i, j, p);
    if all[i].id == all[j].id {
      PatternIdInjective(all[i].patternType, p, all[j].patternType, q);
    }
  }

  lemma OfPidAppend(all: seq<AttackPattern>, pat: AttackPattern, pid: nat)
    ensures OfPid(all + [pat], pid) == OfPid(all, pid) + if pat.pid == pid then [pat] else []
  {
    assert (all + [pat])[..|all|] == all;
  }

  lemma {:induction false} SplitLengths(all: seq<AttackPattern>, pid: nat)
    ensures |all| == |OfPid(all, pid)| + |NotOfPid(all, pid)|
    ensures forall x :: x in NotOfPid(all, pid) ==> x in all && x.pid != pid
  {
    if all != [] {
      SplitLengths(all[..|all| - 1], pid);
    }
  }

  lemma {:induction false} SplitKeepsOthers(all: seq<AttackPattern>, pid: nat, q: nat)
    ensures OfPid(NotOfPid(all, pid), q) == if q == pid then [] else OfPid(all, q)
  {
    if all != [] {
      var n := |all| - 1;
      SplitKeepsOthers(all[..n], pid, q);
      if all[n].pid != pid {
        OfPidAppend(NotOfPid(all[..n], pid), all[n], q);
      } else {
        assert NotOfPid(all, pid) == NotOfPid(all[..n], pid);
      }
    }
  }

  lemma FourTypes(types: seq<PatternType>)
    requires NoDuplicates(types)
    ensures |types| <= 4
  {
    var used := set t | t in types;
    EnumerationLength(types, used);
    var every := {StagingScript, C2Beacon, CredentialProbe, Persistence};
    assert |every| == 4;
    forall t | t in used
      ensures t in every
    {
      assert t.StagingScript? || t.C2Beacon? || t.CredentialProbe? || t.Persistence?;
    }
    assert every == used + (every - used);
  }

  lemma AtMostFour(list: seq<AttackPattern>, pid: nat)
    requires OwnList(list, pid)
    ensures |list| <= 4
  {
    FourTypes(seq(|list|, i requires 0 <= i < |list| => list[i].patternType));
  }

  lemma {:induction false} FourPerProcess(all: seq<AttackPattern>, pids: set<nat>)
    requires forall pid :: OwnList(OfPid(all, pid), pid)
    requires forall x :: x in all ==> x.pid in pids
    ensures |all| <= 4 * |pids|
    decreases pids
  {
    if pids == {} {
      if all != [] {
        FirstIsMember(all);
      }
    } else {
      var pid :| pid in pids;
      var rest := NotOfPid(all, pid);
      forall q
        ensures OwnList(OfPid(rest, q), q)
      {
        SplitKeepsOthers(all, pid, q);
        assert OwnList(OfPid(all, q), q);
      }
      SplitLengths(all, pid);
      FourPerProcess(rest, pids - {pid});
      AtMostFour(OfPid(all, pid), pid);
    }
  }

  /** The global list holds at most four patterns per tracked process. */
  lemma GlobalListBounded(all: seq<AttackPattern>, own: map<nat, seq<AttackPattern>>)
    requires Indexed(all, own)
    ensures |all| <= 4 * |own|
  {
    forall x | x in all
      ensures x.pid in own.Keys
    {
      var i :| 0 <= i < |all| && all[i] == x;
      var k := PlaceInOwn(all, i);
      assert OfPid(all, x.pid) == Listed(own, x.pid);
    }
    forall pid
      ensures OwnList(OfPid(all, pid), pid)
    {
      assert OfPid(all, pid) == Listed(own, pid);
    }
    FourPerProcess(all, own.Keys);
  }
}
