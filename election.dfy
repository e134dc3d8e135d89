/**
 * The roster and the election state machine: the package globals isMaster,
 * masterAddress and electionInProgress of master/main.go, updated by
 * startElection, promoteToMaster and one tick of checkMasterHealth.
 *
 * The value-level functions below specify each step; the class Roster holds
 * the three globals and its methods are proved to follow those functions.
 * The outcome of the liveness probe is an oracle (a Probe value).
 */
module Election {

  /** The address a promoted node records for itself. */
  const PrimaryAddress: string := "http://localhost:8001"
  /** The suffix of masterAddress that lets an election promote this node. */
  const PrimarySuffix: string := "8001"

  datatype RosterState = RosterState(isMaster: bool, masterAddress: string, electionInProgress: bool)

  /** The globals as the process starts. */
  const InitialState: RosterState := RosterState(true, PrimaryAddress, false)

  /** The outcome of one GET of masterAddress + "/ping": a client error, or any status code. */
  datatype Probe = ProbeError | ProbeReply(status: int)

  predicate HasSuffix(s: string, suffix: string) {
    |suffix| <= |s| && s[|s| - |suffix|..] == suffix
  }

  /** If this node is the writer, masterAddress names this node. */
  predicate Consistent(s: RosterState) {
    s.isMaster ==> s.masterAddress == PrimaryAddress
  }

  /** promoteToMaster. */
  function Promoted(s: RosterState): RosterState {
    s.(isMaster := true, masterAddress := PrimaryAddress)
  }

  /** startElection: a no-op while an election is in progress; otherwise raise the flag and promote on a suffix match. */
  function AfterElection(s: RosterState): RosterState {
    if s.electionInProgress then s
    else
      var raised := s.(electionInProgress := true);
      if HasSuffix(raised.masterAddress, PrimarySuffix) then Promoted(raised) else raised
  }

  /** Whether a tick runs the body of startElection past its guard. */
  predicate ElectionStarts(s: RosterState, p: Probe) {
    !s.isMaster && p.ProbeError? && !s.electionInProgress
  }

  /** One tick of checkMasterHealth. */
  function AfterTick(s: RosterState, p: Probe): RosterState {
    if !s.isMaster && p.ProbeError? then AfterElection(s) else s
  }

  /** The state after a run of ticks with the given probe outcomes. */
  function AfterTicks(s: RosterState, probes: seq<Probe>): RosterState
    decreases probes
  {
    if probes == [] then s else AfterTicks(AfterTick(s, probes[0]), probes[1..])
  }

  /** How many times a run of ticks gets past the guard of startElection. */
  function ElectionsRun(s: RosterState, probes: seq<Probe>): nat
    decreases probes
  {
    if probes == [] then 0
    else (if ElectionStarts(s, probes[0]) then 1 else 0) + ElectionsRun(AfterTick(s, probes[0]), probes[1..])
  }

  class Roster {
    var isMaster: bool
    var masterAddress: string
    var electionInProgress: bool

    function State(): RosterState
      reads this
    {
      RosterState(isMaster, masterAddress, electionInProgress)
    }

    constructor ()
      ensures State() == InitialState
    {
      isMaster := true;
      masterAddress := PrimaryAddress;
      electionInProgress := false;
    }

    method PromoteToMaster()
      modifies this
      ensures isMaster && masterAddress == PrimaryAddress
      ensures electionInProgress == old(electionInProgress)
      ensures State() == Promoted(old(State()))
    {
      isMaster := true;
      masterAddress := PrimaryAddress;
    }

    method StartElection()
      modifies this
      ensures old(electionInProgress) ==> unchanged(this)
      ensures electionInProgress
      ensures State() == AfterElection(old(State()))
    {
      if electionInProgress {
        return;
      }
      electionInProgress := true;
      if HasSuffix(masterAddress, PrimarySuffix) {
        PromoteToMaster();
      }
    }

    /** One tick: probe the writer unless this node is the writer, and start an election on a probe error. */
    method CheckMasterHealthTick(probe: Probe)
      modifies this
      ensures old(isMaster) || probe.ProbeReply? ==> unchanged(this)
      ensures State() == AfterTick(old(State()), probe)
    {
      if !isMaster {
        if probe.ProbeError? {
          StartElection();
        }
      }
    }

    /** The ticker loop of checkMasterHealth, over a finite run of probe outcomes. */
    method CheckMasterHealth(probes: seq<Probe>)
      modifies this
      ensures State() == AfterTicks(old(State()), probes)
    {
      var i := 0;
      while i < |probes|
        invariant 0 <= i <= |probes|
        invariant AfterTicks(State(), probes[i..]) == AfterTicks(old(State()), probes)
      {
        assert probes[i..][1..] == probes[i + 1..];
        CheckMasterHealthTick(probes[i]);
        i := i + 1;
      }
      assert probes[i..] == [];
    }
  }

  /** Promotion leaves masterAddress ending in "8001" again, so promoting twice equals promoting once. */
  lemma PromotionIdempotent(s: RosterState)
    ensures Promoted(Promoted(s)) == Promoted(s)
    ensures HasSuffix(Promoted(s).masterAddress, PrimarySuffix)
    ensures Consistent(Promoted(s))
  {
    assert PrimaryAddress[|PrimaryAddress| - 4..] == "8001";
  }

  /** The guard of startElection and what it does once past it. */
  lemma ElectionGuard(s: RosterState)
    ensures s.electionInProgress ==> AfterElection(s) == s
    ensures AfterElection(s).electionInProgress
    ensures AfterElection(s).isMaster <==>
      s.isMaster || (!s.electionInProgress && HasSuffix(s.masterAddress, PrimarySuffix))
    ensures AfterElection(s).masterAddress == s.masterAddress || AfterElection(s).masterAddress == PrimaryAddress
  {
  }

  /** A tick on the writer, or after a probe that got any reply, changes nothing; only a probe error can. */
  lemma TickFrame(s: RosterState, p: Probe)
    ensures s.isMaster ==> AfterTick(s, p) == s
    ensures p.ProbeReply? ==> AfterTick(s, p) == s
    ensures !s.isMaster && p.ProbeError? ==> AfterTick(s, p) == AfterElection(s)
  {
  }

  /** Every step keeps the writer flag and the writer address consistent. */
  lemma {:induction false} TicksPreserveConsistency(s: RosterState, probes: seq<Probe>)
    requires Consistent(s)
    ensures Consistent(AfterTicks(s, probes))
    decreases probes
  {
    if probes != [] {
      PromotionIdempotent(s.(electionInProgress := true));
      TicksPreserveConsistency(AfterTick(s, probes[0]), probes[1..]);
    }
  }

  /** Nothing ever lowers electionInProgress. */
  lemma {:induction false} ElectionFlagNeverCleared(s: RosterState, probes: seq<Probe>)
    requires s.electionInProgress
    ensures AfterTicks(s, probes) == s
    decreases probes
  {
    if probes != [] {
      ElectionFlagNeverCleared(AfterTick(s, probes[0]), probes[1..]);
    }
  }

  /** At most one election body runs per process lifetime, and none once the flag is up. */
  lemma {:induction false} AtMostOneElection(s: RosterState, probes: seq<Probe>)
    ensures ElectionsRun(s, probes) <= if s.electionInProgress then 0 else 1
    decreases probes
  {
    if probes != [] {
      AtMostOneElection(AfterTick(s, probes[0]), probes[1..]);
    }
  }

  /** A writer never probes, so nothing changes and no election runs. */
  lemma {:induction false} WriterIsStable(s: RosterState, probes: seq<Probe>)
    requires s.isMaster
    ensures AfterTicks(s, probes) == s && ElectionsRun(s, probes) == 0
    decreases probes
  {
    if probes != [] {
      WriterIsStable(s, probes[1..]);
    }
  }

  /** The process starts as writer, so its health monitor never changes the roster. */
  lemma {:induction false} StartedWriterNeverElects(probes: seq<Probe>)
    ensures AfterTicks(InitialState, probes) == InitialState
    ensures ElectionsRun(InitialState, probes) == 0
  {
    WriterIsStable(InitialState, probes);
  }

  /** A non-writer whose masterAddress does not end in "8001" is never promoted, whatever the probes say. */
  lemma {:induction false} NoPromotionWithoutSuffix(s: RosterState, probes: seq<Probe>)
    requires !s.isMaster && !HasSuffix(s.masterAddress, PrimarySuffix)
    ensures !AfterTicks(s, probes).isMaster
    ensures AfterTicks(s, probes).masterAddress == s.masterAddress
    decreases probes
  {
    if probes != [] {
      NoPromotionWithoutSuffix(AfterTick(s, probes[0]), probes[1..]);
    }
  }

  /** A replica whose masterAddress is the primary address takes over on the first failed probe. */
  lemma FailedProbePromotesPrimary()
    ensures AfterTick(RosterState(false, PrimaryAddress, false), ProbeError) == RosterState(true, PrimaryAddress, true)
  {
    PromotionIdempotent(RosterState(false, PrimaryAddress, true));
  }

  /** A replica that follows another address raises the flag, stays a replica, and never runs another election. */
  lemma FailedProbeElsewhereDefers(probes: seq<Probe>)
    ensures var s := AfterTick(RosterState(false, "http://192.168.1.4:8002", false), ProbeError);
      s == RosterState(false, "http://192.168.1.4:8002", true) &&
      AfterTicks(s, probes) == s && ElectionsRun(s, probes) == 0
  {
    var a := "http://192.168.1.4:8002";
    assert a[|a| - 4..] == "8002";
    var s := RosterState(false, a, true);
    ElectionFlagNeverCleared(s, probes);
    AtMostOneElection(s, probes);
  }
}
