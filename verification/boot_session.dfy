/**
 Repeated calls within one run of the program. The global state persists
 between calls, so the counter keeps counting across boot attempts and the
 thermal check may be called any number of times.
 */
module BootSession {
  import opened BootState
  import opened BiosBoot

  /** The status one boot attempt ends in, given the power answer and the
      CPU reading: the status part of the sequence's contract, gathered into
      one function so that a series of calls can be described with it. */
  function ExpectedStatus(powerStable: bool, cpuTemp: int): BootStatus
  {
    if !powerStable then BootFailed
    else if cpuTemp > TempNormalMax then BootTempCritical
    else BootOk
  }

  /** The sequence ends in exactly the status the reference gives. */
  lemma SequenceMatchesExpected(s: SystemState, powerStable: bool)
    ensures BiosBootSequence(s, powerStable).status == ExpectedStatus(powerStable, s.cpuTemp)
  {
  }

  /** The statuses of a series of calls and the state after the last one. */
  datatype Session = Session(statuses: seq<BootStatus>, state: SystemState)

  /** Calls the boot sequence once per entry of `powers`, each call seeing the
      state the previous one left; entry i is the power answer of call i. */
  function RunBoots(s: SystemState, powers: seq<bool>): (r: Session)
    ensures |r.statuses| == |powers|
    ensures r.state.bootCount == (s.bootCount + |powers|) % 256
    ensures r.state.cpuTemp == s.cpuTemp && r.state.boardTemp == s.boardTemp
    ensures r.state.highTempMode == s.highTempMode
    ensures forall i :: 0 <= i < |powers| ==>
              r.statuses[i] == ExpectedStatus(powers[i], s.cpuTemp)
    decreases |powers|
  {
    if |powers| == 0 then Session([], s)
    else
      var first := BiosBootSequence(s, powers[0]);
      var rest := RunBoots(first.state, powers[1..]);
      assert forall i :: 1 <= i < |powers| ==> powers[1..][i - 1] == powers[i];
      Session([first.status] + rest.statuses, rest.state)
  }

  /** The counter is `uint8_t`: after 256 attempts it is back where it
      started, and so is the whole state. */
  lemma CounterWrapsAfter256(s: SystemState, powers: seq<bool>)
    requires |powers| == 256
    ensures RunBoots(s, powers).state == s
  {
  }

  /** Calls the thermal check `n` times, each on the state the previous one
      left, collecting the statuses. Since one check leaves the state as it
      was, every call sees the same state and gives the same status. */
  function RepeatThermal(s: SystemState, n: nat): (r: Session)
    ensures |r.statuses| == n
    ensures r.state == s
    ensures forall i :: 0 <= i < n ==> r.statuses[i] == CheckThermalConditions(s).status
    decreases n
  {
    if n == 0 then Session([], s)
    else
      var first := CheckThermalConditions(s);
      var rest := RepeatThermal(first.state, n - 1);
      Session([first.status] + rest.statuses, rest.state)
  }

  /** The thermal status is decided by the CPU reading alone: the board
      reading, the counter and the high-temperature flag play no part, and
      the warning status never comes out. */
  lemma ThermalDependsOnlyOnCpu(s: SystemState, t: SystemState)
    requires s.cpuTemp == t.cpuTemp
    ensures CheckThermalConditions(s).status == CheckThermalConditions(t).status
    ensures CheckThermalConditions(s).status != BootTempWarning
  {
  }

  /** The threshold is inclusive: 85 degrees still boots, 86 does not. */
  lemma ThermalBoundary(s: SystemState)
    ensures CheckThermalConditions(s.(cpuTemp := 85)).status == BootOk
    ensures CheckThermalConditions(s.(cpuTemp := 86)).status == BootTempCritical
  {
  }

  /** `n` consecutive calls of the shipped boot sequence: the counter
      advances by `n` modulo 256 and nothing else in the state changes. */
  function RunShipped(s: SystemState, n: nat): (r: Session)
    ensures |r.statuses| == n
    ensures r.state == s.(bootCount := (s.bootCount + n) % 256)
    decreases n
  {
    if n == 0 then Session([], s)
    else
      var first := ShippedBootSequence(s);
      var rest := RunShipped(first.state, n - 1);
      Session([first.status] + rest.statuses, rest.state)
  }

  /** The shipped sequence behaves as the parameterised one with the power
      check answering "stable" on every call. */
  lemma {:induction false} ShippedIsAlwaysStable(s: SystemState, n: nat)
    ensures RunShipped(s, n) == RunBoots(s, seq(n, _ => true))
    decreases n
  {
    if n > 0 {
      var first := ShippedBootSequence(s);
      assert seq(n, _ => true)[1..] == seq(n - 1, _ => true);
      ShippedIsAlwaysStable(first.state, n - 1);
    }
  }

  /** With the hard-wired power check, no series of attempts ever reports a power
      failure. */
  lemma {:induction false} ShippedBootsNeverFail(s: SystemState, n: nat)
    ensures forall i :: 0 <= i < n ==> RunShipped(s, n).statuses[i] != BootFailed
    ensures RunShipped(s, n).state.bootCount == (s.bootCount + n) % 256
    decreases n
  {
    if n > 0 {
      var first := ShippedBootSequence(s);
      ShippedBootsNeverFail(first.state, n - 1);
      var rest := RunShipped(first.state, n - 1);
      assert RunShipped(s, n).statuses == [first.status] + rest.statuses;
    }
  }
}
