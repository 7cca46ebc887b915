/**
 The boot decision logic: the simulated sensor reads, the thermal check, the
 power check and the ordered boot sequence. The global state is threaded
 explicitly: every operation takes the state and returns the state after it.
 */
module BiosBoot {
  import opened BootState

  /** The steps of the boot sequence, in the order they are entered. */
  datatype Step = PowerCheck | ThermalCheck | HardwareInit | BootComplete

  /** Every step, in order: a run enters a prefix of this sequence. */
  const AllSteps: seq<Step> := [PowerCheck, ThermalCheck, HardwareInit, BootComplete]

  /** The status of one check together with the state it leaves behind. */
  datatype Checked = Checked(status: BootStatus, state: SystemState)

  /** One run of the boot sequence: its status, the state after it, and the
      steps it entered. */
  datatype BootRun = BootRun(status: BootStatus, state: SystemState, steps: seq<Step>)

  /** Simulated CPU sensor: the stored reading, so storing it back changes
      nothing. */
  function ReadCpuTemperature(s: SystemState): (t: U16)
    ensures s.(cpuTemp := t) == s
  {
    s.cpuTemp
  }

  /** Simulated board sensor: the stored reading, so storing it back changes
      nothing. */
  function ReadBoardTemperature(s: SystemState): (t: U16)
    ensures s.(boardTemp := t) == s
  {
    s.boardTemp
  }

  /** Reading both sensors and storing the readings back leaves the state
      as it was. */
  lemma ReadBackIsIdentity(s: SystemState)
    ensures s.(cpuTemp := ReadCpuTemperature(s), boardTemp := ReadBoardTemperature(s)) == s
  {
  }

  /** The thermal check: refreshes both readings, then rejects a CPU
      temperature above the normal maximum. */
  function CheckThermalConditions(s: SystemState): (r: Checked)
    ensures r.status == BootTempCritical <==> s.cpuTemp > TempNormalMax
    ensures r.status == BootOk <==> s.cpuTemp <= TempNormalMax
    ensures r.state == s
  {
    var s' := s.(cpuTemp := ReadCpuTemperature(s), boardTemp := ReadBoardTemperature(s));
    if s'.cpuTemp > TempNormalMax then Checked(BootTempCritical, s')
    else Checked(BootOk, s')
  }

  /** The power check as written: hard-wired to a stable supply. */
  function CheckPowerStability(): (stable: bool)
    ensures stable
  {
    var powerOk := true;
    if powerOk then true else false
  }

  /** The boot sequence with the power check's answer as a parameter:
      count the attempt, then power check, thermal check, hardware
      initialisation and completion, each failing gate returning early. */
  function BiosBootSequence(s: SystemState, powerStable: bool): (r: BootRun)
    ensures r.state == s.(bootCount := IncrementU8(s.bootCount))
    ensures r.state.bootCount == (s.bootCount + 1) % 256
    ensures r.status == BootFailed <==> !powerStable
    ensures r.status == BootTempCritical <==> powerStable && s.cpuTemp > TempNormalMax
    ensures r.status == BootOk <==> powerStable && s.cpuTemp <= TempNormalMax
    ensures r.status != BootTempWarning
    ensures 1 <= |r.steps| <= |AllSteps| && r.steps == AllSteps[..|r.steps|]
    ensures ThermalCheck in r.steps <==> powerStable
    ensures HardwareInit in r.steps <==> r.status == BootOk
    ensures BootComplete in r.steps <==> r.status == BootOk
  {
    var counted := s.(bootCount := IncrementU8(s.bootCount));
    if !powerStable then
      BootRun(BootFailed, counted, [PowerCheck])
    else
      var thermal := CheckThermalConditions(counted);
      if thermal.status == BootTempCritical then
        BootRun(BootTempCritical, thermal.state, [PowerCheck, ThermalCheck])
      else
        BootRun(BootOk, thermal.state, AllSteps)
  }

  /** The boot sequence as shipped, with the hard-wired power check plugged in:
      it never fails on power, and only the CPU temperature decides. */
  function ShippedBootSequence(s: SystemState): (r: BootRun)
    ensures r.status != BootFailed
    ensures r.status == BootTempCritical <==> s.cpuTemp > TempNormalMax
    ensures r.status == BootOk <==> s.cpuTemp <= TempNormalMax
    ensures r.state == s.(bootCount := IncrementU8(s.bootCount))
  {
    BiosBootSequence(s, CheckPowerStability())
  }

  /** The two scenarios of the test driver, run from the zero state: a CPU at
      75 degrees boots, then a CPU at 95 degrees with the counter reset to 0
      is refused as the first attempt. */
  function DriverScenarios(): (r: (BootRun, BootRun))
    ensures r.0.status == BootOk && r.0.state.bootCount == 1
    ensures r.1.status == BootTempCritical && r.1.state.bootCount == 1
    ensures r.1.state.cpuTemp == 95 && r.1.state.boardTemp == 90
  {
    var first := ShippedBootSequence(InitialState.(cpuTemp := 75, boardTemp := 70));
    var second := ShippedBootSequence(first.state.(cpuTemp := 95, boardTemp := 90, bootCount := 0));
    (first, second)
  }
}
