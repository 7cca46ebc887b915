# BIOS boot decision logic, in Dafny

This project models the boot decision logic of an industrial mainboard's BIOS
(`bios_boot.c`) and proves what that logic decides. The source holds one
global record, `SystemState`. It has a CPU and a board temperature (both
`uint16_t`), a `uint8_t` boot attempt counter and an unused high-temperature
flag. Three operations use it:

- the thermal check, `check_thermal_conditions`: re-reads both temperatures
  into the record, then refuses boot when the CPU reading is above 85 °C;
- the power check, `check_power_stability`: as written (bios_boot.c:99) it
  is hard-wired to "stable";
- the boot sequence, `bios_boot_sequence`: counts the attempt, then runs the
  power check, the thermal check, hardware initialisation and completion,
  returning a distinct status code at each failing gate.

The model is functional. The global record becomes an immutable
`SystemState` datatype. Each operation takes the state and returns its status
together with the state after it. Fixed-width fields are subset types:
`U16` and `U8`. The counter increment wraps from 255 to 0, as `boot_count++`
does on a `uint8_t`.

The power check's answer is a parameter of `BiosBootSequence`, since a real
supply sensor would decide it (bios_boot.c:98). `ShippedBootSequence` plugs
in the hard-wired `CheckPowerStability`, which always answers "stable".

The sequence also returns the steps it entered (power check, thermal check,
hardware initialisation, completion). These correspond to the "Step N" log
lines, and they make "the thermal check is never performed after a power
failure" something the model can state. The log text itself is not modelled.

Files:

- `boot_state.dfy` (module `BootState`): the integer types, the
  threshold, `SystemState`, the boot statuses and their `uint8_t` codes,
  and the wrapping counter increment.
- `bios_boot.dfy` (module `BiosBoot`): the sensor reads, the thermal check,
  the power check, the boot sequence and the test driver's two scenarios.
- `boot_session.dfy` (module `BootSession`): repeated calls within one run,
  where the global state carries over from one call to the next. It also
  gathers the status part of the sequence's contract into one function
  (`ExpectedStatus`), used to describe the statuses of a series of calls.

The comment block at bios_boot.c:57-68 and the TODOs at bios_boot.c:83-85
ask for three changes that the code does not yet make: detecting a
high-temperature mode, adjusting the temperature threshold to the
environment, and reflecting the strengthened v2.1 power supply (with closer
monitoring). A retry bound exists only as the unused `BOOT_RETRY_MAX`
(bios_boot.c:18). The code has one fixed threshold and no retries, and this
model follows the code.

## Model

| member | source | states |
|---|---|---|
| BootState.Code | bios_boot.c:20-24 | each status is returned as its own `uint8_t` code, below 4 |
| BootState.Decode | bios_boot.c:20-24 | a code names a status exactly when it is below 4 |
| BootState.CodeRoundTrip | bios_boot.c:20-24 | decoding the code of any status gives that status back |
| BootState.DecodeRoundTrip | bios_boot.c:20-24 | any code that names a status is the code of that status |
| BootState.CodeInjective | bios_boot.c:20-24 | two statuses have the same code only if they are the same status, so every gate's code is distinct |
| BootState.IncrementU8 | bios_boot.c:30 | `uint8_t` increment: one more below 255, and 255 wraps to 0 (the value is `(x + 1) mod 256`) |
| BiosBoot.ReadCpuTemperature | bios_boot.c:37-40 | the simulated CPU read returns the stored reading: storing it back into the state changes nothing |
| BiosBoot.ReadBoardTemperature | bios_boot.c:42-44 | the simulated board read returns the stored reading: storing it back into the state changes nothing |
| BiosBoot.ReadBackIsIdentity | bios_boot.c:37-44 | storing the two sensor reads back into the state leaves the state unchanged |
| BiosBoot.CheckThermalConditions | bios_boot.c:69-88 | result is critical exactly when the CPU reading is above 85, and OK exactly when it is 85 or below; the state is left unchanged |
| BiosBoot.CheckPowerStability | bios_boot.c:94-108 | the hard-wired power check always reports a stable supply |
| BiosBoot.BiosBootSequence | bios_boot.c:113-147 | the counter goes up by one modulo 256 and nothing else in the state changes; the result is FAILED exactly when power is unstable, TEMP_CRITICAL exactly when power is stable and the CPU is above 85, and OK exactly when power is stable and the CPU is at most 85; WARNING never comes out; the steps entered form a prefix of power → thermal → hardware init → complete; the thermal check is entered exactly when power is stable; hardware init and completion are reached exactly when the result is OK |
| BiosBoot.ShippedBootSequence | bios_boot.c:99-126 | with the hard-wired power check the sequence never returns FAILED, and it returns TEMP_CRITICAL exactly when the CPU is above 85 |
| BiosBoot.DriverScenarios | bios_boot.c:150-165 | from the zero state, CPU 75 boots OK with counter 1; then CPU 95 with the counter reset to 0 ends in TEMP_CRITICAL with counter 1 |
| BootSession.SequenceMatchesExpected | bios_boot.c:122-146 | the status of one attempt equals `ExpectedStatus` (power first, then the CPU threshold) |
| BootSession.RunBoots | bios_boot.c:113-114 | after k consecutive attempts the counter has advanced by k modulo 256; the temperatures and the flag are unchanged; attempt i ends in the reference status for its power answer |
| BootSession.CounterWrapsAfter256 | bios_boot.c:114 | 256 consecutive attempts return the whole state, counter included, to where it started |
| BootSession.RepeatThermal | bios_boot.c:69-71 | any number of consecutive thermal checks leaves the state unchanged and gives the same status each time |
| BootSession.ThermalDependsOnlyOnCpu | bios_boot.c:69-88 | two states with the same CPU reading get the same thermal status, whatever their board reading, counter or flag; WARNING is never returned |
| BootSession.ThermalBoundary | bios_boot.c:78-87 | 85 °C still passes the thermal check and 86 °C does not |
| BootSession.RunShipped | bios_boot.c:113-114 | n consecutive shipped attempts advance the counter by n modulo 256 and leave the rest of the state unchanged |
| BootSession.ShippedIsAlwaysStable | bios_boot.c:94-108 | k calls of the shipped sequence are the same as k calls of the parameterised sequence with every power answer "stable" |
| BootSession.ShippedBootsNeverFail | bios_boot.c:99-126 | no attempt in a series of shipped attempts returns FAILED, and the counter advances by the number of attempts modulo 256 |

## Left out

- Console output (`printf`, `log_boot`, `log_error`): it has no effect on any decision. The step trace keeps only which steps were entered.
- Hardware initialisation (bios_boot.c:137-140): it consists of log lines only. The model records it as a step and nothing more.
- `main` as a program: its two scenarios are stated as `DriverScenarios`. Its return value is not modelled.
- `TEMP_HIGH_MAX`, `TEMP_CRITICAL` and `BOOT_RETRY_MAX` are declared but never used, so they are not modelled. The same goes for the high-temperature mode: the `highTempMode` field exists only to show that nothing touches it.
- High-temperature mode detection, environment-dependent thresholds and a retry policy: the code does not implement them.
- Real sensor acquisition: temperatures are the stored fields, as in the simulated reads. The real power sensor is left out, and its answer becomes the `powerStable` parameter.
