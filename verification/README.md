# Verified models of the MT6572 platform code

This project states and proves what five pieces of hand-written C and C++ in this repository do. Each model keeps the
source's form: registers, buffers, tag lists and globals are fields and arrays that methods update in place, loops are
loops, and every method is proved against a specification whose own properties are then proved as lemmas. No claim
depends on a bound on the input. `dafny verify dfyconfig.toml` checks everything with Dafny 4.11.

## What is modelled

**FM tuner (qndriver.c, qndriver.h).** `TunerChip` is the chip: 256 registers, of which the driver's settings, the mute
bits and the scan range stay put between accesses, the channel moves only while a scan is on (CHSC), and the rest may
hold anything at any time. `TunerFields` packs and unpacks channel, scan and mute fields; `Tuner` holds modes, tuning
and the noise floor with its cache over all refreshes ever made (`NoiseBands` holds the band arithmetic); `Seeker` holds
the two seeks. The chip keeps a log, `heard`, of every report register read, every scan the driver sets out for and
every poll for the end of one: the value, and the channel, the scan range and the threshold it then had. A seek is
described by its *trials*, each with the reports it was judged by; `Trials` says what those must be, and that together
they are exactly what was added to the log. `SeekWalk` and `SeekLogs` say which frequencies one seek tries and when it
ends, in 16-bit arithmetic; `BandSweep` says what the full-band seek makes of many of them, round by round, and
`SilentSweep` when it ends at all if nothing is accepted. `SweepRuns` builds sweeps that can happen, from reports of the
chip; `BandIdeal` says when the list is the plain "first fifty accepted points of the band", and `BandWrap` what happens
where it is not even a list of points in the band. A refresh of the noise floor is described by its measurements in the
same way, and `Tuner.FloorIsOfItsBand` says that each channel is scanned for just the floor it is judged by; between
refreshes the radio remembers which measurement each floor goes back to. `TunerNumbers` says in numbers what the bits,
fields, counts and verdicts are that methods and specifications share. What is silent is counted: the ghost field
`loud` goes up with every write to a channel register while the mute bits are not both set, and no seek moves it.

**Two-wire bus (qn8006_driver.c).** `I2cBus` is the two wires with a history of what each change of level meant;
`I2cSlave` is a reference slave after sections 3.1.3 to 3.1.6 of the NXP I2C-bus specification UM10204, except for the
chip's own read, which has no repeated START. `I2cMaster` and `I2cTransfer` are the bit-banged driver with its retries,
`I2cRegisters` the register array the tuner relies on. What the slave acknowledges is an arbitrary function.

**HCI UART relay (bt_relayer.cpp, bt_em.c).** `H4` is the packet format (Bluetooth Core Specification, Volume 4, Part A,
section 2, and Part E, section 5.4) and the parser as a function on sequences; `PcReader`, `TxMonitor`, `ChipReader` and
`RxMonitor` are the code, against ports whose behaviour (short reads, interruptions, timeouts, failures, partial writes)
is an arbitrary script; `RelayThreads` is the two threads, RELAYER_start and RELAYER_exit as interleaved steps.

**Boot tags (mt_devs.c).** `MemoryBanks` clips the memory banks and places the frame buffer in 32-bit arithmetic;
`TagList` deletes the command line tag from the tag bytes by the overlapping copy; `CommandLine` filters the command
line in place.

**Serial number (get_serial in mt_devs.c).** `SerialNumber` has the generator and the exact account of what it loses.

## Where the code does not keep a promise

Each of these is a theorem or part of a contract; the code is modelled as it is.

- A full-band seek is sure to end exactly when it goes up or its end is at least one step above 0, and is sure to end with
  the list that was asked for exactly when, besides, no station can be heard where it would spoil the list: at 0, where an
  upward sweep begins, or on the way down to the band from above it (`BandIdeal.AlwaysIdealIff`). If stations can be heard
  anywhere, that is when it goes down to an end at least one step above 0, or goes up and starts above 0 and within the
  country's band (`BandIdeal.AlwaysIdealIffProper`). A downward sweep with a lower end comes in again at the top of the 16
  bits and may list fifty frequencies there (`BandWrap.WrapsAreNotIdeal`).
- The end of a full-band seek is the lower of its stop and the end of the band, also when it goes down: with a stop above
  the band it runs on below that stop (`BandIdeal.NeverBelowStopIff`).
- If nothing is accepted, a full-band seek makes trial after trial for ever exactly when it is one that is not sure to end
  (`SilentSweep.NeverEndsIff`); a single seek ends exactly under `SeekWalk.Halts` (`SeekWalk.HaltsExactly`).
- The comment over QND_RXSeekCH promises -1 for "no channel found"; the code returns 0, which cannot be told from a
  station at 0. Both seeks overwrite the parameter `up` that the comment documents.
- The last trial of a seek may be given up after 200 polls with the chip still scanning. Only then may the chip leave the
  channel it is tuned to afterwards; the contracts say so with `Settled`.
- A very first seek on a transmitting chip leaves it transmitting, so it stays muted; otherwise the seek leaves it receiving.
- RELAYER_start clears fExit after creating the threads. From there on both outputs stay clean on every run exactly if
  no thread has failed without having ended yet (`RelayThreads.StartStaysCleanIff`); `RelayThreads.StartRaceGarbles` is
  a run in which one has.
- RELAYER_exit leaves fExit set. If RELAYER_start is called again, the threads may end at their first check, before it
  clears the flag: the relay is sure to come up exactly if fExit was not set before (`RelayThreads.ComesUpIff`), and may
  be dead for good otherwise (`RelayThreads.RestartMayBeDead`).
- Bank clipping stays under the limit exactly if the gap below the kernel fits at the bank that is cut
  (`MemoryBanks.KeptWithinLimit`), and conserves memory exactly if the last bank holds the reservation
  (`MemoryBanks.CarvingConserves`).
- cmdline_filter skips blanks without looking at the end of the tag. It stays inside memory exactly if the tag ends
  in at most the one blank that ends a word, or something that is not blank lies behind it (`CommandLine.ScanStaysInIff`,
  with `SkipStops` for the condition, the only precondition of the filter); `CommandLine.TwoBlanksOverrun` is a tag for
  which it does not.
- AI2C_Read_Nbyte ends with a STOP unless it is asked for no byte of a register whose top bit is clear: then the slave
  holds the line low and the frame stays open (`I2cTransfer.ReadBytes`).
- Channel registers hold ten bits: `TunerFields.ChannelRoundTrip` gives the frequencies that survive. QNF_ConfigScan
  clears the channel's top two bits.
- Two hardware keys may share a serial number (`SerialNumber.SerialsCollide` says which).

## Model

| member | source | states |
|---|---|---|
| Seeker.Seeks.RxSeekAll | sw/mediatek/platform/mt6572/kernel/drivers/qn8006/qndriver.c:887-925 | A full-band seek ends; its trials and its station list are those of whole rounds of the loop, each a seek from where the one before left off (`BandSweep.Whole`), and are what `BandSweep.Outcome` says. The log grew by the refresh of the noise floor, all six bands in order if it was due, and then by exactly the reports the trials were judged by, each trial by the floor kept for its band, which goes back to a measurement of that band, and, unless the one before it was given up, by a reading on its own channel. The callbacks are the accepted frequencies in order; nothing audible is written; afterwards the chip is unmuted, transmits only if a transmitter made its very first seek, and is on the first station or the clamped stop. The points tried are 50, 100 or 200 kHz apart for step 0, 1 and 2 (`BandSweep.TriesBy`). The precondition is the exact one of `BandSweep.MissIsLast` |
| BandIdeal.AlwaysIdealIff | sw/mediatek/platform/mt6572/kernel/drivers/qn8006/qndriver.c:887-919 | For any noise floors and threshold, over all sweeps the driver can make, each trial judged by the chip's reports: the sweep always ends, and with the list "first fifty accepted points down or up to the end, in scan order", iff it goes up or its end is at least one step above 0, and no station can be heard at the points where one spoils the list, which are 0 at the start of an upward sweep and the points on the way down to the band from above it. It always ends iff the first half of that holds |
| BandIdeal.AlwaysIdealIffProper | sw/mediatek/platform/mt6572/kernel/drivers/qn8006/qndriver.c:887-919 | Where a station can be heard at any point: every sweep that ends has that list iff it goes down to an end at least one step above 0, or goes up and begins above 0 and at or below the end of the band: an exact guard on the arguments |
| BandWrap.WrapsAreNotIdeal | sw/mediatek/platform/mt6572/kernel/drivers/qn8006/qndriver.c:904-919 | Where a station can be heard at any point, no downward sweep that ends less than one step above 0 always has that list when it ends: it comes in again at the top of the 16 bits and may list fifty frequencies there |
| SweepRuns.EndsOnlyIfItCan | sw/mediatek/platform/mt6572/kernel/drivers/qn8006/qndriver.c:904-919 | Nor is such a sweep sure to end, whatever the noise floor: a seek of it may never return, or there is no limit to their number |
| BandIdeal.NeverBelowStopIff | sw/mediatek/platform/mt6572/kernel/drivers/qn8006/qndriver.c:894-919 | A downward sweep lists nothing below the stop it was given iff no station can be heard on the points between that stop and a lower end of the band |
| BandSweep.RoundsHold | sw/mediatek/platform/mt6572/kernel/drivers/qn8006/qndriver.c:904-919 | Any number of rounds of the loop of a sweep that can end, each from where the one before left off, is at most one more than there were points ahead, and its trials and list are as `Between` and `Outcome` say |
| BandSweep.ProperSweepIsIdeal | sw/mediatek/platform/mt6572/kernel/drivers/qn8006/qndriver.c:903-919 | Under that guard the list is the plain specification (lattice, filter, take 50), strictly monotone, and equal to the stations reported |
| BandIdeal.StationAtZero | sw/mediatek/platform/mt6572/kernel/drivers/qn8006/qndriver.c:907-914 | Counterexample, with the chip's reports: an upward sweep from 0 loses a station at 0 and with it the rest of the band |
| BandIdeal.StationAbove | sw/mediatek/platform/mt6572/kernel/drivers/qn8006/qndriver.c:763 | Counterexample, with the chip's reports, for every point on the way down: an upward sweep from above the end of the band seeks downwards and lists a station nobody asked for |
| BandSweep.Round | sw/mediatek/platform/mt6572/kernel/drivers/qn8006/qndriver.c:904-919 | One turn of the outer loop, in all cases (upward, downward, from 0, from above the band, past 16 bits): either the sweep goes on with strictly less before it, or its outcome is final |
| BandSweep.MissIsLast | sw/mediatek/platform/mt6572/kernel/drivers/qn8006/qndriver.c:911-919 | A seek that found nothing is the last one iff the sweep goes up or its end is at least one step above 0 |
| BandSweep.RoundsWalk | sw/mediatek/platform/mt6572/kernel/drivers/qn8006/qndriver.c:904-919 | Through all rounds of a sweep that can end, each point tried is the step size away from the one before it in 16 bits, the first is the start, and the sweep goes on one step from the last |
| BandSweep.TriesOfSweep | sw/mediatek/platform/mt6572/kernel/drivers/qn8006/qndriver.c:27 | The step size in a whole sweep, in numbers: 50, 100 or 200 kHz for step 0, 1 and 2 between any two neighbouring trials; and unless the sweep begins above its end, trial i is at the start plus or minus i times that |
| TunerNumbers.LatticePoints | sw/mediatek/platform/mt6572/kernel/drivers/qn8006/qndriver.c:903-919 | What the lattice of a band is: there is a k-th point iff start plus or minus k steps is not past the end, and it is that frequency |
| SilentSweep.NeverEndsIff | sw/mediatek/platform/mt6572/kernel/drivers/qn8006/qndriver.c:903-919 | A sweep of which nothing is accepted makes trial after trial for ever iff it goes down and its end is less than one step above 0, whether or not its first seek returns |
| SilentSweep.MissedSeeksGoOn | sw/mediatek/platform/mt6572/kernel/drivers/qn8006/qndriver.c:904-919 | However many seeks have found nothing, such a sweep begins another; the trials of those seeks are the ones counted |
| SilentSweep.FirstSeekReturnsIff | sw/mediatek/platform/mt6572/kernel/drivers/qn8006/qndriver.c:763-843 | Such a sweep stays in its first seek for ever iff the walk of that seek never passes the end |
| BandSweep.MissesGoOnIff | sw/mediatek/platform/mt6572/kernel/drivers/qn8006/qndriver.c:904-919 | After any number of seeks that found nothing the test of the outer loop holds, with an empty list, iff the sweep goes down and its end is less than one step above 0 |
| SeekLogs.SweepFindsChosen | sw/mediatek/platform/mt6572/kernel/drivers/qn8006/qndriver.c:904-919 | Any run of trials of consecutive points, stopped by a full list or by the end, has as its hits the first accepted points of the lattice |
| SeekLogs.HitsOrdered | sw/mediatek/platform/mt6572/kernel/drivers/qn8006/qndriver.c:904-919 | The stations of a sweep are strictly monotone in the direction of the scan |
| Seeker.Seeks.NextStation | sw/mediatek/platform/mt6572/kernel/drivers/qn8006/qndriver.c:906-919 | One turn of the outer loop keeps the state of the sweep, with fewer points ahead, and adds its trials' reports to the log |
| Seeker.Seeks.Sweep | sw/mediatek/platform/mt6572/kernel/drivers/qn8006/qndriver.c:903-919 | The whole outer loop: final outcome and callbacks, every trial judged by the reports it added to the log and nothing else added, silence |
| Seeker.Seeks.Advance | sw/mediatek/platform/mt6572/kernel/drivers/qn8006/qndriver.c:907-919 | A station is appended to the list, a miss is not; the next seek begins one step on from the station or from the stop, and happens iff that is within the band and the list has room |
| Seeker.Seeks.RxSeekCh | sw/mediatek/platform/mt6572/kernel/drivers/qn8006/qndriver.c:745-853 | A single seek walks from start in steps of 50, 100 or 200 kHz for step 0, 1 and 2 in 16 bits, rejecting one point after another, and returns the first accepted one or 0; it reports a station once. The log grew by the trials' reports and nothing else; called on its own, by the refresh of the noise floor before them, and then it ends tuned to the station or the stop, unmuted unless it transmits; nothing audible is written |
| SeekLogs.SeekFindsFirst | sw/mediatek/platform/mt6572/kernel/drivers/qn8006/qndriver.c:763-843 | With room for one step past the stop, the result is the head of "filter the lattice", or nothing if that is empty |
| SeekWalk.HaltsExactly | sw/mediatek/platform/mt6572/kernel/drivers/qn8006/qndriver.c:828-836 | A seek in which nothing is accepted ends iff some 16-bit frequency past the stop agrees with the start modulo the common power of two of step and range: an exact guard, covering the wrap-around |
| SeekWalk.HaltingPoint | sw/mediatek/platform/mt6572/kernel/drivers/qn8006/qndriver.c:828-836 | Where such a seek ends |
| SeekLogs.SeekSteps | sw/mediatek/platform/mt6572/kernel/drivers/qn8006/qndriver.c:828-836 | Neighbouring trials of a seek differ by the step in 16 bits, in the direction of the seek, and the first is the start |
| Seeker.Seeks.Seek | sw/mediatek/platform/mt6572/kernel/drivers/qn8006/qndriver.c:763-843 | The inner loop, proved to end under that guard: the trials, judged by exactly the reports added to the log |
| Seeker.Seeks.Turn | sw/mediatek/platform/mt6572/kernel/drivers/qn8006/qndriver.c:767-841 | One turn: a trial with the reports it is judged by, then the next point, the end, or the callback |
| Seeker.Seeks.Try | sw/mediatek/platform/mt6572/kernel/drivers/qn8006/qndriver.c:767-826 | One trial: the verdict is exactly `Accepts` of what the chip reported in it, and the driver asked for no more and no less than `Trials.Answered`: the signal on this channel; if it is strong, a scan of that one frequency with the floor-based threshold is requested and polled; then count, pilot and signal to noise ratio of that scan as far as they are needed. Image rejection fits the frequency; muted throughout |
| Seeker.Seeks.PollScan | sw/mediatek/platform/mt6572/kernel/drivers/qn8006/qndriver.c:786-793 | The poll reads SYSTEM1 at most 200 times, all but the last with CHSC set and all with the scan range as it was set; it counts as done only if CHSC is clear by the 199th |
| Seeker.Seeks.BeginScan | sw/mediatek/platform/mt6572/kernel/drivers/qn8006/qndriver.c:783-785 | The scan registers hold the one frequency and the step, CCA the threshold cut to 8 bits, and the scan is requested by SYSTEM1 |
| Seeker.Seeks.Count | sw/mediatek/platform/mt6572/kernel/drivers/qn8006/qndriver.c:796-799 | The intermediate frequency count is put together from reports of CCA5 and CCA4, in that order |
| Seeker.Seeks.Judge | sw/mediatek/platform/mt6572/kernel/drivers/qn8006/qndriver.c:794-825 | Which report registers are asked for, and that the flag is cleared iff the trial is acceptable |
| TunerNumbers.VerdictOfReports | sw/mediatek/platform/mt6572/kernel/drivers/qn8006/qndriver.c:780-825 | The verdict on a trial from the raw register values: accepted iff register 0x1C is more than 6 above floor and threshold, fewer than 200 polls were needed, 256 times the low five bits of 0x37 plus 0x36 is strictly between 1828 and 2268, and 0x1C is more than 20 above, or bit 0 of 0x1A is clear, or 0x22 is strictly between 5 and 55 |
| TunerNumbers.CountInNumbers | sw/mediatek/platform/mt6572/kernel/drivers/qn8006/qndriver.c:796-799 | The intermediate frequency count is 256 times the low five bits of CCA5 plus CCA4 |
| TunerNumbers.ThresholdInNumbers | sw/mediatek/platform/mt6572/kernel/drivers/qn8006/qndriver.c:784 | The threshold told to the chip is floor less 22 plus the threshold asked for, modulo 256 |
| Seeker.Seeks.JudgeWeak | sw/mediatek/platform/mt6572/kernel/drivers/qn8006/qndriver.c:808-822 | A signal that is not very strong passes iff it has a pilot or a signal to noise ratio between 6 and 54, each asked for only when needed |
| Seeker.Seeks.Prepare | sw/mediatek/platform/mt6572/kernel/drivers/qn8006/qndriver.c:757-762 | Before a seek the chip is muted, its filter bits are all set and the noise floor of all six bands is refreshed or found to hold |
| Tuner.Radio.UpdateNoiseFloor | sw/mediatek/platform/mt6572/kernel/drivers/qn8006/qndriver.c:625-656 | Unless it is the first, one reading is taken on the cached clear channel; a full refresh is left out iff that reading is within 3 of the floor; otherwise all six bands are scanned and measured in order, and nothing else; the cache invariant holds again, and every floor is that of the last measurement of its band |
| TunerNumbers.RefreshedIff | sw/mediatek/platform/mt6572/kernel/drivers/qn8006/qndriver.c:630-655 | Nothing but the one reading is asked of the chip iff it is not the first time and the reading is at most 3 away from the floor |
| Tuner.Radio.UpdateBands | sw/mediatek/platform/mt6572/kernel/drivers/qn8006/qndriver.c:302-331 | A full refresh scans and measures the six bands in order and nothing else; one for a frequency only the band of that frequency; SYSTEM1 is restored |
| Tuner.Radio.MeasureAll | sw/mediatek/platform/mt6572/kernel/drivers/qn8006/qndriver.c:312-321 | Six measurements, the i-th of band i, and each kept as the floor of its band |
| Tuner.Radio.MeasureNext | sw/mediatek/platform/mt6572/kernel/drivers/qn8006/qndriver.c:314-320 | One band is measured and the cached minimum follows |
| Tuner.Radio.MeasureBand | sw/mediatek/platform/mt6572/kernel/drivers/qn8006/qndriver.c:314-315 | The chip was told the range and step of band i, a clear channel scan was requested and polled until it was over, and the signal was read on the channel the chip was then on, its range still that of the band |
| Tuner.FloorIsOfItsBand | sw/mediatek/platform/mt6572/kernel/drivers/qn8006/qndriver.c:312-320 | A full refresh scans each channel of the grid for exactly one of its measurements, and that one is kept as the floor by which the channel is judged |
| Tuner.CacheMeaning | sw/mediatek/platform/mt6572/kernel/drivers/qn8006/qndriver.c:316-320 | Over all full refreshes ever made the cached floor is the minimum of 255 and all measurements, and the clear channel is the first that attained it |
| Tuner.Radio.TxClearChannelScan | sw/mediatek/platform/mt6572/kernel/drivers/qn8006/qndriver.c:992-1009 | The chip was told the range and asked for a clear channel, and the frequency is the one its channel registers then hold |
| Tuner.Radio.GetRssi | sw/mediatek/platform/mt6572/kernel/drivers/qn8006/qndriver.c:369-380 | One reading, in receive mode, on the channel asked for |
| NoiseBands.InitBands | sw/mediatek/platform/mt6572/kernel/drivers/qn8006/qndriver.c:110-129 | The six band starts and one step past the stop, in 8- and 16-bit arithmetic |
| Tuner.Radio.InitRssinBands | sw/mediatek/platform/mt6572/kernel/drivers/qn8006/qndriver.c:110-129 | With a stop on the grid, the driver has its six bands in order and equally wide afterwards |
| NoiseBands.BandIndex | sw/mediatek/platform/mt6572/kernel/drivers/qn8006/qndriver.c:140-150 | The loop computes the band function and is below 6 for every input |
| NoiseBands.BandsAreLaid | sw/mediatek/platform/mt6572/kernel/drivers/qn8006/qndriver.c:110-129 | For a stop on the grid the bands are equally wide and lie in order |
| NoiseBands.BandIsUnique | sw/mediatek/platform/mt6572/kernel/drivers/qn8006/qndriver.c:140-150 | Every frequency from start to one step past stop lies in the band of its index and in no other |
| NoiseBands.SubScansTile | sw/mediatek/platform/mt6572/kernel/drivers/qn8006/qndriver.c:312-314 | The six sub-scans cover each channel of the grid exactly once |
| NoiseBands.NoSubScanEmpty | sw/mediatek/platform/mt6572/kernel/drivers/qn8006/qndriver.c:118-121 | No sub-scan is empty iff the 8-bit band width is not zero |
| TunerNumbers.WidthInNumbers | sw/mediatek/platform/mt6572/kernel/drivers/qn8006/qndriver.c:118-121 | A band is the largest whole number of steps of which six fit between start and stop, while that is below 256 |
| Tuner.Radio.TuneTo | sw/mediatek/platform/mt6572/kernel/drivers/qn8006/qndriver.c:551-580 | Tuning is silent; a receiver ends unmuted on the channel with soft mute, image rejection and filter set as coded, a transmitter only gets the channel |
| Tuner.Radio.SetWorkMode | sw/mediatek/platform/mt6572/kernel/drivers/qn8006/qndriver.c:498-537 | The mode bits become those asked for and the output analog; register 73 follows the mode; a changed mode leaves the chip muted |
| Tuner.Radio.EnterMode | sw/mediatek/platform/mt6572/kernel/drivers/qn8006/qndriver.c:526-531 | A changed mode leaves the chip muted |
| Tuner.Radio.RxInit | sw/mediatek/platform/mt6572/kernel/drivers/qn8006/qndriver.c:42-50 | Exactly the five settings change, in the masked bits |
| Tuner.Radio.SetImageRejection | sw/mediatek/platform/mt6572/kernel/drivers/qn8006/qndriver.c:566-573 | Image rejection is on iff the frequency is a multiple of 2.4 MHz from 77.1 MHz |
| Tuner.Radio.SetFilter | sw/mediatek/platform/mt6572/kernel/drivers/qn8006/qndriver.c:578 | The filter follows bit 5 of SYSTEM2 |
| TunerNumbers.FilterInNumbers | sw/mediatek/platform/mt6572/kernel/drivers/qn8006/qndriver.c:578 | The filter bits are 0 if bit 5 of SYSTEM2 is set and 0x28 if not |
| TunerNumbers.ImageInNumbers | sw/mediatek/platform/mt6572/kernel/drivers/qn8006/qndriver.c:566-573 | The image rejection bit is set iff the frequency is 7710 plus a multiple of 240 |
| TunerNumbers.SoftMuteInNumbers | sw/mediatek/platform/mt6572/kernel/drivers/qn8006/qndriver.c:47 | Soft mute starts at 8, the top two bits stay |
| TunerNumbers.NoiseControlInNumbers | sw/mediatek/platform/mt6572/kernel/drivers/qn8006/qndriver.c:49 | Stereo noise control starts at 40, the top bit stays |
| TunerNumbers.HighCutInNumbers | sw/mediatek/platform/mt6572/kernel/drivers/qn8006/qndriver.c:48 | High cut starts at 22, the top two bits stay |
| Tuner.Radio.SetCountry | sw/mediatek/platform/mt6572/kernel/drivers/qn8006/qndriver.c:596-614 | The band of each country; the third leaves it alone |
| TunerFields.SetCh | sw/mediatek/platform/mt6572/kernel/drivers/qn8006/qndriver.c:203-220 | The ten-bit channel is set and the three scan fields in the same register stay |
| TunerFields.GetCh | sw/mediatek/platform/mt6572/kernel/drivers/qn8006/qndriver.c:179-191 | The frequency of the channel registers |
| TunerFields.ConfigScan | sw/mediatek/platform/mt6572/kernel/drivers/qn8006/qndriver.c:241-261 | Start, stop and step decode back, and the channel loses its top two bits |
| TunerFields.ChannelRoundTrip | sw/mediatek/platform/mt6572/kernel/drivers/qn8006/qndriver.h:21-22 | Setting and reading back rounds down to the 50 kHz grid iff the frequency is from 7600 to 12719 |
| TunerFields.SetThenGet | sw/mediatek/platform/mt6572/kernel/drivers/qn8006/qndriver.c:179-220 | The two calls one after the other, for any frequency: it comes back rounded down to the grid iff it is from 7600 to 12719 |
| TunerFields.SetRegBit | sw/mediatek/platform/mt6572/kernel/drivers/qn8006/qndriver.c:90-98 | Only the masked bits of the one register change, whatever the chip does meanwhile |
| TunerFields.SetMute | sw/mediatek/platform/mt6572/kernel/drivers/qn8006/qndriver.c:62-76 | Both mute bits change, no other bit of their register, and no setting, scan field or channel |
| TunerNumbers.FieldsInNumbers | sw/mediatek/platform/mt6572/kernel/drivers/qn8006/qndriver.c:179-261 | Where the fields are: from its low end register 0x0B holds two bits each of channel, scan start and scan stop above registers 8, 9 and 10, and then the step |
| TunerNumbers.ChannelRegRounds | sw/mediatek/platform/mt6572/kernel/drivers/qn8006/qndriver.h:21 | The channel number is the distance from 7600 in units of 5 rounded towards 7600, as a 16-bit number, also below 7600 |
| Bytes.BitsAreDigits | sw/mediatek/platform/mt6572/kernel/drivers/qn8006/qn8006_driver.c:320-340 | Bit k on the wire is the k-th binary digit of the byte, most significant first |
| I2cRegisters.Perform | sw/mediatek/platform/mt6572/kernel/drivers/qn8006/qn8006_driver.c:546-564 | Any sequence of register reads and writes over the wires behaves as an array of 256 registers: each read returns the value last written, one frame per access |
| I2cRegisters.ArrayHoldsLastWritten | sw/mediatek/platform/mt6572/kernel/drivers/qn8006/qn8006_driver.c:546-564 | The array after a run holds the last written values |
| I2cRegisters.ReadReg | sw/mediatek/platform/mt6572/kernel/drivers/qn8006/qn8006_driver.c:546-551 | A read over the wires returns the register and changes none |
| I2cRegisters.WriteReg | sw/mediatek/platform/mt6572/kernel/drivers/qn8006/qn8006_driver.c:559-564 | A write over the wires changes that register alone |
| I2cTransfer.WriteBytes | sw/mediatek/platform/mt6572/kernel/drivers/qn8006/qn8006_driver.c:431-457 | From idle bus to idle bus for any acknowledge behaviour: STARTs and STOPs alternate, at most eleven address attempts, result 1 iff the last was acknowledged; the registers then hold exactly the data before the first byte that was not acknowledged, and nothing new if address or index were not |
| I2cTransfer.ReadBytes | sw/mediatek/platform/mt6572/kernel/drivers/qn8006/qn8006_driver.c:465-499 | The same for a read of any length, which delivers the registers if the index was acknowledged and all ones if not. The bus is at rest again, except iff no byte was read from a register with its top bit clear whose index was acknowledged: then there is no STOP |
| I2cTransfer.OutcomeIsSomeAnswer | sw/mediatek/platform/mt6572/kernel/drivers/qn8006/qn8006_driver.c:436-447 | The result is 1 iff one of the eleven slots is acknowledged |
| I2cTransfer.Hail | sw/mediatek/platform/mt6572/kernel/drivers/qn8006/qn8006_driver.c:436-447 | The address phase: a fresh frame for every retry, ending at the first acknowledge |
| I2cTransfer.PutBytes | sw/mediatek/platform/mt6572/kernel/drivers/qn8006/qn8006_driver.c:450-454 | The slave has taken each byte of the data in order |
| I2cTransfer.GetBytes | sw/mediatek/platform/mt6572/kernel/drivers/qn8006/qn8006_driver.c:490-496 | Each byte is the next register; only the last is not acknowledged by the master, so that the slave stops sending iff there is one |
| I2cMaster.WriteByte | sw/mediatek/platform/mt6572/kernel/drivers/qn8006/qn8006_driver.c:331-340 | Eight clocks carry the byte, most significant bit first, to the slave |
| I2cMaster.ReadByte | sw/mediatek/platform/mt6572/kernel/drivers/qn8006/qn8006_driver.c:342-357 | Eight clocks assemble the byte the slave sends |
| I2cMaster.CheckAck | sw/mediatek/platform/mt6572/kernel/drivers/qn8006/qn8006_driver.c:296-318 | The ninth clock: the poll sees the acknowledge of a slave that gives one, and gives the bus back |
| I2cMaster.Start | sw/mediatek/platform/mt6572/kernel/drivers/qn8006/qn8006_driver.c:252-268 | From the idle bus exactly one START |
| I2cMaster.Stop | sw/mediatek/platform/mt6572/kernel/drivers/qn8006/qn8006_driver.c:270-281 | Exactly one STOP and the idle bus again, unless the slave holds SDA low |
| I2cMaster.SendAck | sw/mediatek/platform/mt6572/kernel/drivers/qn8006/qn8006_driver.c:283-294 | The ninth clock of a byte read |
| I2cMaster.WriteBit | sw/mediatek/platform/mt6572/kernel/drivers/qn8006/qn8006_driver.c:320-329 | One clock with SDA stable while SCL is high |
| I2cSlave.StoresUpToRefusal | sw/mediatek/platform/mt6572/kernel/drivers/qn8006/qn8006_driver.c:450-454 | A slave that took the index stores the run of bytes before the first it does not acknowledge, and is out of the transfer after that |
| I2cSlave.IgnoresRun | sw/mediatek/platform/mt6572/kernel/drivers/qn8006/qn8006_driver.c:450-454 | A slave that is not addressed stores nothing |
| TxMonitor.PacketsArriveInOrder | sw/bt_test_jni/bt_relayer.cpp:449-484 | However the stream from the PC is cut up: the chip has received a prefix of its packets, all of them once the stream is in and no write failed, and strange octets between packets are skipped |
| TxMonitor.Monitor | sw/bt_test_jni/bt_relayer.cpp:449-484 | The thread passes on exactly the packets of the octets it has read, one call each. It checks fExit before every turn and ends at the first check that finds it raised; otherwise it ends only for a cause: no answer is left, the port gave up inside a packet, or the chip refused the next packet |
| TxMonitor.MonitorDelivers | sw/bt_test_jni/bt_relayer.cpp:449-484 | Liveness: if nobody tells the thread to stop, the chip takes what it is given and the port offers octets often enough, the chip receives every packet of the stream; short of that the thread only ends on a timeout or an error inside a packet |
| TxMonitor.Turn | sw/bt_test_jni/bt_relayer.cpp:455-481 | One turn: one packet, one skipped octet or nothing, using up an answer of the port; or the end, with its cause |
| TxMonitor.ChipInput.Write | sw/bt_test_jni/bt_em.c:163-201 | Only commands, ACL and SCO data reach the chip, whole; it succeeds iff the kind is one of them and the call does |
| PcReader.RelayerRead | sw/bt_test_jni/bt_relayer.cpp:266-381 | What was read is accounted for octet by octet: a whole packet, a skipped octet, a timeout before one, or an error, with its cause; the buffer is never overrun |
| PcReader.ReadData | sw/bt_test_jni/bt_relayer.cpp:192-240 | Short reads add up in order to exactly what the answers offer, up to what is asked for and what there is; it fails only on a timeout or an error, and waits only when no answer is left |
| H4.EncodedComesBack | sw/bt_test_jni/bt_relayer.cpp:290-380 | Round trip: the packets of any well-formed stream with junk between them come back in order |
| H4.RelayedComposes | sw/bt_test_jni/bt_relayer.cpp:290-380 | Reading in two parts cut between packets gives the same packets as reading at once |
| H4.PartOfStream | sw/bt_test_jni/bt_relayer.cpp:290-380 | Of a cut-off stream the packets read are a prefix of its packets |
| H4.TypeChecksAgree | sw/bt_test_jni/bt_em.c:176-179 | Whatever one reader accepts passes the type check of the other side's writer |
| H4.CommandIsPacket | sw/bt_test_jni/bt_relayer.cpp:290-319 | For all octets and up to 255 parameters: 01, the opcode, the number of parameters and the parameters are one packet from the PC, wherever the capacity allows |
| H4.AclIsPacket | sw/bt_test_jni/bt_relayer.cpp:320-348 | 02, the handle, the length as two octets with the lower first, and that many octets are one packet from either side |
| H4.ScoIsPacket | sw/bt_test_jni/bt_relayer.cpp:349-372 | 03, the handle, the length as one octet, and that many octets are one packet from either side |
| H4.EventIsPacket | sw/bt_test_jni/bt_em.c:228-345 | 04, the code, the number of parameters and the parameters are one packet from the chip; it is a debug event iff the code is 0xE0 |
| H4.PacketsHaveLayouts | sw/bt_test_jni/bt_relayer.cpp:290-372 | There are no other packets: every packet has one of the four layouts |
| RxMonitor.RelayIsFilter | sw/bt_test_jni/bt_relayer.cpp:486-522 | At any time the PC has received a prefix of the chip's packets without the debug events, and all of them once the stream is read and every write came through |
| RxMonitor.Monitor | sw/bt_test_jni/bt_relayer.cpp:486-522 | The octets received are whole packets in order, with at most a part of one more where a write failed. The thread checks fExit before every turn and ends at the first check that finds it raised; otherwise it ends only for a cause: nothing more can come, a call of the chip failed inside a packet, or a write failed |
| RxMonitor.MonitorDelivers | sw/bt_test_jni/bt_relayer.cpp:486-522 | Liveness: if nobody tells the thread to stop and neither side fails, with enough successful calls and writes the PC receives all packets of the stream but the debug events |
| RxMonitor.PcInput.WriteData | sw/bt_test_jni/bt_relayer.cpp:155-178 | Partial and interrupted writes: exactly as many octets are gone as the answers take, all of them iff it succeeds; it fails only on an error and waits only when no answer is left |
| RxMonitor.PcInput.Write | sw/bt_test_jni/bt_relayer.cpp:242-264 | The type check, then the write; a packet of a known kind fails only on an error of the port |
| ChipReader.Read | sw/bt_test_jni/bt_em.c:203-345 | One packet with all debug events before it dropped; the rest of the buffer is zero. It does not come back only if no call is left or nothing but debug events and a cut packet is to come, and fails inside a packet only on a failed call |
| ChipReader.DropsOne | sw/bt_test_jni/bt_em.c:330-344 | Dropping an event and reading on is reading one packet further |
| RelayThreads.RunsFromStart | sw/bt_test_jni/bt_relayer.cpp:403-522 | Every interleaving of the two threads with RELAYER_start and RELAYER_exit, from the creation of the threads on, in which no thread goes on failed when RELAYER_start returns: each output is whole packets with at most one partial one behind, and fExit never goes back |
| RelayThreads.RunKeepsInv | sw/bt_test_jni/bt_relayer.cpp:435-522 | Every run from a state with the invariant, once RELAYER_start has returned, keeps it and never takes fExit back |
| RelayThreads.StepKeepsInv | sw/bt_test_jni/bt_relayer.cpp:449-522 | The same for every single step |
| RelayThreads.AtMostOneMore | sw/bt_test_jni/bt_relayer.cpp:449-522 | Once fExit is set each thread passes on at most one further packet |
| RelayThreads.StartStaysCleanIff | sw/bt_test_jni/bt_relayer.cpp:403-410 | Whatever the threads did before RELAYER_start clears fExit, both outputs are prefixes of the packets read; on every run from there on they stay so iff no thread has failed without having ended |
| RelayThreads.FailedGarbles | sw/bt_test_jni/bt_relayer.cpp:449-522 | A failed thread that reads and passes on one more packet, beginning with another octet than the one it owes, has an output that is no prefix of the packets it read |
| RelayThreads.StartRaceGarbles | sw/bt_test_jni/bt_relayer.cpp:403-410 | The failing case is reached from the first state: a write to the PC that fails before RELAYER_start clears fExit |
| RelayThreads.ComesUpIff | sw/bt_test_jni/bt_relayer.cpp:403-410 | Both threads are still running once RELAYER_start has returned, on every schedule in which they do not fail, iff fExit was not set before the call |
| RelayThreads.RunsIffUnchecked | sw/bt_test_jni/bt_relayer.cpp:454 | On any one schedule with fExit set before, a thread is still running iff it has not come to its check yet |
| RelayThreads.RestartMayBeDead | sw/bt_test_jni/bt_relayer.cpp:403-437 | Counterexample for a second start: both threads end at once, and on every run after RELAYER_start has returned nothing is passed on |
| TagList.DropCommandLine | sw/mediatek/platform/mt6572/kernel/core/mt_devs.c:1039-1183 | Parsing the tag bytes afterwards gives the list without its last command line tag and the terminator unchanged |
| TagList.MovedRemoves | sw/mediatek/platform/mt6572/kernel/core/mt_devs.c:1180-1183 | The overlapping copy is list removal |
| TagList.CopyDown | sw/mediatek/platform/mt6572/kernel/core/mt_devs.c:1180-1183 | The ascending copy over itself delivers the bytes as they were before |
| TagList.FindCommandLine | sw/mediatek/platform/mt6572/kernel/core/mt_devs.c:1039-1154 | The walk ends at the terminator, with the last command line tag if the list has one |
| TagList.DroppedTakesOne | sw/mediatek/platform/mt6572/kernel/core/mt_devs.c:1153-1154 | The tag removed is exactly the last command line |
| TagList.WordOctets | sw/mediatek/platform/mt6572/kernel/core/mt_devs.c:1039-1073 | A word has its lowest octet first |
| TagList.CommandLineOctets | sw/mediatek/platform/mt6572/kernel/core/mt_devs.c:1073 | A tag is a command line iff the octets behind its size are 09 00 41 54 |
| TagList.LaidParses | sw/mediatek/platform/mt6572/kernel/core/mt_devs.c:1039 | Tags laid out one after another, each with its own size in words in front, and an end of eight octets parse to just those tags |
| MemoryBanks.Layout.Fixup | sw/mediatek/platform/mt6572/kernel/core/mt_devs.c:1021-1119 | The banks are clipped to the limit and the reservation is taken off the last bank kept; the totals and the frame buffer address follow; with contiguous banks, the gap covered and room in the last bank, the reserved area is disjoint from every bank and ends exactly at get_max_phys_addr; without a kept bank the kernel stops |
| MemoryBanks.Layout.ClipBanks | sw/mediatek/platform/mt6572/kernel/core/mt_devs.c:1039-1088 | The in-place walk computes the clipping, its total and the last bank kept |
| MemoryBanks.KeptWithinLimit | sw/mediatek/platform/mt6572/kernel/core/mt_devs.c:1040-1071 | The kept memory is at most the limit iff the gap below the kernel fits at the bank that is cut |
| MemoryBanks.NoBankGrows | sw/mediatek/platform/mt6572/kernel/core/mt_devs.c:1053-1062 | Under that condition no bank grows |
| MemoryBanks.ClipAt | sw/mediatek/platform/mt6572/kernel/core/mt_devs.c:1047-1066 | Every bank after the clipping, by the memory before it: it keeps its size while the limit is not passed, what is left of the limit less the gap where it is passed, and nothing behind that |
| MemoryBanks.KeptExactly | sw/mediatek/platform/mt6572/kernel/core/mt_devs.c:1040-1071 | How much is kept: all memory up to the limit; the limit less the gap if it is passed inside a bank; the limit if it is passed at the end of one |
| MemoryBanks.LastKeptIs | sw/mediatek/platform/mt6572/kernel/core/mt_devs.c:1066 | The last bank kept is the last with less memory before it than the limit |
| MemoryBanks.CarvingConserves | sw/mediatek/platform/mt6572/kernel/core/mt_devs.c:1115-1117 | Kept memory plus reservation is all memory iff the last bank is large enough |
| MemoryBanks.FrameBufferIsPlaced | sw/mediatek/platform/mt6572/kernel/core/mt_devs.c:2176-2181 | The reserved area is behind every kept bank and ends at the highest physical address |
| MemoryBanks.Layout.Reserve | sw/mediatek/platform/mt6572/kernel/core/mt_devs.c:1115-1119 | Only the last bank kept shrinks, by the reservation, and the frame buffer begins where it now ends |
| MemoryBanks.LastKeptEnds | sw/mediatek/platform/mt6572/kernel/core/mt_devs.c:1047-1066 | In contiguous memory the last bank kept ends where all kept memory ends |
| CommandLine.Line.Concatenate | sw/mediatek/platform/mt6572/kernel/core/mt_devs.c:973 | Exactly the C string is appended |
| CommandLine.Keep | sw/mediatek/platform/mt6572/kernel/core/mt_devs.c:962-976 | A wanted word is appended behind one space and cut off at the blank behind it; an undesired one changes nothing |
| CommandLine.ScanStaysInIff | sw/mediatek/platform/mt6572/kernel/core/mt_devs.c:952-979 | The scan stays inside memory iff the tag ends in at most the one blank that ends a word, or something that is not blank lies behind it: an exact guard on the memory before the call |
| CommandLine.TwoBlanksOverrun | sw/mediatek/platform/mt6572/kernel/core/mt_devs.c:956-959 | Counterexample: a word and two blanks at the end of memory |
| CommandLine.Filter | sw/mediatek/platform/mt6572/kernel/core/mt_devs.c:941-984 | In place: the words that begin with neither console= nor root= are appended in order, one space before each; the text is only cut at blanks; the panic happens iff the result does not fit |
| CommandLine.WordLaws | sw/mediatek/platform/mt6572/kernel/core/mt_devs.c:952-979 | The laws that determine what a word is |
| CommandLine.WordsOfJoined | sw/mediatek/platform/mt6572/kernel/core/mt_devs.c:952-979 | Splitting undoes joining for any words |
| CommandLine.UndesiredIs | sw/mediatek/platform/mt6572/kernel/core/mt_devs.c:943-967 | A word is dropped iff it begins with console= or root=, with the sign |
| CommandLine.RootwaitStays | sw/mediatek/platform/mt6572/kernel/core/mt_devs.c:962-976 | Of console=ttyMT3 rootwait root=/dev/ram only rootwait stays |
| CommandLine.FilterAgain | sw/mediatek/platform/mt6572/kernel/core/mt_devs.c:1028-1032 | The edited line has the same words, so a second filtering appends the same |
| CommandLine.FilterTwice | sw/mediatek/platform/mt6572/kernel/core/mt_devs.c:1028-1032 | Both filterings one after the other |
| SerialNumber.GetSerial | sw/mediatek/platform/mt6572/kernel/core/mt_devs.c:291-330 | The array program prints the serial number of the specification |
| SerialNumber.RotateWords | sw/mediatek/platform/mt6572/kernel/core/mt_devs.c:311-316 | Each word is rotated by its digit of the chip id |
| SerialNumber.DigitsAreDecimal | sw/mediatek/platform/mt6572/kernel/core/mt_devs.c:311-316 | The four digits are the last four decimal digits of the chip id |
| SerialNumber.RotationTurns | sw/mediatek/platform/mt6572/kernel/core/mt_devs.c:314 | A word rotated right by d, times 2 to the power d, is the word plus 65535 times its low d bits: the bits that leave at the low end come in at the top |
| SerialNumber.SerialOfOneKey | sw/mediatek/platform/mt6572/kernel/core/mt_devs.c:293-328 | A known answer: key 0123456789ABCDEF on chip id 6572, both hexadecimal, prints P7NZTCSKCUTWJBYD |
| SerialNumber.TableIs | sw/mediatek/platform/mt6572/kernel/core/mt_devs.c:293 | The letters are A to W, then S, Y and Z, and 4 to 9 |
| SerialNumber.RotationInverts | sw/mediatek/platform/mt6572/kernel/core/mt_devs.c:311-316 | Rotations can be undone |
| SerialNumber.KeyFromIndexes | sw/mediatek/platform/mt6572/kernel/core/mt_devs.c:319-325 | The key comes back from the sixteen overlapping slices |
| SerialNumber.SerialsCollide | sw/mediatek/platform/mt6572/kernel/core/mt_devs.c:293-328 | Two keys print alike iff their rotated words agree byte by byte up to swapping 18 and 23 in the low five bits |
| SerialNumber.LettersCollide | sw/mediatek/platform/mt6572/kernel/core/mt_devs.c:293-327 | The letter table shows two indexes alike iff they are equal or 18 and 23 |
| SerialNumber.SerialIsNotInjective | sw/mediatek/platform/mt6572/kernel/core/mt_devs.c:293-328 | Counterexample: two keys with one serial number |

## Left out

- The JNI layer, the HAL stub, the Java service and application, the .txt copies, build and init files: forwarding and configuration.
- ioctl dispatch, probe and remove, GPIO and PMIC calls, delays: kernel calls; udelay, msleep and QND_Delay are no-ops.
- QND_Init, QN_ChipInitialization, QND_ConfigFMModule, RDS, TX power and audio setters, bt803_driver.c, mtk_key.c, uart_speed: single branches and tables. A `Radio` starts with the initial values of the driver's globals.
- qn8006_ChipReset (never called), AI2C_Write_1byte and AI2C_Read_1byte: the same phases as the transfers modelled.
- QND_SetSysMode's sleep, wake-up and default modes: single register writes. No caller modelled here uses them.
- Tuner.Radio.TxClearChannelScan: the source polls without a timeout; the model assumes that a scan, once started, comes to its end.
- TunerChip: the log `heard` does not tell when SYSTEM1 is written back with CHSC still set, in which case a scan that was under way, or has just ended, goes on; this happens only after a seek was given up, or a scan begun elsewhere.
- TunerChip: settings registers do not change by themselves, and status registers may change at any access; a register access always succeeds (the wires are modelled apart, in I2cRegisters).
- Tuner.Radio.MeasureBand: a band that a stop off the grid makes empty or reversed is passed to the chip as it is; what the chip then scans is not modelled.
- Seeker.Seeks: qnd_ChList, qnd_RSSIn and qnd_RSSInBB are sequence-valued fields of fixed length instead of C arrays; the callback is a history of its arguments and does not call back into the driver. A station is reported with its frequency; the band argument is always FM.
- Seeker.Seeks.RxSeekAll: beyond the first downward seek, an upward sweep from above the end of the band is described by its stations and by neighbouring trials being one step apart, not by where each of the points it tries after a step past 16 bits lies.
- I2cTransfer.ReadBytes: for more than one byte the chip is taken to go on to the next register; all callers modelled transfer one. A transfer begins on an idle bus: what follows a frame that was left open is not modelled.
- I2cMaster: clock stretching by the slave and a second master.
- TxMonitor and RxMonitor: a closed port (fd below 0), a null buffer, an unloaded library and thread creation failures: early returns. Octets in the system's own buffers are part of the input still to come.
- ChipReader.Read: bt_receive_data is not visible; a call either delivers all the octets it is asked for, or fails and takes none, or does not come back because fewer will ever come.
- RelayThreads: a write to the chip is one step; shared variables are read and written one at a time, in any order of the threads. uart_fd is fixed while the relay runs.
- MemoryBanks: RESERVED_MEM_MODEM is zero, resource_size_t has 32 bits; the limit, PHYS_OFFSET less the start of DRAM, and the reserved size (display memory included) are parameters.
- MemoryBanks.Layout.Fixup: the video tag's own contribution to use_bl_fb and the globals taken from the other tags.
- MemoryBanks and TagList share no memory: the one works on tags as values in an array, the other on bytes; the other kinds of tag are kept as they are.
- TagList.DropCommandLine: memcpy is taken to copy in ascending order; the list must be well formed and end in memory.
- CommandLine.Filter: strlen, strcat and memcmp act on sequences; the size of the command line is a parameter, and characters behind the last blank are not a word, as in the source. adjust_kernel_cmd_line_setting_for_console is not part of this model.
- SerialNumber.GetSerial: the 64-bit key and the chip id are given; reading them from the fuses is not modelled.
