# FlightCode: a verified model of the firmware's state machines

FlightCode is C firmware for a quadcopter flight controller. This project models those of its
modules that are deterministic state machines over arrays, and proves what they promise over
whole runs. Hardware is an input: what a status register, a card, a clock or a byte line reports
is a parameter of the step that reads it.

Each C file with static state is a class whose methods update fields, rings and buffers in place
as the source does. Every such method is proved against a step function on values, and the
theorems are about all runs of these steps. Code that only computes is functions and lemmas.

| area | modules |
|---|---|
| two-bank flight log on NOR flash | `NorFlash` (programming, erasing, tearing), `FlashModel` (steps), `FlashSafety` (invariant), `FlashRuns` (theorems), `FlashMisuse` (calls during a commit), `FlashReach` (runs from power-up), `FlashStart` (what a flight carries, deferred starts), `FlashClear`, `FlashLog` (class) |
| flight log on an SD card | `SdModel`, `SdSafety`, `SdRuns`, `SdReach` (a run from start-up), `SdClear` (flights that are forgotten), `SdLog` (class) |
| arming, control loops, mixer | `RealArithmetic`, `PidLoop`, `PidLaws` (signs and order), `Mixer`, `FlightControl`, `FlightDirections` (from sticks and gyro to the motors), `FlightLoop` (class) |
| settings and their backup protocol | `Settings`, `SettingsBackup`, `SettingsPort` (class), `Crc32`, `Fnv` |
| receiver | `Channels`, `Crc8`, `Sbus` (framing), `SbusLink` (verdict on the link, class `Receiver`) |
| ESC passthrough | `FourWay` (with class `Parser`), `SoftUart`, `BootLink`, `Crc16` |
| HDZero video link | `HdzeroMsp` (with class `Parser`), `TxRing` (class `Ring`) |
| SmartAudio video transmitter | `SmartAudio`, `SmartAudioDevice` (together with a device), `SmartAudioPort` (class) |
| main loop timing | `Scheduler` (with class `Task`) |
| flight log in RAM and MCU flash | `FlightLogRing` (class `Log`) |
| OSD framebuffer | `OsdFramebuffer` (class `Framebuffer`) |
| shared | `Bytes`, `Checksums`, `Polynomials` (long division), `Records`, `Rings` |

Some promises turn out not to hold for every caller. Each is stated with its exact condition or
with a lemma that shows the failing inputs:

- Calls that arrive while the flash log commits: a stop loses the flight exactly when it retains
  (`FlashMisuse.StopDuringCommit`), and accepted records leave a spare bank that passes for erased but
  is not, unless a stop follows or what was programmed of them is blank
  (`FlashMisuse.AppendDuringCommit`).
- A start while the bank that was retained before is being erased, right after a commit, is forgotten, although
  the comment at `src/storage/blackbox_flash.c:580` means to remember it: `FlashStart.StartDuringErase`.
- Selecting the newest flight compares 32-bit ids without regard to their wrap:
  `FlashSafety.CutShadowed`, and `FlashReach.LastIdShadows` from power-up.
- A probe that fails to read a good SD catalog forgets it, and the next flight is written over the flights
  from the first data sector on. `SdRuns.MisreadOverwrites` says exactly which of them are left at any
  time, `SdReach.MisreadLosesFlight` is such a run from start-up. `State.lost`, `damaged` and `tainted` of
  `SdModel` count the flights concerned; everything else is proved of all other flights.
- A full SD card and an id wrapped to zero make a good catalog unreadable: `SdRuns.RestartKeeps` and
  `SdRuns.ReprobeKeeps`.
- A receiver link that has been silent for a whole wrap of the 32-bit clock is up again for 100 ms:
  `SbusLink.UpIsFresh`.
- An emergency stop during the calibration that precedes arming does not force a new switch cycle:
  `FlightControl.EmergencyStopForcesCycle`.
- A higher yaw setpoint may lower the yaw output, by relaxing its integral, and a higher rate may raise an
  output, by boosting its D term: `PidLaws.RelaxedMayFall`, `PidLaws.BoostMayRaise`.
- The comment at `src/storage/blackbox_sd.c:613-615` speaks of sequence gaps from dropped blocks; the
  code no longer makes them (`SdSafety.PushParts`), and the model follows the code.

## Model

| member | source | states |
|---|---|---|
| `FlashRuns.CrashSafety` | src/storage/blackbox_flash.c:226-301 | over any run of any length, with any number of restarts, failures and power cuts (no user clear, no record accepted and no retaining stop during a commit, and the ids that its starts take below the 32-bit wrap), a cut at any byte of any operation leaves a chip on which the restart selects the most recently committed flight with every record; the commit itself takes effect exactly with its sixth byte, the valid byte |
| `FlashSafety.CutFound` | src/storage/blackbox_flash.c:278-300 | from any reachable state, whatever is torn, what the restart finds is the newest commit, unless an older flight outranks it |
| `FlashSafety.CutShadowed` | src/storage/blackbox_flash.c:280-284 | that exception is exact: after the complete commit the restart finds the new flight if and only if its id outranks the retained one or both flights are the same (the id comparison ignores the 32-bit wrap) |
| `FlashReach.LastIdShadows` | src/storage/blackbox_flash.c:280-284 | from power-up on a chip whose flight has id 2^32 - 1 a run commits the next flight, whole, and the restart finds the old one |
| `FlashSafety.StepSound` | src/storage/blackbox_flash.c:303-448 | every step other than a record accepted, or a retaining stop, during a commit keeps the invariant of chip and driver: clean banks, the ledger of the flight being recorded, the retained flight intact |
| `FlashRuns.NorDiscipline` | src/storage/blackbox_flash.c:387-447 | every program stays in one 256-byte page of a bank that is not retained and meets only blank cells, so even a torn program stores exactly a prefix of the intended bytes |
| `FlashRuns.StreamOnChip` | src/storage/blackbox_flash.c:343-424 | the programmed record area followed by the bytes still queued is the stream of accepted records |
| `FlashRuns.OfferedIsAcceptedOrDropped` | src/storage/blackbox_flash.c:594-607 | while recording with the power on, whatever else is called but a stop and whatever the chip answers, every offered record is accepted, in order, or counted as dropped, modulo 2^32 |
| `FlashRuns.QueueFills` | src/storage/blackbox_flash.c:594-607 | while the chip stays busy exactly as many records are accepted as the queue and the bank have room for, and all others are dropped and counted |
| `FlashRuns.ThirtyThirdIsDropped` | src/storage/blackbox_flash.c:594-607 | of 33 records offered during the header program 32 are accepted and one is dropped |
| `FlashRuns.GetRecordReturns` | src/storage/blackbox_flash.c:495-507 | while the driver works, get_record returns record i of the newest committed flight under its id at rest, and nothing in every other case |
| `FlashRuns.FailedStillReads` | src/storage/blackbox_flash.c:495-507 | after a failure, whatever is called but a clear or a restart, get_record still reads the flight that was retained then, unless the failure has left the driver busy; then it returns nothing |
| `FlashRuns.Drained` | src/storage/blackbox_flash.c:305-448 | once a stop is requested, retaining or not, a computed number of updates that find the chip ready, with any number of busy ones between them, brings the driver to rest with the flight that is due retained, whatever it was doing |
| `FlashRuns.StoppedFlightIsReadable` | src/storage/blackbox_flash.c:609-617 | after a stop has drained, get_record(id, i) is the i-th record of the flight it retains, for every id and i, and nothing else: all accepted records after a retaining stop, the flight retained before otherwise |
| `FlashReach.ReachesFirstCommit` | src/storage/blackbox_flash.c:545-617 | from power-up on a blank chip a run reaches a commit, with nothing retained |
| `FlashReach.ReachesSecondCommit` | src/storage/blackbox_flash.c:545-617 | and another one a commit on top of a retained flight |
| `FlashMisuse.StopDuringCommit` | src/storage/blackbox_flash.c:362-384 | whatever is called during a commit, on top of any retained bank or none: once the updates have drained it, a restart finds the committed flight if and only if the last stop, if any, does not retain, and no flight at all if it does |
| `FlashMisuse.AppendDuringCommit` | src/storage/blackbox_flash.c:387-424 | after any calls during a commit but a retaining stop, records and updates in any order: the committed flight is still found; after a stop the spare bank is clean, and without one if and only if the whole pages of the records that were programmed hold only blank bytes; get_record returns nothing exactly when no stop came and some bytes fill no page |
| `FlashMisuse.CutDuringCommit` | src/storage/blackbox_flash.c:226-301 | and a power cut at any byte, at any time on the way, leaves a chip on which the restart finds the committed flight, or before the valid byte the one retained before |
| `FlashSafety.BeginSound` | src/storage/blackbox_flash.c:545-568 | a flight begins on a blank bank that is not the retained one |
| `NorFlash.FinalTorn` | src/storage/blackbox_flash.c:432-446 | the commit program, torn after k bytes, makes the bank a valid flight with all its records if k is 6, and an invalid header before |
| `NorFlash.RecordTorn` | src/storage/blackbox_flash.c:394-424 | a torn record program stores a prefix of its bytes and leaves the header alone |
| `NorFlash.EraseTorn` | src/storage/blackbox_flash.c:217-224 | erasing backwards keeps "blank header, blank bank" after every block, and a flight disappears only with the last block |
| `NorFlash.ReadHeader` | src/storage/blackbox_flash.c:197-206 | the bytes of the two header programs together read back as a valid header with the id, count, flag and metadata written |
| `FlashModel.StepShape` | src/storage/blackbox_flash.c:305-448 | indices stay in range and the operation in flight is the one the driver believes in |
| `FlashModel.FinalDoneSteps` | src/storage/blackbox_flash.c:362-384 | the completed commit, step by step as the source orders it |
| `FlashLog.Log.Append` | src/storage/blackbox_flash.c:594-607 | the ring takes the record exactly as the specification says |
| `FlashLog.Log.Stop` | src/storage/blackbox_flash.c:609-617 | the stop request is the specified step |
| `FlashLog.Log.Start` | src/storage/blackbox_flash.c:570-592 | a start begins, is deferred or is rejected as specified |
| `FlashLog.Log.BeginRecording` | src/storage/blackbox_flash.c:545-568 | the header program and the reset of the queue are the specified step |
| `FlashLog.Log.Update` | src/storage/blackbox_flash.c:305-448 | completion, then the next operation, with ring and page buffer changed in place, is the specified step |
| `FlashLog.Log.RecordCompleted` | src/storage/blackbox_flash.c:343-361 | the consume loop releases whole records and keeps the offset into a partly programmed one |
| `FlashLog.Log.Release` | src/storage/blackbox_flash.c:345-360 | the loop conserves bytes: released records and the new offset add up to what was programmed |
| `FlashLog.Log.FillBuffer` | src/storage/blackbox_flash.c:405-419 | the copy loop gathers the next bytes of the record stream across record boundaries and the ring seam |
| `FlashLog.Log.LoadPage` | src/storage/blackbox_flash.c:394-419 | the page program holds the next bytes of the queue up to the page boundary |
| `FlashLog.Log.EraseCompleted` | src/storage/blackbox_flash.c:325-342 | next block, second bank of a clear, or ready with a deferred start |
| `FlashLog.Log.FinalCompleted` | src/storage/blackbox_flash.c:362-384 | the bank becomes the retained one and the other one is prepared |
| `FlashLog.Log.LaunchCommit` | src/storage/blackbox_flash.c:432-446 | count, flag and valid byte are launched in one program |
| `FlashLog.Log.HeaderErased` | src/storage/blackbox_flash.c:208-215 | the loop decides whether the 256-byte header page is blank |
| `FlashLog.Log.SetEnabled` | src/storage/blackbox_flash.c:450-450 | the call enables the driver exactly if the chip is available, whatever it asks for |
| `FlashLog.Log.Clear` | src/storage/blackbox_flash.c:534-543 | a clear is accepted exactly at rest and begins the erasure that `FlashClear.ClearErases` follows to its end |
| `FlashLog.Log.Init` | src/storage/blackbox_flash.c:226-301 | the restart selects the valid bank with the higher id and prepares the other |
| `FlashLog.Log.GetRecord` | src/storage/blackbox_flash.c:495-507 | the read-back method is the specified function |
| `FlashClear.ClearErases` | src/storage/blackbox_flash.c:534-543 | after an accepted clear, with the chip found busy any number of times: once each block of both banks has been found erased, both banks are blank, get_record finds nothing for any id and index, a restart finds no flight even after a cut, and the next flight has id 1 |
| `FlashClear.Wiped` | src/storage/blackbox_flash.c:303-342 | the updates that a clear, wherever it stands, still needs are its blocks and one; until then it goes on and no flight is recorded |
| `FlashStart.FlightCarries` | src/storage/blackbox_flash.c:545-617 | from a start at rest, through any calls but a stop, to a retaining stop that has drained: the flight found has the next id, the metadata of the start, the flag of the stop and every record accepted |
| `FlashStart.StartDuringErase` | src/storage/blackbox_flash.c:570-592 | a start during an erasure: once the blocks are erased a flight with the next id and the metadata given is being recorded, if and only if the driver is enabled and the bank it writes to is not the retained one; otherwise the start is forgotten |
| `FlashStart.DeferredExactly` | src/storage/blackbox_flash.c:579-587 | the call itself remembers the start and its metadata under exactly that condition, and changes nothing otherwise |
| `SdSafety.RunSound` | src/storage/blackbox_sd.c:382-783 | every run of starts, records, stops, clears, probes, updates and power cuts keeps the invariant of card, queue and catalog, whatever the catalog sector answers |
| `SdRuns.CatalogAfterBlocks` | src/storage/blackbox_sd.c:491-499 | a catalog write starts only when every block of every flight it lists is on the card, but for those that had been written over when the catalog was read; the catalogued ranges are disjoint, in order and below next_sector |
| `SdRuns.DataBehindCatalog` | src/storage/blackbox_sd.c:483-491 | a block write goes to the first sector behind everything catalogued in memory, and on the card unless the driver began without being able to read it |
| `SdRuns.DmaUntouched` | src/storage/blackbox_sd.c:353-371 | while a sector write runs, no call changes what its DMA reads or the sector it goes to |
| `SdRuns.RecordPlace` | src/storage/blackbox_sd.c:602-623 | the first block of a stored flight holds its metadata, and record r is in the block with sequence 1 + r/8, in the sector that far behind the start, in slot r%8; every block but the last holds 8 records |
| `SdRuns.DistinctIds` | src/storage/blackbox_sd.c:582-587 | catalogued ids are distinct, even across the wrap of the 32-bit id |
| `SdRuns.GetRecordReturns` | src/storage/blackbox_sd.c:574-624 | get_record returns the record of that flight or fails; with successful reads it returns every record; only flights that had been written over when the catalog was read are excepted |
| `SdRuns.GetRecordsReturns` | src/storage/blackbox_sd.c:626-690 | a batch is exactly the stretch of the flight up to the capacity, the block or the end of the flight |
| `SdRuns.BatchIsRepeatedGet` | src/storage/blackbox_sd.c:682-689 | a batch holds what reading record by record returns |
| `SdRuns.GetMetadataReturns` | src/storage/blackbox_sd.c:692-713 | get_metadata finds the metadata given when the flight began |
| `SdRuns.CrashKeepsFlights` | src/storage/blackbox_sd.c:312-328 | after a power cut during any write, in any sound state, the flights found are those of the catalog on the card, each whole with its metadata, but for those counted as written over; a torn catalog sector reads as no catalog |
| `SdRuns.DamageNeedsLoss` | src/storage/blackbox_sd.c:302-322 | flights are written over only after a probe or restart that could not read the catalog |
| `SdRuns.RestartKeeps` | src/storage/blackbox_sd.c:312-328 | a restart at rest, whatever the card answers, finds the same flights if and only if there are none, or the catalog is read, does not report a full card and its next id has not wrapped to zero; after a catalog that could not be read, if and only if it cannot be read again or lists nothing |
| `SdRuns.ReprobeKeeps` | src/storage/blackbox_sd.c:449-474 | a probe at rest keeps the flights if and only if the same holds or, with a catalog that was read, the card does not come up |
| `SdRuns.StopEnters` | src/storage/blackbox_sd.c:772-783 | a retaining stop enters exactly the blocks and records that reached the queue; every offered record is kept or counted as dropped, modulo 2^32 |
| `SdRuns.Drained` | src/storage/blackbox_sd.c:476-533 | from any phase of a write, any updates without failures bring the driver to rest with the catalog unchanged as soon as four phases for each sector are over, however long the card takes for each |
| `SdRuns.RetainedFlightReadable` | src/storage/blackbox_sd.c:574-624 | from a retaining stop to the reader, however long each phase takes and whatever the catalog held before: the offered records, less whole blocks that found the queue full, come back one by one |
| `SdRuns.MisreadOverwrites` | src/storage/blackbox_sd.c:449-474 | the whole next flight after a probe whose catalog read fails: once n of its blocks are on the card, a flight that the card still lists is intact if and only if it starts n or more sectors behind the first data sector, or starts there with id 1 and agrees with the new flight in every block written over |
| `SdReach.MisreadLosesFlight` | src/storage/blackbox_sd.c:449-474 | from start-up: two flights, such a probe, a third flight and a power cut; the restart lists the first two, returns the record of the third for the first, and has the second whole |
| `SdSafety.PushParts` | src/storage/blackbox_sd.c:382-401 | a block gets its sequence number only when it enters the queue: the sequence of every queued block is the distance of its sector from the start of the flight |
| `SdSafety.PushAccount` | src/storage/blackbox_sd.c:382-401 | a block that enters the queue keeps the account of its records: offered, kept and dropped add up |
| `SdSafety.AfterCard` | src/storage/blackbox_sd.c:476-533 | whatever an unfinished write leaves in its sector, the catalog on the card stays true |
| `SdSafety.EntrySound` | src/storage/blackbox_sd.c:330-351 | entering a flight, sliding out the oldest of twenty, keeps the invariant |
| `SdSafety.PowerCycleSound` | src/storage/blackbox_sd.c:423-447 | power cut and initialisation lead to a sound state from every sound state |
| `SdLog.Log.Append` | src/storage/blackbox_sd.c:758-770 | the open block and the ring change as specified; the slot being sent by DMA does not |
| `SdLog.Log.QueueBlock` | src/storage/blackbox_sd.c:382-401 | the block enters the ring or is dropped and counted; the slot being sent does not change |
| `SdLog.Log.Slide` | src/storage/blackbox_sd.c:332-336 | the memmove leaves the newest nineteen entries |
| `SdLog.Log.AppendEntry` | src/storage/blackbox_sd.c:330-351 | the catalog entry is the specified one |
| `SdLog.Log.Begin` | src/storage/blackbox_sd.c:746-755 | the metadata block is queued with sequence 0 and the flight starts at next_sector |
| `SdLog.Log.Start` | src/storage/blackbox_sd.c:736-756 | a start on a resting, enabled card begins, and errs on a full card |
| `SdLog.Log.Stop` | src/storage/blackbox_sd.c:772-783 | the stop closes the last block and enters the flight as specified; the slot being sent does not change |
| `SdLog.Log.Clear` | src/storage/blackbox_sd.c:715-728 | a clear is accepted exactly in Ready with no write and an empty queue, and is the step that `SdClear.ClearForgets` is about |
| `SdLog.Log.Reprobe` | src/storage/blackbox_sd.c:449-474 | the probe is the specified step |
| `SdLog.Log.Update` | src/storage/blackbox_sd.c:476-533 | the write phases advance as specified |
| `SdLog.Log.WriteDone` | src/storage/blackbox_sd.c:522-531 | a finished write releases the oldest slot or commits the catalog |
| `SdLog.Log.BeginWrite` | src/storage/blackbox_sd.c:483-500 | the oldest block, then the catalog, is handed to the DMA, and what is sent is what that slot holds |
| `SdLog.Log.FindFlight` | src/storage/blackbox_sd.c:582-587 | the search finds the first entry with the id |
| `SdLog.Log.GetRecord` | src/storage/blackbox_sd.c:574-624 | the cached read-back is the specified function |
| `SdLog.Log.GetMetadata` | src/storage/blackbox_sd.c:692-713 | the read of the first block and what it does to the cache are the specified ones |
| `SdClear.ClearForgets` | src/storage/blackbox_sd.c:715-728 | after an accepted clear get_record, get_records and get_metadata find nothing for any id; after the four phases of the catalog write, however long each takes, neither a restart nor a probe finds a flight, and the next flight has id 1 and starts at the first data sector |
| `SdClear.DiscardedNotEntered` | src/storage/blackbox_sd.c:772-783 | a stop that does not retain, or has nothing to retain, enters no flight: the driver comes to rest with the flights it had, and the next flight gets the same id |
| `SdClear.StartExactly` | src/storage/blackbox_sd.c:736-756 | a start begins a flight exactly on an enabled, resting driver with room on the card; a full card is an error, and anything else changes nothing |
| `SdClear.SilentWhileDisabled` | src/storage/blackbox_sd.c:382-783 | while nobody enables the log, no run makes it record, probes and power cuts included |
| `FlightControl.ArmsOnlyAfterStretch` | src/control/flight_control.c:323-426 | from start-up, armed becomes true only at the end of an unbroken stretch of more than 8000 updates with a valid link, the switch on and the throttle at most 5 % |
| `FlightControl.GuardDecides` | src/control/boot_arm_guard.h:7-14 | over every run the interlock is decided by the first valid frame: blocked if and only if the arm switch was on in it |
| `FlightControl.BlockedForever` | src/control/flight_control.c:323-328 | once the interlock blocks, no run arms the craft or changes the interlock |
| `FlightControl.MotorsTurn` | src/control/flight_control.c:310-426 | the outputs are other than four zeros if and only if the craft was armed and the switch is on over a valid link, and exactly then it stays armed |
| `FlightControl.DisarmedIsStopped` | src/control/flight_control.c:310-426 | an update that leaves the craft disarmed outputs four zeros |
| `FlightControl.FlyingMotors` | src/control/flight_control.c:491-540 | in flight every motor percentage is within idle and 100 and their mean is the base of the mixer |
| `FlightControl.DshotInRange` | src/drivers/motors/dshot.c:660-665 | percentages from idle up become DSHOT values 67 to 2047, in order |
| `FlightControl.IntegralQuiet` | src/control/flight_control.c:449-459 | on every run armed implies calibrated and not blocked, airmode implies armed, integrals are zero before airmode and within 30 after |
| `FlightControl.AirmodeLatched` | src/control/flight_control.c:449-459 | airmode stays on as long as the craft stays armed, whatever is called |
| `FlightControl.BiasNearReference` | src/control/flight_control.c:347-396 | a finished calibration has 8000 samples and a bias within 3 degrees per second of its first sample on each axis |
| `FlightControl.EmergencyStopForcesCycle` | src/control/flight_control.c:577-583 | after an emergency stop no run with the switch held on arms the craft, if and only if the stop did not come during the calibration that precedes arming |
| `FlightControl.ReachesArming` | src/control/flight_control.c:329-426 | under every valid configuration some run from start-up reaches that calibration |
| `FlightControl.CanArm` | src/control/flight_control.c:338-406 | from every arming calibration, at whatever count and outliers, some run with the switch held arms the craft |
| `FlightControl.StepInv` | src/control/flight_control.c:215-603 | every call keeps the invariant of the controller |
| `FlightControl.CoefficientsValid` | src/control/flight_control.c:83-99 | every filter coefficient is between 0 and 1 for every positive time step and cut-off |
| `FlightLoop.Loop.Update` | src/control/flight_control.c:301-553 | the update of the fields, the three axes and the motor array is the specified step |
| `FlightLoop.Loop.Calibrate` | src/control/flight_control.c:329-407 | the calibration fields change as specified |
| `FlightLoop.Loop.Fly` | src/control/flight_control.c:429-540 | loops, mixer and motors are the specified values |
| `FlightLoop.Loop.BeginCalibration` | src/control/flight_control.c:215-229 | a calibration starts from nothing |
| `FlightLoop.Loop.ResetController` | src/control/flight_control.c:205-213 | all controller state is cleared |
| `PidLoop.Axis.Run` | src/control/flight_control.c:143-203 | the in-place update of one axis is the specified next state and output, whose signs, order and size `PidLaws` states |
| `PidLoop.Bounded` | src/control/flight_control.c:143-203 | integral, activity and output stay within their limits, and a disabled integral is zero |
| `PidLoop.AntiWindup` | src/control/flight_control.c:164-174 | while the mixer is saturated the integral never moves further from zero |
| `PidLoop.FeedforwardInRange` | src/control/flight_control.c:130-141 | feedforward is between 70 % and all of what the gain asks for, with its sign |
| `PidLaws.ErrorDrives` | src/control/flight_control.c:194-202 | on its own the proportional part has the sign of the error, and the size of its gain times the error up to the limit |
| `PidLaws.SetpointRaises` | src/control/flight_control.c:152-202 | with the state held, the output does not fall when the setpoint rises: always without the relaxation of the integral, and with it whenever the integral does not fall |
| `PidLaws.RelaxedMayFall` | src/control/flight_control.c:154-173 | with the relaxation the condition is needed: an axis whose output falls when its setpoint rises |
| `PidLaws.RateLowers` | src/control/flight_control.c:152-202 | with the state held and no dynamic boost, the output does not rise when the rate does |
| `PidLaws.BoostMayRaise` | src/control/flight_control.c:179-198 | with the boost the condition is needed: an axis whose output rises when its rate does |
| `PidLaws.DampingOpposes` | src/control/flight_control.c:175-198 | whatever the boost: a rate that has risen, and was not falling before, has the D term push the output down, one that has fallen up |
| `PidLaws.FirstPush` | src/control/flight_control.c:143-203 | from nothing, an axis that is to turn one way and does not, or turns the other way, pushes that way |
| `PidLaws.LeadGrows` | src/control/flight_control.c:130-141 | feedforward never works against a rising setpoint |
| `PidLaws.IntegralAccumulates` | src/control/flight_control.c:164-174 | the integral takes in error times gain times time, within 30 |
| `PidLaws.BoostThresholds` | src/control/flight_control.c:179-187 | the boost waits for 150 degrees per second or 900 per second squared, and is full exactly from 500 or 4500 on |
| `PidLaws.RelaxThresholds` | src/control/flight_control.c:154-163 | the integral is held back by no setpoint that stands still, and stopped exactly by one 20 degrees per second off its average |
| `FlightDirections.MotorTorques` | src/control/flight_control.c:487-540 | left against right motors is four times the roll output that reaches them, front against rear the pitch output, one diagonal against the other the yaw output |
| `FlightDirections.MotorsFollow` | src/control/flight_control.c:487-540 | so the left motors are higher for a roll to the right, the front ones to pitch up, and the front right and rear left ones to yaw right |
| `FlightDirections.AirReaches` | src/control/flight_control.c:456-540 | in airmode some of every correction reaches the motors |
| `FlightDirections.FirstAnswer` | src/control/flight_control.c:429-487 | from the sticks and the gyro: a stick to the right, or a craft rolling left, has the motors roll it right; a stick pulled back, or a nose going down, pitches it up; likewise yaw, the other way if the motors are reversed |
| `FlightDirections.LoopsAskedFor` | src/control/flight_control.c:431-486 | each loop has its own stick, direction, gains and gyro axis, in either channel order |
| `FlightDirections.TorqueLimits` | src/control/flight_control.c:461-487 | no loop asks for more than 35, 35 and 25 % of the motors |
| `FlightDirections.StickRate` | src/control/flight_control.c:112-117 | the rate asked for has the direction of the stick and is the whole rate at its ends |
| `FlightDirections.CurveShape` | src/control/flight_control.c:114-116 | the stick curve is odd, lies between the stick and its linear share, and is the stick at the end |
| `FlightDirections.StickScale` | src/control/flight_control.c:106-110 | 500 microseconds are a full stick, and no more than that |
| `FlightDirections.ThrottleScale` | src/control/flight_control.c:317-319 | 1000 to 2000 microseconds are 0 to 100 % in proportion, and nothing outside counts |
| `FlightDirections.ReadyMeans` | src/control/flight_control.c:320-334 | ready to arm is a valid link, the arm channel in its range and the throttle stick at 1050 microseconds or below |
| `FlightDirections.AirmodeBegins` | src/control/flight_control.c:456-489 | airmode begins at 1100 microseconds of throttle; until then the authority of the loops grows with the stick from none at 1000 |
| `FlightDirections.SaturationNoted` | src/control/flight_control.c:537 | the next update holds the integrals exactly if the corrections were scaled below 99.9 % |
| `FlightDirections.Attenuation` | src/control/flight_control.c:441-448 | gains are attenuated above the breakpoint only, and by the whole attenuation at full throttle |
| `FlightDirections.ImplicitEuler` | src/control/flight_control.c:119-128 | a filter step is an implicit Euler step: what is left to the input is the time constant times the rate of change |
| `FlightDirections.TimeConstants` | src/control/flight_control.c:91-98 | the time constants are those of the cut-off frequencies, 3 ms and 90 ms |
| `FlightDirections.DshotSteps` | src/drivers/motors/dshot.c:660-665 | percentages become the DSHOT steps of 48 to 2047 that they have reached, and 0 stops |
| `FlightDirections.BiasIsMean` | src/control/flight_control.c:350-389 | the bias of a craft held still is the mean of its 8000 samples |
| `FlightDirections.MovingRestarts` | src/control/flight_control.c:359-378 | moving samples are not taken in, and the sixteenth in a row starts the calibration again |
| `FlightDirections.StillCounts` | src/control/flight_control.c:379-385 | every other sample is taken in and ends such a row |
| `FlightDirections.CalibrationFails` | src/control/flight_control.c:340-391 | a calibration counts as failed exactly from five seconds on until one succeeds |
| `Mixer.AirOptimal` | src/control/flight_control.c:509-516 | in airmode the scale is the largest in [0, 1] for which any base fits, and the base is the feasible one nearest the request |
| `Mixer.GroundOptimal` | src/control/flight_control.c:517-534 | before airmode the base is the request and the scale is the largest in [0, 1] that fits on it |
| `Mixer.Mix` | src/control/flight_control.c:498-540 | the loops keep every output within idle and 100, with the mean equal to the base |
| `Mixer.Extremes` | src/control/flight_control.c:498-503 | the loop finds the least and the greatest correction |
| `SettingsBackup.OnlyCommitChangesLive` | src/protocol/settings_backup_protocol.h:111-127 | live settings change only by a safe commit whose save succeeds, to exactly the contiguous chunks received, complete, with the announced CRC and valid; flash then holds them |
| `SettingsBackup.FailedSaveRollsBack` | src/protocol/settings_backup_protocol.h:118-125 | a commit whose save fails leaves the settings that were live |
| `SettingsBackup.CorruptionRefused` | src/protocol/settings_backup_protocol.h:114-117 | a payload that differs from the announced one in one byte, at any position, is refused and changes nothing |
| `SettingsBackup.SnapshotRestores` | src/protocol/settings_backup_protocol.h:42-127 | reading a snapshot in any chunking and sending it back restores exactly its bytes, in memory and in flash, or rolls back; that a snapshot is valid is part of the invariant |
| `SettingsBackup.RelayAllCopies` | src/protocol/settings_backup_protocol.h:55-110 | any sequence of chunk reads sent back as chunk writes rebuilds the snapshot in the staging buffer |
| `SettingsBackup.Abandoned` | src/protocol/settings_backup_protocol.h:34-41 | unsafe moments, timeouts, cancels and bad commands leave nothing of a restore |
| `SettingsBackup.ForeignChangesNothing` | src/protocol/settings_backup_protocol.h:76-89 | over any run of commands: without a restore begun for this target, version 28 and 252 bytes, neither the live settings nor flash change |
| `SettingsBackup.InfoAnnounces` | src/protocol/settings_backup_protocol.h:42-52 | the answer to GET_SETTINGS_INFO is the checksum of the snapshot taken |
| `SettingsBackup.HexRoundTrip` | src/protocol/settings_backup_protocol.h:61-68 | hex text of any bytes parses back to the same bytes |
| `SettingsBackup.PairRoundTrip` | src/protocol/settings_backup_protocol.h:22-28 | two digits of a byte give the byte back |
| `SettingsBackup.KnownHex` | src/protocol/settings_backup_protocol.h:22-28 | high digit first, in capitals; digits of either case are read |
| `SettingsBackup.ProcessInv` | src/protocol/settings_backup_protocol.h:29-131 | every command keeps the invariant: the staging prefix is the chunks, live settings validate |
| `SettingsPort.Port.Process` | src/protocol/settings_backup_protocol.h:29-131 | the command processor on fields and staging array is the specified step |
| `SettingsPort.Port.Stage` | src/protocol/settings_backup_protocol.h:98-106 | the digit loop stores the bytes of the leading good pairs and stops at a bad one |
| `SettingsPort.Port.TakeChunk` | src/protocol/settings_backup_protocol.h:90-110 | a chunk is checked against the bytes received and staged as specified |
| `SettingsPort.Port.Commit` | src/protocol/settings_backup_protocol.h:111-127 | the commit with its checks, set, save and roll-back is the specified step |
| `SettingsPort.Port.Text` | src/protocol/settings_backup_protocol.h:60-68 | the loop writes the hex text of a stretch of the snapshot |
| `SettingsPort.Port.NameEnds` | src/protocol/settings_backup_protocol.h:115 | the search finds a terminator in the pilot name if and only if there is one |
| `Crc32.Compute` | src/protocol/settings_backup_protocol.h:11-21 | the byte and bit loops compute the checksum that `Crc32.CrcIsRemainder` divides out |
| `Crc32.AbsorbLossless` | src/protocol/settings_backup_protocol.h:16-19 | a byte step is injective in the register and in the byte |
| `Checksums.SingleByteDetected` | src/protocol/settings_backup_protocol.h:11-21 | for any checksum whose byte step is lossless: data of any length differing in exactly one byte leave different registers |
| `Crc32.CorruptionDetected` | src/protocol/settings_backup_protocol.h:11-21 | payloads of any length differing in exactly one byte have different checksums |
| `Crc32.CrcIsRemainder` | src/protocol/settings_backup_protocol.h:11-21 | the checksum, its bits reflected and inverted, is the remainder of the data, their first 32 bits inverted and 32 zeros behind, by the polynomial with exponents 32, 26, 23, 22, 16, 12, 11, 10, 8, 7, 5, 4, 2, 1, 0 |
| `Polynomials.FoldDivides` | src/protocol/settings_backup_protocol.h:11-21 | any register whose turn is a step of long division holds the remainder of the data by the generator |
| `Polynomials.FedDivides` | src/protocol/settings_backup_protocol.h:11-21 | feeding bits one by one is dividing the register and the bits as one dividend |
| `Settings.InitValid` | src/storage/flight_settings.c:607-990 | whatever flash holds, the settings that start up are valid if and only if flash offers valid ones, in this format or the one before, or the defaults of the board are valid |
| `Settings.SaveThenInit` | src/storage/flight_settings.c:1051-1095 | saved settings are the settings that start up |
| `Settings.MigrationKeeps` | src/storage/flight_settings.c:624-643 | a version 27 record keeps its 62 fields and takes the video mode from the defaults |
| `Settings.UartsApart` | src/storage/flight_settings.c:430-494 | in valid settings receiver and video transmitter are on different UARTs of the board |
| `Settings.ComputeChecksum` | src/storage/flight_settings.c:301-309 | the checksum loop computes the specified hash |
| `Fnv.Run` | src/storage/flight_settings.c:301-319 | the FNV-1a loop computes the hash |
| `Fnv.KnownHashes` | src/storage/flight_settings.c:301-319 | the published FNV-1a values of no data and of one letter |
| `Checksums.Chained` | src/storage/flight_log.c:60-69 | hashing piece by piece is hashing the concatenation |
| `Sbus.FedIsScan` | src/drivers/receiver/sbus.c:233-262 | handling a stream in pieces, wherever it is cut, is one greedy scan of the whole stream |
| `Sbus.ScanStep` | src/drivers/receiver/sbus.c:233-262 | one byte more: the incremental step continues the offline scan, for SBUS with resynchronisation and for CRSF |
| `Sbus.ScanPending` | src/drivers/receiver/sbus.c:233-262 | what is pending begins with a sync byte and is shorter than a frame |
| `Sbus.CorruptedFrameIgnored` | src/drivers/receiver/sbus.c:133-146 | a CRSF frame with one wrong byte behind its header carries nothing |
| `Sbus.ChannelsArrive` | src/drivers/receiver/sbus.c:101-118 | packed channels of a good frame are the channels handed on, scaled |
| `Sbus.ScaleInRange` | src/drivers/receiver/sbus.c:113-171 | both scalings are monotone and stay within 880 to 2159 microseconds |
| `Sbus.SbusNearest` | src/drivers/receiver/sbus.c:114 | SBUS: the nearest microsecond to five eighths of the value above 880; 192, 992 and 1792 are 1000, 1500 and 2000 |
| `Sbus.CrsfNearest` | src/drivers/receiver/sbus.c:168-171 | CRSF: 172 to 1811 are 988 to 2012 to the nearest microsecond, 992 is 1500, and what is outside counts as the end |
| `Sbus.SbusFrameArrives` | src/drivers/receiver/sbus.c:91-117 | from sixteen channels, packed behind the sync byte, with any flags and a good end byte: the frame is found and its channels, scaled, are taken exactly if the failsafe bit is clear |
| `Sbus.CrsfFrameArrives` | src/drivers/receiver/sbus.c:133-174 | from sixteen channels, packed behind address, length and type with their CRC-8: the frame is found and its channels are taken |
| `SbusLink.ReportedIsScanned` | src/drivers/receiver/sbus.c:233-262 | the frames and rejections the driver acts on, however the stream is cut, are those of the scan |
| `SbusLink.LinkVerdict` | src/drivers/receiver/sbus.c:263-287 | over any stream from start-up: the link is in failsafe if and only if flagged frames have come for 100 ms without one that clears the flag, timed out if and only if otherwise the last frame is 100 ms old on the 32-bit clock (or came at its zero), and up in every other case |
| `SbusLink.NoLink` | src/drivers/receiver/sbus.c:274-287 | before the first frame the link is timed out |
| `SbusLink.FailsafeConfirmed` | src/drivers/receiver/sbus.c:91-102 | the failsafe holds if and only if the last frame came at least 100 ms after the first of the flagged ones in force |
| `SbusLink.UpIsFresh` | src/drivers/receiver/sbus.c:274-287 | a link that is up has heard a frame within 100 ms if and only if the silence is shorter than a wrap of the 32-bit clock |
| `SbusLink.ChannelsHeld` | src/drivers/receiver/sbus.c:101-118 | the channels are those of the last frame that carries some, whatever frames came after it |
| `SbusLink.Receiver.Update` | src/drivers/receiver/sbus.c:216-303 | after any bytes, and with a pending drop after none, the buffer, channels, counters and failsafe are what the reports of the framer make of the old ones; age and loss are judged from these, and the inverter probe and the recovery after a loss drop what is pending |
| `SbusLink.Receiver.Judge` | src/drivers/receiver/sbus.c:263-303 | age, loss, inverter probe and recovery at the end of an update are the specified ones |
| `SbusLink.Receiver.UartError` | src/drivers/receiver/sbus.c:322-330 | an error of the line has what is pending dropped, and postpones the recovery |
| `SbusLink.Receiver.Overrun` | src/drivers/receiver/sbus.c:308-320 | a byte that finds the ring full has what is pending dropped |
| `SbusLink.Receiver.HandleAll` | src/drivers/receiver/sbus.c:233-262 | the byte loop makes of the bytes what the framer reports of them |
| `SbusLink.Receiver.Handle` | src/drivers/receiver/sbus.c:233-262 | one byte is framed, and decoded or counted as specified |
| `SbusLink.Receiver.Take` | src/drivers/receiver/sbus.c:233-262 | the byte step on the frame buffer, with indices in bounds, is the specified one |
| `SbusLink.Receiver.ResyncFrame` | src/drivers/receiver/sbus.c:57-67 | the loop and memmove bring the next sync byte to the front |
| `SbusLink.Receiver.MoveFront` | src/drivers/receiver/sbus.c:59-63 | the memmove leaves the tail of the frame at the front |
| `SbusLink.Receiver.Decode` | src/drivers/receiver/sbus.c:69-179 | channels, counters, time stamp and failsafe after a frame are the specified ones |
| `Channels.UnpackPacked` | src/drivers/receiver/sbus.c:108-117 | unpacking what a little-endian packer wrote gives the 16 channels back |
| `Channels.PackUnpacked` | src/drivers/receiver/sbus.c:108-117 | packing what was unpacked gives the 22 bytes back |
| `Channels.Unpack` | src/drivers/receiver/sbus.c:104-117 | the accumulator loop computes the 16 eleven-bit digits of the 176-bit payload, its accumulator below 2^19 |
| `Crc8.Compute` | src/drivers/receiver/sbus.c:121-131 | the loops compute the checksum that `Crc8.CrcIsRemainder` divides out |
| `Crc8.AbsorbLossless` | src/drivers/receiver/sbus.c:121-131 | a byte step of the CRC-8 is injective in the register and in the byte |
| `Crc8.CrcIsRemainder` | src/drivers/receiver/sbus.c:121-131 | the checksum is the remainder of the data, eight zeros behind, by x^8 + x^7 + x^6 + x^4 + x^2 + 1 |
| `FourWay.ScanStep` | src/protocol/esc_passthrough.c:493-521 | the byte-wise parser finds exactly the frames of an offline scan and then looks for an escape again |
| `FourWay.ProcessedIsEncoded` | src/protocol/esc_passthrough.c:511-517 | a frame is carried out with a command, address and payload if and only if it is their encoding; length byte 0 stands for 256 |
| `FourWay.EncodedProcessed` | src/protocol/esc_passthrough.c:493-521 | an encoded frame in front of any stream is carried out, and the scan goes on behind it, or ends there after an exit command |
| `FourWay.CorruptedFrameRefused` | src/protocol/esc_passthrough.c:511-517 | one wrong byte, other than escape and length, is answered with a checksum error |
| `FourWay.KnownFrames` | src/protocol/esc_passthrough.c:493-521 | two frames byte for byte, a write and an exit: numbers are big-endian, the checksum is that of the bytes before it, and only the exit ends the session |
| `FourWay.LongestFrame` | src/protocol/esc_passthrough.c:493-521 | the length byte 0 announces 256 bytes |
| `FourWay.Parser.Consume` | src/protocol/esc_passthrough.c:493-521 | the parser on its fields and payload array is the specified step |
| `FourWay.Parser.Cover` | src/protocol/esc_passthrough.c:500-509 | header and payload bytes extend what the checksum covers |
| `Crc16.Update` | src/protocol/esc_passthrough.c:95-104 | the loop is one step of the checksum that `Crc16.CrcIsRemainder` divides out |
| `Crc16.AbsorbLossless` | src/protocol/esc_passthrough.c:95-104 | a byte step is injective in the register and in the byte |
| `Crc16.CrcIsRemainder` | src/protocol/esc_passthrough.c:95-104 | the checksum is the remainder of the data, sixteen zeros behind, by x^16 + x^12 + x^5 + 1 |
| `SoftUart.WriteByte` | src/protocol/esc_passthrough.c:152-164 | the do-while loop emits the bits of the shifted word up to its highest one |
| `SoftUart.ElevenSymbols` | src/protocol/esc_passthrough.c:152-164 | for any byte exactly eleven symbols: idle, start bit, eight data bits, stop bit |
| `SoftUart.ReadByte` | src/protocol/esc_passthrough.c:131-150 | the sampling loop gives the byte, or nothing if start or stop bit is wrong |
| `SoftUart.ByteArrives` | src/protocol/esc_passthrough.c:131-164 | a reader at most 12 ticks late recovers every byte written |
| `SoftUart.LateReaderFails` | src/protocol/esc_passthrough.c:138-147 | from 13 to 64 ticks late the reader loses some byte: the bound is exact |
| `BootLink.Send` | src/protocol/esc_passthrough.c:166-179 | the bytes put on the line are the data and, low byte first, their checksum |
| `BootLink.Receive` | src/protocol/esc_passthrough.c:188-203 | data are taken if and only if the reads are those data, their checksum when connected, and the acknowledgement |
| `BootLink.CorruptedAnswerRefused` | src/protocol/esc_passthrough.c:188-203 | an answer with one wrong byte, anywhere, delivers no data of that length |
| `BootLink.AnswerArrives` | src/protocol/esc_passthrough.c:131-203 | an answer sent bit by bit arrives at a reader that is at most 12 ticks late on each byte |
| `BootLink.Update` | src/protocol/esc_passthrough.c:106-115 | the loop is one step of the checksum that `BootLink.ModbusIsRemainder` divides out |
| `BootLink.TakeLossless` | src/protocol/esc_passthrough.c:106-115 | a byte step is injective in the register and in the byte |
| `BootLink.ModbusIsRemainder` | src/protocol/esc_passthrough.c:106-115 | the checksum, its bits reflected, is the remainder of the data, each byte lowest bit first, by x^16 + x^15 + x^2 + 1 |
| `BootLink.KnownAnswers` | src/protocol/esc_passthrough.c:166-203 | data, the checksum low byte first if connected, and 0x30 last |
| `HdzeroMsp.ScanStep` | src/drivers/osd/hdzero_msp.h:99-137 | the byte-wise parser acts on exactly the requests of an offline scan |
| `HdzeroMsp.ActedOnIsEncoded` | src/drivers/osd/hdzero_msp.h:105-130 | a frame is acted on if and only if it is the v1 or v2 encoding of that command and payload |
| `HdzeroMsp.EncodedActedOn` | src/drivers/osd/hdzero_msp.h:99-137 | an encoded request in front of any stream is acted on and the scan goes on behind it |
| `HdzeroMsp.OversizedSkipped` | src/drivers/osd/hdzero_msp.h:119-134 | nothing inside an oversized frame is acted on; the parser goes on right behind its checksum |
| `HdzeroMsp.KnownFrames` | src/drivers/osd/hdzero_msp.h:99-137 | a v1 and a v2 request byte for byte: order of the header fields, low byte first, and what each checksum covers |
| `HdzeroMsp.LongestPayload` | src/drivers/osd/hdzero_msp.h:119-130 | payloads of 64 bytes are acted on if the checksum fits, longer ones never |
| `HdzeroMsp.Parser.Receive` | src/drivers/osd/hdzero_msp.h:99-137 | the parser on its fields and buffers is the specified step, after dropping what is pending on a pause |
| `HdzeroMsp.Parser.EndHeader` | src/drivers/osd/hdzero_msp.h:115-120 | the header decides between payload, checksum and skipping |
| `HdzeroMsp.Parser.Skip` | src/drivers/osd/hdzero_msp.h:131-134 | an oversized frame is counted down to its last byte |
| `TxRing.Ring.EnqueuePacket` | src/drivers/osd/msp_displayport.c:69-97 | a packet is queued whole, as its encoding, if and only if it fits; otherwise nothing changes but the status |
| `TxRing.Ring.EnqueueByte` | src/drivers/osd/msp_displayport.c:60-67 | a byte is stored if and only if a cell is free |
| `TxRing.Ring.Drain` | src/drivers/osd/msp_displayport.c:211-257 | at most one byte leaves, the oldest, when the transmitter is ready |
| `TxRing.WholePacketsInOrder` | src/drivers/osd/msp_displayport.c:69-97 | at any moment the wire carries whole packets in order and at most the beginning of the next |
| `SmartAudio.CommandsBounded` | src/drivers/vtx/vtx_smartaudio.c:96-213 | at most 440 commands are ever sent, plus one for each armed update |
| `SmartAudio.Ends` | src/drivers/vtx/vtx_smartaudio.c:159-213 | a run that is never armed ends: after at most 1320 updates past a deadline it is done or failed |
| `SmartAudio.EndsInTime` | src/drivers/vtx/vtx_smartaudio.c:159-213 | with updates at most g ms apart, a run that is never armed is done or failed after 1320 (1000 + g) ms, across any wraps of the clock |
| `SmartAudio.UpdateWithin` | src/drivers/vtx/vtx_smartaudio.c:159-213 | no update adds work, one past its deadline removes some, and an armed one costs at most one query |
| `SmartAudio.AppliedIsConfirmed` | src/drivers/vtx/vtx_smartaudio.c:96-135 | APPLIED is shown only after a checksummed readback with the wanted channel, mode, frequency and power |
| `SmartAudio.SilentWhenArmed` | src/drivers/vtx/vtx_smartaudio.c:163-167 | an armed update transmits nothing and sends no command |
| `SmartAudio.ChangeWithin` | src/drivers/vtx/vtx_smartaudio.c:104-107 | a correction costs one of twenty changes, worth more than all the queries after it |
| `SmartAudio.PausesKept` | src/drivers/vtx/vtx_smartaudio.c:67-94 | nothing is sent in the first second, for a second after an armed update, or for 200 ms after an answer to a correction or a missing one |
| `SmartAudioDevice.DeviceIsConfigured` | src/drivers/vtx/vtx_smartaudio.c:96-213 | with a device of any version, on any channel and at any power, that does what it is told and has the wanted level: some run in which it hears every command ends with the wanted channel, frequency and power on the device, and APPLIED |
| `SmartAudioDevice.ReportAnswered` | src/drivers/vtx/vtx_smartaudio.c:96-135 | a report of another channel has the wanted channel sent, one of another power the wanted power, and one of both right ends the configuration |
| `SmartAudioDevice.CommandBytes` | src/drivers/vtx/vtx_smartaudio.c:48-66 | the bytes of the query and of the two corrections |
| `SmartAudioDevice.PowerTable` | src/drivers/vtx/vtx_smartaudio.c:122-127 | the levels of 25, 200, 500 and 800 mW for devices of version 1 and 2, and of nothing else |
| `SmartAudioPort.Port.Update` | src/drivers/vtx/vtx_smartaudio.c:159-213 | the update on fields and buffers is the specified step, and silent when armed |
| `SmartAudioPort.Port.Transmit` | src/drivers/vtx/vtx_smartaudio.c:172-187 | the transmit phase sends the next byte of the frame, or waits for the answer, as specified |
| `SmartAudioPort.Port.Receive` | src/drivers/vtx/vtx_smartaudio.c:139-157 | the receive step on the buffer is the specified one, its index in bounds |
| `SmartAudioPort.Port.ReceiveAll` | src/drivers/vtx/vtx_smartaudio.c:198-208 | the bounded receive loop is the specified run of bytes |
| `SmartAudioPort.Port.ProcessSettings` | src/drivers/vtx/vtx_smartaudio.c:96-135 | the readback is judged as specified |
| `SmartAudioPort.Port.SendCommand` | src/drivers/vtx/vtx_smartaudio.c:48-65 | the frame and the new state are the specified ones |
| `SmartAudioPort.Port.BuildFrame` | src/drivers/vtx/vtx_smartaudio.c:51-54 | the transmit buffer holds the frame with its checksum |
| `SmartAudioPort.Port.Offered` | src/drivers/vtx/vtx_smartaudio.c:113-119 | the loop decides whether a listed power level is the wanted one |
| `Scheduler.PhaseKept` | src/app/loop_deadline.h:7-18 | the deadline is the start plus one period for each step and each missed slot, modulo 2^32, and ends less than a period behind the clock |
| `Scheduler.RecoverTrue` | src/app/loop_deadline.h:7-18 | within half a wrap the word arithmetic skips exactly the whole periods that are over |
| `Scheduler.Recover` | src/app/loop_deadline.h:7-18 | the deadline moves on, and the missed slots count, by exactly the whole periods that are over, so it ends less than a period behind the clock; a deadline ahead stays |
| `Scheduler.Advance` | src/app/loop_deadline.h:22-28 | microseconds and remainder conserve the time: q hz + rest is the slots in millionths of a second plus the old remainder, with rest below hz, and the result is q modulo 2^32 |
| `Scheduler.AnySplit` | src/app/loop_deadline.h:22-28 | however slots are split, the same microseconds pass and the same remainder is left |
| `Scheduler.WholeSecond` | src/app/loop_deadline.h:20-28 | hz slots in any split are exactly one million microseconds |
| `Scheduler.FiresAtRate` | src/app/main.c:26-32 | after n steps a task no faster than the loop has fired floor((phase + n rate) / loop rate) times |
| `Scheduler.Task.Due` | src/app/main.c:26-32 | the phase conserves the rate: what goes in comes out as firings or stays |
| `FlightLogRing.Fly` | src/storage/flight_log.c:489-492 | over any calls of flight_log_record the ring takes exactly one sample for each 2 ms slot of true time in which a call falls |
| `FlightLogRing.DistinctSlots` | src/storage/flight_log.c:489-492 | accepted times lie in distinct slots of the 2 ms grid that begins with the flight, in order |
| `FlightLogRing.EverySlotServed` | src/storage/flight_log.c:489-492 | no slot in which a call falls is left out: a sample of it, no later than the call, is accepted |
| `FlightLogRing.SlotsOfASecond` | src/storage/flight_log.c:491 | 500 slots to the second, the first of them two milliseconds long |
| `FlightLogRing.EvictionCount` | src/storage/flight_log.c:496-498 | samples kept and samples counted as evicted are all that were taken, until the count saturates at 65535 |
| `FlightLogRing.SlotWords` | src/storage/flight_log.c:489-492 | the wrapping next_log_us follows the true grid while calls are less than half a wrap apart |
| `FlightLogRing.StoreFits` | src/storage/flight_log.c:493-532 | storing with room left appends to the log |
| `FlightLogRing.StoreEvicts` | src/storage/flight_log.c:493-532 | storing into a full ring drops the oldest sample |
| `FlightLogRing.Log.Store` | src/storage/flight_log.c:493-532 | the ring holds the newest min(n, capacity) samples oldest first, with the saturating eviction count |
| `FlightLogRing.Log.Record` | src/storage/flight_log.c:416-533 | exactly the due samples are stored, and throttle qualifies the flight |
| `FlightLogRing.Log.RamRecord` | src/storage/flight_log.c:77-83 | the index arithmetic finds the i-th oldest sample |
| `FlightLogRing.Log.EmptyRam` | src/storage/flight_log.c:195-202 | the ring is empty and nothing taken into it counts any more |
| `FlightLogRing.Log.Start` | src/storage/flight_log.c:190-241 | a start empties the ring and remembers the saved log, unless inhibited |
| `FlightLogRing.Log.Stop` | src/storage/flight_log.c:243-280 | an unqualified flight gives the saved log back; any other ends with a marker and asks to be saved |
| `FlightLogRing.Log.SetInhibited` | src/storage/flight_log.c:165-171 | inhibiting stops the recording and loses no sample |
| `FlightLogRing.Log.Get` | src/storage/flight_log.c:308-319 | the reader gets the i-th sample of the stored log, and nothing while recording or beyond its end |
| `FlightLogRing.Log.ChainedHash` | src/storage/flight_log.c:361-368 | the record-by-record checksum is the hash of the concatenated records |
| `FlightLogRing.Log.PersistIfReady` | src/storage/flight_log.c:341-413 | a save that is due writes header and records of the log; the stored log is the same before and after |
| `FlightLogRing.Log.Init` | src/storage/flight_log.c:119-163 | start-up offers the log in flash if and only if its header and checksum hold |
| `FlightLogRing.SavedIsLoadable` | src/storage/flight_log.c:341-407 | a saved log passes the start-up checks and is the same sequence of records |
| `FlightLogRing.SaveAndRestart` | src/storage/flight_log.c:341-413 | saved and switched off and on again, the reader sees the same log |
| `OsdFramebuffer.ShowsLastScreen` | src/drivers/osd/osd_framebuffer.h:25-48 | after the last publish, 480 calls, or as many as cells differ and 30 more, make the chip show exactly that screen, whatever was half drawn |
| `OsdFramebuffer.ScanSteps` | src/drivers/osd/osd_framebuffer.h:33-48 | what is displayed is what the chip shows; a call writes at most one cell, and scans its whole budget unless it writes or is finished |
| `OsdFramebuffer.Progress` | src/drivers/osd/osd_framebuffer.h:33-48 | each call makes progress; the screen shown is the displayed one at every step |
| `OsdFramebuffer.Framebuffer.Next` | src/drivers/osd/osd_framebuffer.h:33-48 | the loop over the arrays is the specified scan of at most sixteen cells |
| `OsdFramebuffer.Framebuffer.Publish` | src/drivers/osd/osd_framebuffer.h:25-31 | the desired screen is replaced and the scan starts over |

## Left out

- FlashRuns.CrashSafety: excludes a user clear (its interruption is not crash safe by design), calls during a commit (see above) and runs with so many starts that the 32-bit flight id wraps (see `FlashReach.LastIdShadows`); block erase is atomic.
- FlashLog.Log and SdLog.Log keep the scalar static variables together in one field `v`; only the rings, buffers and tables are separate fields, so aliasing between scalars is not captured.
- FlashLog.Log.Start: does nothing on top of an operation still in flight in phase Ready, which only a call during a commit makes possible.
- Flash log: diagnostics, `written_bytes`, JEDEC parsing, reset timing and the write and session tests are left out.
- SD log: timestamps, `written_bytes`, the decoding of metadata and the SPI initialisation are left out; a sector that fails its magic number, version or checksum is the one value `Junk`, so checksum collisions are not considered; a failed read leaves the read cache as it was; one card stays in the slot.
- FlightControl.FlyingMotors: over real numbers; IEEE rounding and the caching of filter coefficients are not modelled.
- Flight control: calls into the flight log are left out, and the `flight_control_set_` functions are one event with valid values.
- Settings.InitValid: the defaults of the board are a parameter; boards without a UART mask, the side effects of `apply`, the Flywoo UART move and formats older than 27, which the version check in front of them makes unreachable, are left out.
- SettingsPort.Port.Process: commands arrive parsed; the text of replies is left out.
- SbusLink.Receiver.Update: takes the bytes of the interrupt ring as a parameter; the diagnostic counters of errors, overruns and recoveries are left out.
- ESC passthrough: the MSP front end, the execution and the responses of 4-way commands, and the bootloader commands above `boot_send` and `boot_receive` are left out; the start-bit timeout of the UART is a parameter.
- HDZero: the answers to requests, the RF configuration and the status text are left out; they would add only one-step members.
- MSP DisplayPort: the OSD layout and the strings are left out.
- SmartAudio: the power in dBm is a parameter in place of a rounded logarithm; band tables and UART set-up are left out. The Tramp protocol is left out: its mismatch loop has no limit, so it does not end.
- Scheduler.PhaseKept: for clock readings within half a 32-bit wrap of the deadline, and without the explicit re-anchoring after sensor failures.
- FlightLogRing.Log.Record: the scaling of floats into record bytes is a parameter; the feeding of the persistent log is left out.
- FlightLogRing.Log.PersistIfReady: a failed save leaves an arbitrary flash content, given as a parameter.
- Board bring-up, sensors, USB, configuration text, OSD fonts and menus are left out.
