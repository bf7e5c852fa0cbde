# A verified model of the InterWave sound driver

The driver plays and records 16-bit stereo sound on AMD InterWave cards. Any number of threads
write into (or read from) the back half of a double buffer while ISA DMA plays (or fills) the
front half; an interrupt handler swaps the halves and releases a home-made counting mutex on
behalf of the threads. Around that core the driver opens and closes the device with two
semaphores, finds DMA memory that crosses no 64K boundary, drives the codec through an
index/data port pair, and offers the card's local memory as a disk.

## How it is modelled

* **Interleavings** are transition systems: a state, labelled steps, and runs (`Runs.Exec`).
  `CountingMutex` has one step per atomic operation of `mutex.c`; `Ring` puts the threads, the
  spinlock, the reservation and the interrupt handler on top of it, the same for playback and
  recording; `Playback` and `Record` add the bytes, the DMA and the histories, and `Playout` what
  is heard. `RingRuns` says that their runs are runs of the ring, and `Progress` that the ring's
  calls end. `Lifecycle` is the open/close protocol, `SampleCounter` the codec's counter against the
  DMA's position, and `Interrupts` the handler against the codec's flags. Threads, steps and run
  lengths are unbounded.
* **Driver state** is held in classes: `PcmPlayback.Device` and `PcmRecord.Device` with the DMA
  area as an array (`Halves` cuts it into the two halves and what lies around them),
  `CountingMutex.DriverMutex`, `CardHandler.Card`, `LowMemory.Card`, `StartDma.Card`,
  `CodecRegisters.Codec`, `SoundParams.Mixer`, `LocalMemory.Memory` and `Disk.Device`. The two PCM
  classes carry a ghost state of the transition system and the run that led to it. Each method is
  a stretch of code that runs without interference, for whatever thread, and the class invariant
  says that the arrays are in a state that a run of the system has reached, so that its theorems
  apply to them. `PcmWriters` and `PcmReaders` put the methods together: any number of threads
  inside `pcm_write` (or `pcm_read`) at once, each at its own place in the loop with its own local
  variables, under any schedule, with the card moving one byte at a time and the handler called
  between any two pieces of anybody's code. They return the calls that the schedule has made and
  what those have returned, and relate them to the stream. `WriterProgress` and `ReaderProgress` say
  of such schedules that a call goes on unless it is blocked in the semaphore, and that all calls
  return. `CardHandler` puts both rings in one area, with the codec's flags between the card and the
  handler.
* **Numbers** of the card and of C are written out where a contract is about them: bits, register
  indices, masks and limits are literals there, and names only in the code that the contract is about.
* **Devices** are assumptions of the model, taken from what the driver's comments say of them:
  with LMCI[0] set the local memory address advances by what was moved, words are little-endian
  and LMCI[1] selects ROM; a data format register only changes while CIDXR[6] is set; writing
  CSR1R clears every codec interrupt flag; a sample-count interrupt comes when the loaded count
  is exceeded.
* **Timing** is not assumed. Every step that the code or the card can make at a moment is a step of
  the systems: the DMA moves on whether or not the handler has swapped; the handler swaps whether or
  not a memcpy, which is outside the spinlock, has been done, and whether or not a half has ended.
  The histories remember what was in time, half by half and byte by byte: of a half handed over for
  playing, whether nothing was in flight to it when it was opened to the writers (`clean`) and when it
  was closed (`landed`); of a half that was silenced, whether nothing was in flight to it then
  (`calm`); of a recorded byte, whether the DMA stored over it before it was reserved (`overtaken`) or
  between its reservation and its copy (`spoilt`); and whether ends of halves and interrupts have not
  come in turn (`astray`). Each theorem about contents names what it needs of these. The code
  guarantees none of them: `PlaybackMishaps` and `RecordMishaps` have a run for each.

Outcomes where the code does not do what one would expect of it, each with a concrete input and
the exact condition under which it does:

* The header comment of `mutex.c` (line 8) says that the semaphore's count never goes above 1. A
  handler that releases between the two halves of an acquire makes it 2
  (`CountingMutex.CountReachesTwo`); a release does so exactly if it finds a free token and a
  thread that has counted itself in (`ReleaseOvershoots`). With one-step acquires, or if only
  holders release, the comment holds (`CoarseCountBound`, `HolderExclusion`).
* The comment in `pcm_close` (lines 178-179) says that openers wait for a teardown to end. The
  first opener does; a second one can return during the teardown
  (`Lifecycle.OpenReturnsDuringTeardown`), exactly while the last closer has not yet taken
  `init_sem` (`OpenDuringTeardown`).
* A writer that is held up between its reservation and its memcpy misses its half, which is handed
  over with old bytes in it (`PlaybackMishaps.LateCopyMissesItsHalf`), and may spoil a later one
  (`StaleCopySpoilsALaterHalf`) or the silence of an idle device (`LateCopyBreaksSilence`; exactly if its bytes are not silence,
  `Silence.CopyOnSilence`). Every half is right to which nothing was in flight when it was opened
  and when it was closed (`Playback.StreamFidelity`); and one to which nothing was in flight when it was
  opened is right if and only if each chunk still in flight to it brings the bytes that are there already
  (`HandedRightExactly`).
* A reader that is held up so long is given newer bytes than it reserved
  (`RecordMishaps.LateCopyGetsNewByte`), and one that comes when the handler is late reserves a mixture of
  two halves (`LateServiceMixesHalves`). All other bytes are right (`Record.RecordFidelity`).
* A handler that is late by more than a half, or is called although no half has ended, puts the driver into
  the half that the card is in (`PlaybackMishaps.LateServiceMeetsDma`, `SpuriousServiceMeetsDma`,
  `RecordMishaps.LateServiceMeetsDma`), until another interrupt is lost or comes in excess
  (`Playout.InStepByParity`, `Record.InStepByParity`). A record flag left over from an earlier session does that, for
  `iw_start_record_dma` does not clear it (`CardHandler.LeftOverFlag`). With clear flags it does not happen
  if and only if each interrupt is handled before the next half ends (`CardHandler.InStepIfPrompt`).
* A request of 2 GB or more is negative as an int, and `pcm_write` and `pcm_read` return having
  moved nothing (`Playback.HugeWriteMovesNothing`, `Record.HugeReadMovesNothing`); a call moves what
  it was asked to exactly if that is less (`Playback.WriteMovesRequest`, `Record.ReadMovesRequest`).
* An empty disk transfer at an odd place decrements a zero length and moves 4 GB, and any transfer
  at an odd place reports one byte less than it moved (`Disk.MovesWhatItShould`).
* An area left by a previous run of the driver is meant to be used again and never is: that run
  has resized it to less than twice the size it needed, which the next run tests for first
  (`LowMemory.ResizedNeverReused`). Only one made under the driver's name by somebody else, or one
  whose resizing failed, can be; the former is only tested for where it starts, so that the chunk
  chosen in it can lie above 16 MB (`LowMemory.ForeignAreaAbove16MB`, exact condition
  `ChunkBelow16MB`; for the latter `WholeAreaStaysLow`).
* The sample counter agrees with the ring exactly for halves of 4 to 262144 bytes in whole samples
  (`SampleCounter.PeriodIsHalf`), and not for 6 bytes or for 262148 (`Uncountable`).
* As writing CSR1R clears every flag, a codec interrupt that comes while the handler is at work is
  cleared without having been served (`Interrupts.RecordLostBehindPlayback`, exact account
  `ServedOrLate`). From then on the driver works in the half that the DMA is in, until another one
  is lost (`SampleCounter.DriverAvoidsDma`).
* The sample clock is right exactly as long as a product fits 64 bits (`Clock.AccurateWhileItFits`),
  and reads 19 microseconds after some 1300 years (`ClockWraps`).

## Model

| member | source | states |
|---|---|---|
| CountingMutex.InvStep | interwave/mutex.c:22-44 | every atomic operation of an acquire or release keeps the conservation law, the token ledger, and the order of the queue |
| CountingMutex.Conservation | interwave/mutex.c:22-44 | in every interleaving of any number of threads and releasers: semaphore value + waiting_count + releases in flight = 1 + threads past the add and not through the semaphore |
| CountingMutex.BlockedIsSeen | interwave/mutex.c:34-37 | while a thread is blocked a release posts, wakes the first in the queue and leaves the count at 0 |
| CountingMutex.CountReachesTwo | interwave/mutex.c:8 | a run after which the semaphore's count is 2 |
| CountingMutex.ReleaseOvershoots | interwave/mutex.c:32-44 | a release takes the count above 1 if and only if a token is free and a thread is between its add and its take |
| CountingMutex.CoarseCountBound | interwave/mutex.c:5-8 | if an acquire is one step, the count is at most 1 in every run, the handler's releases included |
| CountingMutex.HolderExclusion | interwave/mutex.c:5-8 | if only holders release, at most one thread holds the mutex, in every fine-grained run |
| CountingMutex.DriverMutex.Create | interwave/mutex.c:10-20 | a new mutex is the initial state of the protocol: one token, nobody blocked, nobody counted in |
| CountingMutex.DriverMutex.AddWaiter | interwave/mutex.c:24 | the counter add is the protocol's first acquire step, and touches nothing else |
| CountingMutex.DriverMutex.Take | interwave/mutex.c:26 | the semaphore take is the second: a token, or a place at the end of the queue |
| CountingMutex.DriverMutex.Release | interwave/mutex.c:32-44 | a release, undone or not, is the protocol's two release steps; if waiting_count was positive it is decremented and the thread blocked longest goes on, or a token goes back, and otherwise nothing changes |
| Ring.InvStep | interwave/pcm.c:448-486 | every step of any client, of the handler or of the mutex keeps the ring's invariant |
| Ring.RingSafety | interwave/pcm.c:460-474 | in every run the reserved chunks tile [0, was_written) of the back half; counted from the steps, there is at most one more turn than interrupts and releases by clients, the total is interrupts * size, and the bytes reserved are at most total + size |
| Ring.TilesExactly | interwave/pcm.c:471-474 | tiling chunks are pairwise disjoint, all in the back half, and cover exactly [0, was_written) |
| Ring.LockHolderCanMove | interwave/pcm.c:457-478 | whoever has the spinlock, client or handler, always has a next step |
| Ring.ServedInTurn | interwave/pcm.c:599-602 | no lost wake-up: the thread with k others in front of it in the queue has been woken, in its turn, once k+1 interrupts have made their release |
| Progress.StepsEnd | interwave/pcm.c:448-486 | without an interrupt and without new calls, the threads in calls can make only so many steps |
| Progress.RoundMoves | interwave/pcm.c:448-486 | when they can make none, and then an interrupt comes, and they go on until they can make none again, at least one byte has been moved |
| Progress.CallsReturn | interwave/pcm.c:448-491 | so after as many such rounds as there are bytes to move all calls have returned |
| RingRuns.PlayRun | interwave/pcm.c:448-486 | every run of the playback system is a run of the ring |
| RingRuns.RecRun | interwave/pcm.c:512-552 | every run of the record system is a run of the ring |
| Playback.InvRun | interwave/pcm.c:448-486 | every run keeps the ledger of bytes passed in, reserved and still to move; and what the two halves contain, the back half if nothing was in flight to it when it was opened, the front half if nothing was when it was closed |
| Playback.HandOver | interwave/pcm.c:583-590 | once every byte has landed and the rest is padded, a half is its accepted bytes followed by silence |
| Playback.HandedRightExactly | interwave/pcm.c:583-590 | a half into which bytes were accepted, and to which nothing was in flight when it was opened, is handed over right if and only if each chunk still in flight to it brings the bytes that are there already |
| Playback.StreamFidelity | interwave/pcm.c:448-486 | in every run, without any timing, the accepted bytes of the halves handed over and of the one being filled are the stream, and each writer's bytes are in it complete and in order; every half handed over held its accepted bytes followed by silence unless bytes were in flight to that half when it was opened or when it was closed; and the front half still is the last of them unless bytes were in flight to it when it was closed |
| Playback.VolumeRun | interwave/pcm.c:471-474 | in every run the stream is as long as what was_written and the halves before it account for |
| Playback.SwapRemembers | interwave/pcm.c:583-592 | what the history has of a half that is closed: its accepted bytes, its contents, and, in terms of the chunks in flight then, whether it was clean and has landed |
| Playback.FillRemembers | interwave/pcm.c:607-611 | a half that is cleared is remembered as calm if and only if no byte is in flight to it |
| Playback.FetchRemembers | interwave/iwdma.c:180-185 | a byte that the card plays ahead of the handler is remembered, as settled if and only if it has been reserved and no chunk in flight has it |
| Playout.Lockstep | interwave/pcm.c:588-592 | if interrupts are served in turn with the ends of halves, the k-th half ends after exactly k * wr_size bytes, the half that writers fill is not the one the card plays unless an interrupt is waiting, and of the half closed under it the card has played dmaPos bytes |
| Playout.InStepByParity | interwave/pcm.c:588-592 | in every run, whatever has gone astray, halves are played in turn, the k-th to the end after exactly k * wr_size bytes, and the driver's half is the one the card plays if and only if the halves played and the interrupts served add up to an odd number |
| Playout.CardPlaysHalves | interwave/pcm.c:588-592 | then, whatever the copies do, the card has played exactly the halves handed over, in order; of a half to which nothing was in flight when it was closed, what it contained, except for bytes played before it was closed; and of these the ones that had been reserved and copied are right too if nothing was in flight when it was opened |
| Playout.HeardAsHandedOver | interwave/pcm.c:588-592 | a half to which nothing was in flight when opened and closed is heard as it was handed over if every byte played ahead of the handler had been reserved and copied |
| Playback.WriteMovesRequest | interwave/pcm.c:434-488 | between the beginning and the end of a call, with anything in between, the caller's part of the stream grows by exactly the bytes given if and only if their number fits a signed 32-bit int, and otherwise by none |
| Playback.HugeWriteMovesNothing | interwave/pcm.c:434-448 | a run in which 2 GB are accepted and the stream stays empty |
| PlaybackMishaps.LateCopyMissesItsHalf | interwave/pcm.c:477-481 | a run in which a half is handed over with an old byte in place of the one accepted |
| PlaybackMishaps.StaleCopySpoilsALaterHalf | interwave/pcm.c:477-481 | a run in which the same copy, later still, writes over a byte that another thread has put into the half since |
| PlaybackMishaps.LateCopyBreaksSilence | interwave/pcm.c:607-611 | a run in which it writes into a half that has been cleared and counted as silent |
| PlaybackMishaps.LateServiceMeetsDma | interwave/pcm.c:588-590 | a run in which the handler is late by more than a half, and then the card plays the half that writers fill, without an interrupt waiting |
| PlaybackMishaps.SpuriousServiceMeetsDma | interwave/pcm.c:577-590 | a run in which the handler is called although no half has ended, with the same outcome |
| Silence.SilenceRun | interwave/pcm.c:600-612 | every run keeps the silence count in step with the mutex, and with each half that was cleared while nothing was in flight to it |
| Silence.FullCountMeansSilent | interwave/pcm.c:100-102 | in every run wr_silence is 0, wr_size or 2 * wr_size; and if no writer is between acquire and reservation, the last means that both halves are silent, but for one to which bytes were in flight when it was cleared |
| Silence.CopyOnSilence | interwave/pcm.c:480-481 | a copy that lands in a silent half leaves it silent if and only if its bytes are silence |
| Silence.ThreeInterruptsSilence | interwave/pcm.c:599-612 | from any reachable state with no writer in flight, three interrupts without a write bring wr_silence to 2 * wr_size and leave both halves silent, but for one to which bytes were in flight when it was cleared |
| Record.InvRun | interwave/pcm.c:512-552 | every run keeps the account of bytes asked for and given, what each reader has been given byte by byte, what the stream and the back half are byte by byte, and, as long as interrupts come in turn, what the DMA has done |
| Record.RecordFidelity | interwave/pcm.c:512-552 | in every run each reader has been given its share of the stream, complete and in order, each byte right unless the DMA stored over it between its reservation and its copy; the stream is the front part of each half given in turn, each byte right unless the DMA stored over it before it was reserved; and if interrupts come in turn, the halves given to readers are what was recorded, in order and complete |
| Record.CaptureRemembers | interwave/iwdma.c:217-221 | the bytes that the DMA spoils are exactly those in flight out of the place it stores to |
| Record.ReserveRemembers | interwave/pcm.c:537-541 | the bytes overtaken are exactly those reserved from places that the DMA has stored to since the half was given |
| Record.InStepByParity | interwave/pcm.c:638-642 | in every run, whatever has gone astray, halves are recorded in turn, the k-th to the end after exactly k * rd_size bytes, and the readers' half is the one the card records into if and only if the halves recorded and the interrupts served add up to an odd number |
| Record.ReadMovesRequest | interwave/pcm.c:504-554 | between the beginning and the end of a call, with anything in between, the caller is given exactly as many bytes as asked for if and only if that number fits a signed 32-bit int, and otherwise none |
| Record.HugeReadMovesNothing | interwave/pcm.c:504-512 | a run in which 2 GB are asked for and nothing is given |
| RecordMishaps.LateCopyGetsNewByte | interwave/pcm.c:544-548 | a run in which a reader is given a newer byte than the one it reserved |
| RecordMishaps.LateServiceMixesHalves | interwave/pcm.c:537-541 | a run in which a reader reserves a new byte before an old one |
| RecordMishaps.LateServiceMeetsDma | interwave/pcm.c:638-640 | a run in which the handler is late by more than a half, and then the card records into the half that readers read from, without an interrupt waiting |
| PlaybackRuns.TurnSteps | interwave/pcm.c:457-478 | the reservation in pcm_write, from lock to unlock, is a run of the system with the stated outcome |
| PlaybackRuns.Serve | interwave/pcm.c:570-619 | iw_playback_handler is a run of the system with the stated outcome: padded, swapped, accounted, released or silenced |
| RecordRuns.TurnSteps | interwave/pcm.c:524-545 | the reservation in pcm_read is a run of the system with the stated outcome |
| RecordRuns.Serve | interwave/pcm.c:625-660 | iw_record_handler is a run of the system with the stated outcome |
| PcmPlayback.Device.Open | interwave/pcm.c:92-106 | the first client's setup: the ring cleared and nothing else, writers in the second half, the card at the first, a free mutex, and the device in the initial state |
| PcmPlayback.Device.AddWaiter | interwave/pcm.c:452 | the first half of mutex_acquire, with the model keeping up |
| PcmPlayback.Device.TakeSem | interwave/pcm.c:452 | the second half |
| PcmPlayback.Device.TakeBlock | interwave/pcm.c:460-475 | what is reserved, where, and when the next writer is let in |
| PcmPlayback.Device.TakeTurn | interwave/pcm.c:457-478 | the reservation takes the arrays and counters where the system's run takes its state |
| PcmPlayback.Device.CopyHalf | interwave/pcm.c:481 | the memcpy replaces its chunk of one half and nothing else |
| Halves.WrittenIntoHalf | interwave/pcm.c:481 | bytes written into one half of the DMA area change that half and nothing before, between or after |
| PcmPlayback.Device.CopyBlock | interwave/pcm.c:480-485 | so does the memcpy with the pointer updates, in any interleaving: exactly its chunk of the array changes |
| PcmPlayback.Device.Fetch | interwave/iwdma.c:180-185 | the card plays the byte at its place in the array, at any moment, and goes on through both halves, around and around, with an interrupt at the end of each |
| PcmPlayback.Device.PadAndSwap | interwave/pcm.c:583-592 | the padding touches exactly what was not written of the back half; the halves change places, copies in flight or not |
| PcmPlayback.Device.ReleaseOrFill | interwave/pcm.c:599-612 | a waiting client is released, or the new back half is cleared and counted |
| PcmPlayback.Device.PlaybackHandler | interwave/pcm.c:570-619 | the interrupt, whenever it is called and whoever is copying, takes arrays and counters where the system's run takes its state: the half that is closed keeps what was written and is filled up with silence, unless nothing was; the other is cleared exactly if nobody is counted in and the device is not silent yet; and it asks for a reschedule exactly if waiting_count was positive |
| PcmPlayback.Device.WaitForTurn | interwave/pcm.c:450-454 | a lone writer gets its turn whatever interrupts come in between, after one more if it blocked |
| PcmPlayback.Device.WriteBlock | interwave/pcm.c:457-485 | one block of a lone writer goes to the end of the stream and leaves the rest of the request, with any number of interrupts between reservation and copy; without one, nothing is in flight to any half that is opened or closed |
| PcmPlayback.Device.Write | interwave/pcm.c:424-491 | pcm_write of a lone writer, with any number of interrupts at any point, returns, and has appended exactly the requested bytes to the stream, in order (none from 2 GB on); and if no interrupt comes between a reservation and its copy, the stream is in memory: the halves handed over during the call are right, and the filled part of the half that wr_cur points to is the rest |
| PcmPlayback.Device.BackHalfEndsTheStream | interwave/pcm.c:471-485 | if nothing was in flight to the back half when it was opened and nothing is now, its filled part, in the array, ends the stream, after the bytes of all halves handed over |
| PcmPlayback.Device.FrontHalfAsHandedOver | interwave/pcm.c:583-590 | if nothing was in flight to the half that is not being filled when it was closed, it is, in the array, the last one handed over |
| PcmWriters.Step | interwave/pcm.c:448-486 | whichever thread runs its next piece of pcm_write, with any number of others inside it: the device makes the transition that this piece stands for; from the top the call returns or goes to the mutex, with a token it gets its turn, a blocked one gets it once it has been woken, the turn takes what there is or what the call needs, and the copy brings exactly these bytes into the array and the call back to the top |
| PcmWriters.Service | interwave/pcm.c:570-619 | the handler, between any two pieces, makes the system's service and leaves every call in its place |
| PcmWriters.Run | interwave/pcm.c:424-491 | over any schedule of any number of threads, the card and the handler: device, calls in progress, calls made and counts returned are those of the schedule, of which WriterProgress says that events have their effects and that calls go on and return; and of every thread the stream is, in order, the bytes of the calls it has made, but for what the call in progress has not had accepted, and each call has returned its length |
| PcmWriters.WorldDelivers | interwave/pcm.c:448-488 | wherever a schedule leads: a thread's part of the stream, followed by what its call in progress has pending, is the bytes of its calls; and the counts it was returned, followed by the current one, are their lengths |
| WriterProgress.EventsHappen | interwave/pcm.c:448-491 | wherever a schedule has led, no event is without its effect: a new call is recorded and in progress, the card plays the byte it has come to, and an interrupt is served |
| WriterProgress.StuckIsBlocked | interwave/pcm.c:448-491 | wherever a schedule has led, the next piece of a call changes nothing if and only if its thread is in the semaphore's queue |
| WriterProgress.MovesEnd | interwave/pcm.c:448-491 | between two interrupts, and without new calls, the threads have only so many pieces of pcm_write to run, in whatever order and however much the card moves |
| WriterProgress.Settles | interwave/pcm.c:448-491 | so they can be run until none of them can go on |
| WriterProgress.RoundMoves | interwave/pcm.c:448-491 | from there, an interrupt and whatever pieces are run until none can go on again move at least one byte |
| WriterProgress.CallsReturn | interwave/pcm.c:448-491 | after as many such rounds as there are bytes to move, without new calls, no call is in progress, and every call has returned its length and the stream holds all their bytes, each thread's in order |
| WriterProgress.CanFinish | interwave/pcm.c:448-491 | wherever a schedule has led, it can go on so that every call returns |
| WriterProgress.RunToEnd | interwave/pcm.c:448-491 | the code itself, run under such a schedule, ends with no call in progress and every call's result returned |
| PcmRecord.Device.Open | interwave/pcm.c:117-131 | the first client's setup of the record ring: cleared, readers in the second half, the card at the first, a free mutex |
| PcmRecord.Device.AddWaiter | interwave/pcm.c:519 | the first half of mutex_acquire |
| PcmRecord.Device.TakeSem | interwave/pcm.c:519 | the second half |
| PcmRecord.Device.TakeBlock | interwave/pcm.c:527-541 | what is reserved, where, and when the next reader is let in |
| PcmRecord.Device.TakeTurn | interwave/pcm.c:524-545 | the reservation takes the counters where the system's run takes its state |
| PcmRecord.Device.CopyBlock | interwave/pcm.c:547-552 | the reader's buffer receives exactly its chunk of the array, in any interleaving |
| PcmRecord.Device.Capture | interwave/iwdma.c:217-221 | the card stores a byte at its place in the array, at any moment, changes nothing else, and goes on through both halves, around and around, with an interrupt at the end of each |
| PcmRecord.Device.RecordHandler | interwave/pcm.c:625-660 | the interrupt, whenever it is called and whoever is copying, takes the counters where the system's run takes its state: the halves change places, and nothing of the new back half has been read |
| PcmRecord.Device.WaitForTurn | interwave/pcm.c:517-521 | a lone reader gets its turn whatever interrupts come in between |
| PcmRecord.Device.ReadBlock | interwave/pcm.c:524-552 | one block of a lone reader is put at its place in the reader's buffer, and nowhere else, with any number of interrupts between reservation and copy; without one, it is what was appended to the stream |
| PcmRecord.Device.Read | interwave/pcm.c:494-558 | pcm_read of a lone reader, with any number of interrupts at any point, returns, and its buffer holds exactly what the call has given it, as many bytes as asked for (none from 2 GB on); if no interrupt comes between a reservation and its copy, these are what the call has appended to the stream; none is overtaken unless the DMA had stored into the half before, and nothing goes astray |
| PcmRecord.Device.StreamIsRecorded | interwave/pcm.c:537-552 | what a thread has been given is its part of the stream but for spoilt bytes, the stream is the front part of each half given in turn but for overtaken bytes, the back half in the array is the one given last but for what the DMA has stored there since, and while interrupts come in turn the halves given are all that was recorded |
| PcmReaders.Step | interwave/pcm.c:512-552 | whichever thread runs its next piece of pcm_read, with any number of others inside it: the device makes the transition that this piece stands for; from the top the call returns or goes to the mutex, with a token it gets its turn, a blocked one gets it once it has been woken, the turn takes what there is or what the call needs, and the copy brings exactly these bytes from the array into the call's buffer and the call back to the top |
| PcmReaders.Run | interwave/pcm.c:494-557 | over any schedule of any number of threads, the card and the handler: device, user memory, calls in progress, calls made and buffers returned are those of the schedule, of which ReaderProgress says that events have their effects and that calls go on and return; and what a thread's calls have returned, one after the other, and the one in progress has so far, is its part of the stream, each byte right unless spoilt, and each call has returned as many bytes as it asked for |
| PcmReaders.SystemDelivers | interwave/pcm.c:512-554 | wherever a schedule leads: the buffers a thread was returned, followed by the filled part of the current one and the chunk being copied, are its part of the stream, byte by byte unless spoilt; and their lengths are what it asked for |
| ReaderProgress.EventsHappen | interwave/pcm.c:512-557 | wherever a schedule has led, no event is without its effect: a new call is recorded and in progress, the card stores what it hears where it has come to, and an interrupt is served; and a piece of pcm_read stores nothing outside of what its call has still to fill |
| ReaderProgress.StuckIsBlocked | interwave/pcm.c:512-557 | wherever a schedule has led, the next piece of a call changes nothing if and only if its thread is in the semaphore's queue |
| ReaderProgress.MovesEnd | interwave/pcm.c:512-557 | between two interrupts, and without new calls, the threads have only so many pieces of pcm_read to run, in whatever order and however much the card moves |
| ReaderProgress.Settles | interwave/pcm.c:512-557 | so they can be run until none of them can go on |
| ReaderProgress.RoundMoves | interwave/pcm.c:512-557 | from there, an interrupt and whatever pieces are run until none can go on again move at least one byte |
| ReaderProgress.CallsReturn | interwave/pcm.c:512-557 | after as many such rounds as there are bytes to move, without new calls, no call is in progress, and every call has returned as many bytes as it asked for, and each thread's, one after the other, are its part of the stream, byte by byte unless spoilt |
| ReaderProgress.CanFinish | interwave/pcm.c:512-557 | wherever a schedule has led, it can go on so that every call returns |
| ReaderProgress.RunToEnd | interwave/pcm.c:512-557 | the code itself, run under such a schedule, ends with no call in progress and every call's result returned |
| Lifecycle.InvStep | interwave/pcm.c:78-203 | every atomic operation of an open or close keeps the semaphores' and the counter's accounts |
| Lifecycle.SetupTeardownExclusion | interwave/pcm.c:78-203 | over all interleavings of any number of opens and closes a setup never overlaps a teardown, there is at most one of each, and init_sem with its transient holder is setups - takes, 0 or 1 |
| Lifecycle.LastCloserGetsToken | interwave/pcm.c:197-203 | the last closer's wait for init_sem ends, although it holds teardown_sem |
| Lifecycle.NoDeadlock | interwave/pcm.c:78-203 | while some thread is inside an open or close, some such thread can go on |
| Lifecycle.CallsReturn | interwave/pcm.c:78-203 | with no new calls only so many steps are possible, and when none is left every open and close has returned |
| Lifecycle.OpenDuringTeardown | interwave/pcm.c:158-161 | a later opener gets past a teardown if and only if the last closer has not taken init_sem and no opener is holding it |
| Lifecycle.OpenReturnsDuringTeardown | interwave/pcm.c:178-199 | a run in which an open returns while the last close is still tearing down |
| LowMemory.LowSize | interwave/iwdma.c:13-28 | the size is whole pages: the request rounded up to pages, or 64K if it is more than that |
| LowMemory.ChunkFits | interwave/iwdma.c:109-137 | wherever the double-sized area lies, the chunk crosses no 64K boundary and is inside it; it is at the area's start if it crosses none there, and on a boundary otherwise |
| LowMemory.ChunkInPages | interwave/iwdma.c:122-136 | what is kept after the resize is whole pages |
| LowMemory.ChunkBelow16MB | interwave/iwdma.c:53-56 | the chunk is below 16 MB if and only if as many bytes are from the start of the area |
| LowMemory.ResizedNeverReused | interwave/iwdma.c:35-62 | the area that a run has placed its chunk in and resized fails the next run's tests |
| LowMemory.WholeAreaStaysLow | interwave/iwdma.c:89-93 | an area that could not be resized holds its chunk below 16 MB again |
| LowMemory.ForeignAreaAbove16MB | interwave/iwdma.c:35-62 | an area made by somebody else that passes the tests of the reuse path, with its chunk at 16 MB |
| LowMemory.Card.ChooseArea | interwave/iwdma.c:34-99 | which area is used, for every outcome of the kernel's calls: the one found if and only if its size and place are known, it is locked, at least twice the size, contiguous for that much, and starts below 16 MB; a new one if it is mapped and ends below 16 MB |
| LowMemory.Card.Place | interwave/iwdma.c:106-137 | base, physical base and what is kept of the area |
| LowMemory.Card.FindLowMemory | interwave/iwdma.c:11-143 | success exactly if an area is usable, with the tests spelled out; then the chunk has the size, crosses no boundary, ends where the kept area ends, is below 16 MB if newly allocated, and the area as it is left will not be used again |
| LowMemory.RingsFit | interwave/pcm.c:94-122 | the four buffers follow each other from the chunk's start on and are inside it, and the two DMA transfers cover exactly the two rings and cross no 64K boundary |
| LowMemory.DriverRingsFit | interwave/pcm.c:94-122 | the sizes the driver uses fit the memory it asks for |
| SampleCounter.PeriodIsHalf | interwave/iwdma.c:163-168 | the counter's interrupt comes once per half if and only if the half is whole samples, 4 to 262144 bytes |
| SampleCounter.Uncountable | interwave/iwdma.c:163-168 | two sizes for which it does not |
| SampleCounter.DriverAvoidsDma | interwave/iwdma.c:163-185 | in every run, interrupts lost or not, interrupt k comes after exactly k halves, and the driver's half is the one the DMA is in if and only if the number of interrupts waiting or lost is odd |
| StartDma.Card.LoadCounter | interwave/iwdma.c:171-172 | the two registers together hold the sample count, which is exceeded once per half exactly for countable sizes |
| StartDma.Card.StartPlayback | interwave/iwdma.c:150-191 | the counter's period is the half exactly for countable sizes; the DMA controller is told to move memory to the device, with auto-init, the whole ring from its start; the playback path is on, flags are cleared, and the record path and the other registers are as before |
| StartDma.Card.StartRecord | interwave/iwdma.c:193-227 | the same for recording, from the device to memory, with the playback path and its interrupt flags untouched |
| StartDma.Card.StartBoth | interwave/pcm.c:152-154 | on the rings as they are laid out: the playback transfer reads exactly the two halves that writers fill, and the record transfer stores into exactly the two that readers read, each from where the card starts in the model; each counter counts one half; both paths are on |
| Interrupts.ServedOrLate | interwave/iwirq.c:29-47 | in every run each interrupt is served, due, or lost, and lost exactly if it came on top of its own flag or while the handler was at work |
| Interrupts.RecordLostBehindPlayback | interwave/iwirq.c:29-47 | a run in which a record interrupt is never served |
| CardHandler.Card.Handler | interwave/iwirq.c:29-50 | bit 4 of CSR3I is served by the playback handler and bit 5 by the record handler, whether or not a half has ended and although both rings lie in one area; the scheduler is asked for exactly if a waiting client was released; no cause is left; and without a codec interrupt nothing is touched |
| CardHandler.Card.Run | interwave/iwirq.c:29-50 | card and handler in any order on one area: both rings and both flags go through exactly the transitions of the events, so that each ring goes through a run of its own system |
| CardHandler.InStepIfPrompt | interwave/iwirq.c:29-47 | with flags clear at the start, a flag says that a half has ended and not been swapped, and nothing goes astray if and only if each interrupt is handled before the next half of its ring ends |
| CardHandler.EventsHappen | interwave/iwirq.c:29-47 | wherever card and handler have come to, no event is without its effect: a byte is played or stored, with a flag at the end of a half; the handler serves each ring that is flagged once, and leaves no flag |
| CardHandler.LeftOverFlag | interwave/iwdma.c:202-203 | a record flag left over from an earlier session is served, and the card then records into the half that readers read from |
| Clock.AccurateWhileItFits | interwave/pcm.c:404 | the sample clock is the exact 44.1 kHz time rounded down to a microsecond if and only if the product fits 64 bits |
| Clock.ClockWraps | interwave/pcm.c:404 | a total at which it reads 19 |
| Clock.NoDrift | interwave/pcm.c:592 | over every run the clock never goes back, and between any two points it advances by the exact time to within a microsecond |
| CodecRegisters.Codec.Peek | interwave/iwregs.h:672-686 | reads one of 32 independent registers and keeps the mode bits of CIDXR |
| CodecRegisters.Codec.Poke | interwave/iwregs.h:782-797 | writes one of 32 independent registers and nothing else, keeps the mode bits; only a format register without mode change refuses |
| CodecRegisters.Codec.EnablePath | interwave/iwcodec.c:10-18 | one register changes, by the path's bit: bit 0 for playback, bit 1 for record |
| CodecRegisters.PathsIndependent | interwave/iwcodec.c:10-18 | enabling or disabling one path leaves the other, and the rest of the register, alone |
| CodecRegisters.Codec.ClearInterrupts | interwave/iwcodec.c:20-23 | no cause is left, and index, mode bits, the rest of CSR3I and every other register are as before |
| CodecRegisters.Codec.EnableModeChange | interwave/iwcodec.c:28-31 | sets or clears CIDXR[6] and nothing else |
| CodecRegisters.Codec.SetFormat | interwave/iwcodec.c:33-53 | a format write takes effect if and only if mode change is on; then its register has the format in bits 5 to 7, the stereo flag in bit 4, the clock in bits 0 to 3 |
| CodecRegisters.Codec.GetFormat | interwave/iwcodec.c:38-60 | the three fields of the register, which does not change |
| CodecRegisters.Codec.FormatRoundTrip | interwave/iwcodec.c:33-60 | formats set with mode change on are got back, cut to their fields |
| CodecRegisters.Codec.SetupFormats | interwave/pcm.c:145-150 | after an open both format registers are 0x5B, 16-bit little-endian stereo at 44.1 kHz, no other register has changed, and mode change is off, from any prior state |
| SoundParams.SetThenGet | interwave/pcm.c:259-383 | GET_PARAMS after SET_PARAMS reports the stated normal form of the setup, whatever the registers held |
| SoundParams.ProgrammedCells | interwave/pcm.c:336-383 | SET_PARAMS leaves each value in its own bits of the registers, with the card's numbers for the inputs (microphone 2, mixer 3), every other bit of these registers as fixed by the code, and all other registers alone |
| SoundParams.ReportedBits | interwave/pcm.c:252-322 | what GET_PARAMS reports, field by field, from the bits of the registers |
| SoundParams.NormalisedTwice | interwave/pcm.c:259-326 | the normal form is normal |
| SoundParams.SetGetSetGet | interwave/pcm.c:241-386 | setting what was got changes no report any more |
| SoundParams.GainFields | interwave/iwmixer.c:42-55 | gain and mute come back from a packed register |
| SoundParams.AdcFields | interwave/iwmixer.c:23-38 | source and gain come back from a packed register |
| SoundParams.LoopFields | interwave/iwmixer.c:154-166 | loopback gain and its reversed mute bit come back |
| SoundParams.Mixer.SetGain | interwave/iwmixer.c:42-127 | a left/right gain setter writes its two registers and nothing else |
| SoundParams.Mixer.GetGain | interwave/iwmixer.c:48-138 | a left/right gain getter reports both registers and changes none |
| SoundParams.Mixer.SetParams | interwave/pcm.c:328-386 | after SOUND_SET_PARAMS every bit of the mixer registers is what the setup says, mode bits, status and other registers are as before |
| SoundParams.Mixer.GetParams | interwave/pcm.c:241-327 | SOUND_GET_PARAMS reports the bits of the registers and changes none |
| LocalMemory.WriteThenRead | interwave/iwregs.h:644-666 | what iw_poke has written to a P3XR register iw_peek reads back, cut to the register's width |
| LocalMemory.OtherRegisters | interwave/iwregs.h:749-776 | writing one P3XR register changes what is read from no other, nor the memory, although two of them are parts of one address |
| LocalMemory.HighLow | interwave/iwmem.c:12-16 | the two address registers together hold the address modulo 2^24, whatever was there |
| LocalMemory.Memory.Address | interwave/iwmem.c:12-16 | the address is set and only the index register changes besides |
| LocalMemory.ForRamIsMask | interwave/iwmem.c:91-92 | the arithmetic form of the control value is the bit operation, for RAM with auto-increment |
| LocalMemory.ForRomIsMask | interwave/iwmem.c:108-109 | the same for ROM |
| LocalMemory.Memory.RamPeek8 | interwave/iwmem.c:18-22 | the byte at the address, memory unchanged |
| LocalMemory.Memory.RamPoke8 | interwave/iwmem.c:60-64 | the byte at the address replaced, nothing else |
| LocalMemory.Memory.RamPeekBlock16 | interwave/iwmem.c:87-102 | the word loop with auto-increment loads exactly the bytes of plain memory, modulo 2^24, and LMCI is restored |
| LocalMemory.Memory.RamPokeBlock16 | interwave/iwmem.c:151-166 | the word loop stores exactly the bytes, and LMCI is restored |
| LocalMemory.Memory.RomPeekBlock8 | interwave/iwmem.c:104-117 | the byte loop loads exactly the bytes of ROM, and LMCI is restored |
| LocalMemory.StoreIsSplice | interwave/iwmem.c:162-163 | within the address space, storing byte after byte replaces exactly the span |
| LocalMemory.LoadStored | interwave/iwmem.c:98-99 | what was stored is loaded again, even across the end of the address space |
| Disk.MovesWhatItShould | interwave/disk.c:182-205 | head, body and tail together move the bytes up to the end of the span or of the disk if and only if the transfer is not an empty one at an odd place, which moves 4 GB; the count reported leaves out the odd head byte |
| Disk.Device.Read | interwave/disk.c:166-208 | result, count and buffer for RAM and ROM, past the end and inside; the buffer holds exactly [pos, min(pos+n, size)), and an empty read at an odd place of the RAM disk fills 4 GB of it with the memory over and over |
| Disk.Device.ReadRam | interwave/disk.c:192-198 | the split transfer fills the buffer with the plain bytes of memory, for either parity of start and length |
| Disk.Device.Write | interwave/disk.c:212-254 | result, count and memory for RAM and ROM, past the end and inside; exactly [pos, min(pos+n, size)) is replaced; an empty write at an odd place stores 4 GB over and over |
| Disk.Device.WriteRam | interwave/disk.c:240-246 | the split transfer stores the plain bytes, for either parity |
| Disk.RoundTrip | interwave/disk.c:166-254 | a write followed by a read returns the bytes, those that fit on the disk, and both report as many, through the whole register protocol |

## Left out

- Playout.CardPlaysHalves: once a half has ended before the interrupt of the one before was served, or the handler was called without one, only Playout.InStepByParity says where the card is; what is heard then is not related to the halves handed over.
- Record.RecordFidelity: what was recorded is related to the halves given as long as interrupts come in turn. Bytes of a half that no reader asks for before the swap are dropped, as in the code.
- Playback.HandedRightExactly: for a half to which nothing was in flight when it was opened; of one to which a copy from before was in flight, nothing is said in general.
- Playback.HandOver: says nothing of a half into which no byte was accepted; such a half is handed over as it was, and may repeat old sound.
- PcmPlayback.Device.WaitForTurn: followed to its end for a writer that is alone with the interrupts, and so are PcmPlayback.Device.WriteBlock and PcmPlayback.Device.Write; any number of writers at a time are in PcmWriters, and that they finish in WriterProgress.
- PcmPlayback.Device.WriteBlock: for a lone writer, as above.
- PcmPlayback.Device.Write: for a lone writer, as above.
- PcmRecord.Device.WaitForTurn: for a lone reader; any number of readers at a time are in PcmReaders, and that they finish in ReaderProgress.
- PcmRecord.Device.ReadBlock: for a lone reader, as above.
- PcmRecord.Device.Read: for a lone reader, as above.
- PcmWriters.Run: the threads' buffers do not change while they write; they are ranges of one user memory.
- PcmReaders.Run: threads that are in a call at the same time have buffers that do not overlap.
- WriterProgress.CallsReturn: of schedules in which interrupts keep coming and threads are run until none can go on; that the kernel schedules threads so is not modelled.
- ReaderProgress.CallsReturn: the same.
- CountingMutex.Conservation: acquire_sem does not fail. When it does, pcm_write and pcm_read return an error (pcm.c:452-454, 519-521) and the thread stays in waiting_count, which breaks the law.
- CardHandler.Card.Run: the card raises its flag when a half ends, which is when the sample counter does it for countable sizes (SampleCounter.PeriodIsHalf); and iw_handler is not interrupted by the card there. What becomes of a flag that is raised while it is at work is in Interrupts.
- Ring.RingSafety: wr_total and rd_total do not wrap at 2^64, and waiting_count and the semaphore's count not at 2^31.
- LocalMemory.Memory.RamPeek8: takes for granted that RAM is selected in LMCI on entry, which every other function restores.
- LocalMemory.WriteThenRead: for registers that are read at the index they are written at. The model does not have the P2XR registers, the hidden registers, or mnemonics that name no register.
- Disk.Device.Read: positions are not negative; the buffer is as long as what the code writes into it.
- LowMemory.Card.FindLowMemory: areas are contiguous as far as the kernel reports them; deleting an unusable area is not modelled.
- Lifecycle.InvStep: all kernel calls succeed; the failure branches of pcm_open and pcm_close, which the code marks as incomplete, are not modelled. Its threads are counted, not named, and the setup and teardown are one step each; what the setup does is in the `Open` constructors, `SetupFormats` and `StartDma`.
- Interrupts after the last close: mutex_delete leaves the semaphore's number as it was, and the handlers' test for a closed device is not part of this model.
- iw_lock on several CPUs, where the saved interrupt status is shared; register accesses are atomic here.
- Time stamps (wr_time, rd_time), the old completion semaphores, and SOUND_UNSAFE_WRITE and SOUND_UNSAFE_READ apart from the clock they report.
- The order in which the DMA is programmed: `StartDma` says what is programmed in the end, not that the path is off meanwhile.
- Device naming and publishing, plug and play, card initialisation (iwinit.c), the mixer device's hooks (mixer.c), and disk_open, disk_close, disk_control and icons.
- The other block transfers of iwmem.c and the mixer controls that SET_PARAMS and GET_PARAMS do not use: the same patterns again.
