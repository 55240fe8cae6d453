# Verified model of the external servo

This project models the clock control pipeline of the external servo, a program that steers a clock from PTP
measurements, and proves what the pipeline promises over whole runs. Time stamps of sync and delay messages enter the
time stamp processor, which measures the path delay through a moving average or a moving median and from it the clock
offset. A servo (proportional-integral, linear regression, or NTP shared memory) turns offsets into a frequency and
decides when to step the clock. The clock splits the frequency into a tick length and a fine part.

Each source file has a module. The module describes the state as a datatype and every operation as a function on it;
the laws are lemmas about these functions and about runs, that is, sequences of calls in any order. Where the source
updates a structure in place, a class does the same with the same loops and branches, and its methods are proved to
perform the function's step. Doubles are real numbers. `tmv_t` values are integers with explicit wrap-around at 64 bits.

| file | models |
|---|---|
| Tmv.dfy | 64-bit time arithmetic (tmv.h) |
| Sorting.dfy, Window.dfy | reference definitions: sorted copy, window of recent samples |
| Reals.dfy | small facts about order and products of reals |
| MovingMedian.dfy, MovingAverage.dfy | the two delay filters |
| TsProc.dfy | the time stamp processor |
| Servo.dfy | the servo wrapper: thresholds, first step, stability countdown |
| PiServo.dfy | the PI servo |
| PiLoop.dfy, PiSettle.dfy | the PI servo in closed loop with a clock, as long as no output is clamped |
| PiClamp.dfy | the same loop with the clamp: when it stays bounded, when it comes to rest |
| LeastSquares.dfy | weighted least squares over the reals |
| LinReg.dfy, LinRegRun.dfy, LinRegServo.dfy | the linear regression servo: its steps, its runs, its class |
| LinRegPoints.dfy | its points and answers, told by the messages that made them |
| ClockAdj.dfy | tick and frequency of the kernel clock |
| NtpShm.dfy | the shared memory writer and an arbitrary concurrent reader |
| ClockUpdate.dfy | the processor in the update loop, for any servo |
| ControlLoop.dfy | the whole loop: processor, any of the three engines, clocks |

## Findings

- Between two JUMPs of the PI servo there are at least two UNLOCKED samples without a reset (`JumpsAreApart`), but a
  single one can do with a reset (`OneUnlockAfterReset`). There are fewer than two exactly when the first reset after
  the earlier JUMP comes before any offset over the step threshold and is followed by just one sample
  (`SingleUnlockIff`); a second reset behind another sample makes two again (`TwoUnlocksAfterTwoResets`).
- The PI servo's frequency estimate starts from its drift, while an unlocked clock keeps running at the last frequency
  it was given. The estimate, before it is limited, is right exactly when the two agree, or when no time at all passed
  remotely (`EstimateIsExact`). They agree until the servo first tracks (`DriftIsLastFreq`), and need not when the step
  threshold unlocks it later (`DriftIsNotLastFreq`): a new servo can then jump to 20 ppb while 60 would have kept pace
  (`EstimateMissesPace`).
- The caps 1.0 and 2.0 on the PI gains are there to keep the servo stable (servo/pi/pi.c:22-23), but they do not make
  it come to rest. With positive gains the clamp alone keeps the loop bounded, from every start that the anti-windup
  allows, exactly if the limit covers the clock's own error (`BoundedIff`). With a and b for kp and ki times the
  interval, every clock within the limit is followed from every such start exactly when a + b < 2, or a + b = 2 and
  a <= 1 (`RestsIff`). Gains configured by the user, as capped, therefore always come to rest exactly if their sum is at
  most 2 per interval (`UserGainsRest`). With kp 1.0, ki 1.5 and a sample a second, no cap binds, and a new servo throws
  a perfect clock from 500 ns ahead to 500 ns behind and back for ever (`StrongServoNeverRests`).
- Without the clamp the borders lie elsewhere: the loop is bounded exactly for 2a + b <= 4 (`StableIff`), which the caps
  guarantee, and its offset goes to 0 exactly for 2a + b < 4 (`ConvergesIff`), so that a loop that is never clamped
  settles unless both caps bind (`UnclampedUserGainsSettle`).
- In the stable state the loop hands the servo's output over as a phase and leaves the frequency alone, while the
  engine goes on as if the frequency had been set. The kernel then runs at the frequency the engine believes in exactly
  when the servo has not been stable since the last setting, or its stable answer and the setting shift the tick alike
  and leave the same whole units (`KernelMatchesIff`). Whether it has been stable can be told from the offsets alone
  (`StableSinceIffClose`). Without an offset threshold the two always match (`KernelMatchesWithoutThreshold`); with one,
  a new loop needs only the offsets 0, 0 and 80 ns to be 60 ppb off (`StableDetunes`).
- The program cuts the initial adjustment to an int (main.c:260), so that before the first setting kernel and engine
  can be up to 1 ppb apart (`KernelMatchesBeforeSetting`, `StartDetunes`).
- The reader protocol written down at servo/ntpshm/ntpshm.c:31-38, which compares the counts only, accepts a torn
  record even when `valid` is checked right after the first count (`EqualCountsAloneAreNotEnough`). With an even count
  as well, the copy is the record of the last call finished before the count was read (`SnapshotConsistent`).
- The sum of the two middle values of an even median window never leaves 64 bits in this program, because every value
  the filter is fed is half of a 64-bit one: its answer is always the exact truncated median (`FilterStaysSound`). The
  moving average has no such protection. It is right exactly when the sum of its window fits (`RunAnswersMean`), and
  three equal delays of 2^62 - 1 ns average to a negative one (`AverageOverflows`).
- Writing the frequency back that was read, as `main` does at start, keeps the kernel's split between tick and frequency
  exactly when the fine part is less than half a tick, or half a tick against the direction of the tick's shift
  (`WriteBack`). A fine part of 0.6 ticks moves into the tick (`WriteBackChanges`).

## Model

| member | source | states |
|---|---|---|
| Tmv.Wrap | tmv.h:38-43 | a 64-bit sum is the true one exactly when that fits |
| Tmv.WrapTurns | tmv.h:38-43 | and otherwise differs from it by a multiple of 2^64 |
| Tmv.WrapAbsorbs | tmv.h:72-77 | so sums and differences of wrapped values are those of the true ones, wrapped once |
| Tmv.Div | tmv.h:46-51 | division truncates toward zero |
| Tmv.Truncate | tmv.h:101-106 | a double becomes an integer by truncation toward zero |
| Tmv.MachineDifference | servo/linreg/linreg.c:171-172 | signed differences of 64-bit stored times are the true ones exactly when these fit |
| Tmv.WrappedQuotient | tmv.h:46-51 | dividing a wrapped sum gives the quotient of the true sum exactly when the sum fits |
| MovingMedian.StepKeepsInv | filter/median/mmedian.c:36-68 | one sample keeps the order a permutation of the live slots, sorted by value and then by age, over exactly the sliding window |
| MovingMedian.RunKeepsInv | filter/median/mmedian.c:36-76 | so does every sequence of samples and resets |
| MovingMedian.RunAnswersMedian | filter/median/mmedian.c:64-67 | after any run the answer is the median, by definition through sorting, of the last min(n, len) samples since the reset |
| MovingMedian.MedianBreakdown | filter/median/mmedian.c:54-67 | fewer than half of the samples outside a range cannot move the answer out of it |
| MovingMedian.BreakdownIsTight | filter/median/mmedian.c:64-67 | at every window length, any number from half of the samples on outside the range can, with values the program can feed it |
| MovingMedian.EvenMiddleExact | filter/median/mmedian.c:64-67 | an even window answers the exact truncated median exactly when the sum of its two middles fits |
| MovingMedian.MedianExact | filter/median/mmedian.c:64-67 | which it does for halved 64-bit values, the only ones the program feeds it |
| MovingMedian.MovingMedian.Sample | filter/median/mmedian.c:36-68 | the in-place search, shift and insertion performs the step and answers the median of the window |
| MovingMedian.MovingMedian.Reset | filter/median/mmedian.c:70-76 | a reset empties the window |
| MovingMedian.MovingMedian.Create | filter/median/mmedian.c:78-104 | there is no filter exactly for a length below 1 |
| MovingAverage.StepKeepsInv | filter/average/mave.c:33-46 | one sample keeps the sum right modulo 2^64, the ring equal to the window, and unfilled slots 0 |
| MovingAverage.RunKeepsInv | filter/average/mave.c:33-57 | so does every sequence of samples and resets |
| MovingAverage.RunAnswersMean | filter/average/mave.c:33-57 | the answer is the truncated mean of the current window exactly when that window's sum fits, whatever overflowed before |
| MovingAverage.AverageBetween | filter/average/mave.c:33-46 | the answer stays between the bounds of the samples as soon as their sum fits |
| MovingAverage.MovingAverage.Sample | filter/average/mave.c:33-46 | the in-place update performs the step and answers the average of the window |
| MovingAverage.MovingAverage.Reset | filter/average/mave.c:48-57 | a reset clears slots, sum and window |
| TsProc.RawDelayIsMean | tsproc.c:94-116 | with rate ratio 1 the raw delay is the truncated mean of both path delays, through any wrap-around, exactly when their sum fits |
| TsProc.ScaledDelayIsMean | tsproc.c:101-105 | with any rate ratio the raw delay halves the truncated remote interval plus the way back exactly when that sum fits, wherever C defines the conversion |
| TsProc.ScaledDelayNearMean | tsproc.c:101-105 | and is then less than 1 ns off the real mean |
| TsProc.DelayKeepsFilterSound | tsproc.c:119-129 | the median filter is fed halved values only and answers their exact median |
| TsProc.AverageOverflows | filter/average/mave.c:33-46 | three equal delays of 2^62 - 1 ns, each measured by the processor, average to a negative one |
| TsProc.RawOffsetExact | tsproc.c:167-185 | raw modes answer theta + d1 - trunc((d1 + d2) / 2) |
| TsProc.FilteredOffsetError | tsproc.c:160-185 | filtering modes are within hi - lo of the true offset when all path delays lie in [lo, hi] |
| TsProc.RawOffsetError | tsproc.c:167-185 | raw modes are within half of that and half a nanosecond |
| TsProc.DelayKeepsBounded | tsproc.c:118-150 | every measured delay, raw or through either filter, lies in [lo, hi] |
| TsProc.WeightInUnitInterval | tsproc.c:190-196 | the weight lies in (0, 1], and is filtered over raw delay only where that is less than 1 |
| TsProc.OneExchangeSuffices | tsproc.c:152-182 | one sync and one delay request give an offset in every mode |
| TsProc.DelayAnswerPerMode | tsproc.c:118-150 | raw modes answer the truncated mean of both directions, filtering modes what the filter makes of its window with that mean, and without both measurements there is no answer |
| TsProc.ResetIsNew | tsproc.c:203-216 | a full reset leaves a new processor, a partial one keeps the delay history and the rate ratio |
| TsProc.TsProc.constructor | tsproc.c:28-58 | a new processor has no measurements, rate ratio 1 and an empty delay history |
| TsProc.TsProc.DownTs | tsproc.c:67-72 | stores the down measurement and nothing else |
| TsProc.TsProc.UpTs | tsproc.c:74-79 | stores the up measurement and nothing else |
| TsProc.TsProc.SetClockRateRatio | tsproc.c:81-85 | stores the rate ratio and nothing else |
| TsProc.TsProc.SetDelay | tsproc.c:87-92 | overrides the filtered delay and makes it valid |
| TsProc.TsProc.GetRawDelay | tsproc.c:94-116 | answers half the round trip in wrapping arithmetic |
| TsProc.TsProc.UpdateDelay | tsproc.c:118-150 | the method performs the step, including the missing-measurement case and the answer per mode |
| TsProc.TsProc.UpdateOffset | tsproc.c:152-201 | the method answers the offset and weight of the mode, or none |
| TsProc.TsProc.Reset | tsproc.c:203-216 | a reset drops the measurements, a full one also the delay history |
| Servo.LimitFrequency | servo/servo.c:60-64 | a limit of 1 ppb or more loses exactly its fraction on the way through an int, a smaller one nothing |
| Servo.ClampIsNearest | servo/pi/pi.c:97-100 | a limited frequency is the nearest one within the limit |
| Servo.CountdownIsExact | servo/servo.c:85-130 | the countdown is max(0, num - n) for the n LOCKED offsets between -threshold and threshold since the last UNLOCKED, JUMP or creation |
| Servo.StableIffEnoughClose | servo/servo.c:85-130 | LOCKED_STABLE is reported exactly when enough such LOCKED offsets were seen, for any engine |
| Servo.FirstUpdateIsOneShot | servo/servo.c:106-120 | the first-step allowance holds exactly until the first JUMP or LOCKED |
| Servo.ServoBase.constructor | servo/servo.c:45-69 | thresholds in nanoseconds, the limit through an int, the countdown full |
| Servo.ServoBase.CheckOffsetThreshold | servo/servo.c:85-96 | counts a close offset down and answers whether the countdown has ended |
| Servo.ServoBase.Digest | servo/servo.c:98-130 | the method performs the wrapper's step for each verdict |
| PiServo.GainsAreCapped | servo/pi/pi.c:146-160 | gains are never negative and stay below their caps per interval |
| PiServo.GainsInIntervals | servo/pi/pi.c:146-160 | per interval each gain is the smaller one of its scale times its own power and of its cap |
| PiServo.ConfiguredGains | servo/pi/pi.c:196-213 | the gains without any configured, for either kind of time stamps, and with a user's |
| PiServo.WeightScalesOffset | servo/pi/pi.c:129-138 | a weight scales the offset, for output and drift alike |
| PiServo.OutputIsNearest | servo/pi/pi.c:129-138 | the tracking output is the value within the limit nearest to drift plus both gains times the weighted offset, and only an unlimited one moves the drift |
| PiServo.EstimateIsExact | servo/pi/pi.c:93-94 | the estimated drift keeps pace with the remote clock exactly when the drift before was the frequency the clock ran at, or no time passed remotely |
| PiServo.OnlyOneKeepsPace | servo/pi/pi.c:93-94 | the estimate from that frequency is the only value that keeps pace |
| PiServo.DriftIsLastFreq | servo/pi/pi.c:62-114 | until the servo first tracks, drift and last frequency are the same |
| PiServo.DriftIsNotLastFreq | servo/pi/pi.c:115-143 | a run of a new servo that ends unlocked with a drift of 20 ppb and a last frequency of 60 |
| PiServo.EstimateMissesPace | servo/pi/pi.c:73-114 | with the next sample it jumps to 20 ppb, while 60 would have kept pace |
| PiServo.SameSign | servo/pi/pi.c:129-138 | adding the integral term without a clamp keeps the drift within the limit |
| PiServo.AntiWindup | servo/pi/pi.c:94-144 | from the first JUMP or LOCKED on, output and drift stay within the limit in every run |
| PiServo.CreatedIsSane | servo/pi/pi.c:170-214 | a new servo with any configured, scaled or default gains meets what the run laws ask of the start |
| PiServo.TwoSamplesEngage | servo/pi/pi.c:62-114 | two samples engage the servo exactly when the second is younger by 0.016 / ki or 1000 seconds less a thousandth, it jumps exactly beyond a threshold on either side, and otherwise the reference sample is kept or, if it is not older, dropped |
| PiServo.JumpsAreApart | servo/pi/pi.c:62-127 | at least one UNLOCKED sample between two JUMPs, at least two without a reset |
| PiServo.SingleUnlockIff | servo/pi/pi.c:62-168 | fewer than two between consecutive JUMPs exactly when the first reset cuts tracking short and one sample follows it |
| PiServo.OneUnlockAfterReset | servo/pi/pi.c:162-168 | a run of a new servo with a single one |
| PiServo.TwoUnlocksAfterTwoResets | servo/pi/pi.c:162-168 | a run with a second reset and two again, though one sample follows the last reset |
| PiServo.EstimateIsBackedUp | servo/pi/pi.c:73-91 | every JUMP and every LOCKED that begins tracking rests on an earlier UNLOCKED sample that is older by that much |
| PiServo.EngagementKeepsPace | servo/pi/pi.c:93-111 | the first answer of a new servo, unless limited, is the one frequency under which the clock would have kept pace |
| PiServo.AtMostOneJump | servo/pi/pi.c:103-110 | without a step threshold there is at most one JUMP, resets or not |
| PiServo.NeverUnlockedAgain | servo/pi/pi.c:115-140 | without step threshold and reset the servo is never UNLOCKED again |
| PiServo.PiServo.Sample | servo/pi/pi.c:55-144 | the method performs the three-phase step |
| PiServo.PiServo.ServoSample | servo/servo.c:98-130 | engine and wrapper together perform the run's step |
| PiServo.PiServo.SyncInterval | servo/pi/pi.c:146-160 | the method sets the capped gains |
| PiServo.PiServo.constructor | servo/pi/pi.c:170-214 | drift and output start at the initial adjustment, gains by configuration or default |
| PiServo.PiServo.Reset | servo/pi/pi.c:162-168 | only the phase goes back to 0 |
| PiLoop.LoopIsRecurrence | servo/pi/pi.c:129-138 | the unclamped loop is a second-order recurrence in the offset |
| PiLoop.VDescends | servo/pi/pi.c:129-138 | a quadratic form of two successive offsets never grows |
| PiLoop.VDominates | servo/pi/pi.c:129-138 | that form dominates the squares of the offsets |
| PiLoop.StableIff | servo/pi/pi.c:22-23 | without the clamp and for positive gains, all offsets stay bounded from every start exactly when 2a + b <= 4 |
| PiLoop.UnclampedUserGainsAreStable | servo/pi/pi.c:196-205 | gains configured by the user are capped so that a loop that is never clamped stays bounded, whatever the limit and the clock's error |
| PiLoop.BeyondSaturates | servo/pi/pi.c:129-138 | beyond 2a + b <= 4 the servo itself ends up clamped |
| PiSettle.EnergyDecays | servo/pi/pi.c:129-138 | inside the border every two samples take a fixed share of the quadratic form away |
| PiSettle.ConvergesIff | servo/pi/pi.c:129-138 | without the clamp and for positive gains, the offsets go to 0 from every start exactly when 2a + b < 4 |
| PiSettle.InsideSettles | servo/pi/pi.c:129-138 | the loop that does not clamp then brings the offset to 0 and its drift to the clock's own frequency error |
| PiSettle.WithinNeverSaturates | servo/pi/pi.c:132-138 | a limit of the clock's error plus 2m / interval is never reached while the free offsets stay within m |
| PiSettle.RoomySettles | servo/pi/pi.c:129-138 | a start whose first two offsets leave room below the limit is never clamped and settles |
| PiSettle.BorderSwings | servo/pi/pi.c:129-138 | on the border a perfect clock swings for ever without being clamped |
| PiSettle.UnclampedUserGainsSettle | servo/pi/pi.c:196-205 | with gains configured by the user every loop that is never clamped settles, exactly unless both caps bind |
| PiClamp.NeverGains | servo/pi/pi.c:129-138 | with a + b <= 2 a quadratic form never grows, whether the output is clamped at either end or not |
| PiClamp.BigCosts | servo/pi/pi.c:132-135 | and a clamped interval takes a fixed amount from it, or on the border a + b = 2 one that is clamped by a given amount |
| PiClamp.RestingSettles | servo/pi/pi.c:129-138 | with a + b < 2, or a + b = 2 and a <= 1, offset and drift settle from every start with a drift within the limit, clamped or not, if the limit exceeds the clock's error |
| PiClamp.RestsIff | servo/pi/pi.c:129-138 | positive gains follow every clock within the limit from every such start exactly under that condition |
| PiClamp.RestsIffFollows | servo/pi/pi.c:129-138 | under it a plant settles from every such start exactly if the limit exceeds the clock's error |
| PiClamp.StrongNeverSettles | servo/pi/pi.c:129-138 | with a + b > 2 a perfect clock is thrown from one side to the other for ever |
| PiClamp.WedgeNeverSettles | servo/pi/pi.c:129-138 | with a + b = 2 and a > 1 slightly clamped intervals repeat for ever |
| PiClamp.UserGainsRest | servo/pi/pi.c:196-205 | gains configured by the user, as capped, always come to rest exactly if their sum is at most 2 per interval |
| PiClamp.ClampBounds | servo/pi/pi.c:132-135 | with positive gains all offsets stay within the first one's size + 2 limit / (kp + ki) + 2 interval limit |
| PiClamp.BoundedIff | servo/pi/pi.c:132-135 | and they stay bounded exactly if the limit covers the clock's error |
| PiClamp.UserGainsAreStable | servo/pi/pi.c:196-205 | so do gains configured by the user, as capped |
| PiClamp.LoopIsServo | servo/pi/pi.c:129-138 | a tracking servo that is shown the loop's offsets learns the loop's drifts, in whole runs |
| PiClamp.StrongServoNeverRests | servo/pi/pi.c:129-138 | a run of a new servo with gains 1.0 and 1.5 that never comes to rest on a perfect clock |
| LeastSquares.DenominatorsPositive | servo/linreg/linreg.c:183-184 | sum of weights and spread are positive over at least two points at different times |
| LeastSquares.RegressionIsBestFit | servo/linreg/linreg.c:182-184 | slope and intercept are the unique minimiser of the weighted squared error over all real pairs |
| LeastSquares.LineIsRecovered | servo/linreg/linreg.c:182-184 | points on a line give that line |
| LeastSquares.MovedBestFit | servo/linreg/linreg.c:93-97 | moving the origin moves the best fit along |
| LinRegServo.LinRegServo.RegressAll | servo/linreg/linreg.c:133-186 | one pass with shared running sums equals, for every size, the regression over exactly the newest 2^size points |
| LinRegServo.LinRegServo.UpdateSize | servo/linreg/linreg.c:188-210 | the loop chooses the size of the selection function |
| LinRegServo.LinRegServo.Sample | servo/linreg/linreg.c:212-277 | the method performs the whole step, jump and steering included |
| LinRegServo.LinRegServo.Reset | servo/linreg/linreg.c:287-302 | the method performs the reset |
| LinRegServo.LinRegServo.Leap | servo/linreg/linreg.c:312-325 | the method moves the frame at the end of a leap second |
| LinRegServo.LinRegServo.constructor | servo/linreg/linreg.c:327-347 | no points, no slopes, the frequency opposite to the initial adjustment |
| LinRegServo.LinRegServo.Move | servo/linreg/linreg.c:84-98 | the loop moves the reference and every intercept |
| LinRegServo.LinRegServo.Update | servo/linreg/linreg.c:100-118 | the method advances the frame by the uncorrected interval and carries the fraction |
| LinRegServo.LinRegServo.Add | servo/linreg/linreg.c:120-131 | the ring takes in the newest point and forgets the 65th |
| LinRegServo.LinRegServo.Steer | servo/linreg/linreg.c:254-274 | the method sets the limited frequency and the rate ratio |
| LinRegServo.LinRegServo.ServoSample | servo/servo.c:98-130 | engine and wrapper together perform the run's step |
| LinRegServo.LinRegServo.SyncInterval | servo/linreg/linreg.c:279-285 | stores the interval |
| LinRegRun.RegressFits | servo/linreg/linreg.c:133-186 | after a regression every size with enough points holds the best fit of its window |
| LinRegRun.ExactLineRecovered | servo/linreg/linreg.c:182-184 | in absolute coordinates, points on a line give that line, in any frame |
| LinRegRun.MoveKeepsLines | servo/linreg/linreg.c:84-98 | moving the reference leaves every line where it is |
| LinRegRun.MoveKeepsFits | servo/linreg/linreg.c:84-98 | moving the reference keeps every line the best fit of its window |
| LinRegRun.MoveAndRegressCommute | servo/linreg/linreg.c:84-98 | regressing after a move is moving after regressing |
| LinRegRun.MachineTimesAreExact | servo/linreg/linreg.c:171-172 | times stored modulo 2^64 give the same regression inputs within 2^63 ns |
| LinRegRun.RunKeepsInv | servo/linreg/linreg.c:100-186 | in every reachable state the remainder, the rate, the spacing, the errors, the size and all fits are right, and no division of the next sample fails |
| LinRegRun.CreatedInv | servo/linreg/linreg.c:327-347 | a new servo with an initial adjustment and a limit below 10^9 ppb is such a state |
| LinRegRun.ReferenceIncreases | servo/linreg/linreg.c:100-118 | the reference strictly increases between samples |
| LinRegRun.TimeIsConserved | servo/linreg/linreg.c:84-118 | reference plus remainder is the exact sum of all intervals |
| LinRegRun.RemoteOffsetIsConserved | servo/linreg/linreg.c:244-252 | the remote reference stays a constant from the last time stamp through samples and jumps, but for leap seconds |
| LinRegRun.ErrorIsMiss | servo/linreg/linreg.c:144-165 | the averaged error is the true one-step-ahead prediction error |
| LinRegRun.ErrorsAverageMisses | servo/linreg/linreg.c:154-165 | in every reachable state the error is the mean of the first ten misses since the reset, then their exponential average |
| LinRegRun.SmoothedBetween | servo/linreg/linreg.c:154-165 | that average lies between the bounds of the misses |
| LinRegRun.SelectBasics | servo/linreg/linreg.c:188-210 | the size is 0 exactly when every slope is 0 |
| LinRegRun.SelectNearBest | servo/linreg/linreg.c:200-207 | the chosen error is within one factor 1.05 per later size of the first sloped size and of every later eligible one |
| LinRegRun.LaterSizesWorse | servo/linreg/linreg.c:200-207 | every larger eligible size is worse by a factor of 1.05 |
| LinRegRun.ChosenSize | servo/linreg/linreg.c:188-210 | after a sample there is a size unless all lines are flat, and all larger sizes with ten errors averaged are worse by 1.05 |
| LinRegRun.SteeringMeetsTheLine | servo/linreg/linreg.c:254-274 | an unlimited correction makes the clock meet the fitted line after exactly one update interval, two with 32 points, three with 64 |
| LinRegRun.FrequencyLimited | servo/linreg/linreg.c:268-272 | from the first sample that chooses a size on, the frequency stays within the limit |
| LinRegPoints.PointsAreSamples | servo/linreg/linreg.c:120-131 | in every reachable state the ring holds the newest 64 samples since the last reset, each with its local time less its offset as remote time, plus a constant that only ended leap seconds change |
| LinRegPoints.CountsFromClock | servo/linreg/linreg.c:244-252 | after a jump the next interval is counted from what the stepped clock shows |
| LinRegPoints.ReferenceIsOwnTime | servo/linreg/linreg.c:100-118 | the reference gains exactly the time of a clock that runs at 1 + freq / 10^9 of its own rate |
| LinRegPoints.LineAnswered | servo/linreg/linreg.c:212-277 | samples on a line are answered by its slope and what takes the offset away, within the limit |
| LinRegPoints.FastClockIsSlowed | servo/linreg/linreg.c:212-277 | so in every run a clock that runs fast and is not behind is slowed, and one that runs slow and is not ahead is sped up |
| LinRegPoints.JumpIffBeyond | servo/linreg/linreg.c:230-252 | the servo jumps exactly when the line's distance is beyond a threshold in force, on either side |
| LinRegPoints.RatioIsOne | servo/linreg/linreg.c:287-302 | a new or reset servo answers rate ratio 1 until it chooses a size |
| LinRegPoints.FastAnswered | servo/linreg/linreg.c:212-277 | a run of a new servo whose offsets grow by 1000 ns a second up to 3000 answers 4000 ppb |
| ClockAdj.SplitWithinLimits | clockadj.c:41-59 | every frequency up to the advertised maximum splits into a tick within a tenth of nominal and a frequency within tolerance |
| ClockAdj.TickRangeExact | clockadj.c:48-53 | the tick stays within n of nominal exactly below n ticks and a half |
| ClockAdj.RoundTrip | clockadj.c:61-76 | reading back is within one kernel unit of what was set |
| ClockAdj.WriteBack | clockadj.c:48-76 | writing back what was read changes nothing exactly for a rounded fine part |
| ClockAdj.WriteBackChanges | clockadj.c:48-76 | a kernel state within its limits that writing back changes |
| ClockAdj.AcceptsUpToMax | clockadj.c:41-59 | on any clock the kernel accepts every frequency up to the advertised maximum |
| ClockAdj.MaxFreqFits | clockadj.c:117-139 | the advertised maximum fits in an int |
| ClockAdj.MaxFreqIsLargest | clockadj.c:117-139 | and is the largest whole tick the kernel accepts, or the largest whole ppb within its tolerance |
| ClockAdj.NominalIsRounded | clockadj.c:26-39 | the nominal tick is the nearest whole number of microseconds |
| ClockAdj.NoTickIsNominal | clockadj.c:61-76 | a kernel that tells no tick is read as one with the nominal tick |
| ClockAdj.SplitStep | clockadj.c:90-112 | seconds and nanoseconds add up to the step, nanoseconds not negative |
| ClockAdj.Clock.SetFrequency | clockadj.c:41-59 | the method performs the split |
| ClockAdj.Clock.GetFrequency | clockadj.c:61-76 | the method reads both parts back |
| ClockAdj.Clock.MaximumFrequency | clockadj.c:117-139 | the method answers the advertised maximum |
| ClockAdj.Clock.Init | clockadj.c:26-39 | the real-time clock learns its tick rate and nominal tick |
| ClockAdj.Clock.Step | clockadj.c:90-115 | the clock's reading changes by exactly the step |
| ClockAdj.Clock.SetPhase | clockadj.c:78-88 | hands over the phase offset |
| NtpShm.PublishedTimes | servo/ntpshm/ntpshm.c:69-97 | the published fields add up to both time stamps, with the precision and the leap code |
| NtpShm.WholeCall | servo/ntpshm/ntpshm.c:75-102 | the thirteen stores together publish the record under a count raised by two |
| NtpShm.RunKeepsInv | servo/ntpshm/ntpshm.c:69-106 | in every interleaving the count is odd exactly during the stores, and an even count guards one finished record |
| NtpShm.FinishedIsBegun | servo/ntpshm/ntpshm.c:69-106 | calls finish in the order in which they began, at most one being under way |
| NtpShm.CountsFinished | servo/ntpshm/ntpshm.c:75-102 | the count is twice the number of finished calls, plus one during the stores |
| NtpShm.SnapshotConsistent | servo/ntpshm/ntpshm.c:69-106 | a reader that finds its even count unchanged holds fields of the last call finished before it read the count |
| NtpShm.EqualCountsAloneAreNotEnough | servo/ntpshm/ntpshm.c:31-38 | equal counts without evenness admit a torn record |
| NtpShm.NtpShmServo.Sample | servo/ntpshm/ntpshm.c:69-106 | the method performs the thirteen stores and publishes one record |
| NtpShm.NtpShmServo.SetLeap | servo/ntpshm/ntpshm.c:118-124 | stores the leap state |
| ClockUpdate.NoMixingAcrossSteps | main.c:99-163 | every raw delay uses local time stamps of one clock epoch, in every run and mode and for every servo |
| ClockUpdate.RunKeepsBounded | main.c:99-163 | measurements stay consistent with the clock through every jump |
| ClockUpdate.JumpLands | main.c:125-132 | in every mode offsets are within hi - lo of the truth, with raw delays within half of that, and a jump leaves the clock that near the remote one |
| ClockUpdate.NewLoopLands | main.c:125-132 | so from the creation of the processor on, whatever the initial clock offset |
| ClockUpdate.AnsweredIff | tsproc.c:152-182 | from creation on and for any servo, a sync message is answered exactly if a delay was measured at any time before (filter), an up measurement came since the last jump (raw), or both (weights with a filtered delay) |
| ClockUpdate.FilterStaysSound | tsproc.c:119-129 | in every run the median filter's answer is the exact truncated median of its window |
| ControlLoop.ProcessorStep | main.c:99-163 | in the whole loop the processor takes the steps of ClockUpdate's runs, with the verdicts and ratios of the engine |
| ControlLoop.ReadingIsAhead | main.c:125-132 | the clock is stepped as those runs say |
| ControlLoop.LoopLands | main.c:125-132 | for the whole loop: every offset handed to an engine is near the truth, and a jump leaves the stepped clock that near the remote one |
| ControlLoop.RatioStaysOne | main.c:122 | only the linear regression answers rate ratios other than 1 |
| ControlLoop.ServedIff | main.c:113-119 | the messages alone tell which sync messages an engine gets to see |
| ControlLoop.RatioReachesProcessor | main.c:122 | the processor converts with the ratio of the chosen line's slope to the clock's rate |
| ControlLoop.RatioConverts | main.c:122 | which turns local intervals into remote time on that line |
| ControlLoop.ShmPublishes | servo/ntpshm/ntpshm.c:69-106 | each offset the shared memory engine sees is published as arrival time and remote time |
| ControlLoop.KernelHoldsLastSet | main.c:125-145 | in every run and for every engine the kernel holds what the last JUMP or LOCKED set |
| ControlLoop.KernelRunsAtLastSet | main.c:125-145 | within one of its units it then runs at the opposite of the engine's answer |
| ControlLoop.KernelMatchesIff | main.c:125-145 | from the first setting on, exactly when the kernel runs at the frequency the engine believes in |
| ControlLoop.KernelMatchesBeforeSetting | main.c:258-260 | exactly when it does before, and that they are then less than 1 ppb apart |
| ControlLoop.NewEngineStarts | main.c:258-263 | new engines of both kinds start so, given the initial adjustment as the program gives it |
| ControlLoop.StartDetunes | main.c:258-260 | a new loop whose kernel runs at half a ppb while the engine starts from 0 |
| ControlLoop.WrapperSees | servo/servo.c:98-130 | in every run the shared fields are those of the wrapper's own run over the engine's answers |
| ControlLoop.StableSinceIffClose | servo/servo.c:85-130 | which offsets have made the servo stable since the last setting |
| ControlLoop.KernelMatchesWithoutThreshold | main.c:125-145 | always, from the first setting on, if there is no offset threshold |
| ControlLoop.StableDetunes | main.c:139-140 | a run of a new loop whose second answer after the reference is stable and leaves the kernel 60 ppb off |
| ControlLoop.KernelAccepts | main.c:125-145 | whatever the engine and the messages, what the loop sets fits the kernel's tick range and tolerance |
| ControlLoop.ConfiguredLimitFits | main.c:253-256 | a PI servo limited by the advertised maximum of the real-time clock starts such a run |
| ControlLoop.DriverAccepts | main.c:125-145 | on a clock without tick every setting stays within the driver's own limit if the servo's limit is that |
| ControlLoop.DriverLimitFits | main.c:246-252 | a PI servo limited by the driver's capabilities starts such a run |
| ControlLoop.Controller.ServoSample | main.c:119-122 | each of the three engines, with its wrapper, answers and moves as its own module says |
| ControlLoop.Controller.Act | main.c:125-145 | frequency, step and phase per verdict |
| ControlLoop.Controller.Serve | main.c:117-146 | engine, processor and clocks together after a measured offset |
| ControlLoop.Controller.ClockUpdate | main.c:99-146 | one sync message performs the whole loop's step |
| ControlLoop.Controller.PathDelay | main.c:148-162 | one delay message performs the whole loop's step |

## Left out

- Rounding, NaN and infinities of doubles: the model computes in real numbers.
- LinRegServo.LinRegServo.Sample: requires that no division of the step is by zero, where C doubles would go on with
  infinities or NaN; `LinRegRun.RunKeepsInv` proves that this never happens for positive weights and local times that
  advance by at least 2 ns.
- LinRegServo.LinRegServo.ServoSample: the same.
- LinReg times are unbounded integers; `LinRegRun.MachineTimesAreExact` says when the 64-bit representation agrees.
- MovingAverage.MovingAverage.constructor: requires a length of at least 1; the source accepts 0 and fails at the first
  sample.
- TsProc.TsProc.constructor: the same, for a processor with a moving average.
- ClockUpdate.AnsweredIff: assumes that no local time stamp equals 0, which the source uses as "none".
- ControlLoop.ServedIff: the same.
- ControlLoop.LoopLands: the same as `ClockUpdate.JumpLands`.
- LinRegPoints.FastClockIsSlowed: about samples that lie exactly on a line over the clock's own time, counted in whole
  nanoseconds as the source counts it.
- ClockUpdate.JumpLands: about servos that answer rate ratio 1, as the PI servo does, delays within [lo, hi], and clocks
  whose frequency does not move them between measurements.
- PiServo.PiServo.SyncInterval: `pow` is a parameter, of which the laws use only that it is not negative.
- PiServo.PiServo.Sample: local time stamps are integers, not residues modulo 2^64, and the absolute value of the most
  negative 64-bit offset is the true one.
- PiLoop.StableIff: about the loop without noise, with constant weight 1, without clamping, and without an offset
  threshold, so that every output is set (`ControlLoop.KernelMatchesWithoutThreshold`).
- PiLoop.UnclampedUserGainsAreStable: the same; `PiClamp.UserGainsAreStable` has the clamp.
- PiSettle.ConvergesIff: the same.
- PiSettle.UnclampedUserGainsSettle: the same; `PiClamp.UserGainsRest` has the clamp.
- PiClamp.RestsIff: about the loop without noise, with constant weight 1, without thresholds, and with offsets that are
  real numbers instead of whole nanoseconds; so are the other laws of PiClamp but for `PiClamp.StrongServoNeverRests`.
- TsProc.ScaledDelayIsMean: requires that the scaled interval fits in 64 bits, without which C leaves its conversion to
  an integer undefined.
- TsProc.ScaledDelayNearMean: the same.
- LinRegRun.RunKeepsInv: assumes that no time stamp equals 0, which the source uses as "none".
- NtpShm.SnapshotConsistent: counts are unbounded and stores are sequentially consistent; the source leaves the memory
  barriers as a comment.
- ClockAdj.Clock.SetFrequency: kernel calls are taken to succeed and to store what they are given.
- Configuration parsing (config.c): its range check rejects nothing useful, so gains, lengths and thresholds carry
  explicit conditions here.
- Message decoding (msg.c) and the time stamp conversions of tmv.h: fixed layouts of bytes and fields.
- Sockets, logging, the poll loop, leap and TAI settings of the system clock, and `clockadj_compare`.
- Allocation failures and the filter and servo function tables: a datatype chooses the filter or engine instead.
