# Auto body shop simulation — a verified model of its business rules

AutoBodyShopSimulation is a DESMO-J process-oriented simulation of one
working day in an auto body shop:
- A Generator creates customers. Their interarrival distribution depends on the time of day.
- A customer joins the line for a mechanic, or balks when the line is too long.
- A mechanic repairs the car. It may refer the car to a specialist, and a referred customer
  who has already waited more than half an hour goes elsewhere.
- A referred customer claims one of the specialist stalls, or is lost when every stall is taken.
- The shop keeps five process queues, five counters, a tally of response times and the day's
  cost, which includes salaries, commissions, stall costs and the cost of every lost or balked
  customer.

A replication model runs such days in a batch with seeds derived from the
run number. It keeps the results of every run that passes a sanity check,
and stops at the first run that fails.

The model has these parts:

- **`ShopState`** holds the configuration (the static fields the Driver sets) and the whole state
  of a day as one value. That state is the five queues as sequences of ids, the counters as
  integers, the cost as a real, one record per customer, and the point each process has reached
  in its life cycle.
- **Process modules.** `CustomerProcess`, `MechanicProcess`, `SpecialistProcess` and
  `GeneratorProcess` cut each `lifeCycle()` at its `passivate`/`hold` calls. Each stretch between
  two suspensions is one pure function on `State`.
- **`Scheduler`** chooses which process resumes, nondeterministically. A `Step` names the process,
  its resumption time and the random samples that stretch draws. `Enabled` says the process is
  suspended at that point and the samples are in range.
- **`Invariants`**, **`WfProofs`** and **`OrderedProofs`** hold two invariants:
  - `Wf` holds under every interleaving. It covers the stall upper bound, non-negative counters
    and response times, idle queues without repetitions, and lines holding only customers in the
    right phase.
  - `Ordered` also needs the settled order. The stall counter equals the number of customers
    holding a stall, every customer is counted exactly once (balked, lost, fixed or still open),
    and `inSystem` holds exactly the customers in the shop.
  - Settled order means that no specialist segment runs while a referred customer in the
    specialist line has not yet resumed to claim its stall.
- **`Runs`** composes a day as a sequence of steps from the state `doInitialSchedules` leaves. It
  proves both invariants over whole days, shows the cost never decreases, and shows what holds
  once the shop is empty. It also gives a concrete day with the default configuration in which
  the specialist overtakes a referred customer and the stall counter ends at -1. That day orders
  two pairs of same-instant events in a way the free scheduler allows but a first-in-first-out
  tie-break would not, so it shows what free interleaving permits, not a run DESMO-J is shown to
  produce.
- **`Shop.AutoBodyShop`** is the imperative side. The class has the shop's fields, and every
  life-cycle segment is a method proved to leave exactly the state the pure segment function
  describes. `Resume` runs one scheduler decision and carries the invariants over to the object.
- **`Replication`** covers:
  - the stopping condition;
  - the seed formula in 32-bit `int` arithmetic;
  - the utilization formula with its division-by-zero results;
  - the read-back and validation of one run;
  - the class `ReplicationModel`, whose batch loop stops at the first failed run.

Random samples are parameters with their ranges. These are the balk threshold in [1, 8], the
referral flag, and repair times and interarrival gaps that are not negative.

## Model

| member | source | states |
|---|---|---|
| ShopState.Initialized | src/AutoBodyShop.java:145-162 | after init() all five queues are empty, every counter (stallsInUse included) is 0, the cost is 0 and no response time is recorded |
| ShopState.StallOutlay | src/AutoBodyShop.java:138 | the stall charge is the exact product when NUM_STALLS * STALL_COST fits in an `int`, and then it is not negative for a non-negative STALL_COST |
| ShopState.DriverOutlayFits | src/AutoBodyShop.java:138 | every configuration the Driver offers keeps the product in range, with a charge between 100 and 2500 |
| ShopState.WrappedOutlayIsNegative | src/AutoBodyShop.java:138 | with 3 stalls at 2^30 each, costs that are all non-negative still give a stall charge of -2^30 |
| ShopState.Scheduled | src/AutoBodyShop.java:100-139 | after doInitialSchedules the lines, inSystem and the customers are empty, every counter is 0, mechanics and specialists 0 .. n-1 sit in their idle queues in order, each activated, the Generator is activated, and the stall charge is the only cost |
| ShopState.Activate | src/Customer.java:62-63 | activate() makes a passive worker scheduled and leaves a worker that is already scheduled or running as it is |
| ShopState.ActivateWorker | src/Customer.java:125-126 | activate() on one worker changes that worker only, as Activate says |
| ShopState.Awaken | src/Mechanic.java:101 | reactivating a customer resumes it at the passivate it is suspended at, keeping its arrival time, finished flag and outcome |
| Queues.Remove | src/Customer.java:78 | remove(x) leaves a queue without x unchanged and shortens a queue holding x by one |
| Queues.RemoveMembers | src/Customer.java:90 | remove(x) keeps only ids that were there and every id other than x |
| Queues.RemoveDistinct | src/Customer.java:109 | in a queue without repetitions remove(x) takes out exactly x and keeps the rest distinct |
| Queues.RemoveAppended | src/Customer.java:56-78 | inserting a balking customer and removing it again gives the line back |
| Queues.Enlist | src/Mechanic.java:54 | the idle-queue insert: afterwards the id is present, the queue holds exactly the old ids plus this one, and no repetition appears |
| Queues.Ids | src/AutoBodyShop.java:103-116 | the ids enqueued at setup are 0 .. n-1, n of them, all distinct |
| CustomerProcess.Balks | src/Customer.java:70-74 | with a threshold in [1, 8] the customer never balks when nobody else waits and always balks with 8 or more ahead |
| CustomerProcess.BalkMonotone | src/Customer.java:74 | a customer who balks with k cars ahead also balks with more |
| CustomerProcess.ArrivalBody | src/Customer.java:49-94 | arrival adds 1 to totalCustomers; an idle mechanic is dequeued and activated first, and then there is no balk; a balk sets finished, leaves both queues it joined, adds 1 to totalBalked and charges LOSS_COST; otherwise the customer is appended to inSystem and the mechanic line; no other counter changes |
| CustomerProcess.Arrive | src/Customer.java:43-94 | the first segment runs at the activation time, counts the customer once, keeps its arrival time, and leaves it in the mechanic line or, if it balked, outside the shop with exactly one more outcome recorded |
| CustomerProcess.BackFromMechanic | src/Customer.java:97-135 | a finished customer only leaves inSystem; with every stall in use the customer leaves the specialist line and inSystem, adds 1 to totalLost and charges LOSS_COST; otherwise it claims a stall, never beyond NUM_STALLS, and then an idle specialist is dequeued and activated |
| CustomerProcess.BackFromSpecialist | src/Customer.java:46-47 | after the specialist the loop test ends the life cycle of the finished customer with nothing else changed |
| MechanicProcess.AfterRepair | src/Mechanic.java:69-98 | exactly one outcome: referred and more than 0.5 h in the shop is lost, referred and at most 0.5 h goes to the specialist, not referred is fixed |
| MechanicProcess.Seek | src/Mechanic.java:49-65 | with an empty line the mechanic joins idleMechanics and passivates; otherwise it serves the head of the line, leaving the rest of the line in order |
| MechanicProcess.Start | src/Mechanic.java:46-47 | the salary is charged once, at the start of the life cycle |
| MechanicProcess.Resume | src/Mechanic.java:55 | waking from the idle queue charges nothing |
| MechanicProcess.Conclude | src/Mechanic.java:69-104 | after the hold, lost adds 1 to totalLost and charges LOSS_COST; referral appends the customer to the specialist line; fixed adds 1 to fullyFixed and records now - arrivalTime; whatever the outcome the customer is reactivated and one commission is charged |
| MechanicProcess.FinishRepair | src/Mechanic.java:65-104 | the segment after the hold runs at the due time, records exactly one of lost, fixed or referred for the car, wakes its owner, charges at least the commission, and leaves the mechanic either holding the next car or idle |
| SpecialistProcess.Seek | src/Specialist.java:44-60 | with an empty specialist line the specialist joins idleSpecialists and passivates; otherwise it serves the head of the line |
| SpecialistProcess.Start | src/Specialist.java:41-42 | the salary is charged once, at the start of the life cycle |
| SpecialistProcess.Resume | src/Specialist.java:50 | waking from the idle queue charges nothing |
| SpecialistProcess.Conclude | src/Specialist.java:62-75 | completion always marks the car fully fixed, records now - arrivalTime, removes it from inSystem, releases exactly one stall and charges one commission; no loss, balk or referral is recorded |
| SpecialistProcess.FinishRepair | src/Specialist.java:60-75 | the segment after the hold runs at the due time, marks the car fixed, adds 1 to fullyFixed, releases one stall, charges one commission, and leaves the specialist either holding the next car or idle |
| GeneratorProcess.BandAt | src/Generator.java:42-55 | t < 2, 2 <= t < 8, 8 <= t < 12, and otherwise, select the three distributions and the no-sample case |
| GeneratorProcess.BandMean | src/AutoBodyShop.java:165-170 | the three bands sample means of 15, 6 and 9 minutes: arrivals are most frequent at midday and least frequent in the opening hours |
| GeneratorProcess.Gap | src/Generator.java:43-58 | the hold is the band's sample, or 0 after hour 12 |
| GeneratorProcess.BandWhileOpen | src/Generator.java:39-55 | with closing at or before hour 12 every iteration of the loop finds a distribution |
| GeneratorProcess.Loop | src/Generator.java:39-58 | a hold starts only before OPERATION_HOURS; at or after closing the life cycle ends |
| GeneratorProcess.Start | src/Generator.java:34-58 | the first run of the Generator creates nobody and, before closing, holds for the first gap; at or after closing it ends at once |
| GeneratorProcess.Resume | src/Generator.java:58-62 | each iteration creates exactly one customer, whose arrival time is the clock after the hold |
| Scheduler.Enabled | src/Mechanic.java:65 | a process can resume only at a time not before the clock, only at the point it is suspended at, a hold only at its due time, and every sample is in range; pinned down by WfProofs.StepPreservesWf and Runs.SettledNeverBlocks |
| Scheduler.Apply | src/Generator.java:58-62 | one segment moves the clock to its resumption time and never removes a customer record; only the Generator's resumption adds one |
| WfProofs.StepPreservesWf | src/Customer.java:117-127 | any enabled segment, in any order, keeps Wf: stallsInUse <= NUM_STALLS, counters and response times not negative, lines and idle queues sane |
| OrderedProofs.StepPreservesOrdered | src/Specialist.java:68-71 | a settled segment keeps the stall counter equal to the number of stall holders and keeps every customer counted once |
| Runs.ScheduledOrdered | src/AutoBodyShop.java:100-139 | the state after doInitialSchedules satisfies both invariants |
| Runs.RunKeepsWf | src/Customer.java:106-128 | every sequence of enabled segments keeps Wf |
| Runs.SettledRunKeepsOrdered | src/Customer.java:117-127 | every settled sequence of segments keeps Ordered |
| Runs.DayKeepsWf | src/Customer.java:106-128 | on every day, under any interleaving, stallsInUse <= NUM_STALLS, the counters are non-negative, the idle queues and the mechanic line have no repetitions and every response time is non-negative |
| Runs.SettledDayAccounted | src/Specialist.java:71 | on a settled day 0 <= stallsInUse <= NUM_STALLS, stallsInUse is the number of cars in stalls, and totalCustomers = balked + lost + fixed + customers still open |
| Runs.StepCostMonotone | src/Mechanic.java:47-104 | with non-negative costs no segment lowers todaysCost |
| Runs.RunCostMonotone | src/Customer.java:82 | with non-negative costs todaysCost never decreases over a run |
| Runs.DayCostAtLeastStalls | src/AutoBodyShop.java:138 | the cost of a day is at least the stall charge, the `int` product NUM_STALLS * STALL_COST as Java wraps it |
| Runs.DrainedBalances | src/Customer.java:88-100 | once inSystem is empty no stall is in use and balked + lost + fixed = totalCustomers |
| Runs.SettledNeverBlocks | src/Mechanic.java:86 | whenever the line is not claimed, some referred customer can resume at the present time, so a settled order is always available |
| Runs.OvertakingUnderflows | src/Specialist.java:71 | a concrete day with the default configuration in which every segment is enabled under the free scheduler and stallsInUse ends at -1 while no car is in a stall; two of its same-instant orders are ones a first-in-first-out tie-break would not choose |
| Runs.OvertakingIsUnsettled | src/Mechanic.java:86 | in that day the specialist takes a car whose owner has not yet claimed its stall |
| Shop.AutoBodyShop.Init | src/AutoBodyShop.java:145-162 | the fields after init() are Initialized |
| Shop.AutoBodyShop.CreateMechanics | src/AutoBodyShop.java:103-116 | the loop leaves mechanics 0 .. NUM_MECHANICS-1 in idleMechanics, each activated, and nothing else changed |
| Shop.AutoBodyShop.CreateSpecialists | src/AutoBodyShop.java:119-131 | the loop leaves specialists 0 .. NUM_SPECIALISTS-1 in idleSpecialists, each activated, and nothing else changed |
| Shop.AutoBodyShop.DoInitialSchedules | src/AutoBodyShop.java:100-139 | after init(), the fields become Scheduled: both worker populations, one Generator and the stall charge as the only cost |
| Shop.AutoBodyShop.JoinLine | src/Customer.java:50-56 | totalCustomers + 1 and the customer appended to inSystem and the mechanic line |
| Shop.AutoBodyShop.Balk | src/Customer.java:74-91 | the balk updates exactly finished, both queues, totalBalked and the cost |
| Shop.AutoBodyShop.ArrivalBody | src/Customer.java:49-94 | the fields after the loop body are CustomerProcess.ArrivalBody of the fields before |
| Shop.AutoBodyShop.CustomerArrives | src/Customer.java:43-94 | the first segment of a customer leaves CustomerProcess.Arrive |
| Shop.AutoBodyShop.LoseToFullStalls | src/Customer.java:106-114 | with every stall in use exactly the specialist line, inSystem, totalLost, the cost and the record change |
| Shop.AutoBodyShop.ClaimStall | src/Customer.java:117-127 | stallsInUse + 1, then the first idle specialist dequeued and activated if there is one |
| Shop.AutoBodyShop.CustomerBackFromMechanic | src/Customer.java:97-135 | the segment after the mechanic leaves CustomerProcess.BackFromMechanic |
| Shop.AutoBodyShop.CustomerBackFromSpecialist | src/Customer.java:46-47 | the segment after the specialist leaves CustomerProcess.BackFromSpecialist |
| Shop.AutoBodyShop.MechanicSeek | src/Mechanic.java:49-65 | the loop test leaves MechanicProcess.Seek |
| Shop.AutoBodyShop.MechanicStarts | src/Mechanic.java:46-56 | the first segment leaves MechanicProcess.Start |
| Shop.AutoBodyShop.MechanicResumes | src/Mechanic.java:55-65 | the segment after passivate leaves MechanicProcess.Resume |
| Shop.AutoBodyShop.RepairOutcome | src/Mechanic.java:72-98 | each of the three outcomes changes exactly the fields AfterRepair's verdict names |
| Shop.AutoBodyShop.MechanicConcludes | src/Mechanic.java:69-104 | the bookkeeping after the hold leaves MechanicProcess.Conclude |
| Shop.AutoBodyShop.MechanicFinishes | src/Mechanic.java:65-104 | the segment after the hold leaves MechanicProcess.FinishRepair |
| Shop.AutoBodyShop.SpecialistSeek | src/Specialist.java:44-60 | the loop test leaves SpecialistProcess.Seek |
| Shop.AutoBodyShop.SpecialistStarts | src/Specialist.java:41-51 | the first segment leaves SpecialistProcess.Start |
| Shop.AutoBodyShop.SpecialistResumes | src/Specialist.java:50-60 | the segment after passivate leaves SpecialistProcess.Resume |
| Shop.AutoBodyShop.ReleaseStall | src/Specialist.java:68-71 | the car leaves inSystem and exactly one stall is released |
| Shop.AutoBodyShop.SpecialistConcludes | src/Specialist.java:62-75 | the bookkeeping after the hold leaves SpecialistProcess.Conclude |
| Shop.AutoBodyShop.SpecialistFinishes | src/Specialist.java:60-75 | the segment after the hold leaves SpecialistProcess.FinishRepair |
| Shop.AutoBodyShop.GeneratorLoop | src/Generator.java:39-58 | the loop test leaves GeneratorProcess.Loop |
| Shop.AutoBodyShop.GeneratorStarts | src/Generator.java:34-58 | the first segment leaves GeneratorProcess.Start |
| Shop.AutoBodyShop.GeneratorResumes | src/Generator.java:58-62 | the segment after the hold leaves GeneratorProcess.Resume |
| Shop.AutoBodyShop.Resume | src/Customer.java:106-128 | one scheduler decision changes the fields as Scheduler.Apply says, keeps Wf always, keeps Ordered when settled, and never lowers the cost with non-negative costs |
| Replication.Stop | src/ReplicationModel.java:139-147 | the run ends strictly past OPERATION_HOURS with inSystem empty; pinned down by StoppedDayBalances, which shows the day has then released every stall and counted every customer |
| Replication.StoppedDayBalances | src/ReplicationModel.java:139-146 | when the stopping condition ends a settled day, no stall is in use and balked + lost + fixed = totalCustomers |
| ShopState.Int32 | src/ReplicationModel.java:121 | Java int arithmetic: the result is in [-2^31, 2^31), congruent to the exact value modulo 2^32, and exact when the value fits |
| Replication.Seed | src/ReplicationModel.java:121 | the seed is a 32-bit value, equal to 979 + 2*runNumber whenever that fits |
| Replication.SeedOdd | src/ReplicationModel.java:121 | every seed is odd |
| Replication.SeedInjective | src/ReplicationModel.java:121 | distinct non-negative run numbers give distinct seeds, even where the sum wraps |
| Replication.BatchSeedsDistinct | src/ReplicationModel.java:84-86 | the runs 1 .. NUM_REPLICATIONS of a batch all get different seeds |
| Replication.Utilization | src/ReplicationModel.java:203-206 | (max - avg) / max is a real exactly when max is not 0; the busy share times max is max - avg; it lies in [0, 1] when 0 <= avg <= max and max > 0; 0/0 is NaN |
| Replication.OccupancyNeverBelowZero | src/ReplicationModel.java:203-214 | any occupancy of an idle queue gives a utilization that passes the check |
| Replication.EmptyQueueUtilizationPasses | src/ReplicationModel.java:204-214 | a queue never occupied gives NaN, which passes the `< 0` test |
| Replication.DayValidity | src/ReplicationModel.java:194-219 | with non-negative costs, the check accepts a day the shop can produce exactly when it ended at hour 6 or later, the library's statistics are not negative and the cost is not negative; when NUM_STALLS * STALL_COST fits in an `int` the cost condition always holds, so acceptance depends on the end time and the statistics alone |
| Replication.Extract | src/ReplicationModel.java:194-206 | the read-back takes the counters, the cost and the end time from the shop and the means and utilizations from the library; pinned down by DayValidity |
| Replication.Valid | src/ReplicationModel.java:210-215 | a run is bad if it ended before hour 6 or any value read back is below zero, with NaN not below zero; pinned down by DayValidity and EmptyQueueUtilizationPasses |
| Replication.Batch | src/ReplicationModel.java:84-95 | the observations of runs i .. n are at most one per run, and there are any exactly when the first run is accepted |
| Replication.BatchUpToFirstFailure | src/ReplicationModel.java:84-95 | the observations of a batch are those of the leading accepted runs, in run order, one per run |
| Replication.ReplicationModel.constructor | src/ReplicationModel.java:249-270 | the confidence calculators start without observations |
| Replication.ReplicationModel.RunSimulation | src/ReplicationModel.java:112-242 | a run returns true exactly when its experiment finished and its values passed the check, and only then adds one observation |
| Replication.ReplicationModel.DoInitialSchedules | src/ReplicationModel.java:71-105 | the batch returns true exactly when every run is accepted, and adds the observations of the runs before the first failure |

## Left out

- DESMO-J itself is not part of this model. That covers the event list, `SimProcess` scheduling and
  its tie-breaking, `ProcessQueue` statistics, and the `Count`, `Tally`, `Aggregate` and
  `ConfidenceCalculator` objects. The scheduler is a nondeterministic choice of any enabled
  process. Queues are sequences, counters are integers, and the cost is a real.
- Random distributions are not modelled. Samples are step parameters with their ranges: the balk
  threshold in [1, 8], the referral flag, and gaps and repair times that are not negative.
  Exponential sampling is floating-point numerics.
- Java doubles are modelled as exact reals. Rounding is not modelled. Division by zero appears
  only in the utilization, where its infinite and NaN results are modelled explicitly.
- The time-weighted averages and maxima of the queues, the mean of the response-time tally and
  the confidence intervals are library computations. They enter `Replication.Extract` as the
  input `LibraryStats`.
- `src/Driver.java` (Swing GUI), the display code in `src/ReplicationModel.java` (`displayRow`,
  result frames, `JOptionPane`, the `repInformation` text), `Thread.sleep`, `exp.report()` and
  `exp.finish()`, trace and debug switches, and `runFullSimulation` are I/O and UI; they are left
  out. `OfferedByDriver` only records the Driver's menu ranges.
- The idle-queue insert is assumed to do nothing when the id is already present (`Enlist`). Each
  mechanic is inserted at src/AutoBodyShop.java:112 and inserts itself again at
  src/Mechanic.java:54, and specialists do the same. What DESMO-J does with a second insert is not
  visible here.
- `activate()` on a process that is already scheduled, or that is running, is assumed to do
  nothing.
- Scheduler.Enabled: a process that has been activated, such as a started worker, a woken customer or
  the Generator, may resume at any time not before the clock, not only at the instant of its
  `activate()`. Holds end exactly at their due time. This over-approximates DESMO-J's timing, and
  every invariant is proved for the larger set of days.
- Configurations: NUM_MECHANICS, NUM_SPECIALISTS and NUM_STALLS are natural numbers here, as the
  Driver sets them, while the Java fields are signed `int`s. A negative NUM_STALLS, under which
  every referred customer would be lost, is not modelled.
- Replication.DayValidity: the cost stays non-negative only while NUM_STALLS * STALL_COST fits
  in an `int`, which every configuration the Driver offers does. Past that the Java product wraps,
  and `ShopState.WrappedOutlayIsNegative` shows a charge of -2^30. The acceptance of such a day
  then also depends on the day's remaining costs outweighing it.
- Runs.SettledDayAccounted: the lower bound `stallsInUse >= 0` and the per-customer accounting
  are proved only for settled orders, that is, no specialist segment ahead of a referred
  customer's own resumption. `Runs.OvertakingUnderflows` shows a trace without that order in
  which the counter reaches -1. That trace uses a zero-length specialist repair, which the
  sample range admits. It also uses two same-instant orders that a first-in-first-out tie-break
  would not choose, so it shows what a free interleaving allows, not a run DESMO-J is shown to
  produce. Settled order is also stronger than the accounting needs. It rules out a day that is
  legal under that tie-break: a referral and the end of a specialist's hold at the same instant,
  the specialist taking the car before its owner resumes, and the owner then claiming the stall.
  Such days are not covered by this lemma. Every other property, including
  `stallsInUse <= NUM_STALLS`, is proved for every interleaving.
- Replication.Valid: the end-time check compares the final clock with the literal 6, as
  src/ReplicationModel.java:210 does, not with OPERATION_HOURS; the model follows the code.
- Replication.ReplicationModel.DoInitialSchedules: the real `runSimulation` creates and runs a new experiment.
  Here its outcome is a function of the seed, and it either aborts or finishes in some final
  state. Tying that state to a `Runs.Run` day is left to `DayValidity` and `StoppedDayBalances`.
- Shop.AutoBodyShop: customers are kept as a sequence indexed by creation order. Each customer
  record has an `outcome` field (balked, lost, fixed) that the Java objects do not have. It is
  bookkeeping that lets conservation be stated per customer, and no decision of the model
  reads it.
