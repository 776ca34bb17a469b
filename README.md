# Autoscaling scenario bookkeeping, modelled in Dafny

This project models the workload and worker bookkeeping in three CloudSim Plus autoscaling
scenario programs. The rest of those programs is library configuration.

* **Horizontal scaling load balancer.** A clock-tick listener creates cloudlets. It acts only
  on ticks whose time, truncated to a `long`, is a multiple of 4, and only while fewer than
  80 cloudlets exist. Each such tick creates up to 20 cloudlets and stops at 80. Cloudlet `id`
  gets length `lengths[id % 20]` from an ascending table of 20 lengths, 10000 to 200000.
  Every VM, including each one the horizontal scaling supplier clones, takes its id from one
  shared `createsVms` counter. A VM is overloaded when its CPU utilization is strictly above
  0.7.
* **Vertical VM CPU scaling.** This scenario builds 4 batches of 20 cloudlets up front. The
  k-th cloudlet has length `10000 + 10000·k`, 2 PEs and delay `4·(k / 20)`. Its two VMs have
  consecutive ids. Each VM gets a PE vertical scaling with thresholds 0.4 and 0.7 and a
  resize amount of `2 · 0.1 · allocated`.
* **Vertical scaling.** This scenario builds 20 cloudlets for each length from 10000 to
  200000 in steps of 10000. Each group has a delay 4 seconds later than the group before.
  Its VMs are numbered by `vmCounter`. Each VM gets a CPU vertical scaling with thresholds
  0.0 and 0.7 and a resize amount of `0.1 · allocated`.

## Layout

* `cloud.dfy` (module `Cloud`): the `Cloudlet` record `{id, length, pes, submissionDelay}`,
  the `Vm` record `{id, mips, pes}`, and the cloudlet built without an id.
* `autoscaling.dfy` (module `Autoscaling`): the vertical scaling configuration is a value.
  It holds the scaling factor, the two thresholds and a proportional resource-scaling
  function. This module also has the under/overload predicates and the resize amount.
* `load_balancer.dfy`, `vertical_cpu_scaling.dfy`, `vertical_scaling.dfy`: one module per
  scenario program. Each module's `Scenario` class has the program's counters and lists as
  fields and one method per state-changing program method; pure helpers such as the
  overload predicate, the scaling configurations and the vertical scenarios' cloudlet
  builders are module functions. Each method's contract ties the new state to a
  specification function, such as `BatchSize`, `CloudletsFrom`, `BatchedCloudlets` or
  `GroupedCloudlets`. Lemmas state what those functions promise.

Utilization is an opaque `real` input. Submission delays are natural numbers, because every
delay these programs set is a whole multiple of 4.0. A clock tick is a call of
`CreateNewCloudlets(time)`. The time sequence a simulation would deliver is a parameter
(`CreatedAfterTicks`, delivered by `Scenario.DeliverTicks`). A broker submission is the sequence a method returns, or the list it
appends to.

## Behaviour of the code worth noting

* `createNewCloudlets` has no duplicate-tick guard. Ticks at 4.0 and 4.5 both truncate to
  4, and each emits a batch while budget remains. `RepeatedTickEmitsAgain` and
  `DuplicateTickScenario` show this.
* The constructor creates a first batch of 20 before any tick. Ticks at 0, 4 and 8 then use
  up the budget of 80, so ticks at 12 and 16 emit nothing (`IntervalTicksScenario`).
* `createCloudletsInBatches` comments its lengths as "10000 → 200000". The code reaches
  800000 for the 80th cloudlet.
* `createCloudletsBatches` builds 400 cloudlets. `TOTAL_CLOUDLETS` = 80 is used only as a
  list capacity and a utilization divisor.

## Model

| member | source | states |
|---|---|---|
| `LoadBalancerByHorizontalVmScaling.LengthTableShape` | src/main/java/org/cloudsimplus/examples/autoscaling/LoadBalancerByHorizontalVmScalingExample.java:112 | the length table has exactly 20 entries, strictly ascending from 10000 to 200000 in steps of 10000 |
| `LoadBalancerByHorizontalVmScaling.TruncateToLong` | src/main/java/org/cloudsimplus/examples/autoscaling/LoadBalancerByHorizontalVmScalingExample.java:140 | the `(long)` cast truncates toward zero and stays within the 64-bit range: the result is at most 1 away from the time and on its side of zero |
| `LoadBalancerByHorizontalVmScaling.BatchSize` | src/main/java/org/cloudsimplus/examples/autoscaling/LoadBalancerByHorizontalVmScalingExample.java:139-151 | one tick creates at most 20 cloudlets and never takes the count past 80; it creates none exactly when the truncated time is not a multiple of 4 or 80 already exist; a short batch happens only when it exhausts the budget |
| `LoadBalancerByHorizontalVmScaling.LengthsRoundRobin` | src/main/java/org/cloudsimplus/examples/autoscaling/LoadBalancerByHorizontalVmScalingExample.java:201-208 | every cloudlet length is a table member; the next id's length is 10000 more, or wraps to 10000 after 200000; the lengths repeat every 20 ids |
| `LoadBalancerByHorizontalVmScaling.BudgetNeverExceeded` | src/main/java/org/cloudsimplus/examples/autoscaling/LoadBalancerByHorizontalVmScalingExample.java:139-151 | for any sequence of tick times, the cloudlet counter never decreases and never exceeds 80 |
| `LoadBalancerByHorizontalVmScaling.RepeatedTickEmitsAgain` | src/main/java/org/cloudsimplus/examples/autoscaling/LoadBalancerByHorizontalVmScalingExample.java:140-141 | with budget for two full batches left, a tick emits 20 and a second tick with the same truncated time emits again: there is no per-timestamp idempotence |
| `LoadBalancerByHorizontalVmScaling.OverloadBoundary` | src/main/java/org/cloudsimplus/examples/autoscaling/LoadBalancerByHorizontalVmScalingExample.java:190-192 | 0.7 itself is not overloaded; every utilization above 0.7 is; overload is upward closed |
| `LoadBalancerByHorizontalVmScaling.Scenario.constructor` | src/main/java/org/cloudsimplus/examples/autoscaling/LoadBalancerByHorizontalVmScalingExample.java:95-122 | after construction the invariant holds, VMs 0 and 1 exist, the length table is filled and 20 cloudlets exist |
| `LoadBalancerByHorizontalVmScaling.Scenario.CreateVm` | src/main/java/org/cloudsimplus/examples/autoscaling/LoadBalancerByHorizontalVmScalingExample.java:194-199 | the VM gets the old counter value as id, 1000 MIPS and 2 PEs; the counter goes up by one; the id is above every id issued before, so ids are never reused, whether for initial VMs or supplied clones |
| `LoadBalancerByHorizontalVmScaling.Scenario.CreateListOfScalableVms` | src/main/java/org/cloudsimplus/examples/autoscaling/LoadBalancerByHorizontalVmScalingExample.java:172-188 | returns `vmsNumber` VMs with consecutive ids from the old counter value; the counter advances by `vmsNumber` |
| `LoadBalancerByHorizontalVmScaling.Scenario.CreateCloudlet` | src/main/java/org/cloudsimplus/examples/autoscaling/LoadBalancerByHorizontalVmScalingExample.java:201-208 | the cloudlet gets the old counter value as id, the length at `id % size` of the table and 2 PEs; the counter goes up by one |
| `LoadBalancerByHorizontalVmScaling.Scenario.CreateCloudletList` | src/main/java/org/cloudsimplus/examples/autoscaling/LoadBalancerByHorizontalVmScalingExample.java:133-137 | appends the next min(20, 80) cloudlets and keeps the invariant: list length equals the counter, `cloudletList[i].id == i` |
| `LoadBalancerByHorizontalVmScaling.Scenario.CreateNewCloudlets` | src/main/java/org/cloudsimplus/examples/autoscaling/LoadBalancerByHorizontalVmScalingExample.java:139-152 | the counter grows by exactly `BatchSize`: min(80, old + 20) on a creation tick with budget left, otherwise unchanged; the submitted list is exactly the suffix appended to `cloudletList`; the invariant is kept |
| `LoadBalancerByHorizontalVmScaling.DuplicateTickScenario` | src/main/java/org/cloudsimplus/examples/autoscaling/LoadBalancerByHorizontalVmScalingExample.java:139-151 | after construction, ticks at 1.0, 4.0, 4.5, 8.0 and 12.0 leave the counter at 20, 40, 60, 80 and 80 |
| `LoadBalancerByHorizontalVmScaling.IntervalTicksScenario` | src/main/java/org/cloudsimplus/examples/autoscaling/LoadBalancerByHorizontalVmScalingExample.java:139-151 | after construction, ticks at 0.0, 4.0, 8.0, 12.0 and 16.0 leave the counter at 40, 60, 80, 80 and 80 and submit 20, 20, 20, 0 and 0 cloudlets |
| `LoadBalancerByHorizontalVmScaling.CreatedAfterTicksAppend` | src/main/java/org/cloudsimplus/examples/autoscaling/LoadBalancerByHorizontalVmScalingExample.java:139-151 | one more tick at the end of a tick sequence adds exactly that tick's batch to the counter the earlier ticks left |
| `LoadBalancerByHorizontalVmScaling.Scenario.DeliverTicks` | src/main/java/org/cloudsimplus/examples/autoscaling/LoadBalancerByHorizontalVmScalingExample.java:139-152 | calling the tick listener once per time in a sequence leaves the counter at `CreatedAfterTicks` of the sequence, never below where it started, keeps the invariant and appends exactly the cloudlets with the new ids |
| `LoadBalancerByHorizontalVmScaling.SuppliedVmScenario` | src/main/java/org/cloudsimplus/examples/autoscaling/LoadBalancerByHorizontalVmScalingExample.java:182-199 | a VM that the horizontal scaling supplier asks for after construction is VM 2, with 1000 MIPS and 2 PEs |
| `Autoscaling.ResizeAmount` | src/main/java/org/cloudsimplus/examples/autoscaling/VerticalVmCpuScalingExample.java:156 | with a positive factor and multiplier, the resize amount is positive exactly for a positive allocation and zero exactly for a zero one |
| `Autoscaling.ResizeMonotone` | src/main/java/org/cloudsimplus/examples/autoscaling/VerticalScalingExample.java:140 | the multiplicative resize amount is monotone in the allocation |
| `Autoscaling.BandSeparatesDecisions` | src/main/java/org/cloudsimplus/examples/autoscaling/VerticalScalingExample.java:136-137 | when the lower threshold is below the upper one, no utilization asks for both a scale-down and a scale-up |
| `VerticalVmCpuScaling.PeScalingConfiguration` | src/main/java/org/cloudsimplus/examples/autoscaling/VerticalVmCpuScalingExample.java:153-165 | lower threshold 0.4 lies strictly below upper threshold 0.7; the resize amount is 0.2 times the allocation, positive for a positive allocation and monotone |
| `VerticalVmCpuScaling.BatchedCloudletsShape` | src/main/java/org/cloudsimplus/examples/autoscaling/VerticalVmCpuScalingExample.java:168-177 | 4 × 20 = 80 = CLOUDLETS cloudlets with 2 PEs each; lengths strictly increase from 10000 to 800000; delays are in {0, 4, 8, 12} and never decrease |
| `VerticalVmCpuScaling.Scenario.constructor` | src/main/java/org/cloudsimplus/examples/autoscaling/VerticalVmCpuScalingExample.java:69-90 | after construction, VMs 0 and 1 carry the PE vertical scaling and the cloudlet list is exactly the batched cloudlets |
| `VerticalVmCpuScaling.Scenario.CreateVm` | src/main/java/org/cloudsimplus/examples/autoscaling/VerticalVmCpuScalingExample.java:143-151 | the VM gets the old counter value as id, VM_MIPS = 1000 and VM_PES = 2; the counter goes up by one |
| `VerticalVmCpuScaling.Scenario.CreateListOfScalableVms` | src/main/java/org/cloudsimplus/examples/autoscaling/VerticalVmCpuScalingExample.java:133-141 | returns `vmsNumber` VMs with consecutive ids from the old counter value, each with the PE vertical scaling; the counter advances by `vmsNumber` |
| `VerticalVmCpuScaling.Scenario.CreateCloudletsInBatches` | src/main/java/org/cloudsimplus/examples/autoscaling/VerticalVmCpuScalingExample.java:167-190 | the nested loops, each iteration building its cloudlet with `createCloudlet`, append exactly the 80 cloudlets in which the k-th has length `10000 + 10000·k`, 2 PEs and delay `4·(k / 20)` |
| `VerticalScaling.CpuScalingConfiguration` | src/main/java/org/cloudsimplus/examples/autoscaling/VerticalScalingExample.java:131-143 | thresholds 0.0 and 0.7 form a valid band; no non-negative utilization is below the lower threshold, so the VM is never scaled down; the resize amount is 0.1 times the allocation |
| `VerticalScaling.GroupedCloudletsShape` | src/main/java/org/cloudsimplus/examples/autoscaling/VerticalScalingExample.java:46-50 | 20 lengths × 20 = 400 cloudlets, not TOTAL_CLOUDLETS; each asks for VM_PES = 2 PEs; lengths lie in [10000, 200000] and never decrease |
| `VerticalScaling.GroupBoundaries` | src/main/java/org/cloudsimplus/examples/autoscaling/VerticalScalingExample.java:145-153 | within a group of 20, delay and length stay the same; between groups, the delay grows by exactly 4 and the length by exactly 10000 |
| `VerticalScaling.Scenario.constructor` | src/main/java/org/cloudsimplus/examples/autoscaling/VerticalScalingExample.java:64-83 | after construction, VMs 0 and 1 carry the CPU vertical scaling and the cloudlet list is exactly the grouped cloudlets |
| `VerticalScaling.Scenario.CreateScalableVms` | src/main/java/org/cloudsimplus/examples/autoscaling/VerticalScalingExample.java:116-129 | returns `count` VMs with ids from the old `vmCounter` value up to that value + count − 1, each with 1000 MIPS, 2 PEs and the CPU vertical scaling; `vmCounter` advances by exactly `count` |
| `VerticalScaling.Scenario.CreateCloudletsBatches` | src/main/java/org/cloudsimplus/examples/autoscaling/VerticalScalingExample.java:145-173 | the loops over `length` and `delay`, each iteration building its cloudlet with `createCloudlet`, append exactly the 400 cloudlets in which the k-th has length `10000·(k / 20 + 1)`, VM_PES PEs and delay `4·(k / 20)` |

## Left out

- The simulation kernel, datacenter, host and broker objects, `simulation.start()` and tick dispatch are library plumbing. A tick is a method call with its time. A broker submission is the returned or appended sequence.
- The time-shared cloudlet and VM schedulers and the vertical and horizontal scaling engines belong to the library. These include rounding a resize amount to whole PEs, any maximum cap, the clone cooldown and VM destruction after `setVmDestructionDelay`. The program only configures them.
- `createHorizontalVmScaling`: the library policy object is not modelled. Its two configured parts are. The supplier is `Scenario.CreateVm`, so clones draw ids from the shared counter. The predicate is `IsVmOverloaded`.
- Utilization models and `getCpuPercentUtilization` compute library floating-point values. Utilization is an opaque real input, and `IsVmOverloaded` takes that value instead of the VM.
- The threshold functions take a VM and return a constant. Each is modelled as its constant.
- `UniformDistr` random generation is never used.
- Console and table output: the tick listeners' `printf`, `printSimulationResults`, `printResults` and `CloudletsTableBuilder`. This includes the message at the start of `createNewCloudlets`, which reports 20 cloudlets even when fewer are created.
- File and output sizes, RAM, bandwidth, storage, `createDatacenter` and `createHost` are configuration constants with no logic attached.
- The vertical scenarios' `createCloudlet` keeps only length, PEs and delay. The cloudlet has no id until the broker numbers it (`UNASSIGNED_ID`).
- Thresholds, the scaling factor, the multipliers and resize amounts are exact reals where the program computes in `double`. So `PeScalingConfiguration`'s `0.2 * current` and `CpuScalingConfiguration`'s `0.1 * current` are exact products, and any `double` rounding of `2 * 0.1 * current` is not modelled.
- `TruncateToLong` does not model a NaN time, which Java casts to 0. Simulation time is never NaN.
- `Scenario.CreateVm` (all scenarios) and `Scenario.CreateScalableVms` do not model 32-bit wrap-around of the `int` counters, because it would take 2^31 VMs.
- `Scenario.CreateCloudletList` requires room for one full batch in the budget. The Java method has no budget test of its own, and the constructor calls it on a fresh counter.
- `simpleExemple.java` is scenario wiring with no counters or guards. It is not part of this model.
