/**
 * The vertical scaling scenario: two VMs numbered by a counter, each with a
 * CPU vertical scaling whose lower threshold is 0.0 (so it never scales
 * down) and whose resize amount is the scaling factor times the allocated
 * PEs; and cloudlets built up front, 20 for each length from 10000 to
 * 200000 in steps of 10000, each group submitted 4 seconds after the one
 * before.
 */
module VerticalScaling {
  import opened Cloud
  import opened Autoscaling

  const VMS: nat := 2
  const VM_PES: nat := 2
  const VM_MIPS: nat := 1000
  const CLOUDLETS_PER_BATCH: nat := 20
  /** Only a list capacity and a utilization divisor: not the number of cloudlets built. */
  const TOTAL_CLOUDLETS: nat := 80
  const CLOUDLET_MIN_LENGTH: nat := 10000
  const CLOUDLET_MAX_LENGTH: nat := 200000
  const CLOUDLET_STEP: nat := 10000
  /** How many lengths the outer loop of `createCloudletsBatches` visits. */
  const LENGTH_STEPS: nat := (CLOUDLET_MAX_LENGTH - CLOUDLET_MIN_LENGTH) / CLOUDLET_STEP + 1
  /** Seconds between the submissions of consecutive groups. */
  const GROUP_DELAY: nat := 4
  const SCALING_FACTOR: real := 0.1

  /** The CPU vertical scaling attached to every VM of this scenario. */
  function CreateVerticalCpuScaling(): VerticalVmScaling
  {
    VerticalVmScaling(SCALING_FACTOR, 0.0, 0.7, Proportional(1.0))
  }

  /** The `k`-th cloudlet `createCloudletsBatches` appends: group `k / 20`. */
  function GroupedCloudlet(k: nat): Cloudlet
  {
    var group := k / CLOUDLETS_PER_BATCH;
    UnnumberedCloudlet(CLOUDLET_MIN_LENGTH + CLOUDLET_STEP * group, VM_PES, GROUP_DELAY * group)
  }

  /** Everything `createCloudletsBatches` appends, in order. */
  function GroupedCloudlets(): seq<Cloudlet>
  {
    seq(LENGTH_STEPS * CLOUDLETS_PER_BATCH,
        k requires 0 <= k < LENGTH_STEPS * CLOUDLETS_PER_BATCH => GroupedCloudlet(k))
  }

  /**
   * Utilization is never negative, so the lower threshold 0.0 is never
   * crossed and this scaling never scales down; the band is valid and the
   * resize amount is 0.1 times the allocation.
   */
  lemma CpuScalingConfiguration(utilization: real, current: real)
    ensures HasHysteresisBand(CreateVerticalCpuScaling())
    ensures utilization >= 0.0 ==> !IsUnderloaded(CreateVerticalCpuScaling(), utilization)
    ensures ResizeAmount(CreateVerticalCpuScaling(), current) == 0.1 * current
  {
  }

  /**
   * 400 cloudlets, not TOTAL_CLOUDLETS, each asking for VM_PES PEs; lengths
   * lie in [10000, 200000] and never decrease.
   */
  lemma GroupedCloudletsShape()
    ensures |GroupedCloudlets()| == 400 && |GroupedCloudlets()| != TOTAL_CLOUDLETS
    ensures forall k :: 0 <= k < 400 ==>
              GroupedCloudlets()[k].pes == VM_PES
              && CLOUDLET_MIN_LENGTH <= GroupedCloudlets()[k].length <= CLOUDLET_MAX_LENGTH
    ensures forall i, j :: 0 <= i <= j < 400 ==> GroupedCloudlets()[i].length <= GroupedCloudlets()[j].length
  {
  }

  /**
   * Within a group of 20 the delay and the length stay the same; from the
   * last cloudlet of a group to the first of the next, the delay grows by
   * exactly 4 and the length by exactly 10000.
   */
  lemma GroupBoundaries(k: nat)
    requires k + 1 < 400
    ensures (k + 1) % CLOUDLETS_PER_BATCH != 0 ==>
              GroupedCloudlets()[k + 1].submissionDelay == GroupedCloudlets()[k].submissionDelay
              && GroupedCloudlets()[k + 1].length == GroupedCloudlets()[k].length
    ensures (k + 1) % CLOUDLETS_PER_BATCH == 0 ==>
              GroupedCloudlets()[k + 1].submissionDelay == GroupedCloudlets()[k].submissionDelay + GROUP_DELAY
              && GroupedCloudlets()[k + 1].length == GroupedCloudlets()[k].length + CLOUDLET_STEP
  {
  }

  class Scenario {
    var vmCounter: nat
    var vmList: seq<VerticallyScaledVm>
    var cloudletList: seq<Cloudlet>

    /** Creates the two scalable VMs, then the cloudlet groups. */
    constructor ()
      ensures vmCounter == VMS
      ensures vmList == [VerticallyScaledVm(Vm(0, VM_MIPS, VM_PES), CreateVerticalCpuScaling()),
                         VerticallyScaledVm(Vm(1, VM_MIPS, VM_PES), CreateVerticalCpuScaling())]
      ensures cloudletList == GroupedCloudlets()
    {
      vmCounter := 0;
      vmList := [];
      cloudletList := [];
      new;
      var vms := CreateScalableVms(VMS);
      vmList := vmList + vms;
      CreateCloudletsBatches();
    }

    /**
     * `createScalableVms`: `count` VMs whose ids run from the counter's old
     * value up, each with the CPU vertical scaling; the counter advances by
     * `count`.
     */
    method CreateScalableVms(count: nat) returns (list: seq<VerticallyScaledVm>)
      modifies this`vmCounter
      ensures vmCounter == old(vmCounter) + count
      ensures |list| == count
      ensures forall i :: 0 <= i < count ==>
                list[i] == VerticallyScaledVm(Vm(old(vmCounter) + i, VM_MIPS, VM_PES), CreateVerticalCpuScaling())
    {
      list := [];
      var i := 0;
      while i < count
        invariant 0 <= i <= count && |list| == i
        invariant vmCounter == old(vmCounter) + i
        invariant forall j :: 0 <= j < i ==>
                    list[j] == VerticallyScaledVm(Vm(old(vmCounter) + j, VM_MIPS, VM_PES), CreateVerticalCpuScaling())
      {
        var vm := Vm(vmCounter, VM_MIPS, VM_PES);
        vmCounter := vmCounter + 1;
        list := list + [VerticallyScaledVm(vm, CreateVerticalCpuScaling())];
        i := i + 1;
      }
    }

    /**
     * `createCloudletsBatches`: for each length from 10000 to 200000 in
     * steps of 10000, 20 cloudlets with that length and the current delay,
     * which then grows by 4.
     */
    method CreateCloudletsBatches()
      modifies this`cloudletList
      ensures cloudletList == old(cloudletList) + GroupedCloudlets()
    {
      var delay := 0;
      var length := CLOUDLET_MIN_LENGTH;
      ghost var group := 0;
      while length <= CLOUDLET_MAX_LENGTH
        invariant 0 <= group <= LENGTH_STEPS
        invariant length == CLOUDLET_MIN_LENGTH + CLOUDLET_STEP * group && delay == GROUP_DELAY * group
        invariant cloudletList == old(cloudletList) + GroupedCloudlets()[..CLOUDLETS_PER_BATCH * group]
        decreases LENGTH_STEPS - group
      {
        var i := 0;
        while i < CLOUDLETS_PER_BATCH
          invariant 0 <= i <= CLOUDLETS_PER_BATCH
          invariant cloudletList == old(cloudletList) + GroupedCloudlets()[..CLOUDLETS_PER_BATCH * group + i]
        {
          ghost var k := CLOUDLETS_PER_BATCH * group + i;
          assert k / CLOUDLETS_PER_BATCH == group;
          cloudletList := cloudletList + [UnnumberedCloudlet(length, VM_PES, delay)];
          assert GroupedCloudlets()[..k + 1] == GroupedCloudlets()[..k] + [GroupedCloudlet(k)];
          i := i + 1;
        }
        length := length + CLOUDLET_STEP;
        delay := delay + GROUP_DELAY;
        group := group + 1;
      }
      assert GroupedCloudlets()[..CLOUDLETS_PER_BATCH * group] == GroupedCloudlets();
    }
  }
}
