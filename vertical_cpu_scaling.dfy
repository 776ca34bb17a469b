/**
 * The vertical VM CPU scaling scenario: two VMs, each with a PE vertical
 * scaling whose band is [0.4, 0.7] and whose resize amount is twice the
 * scaling factor times the allocated PEs; and 80 cloudlets built up front in
 * 4 batches of 20, with growing lengths and a submission delay of 4 seconds
 * per batch.
 */
module VerticalVmCpuScaling {
  import opened Cloud
  import opened Autoscaling

  const VMS: nat := 2
  const VM_PES: nat := 2
  const VM_MIPS: nat := 1000
  const CLOUDLETS: nat := 80
  /** The bounds of the two loops in `createCloudletsInBatches`. */
  const BATCHES: nat := 4
  const BATCH_SIZE: nat := 20
  const CLOUDLET_PES: nat := 2
  const SCALING_FACTOR: real := 0.1
  const UPPER_CPU_THRESHOLD: real := 0.7

  function LowerCpuUtilizationThreshold(): real
  {
    0.4
  }

  /** The PE vertical scaling attached to every VM of this scenario. */
  function CreateVerticalPeScaling(): VerticalVmScaling
  {
    VerticalVmScaling(SCALING_FACTOR, LowerCpuUtilizationThreshold(), UPPER_CPU_THRESHOLD, Proportional(2.0))
  }

  /** The VM `createVm` builds when the counter reads `id`. */
  function NewVm(id: nat): Vm
  {
    Vm(id, VM_MIPS, VM_PES)
  }

  /** The `k`-th cloudlet `createCloudletsInBatches` appends. */
  function BatchCloudlet(k: nat): Cloudlet
  {
    UnnumberedCloudlet(10000 + k * 10000, CLOUDLET_PES, 4 * (k / BATCH_SIZE))
  }

  /** Everything `createCloudletsInBatches` appends, in order. */
  function BatchedCloudlets(): seq<Cloudlet>
  {
    seq(BATCHES * BATCH_SIZE, k requires 0 <= k < BATCHES * BATCH_SIZE => BatchCloudlet(k))
  }

  /**
   * The configured band is valid (0.4 below 0.7), and the resize amount is
   * 0.2 times the allocation: positive for a positive allocation and
   * monotone in it.
   */
  lemma PeScalingConfiguration(current: real, larger: real)
    ensures HasHysteresisBand(CreateVerticalPeScaling())
    ensures ResizeAmount(CreateVerticalPeScaling(), current) == 0.2 * current
    ensures current > 0.0 ==> ResizeAmount(CreateVerticalPeScaling(), current) > 0.0
    ensures current <= larger ==>
              ResizeAmount(CreateVerticalPeScaling(), current) <= ResizeAmount(CreateVerticalPeScaling(), larger)
  {
  }

  /**
   * 80 cloudlets, as many as CLOUDLETS, each asking for 2 PEs; lengths go
   * up strictly by 10000 from 10000 to 800000; delays are 0, 4, 8 or 12 and
   * never decrease.
   */
  lemma BatchedCloudletsShape()
    ensures |BatchedCloudlets()| == CLOUDLETS
    ensures forall k :: 0 <= k < CLOUDLETS ==> BatchedCloudlets()[k].pes == CLOUDLET_PES
    ensures BatchedCloudlets()[0].length == 10000 && BatchedCloudlets()[CLOUDLETS - 1].length == 800000
    ensures forall i, j :: 0 <= i < j < CLOUDLETS ==> BatchedCloudlets()[i].length < BatchedCloudlets()[j].length
    ensures forall k :: 0 <= k < CLOUDLETS ==> BatchedCloudlets()[k].submissionDelay in {0, 4, 8, 12}
    ensures forall i, j :: 0 <= i <= j < CLOUDLETS ==>
              BatchedCloudlets()[i].submissionDelay <= BatchedCloudlets()[j].submissionDelay
  {
  }

  class Scenario {
    var createsVms: nat
    var vmList: seq<VerticallyScaledVm>
    var cloudletList: seq<Cloudlet>

    /** Creates the two scalable VMs, then the batches of cloudlets. */
    constructor ()
      ensures createsVms == VMS
      ensures vmList == [VerticallyScaledVm(NewVm(0), CreateVerticalPeScaling()),
                         VerticallyScaledVm(NewVm(1), CreateVerticalPeScaling())]
      ensures cloudletList == BatchedCloudlets()
    {
      createsVms := 0;
      vmList := [];
      cloudletList := [];
      new;
      var vms := CreateListOfScalableVms(VMS);
      vmList := vmList + vms;
      CreateCloudletsInBatches();
    }

    /** `createVm`: the next id, 1000 MIPS, 2 PEs. */
    method CreateVm() returns (vm: Vm)
      modifies this`createsVms
      ensures vm == NewVm(old(createsVms)) && createsVms == old(createsVms) + 1
    {
      vm := NewVm(createsVms);
      createsVms := createsVms + 1;
    }

    /** Creates `vmsNumber` VMs with consecutive ids, each with the PE vertical scaling. */
    method CreateListOfScalableVms(vmsNumber: nat) returns (newVmList: seq<VerticallyScaledVm>)
      modifies this`createsVms
      ensures createsVms == old(createsVms) + vmsNumber
      ensures |newVmList| == vmsNumber
      ensures forall i :: 0 <= i < vmsNumber ==>
                newVmList[i] == VerticallyScaledVm(NewVm(old(createsVms) + i), CreateVerticalPeScaling())
    {
      newVmList := [];
      var i := 0;
      while i < vmsNumber
        invariant 0 <= i <= vmsNumber && |newVmList| == i
        invariant createsVms == old(createsVms) + i
        invariant forall j :: 0 <= j < i ==>
                    newVmList[j] == VerticallyScaledVm(NewVm(old(createsVms) + j), CreateVerticalPeScaling())
      {
        var vm := CreateVm();
        newVmList := newVmList + [VerticallyScaledVm(vm, CreateVerticalPeScaling())];
        i := i + 1;
      }
    }

    /** `createCloudletsInBatches`: 4 batches of 20, the running total fixing each length. */
    method CreateCloudletsInBatches()
      modifies this`cloudletList
      ensures cloudletList == old(cloudletList) + BatchedCloudlets()
    {
      var total := 0;
      var batch := 0;
      while batch < BATCHES
        invariant 0 <= batch <= BATCHES && total == BATCH_SIZE * batch
        invariant cloudletList == old(cloudletList) + BatchedCloudlets()[..total]
      {
        var i := 0;
        while i < BATCH_SIZE
          invariant 0 <= i <= BATCH_SIZE && total == BATCH_SIZE * batch + i
          invariant cloudletList == old(cloudletList) + BatchedCloudlets()[..total]
        {
          var length := 10000 + total * 10000;
          assert total / BATCH_SIZE == batch;
          cloudletList := cloudletList + [UnnumberedCloudlet(length, CLOUDLET_PES, batch * 4)];
          assert BatchedCloudlets()[..total + 1] == BatchedCloudlets()[..total] + [BatchCloudlet(total)];
          total := total + 1;
          i := i + 1;
        }
        batch := batch + 1;
      }
      assert BatchedCloudlets()[..total] == BatchedCloudlets();
    }
  }
}
