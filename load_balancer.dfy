/**
 * The horizontal scaling load-balancer scenario: a cloudlet generator that,
 * on clock ticks whose truncated time is a multiple of 4, emits batches of
 * up to 20 cloudlets until 80 have been created, each cloudlet's length
 * taken round-robin from an ascending table; and a VM factory whose id
 * counter is shared by the initial VMs and by the VMs the horizontal scaling
 * supplier creates when a VM is overloaded.
 */
module LoadBalancerByHorizontalVmScaling {
  import opened Cloud

  const CLOUDLETS_CREATION_INTERVAL: int := 4
  const VMS: nat := 2
  const CLOUDLETS_BATCH: nat := 20
  const TOTAL_CLOUDLETS: nat := 80
  const CLOUDLET_PES: nat := 2
  const VM_MIPS: nat := 1000
  const VM_PES: nat := 2
  /** CPU utilization above which a VM is overloaded. */
  const OVERLOAD_THRESHOLD: real := 0.7

  const LONG_MAX: int := 0x7fff_ffff_ffff_ffff
  const LONG_MIN: int := -0x8000_0000_0000_0000

  /** The cloudlet lengths filled at construction: 10000 up to 200000 in steps of 10000. */
  function LengthTable(): seq<nat>
  {
    seq(20, i requires 0 <= i < 20 => 10000 * (i + 1))
  }

  /**
   * Java's `(long)` cast of a (non-NaN) double: truncation toward zero,
   * saturating at the bounds of a 64-bit long.
   */
  function TruncateToLong(time: real): (t: int)
    ensures LONG_MIN <= t <= LONG_MAX
    ensures time >= 0.0 ==> 0 <= t && t as real <= time
    ensures 0.0 <= time < LONG_MAX as real ==> time < t as real + 1.0
    ensures time < 0.0 ==> t <= 0 && time <= t as real
    ensures LONG_MIN as real < time < 0.0 ==> t as real - 1.0 < time
  {
    if time >= 0.0 then Min(time.Floor, LONG_MAX)
    else Max(-((-time).Floor), LONG_MIN)
  }

  /**
   * The tick guard's time condition.  Java's `%` takes the sign of the
   * dividend where Dafny's never is negative, but the two agree on whether
   * the remainder is zero.
   */
  predicate IsCreationTick(time: real)
  {
    TruncateToLong(time) % CLOUDLETS_CREATION_INTERVAL == 0
  }

  /** How many cloudlets one tick at `time` creates when `created` exist already. */
  function BatchSize(created: nat, time: real): (n: nat)
    ensures n <= CLOUDLETS_BATCH
    ensures created <= TOTAL_CLOUDLETS ==> created + n <= TOTAL_CLOUDLETS
    ensures n == 0 <==> !IsCreationTick(time) || created >= TOTAL_CLOUDLETS
    ensures 0 < n < CLOUDLETS_BATCH ==> created + n == TOTAL_CLOUDLETS
  {
    if IsCreationTick(time) && created < TOTAL_CLOUDLETS
    then Min(CLOUDLETS_BATCH, TOTAL_CLOUDLETS - created)
    else 0
  }

  /** The cloudlet `createCloudlet` builds when the counter reads `id`. */
  function NewCloudlet(id: nat): Cloudlet
  {
    Cloudlet(id, LengthTable()[id % |LengthTable()|], CLOUDLET_PES, 0)
  }

  /** The VM `createVm` builds when the counter reads `id`. */
  function NewVm(id: nat): Vm
  {
    Vm(id, VM_MIPS, VM_PES)
  }

  /** The cloudlets created while the counter goes from `from` to `from + count`. */
  function CloudletsFrom(from: nat, count: nat): seq<Cloudlet>
  {
    seq(count, k requires 0 <= k < count => NewCloudlet(from + k))
  }

  /** Overload predicate given to the horizontal scaling: strictly above 70% CPU. */
  predicate IsVmOverloaded(cpuUtilization: real)
  {
    cpuUtilization > OVERLOAD_THRESHOLD
  }

  /** The counter after ticks at `times`, one tick after another. */
  function CreatedAfterTicks(created: nat, times: seq<real>): nat
    decreases |times|
  {
    if times == [] then created
    else CreatedAfterTicks(created + BatchSize(created, times[0]), times[1..])
  }

  /** The table has 20 entries, from 10000 to 200000, each 10000 above the one before. */
  lemma LengthTableShape()
    ensures |LengthTable()| == 20
    ensures LengthTable()[0] == 10000 && LengthTable()[19] == 200000
    ensures forall i :: 0 < i < 20 ==> LengthTable()[i] == LengthTable()[i - 1] + 10000
  {
  }

  /**
   * Lengths go round-robin: every cloudlet's length is a table member, the
   * next id is 10000 longer except after the last entry, where it wraps
   * back to the first, and the whole pattern repeats every 20 ids.
   */
  lemma LengthsRoundRobin(id: nat)
    ensures NewCloudlet(id).length in LengthTable()
    ensures id % 20 < 19 ==> NewCloudlet(id + 1).length == NewCloudlet(id).length + 10000
    ensures id % 20 == 19 ==> NewCloudlet(id + 1).length == 10000
    ensures NewCloudlet(id + 20).length == NewCloudlet(id).length
  {
  }

  /**
   * The budget holds whatever sequence of tick times is delivered: the
   * counter never decreases and never passes 80.
   */
  lemma {:induction false} BudgetNeverExceeded(created: nat, times: seq<real>)
    requires created <= TOTAL_CLOUDLETS
    ensures created <= CreatedAfterTicks(created, times) <= TOTAL_CLOUDLETS
    decreases |times|
  {
    if times != [] {
      BudgetNeverExceeded(created + BatchSize(created, times[0]), times[1..]);
    }
  }

  /**
   * No duplicate-tick guard: a second tick whose time truncates to that of
   * an emitting tick emits again while budget remains.
   */
  lemma RepeatedTickEmitsAgain(created: nat, first: real, second: real)
    requires IsCreationTick(first) && TruncateToLong(second) == TruncateToLong(first)
    requires created + CLOUDLETS_BATCH < TOTAL_CLOUDLETS
    ensures BatchSize(created, first) == CLOUDLETS_BATCH
    ensures BatchSize(created + BatchSize(created, first), second) > 0
  {
  }

  /** One more tick at the end extends the counter by that tick's batch. */
  lemma {:induction false} CreatedAfterTicksAppend(created: nat, times: seq<real>, time: real)
    ensures CreatedAfterTicks(created, times + [time])
            == CreatedAfterTicks(created, times) + BatchSize(CreatedAfterTicks(created, times), time)
    decreases |times|
  {
    if times == [] {
      assert [time][1..] == [];
    } else {
      assert (times + [time])[1..] == times[1..] + [time];
      CreatedAfterTicksAppend(created + BatchSize(created, times[0]), times[1..], time);
    }
  }

  /** 70% itself is not overloaded; anything above it is, and overload is upward closed. */
  lemma OverloadBoundary(u: real, v: real)
    ensures !IsVmOverloaded(0.7)
    ensures u > 0.7 ==> IsVmOverloaded(u)
    ensures IsVmOverloaded(u) && u <= v ==> IsVmOverloaded(v)
  {
  }

  class Scenario {
    var createdCloudlets: nat
    var createsVms: nat
    var cloudletList: seq<Cloudlet>
    var cloudletLengths: seq<nat>
    var vmList: seq<Vm>
    /** Every VM `createVm` has returned: the initial ones and those supplied to the horizontal scaling. */
    ghost var issuedVms: seq<Vm>

    /** VM ids are handed out consecutively from 0, one per created VM. */
    ghost predicate VmsValid()
      reads this
    {
      |issuedVms| == createsVms
      && (forall i :: 0 <= i < |issuedVms| ==> issuedVms[i] == NewVm(i))
    }

    /** The cloudlet list holds exactly the cloudlets created so far, ids 0, 1, 2, ... */
    ghost predicate CloudletsValid()
      reads this
    {
      cloudletLengths == LengthTable()
      && createdCloudlets <= TOTAL_CLOUDLETS
      && |cloudletList| == createdCloudlets
      && (forall i :: 0 <= i < |cloudletList| ==> cloudletList[i] == NewCloudlet(i))
    }

    ghost predicate Valid()
      reads this
    {
      VmsValid() && CloudletsValid()
    }

    /**
     * Creates the two scalable VMs, fills the length table and creates the
     * first batch of cloudlets.
     */
    constructor ()
      ensures Valid()
      ensures createsVms == VMS && vmList == [NewVm(0), NewVm(1)]
      ensures createdCloudlets == CLOUDLETS_BATCH
    {
      createdCloudlets := 0;
      createsVms := 0;
      cloudletList := [];
      cloudletLengths := [];
      vmList := [];
      issuedVms := [];
      new;
      var vms := CreateListOfScalableVms(VMS);
      assert vms == [NewVm(0), NewVm(1)];
      vmList := vmList + vms;
      var l := 10000;
      ghost var k := 0;
      while l <= 200000
        invariant 0 <= k <= 20 && l == 10000 * (k + 1)
        invariant cloudletLengths == LengthTable()[..k]
        invariant VmsValid() && vmList == vms && createsVms == VMS
        invariant createdCloudlets == 0 && cloudletList == []
      {
        cloudletLengths := cloudletLengths + [l];
        l := l + 10000;
        k := k + 1;
      }
      assert cloudletLengths == LengthTable();
      CreateCloudletList();
    }

    /** `createVm`, which is also the VM supplier of every VM's horizontal scaling. */
    method CreateVm() returns (vm: Vm)
      requires VmsValid()
      modifies this`createsVms, this`issuedVms
      ensures VmsValid()
      ensures vm == NewVm(old(createsVms)) && createsVms == old(createsVms) + 1
      ensures issuedVms == old(issuedVms) + [vm]
      ensures forall v :: v in old(issuedVms) ==> v.id < vm.id
    {
      vm := NewVm(createsVms);
      createsVms := createsVms + 1;
      issuedVms := issuedVms + [vm];
    }

    /**
     * Creates `vmsNumber` VMs with consecutive ids.  The horizontal scaling
     * the program attaches to each is not represented here; its supplier
     * would be CreateVm and its predicate IsVmOverloaded.
     */
    method CreateListOfScalableVms(vmsNumber: nat) returns (newList: seq<Vm>)
      requires VmsValid()
      modifies this`createsVms, this`issuedVms
      ensures VmsValid()
      ensures createsVms == old(createsVms) + vmsNumber
      ensures |newList| == vmsNumber
      ensures forall i :: 0 <= i < vmsNumber ==> newList[i] == NewVm(old(createsVms) + i)
      ensures issuedVms == old(issuedVms) + newList
    {
      newList := [];
      var i := 0;
      while i < vmsNumber
        invariant 0 <= i <= vmsNumber
        invariant VmsValid()
        invariant createsVms == old(createsVms) + i && |newList| == i
        invariant forall j :: 0 <= j < i ==> newList[j] == NewVm(old(createsVms) + j)
        invariant issuedVms == old(issuedVms) + newList
      {
        var vm := CreateVm();
        newList := newList + [vm];
        i := i + 1;
      }
    }

    /** `createCloudlet`: takes the next id and picks the length by `id % size`. */
    method CreateCloudlet() returns (c: Cloudlet)
      requires |cloudletLengths| > 0
      modifies this`createdCloudlets
      ensures createdCloudlets == old(createdCloudlets) + 1
      ensures c == Cloudlet(old(createdCloudlets), cloudletLengths[old(createdCloudlets) % |cloudletLengths|], CLOUDLET_PES, 0)
    {
      var id := createdCloudlets;
      createdCloudlets := createdCloudlets + 1;
      var length := cloudletLengths[id % |cloudletLengths|];
      c := Cloudlet(id, length, CLOUDLET_PES, 0);
    }

    /**
     * `createCloudletList`: a first batch of min(20, 80) cloudlets, with no
     * budget test of its own; it is called once, on a fresh counter.
     */
    method CreateCloudletList()
      requires Valid()
      requires createdCloudlets + Min(CLOUDLETS_BATCH, TOTAL_CLOUDLETS) <= TOTAL_CLOUDLETS
      modifies this`createdCloudlets, this`cloudletList
      ensures Valid()
      ensures createdCloudlets == old(createdCloudlets) + Min(CLOUDLETS_BATCH, TOTAL_CLOUDLETS)
      ensures cloudletList == old(cloudletList) + CloudletsFrom(old(createdCloudlets), Min(CLOUDLETS_BATCH, TOTAL_CLOUDLETS))
    {
      var i := 0;
      while i < Min(CLOUDLETS_BATCH, TOTAL_CLOUDLETS)
        invariant 0 <= i <= Min(CLOUDLETS_BATCH, TOTAL_CLOUDLETS)
        invariant Valid()
        invariant createdCloudlets == old(createdCloudlets) + i
        invariant cloudletList == old(cloudletList) + CloudletsFrom(old(createdCloudlets), i)
      {
        var c := CreateCloudlet();
        assert c == NewCloudlet(old(createdCloudlets) + i);
        cloudletList := cloudletList + [c];
        assert CloudletsFrom(old(createdCloudlets), i + 1) == CloudletsFrom(old(createdCloudlets), i) + [c];
        i := i + 1;
      }
    }

    /**
     * The clock-tick listener.  On a creation tick with budget left it
     * creates up to 20 cloudlets, stopping at 80, appends them to the list
     * and submits them to the broker; `newCloudlets` is that submission, and
     * is empty exactly when nothing is submitted.
     */
    method CreateNewCloudlets(time: real) returns (newCloudlets: seq<Cloudlet>)
      requires Valid()
      modifies this`createdCloudlets, this`cloudletList
      ensures Valid()
      ensures createdCloudlets == old(createdCloudlets) + BatchSize(old(createdCloudlets), time)
      ensures newCloudlets == CloudletsFrom(old(createdCloudlets), BatchSize(old(createdCloudlets), time))
      ensures cloudletList == old(cloudletList) + newCloudlets
    {
      newCloudlets := [];
      ghost var start := createdCloudlets;
      var t := TruncateToLong(time);
      if t % CLOUDLETS_CREATION_INTERVAL == 0 && createdCloudlets < TOTAL_CLOUDLETS {
        var i := 0;
        while i < CLOUDLETS_BATCH
          invariant 0 <= i <= CLOUDLETS_BATCH && |newCloudlets| == i
          invariant Valid()
          invariant createdCloudlets == start + i
          invariant newCloudlets == CloudletsFrom(start, i)
          invariant cloudletList == old(cloudletList) + newCloudlets
        {
          if createdCloudlets >= TOTAL_CLOUDLETS {
            break;
          }
          var c := CreateCloudlet();
          assert c == NewCloudlet(start + i);
          cloudletList := cloudletList + [c];
          newCloudlets := newCloudlets + [c];
          assert newCloudlets == CloudletsFrom(start, i + 1);
          i := i + 1;
        }
      }
    }

    /**
     * The tick listener called once per time in `times`, in order: the
     * counter ends at `CreatedAfterTicks`, and the list gains exactly the
     * cloudlets created on the way.
     */
    method DeliverTicks(times: seq<real>)
      requires Valid()
      modifies this`createdCloudlets, this`cloudletList
      ensures Valid()
      ensures createdCloudlets == CreatedAfterTicks(old(createdCloudlets), times)
      ensures old(createdCloudlets) <= createdCloudlets
      ensures cloudletList == old(cloudletList) + CloudletsFrom(old(createdCloudlets), createdCloudlets - old(createdCloudlets))
    {
      var i := 0;
      while i < |times|
        invariant 0 <= i <= |times|
        invariant Valid()
        invariant createdCloudlets == CreatedAfterTicks(old(createdCloudlets), times[..i])
        invariant old(createdCloudlets) <= createdCloudlets
        invariant cloudletList == old(cloudletList) + CloudletsFrom(old(createdCloudlets), createdCloudlets - old(createdCloudlets))
      {
        ghost var before := createdCloudlets;
        var submitted := CreateNewCloudlets(times[i]);
        CreatedAfterTicksAppend(old(createdCloudlets), times[..i], times[i]);
        assert times[..i + 1] == times[..i] + [times[i]];
        assert CloudletsFrom(old(createdCloudlets), before - old(createdCloudlets)) + submitted
               == CloudletsFrom(old(createdCloudlets), createdCloudlets - old(createdCloudlets));
        i := i + 1;
      }
      assert times[..|times|] == times;
    }
  }

  /**
   * Ticks at 1.0, 4.0, 4.5, 8.0 and 12.0 after construction: the counter
   * reads 20, 40, 60, 80 and 80, since 4.5 truncates to 4 and emits again.
   */
  method DuplicateTickScenario() returns (counts: seq<nat>)
    ensures counts == [20, 40, 60, 80, 80]
  {
    var s := new Scenario();
    var submitted := s.CreateNewCloudlets(1.0);
    var c1 := s.createdCloudlets;
    submitted := s.CreateNewCloudlets(4.0);
    var c2 := s.createdCloudlets;
    submitted := s.CreateNewCloudlets(4.5);
    var c3 := s.createdCloudlets;
    submitted := s.CreateNewCloudlets(8.0);
    var c4 := s.createdCloudlets;
    submitted := s.CreateNewCloudlets(12.0);
    counts := [c1, c2, c3, c4, s.createdCloudlets];
  }

  /**
   * Ticks at 0.0, 4.0, 8.0, 12.0 and 16.0 after construction: the first
   * batch of 20 plus three tick batches use up the budget of 80, so the
   * counter reads 40, 60, 80, 80 and 80, and the ticks submit 20, 20, 20,
   * 0 and 0 cloudlets.
   */
  method IntervalTicksScenario() returns (counts: seq<nat>, sizes: seq<nat>)
    ensures counts == [40, 60, 80, 80, 80]
    ensures sizes == [20, 20, 20, 0, 0]
  {
    var s := new Scenario();
    var s1 := s.CreateNewCloudlets(0.0);
    var c1 := s.createdCloudlets;
    var s2 := s.CreateNewCloudlets(4.0);
    var c2 := s.createdCloudlets;
    var s3 := s.CreateNewCloudlets(8.0);
    var c3 := s.createdCloudlets;
    var s4 := s.CreateNewCloudlets(12.0);
    var c4 := s.createdCloudlets;
    var s5 := s.CreateNewCloudlets(16.0);
    counts := [c1, c2, c3, c4, s.createdCloudlets];
    sizes := [|s1|, |s2|, |s3|, |s4|, |s5|];
  }

  /** A VM supplied to the horizontal scaling after the two initial VMs gets id 2. */
  method SuppliedVmScenario() returns (clone: Vm)
    ensures clone == Vm(2, 1000, 2)
  {
    var s := new Scenario();
    clone := s.CreateVm();
  }
}
