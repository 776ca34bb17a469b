/**
 * The two entities the autoscaling scenarios create: cloudlets (units of
 * work) and VMs (workers).  Only the attributes the scenarios compute are
 * kept; file sizes, RAM, bandwidth, storage and utilization models are
 * configuration passed through to the simulation library and are dropped.
 */
module Cloud {

  /** Id of a cloudlet built without one: the broker numbers it on submission. */
  const UNASSIGNED_ID: int := -1

  /**
   * A cloudlet: its id, its length in million instructions, the number of
   * processing elements (PEs) it asks for and its submission delay in
   * seconds.  Every delay the scenarios set is a whole multiple of 4.0, so a
   * natural number stands for the double.
   */
  datatype Cloudlet = Cloudlet(id: int, length: nat, pes: nat, submissionDelay: nat)

  /** A VM: its id, the MIPS of each of its PEs, and its number of PEs. */
  datatype Vm = Vm(id: nat, mips: nat, pes: nat)

  /**
   * A cloudlet made by the two-argument library constructor and then given a
   * submission delay, as both vertical scaling scenarios do: no id yet.
   */
  function UnnumberedCloudlet(length: nat, pes: nat, delay: nat): Cloudlet
  {
    Cloudlet(UNASSIGNED_ID, length, pes, delay)
  }

  function Min(a: int, b: int): int { if a <= b then a else b }

  function Max(a: int, b: int): int { if a >= b then a else b }
}
