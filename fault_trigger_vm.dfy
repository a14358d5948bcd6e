/** The virtual-machine descriptor of the fault-trigger manager and its
    validation: a machine must be identified by a name or an IP address. */
module FaultTriggerManager {
  import opened Wrappers

  /** Go's `int64`. */
  type Int64 = x: int | -0x8000_0000_0000_0000 <= x < 0x8000_0000_0000_0000

  /** The descriptive information of a virtual machine. */
  datatype VM = VM(host: string, port: Int64, name: string, ip: string, role: seq<string>, status: string)

  const MissingIdentity := "name or ip must be provided"

  /** Checks that the machine can be identified. The only error it reports is
      `MissingIdentity`. `Verify` is a function of the descriptor's value, so
      it cannot change the descriptor it is applied to. */
  function Verify(vm: VM): (r: Outcome)
    ensures r == Pass || r == Fail(MissingIdentity)
  {
    if |vm.name| == 0 && |vm.ip| == 0 then Fail(MissingIdentity) else Pass
  }

  /** Verification fails exactly when both the name and the IP are empty. */
  lemma VerifyRejectsExactlyAnonymous(vm: VM)
    ensures Verify(vm).Fail? <==> vm.name == [] && vm.ip == []
  {
  }

  /** A named machine always passes. */
  lemma VerifyAcceptsNamed(vm: VM)
    requires vm.name != []
    ensures Verify(vm) == Pass
  {
  }

  /** A machine with an IP address always passes. */
  lemma VerifyAcceptsAddressed(vm: VM)
    requires vm.ip != []
    ensures Verify(vm) == Pass
  {
  }

  /** Host, port, roles and status never affect the result. */
  lemma VerifyIgnoresOtherFields(a: VM, b: VM)
    requires a.name == b.name && a.ip == b.ip
    ensures Verify(a) == Verify(b)
  {
  }
}
