/** The reentrant, nonblocking ownership of device mutations (control_plane/mutation_gate.py). */
module MutationGate {
  import opened Wrappers

  type ThreadId = int

  /** `depth` acquisitions by `owner`. */
  datatype Gate = Gate(owner: Option<ThreadId>, depth: nat) {
    predicate Valid() {
      owner.None? <==> depth == 0
    }

    /** How many acquisitions this thread has not released yet. */
    function Held(i: ThreadId): nat {
      if owner == Some(i) then depth else 0
    }
  }

  const FREE := Gate(None, 0)

  predicate CanAcquire(g: Gate, i: ThreadId) {
    g.owner.None? || g.owner == Some(i)
  }

  function Acquire(g: Gate, i: ThreadId): (r: Gate)
    requires g.Valid() && CanAcquire(g, i)
    ensures r.Valid() && r.Held(i) == g.Held(i) + 1
    ensures forall j :: j != i ==> r.Held(j) == g.Held(j) == 0
  {
    Gate(Some(i), g.depth + 1)
  }

  function Release(g: Gate, i: ThreadId): (r: Gate)
    requires g.Valid() && g.Held(i) > 0
    ensures r.Valid() && r.Held(i) == g.Held(i) - 1
    ensures forall j :: j != i ==> r.Held(j) == g.Held(j) == 0
  {
    if g.depth == 1 then FREE else Gate(g.owner, g.depth - 1)
  }

  /** The gate object; a thread that does not own it must not release it. */
  class ControlMutationGate {
    var gate: Gate

    ghost predicate Valid()
      reads this
    {
      gate.Valid()
    }

    constructor ()
      ensures Valid() && gate == FREE
    {
      gate := FREE;
    }

    method TryAcquire(i: ThreadId) returns (ok: bool)
      requires Valid()
      modifies this
      ensures Valid() && (ok <==> forall j :: j != i ==> old(gate).Held(j) == 0)
      ensures gate.Held(i) == old(gate).Held(i) + if ok then 1 else 0
      ensures forall j :: j != i ==> gate.Held(j) == old(gate).Held(j)
    {
      assert gate.owner.Some? ==> gate.Held(gate.owner.value) > 0;
      ok := gate.owner.None? || gate.owner == Some(i);
      if ok {
        gate := Gate(Some(i), gate.depth + 1);
      }
    }

    method ReleaseOnce(i: ThreadId)
      requires Valid() && gate.Held(i) > 0
      modifies this
      ensures Valid() && gate.Held(i) == old(gate).Held(i) - 1
      ensures forall j :: gate.Held(j) > 0 ==> j == i
    {
      gate := if gate.depth == 1 then FREE else gate.(depth := gate.depth - 1);
    }
  }
}
