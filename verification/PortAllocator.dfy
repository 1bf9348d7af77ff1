/** Cyclic search for a free port (src/daemon/port_allocator.rs). */
module PortAllocation {
  import opened Options

  const AUTO_PORT_MIN: nat := 4000
  const AUTO_PORT_MAX: nat := 4999
  const RANGE_SIZE: nat := AUTO_PORT_MAX - AUTO_PORT_MIN + 1

  predicate InRange(port: nat) { AUTO_PORT_MIN <= port <= AUTO_PORT_MAX }

  // The i-th port visited when the cursor stands at `cursor`.
  function Candidate(cursor: nat, i: nat): (port: nat)
    requires InRange(cursor)
    ensures InRange(port)
  {
    AUTO_PORT_MIN + (cursor - AUTO_PORT_MIN + i) % RANGE_SIZE
  }

  // How many steps past the cursor a port lies in cyclic order.
  function Distance(cursor: nat, port: nat): (d: nat)
    requires InRange(cursor) && InRange(port)
    ensures d < RANGE_SIZE
  {
    if port >= cursor then port - cursor else port + RANGE_SIZE - cursor
  }

  predicate Free(port: nat, taken: set<nat>, bindable: set<nat>) {
    InRange(port) && port !in taken && port in bindable
  }

  function NextCursor(port: nat): (cursor: nat)
    requires InRange(port)
    ensures InRange(cursor)
  {
    if port >= AUTO_PORT_MAX then AUTO_PORT_MIN else port + 1
  }

  // `port` is the free port reached first when walking up cyclically from the cursor.
  ghost predicate FirstFree(cursor: nat, taken: set<nat>, bindable: set<nat>, port: nat)
    requires InRange(cursor)
  {
    Free(port, taken, bindable)
    && forall q: nat :: Free(q, taken, bindable) ==> Distance(cursor, port) <= Distance(cursor, q)
  }

  // The search's outcome as a value: the first free port, or None.
  ghost function Choice(cursor: nat, taken: set<nat>, bindable: set<nat>): (r: Option<nat>)
    requires InRange(cursor)
  {
    if exists p: nat :: FirstFree(cursor, taken, bindable, p)
    then var p: nat :| FirstFree(cursor, taken, bindable, p); Some(p)
    else None
  }

  // Walking i = 0, 1, ... visits each port of the range exactly once, at its distance.
  lemma VisitsEachOnce(cursor: nat, i: nat, port: nat)
    requires InRange(cursor) && InRange(port) && i < RANGE_SIZE
    ensures Candidate(cursor, i) == port <==> i == Distance(cursor, port)
  {
    var k := cursor - AUTO_PORT_MIN + i;
    assert k % RANGE_SIZE == if k < RANGE_SIZE then k else k - RANGE_SIZE;
  }

  lemma FirstFreeUnique(cursor: nat, taken: set<nat>, bindable: set<nat>, p: nat, q: nat)
    requires InRange(cursor)
    requires FirstFree(cursor, taken, bindable, p) && FirstFree(cursor, taken, bindable, q)
    ensures p == q
  {
    VisitsEachOnce(cursor, Distance(cursor, p), p);
    VisitsEachOnce(cursor, Distance(cursor, p), q);
  }

  // Where one port is free, one of them comes first.
  lemma {:induction false} SomeFirstFree(cursor: nat, taken: set<nat>, bindable: set<nat>, q: nat)
    requires InRange(cursor) && Free(q, taken, bindable)
    ensures exists p: nat :: FirstFree(cursor, taken, bindable, p)
    decreases Distance(cursor, q)
  {
    if r: nat :| Free(r, taken, bindable) && Distance(cursor, r) < Distance(cursor, q) {
      SomeFirstFree(cursor, taken, bindable, r);
    } else {
      assert FirstFree(cursor, taken, bindable, q);
    }
  }

  class PortAllocator {
    var proxyEnabled: bool
    var nextAutoPort: nat

    ghost predicate Valid()
      reads this
    {
      InRange(nextAutoPort)
    }

    constructor ()
      ensures Valid() && !proxyEnabled && nextAutoPort == AUTO_PORT_MIN
    {
      proxyEnabled := false;
      nextAutoPort := AUTO_PORT_MIN;
    }

    method EnableProxy()
      requires Valid()
      modifies this
      ensures Valid() && proxyEnabled && nextAutoPort == old(nextAutoPort)
    {
      proxyEnabled := true;
    }

    // `bindable` stands for the bind test against the loopback interface.
    method AutoAssignPort(taken: set<nat>, bindable: set<nat>) returns (r: Option<nat>)
      requires Valid()
      modifies this
      ensures Valid() && proxyEnabled == old(proxyEnabled)
      ensures r == Choice(old(nextAutoPort), taken, bindable)
      ensures r.None? <==> forall p: nat :: InRange(p) ==> p in taken || p !in bindable
      ensures r.Some? ==> FirstFree(old(nextAutoPort), taken, bindable, r.value)
      ensures nextAutoPort == if r.Some? then NextCursor(r.value) else old(nextAutoPort)
    {
      var i := 0;
      while i < RANGE_SIZE
        invariant i <= RANGE_SIZE
        invariant nextAutoPort == old(nextAutoPort) && proxyEnabled == old(proxyEnabled)
        invariant forall p: nat :: Free(p, taken, bindable) ==> Distance(nextAutoPort, p) >= i
      {
        var candidate := Candidate(nextAutoPort, i);
        VisitsEachOnce(nextAutoPort, i, candidate);
        if candidate !in taken && candidate in bindable {
          assert FirstFree(nextAutoPort, taken, bindable, candidate);
          forall q: nat | FirstFree(nextAutoPort, taken, bindable, q) ensures q == candidate {
            FirstFreeUnique(nextAutoPort, taken, bindable, candidate, q);
          }
          nextAutoPort := NextCursor(candidate);
          return Some(candidate);
        }
        forall p: nat | Free(p, taken, bindable) ensures Distance(nextAutoPort, p) >= i + 1 {
          VisitsEachOnce(nextAutoPort, i, p);
        }
        i := i + 1;
      }
      forall p: nat | InRange(p) ensures p in taken || p !in bindable {
        assert !Free(p, taken, bindable);
      }
      r := None;
    }
  }
}
