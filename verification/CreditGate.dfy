/** DB admission credits: the gate and the token that gives one credit back at most once. */
module CreditGate {

  datatype Gate = Gate(limit: int, available: int, closed: bool)

  function NewGate(limit: int): Gate {
    Gate(limit, limit, false)
  }

  predicate CanAcquire(g: Gate) {
    !g.closed && g.available != 0
  }

  function Acquired(g: Gate): Gate {
    g.(available := g.available - 1)
  }

  function Released(g: Gate): Gate {
    if !g.closed && g.available < g.limit then g.(available := g.available + 1) else g
  }

  class DBCreditGate {
    const limit: int
    var available: int
    var closed: bool

    function View(): Gate
      reads this
    {
      Gate(limit, available, closed)
    }

    constructor (limit: int)
      ensures View() == NewGate(limit)
    {
      this.limit := limit;
      available := limit;
      closed := false;
    }

    method TryAcquire() returns (ok: bool)
      modifies this
      ensures ok == CanAcquire(old(View()))
      ensures View() == if ok then Acquired(old(View())) else old(View())
      ensures ok <==> !old(closed) && old(available) != 0
      ensures closed == old(closed) && available == old(available) - if ok then 1 else 0
    {
      if closed || available == 0 {
        return false;
      }
      available := available - 1;
      ok := true;
    }

    method Release()
      modifies this
      ensures View() == Released(old(View()))
      ensures closed == old(closed)
      ensures available == old(available) + if !old(closed) && old(available) < limit then 1 else 0
    {
      if !closed && available < limit {
        available := available + 1;
      }
    }

    method Shutdown()
      modifies this
      ensures View() == old(View()).(closed := true)
    {
      closed := true;
    }
  }

  /** There is no releasing destructor: a token that is dropped takes its credit with it. */
  class DBCreditToken {
    const gate: DBCreditGate
    var released: bool

    constructor (gate: DBCreditGate)
      ensures this.gate == gate && !released
    {
      this.gate := gate;
      released := false;
    }

    /** Only the first release reaches the gate. */
    method Release()
      modifies this, gate
      ensures released
      ensures gate.View() == if old(released) then old(gate.View()) else Released(old(gate.View()))
      ensures gate.closed == old(gate.closed)
      ensures gate.available == old(gate.available)
                + if !old(released) && !old(gate.closed) && old(gate.available) < gate.limit then 1 else 0
    {
      if !released {
        released := true;
        gate.Release();
      }
    }
  }
}
