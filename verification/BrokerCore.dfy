/** The browser command broker's shared state: one current connection and the calls
    pending on it. Each method is one section under the broker's mutex. */
module BrokerCore {
  import opened Options

  type Conn = nat
  type Call = nat

  datatype Core = Core(conn: Option<Conn>, pending: set<Call>)

  const EMPTY := Core(None, {})

  function Registered(c: Core, id: Call): Core {
    if c.conn.Some? then c.(pending := c.pending + {id}) else c
  }

  function Removed(c: Core, id: Call): Core {
    c.(pending := c.pending - {id})
  }

  function Adopted(k: Conn): Core {
    Core(Some(k), {})
  }

  function Dropped(c: Core, k: Conn): Core {
    if c.conn == Some(k) then EMPTY else c
  }

  /** The calls a connection takes down with it. */
  function Taken(c: Core, k: Conn): set<Call> {
    if c.conn == Some(k) then c.pending else {}
  }

  class Broker {
    var conn: Option<Conn>
    var pending: set<Call>

    function View(): Core
      reads this
    {
      Core(conn, pending)
    }

    constructor ()
      ensures View() == EMPTY
    {
      conn, pending := None, {};
    }

    /** Execute, before the write: no connection, no registration. */
    method Register(id: Call) returns (current: Option<Conn>)
      modifies this
      ensures View() == Registered(old(View()), id) && current == old(conn)
    {
      current := conn;
      if current == None {
        return;
      }
      pending := pending + {id};
    }

    /** A valid hello: the new connection replaces the old one and inherits none of
        its calls. */
    method Adopt(k: Conn) returns (previous: Option<Conn>, taken: set<Call>)
      modifies this
      ensures View() == Adopted(k) && previous == old(conn) && taken == old(pending)
    {
      previous, conn := conn, Some(k);
      taken, pending := pending, {};
    }

    method TakeOne(id: Call) returns (found: bool)
      modifies this
      ensures View() == Removed(old(View()), id) && found == (id in old(pending))
    {
      found := id in pending;
      pending := pending - {id};
    }

    /** Only the current connection can be disconnected. */
    method Disconnect(k: Conn) returns (taken: set<Call>)
      modifies this
      ensures View() == Dropped(old(View()), k) && taken == Taken(old(View()), k)
    {
      if conn != Some(k) {
        return {};
      }
      conn := None;
      taken, pending := pending, {};
    }

    method RemovePending(id: Call)
      modifies this
      ensures View() == Removed(old(View()), id)
    {
      pending := pending - {id};
    }
  }
}
