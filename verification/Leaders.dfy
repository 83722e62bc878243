/** leader.go: the two leader implementations as objects. */
module Leaders {
  import opened Basics

  datatype LeaderError = NodeIDRequired | Backend

  /** What goes wrong with one request: nothing, no connection to be had, the query does not reach the server, or it
      is carried out and its answer is lost. */
  datatype Fault = NoFault | NoConnection | QueryFailed | AnswerLost

  /** The server side of the sentinel advisory lock: which session owns it. Every connection taken from
      the pool is a new session that owns nothing. */
  class LockServer {
    var owner: Option<nat>
    var sessions: nat

    constructor ()
      ensures owner.None?
    {
      owner, sessions := None, 0;
    }

    method Connect() returns (session: nat)
      modifies this`sessions
      ensures session == old(sessions) && sessions == old(sessions) + 1
    {
      session := sessions;
      sessions := sessions + 1;
    }

    /** pg_try_advisory_lock: grants a free lock, and again to the session that owns it. */
    method TryLock(session: nat) returns (granted: bool)
      modifies this`owner
      ensures granted == (old(owner).None? || old(owner) == Some(session))
      ensures owner == if granted then Some(session) else old(owner)
    {
      granted := owner.None? || owner == Some(session);
      if granted {
        owner := Some(session);
      }
    }

    /** pg_advisory_unlock: only the owner releases. */
    method Unlock(session: nat)
      modifies this`owner
      ensures owner == if old(owner) == Some(session) then None else old(owner)
    {
      if owner == Some(session) {
        owner := None;
      }
    }
  }

  class PostgresLeader {
    const server: LockServer
    var conn: Option<nat>
    var held: bool
    var nodeID: string

    /** The cached flag is set exactly while a connection is pinned, and the server knows the session. */
    ghost predicate Valid()
      reads this, server
    {
      && (held <==> conn.Some?)
      && (conn.Some? ==> conn.value < server.sessions)
      && (server.owner.Some? ==> server.owner.value < server.sessions)
    }

    ghost predicate Owns()
      reads this, server
    {
      conn.Some? && server.owner == conn
    }

    constructor (server: LockServer)
      requires server.owner.Some? ==> server.owner.value < server.sessions
      ensures Valid() && this.server == server && !held
    {
      this.server := server;
      conn, held, nodeID := None, false, "";
    }

    /** Leadership is gained exactly when the lock is free and the database answers; a leader stays one
        without asking the server. If the answer is lost, the server grants a free lock to a session that nobody
        has pinned; any other refusal leaves the object and the lock as they were. */
    method TryAcquire(node: string, fault: Fault) returns (r: Result<bool, LeaderError>)
      requires Valid()
      modifies this, server
      ensures Valid()
      ensures node == "" ==> r == Err(NodeIDRequired)
      ensures node != "" && old(held) ==> r == Ok(true)
      ensures node != "" && !old(held) ==>
                r == if fault != NoFault then Err(Backend) else Ok(old(server.owner).None?)
      ensures held == (old(held) || r == Ok(true))
      ensures old(held) || r != Ok(true) ==> conn == old(conn) && nodeID == old(nodeID)
      ensures server.owner ==
              if node != "" && !old(held) && old(server.owner).None? && (fault.NoFault? || fault.AnswerLost?)
              then Some(old(server.sessions)) else old(server.owner)
      ensures !old(held) && held ==> Owns() && nodeID == node
    {
      if node == "" {
        return Err(NodeIDRequired);
      }
      if held {
        return Ok(true);
      }
      if fault == NoConnection {
        return Err(Backend);
      }
      var session := server.Connect();
      if fault == QueryFailed {
        return Err(Backend);
      }
      var locked := server.TryLock(session);
      if fault == AnswerLost {
        return Err(Backend);
      }
      if !locked {
        return Ok(false);
      }
      conn := Some(session);
      nodeID := node;
      held := true;
      return Ok(true);
    }

    /** Gives leadership up. If the unlock request does not reach the server, the node is no leader any more
        although the lock stays with the returned connection. */
    method Release(fault: Fault) returns (r: Result<(), LeaderError>)
      requires Valid()
      modifies this, server
      ensures Valid() && !held
      ensures r == if old(held) && fault != NoFault then Err(Backend) else Ok(())
      ensures server.owner ==
              if old(Owns()) && (fault.NoFault? || fault.AnswerLost?) then None else old(server.owner)
    {
      if !held {
        return Ok(());
      }
      var session := conn.value;
      conn := None;
      nodeID := "";
      held := false;
      if fault == NoConnection || fault == QueryFailed {
        return Err(Backend);
      }
      server.Unlock(session);
      return if fault == AnswerLost then Err(Backend) else Ok(());
    }

    method IsLeader() returns (r: bool)
      ensures r == held
    {
      r := held;
    }
  }

  // ----- MemoryLeader --------------------------------------------------------------------------

  /** The two names a MemoryLeader stores: who holds the lock, and who asked successfully last. */
  datatype Names = Names(holder: string, mine: string)

  function Acquired(n: Names, node: string): Names {
    if n.holder == "" || n.holder == node then Names(node, node) else n
  }

  function Freed(n: Names): Names {
    Names(if n.holder == n.mine then "" else n.holder, "")
  }

  predicate Leads(n: Names) { n.mine != "" && n.holder == n.mine }

  class MemoryLeader {
    var holder: string
    var myID: string

    ghost function State(): Names
      reads this
    {
      Names(holder, myID)
    }

    constructor ()
      ensures State() == Names("", "")
    {
      holder, myID := "", "";
    }

    method TryAcquire(node: string) returns (r: Result<bool, LeaderError>)
      modifies this
      ensures node == "" ==> r == Err(NodeIDRequired) && State() == old(State())
      ensures node != "" ==> State() == Acquired(old(State()), node) && r == Ok(holder == node)
    {
      if node == "" {
        return Err(NodeIDRequired);
      }
      if holder == "" {
        holder := node;
        myID := node;
        return Ok(true);
      }
      if holder == node {
        myID := node;
        return Ok(true);
      }
      return Ok(false);
    }

    method Release()
      modifies this
      ensures State() == Freed(old(State()))
    {
      if holder == myID {
        holder := "";
      }
      myID := "";
    }

    method IsLeader() returns (r: bool)
      ensures r == Leads(State())
    {
      r := myID != "" && holder == myID;
    }
  }

  /** A holder is always the last one who asked successfully. */
  predicate Consistent(n: Names) { n.mine == n.holder }

  /** A call that changes the names: an acquisition (refused at once for an empty name) or a release. */
  datatype Ask = Try(node: string) | GiveUp

  function AfterAsk(n: Names, ask: Ask): Names {
    match ask
    case Try(node) => if node == "" then n else Acquired(n, node)
    case GiveUp => Freed(n)
  }

  function AfterAsks(n: Names, asks: seq<Ask>): Names {
    if asks == [] then n else AfterAsk(AfterAsks(n, asks[..|asks| - 1]), asks[|asks| - 1])
  }

  /** After any sequence of calls on a fresh object the leader flag says whether anybody holds the lock. */
  lemma {:induction false} CallsKeepConsistent(asks: seq<Ask>)
    ensures var n := AfterAsks(Names("", ""), asks); Consistent(n) && (Leads(n) <==> n.holder != "")
  {
    if asks != [] { CallsKeepConsistent(asks[..|asks| - 1]); }
  }

  /** One object shared by several nodes does not tell them apart: a node whose acquisition was refused
      still sees itself as the leader, and its release takes the lock from the holder. */
  lemma SharedLeaderIsNotExclusive(n: Names, a: string, b: string)
    requires Consistent(n) && a != "" && b != "" && n.holder == a != b
    ensures var refused := Acquired(n, b);
            && refused.holder == a                       // b's attempt returns false
            && Leads(refused)                            // and yet IsLeader, asked by b, is true
            && Acquired(Freed(refused), b).holder == b   // b's release frees a's lock
  {
  }
}
