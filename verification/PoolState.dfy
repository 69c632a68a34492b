/** The state behind the pool's lock, and what each lock-held section does to it. */
module PoolState {

  /** Connections and threads are numbers; `owners` has an entry only for a positive count. */
  datatype Pool = Pool(idle: seq<nat>, fatal: bool, next: nat, serving: nat, abandoned: set<nat>,
                       maintenance: bool, owners: map<nat, nat>)

  function OwnedBy(owners: map<nat, nat>, t: nat): nat {
    if t in owners then owners[t] else 0
  }

  /** From `n` on, the first ticket that nobody abandoned, and the abandoned tickets beyond it. */
  function SkipAbandoned(n: nat, abandoned: set<nat>): (nat, set<nat>)
    decreases |abandoned|
  {
    if n in abandoned then SkipAbandoned(n + 1, abandoned - {n}) else (n, abandoned)
  }

  function Advanced(p: Pool): Pool {
    var (serving, abandoned) := SkipAbandoned(p.serving + 1, p.abandoned);
    p.(serving := serving, abandoned := abandoned)
  }

  /** A waiter that leaves without a connection passes the turn on, or marks its ticket. */
  function Left(p: Pool, ticket: nat): Pool {
    if p.serving == ticket then Advanced(p) else p.(abandoned := p.abandoned + {ticket})
  }

  /** A thread that owns a connection may not wait behind a drain. */
  predicate Reentrant(p: Pool, t: nat) {
    p.maintenance && OwnedBy(p.owners, t) != 0
  }

  predicate CanTake(p: Pool, ticket: nat) {
    !p.maintenance && p.serving == ticket && p.idle != []
  }

  /** One pass of the waiting loop. */
  datatype Verdict = Dead | Refused | Granted(conn: nat) | TimedOut | Wait

  function Decide(p: Pool, ticket: nat, t: nat, expired: bool): Verdict {
    if p.fatal then Dead
    else if Reentrant(p, t) then Refused
    else if CanTake(p, ticket) then Granted(p.idle[0])
    else if expired then TimedOut
    else Wait
  }

  function Taken(p: Pool, t: nat): Pool
    requires p.idle != []
  {
    Advanced(p.(idle := p.idle[1..], owners := p.owners[t := OwnedBy(p.owners, t) + 1]))
  }

  function Polled(p: Pool, ticket: nat, t: nat, expired: bool): Pool {
    match Decide(p, ticket, t, expired)
    case Granted(_) => Taken(p, t)
    case Refused => Left(p, ticket)
    case TimedOut => Left(p, ticket)
    case _ => p
  }

  /** What became of a connection whose guard is dropped. */
  datatype Health = Healthy | Reopened(conn: nat) | Lost

  function Released(owners: map<nat, nat>, t: nat): map<nat, nat> {
    if t !in owners then owners
    else if owners[t] <= 1 then owners - {t}
    else owners[t := owners[t] - 1]
  }

  function Returned(p: Pool, conn: nat, t: nat, h: Health): Pool {
    var p' := p.(owners := Released(p.owners, t));
    match h
    case Healthy => p'.(idle := p.idle + [conn])
    case Reopened(c) => p'.(idle := p.idle + [c])
    case Lost => p'.(fatal := true)
  }

  /** Skipping stops at a ticket nobody abandoned and drops exactly the tickets it passed. */
  lemma {:induction false} SkipStops(n: nat, abandoned: set<nat>, limit: nat)
    requires n <= limit && forall k <- abandoned :: n <= k < limit
    ensures var (m, rest) := SkipAbandoned(n, abandoned);
            n <= m <= limit && m !in abandoned && (forall k :: n <= k < m ==> k in abandoned) &&
            (forall k :: k in rest <==> k in abandoned && m < k)
    decreases |abandoned|
  {
    if n in abandoned {
      SkipStops(n + 1, abandoned - {n}, limit);
      var m := SkipAbandoned(n, abandoned).0;
      forall k | n <= k < m ensures k in abandoned {
        if k != n { assert k in abandoned - {n}; }
      }
    }
  }

  class ConnectionPool {
    var idle: seq<nat>
    var fatal: bool
    var nextTicket: nat
    var nowServing: nat
    var abandoned: set<nat>
    var maintenance: bool
    var owners: map<nat, nat>

    function View(): Pool reads this {
      Pool(idle, fatal, nextTicket, nowServing, abandoned, maintenance, owners)
    }

    constructor (conns: seq<nat>)
      ensures View() == Pool(conns, false, 0, 0, {}, false, map[])
    {
      idle, fatal, nextTicket, nowServing, abandoned, maintenance, owners := conns, false, 0, 0, {}, false, map[];
    }

    method Advance()
      modifies this`nowServing, this`abandoned
      ensures View() == Advanced(old(View()))
    {
      nowServing := nowServing + 1;
      while nowServing in abandoned
        invariant SkipAbandoned(nowServing, abandoned) == SkipAbandoned(old(nowServing) + 1, old(abandoned))
        decreases |abandoned|
      {
        abandoned := abandoned - {nowServing};
        nowServing := nowServing + 1;
      }
    }

    method Leave(ticket: nat)
      modifies this`nowServing, this`abandoned
      ensures View() == Left(old(View()), ticket)
    {
      if nowServing == ticket {
        Advance();
      } else {
        abandoned := abandoned + {ticket};
      }
    }

    /** Takes a ticket, unless the thread would wait behind a drain that waits for it. */
    method Enter(t: nat) returns (admitted: bool, ticket: nat)
      modifies this`nextTicket
      ensures admitted == !Reentrant(old(View()), t)
      ensures admitted ==> ticket == old(nextTicket)
      ensures View() == if admitted then old(View()).(next := old(nextTicket) + 1) else old(View())
    {
      admitted, ticket := true, nextTicket;
      if maintenance && t in owners && owners[t] != 0 {
        return false, 0;
      }
      nextTicket := nextTicket + 1;
    }

    method Poll(ticket: nat, t: nat, expired: bool) returns (v: Verdict)
      modifies this`idle, this`nowServing, this`abandoned, this`owners
      ensures v == Decide(old(View()), ticket, t, expired)
      ensures View() == Polled(old(View()), ticket, t, expired)
    {
      if fatal {
        return Dead;
      }
      if maintenance && t in owners && owners[t] != 0 {
        Leave(ticket);
        return Refused;
      }
      if !maintenance && nowServing == ticket && idle != [] {
        v := Granted(idle[0]);
        idle := idle[1..];
        owners := owners[t := (if t in owners then owners[t] else 0) + 1];
        Advance();
        return;
      }
      if expired {
        Leave(ticket);
        return TimedOut;
      }
      v := Wait;
    }

    /** The guard's drop, after the connection was restored, replaced or found lost. */
    method Return(conn: nat, t: nat, h: Health)
      modifies this`idle, this`owners, this`fatal
      ensures View() == Returned(old(View()), conn, t, h)
      ensures idle == match h
                case Healthy => old(idle) + [conn]
                case Reopened(c) => old(idle) + [c]
                case Lost => old(idle)
      ensures fatal == (old(fatal) || h.Lost?)
      ensures OwnedBy(owners, t) == if OwnedBy(old(owners), t) > 0 then OwnedBy(old(owners), t) - 1 else 0
    {
      if t in owners {
        if owners[t] <= 1 {
          owners := owners - {t};
        } else {
          owners := owners[t := owners[t] - 1];
        }
      }
      match h {
        case Healthy => idle := idle + [conn];
        case Reopened(c) => idle := idle + [c];
        case Lost => fatal := true;
      }
    }

    method BeginMaintenance(t: nat) returns (begun: bool)
      modifies this`maintenance
      ensures begun == (!fatal && OwnedBy(owners, t) == 0)
      ensures maintenance == (begun || old(maintenance))
    {
      if fatal || (t in owners && owners[t] != 0) {
        return false;
      }
      maintenance := true;
      begun := true;
    }

    /** One pass of the drain loop: Some(run) ends it, and tells whether the callback ran. */
    method PollMaintenance(total: nat, expired: bool) returns (ended: bool, ran: bool)
      modifies this`maintenance
      ensures ran == (|idle| == total)
      ensures ended == (|idle| == total || fatal || expired)
      ensures maintenance == (old(maintenance) && !ended)
    {
      if |idle| == total {
        maintenance := false;
        return true, true;
      }
      if fatal || expired {
        maintenance := false;
        return true, false;
      }
      ended, ran := false, false;
    }
  }
}
