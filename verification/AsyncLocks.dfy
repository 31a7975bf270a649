/** The fair lock of a worker slot: who holds it, who waits, who was turned away. */
module AsyncLocks {
  import opened Options

  type Ticket = nat

  /** `granted` and `rejected` only record what happened. Tickets are numbered in order of arrival. */
  datatype Lock = Lock(locked: bool, waiters: seq<Ticket>, next: Ticket, granted: seq<Ticket>, released: set<Ticket>, rejected: set<Ticket>)

  datatype Event =
    | Acquire(alreadyAborted: bool)
    | Abort(ticket: Ticket)
    | Release(ticket: Ticket)

  function Request(l: Lock, alreadyAborted: bool): Lock {
    var t := l.next;
    if alreadyAborted then l.(next := t + 1, rejected := l.rejected + {t})
    else if !l.locked then l.(next := t + 1, locked := true, granted := l.granted + [t])
    else l.(next := t + 1, waiters := l.waiters + [t])
  }

  function Remove(ts: seq<Ticket>, t: Ticket): seq<Ticket> {
    if ts == [] then [] else if ts[0] == t then ts[1..] else [ts[0]] + Remove(ts[1..], t)
  }

  /** An abort leaves the queue; after the grant the listener is gone. */
  function Withdraw(l: Lock, t: Ticket): Lock {
    if t !in l.waiters then l else l.(waiters := Remove(l.waiters, t), rejected := l.rejected + {t})
  }

  function Advance(l: Lock): Lock {
    if l.waiters == [] then l.(locked := false)
    else l.(waiters := l.waiters[1..], granted := l.granted + [l.waiters[0]])
  }

  /** A grant's release works once. */
  function ReleaseOnce(l: Lock, t: Ticket): Lock {
    if t !in l.granted || t in l.released then l else Advance(l.(released := l.released + {t}))
  }

  function Step(l: Lock, e: Event): Lock {
    match e
    case Acquire(alreadyAborted) => Request(l, alreadyAborted)
    case Abort(t) => Withdraw(l, t)
    case Release(t) => ReleaseOnce(l, t)
  }

  function Unlocked(): Lock { Lock(false, [], 0, [], {}, {}) }

  function Run(es: seq<Event>): Lock {
    if es == [] then Unlocked() else Step(Run(es[..|es| - 1]), es[|es| - 1])
  }

  // ---------------------------------------------------------------------------
  // what every run keeps
  // ---------------------------------------------------------------------------

  predicate Rising(ts: seq<Ticket>) { forall i, j | 0 <= i < j < |ts| :: ts[i] < ts[j] }

  predicate Before(ts: seq<Ticket>, us: seq<Ticket>) {
    forall i, j | 0 <= i < |ts| && 0 <= j < |us| :: ts[i] < us[j]
  }

  predicate Below(ts: seq<Ticket>, limit: Ticket) { forall i | 0 <= i < |ts| :: ts[i] < limit }

  /** The grants that have been given back. */
  function Over(l: Lock): seq<Ticket> { if l.locked && l.granted != [] then l.granted[..|l.granted| - 1] else l.granted }

  /** All grants but the last have been released; the last has not exactly while the lock is held. */
  ghost predicate Inv(l: Lock) {
    && Rising(l.granted) && Rising(l.waiters) && Before(l.granted, l.waiters)
    && Below(l.granted, l.next) && Below(l.waiters, l.next)
    && (forall t | t in l.rejected :: t < l.next && t !in l.granted && t !in l.waiters)
    && (forall t: Ticket | t < l.next :: t in l.granted || t in l.waiters || t in l.rejected)
    && (forall t :: t in l.released <==> t in Over(l))
    && (l.locked ==> l.granted != []) && (!l.locked ==> l.waiters == [])
  }

  lemma {:induction false} RemoveIs(ts: seq<Ticket>, t: Ticket)
    requires Rising(ts)
    ensures Rising(Remove(ts, t)) && forall x :: x in Remove(ts, t) <==> x in ts && x != t
  {
    if ts != [] {
      RemoveIs(ts[1..], t);
      assert ts == [ts[0]] + ts[1..];
      assert ts[0] !in ts[1..];
      if ts[0] != t {
        RisingCons(ts[0], ts[1..], Remove(ts[1..], t));
      }
    }
  }

  lemma RisingCons(first: Ticket, rest: seq<Ticket>, fewer: seq<Ticket>)
    requires Rising(fewer) && (forall i | 0 <= i < |rest| :: first < rest[i]) && forall x | x in fewer :: x in rest
    ensures Rising([first] + fewer)
  {
    forall i | 0 <= i < |fewer| ensures first < fewer[i] {
      assert fewer[i] in rest;
    }
  }

  lemma RequestKeeps(l: Lock, alreadyAborted: bool)
    requires Inv(l)
    ensures Inv(Request(l, alreadyAborted))
  {
    if alreadyAborted {
      assert Over(Request(l, true)) == Over(l);
    }
  }

  lemma WithdrawKeeps(l: Lock, t: Ticket)
    requires Inv(l)
    ensures Inv(Withdraw(l, t))
  {
    if t in l.waiters {
      RemoveIs(l.waiters, t);
      var rest := Remove(l.waiters, t);
      forall j | 0 <= j < |rest| ensures rest[j] in l.waiters {
        assert rest[j] in rest;
      }
      var k :| 0 <= k < |l.waiters| && l.waiters[k] == t;
      assert forall i | 0 <= i < |l.granted| :: l.granted[i] < l.waiters[k];
    }
  }

  lemma ReleaseKeeps(l: Lock, t: Ticket)
    requires Inv(l)
    ensures Inv(ReleaseOnce(l, t))
  {
    if t in l.granted && t !in l.released {
      var m := ReleaseOnce(l, t);
      assert l.granted == Over(l) + [t];
      if l.waiters == [] {
        assert Over(m) == l.granted;
      } else {
        assert m.granted[..|m.granted| - 1] == l.granted;
        assert l.waiters == [l.waiters[0]] + l.waiters[1..];
      }
    }
  }

  lemma {:induction false} InvAlways(es: seq<Event>)
    ensures Inv(Run(es))
  {
    if es == [] {
      assert Inv(Unlocked());
    } else {
      var before := Run(es[..|es| - 1]);
      InvAlways(es[..|es| - 1]);
      hide Inv;
      match es[|es| - 1]
      case Acquire(alreadyAborted) => RequestKeeps(before, alreadyAborted);
      case Abort(t) => WithdrawKeeps(before, t);
      case Release(t) => ReleaseKeeps(before, t);
    }
  }

  function Outstanding(l: Lock): set<Ticket> { set t | t in l.granted && t !in l.released }

  /** One grant is outstanding exactly while the lock is held: mutual exclusion. */
  lemma OneGrant(es: seq<Event>)
    ensures var l := Run(es); Outstanding(l) == if l.locked && l.granted != [] then {l.granted[|l.granted| - 1]} else {}
    ensures Run(es).locked <==> Outstanding(Run(es)) != {}
  {
    hide Run;
    InvAlways(es);
    var l := Run(es);
    forall t ensures t in Outstanding(l) <==> l.locked && t == l.granted[|l.granted| - 1] {
    }
  }

  /** Grants come in order of arrival, and nobody overtakes a waiter. */
  lemma FirstComeFirstServed(es: seq<Event>, i: nat, j: nat)
    requires i < j < |Run(es).granted + Run(es).waiters|
    ensures (Run(es).granted + Run(es).waiters)[i] < (Run(es).granted + Run(es).waiters)[j]
  {
    hide Run;
    InvAlways(es);
  }

  /** Every request is granted, waiting behind an outstanding grant, or turned away, and only one of these. */
  lemma NobodyIsStranded(es: seq<Event>, t: Ticket)
    requires t < Run(es).next
    ensures var l := Run(es);
      && (t in l.granted || t in l.waiters || t in l.rejected)
      && !(t in l.granted && t in l.waiters) && !(t in l.granted && t in l.rejected) && !(t in l.waiters && t in l.rejected)
      && (t in l.waiters ==> Outstanding(l) != {})
  {
    hide Run;
    InvAlways(es);
    OneGrant(es);
  }

  /** Releasing hands the lock to the first waiter at once. */
  lemma ReleaseHandsOver(es: seq<Event>, t: Ticket)
    requires t in Outstanding(Run(es)) && Run(es).waiters != []
    ensures Outstanding(Step(Run(es), Release(t))) == {Run(es).waiters[0]}
  {
    hide Run;
    InvAlways(es);
    var l := Run(es);
    var m := Step(l, Release(t));
    ReleaseKeeps(l, t);
    forall x ensures x in Outstanding(m) <==> x == l.waiters[0] {
    }
  }

  // ---------------------------------------------------------------------------
  // in place
  // ---------------------------------------------------------------------------

  class AsyncLock {
    var locked: bool
    var waiters: seq<Ticket>
    var next: Ticket
    ghost var granted: seq<Ticket>
    ghost var released: set<Ticket>
    ghost var rejected: set<Ticket>

    ghost function View(): Lock
      reads this
    {
      Lock(locked, waiters, next, granted, released, rejected)
    }

    constructor ()
      ensures View() == Unlocked()
    {
      locked, waiters, next, granted, released, rejected := false, [], 0, [], {}, {};
    }

    method Acquire(alreadyAborted: bool) returns (ticket: Ticket, now: bool)
      modifies this
      ensures View() == Request(old(View()), alreadyAborted) && ticket == old(next)
      ensures now == (!alreadyAborted && !old(locked))
    {
      ticket, next := next, next + 1;
      if alreadyAborted {
        rejected := rejected + {ticket};
        return ticket, false;
      }
      if !locked {
        locked := true;
        granted := granted + [ticket];
        return ticket, true;
      }
      waiters := waiters + [ticket];
      now := false;
    }

    method Abort(t: Ticket)
      modifies this
      ensures View() == Withdraw(old(View()), t)
    {
      var at := 0;
      while at < |waiters| && waiters[at] != t
        invariant at <= |waiters| && View() == old(View())
        invariant Remove(waiters, t) == waiters[..at] + Remove(waiters[at..], t)
        invariant forall k | 0 <= k < at :: waiters[k] != t
      {
        assert waiters[at..][1..] == waiters[at + 1..];
        assert waiters[..at + 1] == waiters[..at] + [waiters[at]];
        at := at + 1;
      }
      if at < |waiters| {
        assert waiters[at..][1..] == waiters[at + 1..];
        waiters := waiters[..at] + waiters[at + 1..];
        rejected := rejected + {t};
      }
    }

    /** The release closure of grant `t`, called for the first time. */
    method ReleaseGrant(t: Ticket) returns (handedTo: Option<Ticket>)
      requires t in granted && t !in released
      modifies this
      ensures View() == ReleaseOnce(old(View()), t)
      ensures handedTo == if old(waiters) == [] then None else Some(old(waiters)[0])
    {
      released := released + {t};
      if waiters == [] {
        locked := false;
        return None;
      }
      handedTo := Some(waiters[0]);
      granted := granted + [waiters[0]];
      waiters := waiters[1..];
    }
  }
}
