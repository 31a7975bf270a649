/**
 * Worker slots: capacity, and what the locked section of `acquire` does to a slot's worker and
 * generation while any number of calls wait, start, renew and retire workers.
 */
module WorkerSlots {
  import opened Options

  type CallId = nat
  type SlotId = nat
  type Digest = nat

  /** How long a worker may live: with a gateway session, with a grant, or with one credential. */
  datatype Lifetime = Session(session: nat) | Grant(grant: nat, deadline: int) | Credential

  datatype Identity = Identity(principal: string, username: string, digest: Digest, lifetime: Lifetime, generation: nat)

  datatype Key =
    | SessionKey(principal: string, username: string, session: nat)
    | GrantKey(principal: string, username: string, grant: nat)
    | CredentialKey(principal: string, digest: Digest)

  function KeyOf(i: Identity): Key {
    match i.lifetime
    case Session(session) => SessionKey(i.principal, i.username, session)
    case Grant(grant, _) => GrantKey(i.principal, i.username, grant)
    case Credential => CredentialKey(i.principal, i.digest)
  }

  /** Every start gets a new number. */
  datatype Worker = Worker(number: nat, username: string, digest: Digest, renewable: bool)

  datatype Slot = Slot(
    key: Key,
    lifetime: Lifetime,
    generation: nat,
    references: int,
    retiring: bool,
    worker: Option<Worker>,
    holder: Option<CallId>)

  /** Where a call waits; all but `Waiting`, `RetireWaiting`, `Rechecking` and `Over` hold the slot's lock. */
  datatype Pc =
    | Waiting(identity: Identity, slot: SlotId)
    | Starting(identity: Identity, slot: SlotId)
    | Discarding(identity: Identity, slot: SlotId)   // closing a worker that became unusable during its start
    | Renewing(identity: Identity, slot: SlotId)
    | Renewed(identity: Identity, slot: SlotId)
    | Leased(identity: Identity, slot: SlotId)
    | RetireWaiting(slot: SlotId, next: Option<Identity>)
    | RetireClosing(slot: SlotId, next: Option<Identity>)
    | Rechecking(identity: Identity)                 // an acquire whose retirement has ended looks again
    | Over

  /** A credential that passed the checks of the locked section. */
  datatype Accepted = Accepted(slot: SlotId, generation: nat, digest: Digest)

  datatype Limits = Limits(maxWorkers: nat, maxPerPrincipal: nat)

  /** The accepted credentials, and how many workers have been started. */
  datatype Log = Log(accepted: set<Accepted>, started: nat)

  /** `slots` keeps every slot ever made. */
  datatype Registry = Registry(limits: Limits, table: map<Key, SlotId>, slots: seq<Slot>, calls: map<CallId, Pc>, log: Log)

  /** `valid`: the identity is still permitted, nothing was aborted, and the registry is open. */
  datatype Answer = Answer(valid: bool, ok: bool, username: string, renewable: bool)

  datatype Event =
    | Acquire(call: CallId, identity: Identity, valid: bool)
    | Continue(call: CallId, answer: Answer)
    | ReleaseLease(call: CallId)
    | Retire(call: CallId, slot: SlotId)

  function Goto(r: Registry, c: CallId, pc: Pc): Registry { r.(calls := r.calls[c := pc]) }

  function PutSlot(r: Registry, s: SlotId, slot: Slot): Registry
    requires s < |r.slots|
  {
    r.(slots := r.slots[s := slot])
  }

  /** The table entry goes when nobody refers to the slot and it has no worker. */
  function Sweep(r: Registry, s: SlotId): Registry
    requires s < |r.slots|
  {
    if r.slots[s].references == 0 && r.slots[s].worker.None? then r.(table := r.table - {r.slots[s].key}) else r
  }

  function Unlock(r: Registry, s: SlotId): Registry
    requires s < |r.slots|
  {
    PutSlot(r, s, r.slots[s].(holder := None))
  }

  function Drop(r: Registry, s: SlotId): Registry
    requires s < |r.slots|
  {
    Sweep(PutSlot(r, s, r.slots[s].(references := r.slots[s].references - 1)), s)
  }

  /** An error in the locked section: release the lock, drop the reference. */
  function Leave(r: Registry, c: CallId, s: SlotId): Registry
    requires s < |r.slots|
  {
    Goto(Drop(Unlock(r, s), s), c, Over)
  }

  function OfPrincipal(table: map<Key, SlotId>, principal: string): set<Key> {
    set k | k in table && k.principal == principal
  }

  /** Join the slot of this key, or make one if there is room. */
  function Enter(r: Registry, c: CallId, i: Identity): (after: Registry)
    requires forall k | k in r.table :: r.table[k] < |r.slots|
    ensures after.limits == r.limits
  {
    var key := KeyOf(i);
    if key in r.table then
      var s := r.table[key];
      if r.slots[s].retiring then Goto(r, c, Over)
      else Goto(PutSlot(r, s, r.slots[s].(references := r.slots[s].references + 1)), c, Waiting(i, s))
    else if |r.table| >= r.limits.maxWorkers || |OfPrincipal(r.table, i.principal)| >= r.limits.maxPerPrincipal then Goto(r, c, Over)
    else
      var s := |r.slots|;
      Goto(r.(slots := r.slots + [Slot(key, i.lifetime, i.generation, 1, false, None, None)], table := r.table[key := s]),
           c, Waiting(i, s))
  }

  function Begin(r: Registry, c: CallId, i: Identity, valid: bool): (after: Registry)
    requires forall k | k in r.table :: r.table[k] < |r.slots|
    ensures after.limits == r.limits
  {
    var key := KeyOf(i);
    if !valid then Goto(r, c, Over)
    else if key in r.table && r.slots[r.table[key]].retiring then
      if r.slots[r.table[key]].references > 0 then Goto(r, c, Over)
      else Goto(r, c, RetireWaiting(r.table[key], Some(i)))
    else Enter(r, c, i)
  }

  /** A credential of this generation, unless the same generation was seen with another one. */
  function UseWorker(r: Registry, c: CallId, i: Identity, s: SlotId): (after: Registry)
    requires s < |r.slots| && r.slots[s].worker.Some?
    ensures after.limits == r.limits
  {
    var slot := r.slots[s];
    var changed := slot.worker.value.digest != i.digest;
    if i.lifetime.Credential? || i.generation < slot.generation then Goto(r, c, Leased(i, s))
    else if i.generation == slot.generation then
      if changed then Leave(r, c, s) else Goto(r, c, Leased(i, s))
    else if !changed then Goto(r, c, Renewed(i, s))
    else if !slot.worker.value.renewable then Leave(r, c, s)
    else Goto(r, c, Renewing(i, s))
  }

  /** The lock has been granted. */
  function Section(r: Registry, c: CallId, i: Identity, s: SlotId, a: Answer): (after: Registry)
    requires s < |r.slots|
    ensures after.limits == r.limits
  {
    var slot := r.slots[s];
    var r1 := PutSlot(r, s, slot.(holder := Some(c)));
    if !a.valid || slot.retiring || slot.lifetime != i.lifetime || (slot.worker.Some? && slot.worker.value.username != i.username)
    then Leave(r1, c, s)
    else
      var r2 := r1.(log := r1.log.(accepted := r1.log.accepted + {Accepted(s, i.generation, i.digest)}));
      if slot.worker.None? then Goto(r2, c, Starting(i, s)) else UseWorker(r2, c, i, s)
  }

  function Started(r: Registry, c: CallId, i: Identity, s: SlotId, a: Answer): (after: Registry)
    requires s < |r.slots|
    ensures after.limits == r.limits
  {
    if !a.ok then Leave(r, c, s)
    else
      var worker := Worker(r.log.started, a.username, i.digest, a.renewable);
      var slot := r.slots[s].(worker := Some(worker), generation := i.generation);
      var r1 := PutSlot(r, s, slot).(log := r.log.(started := r.log.started + 1));
      if !a.valid || slot.retiring || a.username != i.username
      then Goto(PutSlot(r1, s, slot.(retiring := true)), c, Discarding(i, s))
      else UseWorker(r1, c, i, s)
  }

  function Discarded(r: Registry, c: CallId, s: SlotId, a: Answer): (after: Registry)
    requires s < |r.slots|
    ensures after.limits == r.limits
  {
    Leave(if a.ok then PutSlot(r, s, r.slots[s].(worker := None)) else r, c, s)
  }

  /** A renewal that succeeds leaves the worker with the new credential. */
  function AfterRenew(r: Registry, c: CallId, i: Identity, s: SlotId, a: Answer): (after: Registry)
    requires s < |r.slots| && r.slots[s].worker.Some?
    ensures after.limits == r.limits
  {
    if !a.ok then Leave(r, c, s)
    else Goto(PutSlot(r, s, r.slots[s].(worker := Some(r.slots[s].worker.value.(digest := i.digest)))), c, Renewed(i, s))
  }

  function Advanced(r: Registry, c: CallId, i: Identity, s: SlotId, a: Answer): (after: Registry)
    requires s < |r.slots|
    ensures after.limits == r.limits
  {
    var r1 := PutSlot(r, s, r.slots[s].(generation := i.generation));
    if !a.valid then Leave(r1, c, s) else Goto(r1, c, Leased(i, s))
  }

  function RetireSection(r: Registry, c: CallId, s: SlotId, next: Option<Identity>): (after: Registry)
    requires s < |r.slots|
    ensures after.limits == r.limits
  {
    Goto(PutSlot(r, s, r.slots[s].(holder := Some(c))), c, RetireClosing(s, next))
  }

  /** The worker is closed and the lock released; an acquire that waited for this will look again. */
  function Retired(r: Registry, c: CallId, s: SlotId, next: Option<Identity>, a: Answer): (after: Registry)
    requires s < |r.slots|
    ensures after.limits == r.limits
  {
    if r.slots[s].worker.Some? && !a.ok then Goto(Unlock(r, s), c, Over)
    else Goto(Sweep(Unlock(PutSlot(r, s, r.slots[s].(worker := None)), s), s), c,
              if next.Some? then Rechecking(next.value) else Over)
  }

  predicate InRange(r: Registry) {
    && (forall k | k in r.table :: r.table[k] < |r.slots|)
    && (forall c | c in r.calls ::
          match r.calls[c]
          case Over => true
          case Rechecking(_) => true
          case Renewing(_, s) => s < |r.slots| && r.slots[s].worker.Some?
          case pc => pc.slot < |r.slots|)
  }

  function Advance(r: Registry, c: CallId, a: Answer): (after: Registry)
    requires InRange(r) && c in r.calls
    ensures after.limits == r.limits
  {
    match r.calls[c]
    case Waiting(i, s) =>
      if r.slots[s].holder.Some? then (if a.valid then r else Goto(Drop(r, s), c, Over)) else Section(r, c, i, s, a)
    case Starting(i, s) => Started(r, c, i, s, a)
    case Discarding(i, s) => Discarded(r, c, s, a)
    case Renewing(i, s) => AfterRenew(r, c, i, s, a)
    case Renewed(i, s) => Advanced(r, c, i, s, a)
    case Leased(_, _) => r
    case RetireWaiting(s, next) => if r.slots[s].holder.Some? then r else RetireSection(r, c, s, next)
    case RetireClosing(s, next) => Retired(r, c, s, next, a)
    case Rechecking(i) => Enter(r, c, i)
    case Over => r
  }

  function Step(r: Registry, e: Event): (after: Registry)
    requires InRange(r)
    ensures after.limits == r.limits
  {
    match e
    case Acquire(c, i, valid) => if c in r.calls then r else Begin(r, c, i, valid)
    case Continue(c, a) => if c in r.calls then Advance(r, c, a) else r
    case ReleaseLease(c) => if c in r.calls && r.calls[c].Leased? then Leave(r, c, r.calls[c].slot) else r
    case Retire(c, s) =>
      if c in r.calls || s >= |r.slots| then r
      else Goto(PutSlot(r, s, r.slots[s].(retiring := true)), c, RetireWaiting(s, None))
  }

  function New(maxWorkers: nat, maxPerPrincipal: nat): Registry {
    Registry(Limits(maxWorkers, maxPerPrincipal), map[], [], map[], Log({}, 0))
  }

  // ---------------------------------------------------------------------------
  // the invariant
  // ---------------------------------------------------------------------------

  /** Not at any slot. */
  predicate Idle(pc: Pc) { pc.Over? || pc.Rechecking? }

  predicate Holds(pc: Pc) { !pc.Waiting? && !pc.RetireWaiting? && !Idle(pc) }

  /** Whoever is inside the locked section of a slot is the holder of its lock. */
  predicate CallOk(r: Registry, c: CallId, pc: Pc) {
    Idle(pc) ||
    (&& pc.slot < |r.slots| && (Holds(pc) ==> r.slots[pc.slot].holder == Some(c))
     && match pc
        case Waiting(i, s) => r.slots[s].key == KeyOf(i)
        case Starting(i, s) =>
          r.slots[s].key == KeyOf(i) && r.slots[s].worker.None? && Accepted(s, i.generation, i.digest) in r.log.accepted
        case Renewing(i, s) => r.slots[s].key == KeyOf(i) && Ahead(r, i, s)
        case Renewed(i, s) => r.slots[s].key == KeyOf(i) && Ahead(r, i, s) && r.slots[s].worker.value.digest == i.digest
        case Leased(i, s) =>
          && r.slots[s].key == KeyOf(i) && r.slots[s].worker.Some? && r.slots[s].worker.value.username == i.username
          && (!i.lifetime.Credential? ==>
                && i.generation <= r.slots[s].generation
                && (i.generation == r.slots[s].generation ==> r.slots[s].worker.value.digest == i.digest))
        case _ => true)
  }

  /** A newer generation of this user's credential, accepted but not yet recorded. */
  predicate Ahead(r: Registry, i: Identity, s: SlotId)
    requires s < |r.slots|
  {
    && r.slots[s].worker.Some? && r.slots[s].worker.value.username == i.username
    && i.generation > r.slots[s].generation && Accepted(s, i.generation, i.digest) in r.log.accepted
  }

  /** The holder has renewed the worker and is about to record the generation. */
  predicate Recording(r: Registry, s: SlotId)
    requires s < |r.slots|
  {
    r.slots[s].holder.Some? && r.slots[s].holder.value in r.calls
    && r.calls[r.slots[s].holder.value].Renewed? && r.calls[r.slots[s].holder.value].slot == s
  }

  /** The worker's credential was accepted at the slot's generation, but for a renewal about to be recorded. */
  predicate SlotOk(r: Registry, s: SlotId)
    requires s < |r.slots|
  {
    r.slots[s].worker.Some? ==>
      Accepted(s, r.slots[s].generation, r.slots[s].worker.value.digest) in r.log.accepted || Recording(r, s)
  }

  predicate TableOk(r: Registry) {
    && (forall k | k in r.table :: r.table[k] < |r.slots| && r.slots[r.table[k]].key == k)
    && |r.table| <= r.limits.maxWorkers
    && (forall k | k in r.table :: |OfPrincipal(r.table, k.principal)| <= r.limits.maxPerPrincipal)
  }

  predicate Inv(r: Registry) {
    TableOk(r) && (forall c | c in r.calls :: CallOk(r, c, r.calls[c])) && (forall s | 0 <= s < |r.slots| :: SlotOk(r, s))
    && (forall s | 0 <= s < |r.slots| && r.slots[s].worker.Some? :: r.slots[s].worker.value.number < r.log.started)
  }

  lemma InvInRange(r: Registry)
    requires Inv(r)
    ensures InRange(r)
  {
  }

  // -- capacity --------------------------------------------------------------------

  lemma Fewer(table: map<Key, SlotId>, k: Key, p: string)
    ensures |table - {k}| <= |table|
    ensures |OfPrincipal(table - {k}, p)| <= |OfPrincipal(table, p)|
  {
    Subset((table - {k}).Keys, table.Keys);
    Subset(OfPrincipal(table - {k}, p), OfPrincipal(table, p));
  }

  lemma {:induction false} Subset(a: set<Key>, b: set<Key>)
    requires a <= b
    ensures |a| <= |b|
    decreases |a|
  {
    if a != {} {
      var x :| x in a;
      Subset(a - {x}, b - {x});
    }
  }

  lemma OneMore(table: map<Key, SlotId>, key: Key, s: SlotId)
    requires key !in table
    ensures |table[key := s]| == |table| + 1
  {
  }

  lemma OneMoreOf(table: map<Key, SlotId>, key: Key, s: SlotId, p: string)
    requires key !in table
    ensures |OfPrincipal(table[key := s], p)| == |OfPrincipal(table, p)| + if p == key.principal then 1 else 0
  {
    var before, after := OfPrincipal(table, p), OfPrincipal(table[key := s], p);
    assert forall k :: k in after <==> k in before || (k == key && p == key.principal);
    if p == key.principal {
      assert after == before + {key};
    } else {
      assert after == before;
    }
  }

  /** Removing an entry keeps the table within its bounds. */
  lemma RemovedOk(r: Registry, r': Registry, k: Key)
    requires TableOk(r) && r'.table == r.table - {k} && r'.limits == r.limits
    requires |r'.slots| == |r.slots| && forall s | 0 <= s < |r.slots| :: r'.slots[s].key == r.slots[s].key
    ensures TableOk(r')
  {
    hide OfPrincipal;
    forall x | x in r'.table ensures |OfPrincipal(r'.table, x.principal)| <= r.limits.maxPerPrincipal {
      Fewer(r.table, k, x.principal);
    }
    Fewer(r.table, k, k.principal);
  }

  lemma SameTableOk(r: Registry, r': Registry)
    requires TableOk(r) && r'.table == r.table && r'.limits == r.limits
    requires |r'.slots| == |r.slots| && forall s | 0 <= s < |r.slots| :: r'.slots[s].key == r.slots[s].key
    ensures TableOk(r')
  {
  }

  // -- one call acts on one slot -------------------------------------------------------

  /** Call `c` changes nothing but its own state and slot `s`, which nobody else has locked unless its core stays. */
  predicate Touches(r: Registry, r': Registry, c: CallId, s: SlotId) {
    && |r'.slots| == |r.slots| && s < |r.slots| && r.log.accepted <= r'.log.accepted && r.log.started <= r'.log.started
    && (forall t | 0 <= t < |r.slots| && t != s :: r'.slots[t] == r.slots[t])
    && r'.slots[s].key == r.slots[s].key
    && c in r'.calls && r'.calls == r.calls[c := r'.calls[c]]
    && (c in r.calls && Holds(r.calls[c]) ==> r.calls[c].slot == s)
    && (|| r.slots[s].holder.None? || r.slots[s].holder == Some(c)
        || (r'.slots[s].holder == r.slots[s].holder && r'.slots[s].worker == r.slots[s].worker
            && r'.slots[s].generation == r.slots[s].generation))
  }

  lemma TouchKeeps(r: Registry, r': Registry, c: CallId, s: SlotId)
    requires Inv(r) && Touches(r, r', c, s) && TableOk(r') && CallOk(r', c, r'.calls[c]) && SlotOk(r', s)
    requires r'.slots[s].worker.Some? ==> r'.slots[s].worker.value.number < r'.log.started
    ensures Inv(r')
  {
    hide TableOk;
    assert forall d | d in r'.calls :: CallOk(r', d, r'.calls[d]);
    hide CallOk;
    forall t | 0 <= t < |r'.slots| ensures SlotOk(r', t) {
      if t != s {
        assert SlotOk(r, t);
      }
    }
  }

  lemma LeaveTable(r: Registry, r1: Registry, c: CallId, s: SlotId)
    requires TableOk(r) && Touches(r, r1, c, s) && r1.table == r.table && r1.limits == r.limits
    ensures TableOk(Leave(r1, c, s))
  {
    hide TableOk, Holds;
    var r' := Leave(r1, c, s);
    if r'.table == r.table {
      SameTableOk(r, r');
    } else {
      RemovedOk(r, r', r1.slots[s].key);
    }
  }

  /** A slot that its holder leaves with the worker's credential on record. */
  lemma LeaveKeeps(r: Registry, r1: Registry, c: CallId, s: SlotId)
    requires Inv(r) && Touches(r, r1, c, s) && r1.table == r.table && r1.limits == r.limits
    requires r.slots[s].holder.None? || r.slots[s].holder == Some(c)
    requires r1.slots[s].worker.Some? ==>
      && Accepted(s, r1.slots[s].generation, r1.slots[s].worker.value.digest) in r1.log.accepted
      && r1.slots[s].worker.value.number < r1.log.started
    ensures Inv(Leave(r1, c, s))
  {
    var r' := Leave(r1, c, s);
    assert TableOk(r);
    hide TableOk, Leave, Holds;
    LeaveTable(r, r1, c, s);
    assert SlotOk(r', s) && CallOk(r', c, Over);
    hide CallOk, SlotOk;
    TouchKeeps(r, r', c, s);
  }

  lemma GoKeeps(r: Registry, r1: Registry, c: CallId, s: SlotId, pc: Pc)
    requires Inv(r) && Touches(r, Goto(r1, c, pc), c, s) && r1.table == r.table
    requires r1.limits == r.limits
    requires CallOk(Goto(r1, c, pc), c, pc) && SlotOk(Goto(r1, c, pc), s)
    requires r1.slots[s].worker.Some? ==> r1.slots[s].worker.value.number < r1.log.started
    ensures Inv(Goto(r1, c, pc))
  {
    hide CallOk, SlotOk;
    SameTableOk(r, Goto(r1, c, pc));
    TouchKeeps(r, Goto(r1, c, pc), c, s);
  }

  // ---------------------------------------------------------------------------
  // every step
  // ---------------------------------------------------------------------------

  /** Inside the section with a worker of this user whose credential is on record. */
  lemma UseKeeps(r: Registry, r1: Registry, c: CallId, i: Identity, s: SlotId)
    requires Inv(r) && c in r.calls && r1.calls == r.calls && Touches(r, r1, c, s)
    requires r.slots[s].holder.None? || r.slots[s].holder == Some(c)
    requires r1.table == r.table && r1.limits == r.limits
    requires r1.slots[s].holder == Some(c) && r1.slots[s].key == KeyOf(i) && Accepted(s, i.generation, i.digest) in r1.log.accepted
    requires r1.slots[s].worker.Some? && r1.slots[s].worker.value.username == i.username
    requires r1.slots[s].worker.value.number < r1.log.started
    requires Accepted(s, r1.slots[s].generation, r1.slots[s].worker.value.digest) in r1.log.accepted
    ensures Inv(UseWorker(r1, c, i, s))
  {
    hide TableOk, Inv;
    var r' := UseWorker(r1, c, i, s);
    if r'.calls[c].Over? {
      LeaveKeeps(r, r1, c, s);
    } else {
      GoKeeps(r, r1, c, s, r'.calls[c]);
    }
  }

  lemma SectionKeeps(r: Registry, c: CallId, i: Identity, s: SlotId, a: Answer)
    requires Inv(r) && c in r.calls && r.calls[c] == Waiting(i, s) && s < |r.slots| && r.slots[s].holder.None?
    ensures Inv(Section(r, c, i, s, a))
  {
    var slot := r.slots[s];
    assert CallOk(r, c, r.calls[c]) && SlotOk(r, s);
    assert slot.worker.Some? ==> slot.worker.value.number < r.log.started;
    hide TableOk, Inv;

    var r1 := PutSlot(r, s, slot.(holder := Some(c)));
    if !a.valid || slot.retiring || slot.lifetime != i.lifetime || (slot.worker.Some? && slot.worker.value.username != i.username) {
      LeaveKeeps(r, r1, c, s);
    } else {
      var r2 := r1.(log := r1.log.(accepted := r1.log.accepted + {Accepted(s, i.generation, i.digest)}));
      if slot.worker.None? {
        GoKeeps(r, r2, c, s, Starting(i, s));
      } else {
        UseKeeps(r, r2, c, i, s);
      }
    }
  }

  lemma StartedKeeps(r: Registry, c: CallId, i: Identity, s: SlotId, a: Answer)
    requires Inv(r) && c in r.calls && r.calls[c] == Starting(i, s) && s < |r.slots|
    ensures Inv(Started(r, c, i, s, a))
  {
    assert CallOk(r, c, r.calls[c]);
    hide TableOk, Inv;
    if !a.ok {
      LeaveKeeps(r, r, c, s);
    } else {
      var worker := Worker(r.log.started, a.username, i.digest, a.renewable);
      var slot := r.slots[s].(worker := Some(worker), generation := i.generation);
      var r1 := PutSlot(r, s, slot).(log := r.log.(started := r.log.started + 1));
      if !a.valid || slot.retiring || a.username != i.username {
        GoKeeps(r, PutSlot(r1, s, slot.(retiring := true)), c, s, Discarding(i, s));
      } else {
        UseKeeps(r, r1, c, i, s);
      }
    }
  }

  /** A call inside the section that is not recording has the worker's credential on record. */
  lemma OnRecord(r: Registry, c: CallId, s: SlotId)
    requires Inv(r) && c in r.calls && Holds(r.calls[c]) && !r.calls[c].Renewed? && r.calls[c].slot == s && s < |r.slots|
    ensures r.slots[s].holder == Some(c) && CallOk(r, c, r.calls[c])
    ensures r.slots[s].worker.Some? ==>
      && Accepted(s, r.slots[s].generation, r.slots[s].worker.value.digest) in r.log.accepted
      && r.slots[s].worker.value.number < r.log.started
  {
    assert CallOk(r, c, r.calls[c]) && SlotOk(r, s);
  }

  lemma DiscardedKeeps(r: Registry, c: CallId, i: Identity, s: SlotId, a: Answer)
    requires Inv(r) && c in r.calls && r.calls[c] == Discarding(i, s) && s < |r.slots|
    ensures Inv(Discarded(r, c, s, a))
  {
    OnRecord(r, c, s);
    hide TableOk, Inv, CallOk, SlotOk;
    LeaveKeeps(r, if a.ok then PutSlot(r, s, r.slots[s].(worker := None)) else r, c, s);
  }

  lemma LeaseKeeps(r: Registry, c: CallId, i: Identity, s: SlotId)
    requires Inv(r) && c in r.calls && r.calls[c] == Leased(i, s) && s < |r.slots|
    ensures Inv(Leave(r, c, s))
  {
    OnRecord(r, c, s);
    hide TableOk, Inv, CallOk, SlotOk;
    LeaveKeeps(r, r, c, s);
  }

  lemma RenewKeeps(r: Registry, c: CallId, i: Identity, s: SlotId, a: Answer)
    requires Inv(r) && c in r.calls && r.calls[c] == Renewing(i, s) && s < |r.slots| && r.slots[s].worker.Some?
    ensures Inv(AfterRenew(r, c, i, s, a))
  {
    OnRecord(r, c, s);
    hide TableOk, Inv;
    if !a.ok {
      LeaveKeeps(r, r, c, s);
    } else {
      GoKeeps(r, PutSlot(r, s, r.slots[s].(worker := Some(r.slots[s].worker.value.(digest := i.digest)))), c, s, Renewed(i, s));
    }
  }

  lemma AdvancedKeeps(r: Registry, c: CallId, i: Identity, s: SlotId, a: Answer)
    requires Inv(r) && c in r.calls && r.calls[c] == Renewed(i, s) && s < |r.slots|
    ensures Inv(Advanced(r, c, i, s, a))
  {
    assert CallOk(r, c, r.calls[c]) && r.slots[s].worker.value.number < r.log.started;
    hide TableOk, Inv;
    var r1 := PutSlot(r, s, r.slots[s].(generation := i.generation));
    if !a.valid {
      LeaveKeeps(r, r1, c, s);
    } else {
      GoKeeps(r, r1, c, s, Leased(i, s));
    }
  }

  lemma AbortKeeps(r: Registry, c: CallId, i: Identity, s: SlotId)
    requires Inv(r) && c in r.calls && r.calls[c] == Waiting(i, s) && s < |r.slots|
    ensures Inv(Goto(Drop(r, s), c, Over))
  {
    var r' := Goto(Drop(r, s), c, Over);
    AbortSlot(r, c, i, s);
    hide SlotOk, CallOk, TableOk, Touches;
    DropTable(r, c, s);
    TouchKeeps(r, r', c, s);
  }

  lemma DropTable(r: Registry, c: CallId, s: SlotId)
    requires TableOk(r) && s < |r.slots|
    ensures TableOk(Goto(Drop(r, s), c, Over))
  {
    hide TableOk;
    var r' := Goto(Drop(r, s), c, Over);
    if r'.table == r.table {
      SameTableOk(r, r');
    } else {
      RemovedOk(r, r', r.slots[s].key);
    }
  }

  lemma AbortSlot(r: Registry, c: CallId, i: Identity, s: SlotId)
    requires Inv(r) && c in r.calls && r.calls[c] == Waiting(i, s) && s < |r.slots|
    ensures var r' := Goto(Drop(r, s), c, Over);
      Touches(r, r', c, s) && SlotOk(r', s) && CallOk(r', c, r'.calls[c])
      && (r'.slots[s].worker.Some? ==> r'.slots[s].worker.value.number < r'.log.started)
  {
    assert SlotOk(r, s);
    assert r.slots[s].worker.Some? ==> r.slots[s].worker.value.number < r.log.started;
    hide TableOk, Inv, Ahead, KeyOf;
    var r' := Goto(Drop(r, s), c, Over);
    assert r'.slots[s] == r.slots[s].(references := r.slots[s].references - 1) && r'.log == r.log;
    if r.slots[s].worker.Some? && Recording(r, s) {
      assert r.slots[s].holder.value != c;
    }
  }

  lemma RetireSectionKeeps(r: Registry, c: CallId, s: SlotId, next: Option<Identity>)
    requires Inv(r) && c in r.calls && r.calls[c] == RetireWaiting(s, next) && s < |r.slots| && r.slots[s].holder.None?
    ensures Inv(RetireSection(r, c, s, next))
  {
    assert SlotOk(r, s);
    assert r.slots[s].worker.Some? ==> r.slots[s].worker.value.number < r.log.started;
    hide TableOk, Inv;
    GoKeeps(r, PutSlot(r, s, r.slots[s].(holder := Some(c))), c, s, RetireClosing(s, next));
  }

  /** A retirement that fails releases the lock and leaves the worker. */
  lemma KeptKeeps(r: Registry, c: CallId, s: SlotId, next: Option<Identity>)
    requires Inv(r) && c in r.calls && r.calls[c] == RetireClosing(s, next) && s < |r.slots|
    ensures Inv(Goto(Unlock(r, s), c, Over))
  {
    OnRecord(r, c, s);
    hide TableOk, Inv;
    GoKeeps(r, Unlock(r, s), c, s, Over);
  }

  lemma ClosedTable(r: Registry, c: CallId, s: SlotId, pc: Pc)
    requires TableOk(r) && s < |r.slots|
    ensures TableOk(Goto(Sweep(Unlock(PutSlot(r, s, r.slots[s].(worker := None)), s), s), c, pc))
  {
    hide TableOk;
    var closed := Goto(Sweep(Unlock(PutSlot(r, s, r.slots[s].(worker := None)), s), s), c, pc);
    if closed.table == r.table {
      SameTableOk(r, closed);
    } else {
      RemovedOk(r, closed, r.slots[s].key);
    }
  }

  /** The slot after a retirement. */
  lemma ClosedKeeps(r: Registry, c: CallId, s: SlotId, next: Option<Identity>, pc: Pc)
    requires Inv(r) && c in r.calls && r.calls[c] == RetireClosing(s, next) && s < |r.slots| && Idle(pc)
    ensures Inv(Goto(Sweep(Unlock(PutSlot(r, s, r.slots[s].(worker := None)), s), s), c, pc))
  {
    OnRecord(r, c, s);
    var r1 := Unlock(PutSlot(r, s, r.slots[s].(worker := None)), s);
    var closed := Goto(Sweep(r1, s), c, pc);
    hide TableOk;
    assert TableOk(r);
    ClosedTable(r, c, s, pc);
    assert Touches(r, closed, c, s) && SlotOk(closed, s) && closed.slots[s].worker.None?;
    assert CallOk(closed, c, pc);
    hide Ahead, Goto, Holds, KeyOf, PutSlot, SlotOk, Sweep, TableOk, Touches, Unlock;
    TouchKeeps(r, closed, c, s);
  }

  // -- entering ------------------------------------------------------------------------

  predicate Outside(r: Registry, c: CallId) { c in r.calls ==> !Holds(r.calls[c]) }

  lemma NewSlotTable(r: Registry, r': Registry, i: Identity)
    requires TableOk(r) && KeyOf(i) !in r.table && r'.limits == r.limits
    requires |r.table| < r.limits.maxWorkers && |OfPrincipal(r.table, i.principal)| < r.limits.maxPerPrincipal
    requires |r'.slots| == |r.slots| + 1 && (forall s | 0 <= s < |r.slots| :: r'.slots[s] == r.slots[s])
    requires r'.slots[|r.slots|].key == KeyOf(i) && r'.table == r.table[KeyOf(i) := |r.slots|]
    ensures TableOk(r')
  {
    hide OfPrincipal;
    assert KeyOf(i).principal == i.principal;
    OneMore(r.table, KeyOf(i), |r.slots|);
    forall k | k in r'.table ensures |OfPrincipal(r'.table, k.principal)| <= r.limits.maxPerPrincipal {
      OneMoreOf(r.table, KeyOf(i), |r.slots|, k.principal);
      if k != KeyOf(i) && k.principal == i.principal {
        assert k in r.table;
      }
    }
  }

  lemma NewSlotKeeps(r: Registry, c: CallId, i: Identity)
    requires Inv(r) && Outside(r, c) && KeyOf(i) !in r.table
    requires |r.table| < r.limits.maxWorkers && |OfPrincipal(r.table, i.principal)| < r.limits.maxPerPrincipal
    ensures var s := |r.slots|;
      Inv(Goto(r.(slots := r.slots + [Slot(KeyOf(i), i.lifetime, i.generation, 1, false, None, None)],
                  table := r.table[KeyOf(i) := s]), c, Waiting(i, s)))
  {
    var s := |r.slots|;
    var r' := Goto(r.(slots := r.slots + [Slot(KeyOf(i), i.lifetime, i.generation, 1, false, None, None)],
                      table := r.table[KeyOf(i) := s]), c, Waiting(i, s));
    hide TableOk, OfPrincipal;
    NewSlotTable(r, r', i);
    forall d | d in r'.calls ensures CallOk(r', d, r'.calls[d]) {
      if d != c {
        assert CallOk(r, d, r.calls[d]);
      }
    }
    hide CallOk;
    forall t | 0 <= t < |r'.slots| ensures SlotOk(r', t) {
      if t < s {
        assert SlotOk(r, t);
      }
    }
  }

  lemma JoinKeeps(r: Registry, c: CallId, i: Identity, s: SlotId)
    requires Inv(r) && Outside(r, c) && s < |r.slots| && r.slots[s].key == KeyOf(i)
    ensures Inv(Goto(PutSlot(r, s, r.slots[s].(references := r.slots[s].references + 1)), c, Waiting(i, s)))
  {
    assert SlotOk(r, s);
    assert r.slots[s].worker.Some? ==> r.slots[s].worker.value.number < r.log.started;
    hide TableOk, Inv;
    var r1 := PutSlot(r, s, r.slots[s].(references := r.slots[s].references + 1));
    GoKeeps(r, r1, c, s, Waiting(i, s));
  }

  lemma OverKeeps(r: Registry, c: CallId, pc: Pc)
    requires Inv(r) && Outside(r, c) && (pc.Over? || (pc.RetireWaiting? && pc.slot < |r.slots|))
    ensures Inv(Goto(r, c, pc))
  {
    var r' := Goto(r, c, pc);

    assert TableOk(r');
    forall d | d in r'.calls ensures CallOk(r', d, r'.calls[d]) {
      if d != c {
        assert CallOk(r, d, r.calls[d]);
      }
    }
    hide CallOk;
    forall t | 0 <= t < |r'.slots| ensures SlotOk(r', t) {
      assert SlotOk(r, t);
    }
  }

  lemma TableFacts(r: Registry, k: Key)
    requires Inv(r)
    ensures forall x | x in r.table :: r.table[x] < |r.slots|
    ensures k in r.table ==> r.slots[r.table[k]].key == k
  {
  }

  lemma EnterKeeps(r: Registry, c: CallId, i: Identity)
    requires Inv(r) && Outside(r, c)
    ensures (forall k | k in r.table :: r.table[k] < |r.slots|) && Inv(Enter(r, c, i))
  {
    hide Goto, Inv, KeyOf, OfPrincipal, Outside, PutSlot;

    var key := KeyOf(i);
    TableFacts(r, key);
    if key in r.table {
      if r.slots[r.table[key]].retiring {
        OverKeeps(r, c, Over);
      } else {
        JoinKeeps(r, c, i, r.table[key]);
      }
    } else if |r.table| >= r.limits.maxWorkers || |OfPrincipal(r.table, i.principal)| >= r.limits.maxPerPrincipal {
      OverKeeps(r, c, Over);
    } else {
      NewSlotKeeps(r, c, i);
    }
  }

  lemma RetiredKeeps(r: Registry, c: CallId, s: SlotId, next: Option<Identity>, a: Answer)
    requires Inv(r) && c in r.calls && r.calls[c] == RetireClosing(s, next) && s < |r.slots|
    ensures Inv(Retired(r, c, s, next, a))
  {
    hide Inv, Sweep;
    KeptKeeps(r, c, s, next);
    ClosedKeeps(r, c, s, next, if next.Some? then Rechecking(next.value) else Over);
  }

  lemma RecheckKeeps(r: Registry, c: CallId, i: Identity)
    requires Inv(r) && c in r.calls && r.calls[c] == Rechecking(i)
    ensures (forall k | k in r.table :: r.table[k] < |r.slots|) && Inv(Enter(r, c, i))
  {
    hide Inv, Enter;
    EnterKeeps(r, c, i);
  }

  lemma BeginKeeps(r: Registry, c: CallId, i: Identity, valid: bool)
    requires Inv(r) && c !in r.calls
    ensures (forall k | k in r.table :: r.table[k] < |r.slots|) && Inv(Begin(r, c, i, valid))
  {
    assert TableOk(r);
    assert forall k | k in r.table :: r.table[k] < |r.slots|;
    hide Inv, TableOk, Enter;
    var key := KeyOf(i);
    if !valid {
      OverKeeps(r, c, Over);
    } else if key in r.table && r.slots[r.table[key]].retiring {
      if r.slots[r.table[key]].references > 0 {
        OverKeeps(r, c, Over);
      } else {
        OverKeeps(r, c, RetireWaiting(r.table[key], Some(i)));
      }
    } else {
      EnterKeeps(r, c, i);
    }
  }

  lemma RetireKeeps(r: Registry, c: CallId, s: SlotId)
    requires Inv(r) && c !in r.calls && s < |r.slots|
    ensures Inv(Goto(PutSlot(r, s, r.slots[s].(retiring := true)), c, RetireWaiting(s, None)))
  {
    assert SlotOk(r, s);
    assert r.slots[s].worker.Some? ==> r.slots[s].worker.value.number < r.log.started;
    assert Recording(r, s) ==> r.slots[s].holder.value != c;
    hide TableOk, Inv;
    GoKeeps(r, PutSlot(r, s, r.slots[s].(retiring := true)), c, s, RetireWaiting(s, None));
  }

  /** Where a call waits, there is a slot, and a worker to renew. */
  lemma PlaceOf(r: Registry, c: CallId)
    requires InRange(r) && c in r.calls
    ensures !Idle(r.calls[c]) ==> r.calls[c].slot < |r.slots|
    ensures r.calls[c].Renewing? ==> r.slots[r.calls[c].slot].worker.Some?
    ensures forall k | k in r.table :: r.table[k] < |r.slots|
  {
  }

  /** A call that asked for a slot's worker. */
  lemma AcquireKeeps(r: Registry, c: CallId, a: Answer)
    requires Inv(r) && c in r.calls && !r.calls[c].RetireWaiting? && !r.calls[c].RetireClosing? && !r.calls[c].Rechecking?
    ensures InRange(r) && Inv(Advance(r, c, a))
  {
    InvInRange(r);
    PlaceOf(r, c);
    hide Advanced, AfterRenew, CallOk, Discarded, Drop, Goto, Inv, RetireSection, Retired, Section, Started, Enter, InRange;

    match r.calls[c]
    case Waiting(i, s) =>
      if r.slots[s].holder.None? {
        SectionKeeps(r, c, i, s, a);
      } else if !a.valid {
        AbortKeeps(r, c, i, s);
      }
    case Starting(i, s) => StartedKeeps(r, c, i, s, a);
    case Discarding(i, s) => DiscardedKeeps(r, c, i, s, a);
    case Renewing(i, s) => RenewKeeps(r, c, i, s, a);
    case Renewed(i, s) => AdvancedKeeps(r, c, i, s, a);
    case _ =>
  }

  lemma AdvanceKeeps(r: Registry, c: CallId, a: Answer)
    requires Inv(r) && c in r.calls
    ensures InRange(r) && Inv(Advance(r, c, a))
  {
    InvInRange(r);
    PlaceOf(r, c);
    hide Advanced, AfterRenew, Discarded, Drop, Goto, Inv, RetireSection, Retired, Section, Started, Enter, InRange;

    match r.calls[c]
    case RetireWaiting(s, next) =>
      if r.slots[s].holder.None? {
        RetireSectionKeeps(r, c, s, next);
      }
    case RetireClosing(s, next) => RetiredKeeps(r, c, s, next, a);
    case Rechecking(i) => RecheckKeeps(r, c, i);
    case _ => AcquireKeeps(r, c, a);
  }

  lemma StepKeeps(r: Registry, e: Event)
    requires Inv(r)
    ensures InRange(r) && Inv(Step(r, e))
  {
    InvInRange(r);
    hide Advance, Begin, Goto, Inv, Leave, PutSlot;

    match e
    case Acquire(c, i, valid) => if c !in r.calls { BeginKeeps(r, c, i, valid); }
    case Continue(c, a) => if c in r.calls { AdvanceKeeps(r, c, a); }
    case ReleaseLease(c) => if c in r.calls && r.calls[c].Leased? { LeaseKeeps(r, c, r.calls[c].identity, r.calls[c].slot); }
    case Retire(c, s) => if c !in r.calls && s < |r.slots| { RetireKeeps(r, c, s); }
  }

  /** The reachable states. */
  function Run(maxWorkers: nat, maxPerPrincipal: nat, es: seq<Event>): (r: Registry)
    ensures Inv(r) && r.limits == Limits(maxWorkers, maxPerPrincipal)
  {
    if es == [] then
      New(maxWorkers, maxPerPrincipal)
    else
      var before := Run(maxWorkers, maxPerPrincipal, es[..|es| - 1]);
      StepKeeps(before, es[|es| - 1]);
      Step(before, es[|es| - 1])
  }

  // ---------------------------------------------------------------------------
  // what the registry promises
  // ---------------------------------------------------------------------------

  /** The table stays within both capacities. */
  lemma CapacityKept(maxWorkers: nat, maxPerPrincipal: nat, es: seq<Event>, k: Key)
    ensures var r := Run(maxWorkers, maxPerPrincipal, es);
      |r.table| <= maxWorkers && (k in r.table ==> |OfPrincipal(r.table, k.principal)| <= maxPerPrincipal)
  {
  }

  /** At most one call is inside the locked section of a slot. */
  lemma OneInSection(maxWorkers: nat, maxPerPrincipal: nat, es: seq<Event>, c: CallId, d: CallId)
    requires var r := Run(maxWorkers, maxPerPrincipal, es);
      c in r.calls && d in r.calls && Holds(r.calls[c]) && Holds(r.calls[d]) && r.calls[c].slot == r.calls[d].slot
    ensures c == d
  {
    hide Run, TableOk, SlotOk;
    var r := Run(maxWorkers, maxPerPrincipal, es);
    assert CallOk(r, c, r.calls[c]) && CallOk(r, d, r.calls[d]);
  }

  /** A lease is on a worker of the caller's own key and user, never ahead of it, and of its credential if level. */
  lemma LeaseMatches(maxWorkers: nat, maxPerPrincipal: nat, es: seq<Event>, c: CallId)
    requires var r := Run(maxWorkers, maxPerPrincipal, es); c in r.calls && r.calls[c].Leased?
    ensures var r := Run(maxWorkers, maxPerPrincipal, es); var i := r.calls[c].identity; var s := r.calls[c].slot;
      && s < |r.slots| && r.slots[s].key == KeyOf(i) && r.slots[s].worker.Some? && r.slots[s].worker.value.username == i.username
      && (!i.lifetime.Credential? && i.generation >= r.slots[s].generation ==>
            i.generation == r.slots[s].generation && r.slots[s].worker.value.digest == i.digest)
  {
    hide Run, TableOk, SlotOk;
    var r := Run(maxWorkers, maxPerPrincipal, es);
    assert CallOk(r, c, r.calls[c]);
  }

  /** A worker's credential was accepted at its slot's generation, except while its renewal is being recorded. */
  lemma CredentialAccepted(maxWorkers: nat, maxPerPrincipal: nat, es: seq<Event>, s: SlotId)
    requires var r := Run(maxWorkers, maxPerPrincipal, es); s < |r.slots| && r.slots[s].worker.Some? && !Recording(r, s)
    ensures var r := Run(maxWorkers, maxPerPrincipal, es);
      Accepted(s, r.slots[s].generation, r.slots[s].worker.value.digest) in r.log.accepted
  {
    hide Run, TableOk, CallOk;
    assert SlotOk(Run(maxWorkers, maxPerPrincipal, es), s);
  }

  /** Slot `s` keeps its worker and generation. */
  predicate SameAt(r: Registry, r': Registry, s: SlotId) {
    s < |r.slots| <= |r'.slots| && r'.slots[s].worker == r.slots[s].worker && r'.slots[s].generation == r.slots[s].generation
  }

  lemma EnterSame(r: Registry, c: CallId, i: Identity, s: SlotId)
    requires (forall k | k in r.table :: r.table[k] < |r.slots|) && s < |r.slots|
    ensures SameAt(r, Enter(r, c, i), s)
  {
  }

  lemma SectionSame(r: Registry, c: CallId, i: Identity, t: SlotId, a: Answer, s: SlotId)
    requires t < |r.slots| && s < |r.slots|
    ensures SameAt(r, Section(r, c, i, t, a), s)
  {
  }

  lemma RetiredSame(r: Registry, c: CallId, t: SlotId, next: Option<Identity>, a: Answer, s: SlotId)
    requires t < |r.slots| && s < |r.slots|
    ensures var r' := Retired(r, c, t, next, a);
      SameAt(r, r', s) || (s == t && s < |r.slots| == |r'.slots| && r'.slots[s].worker.None?)
  {
  }

  lemma LeaveSame(r: Registry, c: CallId, t: SlotId, s: SlotId)
    requires t < |r.slots| && s < |r.slots|
    ensures SameAt(r, Leave(r, c, t), s)
  {
  }

  lemma BeginSame(r: Registry, c: CallId, i: Identity, valid: bool, s: SlotId)
    requires (forall k | k in r.table :: r.table[k] < |r.slots|) && s < |r.slots|
    ensures SameAt(r, Begin(r, c, i, valid), s)
  {
  }

  /** The slot's worker is replaced or gone, or it is the same one at the same or a later generation. */
  predicate RisesAt(r: Registry, r': Registry, s: SlotId) {
    s < |r.slots| <= |r'.slots| &&
    (r.slots[s].worker.Some? && r'.slots[s].worker.Some? && r'.slots[s].worker.value.number == r.slots[s].worker.value.number ==>
       && r'.slots[s].generation >= r.slots[s].generation
       && r'.slots[s].worker.value.username == r.slots[s].worker.value.username)
  }

  lemma RenewRises(r: Registry, c: CallId, i: Identity, t: SlotId, a: Answer, s: SlotId)
    requires t < |r.slots| && s < |r.slots| && r.slots[t].worker.Some?
    ensures RisesAt(r, AfterRenew(r, c, i, t, a), s)
  {
  }

  lemma StartedRises(r: Registry, c: CallId, i: Identity, t: SlotId, a: Answer, s: SlotId)
    requires t < |r.slots| && s < |r.slots| && r.slots[t].worker.None?
    ensures RisesAt(r, Started(r, c, i, t, a), s)
  {
  }

  /** What the rising generation needs to know about a waiting call. */
  lemma CallFacts(r: Registry, c: CallId)
    requires Inv(r) && c in r.calls && !Idle(r.calls[c])
    ensures r.calls[c].slot < |r.slots|
    ensures r.calls[c].Starting? ==> r.slots[r.calls[c].slot].worker.None?
    ensures r.calls[c].Renewed? ==> r.calls[c].identity.generation > r.slots[r.calls[c].slot].generation
    ensures forall k | k in r.table :: r.table[k] < |r.slots|
  {
  }

  lemma RetiredRises(r: Registry, c: CallId, t: SlotId, next: Option<Identity>, a: Answer, s: SlotId)
    requires t < |r.slots| && s < |r.slots|
    ensures RisesAt(r, Retired(r, c, t, next, a), s)
  {
    RetiredSame(r, c, t, next, a, s);
    hide Retired;
  }

  lemma AdvanceRises(r: Registry, c: CallId, a: Answer, s: SlotId)
    requires Inv(r) && InRange(r) && c in r.calls && s < |r.slots|
    ensures RisesAt(r, Advance(r, c, a), s)
  {
    hide Advanced, AfterRenew, Discarded, Inv, Retired, SameAt, Section, Started;

    assert RisesAt(r, r, s);
    if !Idle(r.calls[c]) {
      CallFacts(r, c);
    }
    match r.calls[c]
    case Waiting(i, t) =>
      SectionSame(r, c, i, t, a, s);
      assert RisesAt(r, Goto(Drop(r, t), c, Over), s);
    case Starting(i, t) => StartedRises(r, c, i, t, a, s);
    case Renewing(i, t) => RenewRises(r, c, i, t, a, s);
    case Renewed(i, t) => AdvancedRises(r, c, i, t, a, s);
    case Discarding(i, t) => DiscardRises(r, c, t, a, s);
    case RetireWaiting(t, next) =>
      assert RisesAt(r, RetireSection(r, c, t, next), s);
    case RetireClosing(t, next) => RetiredRises(r, c, t, next, a, s);
    case Rechecking(i) => EnterSame(r, c, i, s);
    case _ =>
  }

  lemma AdvancedRises(r: Registry, c: CallId, i: Identity, t: SlotId, a: Answer, s: SlotId)
    requires t < |r.slots| && s < |r.slots| && i.generation >= r.slots[t].generation
    ensures RisesAt(r, Advanced(r, c, i, t, a), s)
  {
  }

  lemma DiscardRises(r: Registry, c: CallId, t: SlotId, a: Answer, s: SlotId)
    requires t < |r.slots| && s < |r.slots|
    ensures RisesAt(r, Discarded(r, c, t, a), s)
  {
  }

  /** While a worker lives its slot's generation never falls, and its user never changes. */
  lemma GenerationRises(maxWorkers: nat, maxPerPrincipal: nat, es: seq<Event>, e: Event, s: SlotId)
    requires s < |Run(maxWorkers, maxPerPrincipal, es).slots|
    ensures var r := Run(maxWorkers, maxPerPrincipal, es); InRange(r) && RisesAt(r, Step(r, e), s)
  {
    var r := Run(maxWorkers, maxPerPrincipal, es);
    InvInRange(r);
    assert forall k | k in r.table :: r.table[k] < |r.slots|;
    assert forall c | c in r.calls && r.calls[c].Leased? :: r.calls[c].slot < |r.slots|;
    hide Run, Inv, Advance, Begin, Leave, InRange;
    match e
    case Continue(c, a) => if c in r.calls { AdvanceRises(r, c, a, s); }
    case Acquire(c, i, valid) => if c !in r.calls { BeginSame(r, c, i, valid, s); }
    case ReleaseLease(c) => if c in r.calls && r.calls[c].Leased? { LeaveSame(r, c, r.calls[c].slot, s); }
    case Retire(_, _) =>
  }
}
