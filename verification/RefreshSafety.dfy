/** What every interleaving of the refresh protocol keeps. */
module RefreshSafety {
  import opened Options
  import opened RefreshGrants

  // ---------------------------------------------------------------------------
  // the invariant
  // ---------------------------------------------------------------------------

  /** Revoked on top; below it 2 * generation + refreshing. */
  function Rank(f: Family): nat { 2 * f.generation + if f.status.Refreshing? then 1 else 0 }

  predicate Later(f: Family, g: Family) {
    !f.status.Revoked? && (g.status.Revoked? || Rank(f) < Rank(g))
  }

  /** A later write of the same grant: strict progress, and what never changes. */
  predicate Follows(f: Family, g: Family) {
    Later(f, g) && g.client == f.client && g.binding == f.binding && g.expiresAt == f.expiresAt
  }

  /** A family value that was written: its generations are committed and its tokens are theirs. */
  predicate FamilyOk(h: History, grant: Grant, f: Family) {
    && (forall n: nat | n <= f.generation :: Gen(grant, n) in h.commits)
    && (var pair := h.commits[Gen(grant, f.generation)].pair;
        && f.digest == pair.refresh && pair.accessExpiresAt <= f.expiresAt
        && (f.receipt.Some? ==>
              && f.generation > 0 && f.receipt.value.pair == pair
              && f.receipt.value.digest == h.commits[Gen(grant, f.generation - 1)].pair.refresh
              && f.receipt.value.expiresAt <= pair.accessExpiresAt))
    && (f.status.Refreshing? ==> Gen(grant, f.generation) in h.claims)
  }

  predicate WrittenOk(h: History) {
    && (forall v | 0 <= v < |h.written| :: h.written[v].grant in h.creators && FamilyOk(h, h.written[v].grant, h.written[v].family))
    && (forall v, u | 0 <= v < u < |h.written| && h.written[v].grant == h.written[u].grant ::
          Follows(h.written[v].family, h.written[u].family))
  }

  predicate WroteAt(h: History, v: nat, grant: Grant, generation: nat, status: Status) {
    v < |h.written| && h.written[v].grant == grant && h.written[v].family.generation == generation
    && h.written[v].family.status == status
  }

  predicate NoRepeats(s: seq<Gen>) { forall i, j | 0 <= i < j < |s| :: s[i] != s[j] }

  /** Every commit is a minted pair and a write. */
  predicate CommitsOk(h: History) {
    forall k | k in h.commits ::
      && WroteAt(h, h.commits[k].version, k.grant, k.generation, Active)
      && k in h.pairs && h.pairs[k] == h.commits[k].pair
  }

  predicate ClaimsOk(h: History) {
    forall k | k in h.claims :: WroteAt(h, h.claims[k].version, k.grant, k.generation, Refreshing)
  }

  /** A pair is minted for a generation whose predecessor was claimed, and its tokens name it. */
  predicate PairsOk(h: History) {
    forall k | k in h.pairs ::
      && k.grant in h.creators && (k.generation > 0 ==> Gen(k.grant, k.generation - 1) in h.claims)
      && h.pairs[k].access in h.accessOf && h.accessOf[h.pairs[k].access] == k
      && h.pairs[k].refresh in h.refreshOf && h.refreshOf[h.pairs[k].refresh] == k
  }

  predicate TokensOk(h: History) {
    && (forall t | t in h.accessOf :: h.accessOf[t] in h.pairs && h.pairs[h.accessOf[t]].access == t && t < h.next)
    && (forall t | t in h.refreshOf :: h.refreshOf[t] in h.pairs && h.pairs[h.refreshOf[t]].refresh == t && t < h.next)
    && (forall g | g in h.creators :: g < h.next)
  }

  /** Every request sent upstream was claimed first, and is the only one for its claim. */
  predicate UpstreamOk(h: History) {
    NoRepeats(h.upstream) && forall k | k in h.upstream :: k in h.claims
  }

  predicate LogOk(h: History) {
    CommitsOk(h) && ClaimsOk(h) && PairsOk(h) && TokensOk(h) && UpstreamOk(h)
  }

  predicate SnapOk(h: History, grant: Grant, s: Snap) {
    s.version < |h.written| && h.written[s.version] == Written(grant, s.family)
  }

  /** An access record names the generation its token was minted for, and expires with the pair. */
  predicate RecordOk(h: History, token: Token, r: AccessRecord) {
    var k := Gen(r.grant, r.generation);
    token in h.accessOf && h.accessOf[token] == k && k in h.pairs && r.expiresAt == h.pairs[k].accessExpiresAt
  }

  predicate StoreOk(w: World) {
    && (forall g | g in w.store.families ::
          && SnapOk(w.h, g, w.store.families[g])
          && forall v | 0 <= v < |w.h.written| && w.h.written[v].grant == g :: v <= w.store.families[g].version)
    && (forall t | t in w.store.access ::
          RecordOk(w.h, t, w.store.access[t]))
    && (forall t | t in w.store.references ::
          t in w.h.refreshOf && w.h.refreshOf[t] == Gen(w.store.references[t].grant, w.store.references[t].generation))
  }

  /** Call `c` won the claim of its generation, on the family it was shown. */
  predicate Owns(h: History, c: CallId, job: Job, claimed: Family) {
    var k := Gen(job.grant, job.generation);
    && k in h.claims && h.claims[k].call == c
    && WroteAt(h, h.claims[k].version, job.grant, job.generation, Refreshing)
    && h.written[h.claims[k].version].family == claimed
    && claimed.generation == job.generation && claimed.digest == job.token && claimed.client == job.client
    && job.attempts == 1
  }

  predicate JobOk(h: History, job: Job) {
    job.token in h.refreshOf && h.refreshOf[job.token] == Gen(job.grant, job.generation)
  }

  /** The claim was tried on version `v`, and lost: the family has moved on for good. */
  predicate TriedOk(w: World, job: Job) {
    && job.attempts == (if job.tried.Some? then 1 else 0)
    && (job.tried.Some? ==>
          && WroteAt(w.h, job.tried.value, job.grant, job.generation, Active)
          && (job.grant in w.store.families ==> w.store.families[job.grant].version > job.tried.value))
  }

  predicate Prepared(h: History, job: Job, claimed: Family, next: Family, pair: Pair) {
    && Gen(job.grant, job.generation + 1) in h.pairs && h.pairs[Gen(job.grant, job.generation + 1)] == pair
    && next.generation == job.generation + 1 && next.status.Active? && next.receipt.None?
    && next.client == claimed.client && next.binding == claimed.binding && next.expiresAt == claimed.expiresAt
    && pair.accessExpiresAt <= next.expiresAt
  }

  predicate CreateOk(h: History, c: CallId, grant: Grant, f: Family, pair: Pair) {
    && grant in h.creators && h.creators[grant] == c
    && (forall v | 0 <= v < |h.written| :: h.written[v].grant != grant)
    && Gen(grant, 0) in h.pairs && h.pairs[Gen(grant, 0)] == pair
    && f.generation == 0 && f.status.Active? && f.receipt.None? && f.digest == pair.refresh
    && pair.accessExpiresAt <= f.expiresAt
  }

  predicate ResultOk(h: History, r: Result) {
    match r
    case Granted(token, pair) =>
      token in h.refreshOf &&
      (var k := h.refreshOf[token];
       Gen(k.grant, k.generation + 1) in h.commits && h.commits[Gen(k.grant, k.generation + 1)].pair == pair)
    case Authenticated(token, grant, generation) =>
      Gen(grant, generation) in h.commits && h.commits[Gen(grant, generation)].pair.access == token
    case Created(grant, pair) => Gen(grant, 0) in h.commits && h.commits[Gen(grant, 0)].pair == pair
    case _ => true
  }

  predicate RevokeAfter(r: Result) { r.Denied? || r.RevokeDone? }

  predicate CallOk(w: World, c: CallId, pc: Pc) {
    match pc
    case AtRead(job) => JobOk(w.h, job) && TriedOk(w, job)
    case AtClaim(job, snap, claimed) =>
      && JobOk(w.h, job) && job.tried.None? && job.attempts == 0 && SnapOk(w.h, job.grant, snap)
      && snap.family.status.Active? && snap.family.generation == job.generation && snap.family.digest == job.token
      && snap.family.client == job.client && claimed == snap.family.(status := Refreshing, since := claimed.since)
    case AtUpstream(job, claimed) =>
      JobOk(w.h, job) && Owns(w.h, c, job, claimed) && Gen(job.grant, job.generation + 1) !in w.h.pairs
    case AtPutAccess(job, claimed, next, pair) =>
      JobOk(w.h, job) && Owns(w.h, c, job, claimed) && Prepared(w.h, job, claimed, next, pair)
    case AtPutRefresh(job, claimed, next, pair) =>
      JobOk(w.h, job) && Owns(w.h, c, job, claimed) && Prepared(w.h, job, claimed, next, pair)
    case AtReadBack(job, claimed, next, pair) =>
      JobOk(w.h, job) && Owns(w.h, c, job, claimed) && Prepared(w.h, job, claimed, next, pair)
    case AtCommit(job, claimed, pair, snap, final) =>
      && JobOk(w.h, job) && Owns(w.h, c, job, claimed)
      && Prepared(w.h, job, claimed, final.(receipt := None), pair)
      && SnapOk(w.h, job.grant, snap) && snap.family.status.Refreshing? && snap.family.generation == job.generation
      && final.digest == pair.refresh && final.receipt.Some? && final.receipt.value.digest == job.token
      && final.receipt.value.pair == pair && final.receipt.value.expiresAt <= pair.accessExpiresAt
    case AtRevokeRead(_, _, _, after) => RevokeAfter(after)
    case AtRevokeSwap(grant, client, _, after, snap) =>
      RevokeAfter(after) && SnapOk(w.h, grant, snap) && !snap.family.status.Revoked? && snap.family.client == client
    case AtCreatePutAccess(grant, f, pair) => CreateOk(w.h, c, grant, f, pair)
    case AtCreatePutRefresh(grant, f, pair) => CreateOk(w.h, c, grant, f, pair)
    case AtCreateSwap(grant, f, pair) => CreateOk(w.h, c, grant, f, pair)
    case AtIdentityRead(token, r) => RecordOk(w.h, token, r)
    case AtIdentityVerify(token, r, snap) =>
      && RecordOk(w.h, token, r)
      && SnapOk(w.h, r.grant, snap) && !snap.family.status.Revoked? && r.generation <= snap.family.generation
    case Done(r) => ResultOk(w.h, r)
    case _ => true
  }

  predicate Safe(w: World) {
    WrittenOk(w.h) && LogOk(w.h) && StoreOk(w) && forall c | c in w.calls :: CallOk(w, c, w.calls[c])
  }

  // ---------------------------------------------------------------------------
  // what a step of one call may do to the others
  // ---------------------------------------------------------------------------

  predicate Submap<K, V(==)>(a: map<K, V>, b: map<K, V>) { forall k | k in a :: k in b && b[k] == a[k] }

  predicate Extends(h: History, h': History) {
    && h.written <= h'.written && Submap(h.creators, h'.creators) && Submap(h.pairs, h'.pairs)
    && Submap(h.accessOf, h'.accessOf) && Submap(h.refreshOf, h'.refreshOf)
    && Submap(h.commits, h'.commits) && Submap(h.claims, h'.claims)
  }

  /** History only grows; new families, pairs and first writes belong to call `c`. */
  predicate Grows(w: World, w': World, c: CallId) {
    && Extends(w.h, w'.h)
    && (forall g | g in w'.store.families ::
          (g in w.store.families && w'.store.families[g] == w.store.families[g])
          || w'.store.families[g].version >= |w.h.written|)
    && (forall k | k in w'.h.pairs && k !in w.h.pairs && k.generation > 0 ::
          Gen(k.grant, k.generation - 1) in w.h.claims && w.h.claims[Gen(k.grant, k.generation - 1)].call == c)
    && (forall v | |w.h.written| <= v < |w'.h.written| ::
          (w'.h.written[v].grant in w'.h.creators && w'.h.creators[w'.h.written[v].grant] == c)
          || exists u :: 0 <= u < |w.h.written| && w.h.written[u].grant == w'.h.written[v].grant)
  }

  lemma OwnsStable(h: History, h': History, c: CallId, job: Job, claimed: Family)
    requires Extends(h, h') && Owns(h, c, job, claimed)
    ensures Owns(h', c, job, claimed)
  {
  }

  /** Another call's step does not disturb what a waiting call relies on. */
  lemma CallStable(w: World, w': World, c: CallId, d: CallId, pc: Pc)
    requires Grows(w, w', c) && d != c && CallOk(w, d, pc)
    ensures CallOk(w', d, pc)
  {
  }

  // ---------------------------------------------------------------------------
  // growing histories
  // ---------------------------------------------------------------------------

  lemma CallSame(w: World, w': World, c: CallId, pc: Pc)
    requires w'.h == w.h && w'.store == w.store && CallOk(w, c, pc)
    ensures CallOk(w', c, pc)
  {
  }

  /** A step that only moves its own call keeps everything. */
  lemma Moved(w: World, w': World, c: CallId, pc: Pc)
    requires Safe(w) && w'.h == w.h && w'.store == w.store && w'.calls == w.calls[c := pc] && CallOk(w', c, pc)
    ensures Safe(w')
  {
    hide CallOk, WrittenOk, LogOk, SnapOk;
    forall d | d in w'.calls ensures CallOk(w', d, w'.calls[d]) {
      if d != c {
        CallSame(w, w', d, w.calls[d]);
      }
    }
  }

  lemma Framed(w: World, w': World, c: CallId, pc: Pc)
    requires Safe(w) && Grows(w, w', c) && WrittenOk(w'.h) && LogOk(w'.h) && StoreOk(w')
    requires w'.calls == w.calls[c := pc] && CallOk(w', c, pc)
    ensures Safe(w')
  {
    forall d | d in w'.calls ensures CallOk(w', d, w'.calls[d]) {
      if d != c {
        CallStable(w, w', c, d, w.calls[d]);
      }
    }
  }

  // ---------------------------------------------------------------------------
  // a conditional write
  // ---------------------------------------------------------------------------

  lemma SwapWritten(w: World, w': World, grant: Grant, f: Family)
    requires WrittenOk(w.h) && StoreOk(w) && Extends(w.h, w'.h) && w'.h.written == w.h.written + [Written(grant, f)]
    requires grant in w'.h.creators && FamilyOk(w'.h, grant, f)
    requires grant in w.store.families ==> Follows(w.store.families[grant].family, f)
    requires grant !in w.store.families ==> forall v | 0 <= v < |w.h.written| :: w.h.written[v].grant != grant
    ensures WrittenOk(w'.h)
  {
    var h, h' := w.h, w'.h;
    forall v | 0 <= v < |h'.written|
      ensures h'.written[v].grant in h'.creators && FamilyOk(h', h'.written[v].grant, h'.written[v].family)
    {
      if v < |h.written| {
        assert h'.written[v] == h.written[v];
      }
    }
    forall v, u | 0 <= v < u < |h'.written| && h'.written[v].grant == h'.written[u].grant
      ensures Follows(h'.written[v].family, h'.written[u].family)
    {
      assert h'.written[v] == h.written[v];
      if u < |h.written| {
        assert h'.written[u] == h.written[u];
      }
    }
  }

  lemma SwapStored(w: World, w': World, grant: Grant, f: Family)
    requires StoreOk(w) && Extends(w.h, w'.h) && w'.h.written == w.h.written + [Written(grant, f)]
    requires w'.store == w.store.(families := w.store.families[grant := Snap(|w.h.written|, f)])
    ensures StoreOk(w')
  {
  }

  /** The stored family has the highest rank its grant was ever written with. */
  lemma LastRank(w: World, grant: Grant, v: nat)
    requires WrittenOk(w.h) && StoreOk(w) && grant in w.store.families
    requires !w.store.families[grant].family.status.Revoked?
    requires v < |w.h.written| && w.h.written[v].grant == grant
    ensures v <= w.store.families[grant].version
    ensures !w.h.written[v].family.status.Revoked?
    ensures v != w.store.families[grant].version ==> Rank(w.h.written[v].family) < Rank(w.store.families[grant].family)
    ensures v == w.store.families[grant].version ==> w.h.written[v].family == w.store.families[grant].family
  {
  }

  /** A generation whose family is still stored unclaimed has not been claimed. */
  lemma Unclaimed(w: World, grant: Grant)
    requires WrittenOk(w.h) && LogOk(w.h) && StoreOk(w) && grant in w.store.families
    requires w.store.families[grant].family.status.Active?
    ensures Gen(grant, w.store.families[grant].family.generation) !in w.h.claims
    ensures Gen(grant, w.store.families[grant].family.generation + 1) !in w.h.pairs
    ensures Gen(grant, w.store.families[grant].family.generation) !in w.h.upstream
  {
    hide WrittenOk, StoreOk, FamilyOk;
    var k := Gen(grant, w.store.families[grant].family.generation);
    if k in w.h.claims {
      assert WroteAt(w.h, w.h.claims[k].version, grant, k.generation, Refreshing);
      LastRank(w, grant, w.h.claims[k].version);
    }
  }

  /** A generation above the stored one has not been committed. */
  lemma Uncommitted(w: World, grant: Grant)
    requires WrittenOk(w.h) && LogOk(w.h) && StoreOk(w) && grant in w.store.families
    requires !w.store.families[grant].family.status.Revoked?
    ensures Gen(grant, w.store.families[grant].family.generation + 1) !in w.h.commits
  {
    hide WrittenOk, StoreOk, FamilyOk;
    var k := Gen(grant, w.store.families[grant].family.generation + 1);
    if k in w.h.commits {
      assert WroteAt(w.h, w.h.commits[k].version, grant, k.generation, Active);
      LastRank(w, grant, w.h.commits[k].version);
    }
  }

  lemma MatchedSnap(w: World, grant: Grant, s: Snap)
    requires StoreOk(w) && SnapOk(w.h, grant, s) && Matches(w, grant, s)
    ensures w.store.families[grant] == s
  {
  }

  /** What is stored was written. */
  lemma StoredFamily(w: World, grant: Grant)
    requires WrittenOk(w.h) && StoreOk(w) && grant in w.store.families
    ensures SnapOk(w.h, grant, w.store.families[grant]) && FamilyOk(w.h, grant, w.store.families[grant].family)
    ensures grant in w.h.creators
  {
  }

  // ---------------------------------------------------------------------------
  // every step
  // ---------------------------------------------------------------------------

  lemma ReceiptGranted(w: World, job: Job)
    requires WrittenOk(w.h) && LogOk(w.h) && StoreOk(w) && job.grant in w.store.families
    requires ReceiptLive(w.store.families[job.grant].family, job.token, w.now)
    ensures ResultOk(w.h, Granted(job.token, w.store.families[job.grant].family.receipt.value.pair))
  {
    hide WrittenOk, StoreOk, WroteAt;
    StoredFamily(w, job.grant);
    var f := w.store.families[job.grant].family;
    var k := Gen(job.grant, f.generation - 1);
    assert k in w.h.commits && w.h.pairs[k] == w.h.commits[k].pair;
    assert w.h.refreshOf[job.token] == k;
  }

  /** A claim that was lost is never tried again on the same generation. */
  lemma NotTried(w: World, job: Job)
    requires WrittenOk(w.h) && StoreOk(w) && job.grant in w.store.families && TriedOk(w, job)
    requires w.store.families[job.grant].family.status.Active?
    requires w.store.families[job.grant].family.generation == job.generation
    ensures job.tried.None?
  {
  }

  lemma ReadKeeps(w: World, c: CallId, job: Job, giveUp: bool)
    requires Safe(w) && CallOk(w, c, AtRead(job))
    ensures Safe(StepRead(w, c, job, giveUp))
  {
    hide WrittenOk, LogOk, StoreOk, FamilyOk, JobOk, SnapOk;

    var w' := StepRead(w, c, job, giveUp);
    if job.grant in w.store.families {
      var s := w.store.families[job.grant];
      var f := s.family;
      if f.client != job.client || f.expiresAt <= w.now || f.status.Revoked? {
        Moved(w, w', c, Done(Denied));
      } else if ReceiptLive(f, job.token, w.now) {
        ReceiptGranted(w, job);
        Moved(w, w', c, Done(Granted(job.token, f.receipt.value.pair)));
      } else if f.digest != job.token || f.generation != job.generation {
        Moved(w, w', c, AtRevokeRead(job.grant, job.client, 0, Denied));
      } else if f.status.Refreshing? {
        if f.since + INFLIGHT_SECONDS <= w.now {
          Moved(w, w', c, AtRevokeRead(job.grant, job.client, 0, Denied));
        } else if giveUp {
          Moved(w, w', c, Done(Inflight));
        }
      } else {
        NotTried(w, job);
        StoredFamily(w, job.grant);
        assert job.attempts == 0;
        Moved(w, w', c, AtClaim(job, s, f.(status := Refreshing, since := w.now)));
      }
    } else {
      Moved(w, w', c, Done(Denied));
    }
  }

  lemma LookupKeeps(w: World, c: CallId, client: string, token: Token)
    requires Safe(w)
    ensures Safe(StepLookup(w, c, client, token))
  {
    hide WrittenOk, LogOk;
    var w' := StepLookup(w, c, client, token);
    Moved(w, w', c, w'.calls[c]);
  }

  lemma RevokeReadKeeps(w: World, c: CallId, grant: Grant, client: string, attempt: nat, after: Result)
    requires Safe(w) && RevokeAfter(after)
    ensures Safe(StepRevokeRead(w, c, grant, client, attempt, after))
  {
    hide WrittenOk, LogOk;
    var w' := StepRevokeRead(w, c, grant, client, attempt, after);
    if grant in w.store.families {
      assert SnapOk(w.h, grant, w.store.families[grant]);
    }
    Moved(w, w', c, w'.calls[c]);
  }

  lemma RevokeFirstKeeps(w: World, c: CallId, grant: Grant, client: string)
    requires Safe(w)
    ensures Safe(RevokeFirst(w, c, grant, client))
  {
  }

  lemma DeniedKeeps(w: World, c: CallId)
    requires Safe(w)
    ensures Safe(Goto(w, c, Done(Denied)))
  {
  }

  lemma IdentityLookupKeeps(w: World, c: CallId, token: Token)
    requires Safe(w)
    ensures Safe(StepIdentityLookup(w, c, token))
  {
    hide WrittenOk, LogOk;
    var w' := StepIdentityLookup(w, c, token);
    Moved(w, w', c, w'.calls[c]);
  }

  lemma IdentityReadKeeps(w: World, c: CallId, token: Token, r: AccessRecord)
    requires Safe(w) && CallOk(w, c, AtIdentityRead(token, r))
    ensures Safe(StepIdentityRead(w, c, token, r))
  {
    hide WrittenOk, LogOk, FamilyOk;
    var w' := StepIdentityRead(w, c, token, r);
    Moved(w, w', c, w'.calls[c]);
  }

  /** A token recorded for a generation the family had reached is that generation's committed token. */
  lemma RecordCommitted(h: History, token: Token, r: AccessRecord, snap: Snap)
    requires WrittenOk(h) && LogOk(h) && SnapOk(h, r.grant, snap)
    requires token in h.accessOf && h.accessOf[token] == Gen(r.grant, r.generation)
    requires r.generation <= snap.family.generation
    ensures ResultOk(h, Authenticated(token, r.grant, r.generation))
  {
    assert FamilyOk(h, r.grant, h.written[snap.version].family);
  }

  lemma IdentityVerifyKeeps(w: World, c: CallId, token: Token, r: AccessRecord, snap: Snap, choice: Choice)
    requires Safe(w) && CallOk(w, c, AtIdentityVerify(token, r, snap))
    ensures Safe(StepIdentityVerify(w, c, token, r, snap, choice))
  {
    hide WrittenOk, LogOk, StoreOk, FamilyOk;
    var w' := StepIdentityVerify(w, c, token, r, snap, choice);
    RecordCommitted(w.h, token, r, snap);
    Moved(w, w', c, w'.calls[c]);
  }

  // -- token records -------------------------------------------------------------

  lemma PutAccessKeeps(w: World, c: CallId, grant: Grant, f: Family, pair: Pair, pc: Pc)
    requires Safe(w) && Gen(grant, f.generation) in w.h.pairs && w.h.pairs[Gen(grant, f.generation)] == pair
    requires CallOk(PutAccess(w, grant, f, pair), c, pc)
    ensures Safe(Goto(PutAccess(w, grant, f, pair), c, pc))
  {
    hide WrittenOk;
    var w1 := PutAccess(w, grant, f, pair);
    var w' := Goto(w1, c, pc);
    assert StoreOk(w') by {
      assert forall g | g in w.store.families :: SnapOk(w.h, g, w.store.families[g]);
    }
    assert CallOk(w', c, pc);
    Framed(w, w', c, pc);
  }

  lemma PutReferenceKeeps(w: World, c: CallId, grant: Grant, f: Family, pair: Pair, pc: Pc)
    requires Safe(w) && Gen(grant, f.generation) in w.h.pairs && w.h.pairs[Gen(grant, f.generation)] == pair
    requires CallOk(PutReference(w, grant, f, pair), c, pc)
    ensures Safe(Goto(PutReference(w, grant, f, pair), c, pc))
  {
    hide WrittenOk;
    var w1 := PutReference(w, grant, f, pair);
    var w' := Goto(w1, c, pc);
    assert StoreOk(w') by {
      assert forall g | g in w.store.families :: SnapOk(w.h, g, w.store.families[g]);
    }
    assert CallOk(w', c, pc);
    Framed(w, w', c, pc);
  }

  lemma StepPutAccessKeeps(w: World, c: CallId, job: Job, claimed: Family, next: Family, pair: Pair)
    requires Safe(w) && CallOk(w, c, AtPutAccess(job, claimed, next, pair))
    ensures Safe(StepPutAccess(w, c, job, claimed, next, pair))
  {
    hide WrittenOk, LogOk, StoreOk, Safe;
    PutAccessKeeps(w, c, job.grant, next, pair,
      if TtlPositive(w, next) then AtPutRefresh(job, claimed, next, pair) else AtRevokeRead(job.grant, job.client, 0, Denied));
  }

  lemma StepPutRefreshKeeps(w: World, c: CallId, job: Job, claimed: Family, next: Family, pair: Pair)
    requires Safe(w) && CallOk(w, c, AtPutRefresh(job, claimed, next, pair))
    ensures Safe(StepPutRefresh(w, c, job, claimed, next, pair))
  {
    hide WrittenOk, LogOk, StoreOk, Safe;
    PutReferenceKeeps(w, c, job.grant, next, pair, AtReadBack(job, claimed, next, pair));
  }

  lemma CreatePutAccessKeeps(w: World, c: CallId, grant: Grant, f: Family, pair: Pair)
    requires Safe(w) && CallOk(w, c, AtCreatePutAccess(grant, f, pair))
    ensures Safe(StepCreatePutAccess(w, c, grant, f, pair))
  {
    hide WrittenOk, LogOk, StoreOk, Safe;
    PutAccessKeeps(w, c, grant, f, pair, if TtlPositive(w, f) then AtCreatePutRefresh(grant, f, pair) else Done(Denied));
  }

  lemma CreatePutRefreshKeeps(w: World, c: CallId, grant: Grant, f: Family, pair: Pair)
    requires Safe(w) && CallOk(w, c, AtCreatePutRefresh(grant, f, pair))
    ensures Safe(StepCreatePutRefresh(w, c, grant, f, pair))
  {
    hide WrittenOk, LogOk, StoreOk, Safe;
    PutReferenceKeeps(w, c, grant, f, pair, if TtlPositive(w, f) then AtCreateSwap(grant, f, pair) else Done(Denied));
  }

  lemma ReadBackKeeps(w: World, c: CallId, job: Job, claimed: Family, next: Family, pair: Pair)
    requires Safe(w) && CallOk(w, c, AtReadBack(job, claimed, next, pair))
    ensures Safe(StepReadBack(w, c, job, claimed, next, pair))
  {
    hide WrittenOk, LogOk, WroteAt, FamilyOk;
    var w' := StepReadBack(w, c, job, claimed, next, pair);
    if job.grant in w.store.families {
      assert SnapOk(w.h, job.grant, w.store.families[job.grant]);
    }
    Moved(w, w', c, w'.calls[c]);
  }

  // -- minting -------------------------------------------------------------------

  lemma MintPairs(h: History, k: Gen, pair: Pair)
    requires PairsOk(h) && k !in h.pairs && k.grant in h.creators
    requires k.generation > 0 ==> Gen(k.grant, k.generation - 1) in h.claims
    requires pair.access !in h.accessOf && pair.refresh !in h.refreshOf
    ensures PairsOk(Mint(h, k, pair))
  {
  }

  lemma MintLog(h: History, k: Gen, pair: Pair)
    requires CommitsOk(h) && ClaimsOk(h) && UpstreamOk(h) && k !in h.pairs
    ensures CommitsOk(Mint(h, k, pair)) && ClaimsOk(Mint(h, k, pair)) && UpstreamOk(Mint(h, k, pair))
  {
  }

  lemma MintTokens(h: History, k: Gen, pair: Pair)
    requires TokensOk(h) && k !in h.pairs && pair.access == h.next && pair.refresh == h.next + 1
    ensures TokensOk(Mint(h, k, pair))
  {
  }

  lemma MintKeepsLog(h: History, k: Gen, expiresAt: real)
    requires LogOk(h) && k !in h.pairs && k.grant in h.creators
    requires k.generation > 0 ==> Gen(k.grant, k.generation - 1) in h.claims
    ensures LogOk(Mint(h, k, NewPair(h, expiresAt)))
    ensures Extends(h, Mint(h, k, NewPair(h, expiresAt)))
  {
    hide CommitsOk, ClaimsOk, PairsOk, UpstreamOk, NoRepeats, WroteAt;
    var pair := NewPair(h, expiresAt);
    var h' := Mint(h, k, pair);
    assert pair.access !in h.accessOf && pair.refresh !in h.refreshOf;
    MintLog(h, k, pair);
    MintPairs(h, k, pair);
    MintTokens(h, k, pair);
  }

  lemma WritesStable(h: History, h': History)
    requires WrittenOk(h) && Extends(h, h') && h'.written == h.written
    ensures WrittenOk(h')
  {
  }

  lemma StoreStable(w: World, w': World)
    requires StoreOk(w) && Extends(w.h, w'.h) && w'.h.written == w.h.written && w'.store == w.store
    ensures StoreOk(w')
  {
  }

  lemma MintKeeps(w: World, h1: History, c: CallId, k: Gen, expiresAt: real, pc: Pc)
    requires Safe(w) && LogOk(h1) && Extends(w.h, h1) && h1.written == w.h.written && h1.pairs == w.h.pairs
    requires k !in h1.pairs && k.grant in h1.creators
    requires k.generation > 0 ==>
      var prev := Gen(k.grant, k.generation - 1); prev in w.h.claims && w.h.claims[prev].call == c
    requires CallOk(w.(h := Mint(h1, k, NewPair(h1, expiresAt))), c, pc)
    ensures Safe(Goto(w.(h := Mint(h1, k, NewPair(h1, expiresAt))), c, pc))
  {
    hide LogOk, FamilyOk, WrittenOk, StoreOk;
    var h' := Mint(h1, k, NewPair(h1, expiresAt));
    var w' := Goto(w.(h := h'), c, pc);
    MintKeepsLog(h1, k, expiresAt);
    WritesStable(w.h, h');
    StoreStable(w, w');
    assert CallOk(w', c, pc);
    Framed(w, w', c, pc);
  }

  lemma UpstreamKeeps(w: World, c: CallId, job: Job, claimed: Family, choice: Choice)
    requires Safe(w) && CallOk(w, c, AtUpstream(job, claimed))
    ensures Safe(StepUpstream(w, c, job, claimed, choice))
  {
    hide LogOk, StoreOk, FamilyOk;

    var expires := MinReal(choice.identityExpiresAt, claimed.expiresAt);
    if choice.tokens.None? || claimed.expiresAt <= w.now || NextFamily(claimed, choice.tokens.value).upstream.None?
       || expires - w.now < 1.0
    {
      RevokeFirstKeeps(w, c, job.grant, job.client);
    } else {
      var k := Gen(job.grant, job.generation + 1);
      var next := NextFamily(claimed, choice.tokens.value);
      var pair := NewPair(w.h, expires);
      assert Gen(job.grant, job.generation) in w.h.claims && w.h.claims[Gen(job.grant, job.generation)].call == c;
      assert job.grant in w.h.creators;
      assert CallOk(w.(h := Mint(w.h, k, pair)), c, AtPutAccess(job, claimed, next, pair)) by {
        OwnsStable(w.h, Mint(w.h, k, pair), c, job, claimed) by { MintKeepsLog(w.h, k, expires); }
        JobStable(w.h, Mint(w.h, k, pair), job) by { MintKeepsLog(w.h, k, expires); }
      }
      MintKeeps(w, w.h, c, k, expires, AtPutAccess(job, claimed, next, pair));
    }
  }

  lemma JobStable(h: History, h': History, job: Job)
    requires Extends(h, h') && JobOk(h, job)
    ensures JobOk(h', job)
  {
  }

  lemma FreshGrant(w: World, c: CallId)
    requires Safe(w)
    ensures var h1 := w.h.(next := w.h.next + 1, creators := w.h.creators[w.h.next := c]);
      LogOk(h1) && Extends(w.h, h1) && Gen(w.h.next, 0) !in h1.pairs
    ensures forall v | 0 <= v < |w.h.written| :: w.h.written[v].grant != w.h.next
  {
  }

  lemma StartCreateKeeps(w: World, c: CallId, op: Operation)
    requires Safe(w) && op.Create?
    ensures Safe(StartCreate(w, c, op))
  {
    hide WrittenOk, LogOk, StoreOk, Safe, FamilyOk, WroteAt;
    var w' := StartCreate(w, c, op);
    var expires := MinReal(op.identityExpiresAt, op.expiresAt);
    if op.upstream.None? || op.expiresAt <= w.now || expires - w.now < 1.0 {
      DeniedKeeps(w, c);
    } else {
      FreshGrant(w, c);
      var grant := w.h.next;
      MintKeeps(w, w.h.(next := w.h.next + 1, creators := w.h.creators[grant := c]), c, Gen(grant, 0), expires, w'.calls[c]);
    }
  }

  // -- conditional writes ----------------------------------------------------------

  lemma SwapGrows(w: World, w': World, c: CallId, grant: Grant, f: Family)
    requires StoreOk(w) && Extends(w.h, w'.h) && w'.h.pairs == w.h.pairs
    requires w'.h.written == w.h.written + [Written(grant, f)]
    requires w'.store == w.store.(families := w.store.families[grant := Snap(|w.h.written|, f)])
    requires grant in w.store.families || (grant in w.h.creators && w.h.creators[grant] == c)
    ensures Grows(w, w', c)
  {
  }

  lemma SwapKeeps(w: World, w': World, c: CallId, grant: Grant, f: Family, pc: Pc)
    requires Safe(w) && LogOk(w'.h) && Extends(w.h, w'.h) && w'.h.pairs == w.h.pairs
    requires w'.h.written == w.h.written + [Written(grant, f)]
    requires w'.store == w.store.(families := w.store.families[grant := Snap(|w.h.written|, f)])
    requires grant in w.store.families ==> Follows(w.store.families[grant].family, f)
    requires grant !in w.store.families ==>
      && grant in w.h.creators && w.h.creators[grant] == c
      && forall v | 0 <= v < |w.h.written| :: w.h.written[v].grant != grant
    requires FamilyOk(w'.h, grant, f) && CallOk(w', c, pc) && w'.calls == w.calls[c := pc]
    ensures Safe(w')
  {
    hide LogOk, CallOk, FamilyOk, WrittenOk, StoreOk, WroteAt, Follows;
    assert grant in w'.h.creators by {
      if grant in w.store.families {
        StoredFamily(w, grant);
      }
    }
    SwapWritten(w, w', grant, f);
    SwapStored(w, w', grant, f);
    SwapGrows(w, w', c, grant, f);
    Framed(w, w', c, pc);
  }

  lemma ClaimLog(h: History, c: CallId, grant: Grant, f: Family)
    requires LogOk(h) && f.status.Refreshing?
    requires Gen(grant, f.generation) !in h.claims && Gen(grant, f.generation) !in h.upstream
    ensures var k := Gen(grant, f.generation);
      var h' := h.(written := h.written + [Written(grant, f)], claims := h.claims[k := Claim(c, |h.written|)],
                   upstream := h.upstream + [k]);
      LogOk(h') && Extends(h, h')
  {
  }

  lemma ClaimKeeps(w: World, c: CallId, job: Job, snap: Snap, claimed: Family)
    requires Safe(w) && CallOk(w, c, AtClaim(job, snap, claimed))
    ensures Safe(StepClaim(w, c, job, snap, claimed))
  {
    hide LogOk, WrittenOk, StoreOk, Extends;
    var w' := StepClaim(w, c, job, snap, claimed);
    if Matches(w, job.grant, snap) {
      MatchedSnap(w, job.grant, snap);
      Unclaimed(w, job.grant);
      ClaimLog(w.h, c, job.grant, claimed);
      assert FamilyOk(w'.h, job.grant, claimed) by {
        StoredFamily(w, job.grant);
      }
      assert CallOk(w', c, w'.calls[c]) by {
        JobStable(w.h, w'.h, job);
      }
      SwapKeeps(w, w', c, job.grant, claimed, w'.calls[c]);
    } else {
      LostClaim(w, job, snap);
      Moved(w, w', c, w'.calls[c]);
    }
  }

  lemma LostClaim(w: World, job: Job, snap: Snap)
    requires StoreOk(w) && SnapOk(w.h, job.grant, snap) && !Matches(w, job.grant, snap)
    requires snap.family.status.Active? && snap.family.generation == job.generation && job.attempts == 0
    ensures TriedOk(w, job.(attempts := 1, tried := Some(snap.version)))
  {
  }

  lemma WriteLog(h: History, wr: Written)
    requires LogOk(h)
    ensures LogOk(h.(written := h.written + [wr])) && Extends(h, h.(written := h.written + [wr]))
  {
  }

  lemma CommitMore(h: History, v: nat, grant: Grant, f: Family, pair: Pair)
    requires LogOk(h) && WroteAt(h, v, grant, f.generation, Active) && Gen(grant, f.generation) !in h.commits
    requires Gen(grant, f.generation) in h.pairs && h.pairs[Gen(grant, f.generation)] == pair
    ensures LogOk(h.(commits := h.commits[Gen(grant, f.generation) := Commit(pair, v)]))
  {
  }

  lemma CommitLog(h: History, grant: Grant, f: Family, pair: Pair)
    requires LogOk(h) && f.status.Active? && Gen(grant, f.generation) !in h.commits
    requires Gen(grant, f.generation) in h.pairs && h.pairs[Gen(grant, f.generation)] == pair
    ensures var h' := h.(written := h.written + [Written(grant, f)],
                         commits := h.commits[Gen(grant, f.generation) := Commit(pair, |h.written|)]);
      LogOk(h') && Extends(h, h')
  {
    hide CommitsOk, ClaimsOk, PairsOk, TokensOk, UpstreamOk, NoRepeats;
    var h' := h.(written := h.written + [Written(grant, f)],
                 commits := h.commits[Gen(grant, f.generation) := Commit(pair, |h.written|)]);
    WriteLog(h, Written(grant, f));
    var written := h.(written := h.written + [Written(grant, f)]);
    assert WroteAt(written, |h.written|, grant, f.generation, Active);
    CommitMore(written, |h.written|, grant, f, pair);
  }

  /** The family the claimer finds when it commits is the one it claimed. */
  lemma ClaimedIsStored(w: World, c: CallId, job: Job, claimed: Family)
    requires WrittenOk(w.h) && StoreOk(w) && Owns(w.h, c, job, claimed) && job.grant in w.store.families
    requires w.store.families[job.grant].family.status.Refreshing?
    requires w.store.families[job.grant].family.generation == job.generation
    ensures w.store.families[job.grant].family == claimed
  {
  }

  /** The rotated family: one generation up, with the receipt of the token it replaced. */
  lemma RotatedOk(h: History, h': History, job: Job, claimed: Family, final: Family, pair: Pair)
    requires LogOk(h) && Extends(h, h') && FamilyOk(h, job.grant, claimed) && JobOk(h, job)
    requires claimed.generation == job.generation && Prepared(h, job, claimed, final.(receipt := None), pair)
    requires final.digest == pair.refresh && final.receipt.Some? && final.receipt.value.digest == job.token
    requires final.receipt.value.pair == pair && final.receipt.value.expiresAt <= pair.accessExpiresAt
    requires Gen(job.grant, job.generation + 1) in h'.commits && h'.commits[Gen(job.grant, job.generation + 1)].pair == pair
    ensures FamilyOk(h', job.grant, final)
  {
  }

  lemma CommitKeeps(w: World, c: CallId, job: Job, claimed: Family, pair: Pair, snap: Snap, final: Family)
    requires Safe(w) && CallOk(w, c, AtCommit(job, claimed, pair, snap, final))
    ensures Safe(StepCommit(w, c, job, pair, snap, final))
  {
    hide LogOk, FamilyOk, WrittenOk, StoreOk, WroteAt, Extends;
    var w' := StepCommit(w, c, job, pair, snap, final);
    if Matches(w, job.grant, snap) {
      MatchedSnap(w, job.grant, snap);
      ClaimedIsStored(w, c, job, claimed);
      Uncommitted(w, job.grant);
      CommitLog(w.h, job.grant, final, pair);
      StoredFamily(w, job.grant);
      RotatedOk(w.h, w'.h, job, claimed, final, pair);
      SwapKeeps(w, w', c, job.grant, final, w'.calls[c]);
    } else {
      RevokeFirstKeeps(w, c, job.grant, job.client);
    }
  }

  lemma RevokeSwapKeeps(w: World, c: CallId, grant: Grant, client: string, attempt: nat, after: Result, snap: Snap)
    requires Safe(w) && CallOk(w, c, AtRevokeSwap(grant, client, attempt, after, snap))
    ensures Safe(StepRevokeSwap(w, c, grant, client, attempt, after, snap))
  {
    hide LogOk, WrittenOk, StoreOk, WroteAt, Extends;
    var w' := StepRevokeSwap(w, c, grant, client, attempt, after, snap);
    if Matches(w, grant, snap) {
      MatchedSnap(w, grant, snap);
      StoredFamily(w, grant);
      WriteLog(w.h, Written(grant, RevokedFamily(snap.family)));
      assert FamilyOk(w'.h, grant, RevokedFamily(snap.family));
      SwapKeeps(w, w', c, grant, RevokedFamily(snap.family), w'.calls[c]);
    } else {
      Moved(w, w', c, w'.calls[c]);
    }
  }

  lemma NoCommitYet(h: History, c: CallId, grant: Grant, f: Family, pair: Pair)
    requires LogOk(h) && CreateOk(h, c, grant, f, pair)
    ensures Gen(grant, 0) !in h.commits
  {
  }

  lemma FirstOk(h: History, grant: Grant, f: Family, pair: Pair)
    requires Gen(grant, 0) in h.commits && h.commits[Gen(grant, 0)].pair == pair
    requires f.generation == 0 && f.status.Active? && f.receipt.None? && f.digest == pair.refresh
    requires pair.accessExpiresAt <= f.expiresAt
    ensures FamilyOk(h, grant, f)
  {
  }

  lemma CreateSwapKeeps(w: World, c: CallId, grant: Grant, f: Family, pair: Pair)
    requires Safe(w) && CallOk(w, c, AtCreateSwap(grant, f, pair))
    ensures Safe(StepCreateSwap(w, c, grant, f, pair))
  {
    hide LogOk, FamilyOk, WrittenOk, StoreOk, WroteAt, Extends;
    var w' := StepCreateSwap(w, c, grant, f, pair);
    if grant in w.store.families {
      DeniedKeeps(w, c);
    } else {
      NoCommitYet(w.h, c, grant, f, pair);
      CommitLog(w.h, grant, f, pair);
      FirstOk(w'.h, grant, f, pair);
      SwapKeeps(w, w', c, grant, f, w'.calls[c]);
    }
  }

  // -- the system --------------------------------------------------------------------

  lemma Waiting(w: World, c: CallId)
    requires Safe(w) && c in w.calls
    ensures CallOk(w, c, w.calls[c])
  {
  }

  lemma AdvanceKeeps(w: World, c: CallId, choice: Choice)
    requires Safe(w) && c in w.calls
    ensures Safe(Advance(w, c, choice))
  {
    hide CreateOk, JobOk, Owns, Prepared, ResultOk, RevokeAfter, Safe, SnapOk, TriedOk;
    hide StepClaim, StepCommit, StepCreatePutAccess, StepCreatePutRefresh, StepCreateSwap;
    hide StepIdentityLookup, StepIdentityRead, StepIdentityVerify, StepLookup, StepPutAccess, StepPutRefresh, StepRead;
    hide StepReadBack, StepRevokeRead, StepRevokeSwap, StepUpstream;
    Waiting(w, c);
    match w.calls[c]
    case AtLookup(client, token) => LookupKeeps(w, c, client, token);
    case AtRead(job) => ReadKeeps(w, c, job, choice.giveUp);
    case AtClaim(job, snap, claimed) => ClaimKeeps(w, c, job, snap, claimed);
    case AtUpstream(job, claimed) => UpstreamKeeps(w, c, job, claimed, choice);
    case AtPutAccess(job, claimed, next, pair) => StepPutAccessKeeps(w, c, job, claimed, next, pair);
    case AtPutRefresh(job, claimed, next, pair) => StepPutRefreshKeeps(w, c, job, claimed, next, pair);
    case AtReadBack(job, claimed, next, pair) => ReadBackKeeps(w, c, job, claimed, next, pair);
    case AtCommit(job, claimed, pair, snap, final) => CommitKeeps(w, c, job, claimed, pair, snap, final);
    case AtRevokeRead(grant, client, attempt, after) =>
      assert RevokeAfter(after);
      RevokeReadKeeps(w, c, grant, client, attempt, after);
    case AtRevokeSwap(grant, client, attempt, after, snap) => RevokeSwapKeeps(w, c, grant, client, attempt, after, snap);
    case AtCreatePutAccess(grant, f, pair) => CreatePutAccessKeeps(w, c, grant, f, pair);
    case AtCreatePutRefresh(grant, f, pair) => CreatePutRefreshKeeps(w, c, grant, f, pair);
    case AtCreateSwap(grant, f, pair) => CreateSwapKeeps(w, c, grant, f, pair);
    case AtIdentityLookup(token) => IdentityLookupKeeps(w, c, token);
    case AtIdentityRead(token, r) => IdentityReadKeeps(w, c, token, r);
    case AtIdentityVerify(token, r, snap) => IdentityVerifyKeeps(w, c, token, r, snap, choice);
    case Done(_) =>
  }

  lemma ThrowKeeps(w: World, c: CallId)
    requires Safe(w) && c in w.calls
    ensures Safe(Throw(w, c))
  {
    hide Goto, RevokeFirst, Safe;

    match w.calls[c]
    case AtUpstream(job, _) => RevokeFirstKeeps(w, c, job.grant, job.client);
    case AtPutAccess(job, _, _, _) => RevokeFirstKeeps(w, c, job.grant, job.client);
    case AtPutRefresh(job, _, _, _) => RevokeFirstKeeps(w, c, job.grant, job.client);
    case AtReadBack(job, _, _, _) => RevokeFirstKeeps(w, c, job.grant, job.client);
    case AtCommit(job, _, _, _, _) => RevokeFirstKeeps(w, c, job.grant, job.client);
    case Done(_) =>
    case _ => DeniedKeeps(w, c);
  }

  lemma ShorterLog(h: History, n: nat)
    requires LogOk(h) && n <= |h.upstream|
    ensures LogOk(h.(upstream := h.upstream[..n]))
  {
    var h' := h.(upstream := h.upstream[..n]);
    assert UpstreamOk(h');
    assert forall k | k in h.pairs :: k in h'.pairs;
    assert CommitsOk(h') && ClaimsOk(h') && PairsOk(h') && TokensOk(h');
  }

  /** A request that was not sent is missing at the end of the log. */
  lemma NotSent(w: World, n: nat)
    requires Safe(w) && n <= |w.h.upstream|
    ensures Safe(w.(h := w.h.(upstream := w.h.upstream[..n])))
  {
    hide CallOk, FamilyOk, LogOk, StoreOk, WrittenOk;
    var w' := w.(h := w.h.(upstream := w.h.upstream[..n]));
    ShorterLog(w.h, n);
    WritesStable(w.h, w'.h);
    StoreStable(w, w');
    forall d | d in w'.calls ensures CallOk(w', d, w'.calls[d]) {
      CallStable(w, w', d + 1, d, w.calls[d]);
    }
  }

  lemma UpstreamGrows(w: World, c: CallId, choice: Choice)
    requires c in w.calls
    ensures w.h.upstream <= Advance(w, c, choice).h.upstream
  {
    hide Matches, MinReal, NextFamily, NewPair, RevokedFamily, ReceiptLive, TtlPositive, ReadFamily;
    match w.calls[c]
    case AtUpstream(job, claimed) => assert StepUpstream(w, c, job, claimed, choice).h.upstream == w.h.upstream;
    case AtClaim(job, snap, claimed) => assert w.h.upstream <= StepClaim(w, c, job, snap, claimed).h.upstream;
    case _ =>
  }

  lemma UnansweredKeeps(w: World, c: CallId, choice: Choice)
    requires Safe(w) && c in w.calls
    ensures Safe(Unanswered(w, c, choice))
  {
    hide Safe, Advance, Goto, RevokeFirst;
    if !Writes(w.calls[c]) {
      hide Throw;
      ThrowKeeps(w, c);
    } else {
      AdvanceKeeps(w, c, choice);
      UpstreamGrows(w, c, choice);
      var done := Advance(w, c, choice);
      var log := done.(h := done.h.(upstream := w.h.upstream));
      NotSent(done, |w.h.upstream|);
      assert done.h.upstream[..|w.h.upstream|] == w.h.upstream;
      ThrownTo(w, c);
      var pc := Throw(w, c).calls[c];
      if pc.Done? { DeniedKeeps(log, c); } else { RevokeFirstKeeps(log, c, pc.grant, pc.client); }
      ThrownAs(log, c, pc);
    }
  }

  /** A failed call is over, or begins to revoke. */
  lemma ThrownTo(w: World, c: CallId)
    requires c in w.calls && Writes(w.calls[c])
    ensures c in Throw(w, c).calls
    ensures var pc := Throw(w, c).calls[c]; pc == Done(Denied) || (pc.AtRevokeRead? && pc.attempt == 0 && pc.after == Denied)
  {
  }

  lemma ThrownAs(w: World, c: CallId, pc: Pc)
    requires pc == Done(Denied) || (pc.AtRevokeRead? && pc.attempt == 0 && pc.after == Denied)
    ensures Goto(w, c, pc) == if pc.Done? then Goto(w, c, Done(Denied)) else RevokeFirst(w, c, pc.grant, pc.client)
  {
  }

  lemma BeginKeeps(w: World, c: CallId, op: Operation)
    requires Safe(w) && c !in w.calls
    ensures Safe(Begin(w, c, op))
  {
    hide WrittenOk, LogOk, StoreOk;
    if op.Create? {
      StartCreateKeeps(w, c, op);
    } else {
      var w' := Begin(w, c, op);
      Moved(w, w', c, w'.calls[c]);
    }
  }

  /** Expiry and eviction take entries away, and no step can tell which. */
  lemma LossKeeps(w: World, w': World)
    requires Safe(w) && w'.h == w.h && w'.calls == w.calls
    requires Submap(w'.store.families, w.store.families) && Submap(w'.store.access, w.store.access)
    requires Submap(w'.store.references, w.store.references)
    ensures Safe(w')
  {
  }

  lemma StepKeeps(w: World, e: Event)
    requires Safe(w)
    ensures Safe(Step(w, e))
  {
    hide Safe, Advance, Begin, Throw, Unanswered;
    match e
    case Start(c, op) => if c !in w.calls { BeginKeeps(w, c, op); }
    case Continue(c, choice) => if c in w.calls { AdvanceKeeps(w, c, choice); }
    case Fail(c) => if c in w.calls { ThrowKeeps(w, c); }
    case LoseReply(c, choice) => if c in w.calls { UnansweredKeeps(w, c, choice); }
    case _ => LossKeeps(w, Step(w, e));
  }

  /** The invariant holds in every reachable state, whatever interleaves. */
  lemma {:induction false} SafeAlways(now: real, es: seq<Event>)
    ensures Safe(Run(EmptyWorld(now), es))
  {
    if es != [] {
      SafeAlways(now, es[..|es| - 1]);
      hide Safe, Step;
      StepKeeps(Run(EmptyWorld(now), es[..|es| - 1]), es[|es| - 1]);
    }
  }

  // ---------------------------------------------------------------------------
  // what the protocol promises
  // ---------------------------------------------------------------------------

  /** A granted refresh hands out the one pair committed for the generation after its token's. */
  lemma GrantIsNextGeneration(now: real, es: seq<Event>, c: CallId)
    requires var w := Run(EmptyWorld(now), es); c in w.calls && w.calls[c].Done? && w.calls[c].result.Granted?
    ensures var w := Run(EmptyWorld(now), es); var r := w.calls[c].result;
      && r.token in w.h.refreshOf
      && var k := w.h.refreshOf[r.token];
         && Gen(k.grant, k.generation) in w.h.pairs && w.h.pairs[k].refresh == r.token
         && Gen(k.grant, k.generation + 1) in w.h.commits
         && w.h.commits[Gen(k.grant, k.generation + 1)].pair == r.pair
  {
    hide Run, WrittenOk, CommitsOk, ClaimsOk, PairsOk, UpstreamOk, StoreOk;
    var w := Run(EmptyWorld(now), es);
    SafeAlways(now, es);
    Waiting(w, c);
  }

  /** Refreshing is a function of the token, however the calls interleave. */
  lemma SameTokenSamePair(now: real, es: seq<Event>, c: CallId, d: CallId)
    requires var w := Run(EmptyWorld(now), es);
      && c in w.calls && w.calls[c].Done? && w.calls[c].result.Granted?
      && d in w.calls && w.calls[d].Done? && w.calls[d].result.Granted?
      && w.calls[c].result.token == w.calls[d].result.token
    ensures var w := Run(EmptyWorld(now), es); w.calls[c].result.pair == w.calls[d].result.pair
  {
    hide Run;
    GrantIsNextGeneration(now, es, c);
    GrantIsNextGeneration(now, es, d);
  }

  /** Every generation up to a committed one is committed. */
  lemma EarlierCommitted(w: World, grant: Grant, n: nat, m: nat)
    requires Safe(w) && Gen(grant, m) in w.h.commits && n <= m
    ensures Gen(grant, n) in w.h.commits
  {
    hide StoreOk, ClaimsOk, PairsOk, TokensOk, UpstreamOk, CallOk;
    var v := w.h.commits[Gen(grant, m)].version;
    assert FamilyOk(w.h, grant, w.h.written[v].family);
  }

  /** Tokens minted for a generation that was never committed neither authenticate nor refresh. */
  lemma UncommittedPairsInert(now: real, es: seq<Event>, c: CallId, k: Gen)
    requires var w := Run(EmptyWorld(now), es);
      k in w.h.pairs && k !in w.h.commits && c in w.calls && w.calls[c].Done?
    ensures var w := Run(EmptyWorld(now), es); var r := w.calls[c].result;
      && (r.Authenticated? ==> r.token != w.h.pairs[k].access)
      && (r.Granted? ==> r.token != w.h.pairs[k].refresh)
  {
    hide Run, WrittenOk, ClaimsOk, UpstreamOk, StoreOk, WroteAt;
    var w := Run(EmptyWorld(now), es);
    SafeAlways(now, es);
    Waiting(w, c);
    if w.calls[c].result.Granted? && w.calls[c].result.token == w.h.pairs[k].refresh {
      GrantIsNextGeneration(now, es, c);
      EarlierCommitted(w, k.grant, k.generation, k.generation + 1);
    }
  }

  /** Two writes of one grant: the later one is strictly further on, revoked is final, the rest never changes. */
  lemma FamilyProgress(now: real, es: seq<Event>, v: nat, u: nat)
    requires var h := Run(EmptyWorld(now), es).h; v < u < |h.written| && h.written[v].grant == h.written[u].grant
    ensures var h := Run(EmptyWorld(now), es).h; Follows(h.written[v].family, h.written[u].family)
  {
    hide Run, LogOk, StoreOk, FamilyOk, CallOk;
    SafeAlways(now, es);
  }

  /** Nothing a family hands out outlives its absolute deadline. */
  lemma ExpiryWithinDeadline(now: real, es: seq<Event>, v: nat)
    requires v < |Run(EmptyWorld(now), es).h.written|
    ensures var h := Run(EmptyWorld(now), es).h; var f := h.written[v].family; var k := Gen(h.written[v].grant, f.generation);
      && k in h.commits && h.commits[k].pair.accessExpiresAt <= f.expiresAt
      && (f.receipt.Some? ==> f.receipt.value.pair == h.commits[k].pair && f.receipt.value.expiresAt <= f.expiresAt)
  {
    hide Run, LogOk, StoreOk, CallOk;
    SafeAlways(now, es);
    var h := Run(EmptyWorld(now), es).h;
    assert FamilyOk(h, h.written[v].grant, h.written[v].family);
  }

  /** Each generation is renewed upstream at most once. */
  lemma OneRenewalPerGeneration(now: real, es: seq<Event>, i: nat, j: nat)
    requires i < j < |Run(EmptyWorld(now), es).h.upstream|
    ensures Run(EmptyWorld(now), es).h.upstream[i] != Run(EmptyWorld(now), es).h.upstream[j]
  {
    hide Run, WrittenOk, StoreOk, CallOk, CommitsOk, ClaimsOk, PairsOk, TokensOk;
    SafeAlways(now, es);
  }

  function JobOf(pc: Pc): Option<Job> {
    match pc
    case AtRead(job) => Some(job)
    case AtClaim(job, _, _) => Some(job)
    case AtUpstream(job, _) => Some(job)
    case AtPutAccess(job, _, _, _) => Some(job)
    case AtPutRefresh(job, _, _, _) => Some(job)
    case AtReadBack(job, _, _, _) => Some(job)
    case AtCommit(job, _, _, _, _) => Some(job)
    case _ => None
  }

  /** The retry loop of a refresh tries the claim at most once. */
  lemma ClaimTriedOnce(now: real, es: seq<Event>, c: CallId)
    requires var w := Run(EmptyWorld(now), es); c in w.calls && JobOf(w.calls[c]).Some?
    ensures var w := Run(EmptyWorld(now), es); var job := JobOf(w.calls[c]).value;
      job.attempts <= 1 && (w.calls[c].AtClaim? ==> job.attempts == 0)
  {
    hide Run, WrittenOk, LogOk, StoreOk;
    SafeAlways(now, es);
    Waiting(Run(EmptyWorld(now), es), c);
  }

  /** What a stored family became when its grant was revoked, it stays. */
  lemma RevokedIsStored(w: World, grant: Grant, v: nat)
    requires WrittenOk(w.h) && StoreOk(w) && grant in w.store.families
    requires v < |w.h.written| && w.h.written[v].grant == grant && w.h.written[v].family.status.Revoked?
    ensures w.store.families[grant].family.status.Revoked?
  {
  }

  /** Once the revocation of a grant is written, no step grants a pair of it. */
  lemma RevocationIsFinal(now: real, es: seq<Event>, e: Event, c: CallId, v: nat)
    requires var w := Run(EmptyWorld(now), es); v < |w.h.written| && w.h.written[v].family.status.Revoked?
    requires var w := Run(EmptyWorld(now), es);
      c in Step(w, e).calls && Uses(w.h, Step(w, e).calls[c], w.h.written[v].grant)
    ensures var w := Run(EmptyWorld(now), es); c in w.calls && w.calls[c] == Step(w, e).calls[c]
  {
    hide Run, Safe, Step, Uses;
    SafeAlways(now, es);
    FinalStep(Run(EmptyWorld(now), es), e, c, v);
  }

  /** A call that has just been granted a pair found its family unrevoked. */
  predicate Usable(w: World, grant: Grant) {
    grant in w.store.families && !w.store.families[grant].family.status.Revoked?
  }

  predicate Uses(h: History, pc: Pc, grant: Grant) {
    pc.Done? && pc.result.Granted? && pc.result.token in h.refreshOf && h.refreshOf[pc.result.token].grant == grant
  }

  lemma ReadUses(w: World, c: CallId, job: Job, giveUp: bool, grant: Grant)
    requires CallOk(w, c, AtRead(job)) && c in w.calls && w.calls[c] == AtRead(job)
    requires Uses(w.h, StepRead(w, c, job, giveUp).calls[c], grant)
    ensures Usable(w, grant)
  {
  }

  lemma CommitUses(w: World, c: CallId, job: Job, claimed: Family, pair: Pair, snap: Snap, final: Family, grant: Grant)
    requires StoreOk(w) && CallOk(w, c, AtCommit(job, claimed, pair, snap, final))
    requires Uses(w.h, StepCommit(w, c, job, pair, snap, final).calls[c], grant)
    ensures Usable(w, grant)
  {
  }

  lemma AdvanceUses(w: World, c: CallId, choice: Choice, grant: Grant)
    requires StoreOk(w) && c in w.calls && CallOk(w, c, w.calls[c]) && !w.calls[c].Done?
    requires Uses(w.h, Advance(w, c, choice).calls[c], grant)
    ensures Usable(w, grant)
  {
    hide StoreOk, StepRead, StepCommit;
    match w.calls[c]
    case AtRead(job) => ReadUses(w, c, job, choice.giveUp, grant);
    case AtCommit(job, claimed, pair, snap, final) => CommitUses(w, c, job, claimed, pair, snap, final, grant);
    case AtRevokeRead(_, _, _, after) =>
    case AtRevokeSwap(_, _, _, after, _) =>
    case _ =>
  }

  lemma FinalStep(w: World, e: Event, c: CallId, v: nat)
    requires Safe(w) && v < |w.h.written| && w.h.written[v].family.status.Revoked?
    requires c in Step(w, e).calls && Uses(w.h, Step(w, e).calls[c], w.h.written[v].grant)
    ensures c in w.calls && w.calls[c] == Step(w, e).calls[c]
  {
    hide LogOk, StoreOk, WrittenOk, FamilyOk, CallOk, Advance;
    var grant := w.h.written[v].grant;
    match e
    case Continue(d, choice) =>
      if d == c && c in w.calls && !w.calls[c].Done? {
        AdvanceUses(w, c, choice, grant);
        RevokedIsStored(w, grant, v);
        assert false;
      } else if d in w.calls {
        OnlyMover(w, d, choice, c);
      }
    case Fail(d) =>
    case LoseReply(d, choice) => if d in w.calls && Writes(w.calls[d]) { OnlyMover(w, d, choice, c); }
    case Start(d, op) =>
    case _ =>
  }

  lemma OnlyMover(w: World, d: CallId, choice: Choice, c: CallId)
    requires d in w.calls && (c != d || w.calls[d].Done?) && c in Advance(w, d, choice).calls
    ensures c in w.calls && Advance(w, d, choice).calls[c] == w.calls[c]
  {
  }

  // -- authentication ------------------------------------------------------------

  predicate Authenticates(w: World, w': World, c: CallId, grant: Grant) {
    && c in w'.calls && w'.calls[c].Done? && w'.calls[c].result.Authenticated? && w'.calls[c].result.grant == grant
    && (c in w.calls ==> w.calls[c] != w'.calls[c])
  }

  /** Event `k` is the step in which call `c` read the family of `grant`, unrevoked. */
  predicate ReadsAt(now: real, es: seq<Event>, k: nat, c: CallId, grant: Grant) {
    && k < |es| && es[k].Continue? && es[k].call == c
    && (var w := Run(EmptyWorld(now), es[..k]);
        && c in w.calls && w.calls[c].AtIdentityRead? && w.calls[c].record.grant == grant
        && grant in w.store.families && !w.store.families[grant].family.status.Revoked?
        && (forall v | 0 <= v < |w.h.written| && w.h.written[v].grant == grant :: !w.h.written[v].family.status.Revoked?))
  }

  /** A call that authenticates was waiting for the verification of what it had read. */
  lemma OnlyVerified(w: World, e: Event, c: CallId, grant: Grant)
    requires Safe(w) && Authenticates(w, Step(w, e), c, grant)
    ensures e.Continue? && e.call == c && c in w.calls && w.calls[c].AtIdentityVerify? && w.calls[c].record.grant == grant
  {
    hide Safe, Advance;
    match e
    case Continue(d, choice) =>
      if d in w.calls {
        if d == c && !w.calls[c].Done? {
          Waiting(w, c);
          VerifiedCall(w, c, choice);
        } else {
          OnlyMover(w, d, choice, c);
        }
      }
    case LoseReply(d, choice) => if d in w.calls && Writes(w.calls[d]) { OnlyMover(w, d, choice, c); }
    case _ =>
  }

  lemma VerifiedCall(w: World, c: CallId, choice: Choice)
    requires c in w.calls && !w.calls[c].Done? && CallOk(w, c, w.calls[c])
    requires Advance(w, c, choice).calls[c].Done? && Advance(w, c, choice).calls[c].result.Authenticated?
    ensures w.calls[c].AtIdentityVerify? && w.calls[c].record.grant == Advance(w, c, choice).calls[c].result.grant
  {
    hide JobOk, TriedOk, Owns, Prepared, CreateOk, SnapOk, MinReal, NextFamily, Mint, NewPair;
    match w.calls[c]
    case _ =>
  }

  lemma ReadCall(w: World, c: CallId, choice: Choice)
    requires c in w.calls && Advance(w, c, choice).calls[c].AtIdentityVerify?
    requires w.calls[c] != Advance(w, c, choice).calls[c]
    ensures w.calls[c].AtIdentityRead? && w.calls[c].record.grant == Advance(w, c, choice).calls[c].record.grant
    ensures var grant := w.calls[c].record.grant;
      grant in w.store.families && !w.store.families[grant].family.status.Revoked?
  {
    hide MinReal, NextFamily, Mint, NewPair;
    match w.calls[c]
    case _ =>
  }

  /** A call comes to wait for a verification in the step in which it read the family. */
  lemma OnlyRead(w: World, e: Event, c: CallId)
    requires Safe(w) && c in Step(w, e).calls && Step(w, e).calls[c].AtIdentityVerify?
    requires c in w.calls ==> w.calls[c] != Step(w, e).calls[c]
    ensures e.Continue? && e.call == c && c in w.calls && w.calls[c].AtIdentityRead?
    ensures w.calls[c].record.grant == Step(w, e).calls[c].record.grant
    ensures var grant := w.calls[c].record.grant;
      grant in w.store.families && !w.store.families[grant].family.status.Revoked?
  {
    hide Safe, Advance;
    match e
    case Continue(d, choice) =>
      if d in w.calls {
        if d == c && !w.calls[c].Done? {
          ReadCall(w, c, choice);
        } else {
          OnlyMover(w, d, choice, c);
        }
      }
    case LoseReply(d, choice) =>
      if d in w.calls && Writes(w.calls[d]) {
        ThrownTo(w, d);
        if d != c { OnlyMover(w, d, choice, c); }
      }
    case _ =>
  }

  /** Whoever waits for a verification read the family when no revocation of it was written. */
  lemma {:induction false} ReadOnce(now: real, es: seq<Event>, c: CallId)
    requires var w := Run(EmptyWorld(now), es); c in w.calls && w.calls[c].AtIdentityVerify?
    ensures exists k: nat :: ReadsAt(now, es, k, c, Run(EmptyWorld(now), es).calls[c].record.grant)
  {
    if es == [] { return; }
    hide Safe, Step, SnapOk, FamilyOk, LogOk;
    var before, e := es[..|es| - 1], es[|es| - 1];
    var w, w' := Run(EmptyWorld(now), before), Run(EmptyWorld(now), es);
    var grant := w'.calls[c].record.grant;
    if c in w.calls && w.calls[c] == w'.calls[c] {
      ReadOnce(now, before, c);
      var k: nat :| ReadsAt(now, before, k, c, grant);
      assert es[..k] == before[..k];
      assert ReadsAt(now, es, k, c, grant);
    } else {
      SafeAlways(now, before);
      OnlyRead(w, e, c);
      NoneRevoked(w, grant);
      assert es[..|es| - 1] == before;
      assert ReadsAt(now, es, |es| - 1, c, grant);
    }
  }

  lemma NoneRevoked(w: World, grant: Grant)
    requires Safe(w) && grant in w.store.families && !w.store.families[grant].family.status.Revoked?
    ensures forall v | 0 <= v < |w.h.written| && w.h.written[v].grant == grant :: !w.h.written[v].family.status.Revoked?
  {
    hide LogOk, FamilyOk, CallOk;
    forall v | 0 <= v < |w.h.written| && w.h.written[v].grant == grant ensures !w.h.written[v].family.status.Revoked? {
      if w.h.written[v].family.status.Revoked? { RevokedIsStored(w, grant, v); }
    }
  }

  lemma AdvanceWrites(w: World, c: CallId, choice: Choice)
    requires c in w.calls
    ensures w.h.written <= Advance(w, c, choice).h.written
  {
    hide Matches, MinReal, NextFamily, NewPair, RevokedFamily, ReceiptLive, TtlPositive, ReadFamily;
    match w.calls[c]
    case AtUpstream(job, claimed) => assert StepUpstream(w, c, job, claimed, choice).h.written == w.h.written;
    case AtClaim(job, snap, claimed) => assert w.h.written <= StepClaim(w, c, job, snap, claimed).h.written;
    case AtCommit(job, _, pair, snap, final) => assert w.h.written <= StepCommit(w, c, job, pair, snap, final).h.written;
    case AtReadBack(job, claimed, next, pair) => assert StepReadBack(w, c, job, claimed, next, pair).h == w.h;
    case AtRead(job) => assert StepRead(w, c, job, choice.giveUp).h == w.h;
    case _ =>
  }

  lemma {:induction false} WritesStay(now: real, es: seq<Event>, k: nat)
    requires k <= |es|
    ensures Run(EmptyWorld(now), es[..k]).h.written <= Run(EmptyWorld(now), es).h.written
  {
    if k == |es| {
      assert es[..k] == es;
    } else {
      hide Advance, Begin, Throw;
      var w, e := Run(EmptyWorld(now), es[..|es| - 1]), es[|es| - 1];
      assert es[..|es| - 1][..k] == es[..k];
      WritesStay(now, es[..|es| - 1], k);
      StepWrites(w, e);
    }
  }

  lemma StepWrites(w: World, e: Event)
    ensures w.h.written <= Step(w, e).h.written
  {
    hide Advance;
    match e
    case Continue(d, choice) => if d in w.calls { AdvanceWrites(w, d, choice); }
    case LoseReply(d, choice) => if d in w.calls { AdvanceWrites(w, d, choice); }
    case _ =>
  }

  /**
   * Once the revocation of a grant is written, a step authenticates a token of that grant only for a
   * call that read the family before the revocation was written.
   */
  lemma LateAuthentication(now: real, es: seq<Event>, e: Event, c: CallId, v: nat)
    requires var w := Run(EmptyWorld(now), es); v < |w.h.written| && w.h.written[v].family.status.Revoked?
    requires var w := Run(EmptyWorld(now), es); Authenticates(w, Step(w, e), c, w.h.written[v].grant)
    ensures var grant := Run(EmptyWorld(now), es).h.written[v].grant;
      exists k: nat :: ReadsAt(now, es, k, c, grant) && |Run(EmptyWorld(now), es[..k]).h.written| <= v
  {
    hide Run, Safe, Step;
    var w := Run(EmptyWorld(now), es);
    var grant := w.h.written[v].grant;
    SafeAlways(now, es);
    OnlyVerified(w, e, c, grant);
    ReadOnce(now, es, c);
    var k: nat :| ReadsAt(now, es, k, c, grant);
    WritesStay(now, es, k);
    assert |Run(EmptyWorld(now), es[..k]).h.written| <= v;
  }

  lemma InTime(w: World, c: CallId, choice: Choice)
    requires LogOk(w.h) && WrittenOk(w.h) && c in w.calls && w.calls[c].AtIdentityVerify? && CallOk(w, c, w.calls[c])
    requires Advance(w, c, choice).calls[c].Done? && Advance(w, c, choice).calls[c].result.Authenticated?
    ensures var r := Advance(w, c, choice).calls[c].result; var k := Gen(r.grant, r.generation);
      && k in w.h.commits && w.h.commits[k].pair.access == r.token && w.now < w.h.commits[k].pair.accessExpiresAt
  {
    RecordCommitted(w.h, w.calls[c].token, w.calls[c].record, w.calls[c].snap);
    hide WrittenOk, ClaimsOk, TokensOk, UpstreamOk, WroteAt;
  }

  /** No token authenticates once its pair has expired, and so not beyond the deadline of its family. */
  lemma AuthenticatedInTime(now: real, es: seq<Event>, e: Event, c: CallId, grant: Grant)
    requires var w := Run(EmptyWorld(now), es); Authenticates(w, Step(w, e), c, grant)
    ensures var w := Run(EmptyWorld(now), es); var r := Step(w, e).calls[c].result; var k := Gen(grant, r.generation);
      && k in w.h.commits && w.h.commits[k].pair.access == r.token && w.now < w.h.commits[k].pair.accessExpiresAt
      && w.h.commits[k].version < |w.h.written| && w.now < w.h.written[w.h.commits[k].version].family.expiresAt
  {
    hide Run, Safe, Step;
    var w := Run(EmptyWorld(now), es);
    SafeAlways(now, es);
    OnlyVerified(w, e, c, grant);
    Waiting(w, c);
    SafeParts(w);
    assert Step(w, e) == Advance(w, c, e.choice) by { StepIs(w, e, c); }
    hide Advance, CallOk, LogOk, WrittenOk;
    InTime(w, c, e.choice);
    var k := Gen(grant, Step(w, e).calls[c].result.generation);
    CommitWrite(w.h, k);
    ExpiryWithinDeadline(now, es, w.h.commits[k].version);
  }

  lemma StepIs(w: World, e: Event, c: CallId)
    requires e.Continue? && e.call == c && c in w.calls
    ensures Step(w, e) == Advance(w, c, e.choice)
  {
  }

  lemma SafeParts(w: World)
    requires Safe(w)
    ensures LogOk(w.h) && WrittenOk(w.h)
  {
  }

  lemma CommitWrite(h: History, k: Gen)
    requires LogOk(h) && k in h.commits
    ensures h.commits[k].version < |h.written| && h.written[h.commits[k].version].grant == k.grant
    ensures h.written[h.commits[k].version].family.generation == k.generation
  {
  }

  // -- a late authentication -----------------------------------------------------

  const FREE: Choice := Choice(None, 100.0, true, false)

  function Opening(): seq<Event> {
    [Start(0, Create("client", "binding", 1, Some(2), 100.0, 100.0)), Continue(0, FREE), Continue(0, FREE), Continue(0, FREE)]
  }

  function Reading(): seq<Event> {
    [Start(1, Identify(1)), Continue(1, FREE), Continue(1, FREE)]
  }

  function Revoking(): seq<Event> {
    [Start(2, Revoke(0, "client")), Continue(2, FREE), Continue(2, FREE)]
  }

  lemma RunPlus(now: real, es: seq<Event>, e: Event)
    ensures Run(EmptyWorld(now), es + [e]) == Step(Run(EmptyWorld(now), es), e)
  {
    assert (es + [e])[..|es + [e]| - 1] == es;
  }

  function OpenFamily(): Family {
    Family("client", "binding", 100.0, 0, Active, Some(1), Some(2), 2, 0.0, None)
  }

  predicate Opened(w: World) {
    && w.now == 0.0 && w.calls.Keys == {0}
    && w.h.written == [Written(0, OpenFamily())] && w.store.families == map[0 := Snap(0, OpenFamily())]
    && 1 in w.store.access && w.store.access[1] == AccessRecord("client", 0, 0, 100.0)
  }

  lemma OpeningRun()
    ensures Opened(Run(EmptyWorld(0.0), Opening()))
  {
    var es := Opening();
    var w1 := Step(EmptyWorld(0.0), es[0]);
    RunPlus(0.0, [], es[0]);
    assert [] + [es[0]] == [es[0]] && Run(EmptyWorld(0.0), []) == EmptyWorld(0.0);
    assert w1.calls[0] == AtCreatePutAccess(0, OpenFamily(), Pair(1, 2, 100.0));
    var w2 := Step(w1, es[1]);
    RunPlus(0.0, [es[0]], es[1]);
    assert [es[0]] + [es[1]] == [es[0], es[1]];
    assert w2.calls[0] == AtCreatePutRefresh(0, OpenFamily(), Pair(1, 2, 100.0));
    var w3 := Step(w2, es[2]);
    RunPlus(0.0, [es[0], es[1]], es[2]);
    assert [es[0], es[1]] + [es[2]] == [es[0], es[1], es[2]];
    assert w3.calls[0] == AtCreateSwap(0, OpenFamily(), Pair(1, 2, 100.0));
    RunPlus(0.0, [es[0], es[1], es[2]], es[3]);
    assert [es[0], es[1], es[2]] + [es[3]] == es;
  }

  lemma ThreeMore(es: seq<Event>, more: seq<Event>)
    requires |more| == 3
    ensures var w := Run(EmptyWorld(0.0), es);
      Run(EmptyWorld(0.0), es + more) == Step(Step(Step(w, more[0]), more[1]), more[2])
  {
    RunPlus(0.0, es, more[0]);
    RunPlus(0.0, es + [more[0]], more[1]);
    RunPlus(0.0, es + [more[0]] + [more[1]], more[2]);
    assert es + [more[0]] + [more[1]] + [more[2]] == es + more;
  }

  lemma ReadingRun()
    ensures var w := Run(EmptyWorld(0.0), Opening()); var w' := Run(EmptyWorld(0.0), Opening() + Reading());
      w' == w.(calls := w.calls[1 := AtIdentityVerify(1, AccessRecord("client", 0, 0, 100.0), Snap(0, OpenFamily()))])
  {
    hide Opening;
    OpeningRun();
    ThreeMore(Opening(), Reading());
    var w := Run(EmptyWorld(0.0), Opening());
    var w1 := Step(w, Reading()[0]);
    assert w1 == w.(calls := w.calls[1 := AtIdentityLookup(1)]);
    var w2 := Step(w1, Reading()[1]);
    assert w2 == w.(calls := w.calls[1 := AtIdentityRead(1, AccessRecord("client", 0, 0, 100.0))]);
  }

  lemma RevokingRun()
    ensures var w := Run(EmptyWorld(0.0), Opening() + Reading());
      var w' := Run(EmptyWorld(0.0), Opening() + Reading() + Revoking());
      && w'.now == 0.0 && w'.h.written == w.h.written + [Written(0, RevokedFamily(OpenFamily()))]
      && 1 in w'.calls && 1 in w.calls && w'.calls[1] == w.calls[1]
  {
    hide Opening, Reading;
    OpeningRun();
    ReadingRun();
    ThreeMore(Opening() + Reading(), Revoking());
    var w := Run(EmptyWorld(0.0), Opening() + Reading());
    var w1 := Step(w, Revoking()[0]);
    assert w1 == w.(calls := w.calls[2 := AtRevokeRead(0, "client", 0, RevokeDone)]);
    var w2 := Step(w1, Revoking()[1]);
    assert w2 == w.(calls := w.calls[2 := AtRevokeSwap(0, "client", 0, RevokeDone, Snap(0, OpenFamily()))]);
  }

  /** It happens: the family is read, then its revocation is written, and then the token authenticates. */
  lemma LateAuthenticationHappens()
    ensures exists es: seq<Event>, e: Event, c: CallId, v: nat ::
      var w := Run(EmptyWorld(0.0), es);
      && v < |w.h.written| && w.h.written[v].family.status.Revoked?
      && Authenticates(w, Step(w, e), c, w.h.written[v].grant)
  {
    hide Opening, Reading, Revoking, Run;
    OpeningRun();
    ReadingRun();
    RevokingRun();
    var es := Opening() + Reading() + Revoking();
    var w := Run(EmptyWorld(0.0), es);
    assert w.h.written[1].family.status.Revoked?;
    assert Authenticates(w, Step(w, Continue(1, FREE)), 1, w.h.written[1].grant);
  }

  /** The client a call was authenticated as. */
  function CallerOf(pc: Pc): Option<string> {
    match pc
    case AtRevokeSwap(_, client, _, _, _) => Some(client)
    case _ => if JobOf(pc).Some? then Some(JobOf(pc).value.client) else None
  }

  lemma CommitWriter(w: World, c: CallId, job: Job, claimed: Family, pair: Pair, snap: Snap, final: Family)
    requires WrittenOk(w.h) && StoreOk(w) && CallOk(w, c, AtCommit(job, claimed, pair, snap, final))
    requires Matches(w, job.grant, snap)
    ensures w.store.families[job.grant].family.client == job.client
  {
  }

  /** A stored family is only ever replaced by a call of the family's own client. */
  lemma OnlyTheClientWrites(now: real, es: seq<Event>, e: Event, grant: Grant)
    requires var w := Run(EmptyWorld(now), es); var w' := Step(w, e);
      && grant in w.store.families && grant in w'.store.families
      && w'.store.families[grant] != w.store.families[grant]
    ensures var w := Run(EmptyWorld(now), es);
      && (e.Continue? || e.LoseReply?) && e.call in w.calls
      && CallerOf(w.calls[e.call]) == Some(w.store.families[grant].family.client)
  {
    hide Run, Safe, Step;
    SafeAlways(now, es);
    WriterStep(Run(EmptyWorld(now), es), e, grant);
  }

  lemma WriterStep(w: World, e: Event, grant: Grant)
    requires Safe(w) && grant in w.store.families && grant in Step(w, e).store.families
    requires Step(w, e).store.families[grant] != w.store.families[grant]
    ensures (e.Continue? || e.LoseReply?) && e.call in w.calls
    ensures CallerOf(w.calls[e.call]) == Some(w.store.families[grant].family.client)
  {
    hide LogOk, StoreOk, WrittenOk, FamilyOk, CallOk, Advance;
    if e.Continue? || e.LoseReply? {
      Waiting(w, e.call);
      WriterAdvance(w, e.call, e.choice, grant);
    }
  }

  lemma WriterAdvance(w: World, c: CallId, choice: Choice, grant: Grant)
    requires WrittenOk(w.h) && StoreOk(w) && c in w.calls && CallOk(w, c, w.calls[c])
    requires grant in w.store.families && grant in Advance(w, c, choice).store.families
    requires Advance(w, c, choice).store.families[grant] != w.store.families[grant]
    ensures CallerOf(w.calls[c]) == Some(w.store.families[grant].family.client)
  {
    hide StoreOk, WrittenOk, Mint, NewPair, NextFamily, MinReal;
    match w.calls[c]
    case AtRead(_) =>
    case AtClaim(job, snap, _) =>
      MatchedSnap(w, job.grant, snap);
    case AtCommit(job, claimed, pair, snap, final) => CommitWriter(w, c, job, claimed, pair, snap, final);
    case AtRevokeSwap(g, _, _, _, snap) =>
      MatchedSnap(w, g, snap);
    case _ =>
  }
}
