/**
 * Rotating refresh grants over compare-and-swap: any number of calls on any number of
 * replicas, interleaved at every store call.
 */
module RefreshGrants {
  import opened Options

  // ---------------------------------------------------------------------------
  // records
  // ---------------------------------------------------------------------------

  /** Random tokens are modelled as fresh numbers; a digest as the token it determines. */
  type Token = nat
  type Grant = nat
  type CallId = nat

  datatype Pair = Pair(access: Token, refresh: Token, accessExpiresAt: real)

  datatype Status = Active | Refreshing | Revoked

  datatype Receipt = Receipt(digest: Token, expiresAt: real, pair: Pair)

  datatype Family = Family(
    client: string,
    binding: string,
    expiresAt: real,
    generation: nat,
    status: Status,
    assertion: Option<nat>,
    upstream: Option<nat>,
    digest: Token,
    since: real,
    receipt: Option<Receipt>)

  /** A refresh token's replay marker. */
  datatype Reference = Reference(client: string, grant: Grant, generation: nat)

  datatype AccessRecord = AccessRecord(client: string, grant: Grant, generation: nat, expiresAt: real)

  /** Every write is encrypted under a new random IV, so a version names one write. */
  datatype Snap = Snap(version: nat, family: Family)

  datatype Store = Store(families: map<Grant, Snap>, access: map<Token, AccessRecord>, references: map<Token, Reference>)

  /** One generation of one grant. */
  datatype Gen = Gen(grant: Grant, generation: nat)

  datatype Written = Written(grant: Grant, family: Family)

  datatype Claim = Claim(call: CallId, version: nat)

  datatype Commit = Commit(pair: Pair, version: nat)

  /** What has happened so far; no call reads it. */
  datatype History = History(
    next: nat,                      // the next fresh token
    written: seq<Written>,          // successful family writes; the index is the version
    creators: map<Grant, CallId>,
    pairs: map<Gen, Pair>,          // pairs minted for a generation
    accessOf: map<Token, Gen>,      // the generation an access token was minted for
    refreshOf: map<Token, Gen>,     // the same for refresh tokens
    commits: map<Gen, Commit>,      // pairs whose family write succeeded
    claims: map<Gen, Claim>,        // who won the claim of a generation
    upstream: seq<Gen>)             // renewal requests sent upstream, in order

  // ---------------------------------------------------------------------------
  // calls
  // ---------------------------------------------------------------------------

  /** A refresh call once its token was found. */
  datatype Job = Job(client: string, token: Token, grant: Grant, generation: nat, attempts: nat, tried: Option<nat>)

  datatype Result =
    | Granted(token: Token, pair: Pair)
    | Created(grant: Grant, pair: Pair)
    | Authenticated(token: Token, grant: Grant, generation: nat)
    | RevokeDone
    | Inflight
    | Denied

  /** Where a call waits; each state is one pending store call or upstream call. */
  datatype Pc =
    | AtLookup(client: string, token: Token)
    | AtRead(job: Job)
    | AtClaim(job: Job, snap: Snap, claimed: Family)
    | AtUpstream(job: Job, claimed: Family)
    | AtPutAccess(job: Job, claimed: Family, next: Family, pair: Pair)
    | AtPutRefresh(job: Job, claimed: Family, next: Family, pair: Pair)
    | AtReadBack(job: Job, claimed: Family, next: Family, pair: Pair)
    | AtCommit(job: Job, claimed: Family, pair: Pair, snap: Snap, final: Family)
    | AtRevokeRead(grant: Grant, client: string, attempt: nat, after: Result)
    | AtRevokeSwap(grant: Grant, client: string, attempt: nat, after: Result, snap: Snap)
    | AtCreatePutAccess(grant: Grant, family: Family, pair: Pair)
    | AtCreatePutRefresh(grant: Grant, family: Family, pair: Pair)
    | AtCreateSwap(grant: Grant, family: Family, pair: Pair)
    | AtIdentityLookup(token: Token)
    | AtIdentityRead(token: Token, record: AccessRecord)
    | AtIdentityVerify(token: Token, record: AccessRecord, snap: Snap)
    | Done(result: Result)

  datatype World = World(now: real, store: Store, h: History, calls: map<CallId, Pc>)

  /** What the environment decides in a step. */
  datatype Choice = Choice(
    tokens: Option<UpstreamTokens>, // the upstream renewal and its verification, or a failure
    identityExpiresAt: real,
    verified: bool,
    giveUp: bool)                   // the 45 second wait of this call is over

  datatype UpstreamTokens = UpstreamTokens(assertion: nat, refresh: Option<Option<nat>>)

  datatype Operation =
    | Refresh(client: string, token: Token)
    | Revoke(grant: Grant, client: string)
    | Create(client: string, binding: string, assertion: nat, upstream: Option<nat>, expiresAt: real, identityExpiresAt: real)
    | Identify(token: Token)

  datatype Event =
    | Tick(elapsed: real)
    // expiry, eviction or a clock that runs ahead: an entry is gone
    | LoseFamily(grant: Grant)
    | LoseAccess(token: Token)
    | LoseReference(token: Token)
    | Start(call: CallId, op: Operation)
    | Continue(call: CallId, choice: Choice)
    | Fail(call: CallId)             // the pending store or upstream call throws, without effect
    | LoseReply(call: CallId, choice: Choice) // a write takes effect, and the call throws all the same

  const RECEIPT_SECONDS: real := 10.0
  const INFLIGHT_SECONDS: real := 45.0
  const REVOKE_ATTEMPTS: nat := 8

  function MinReal(a: real, b: real): real { if a < b then a else b }

  function Goto(w: World, c: CallId, pc: Pc): World { w.(calls := w.calls[c := pc]) }

  function ReadFamily(w: World, grant: Grant): Option<Snap> {
    if grant in w.store.families then Some(w.store.families[grant]) else None
  }

  /** The conditional write: a new version if `expected` is still what is stored. */
  function Swap(w: World, grant: Grant, family: Family): World {
    w.(store := w.store.(families := w.store.families[grant := Snap(|w.h.written|, family)]),
       h := w.h.(written := w.h.written + [Written(grant, family)]))
  }

  predicate Matches(w: World, grant: Grant, expected: Snap) {
    grant in w.store.families && w.store.families[grant].version == expected.version
  }

  /** `#preparePair` mints access and refresh token for a generation. */
  function Mint(h: History, k: Gen, pair: Pair): History {
    h.(next := h.next + 2, pairs := h.pairs[k := pair], accessOf := h.accessOf[pair.access := k],
       refreshOf := h.refreshOf[pair.refresh := k])
  }

  function NewPair(h: History, expiresAt: real): Pair { Pair(h.next, h.next + 1, expiresAt) }

  function RevokeFirst(w: World, c: CallId, grant: Grant, client: string): World {
    Goto(w, c, AtRevokeRead(grant, client, 0, Denied))
  }

  // -- refresh -------------------------------------------------------------------

  function StepLookup(w: World, c: CallId, client: string, token: Token): World {
    if token !in w.store.references || w.store.references[token].client != client then Goto(w, c, Done(Denied))
    else
      var r := w.store.references[token];
      Goto(w, c, AtRead(Job(client, token, r.grant, r.generation, 0, None)))
  }

  predicate ReceiptLive(f: Family, token: Token, now: real) {
    && f.receipt.Some? && f.receipt.value.digest == token
    && f.receipt.value.expiresAt > now && f.receipt.value.pair.accessExpiresAt > now
  }

  /** One turn of the retry loop: read the family, then decide on what was read. */
  function StepRead(w: World, c: CallId, job: Job, giveUp: bool): World {
    var read := ReadFamily(w, job.grant);
    if read.None? then Goto(w, c, Done(Denied))
    else
      var f := read.value.family;
      if f.client != job.client || f.expiresAt <= w.now || f.status.Revoked? then Goto(w, c, Done(Denied))
      else if ReceiptLive(f, job.token, w.now) then Goto(w, c, Done(Granted(job.token, f.receipt.value.pair)))
      else if f.digest != job.token || f.generation != job.generation then RevokeFirst(w, c, job.grant, job.client)
      else if f.status.Refreshing? then
        if f.since + INFLIGHT_SECONDS <= w.now then RevokeFirst(w, c, job.grant, job.client)
        else if giveUp then Goto(w, c, Done(Inflight))
        else w
      else Goto(w, c, AtClaim(job, read.value, f.(status := Refreshing, since := w.now)))
  }

  function StepClaim(w: World, c: CallId, job: Job, snap: Snap, claimed: Family): World {
    var tried := job.(attempts := job.attempts + 1, tried := Some(snap.version));
    if !Matches(w, job.grant, snap) then Goto(w, c, AtRead(tried))
    else
      var k := Gen(job.grant, claimed.generation);
      var w1 := Swap(w, job.grant, claimed);
      Goto(w1.(h := w1.h.(claims := w1.h.claims[k := Claim(c, |w.h.written|)], upstream := w1.h.upstream + [k])),
           c, AtUpstream(tried, claimed))
  }

  function NextFamily(claimed: Family, t: UpstreamTokens): Family {
    claimed.(generation := claimed.generation + 1, status := Active, assertion := Some(t.assertion),
             upstream := if t.refresh.Some? then t.refresh.value else claimed.upstream, receipt := None)
  }

  function StepUpstream(w: World, c: CallId, job: Job, claimed: Family, choice: Choice): World {
    var expires := MinReal(choice.identityExpiresAt, claimed.expiresAt);
    if choice.tokens.None? || claimed.expiresAt <= w.now || NextFamily(claimed, choice.tokens.value).upstream.None?
       || expires - w.now < 1.0
    then RevokeFirst(w, c, job.grant, job.client)
    else
      var pair := NewPair(w.h, expires);
      Goto(w.(h := Mint(w.h, Gen(job.grant, claimed.generation + 1), pair)), c,
           AtPutAccess(job, claimed, NextFamily(claimed, choice.tokens.value), pair))
  }

  function PutAccess(w: World, grant: Grant, f: Family, pair: Pair): World {
    w.(store := w.store.(access :=
         w.store.access[pair.access := AccessRecord(f.client, grant, f.generation, pair.accessExpiresAt)]))
  }

  function PutReference(w: World, grant: Grant, f: Family, pair: Pair): World {
    w.(store := w.store.(references := w.store.references[pair.refresh := Reference(f.client, grant, f.generation)]))
  }

  /** A write with a non-positive lifetime throws. */
  predicate TtlPositive(w: World, f: Family) { f.expiresAt > w.now }

  function StepPutAccess(w: World, c: CallId, job: Job, claimed: Family, next: Family, pair: Pair): World {
    var w1 := PutAccess(w, job.grant, next, pair);
    if TtlPositive(w, next) then Goto(w1, c, AtPutRefresh(job, claimed, next, pair))
    else RevokeFirst(w1, c, job.grant, job.client)
  }

  function StepPutRefresh(w: World, c: CallId, job: Job, claimed: Family, next: Family, pair: Pair): World {
    Goto(PutReference(w, job.grant, next, pair), c, AtReadBack(job, claimed, next, pair))
  }

  function StepReadBack(w: World, c: CallId, job: Job, claimed: Family, next: Family, pair: Pair): World {
    var read := ReadFamily(w, job.grant);
    if read.None? || !read.value.family.status.Refreshing? || read.value.family.generation != claimed.generation
       || read.value.family.digest != job.token || !TtlPositive(w, next)
    then RevokeFirst(w, c, job.grant, job.client)
    else
      var receipt := Receipt(job.token, MinReal(w.now + RECEIPT_SECONDS, pair.accessExpiresAt), pair);
      Goto(w, c, AtCommit(job, claimed, pair, read.value, next.(digest := pair.refresh, receipt := Some(receipt))))
  }

  function StepCommit(w: World, c: CallId, job: Job, pair: Pair, snap: Snap, final: Family): World {
    if !Matches(w, job.grant, snap) then RevokeFirst(w, c, job.grant, job.client)
    else
      var w1 := Swap(w, job.grant, final);
      Goto(w1.(h := w1.h.(commits := w1.h.commits[Gen(job.grant, final.generation) := Commit(pair, |w.h.written|)])),
           c, Done(Granted(job.token, pair)))
  }

  // -- revoke --------------------------------------------------------------------

  function RevokedFamily(f: Family): Family {
    f.(status := Revoked, upstream := None, assertion := None, receipt := None)
  }

  function StepRevokeRead(w: World, c: CallId, grant: Grant, client: string, attempt: nat, after: Result): World {
    var read := ReadFamily(w, grant);
    if read.None? || read.value.family.client != client || read.value.family.expiresAt <= w.now
       || read.value.family.status.Revoked?
    then Goto(w, c, Done(after))
    else Goto(w, c, AtRevokeSwap(grant, client, attempt, after, read.value))
  }

  function StepRevokeSwap(w: World, c: CallId, grant: Grant, client: string, attempt: nat, after: Result, snap: Snap): World {
    if Matches(w, grant, snap) then Goto(Swap(w, grant, RevokedFamily(snap.family)), c, Done(after))
    else if attempt + 1 < REVOKE_ATTEMPTS then Goto(w, c, AtRevokeRead(grant, client, attempt + 1, after))
    else Goto(w, c, Done(Denied))
  }

  // -- create --------------------------------------------------------------------

  function StartCreate(w: World, c: CallId, op: Operation): World
    requires op.Create?
  {
    var expires := MinReal(op.identityExpiresAt, op.expiresAt);
    if op.upstream.None? || op.expiresAt <= w.now || expires - w.now < 1.0 then Goto(w, c, Done(Denied))
    else
      var grant := w.h.next;
      var h := w.h.(next := w.h.next + 1, creators := w.h.creators[grant := c]);
      var pair := NewPair(h, expires);
      var family := Family(op.client, op.binding, op.expiresAt, 0, Active, Some(op.assertion), op.upstream,
                           pair.refresh, 0.0, None);
      Goto(w.(h := Mint(h, Gen(grant, 0), pair)), c, AtCreatePutAccess(grant, family, pair))
  }

  function StepCreatePutAccess(w: World, c: CallId, grant: Grant, f: Family, pair: Pair): World {
    var w1 := PutAccess(w, grant, f, pair);
    if TtlPositive(w, f) then Goto(w1, c, AtCreatePutRefresh(grant, f, pair)) else Goto(w1, c, Done(Denied))
  }

  function StepCreatePutRefresh(w: World, c: CallId, grant: Grant, f: Family, pair: Pair): World {
    var w1 := PutReference(w, grant, f, pair);
    if TtlPositive(w, f) then Goto(w1, c, AtCreateSwap(grant, f, pair)) else Goto(w1, c, Done(Denied))
  }

  function StepCreateSwap(w: World, c: CallId, grant: Grant, f: Family, pair: Pair): World {
    if grant in w.store.families then Goto(w, c, Done(Denied))
    else
      var w1 := Swap(w, grant, f);
      Goto(w1.(h := w1.h.(commits := w1.h.commits[Gen(grant, 0) := Commit(pair, |w.h.written|)])),
           c, Done(Created(grant, pair)))
  }

  // -- identity ------------------------------------------------------------------

  function StepIdentityLookup(w: World, c: CallId, token: Token): World {
    if token !in w.store.access then Goto(w, c, Done(Denied))
    else if w.store.access[token].expiresAt <= w.now then Goto(w, c, Done(Denied))
    else Goto(w, c, AtIdentityRead(token, w.store.access[token]))
  }

  function StepIdentityRead(w: World, c: CallId, token: Token, r: AccessRecord): World {
    var read := ReadFamily(w, r.grant);
    if read.None? || read.value.family.client != r.client || read.value.family.status.Revoked?
       || read.value.family.expiresAt <= w.now || r.generation > read.value.family.generation
    then Goto(w, c, Done(Denied))
    else Goto(w, c, AtIdentityVerify(token, r, read.value))
  }

  /** The assertion that was read is verified with remote keys, and the family is not read again. */
  function StepIdentityVerify(w: World, c: CallId, token: Token, r: AccessRecord, snap: Snap, choice: Choice): World {
    if !choice.verified || MinReal(MinReal(r.expiresAt, snap.family.expiresAt), choice.identityExpiresAt) <= w.now
    then Goto(w, c, Done(Denied))
    else Goto(w, c, Done(Authenticated(token, r.grant, r.generation)))
  }

  // -- the system ----------------------------------------------------------------

  function Advance(w: World, c: CallId, choice: Choice): World
    requires c in w.calls
  {
    match w.calls[c]
    case AtLookup(client, token) => StepLookup(w, c, client, token)
    case AtRead(job) => StepRead(w, c, job, choice.giveUp)
    case AtClaim(job, snap, claimed) => StepClaim(w, c, job, snap, claimed)
    case AtUpstream(job, claimed) => StepUpstream(w, c, job, claimed, choice)
    case AtPutAccess(job, claimed, next, pair) => StepPutAccess(w, c, job, claimed, next, pair)
    case AtPutRefresh(job, claimed, next, pair) => StepPutRefresh(w, c, job, claimed, next, pair)
    case AtReadBack(job, claimed, next, pair) => StepReadBack(w, c, job, claimed, next, pair)
    case AtCommit(job, claimed, pair, snap, final) => StepCommit(w, c, job, pair, snap, final)
    case AtRevokeRead(grant, client, attempt, after) => StepRevokeRead(w, c, grant, client, attempt, after)
    case AtRevokeSwap(grant, client, attempt, after, snap) => StepRevokeSwap(w, c, grant, client, attempt, after, snap)
    case AtCreatePutAccess(grant, f, pair) => StepCreatePutAccess(w, c, grant, f, pair)
    case AtCreatePutRefresh(grant, f, pair) => StepCreatePutRefresh(w, c, grant, f, pair)
    case AtCreateSwap(grant, f, pair) => StepCreateSwap(w, c, grant, f, pair)
    case AtIdentityLookup(token) => StepIdentityLookup(w, c, token)
    case AtIdentityRead(token, r) => StepIdentityRead(w, c, token, r)
    case AtIdentityVerify(token, r, snap) => StepIdentityVerify(w, c, token, r, snap, choice)
    case Done(_) => w
  }

  /** Only a renewal in progress revokes when a call throws; every other operation just fails. */
  function Throw(w: World, c: CallId): World
    requires c in w.calls
  {
    match w.calls[c]
    case AtUpstream(job, _) => RevokeFirst(w, c, job.grant, job.client)
    case AtPutAccess(job, _, _, _) => RevokeFirst(w, c, job.grant, job.client)
    case AtPutRefresh(job, _, _, _) => RevokeFirst(w, c, job.grant, job.client)
    case AtReadBack(job, _, _, _) => RevokeFirst(w, c, job.grant, job.client)
    case AtCommit(job, _, _, _, _) => RevokeFirst(w, c, job.grant, job.client)
    case Done(_) => w
    case _ => Goto(w, c, Done(Denied))
  }

  predicate Writes(pc: Pc) {
    || pc.AtClaim? || pc.AtPutAccess? || pc.AtPutRefresh? || pc.AtCommit? || pc.AtRevokeSwap?
    || pc.AtCreatePutAccess? || pc.AtCreatePutRefresh? || pc.AtCreateSwap?
  }

  /** The write is in the store, its answer is lost: nothing is sent upstream and the call has failed. */
  function Unanswered(w: World, c: CallId, choice: Choice): World
    requires c in w.calls
  {
    if !Writes(w.calls[c]) then Throw(w, c)
    else
      var done := Advance(w, c, choice);
      Goto(done.(h := done.h.(upstream := w.h.upstream)), c, Throw(w, c).calls[c])
  }

  function Begin(w: World, c: CallId, op: Operation): World {
    match op
    case Refresh(client, token) => Goto(w, c, AtLookup(client, token))
    case Revoke(grant, client) => Goto(w, c, AtRevokeRead(grant, client, 0, RevokeDone))
    case Create(_, _, _, _, _, _) => StartCreate(w, c, op)
    case Identify(token) => Goto(w, c, AtIdentityLookup(token))
  }

  function Step(w: World, e: Event): World {
    match e
    case Tick(elapsed) => if elapsed >= 0.0 then w.(now := w.now + elapsed) else w
    case LoseFamily(grant) => w.(store := w.store.(families := w.store.families - {grant}))
    case LoseAccess(token) => w.(store := w.store.(access := w.store.access - {token}))
    case LoseReference(token) => w.(store := w.store.(references := w.store.references - {token}))
    case Start(c, op) => if c in w.calls then w else Begin(w, c, op)
    case Continue(c, choice) => if c in w.calls then Advance(w, c, choice) else w
    case Fail(c) => if c in w.calls then Throw(w, c) else w
    case LoseReply(c, choice) => if c in w.calls then Unanswered(w, c, choice) else w
  }

  function Run(w: World, es: seq<Event>): World {
    if es == [] then w else Step(Run(w, es[..|es| - 1]), es[|es| - 1])
  }

  function EmptyWorld(now: real): World {
    World(now, Store(map[], map[], map[]), History(0, [], map[], map[], map[], map[], map[], map[], []), map[])
  }
}
