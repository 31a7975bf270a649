/** What becomes of a refresh: a reused token takes its family down, a current one is granted. */
module RefreshProgress {
  import opened Options
  import opened RefreshGrants
  import opened RefreshSafety

  // ---------------------------------------------------------------------------
  // steps of other calls
  // ---------------------------------------------------------------------------

  predicate Own(e: Event, c: CallId) { (e.Continue? || e.Fail? || e.LoseReply?) && e.call == c }

  lemma CallKept(w: World, d: CallId, choice: Choice, c: CallId)
    requires d in w.calls && c in w.calls && c != d
    ensures c in Advance(w, d, choice).calls && Advance(w, d, choice).calls[c] == w.calls[c]
  {
    hide Matches, MinReal, NextFamily, NewPair, RevokedFamily, ReceiptLive, TtlPositive, ReadFamily, Mint;
    match w.calls[d]
    case _ =>
  }

  /** Only its own events move a call. */
  lemma Waits(w: World, e: Event, c: CallId)
    requires c in w.calls && !Own(e, c)
    ensures c in Step(w, e).calls && Step(w, e).calls[c] == w.calls[c]
  {
    hide Advance;
    match e
    case Continue(d, choice) => if d in w.calls { CallKept(w, d, choice, c); }
    case LoseReply(d, choice) => if d in w.calls { CallKept(w, d, choice, c); }
    case _ =>
  }

  lemma FamiliesKept(w: World, c: CallId, choice: Choice)
    requires c in w.calls
    ensures w.store.families.Keys <= Advance(w, c, choice).store.families.Keys
  {
    hide Matches, MinReal, NextFamily, NewPair, RevokedFamily, ReceiptLive, TtlPositive, ReadFamily, Mint;
    match w.calls[c]
    case _ =>
  }

  predicate FamilyIs(w: World, grant: Grant, client: string, deadline: real) {
    && grant in w.store.families
    && w.store.families[grant].family.client == client && w.store.families[grant].family.expiresAt == deadline
  }

  lemma FamilyIn(w: World, e: Event, grant: Grant)
    requires grant in w.store.families && e != LoseFamily(grant)
    ensures grant in Step(w, e).store.families
  {
    hide Advance;
    match e
    case Continue(c, choice) => if c in w.calls { FamiliesKept(w, c, choice); }
    case LoseReply(c, choice) => if c in w.calls { FamiliesKept(w, c, choice); }
    case _ =>
  }

  lemma OneFamily(w: World, w': World, grant: Grant)
    requires StoreOk(w) && StoreOk(w') && WrittenOk(w'.h) && w.h.written <= w'.h.written
    requires grant in w.store.families && grant in w'.store.families
    ensures var f := w.store.families[grant].family; FamilyIs(w', grant, f.client, f.expiresAt)
  {
    hide FamilyOk, Later;
    var s, s' := w.store.families[grant], w'.store.families[grant];
    assert SnapOk(w.h, grant, s) && SnapOk(w'.h, grant, s');
    assert w'.h.written[s.version] == w.h.written[s.version];
  }

  /** A family that is not lost stays the same client's, with the same deadline. */
  lemma FamilyStays(w: World, e: Event, grant: Grant)
    requires Safe(w) && grant in w.store.families && e != LoseFamily(grant)
    ensures var f := w.store.families[grant].family; FamilyIs(Step(w, e), grant, f.client, f.expiresAt)
  {
    hide Step, LogOk, StoreOk, WrittenOk, CallOk;
    StepKeeps(w, e);
    StepWrites(w, e);
    FamilyIn(w, e, grant);
    OneFamily(w, Step(w, e), grant);
  }

  lemma TimeGrows(w: World, e: Event)
    ensures Step(w, e).now >= w.now
  {
    hide Matches, MinReal, NextFamily, NewPair, RevokedFamily, ReceiptLive, TtlPositive, ReadFamily, Mint;
  }

  lemma {:induction false} RunTime(w: World, es: seq<Event>, k: nat)
    requires k <= |es|
    ensures Run(w, es[..k]).now <= Run(w, es).now
  {
    if k == |es| {
      assert es[..k] == es;
    } else {
      hide Step;
      assert es[..|es| - 1][..k] == es[..k];
      RunTime(w, es[..|es| - 1], k);
      TimeGrows(Run(w, es[..|es| - 1]), es[|es| - 1]);
    }
  }

  lemma {:induction false} RunConcat(w: World, a: seq<Event>, b: seq<Event>)
    ensures Run(w, a + b) == Run(Run(w, a), b)
  {
    if b == [] {
      assert a + b == a;
    } else {
      assert (a + b)[..|a + b| - 1] == a + b[..|b| - 1];
      RunConcat(w, a, b[..|b| - 1]);
    }
  }

  /** How often the call has been resumed. */
  function Turns(es: seq<Event>, c: CallId): nat {
    if es == [] then 0 else Turns(es[..|es| - 1], c) + if es[|es| - 1].Continue? && es[|es| - 1].call == c then 1 else 0
  }

  // ---------------------------------------------------------------------------
  // reuse
  // ---------------------------------------------------------------------------

  predicate RevokedIn(h: History, grant: Grant) {
    exists v :: 0 <= v < |h.written| && h.written[v].grant == grant && h.written[v].family.status.Revoked?
  }

  /** The call is about to find out that its token is no longer the current one, or was claimed too long ago. */
  predicate Reused(w: World, c: CallId) {
    && c in w.calls && w.calls[c].AtRead?
    && var job := w.calls[c].job;
       && job.grant in w.store.families
       && var f := w.store.families[job.grant].family;
          && f.client == job.client && f.expiresAt > w.now && !f.status.Revoked? && !ReceiptLive(f, job.token, w.now)
          && Gen(job.grant, f.generation) in w.h.commits
          && (|| job.token != w.h.commits[Gen(job.grant, f.generation)].pair.refresh
              || (f.status.Refreshing? && f.since + INFLIGHT_SECONDS <= w.now))
  }

  /** The call tried to write the revocation, and another write came first. */
  predicate LosesSwap(w: World, e: Event, c: CallId) {
    && e.Continue? && e.call == c && c in w.calls && w.calls[c].AtRevokeSwap?
    && !Matches(w, w.calls[c].grant, w.calls[c].snap)
  }

  function Lost(w: World, es: seq<Event>, c: CallId): nat {
    if es == [] then 0
    else Lost(w, es[..|es| - 1], c) + if LosesSwap(Run(w, es[..|es| - 1]), es[|es| - 1], c) then 1 else 0
  }

  /** Where a revoking call can be after so many turns and lost swaps. */
  predicate Revoking(w: World, c: CallId, grant: Grant, client: string, turns: nat, lost: nat) {
    c in w.calls && lost <= REVOKE_ATTEMPTS &&
    match w.calls[c]
    case AtRevokeRead(g, cl, n, after) =>
      g == grant && cl == client && n == lost < REVOKE_ATTEMPTS && after.Denied? && turns == 2 * lost
    case AtRevokeSwap(g, cl, n, after, _) =>
      g == grant && cl == client && n == lost < REVOKE_ATTEMPTS && after.Denied? && turns == 2 * lost + 1
    case Done(r) => r.Denied? && (RevokedIn(w.h, grant) || lost == REVOKE_ATTEMPTS)
    case _ => false
  }

  lemma RevokedStays(h: History, h': History, grant: Grant)
    requires RevokedIn(h, grant) && h.written <= h'.written
    ensures RevokedIn(h', grant)
  {
    var v :| 0 <= v < |h.written| && h.written[v].grant == grant && h.written[v].family.status.Revoked?;
    assert h'.written[v] == h.written[v];
  }

  lemma ReadTurn(w: World, c: CallId, choice: Choice, grant: Grant, client: string, deadline: real, turns: nat, lost: nat)
    requires Safe(w) && Revoking(w, c, grant, client, turns, lost) && w.calls[c].AtRevokeRead?
    requires FamilyIs(w, grant, client, deadline) && w.now < deadline
    ensures Revoking(Advance(w, c, choice), c, grant, client, turns + 1, lost)
  {
    hide LogOk, WrittenOk, CallOk;
    var s := w.store.families[grant];
    assert SnapOk(w.h, grant, s);
    if s.family.status.Revoked? { assert w.h.written[s.version].grant == grant; }
  }

  lemma SwapTurn(w: World, c: CallId, choice: Choice, grant: Grant, client: string, turns: nat, lost: nat)
    requires Revoking(w, c, grant, client, turns, lost) && w.calls[c].AtRevokeSwap?
    ensures var e := Continue(c, choice);
      Revoking(Advance(w, c, choice), c, grant, client, turns + 1, lost + if LosesSwap(w, e, c) then 1 else 0)
  {
    var snap := w.calls[c].snap;
    if Matches(w, grant, snap) {
      var w' := Advance(w, c, choice);
      assert w'.h.written[|w.h.written|] == Written(grant, RevokedFamily(snap.family));
    }
  }

  /** An event that neither fails the call nor loses the family. */
  predicate Spares(e: Event, c: CallId, grant: Grant) {
    e != LoseFamily(grant) && !(Own(e, c) && !e.Continue?)
  }

  lemma OwnTurn(w: World, c: CallId, choice: Choice, grant: Grant, client: string, deadline: real, turns: nat, lost: nat)
    requires Safe(w) && Revoking(w, c, grant, client, turns, lost)
    requires FamilyIs(w, grant, client, deadline) && w.now < deadline
    ensures var e := Continue(c, choice);
      Revoking(Step(w, e), c, grant, client, turns + 1, lost + if LosesSwap(w, e, c) then 1 else 0)
  {
    hide Safe, Advance, FamilyIs, RevokedIn;
    if w.calls[c].AtRevokeRead? {
      ReadTurn(w, c, choice, grant, client, deadline, turns, lost);
    } else if w.calls[c].AtRevokeSwap? {
      SwapTurn(w, c, choice, grant, client, turns, lost);
    } else {
      DoneStays(w, c, choice);
    }
  }

  lemma OtherTurn(w: World, e: Event, c: CallId, grant: Grant, client: string, turns: nat, lost: nat)
    requires Revoking(w, c, grant, client, turns, lost) && !Own(e, c)
    ensures Revoking(Step(w, e), c, grant, client, turns, lost)
  {
    hide Step, RevokedIn;
    StepWrites(w, e);
    Waits(w, e, c);
    if RevokedIn(w.h, grant) { RevokedStays(w.h, Step(w, e).h, grant); }
  }

  lemma RevokingStep(w: World, e: Event, c: CallId, grant: Grant, client: string, deadline: real, turns: nat, lost: nat)
    requires Safe(w) && Revoking(w, c, grant, client, turns, lost) && Spares(e, c, grant)
    requires FamilyIs(w, grant, client, deadline) && w.now < deadline
    ensures FamilyIs(Step(w, e), grant, client, deadline)
    ensures Revoking(Step(w, e), c, grant, client, turns + (if e.Continue? && e.call == c then 1 else 0),
                     lost + if LosesSwap(w, e, c) then 1 else 0)
  {
    FamilyStays(w, e, grant);
    hide Safe, Step, Revoking;
    if Own(e, c) {
      OwnTurn(w, c, e.choice, grant, client, deadline, turns, lost);
    } else {
      OtherTurn(w, e, c, grant, client, turns, lost);
    }
  }

  lemma DoneStays(w: World, c: CallId, choice: Choice)
    requires c in w.calls && w.calls[c].Done?
    ensures Advance(w, c, choice) == w
  {
  }

  lemma {:induction false} RevokingRun(w: World, es: seq<Event>, c: CallId, grant: Grant, client: string, deadline: real)
    requires Safe(w) && Revoking(w, c, grant, client, 0, 0) && FamilyIs(w, grant, client, deadline)
    requires (forall e | e in es :: Spares(e, c, grant)) && Run(w, es).now < deadline
    ensures Safe(Run(w, es)) && FamilyIs(Run(w, es), grant, client, deadline)
    ensures Revoking(Run(w, es), c, grant, client, Turns(es, c), Lost(w, es, c))
  {
    hide Safe, Step, Revoking, FamilyIs, Spares;
    if es != [] {
      var init, e := es[..|es| - 1], es[|es| - 1];
      RunTime(w, es, |init|);
      assert es[..|init|] == init && e in es;
      RevokingRun(w, init, c, grant, client, deadline);
      StepKeeps(Run(w, init), e);
      RevokingStep(Run(w, init), e, c, grant, client, deadline, Turns(init, c), Lost(w, init, c));
    }
  }

  lemma ReusedStep(w: World, c: CallId, choice: Choice)
    requires Safe(w) && Reused(w, c)
    ensures var w' := Advance(w, c, choice); var job := w.calls[c].job;
      && Revoking(w', c, job.grant, job.client, 0, 0) && w'.store == w.store && w'.now == w.now
  {
    hide LogOk, StoreOk, CallOk;
    var f := w.store.families[w.calls[c].job.grant].family;
    assert f.digest == w.h.commits[Gen(w.calls[c].job.grant, f.generation)].pair.refresh by {
      StoredOk(w, w.calls[c].job.grant);
    }
  }

  lemma StoredOk(w: World, grant: Grant)
    requires Safe(w) && grant in w.store.families
    ensures FamilyOk(w.h, grant, w.store.families[grant].family)
  {
    hide LogOk, FamilyOk, CallOk;
    assert SnapOk(w.h, grant, w.store.families[grant]);
  }

  /** How the run of a call ends that has begun to revoke: `lost` of its writes came too late. */
  predicate EndsRevoked(z: World, c: CallId, grant: Grant, turns: nat, lost: nat) {
    && c in z.calls && lost <= REVOKE_ATTEMPTS
    && (z.calls[c].Done? ==> z.calls[c].result == Denied)
    && (z.calls[c].Done? && lost < REVOKE_ATTEMPTS ==> RevokedIn(z.h, grant))
    && (turns >= 2 * lost + 2 ==> z.calls[c].Done?)
  }

  /** Neither the call fails, nor is the family lost, and it does not expire. */
  predicate Spared(w: World, es: seq<Event>, c: CallId, grant: Grant, deadline: real) {
    (forall e | e in es :: Spares(e, c, grant)) && Run(w, es).now < deadline
  }

  lemma RevokesFrom(now: real, es: seq<Event>, more: seq<Event>, c: CallId, grant: Grant, client: string, deadline: real)
    requires Revoking(Run(EmptyWorld(now), es), c, grant, client, 0, 0)
    requires FamilyIs(Run(EmptyWorld(now), es), grant, client, deadline)
    requires Spared(Run(EmptyWorld(now), es), more, c, grant, deadline)
    ensures EndsRevoked(Run(EmptyWorld(now), es + more), c, grant, Turns(more, c), Lost(Run(EmptyWorld(now), es), more, c))
  {
    hide Run, Safe, Spares;
    SafeAlways(now, es);
    RunConcat(EmptyWorld(now), es, more);
    RevokingRun(Run(EmptyWorld(now), es), more, c, grant, client, deadline);
  }

  /**
   * Reuse of a refresh token: a call of the family's own client reads an unexpired, unrevoked family whose
   * current token is another one, or is being renewed for 45 seconds already, and no live receipt covers
   * the token. Unless the call itself fails, or the family is lost or expires: when the call is over it was
   * denied, and the family has been revoked, or eight of its writes lost against others. Two turns more
   * than twice the lost ones are enough.
   */
  lemma ReuseRevokes(now: real, es: seq<Event>, choice: Choice, more: seq<Event>, c: CallId)
    requires Reused(Run(EmptyWorld(now), es), c)
    requires var w := Run(EmptyWorld(now), es); var grant := w.calls[c].job.grant;
      Spared(Run(EmptyWorld(now), es + [Continue(c, choice)]), more, c, grant, w.store.families[grant].family.expiresAt)
    ensures var first := es + [Continue(c, choice)];
      EndsRevoked(Run(EmptyWorld(now), first + more), c, Run(EmptyWorld(now), es).calls[c].job.grant,
                  Turns(more, c), Lost(Run(EmptyWorld(now), first), more, c))
  {
    hide Run, Safe, Advance, Spared, EndsRevoked;
    var w := Run(EmptyWorld(now), es);
    var job := w.calls[c].job;
    SafeAlways(now, es);
    RunPlus(now, es, Continue(c, choice));
    ReusedStep(w, c, choice);
    RevokesFrom(now, es + [Continue(c, choice)], more, c, job.grant, job.client, w.store.families[job.grant].family.expiresAt);
  }

  /** The upstream answer renews the family and leaves a second or more. */
  predicate GoodAnswer(w: World, choice: Choice, f: Family) {
    && choice.tokens.Some? && NextFamily(f, choice.tokens.value).upstream.Some?
    && MinReal(choice.identityExpiresAt, f.expiresAt) - w.now >= 1.0
  }

  /** The call has won the claim of its generation, and is renewing. */
  predicate Renewing(pc: Pc) {
    pc.AtUpstream? || pc.AtPutAccess? || pc.AtPutRefresh? || pc.AtReadBack? || pc.AtCommit?
  }

  /** The renewal goes wrong in this step: it throws, a write stays unanswered, or the upstream answer is no good. */
  predicate GoesWrong(w: World, e: Event, c: CallId) {
    && c in w.calls && Renewing(w.calls[c]) && Own(e, c)
    && (e.Continue? ==> w.calls[c].AtUpstream? && !GoodAnswer(w, e.choice, w.calls[c].claimed))
  }

  lemma WrongStep(w: World, e: Event, c: CallId)
    requires GoesWrong(w, e, c)
    ensures var job := JobOf(w.calls[c]).value; Revoking(Step(w, e), c, job.grant, job.client, 0, 0)
  {
    hide Mint, NewPair, PutAccess, PutReference, Swap, NextFamily;
  }

  /** The stored family of a renewing call is of its client. */
  lemma RenewingClient(w: World, c: CallId)
    requires Safe(w) && c in w.calls && Renewing(w.calls[c])
    requires JobOf(w.calls[c]).value.grant in w.store.families
    ensures var job := JobOf(w.calls[c]).value; w.store.families[job.grant].family.client == job.client
  {
    hide LogOk, FamilyOk, Prepared, JobOk, TriedOk, Later;
    Waiting(w, c);
    var job := JobOf(w.calls[c]).value;
    assert Owns(w.h, c, job, w.calls[c].claimed);
    var v := w.h.claims[Gen(job.grant, job.generation)].version;
    var s := w.store.families[job.grant];
    assert SnapOk(w.h, job.grant, s) && w.h.written[v].grant == job.grant;
  }

  /**
   * Once a renewal may have used up the upstream token, every failure of it revokes: with the same
   * provisos the call ends denied, and the family revoked.
   */
  lemma FailedRenewalRevokes(now: real, es: seq<Event>, e: Event, more: seq<Event>, c: CallId)
    requires GoesWrong(Run(EmptyWorld(now), es), e, c)
    requires var w := Run(EmptyWorld(now), es); var grant := JobOf(w.calls[c]).value.grant;
      && grant in w.store.families
      && Spared(Run(EmptyWorld(now), es + [e]), more, c, grant, w.store.families[grant].family.expiresAt)
    ensures EndsRevoked(Run(EmptyWorld(now), es + [e] + more), c, JobOf(Run(EmptyWorld(now), es).calls[c]).value.grant,
                        Turns(more, c), Lost(Run(EmptyWorld(now), es + [e]), more, c))
  {
    hide Run, Safe, Step, Spared, EndsRevoked;
    var w := Run(EmptyWorld(now), es);
    var job := JobOf(w.calls[c]).value;
    SafeAlways(now, es);
    RunPlus(now, es, e);
    WrongStep(w, e, c);
    RenewingClient(w, c);
    FamilyStays(w, e, job.grant);
    RevokesFrom(now, es + [e], more, c, job.grant, job.client, w.store.families[job.grant].family.expiresAt);
  }

  // ---------------------------------------------------------------------------
  // a current token
  // ---------------------------------------------------------------------------

  /** The token is the one committed for the current generation of an active family of the client. */
  predicate Current(w: World, token: Token, client: string, grant: Grant) {
    && token in w.store.references && w.store.references[token].client == client && w.store.references[token].grant == grant
    && grant in w.store.families
    && var f := w.store.families[grant].family;
       && f.status.Active? && f.client == client
       && Gen(grant, f.generation) in w.h.commits && token == w.h.commits[Gen(grant, f.generation)].pair.refresh
  }

  /**
   * Until the call is over: its own events are turns, with a good upstream answer where that is asked for;
   * no other event touches the stored family, or the token's record before it was looked up.
   */
  predicate Undisturbed(w: World, e: Event, c: CallId, token: Token, grant: Grant, f: Family) {
    c in w.calls && !w.calls[c].Done? ==>
      if Own(e, c) then e.Continue? && (w.calls[c].AtUpstream? ==> GoodAnswer(w, e.choice, f))
      else
        && ReadFamily(Step(w, e), grant) == ReadFamily(w, grant)
        && (w.calls[c].AtLookup? && token in w.store.references ==>
              token in Step(w, e).store.references && Step(w, e).store.references[token] == w.store.references[token])
  }

  /** What the family has to be like when the call starts. */
  predicate Fit(s: Snap, token: Token, client: string) {
    && s.family.status.Active? && s.family.client == client && s.family.digest == token
    && (s.family.receipt.Some? ==> s.family.receipt.value.digest != token)
  }

  predicate Claimed(f: Family, claimed: Family) { claimed == f.(status := Refreshing, since := claimed.since) }

  /** Where the call is after `n` turns. */
  predicate Stage(w: World, c: CallId, token: Token, client: string, grant: Grant, s: Snap, n: nat) {
    var job := Job(client, token, grant, s.family.generation, 0, None);
    var tried := job.(attempts := 1, tried := Some(s.version));
    && c in w.calls && (n < 8 ==> grant in w.store.families)
    && (n <= 2 ==> w.store.families[grant] == s)
    && match w.calls[c]
       case AtLookup(cl, t) =>
         && n == 0 && cl == client && t == token
         && token in w.store.references && w.store.references[token] == Reference(client, grant, s.family.generation)
       case AtRead(j) => n == 1 && j == job
       case AtClaim(j, snap, claimed) => n == 2 && j == job && snap == s && Claimed(s.family, claimed)
       case AtUpstream(j, claimed) =>
         n == 3 && j == tried && Claimed(s.family, claimed) && w.store.families[grant].family == claimed
       case AtPutAccess(j, claimed, next, _) =>
         && n == 4 && j == tried && Claimed(s.family, claimed) && w.store.families[grant].family == claimed
         && next.expiresAt == s.family.expiresAt
       case AtPutRefresh(j, claimed, next, _) =>
         && n == 5 && j == tried && Claimed(s.family, claimed) && w.store.families[grant].family == claimed
         && next.expiresAt == s.family.expiresAt
       case AtReadBack(j, claimed, next, _) =>
         && n == 6 && j == tried && Claimed(s.family, claimed) && w.store.families[grant].family == claimed
         && next.expiresAt == s.family.expiresAt
       case AtCommit(j, _, _, snap, _) => n == 7 && j == tried && w.store.families[grant] == snap
       case Done(r) => n >= 8 && r.Granted? && r.token == token
       case _ => false
  }

  lemma NextStage(w: World, c: CallId, choice: Choice, token: Token, client: string, grant: Grant, s: Snap, n: nat)
    requires Stage(w, c, token, client, grant, s, n) && Fit(s, token, client) && w.now < s.family.expiresAt && !w.calls[c].Done?
    requires w.calls[c].AtUpstream? ==> GoodAnswer(w, choice, s.family)
    ensures Stage(Advance(w, c, choice), c, token, client, grant, s, n + 1)
  {
    hide Mint, NewPair, MinReal, NextFamily;
    match w.calls[c]
    case AtUpstream(j, claimed) => UpstreamStage(w, c, choice, token, client, grant, s);
    case _ =>
  }

  lemma UpstreamStage(w: World, c: CallId, choice: Choice, token: Token, client: string, grant: Grant, s: Snap)
    requires Stage(w, c, token, client, grant, s, 3) && Fit(s, token, client) && w.now < s.family.expiresAt
    requires GoodAnswer(w, choice, s.family) && w.calls[c].AtUpstream?
    ensures Stage(Advance(w, c, choice), c, token, client, grant, s, 4)
  {
  }

  lemma SameStage(w: World, e: Event, c: CallId, token: Token, client: string, grant: Grant, s: Snap, n: nat)
    requires Stage(w, c, token, client, grant, s, n) && !Own(e, c) && Undisturbed(w, e, c, token, grant, s.family)
    ensures Stage(Step(w, e), c, token, client, grant, s, n)
  {
    hide Step;
    Waits(w, e, c);
  }

  lemma OverStays(w: World, e: Event, c: CallId)
    requires c in w.calls && w.calls[c].Done? && Own(e, c)
    ensures c in Step(w, e).calls && Step(w, e).calls[c] == w.calls[c]
  {
  }

  lemma StageStep(w: World, e: Event, c: CallId, token: Token, client: string, grant: Grant, s: Snap, n: nat)
    requires Stage(w, c, token, client, grant, s, n) && Fit(s, token, client) && w.now < s.family.expiresAt
    requires Undisturbed(w, e, c, token, grant, s.family)
    ensures Stage(Step(w, e), c, token, client, grant, s, n + if e.Continue? && e.call == c then 1 else 0)
  {
    hide Advance, Fit;
    if Own(e, c) {
      if w.calls[c].Done? {
        OverStays(w, e, c);
        hide Step;
      } else {
        NextStage(w, c, e.choice, token, client, grant, s, n);
        hide Stage;
      }
    } else {
      SameStage(w, e, c, token, client, grant, s, n);
      hide Stage, Step;
    }
  }

  lemma {:induction false} StageRun(w: World, es: seq<Event>, c: CallId, token: Token, client: string, grant: Grant, s: Snap, k: nat)
    requires Stage(w, c, token, client, grant, s, 0) && Fit(s, token, client) && Run(w, es).now < s.family.expiresAt && k <= |es|
    requires forall i | 0 <= i < k :: Undisturbed(Run(w, es[..i]), es[i], c, token, grant, s.family)
    ensures Stage(Run(w, es[..k]), c, token, client, grant, s, Turns(es[..k], c))
  {
    hide Step, Stage, Undisturbed, Fit;
    if k == 0 {
      assert es[..0] == [];
    } else {
      StageRun(w, es, c, token, client, grant, s, k - 1);
      var v, e := Run(w, es[..k - 1]), es[k - 1];
      assert es[..k][..k - 1] == es[..k - 1] && es[..k][k - 1] == e;
      RunTime(w, es, k - 1);
      StageStep(v, e, c, token, client, grant, s, Turns(es[..k - 1], c));
    }
  }

  lemma TokenOfGeneration(h: History, grant: Grant, n: nat)
    requires CommitsOk(h) && PairsOk(h) && Gen(grant, n) in h.commits
    ensures h.commits[Gen(grant, n)].pair.refresh in h.refreshOf
    ensures h.refreshOf[h.commits[Gen(grant, n)].pair.refresh] == Gen(grant, n)
  {
  }

  /** A stored family's digest is its committed token, and a receipt is for the token before. */
  lemma Digests(w: World, grant: Grant)
    requires Safe(w) && grant in w.store.families
    ensures var f := w.store.families[grant].family;
      && Gen(grant, f.generation) in w.h.commits && f.digest == w.h.commits[Gen(grant, f.generation)].pair.refresh
      && f.digest in w.h.refreshOf && w.h.refreshOf[f.digest] == Gen(grant, f.generation)
      && (f.receipt.Some? ==> f.receipt.value.digest != f.digest)
  {
    hide CallOk, WrittenOk, StoreOk, ClaimsOk, UpstreamOk, CommitsOk, PairsOk, TokensOk;
    StoredOk(w, grant);
    var f := w.store.families[grant].family;
    TokenOfGeneration(w.h, grant, f.generation);
    if f.receipt.Some? { TokenOfGeneration(w.h, grant, f.generation - 1); }
  }

  lemma CurrentFits(w: World, token: Token, client: string, grant: Grant)
    requires Safe(w) && Current(w, token, client, grant)
    ensures var s := w.store.families[grant];
      Fit(s, token, client) && w.store.references[token] == Reference(client, grant, s.family.generation)
  {
    Digests(w, grant);
    hide CallOk, WrittenOk, LogOk, FamilyOk;
  }

  predicate KeepsToken(h: History, h': History, token: Token) {
    token in h.refreshOf ==> token in h'.refreshOf && h'.refreshOf[token] == h.refreshOf[token]
  }

  lemma Known(w: World, token: Token)
    requires Safe(w) && token in w.h.refreshOf
    ensures token < w.h.next
  {
  }

  lemma TokenStays(w: World, e: Event, token: Token)
    requires Safe(w) && token in w.h.refreshOf
    ensures KeepsToken(w.h, Step(w, e).h, token)
  {
    Known(w, token);
    hide Safe, Advance, Begin, Throw, Unanswered, KeepsToken;
    KeptBySame(w.h, Step(w, e).h, token);
    match e
    case Continue(c, choice) => if c in w.calls { TokenKept(w, c, choice, token); }
    case LoseReply(c, choice) => if c in w.calls { LostReplyKeepsToken(w, c, choice, token); }
    case Start(c, op) => if c !in w.calls { BeginKeepsToken(w, c, op, token); }
    case Fail(c) => if c in w.calls { ThrowKeepsHistory(w, c); }
    case _ =>
  }

  lemma KeptBySame(h: History, h': History, token: Token)
    ensures h' == h ==> KeepsToken(h, h', token)
  {
  }

  lemma ThrowKeepsHistory(w: World, c: CallId)
    requires c in w.calls
    ensures Throw(w, c).h == w.h
  {
  }

  lemma LostReplyKeepsToken(w: World, c: CallId, choice: Choice, token: Token)
    requires c in w.calls && token in w.h.refreshOf && token < w.h.next
    ensures KeepsToken(w.h, Unanswered(w, c, choice).h, token)
  {
    TokenKept(w, c, choice, token);
    ThrowKeepsHistory(w, c);
    hide Advance, Throw;
  }

  lemma BeginKeepsToken(w: World, c: CallId, op: Operation, token: Token)
    requires token in w.h.refreshOf && token < w.h.next
    ensures KeepsToken(w.h, Begin(w, c, op).h, token)
  {
    hide MinReal;
  }

  lemma TokenKept(w: World, c: CallId, choice: Choice, token: Token)
    requires c in w.calls && token in w.h.refreshOf && token < w.h.next
    ensures KeepsToken(w.h, Advance(w, c, choice).h, token)
  {
    hide Matches, MinReal, NextFamily, RevokedFamily, ReceiptLive, TtlPositive, ReadFamily;
    match w.calls[c]
    case AtUpstream(job, claimed) => UpstreamKeepsToken(w, c, job, claimed, choice, token);
    case AtClaim(job, snap, claimed) => assert StepClaim(w, c, job, snap, claimed).h.refreshOf == w.h.refreshOf;
    case AtCommit(job, _, pair, snap, final) => assert StepCommit(w, c, job, pair, snap, final).h.refreshOf == w.h.refreshOf;
    case AtReadBack(job, claimed, next, pair) => assert StepReadBack(w, c, job, claimed, next, pair).h == w.h;
    case AtRead(job) => assert StepRead(w, c, job, choice.giveUp).h == w.h;
    case _ =>
  }

  lemma UpstreamKeepsToken(w: World, c: CallId, job: Job, claimed: Family, choice: Choice, token: Token)
    requires token in w.h.refreshOf && token < w.h.next
    ensures KeepsToken(w.h, StepUpstream(w, c, job, claimed, choice).h, token)
  {
    hide MinReal, NextFamily;
  }

  lemma {:induction false} TokenForEver(now: real, es: seq<Event>, more: seq<Event>, token: Token)
    requires token in Run(EmptyWorld(now), es).h.refreshOf
    ensures var z := Run(EmptyWorld(now), es + more);
      token in z.h.refreshOf && z.h.refreshOf[token] == Run(EmptyWorld(now), es).h.refreshOf[token]
  {
    hide Step, Safe;
    if more == [] {
      assert es + more == es;
    } else {
      var init, e := more[..|more| - 1], more[|more| - 1];
      assert (es + more)[..|es + more| - 1] == es + init;
      TokenForEver(now, es, init, token);
      SafeAlways(now, es + init);
      TokenStays(Run(EmptyWorld(now), es + init), e, token);
    }
  }

  /**
   * A current token of an active family is granted: unless the call fails, the family is touched by others
   * or expires, or the upstream answer is no good, the eighth turn ends it with the pair that is committed
   * for the next generation, and it does not end before or otherwise.
   */
  lemma CurrentIsGranted(now: real, es: seq<Event>, more: seq<Event>, c: CallId, token: Token, client: string, grant: Grant)
    requires var w := Run(EmptyWorld(now), es); Current(w, token, client, grant) && c !in w.calls
    requires var w := Run(EmptyWorld(now), es); var start := Step(w, Start(c, Refresh(client, token)));
      && (forall i | 0 <= i < |more| ::
            Undisturbed(Run(start, more[..i]), more[i], c, token, grant, w.store.families[grant].family))
      && Run(start, more).now < w.store.families[grant].family.expiresAt
    ensures var w := Run(EmptyWorld(now), es); var z := Run(EmptyWorld(now), es + ([Start(c, Refresh(client, token))] + more));
      && c in z.calls && (z.calls[c].Done? <==> Turns(more, c) >= 8)
      && (z.calls[c].Done? ==>
            var next := Gen(grant, w.store.families[grant].family.generation + 1);
            next in z.h.commits && z.calls[c].result == Granted(token, z.h.commits[next].pair))
  {
    hide Run, Safe, Undisturbed, Advance;
    var w := Run(EmptyWorld(now), es);
    var e := Start(c, Refresh(client, token));
    var start := Step(w, e);
    var s := w.store.families[grant];
    SafeAlways(now, es);
    CurrentFits(w, token, client, grant);
    Digests(w, grant);
    assert Stage(start, c, token, client, grant, s, 0);
    assert more[..|more|] == more;
    StageRun(start, more, c, token, client, grant, s, |more|);
    RunPlus(now, es, e);
    RunConcat(EmptyWorld(now), es + [e], more);
    assert es + ([e] + more) == es + [e] + more;
    var z := Run(EmptyWorld(now), es + ([e] + more));
    hide Step;
    if z.calls[c].Done? {
      GrantIsNextGeneration(now, es + ([e] + more), c);
      TokenForEver(now, es, [e] + more, token);
    }
  }
}
