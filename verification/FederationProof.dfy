/**
 Login proofs: a nonce that the identity provider records for the provider a user actually came
 from, and that one browser login may consume, once and within ten minutes. One clock is assumed.
 */
module FederationProof {
  import opened Prelude

  const LIFETIME := 600000

  datatype Proof = Proof(providerId: string, createdAt: int, consumedAt: Option<int>)

  type Proofs = map<string, Proof>

  predicate TokenChar(c: char) {
    'A' <= c <= 'Z' || 'a' <= c <= 'z' || '0' <= c <= '9' || c == '_' || c == '-'
  }

  predicate ValidNonce(s: string) {
    |s| == 43 && forall c | c in s :: TokenChar(c)
  }

  predicate ValidProvider(s: string) {
    1 <= |s| <= 256 && forall c | c in s :: TokenChar(c)
  }

  datatype RecordReply = Accepted | Unauthorized | BadRequest | Conflict

  predicate Fresh(p: Proof, now: int) {
    p.createdAt >= now - LIFETIME
  }

  /** The first record of a nonce stays; a repetition is accepted while it could still be used. */
  function Record(proofs: Proofs, authorized: bool, nonce: string, providerId: string, now: int): (Proofs, RecordReply) {
    if !authorized then (proofs, Unauthorized) else
    if !ValidNonce(nonce) || !ValidProvider(providerId) then (proofs, BadRequest) else
    if nonce !in proofs then (proofs[nonce := Proof(providerId, now, None)], Accepted) else
    var p := proofs[nonce];
    (proofs, if p.providerId == providerId && p.consumedAt.None? && Fresh(p, now) then Accepted else Conflict)
  }

  predicate Consumable(proofs: Proofs, nonce: string, providerId: string, now: int) {
    && ValidNonce(nonce) && ValidProvider(providerId) && nonce in proofs
    && proofs[nonce].providerId == providerId && proofs[nonce].consumedAt.None? && Fresh(proofs[nonce], now)
  }

  /** One conditional update: of two concurrent ones, the second finds the proof consumed. */
  function Consume(proofs: Proofs, nonce: string, providerId: string, now: int): (Proofs, bool) {
    if Consumable(proofs, nonce, providerId, now)
    then (proofs[nonce := proofs[nonce].(consumedAt := Some(now))], true)
    else (proofs, false)
  }

  // ---- Browser logins ----------------------------------------------------------------------

  /** The provider row a login selected. */
  datatype Selected = Selected(enabled: bool, zitadelId: Option<string>)

  /** `claim` is the provider in the signed token, if it names one. */
  datatype Login = Login(claim: Option<string>, selection: Option<Option<Selected>>, nonce: Option<string>, rejectFederated: bool)

  datatype Outcome = Refused | Authenticated(providerId: Option<string>)

  function RejectIf(reject: bool, providerId: Option<string>): Outcome {
    if reject && providerId.Some? then Refused else Authenticated(providerId)
  }

  /** Which provider the login came from: the result, and the proofs, one of which may be used up. */
  function Authenticate(proofs: Proofs, l: Login, now: int): (Proofs, Outcome) {
    if l.selection.None? then (proofs, RejectIf(l.rejectFederated, l.claim)) else
    var selected := l.selection.value;
    if selected.None? || !selected.value.enabled || selected.value.zitadelId.None? || selected.value.zitadelId == Some("")
    then (proofs, Refused) else
    var wanted := selected.value.zitadelId.value;
    if l.claim.Some? then (proofs, if l.claim.value == wanted then RejectIf(l.rejectFederated, l.claim) else Refused) else
    if l.nonce.None? then (proofs, Refused) else
    var (after, consumed) := Consume(proofs, l.nonce.value, wanted, now);
    (after, if consumed then RejectIf(l.rejectFederated, Some(wanted)) else Refused)
  }

  // ---- Runs ------------------------------------------------------------------------------------

  datatype Action =
    | DoRecord(authorized: bool, nonce: string, providerId: string)
    | DoConsume(nonce: string, providerId: string)
    | DoLogin(login: Login)

  datatype Event = Event(now: int, action: Action)

  /** A successful consumption. */
  datatype Use = Use(nonce: string, providerId: string, at: int)

  datatype State = State(proofs: Proofs, uses: seq<Use>)

  function Next(s: State, e: Event): State {
    match e.action
    case DoRecord(authorized, nonce, provider) => s.(proofs := Record(s.proofs, authorized, nonce, provider, e.now).0)
    case DoConsume(nonce, provider) =>
      var (after, consumed) := Consume(s.proofs, nonce, provider, e.now);
      State(after, s.uses + if consumed then [Use(nonce, provider, e.now)] else [])
    case DoLogin(l) =>
      var after := Authenticate(s.proofs, l, e.now).0;
      State(after, s.uses + if after != s.proofs then [UseOf(l, e.now)] else [])
  }

  /** The proof that a login used up, if it did. */
  function UseOf(l: Login, now: int): Use {
    Use(if l.nonce.Some? then l.nonce.value else "",
        if l.selection.Some? && l.selection.value.Some? && l.selection.value.value.zitadelId.Some?
        then l.selection.value.value.zitadelId.value else "", now)
  }

  function Run(events: seq<Event>): State {
    if events == [] then State(map[], []) else Next(Run(events[..|events| - 1]), events[|events| - 1])
  }

  predicate InOrder(events: seq<Event>) {
    forall i, j | 0 <= i < j < |events| :: events[i].now <= events[j].now
  }

  /** A use belongs to a proof of its nonce that is consumed then, by that provider, in time. */
  predicate UseOk(proofs: Proofs, u: Use) {
    && u.nonce in proofs && proofs[u.nonce].consumedAt == Some(u.at) && proofs[u.nonce].providerId == u.providerId
    && proofs[u.nonce].createdAt <= u.at <= proofs[u.nonce].createdAt + LIFETIME
  }

  predicate Inv(s: State, now: int) {
    && (forall n | n in s.proofs :: s.proofs[n].createdAt <= now)
    && (forall u | u in s.uses :: UseOk(s.proofs, u))
    && (forall i, j | 0 <= i < j < |s.uses| :: s.uses[i].nonce != s.uses[j].nonce)
  }

  /** What was recorded first for a nonce stays, and a consumed proof stays consumed. */
  ghost predicate Keeps(before: Proofs, after: Proofs) {
    forall n :: n in before ==>
      n in after && after[n].providerId == before[n].providerId && after[n].createdAt == before[n].createdAt &&
      (before[n].consumedAt.Some? ==> after[n] == before[n])
  }

  /** A step either leaves the uses, or adds one of a proof that could be consumed. */
  lemma StepUses(s: State, e: Event)
    ensures Keeps(s.proofs, Next(s, e).proofs)
    ensures Next(s, e).uses == s.uses ||
      exists u :: Next(s, e).uses == s.uses + [u] && u.at == e.now && Consumable(s.proofs, u.nonce, u.providerId, e.now) &&
                  Next(s, e).proofs == s.proofs[u.nonce := s.proofs[u.nonce].(consumedAt := Some(e.now))]
    ensures Next(s, e).uses == s.uses && Next(s, e).proofs != s.proofs ==>
      e.action.DoRecord? && e.action.nonce !in s.proofs &&
      Next(s, e).proofs == s.proofs[e.action.nonce := Proof(e.action.providerId, e.now, None)]
  {
    match e.action
    case DoRecord(_, _, _) =>
    case DoConsume(nonce, provider) =>
      if Consumable(s.proofs, nonce, provider, e.now) {
        var u := Use(nonce, provider, e.now);
        assert Next(s, e).uses == s.uses + [u];
      }
    case DoLogin(l) =>
      if Authenticate(s.proofs, l, e.now).0 != s.proofs {
        var u := UseOf(l, e.now);
        assert Next(s, e).uses == s.uses + [u];
      }
  }

  lemma NextKeepsInv(s: State, e: Event, now: int)
    requires Inv(s, now) && now <= e.now
    ensures Inv(Next(s, e), e.now)
  {
    StepUses(s, e);
    var t := Next(s, e);
    if t.uses != s.uses {
      var u :| t.uses == s.uses + [u] && u.at == e.now && Consumable(s.proofs, u.nonce, u.providerId, e.now) &&
               t.proofs == s.proofs[u.nonce := s.proofs[u.nonce].(consumedAt := Some(e.now))];
      forall v | v in s.uses ensures v.nonce != u.nonce && UseOk(t.proofs, v) {
        assert UseOk(s.proofs, v);
      }
      forall i | 0 <= i < |s.uses| ensures s.uses[i].nonce != u.nonce {
        assert s.uses[i] in s.uses;
      }
    } else {
      forall v | v in t.uses ensures UseOk(t.proofs, v) {
        assert UseOk(s.proofs, v);
      }
    }
  }

  lemma {:induction false} RunKeepsInv(events: seq<Event>)
    requires InOrder(events)
    ensures events == [] ==> Run(events) == State(map[], [])
    ensures events != [] ==> Inv(Run(events), events[|events| - 1].now)
  {
    if events != [] {
      var init, e := events[..|events| - 1], events[|events| - 1];
      RunKeepsInv(init);
      NextKeepsInv(Run(init), e, if init == [] then e.now else init[|init| - 1].now);
    }
  }

  /** In every run a nonce is consumed at most once, by the provider it was first recorded for, and
      within ten minutes of that. */
  lemma ConsumedAtMostOnce(events: seq<Event>, i: nat, j: nat)
    requires InOrder(events) && i < |Run(events).uses| && j < |Run(events).uses|
    ensures Run(events).uses[i].nonce == Run(events).uses[j].nonce ==> i == j
    ensures UseOk(Run(events).proofs, Run(events).uses[i])
  {
    RunKeepsInv(events);
    assert Run(events).uses[i] in Run(events).uses;
  }

  lemma {:induction false} FirstRecordStays(events: seq<Event>, more: seq<Event>)
    ensures Keeps(Run(events).proofs, Run(events + more).proofs)
  {
    if more == [] {
      assert events + more == events;
    } else {
      var init := more[..|more| - 1];
      FirstRecordStays(events, init);
      assert (events + more)[..|events + more| - 1] == events + init;
      StepUses(Run(events + init), more[|more| - 1]);
    }
  }

  /** A record is accepted exactly if a login of that provider could consume it at that moment. */
  lemma AcceptedMeansUsable(proofs: Proofs, nonce: string, providerId: string, now: int)
    ensures var (after, reply) := Record(proofs, true, nonce, providerId, now);
      reply == Accepted <==> Consumable(after, nonce, providerId, now)
  {
  }

  /** A login that selected a provider is only ever authenticated as that provider, and only because
      the signed token says so or because it has just consumed a proof recorded for it. */
  lemma ProviderHasProvenance(proofs: Proofs, l: Login, now: int)
    requires Authenticate(proofs, l, now).1.Authenticated?
    ensures var (after, outcome) := Authenticate(proofs, l, now);
      if l.selection.None? then outcome.providerId == l.claim && after == proofs
      else
        && l.selection.value.Some? && l.selection.value.value.enabled
        && outcome.providerId == l.selection.value.value.zitadelId && outcome.providerId.Some?
        && (if l.claim.Some? then l.claim == outcome.providerId && after == proofs
            else l.nonce.Some? && Consumable(proofs, l.nonce.value, outcome.providerId.value, now) &&
                 after == proofs[l.nonce.value := proofs[l.nonce.value].(consumedAt := Some(now))])
    ensures l.rejectFederated ==> Authenticate(proofs, l, now).1.providerId == None
  {
  }

  /** Two logins with one nonce: at most one of them is authenticated by it. */
  lemma NonceServesOneLogin(proofs: Proofs, a: Login, b: Login, t: int, u: int)
    requires a.selection.Some? && b.selection.Some? && a.claim.None? && b.claim.None? && a.nonce == b.nonce
    requires Authenticate(proofs, a, t).1.Authenticated?
    ensures Authenticate(Authenticate(proofs, a, t).0, b, u).1 == Refused
  {
    ProviderHasProvenance(proofs, a, t);
  }
}
