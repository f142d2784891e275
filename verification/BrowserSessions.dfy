/**
 Refreshing one browser session from many API replicas.

 All replicas share one session row, one advisory lock for that row, and an
 identity provider that rotates refresh tokens. The protocol is a state machine
 whose events are the statements of the refresh path, the other writers of the
 row, the provider and the clock. An event that is not enabled leaves the state
 alone, so every sequence of events is a run.

 A replica keeps one promise per session: a request that finds one awaits it.
 `workers[w]` is that promise of replica `w`.
 */
module BrowserSessions {
  import opened Prelude

  type Token = nat

  /** Encryption never returns the same text twice, so a ciphertext is the index
      of the plaintext in the list of everything sealed so far. */
  datatype Cipher = Blank | Sealed(index: nat)

  datatype Row = Row(
    user: nat,
    refreshToken: Cipher,
    accessTokenExpiresAt: int,
    lastSeenAt: int,
    expiresAt: int,
    revokedAt: Option<int>,
    authenticatedIdp: Option<nat>,
    userActive: bool)

  /** The provider honours at most one refresh token of the grant. `next` is fresh. */
  datatype Provider = Provider(honoured: Option<Token>, rotated: set<Token>, next: Token)

  datatype Failure = SessionInvalid | RefreshTokenMissing | InvalidGrant | Transient

  /** Where one refresh stands. `seen` is the row as read before the lock, `found` the row
      read under it at time `foundAt`, and `open` says the transaction still holds the lock. */
  datatype Phase =
    | Idle
    | Waiting(seen: Row)
    | Exchanging(seen: Row, found: Row, foundAt: int, open: bool)
    | Granted(seen: Row, found: Row, foundAt: int, replacement: Option<Token>, ttl: nat, open: bool)
    | Failed(seen: Row, found: Row, foundAt: int, why: Failure)
    | Revoking(seen: Row, found: Row, foundAt: int, why: Failure)

  /** `staleShown` records that a token was presented after the provider had rotated it. */
  datatype State = State(
    now: int,
    idleMs: int,
    row: Row,
    vault: seq<Token>,
    lock: Option<nat>,
    workers: seq<Phase>,
    provider: Provider,
    staleShown: bool)

  datatype Reply = Grant(rotates: bool, ttl: nat) | Denied | Unreachable(rotatedAnyway: bool)

  datatype Event =
    | Tick(elapsed: nat)
    | Authenticate(w: nat)
    | Acquire(w: nat)
    | Exchange(w: nat, reply: Reply)
    | Commit(w: nat)
    | Abort(w: nat)
    | Inspect(w: nat)
    | CompareAndRevoke(w: nat)
    | Touch
    | Revoke
    | Prune
    | SetUserActive(active: bool)
    | ProviderWithdraws

  predicate Usable(row: Row, now: int, idleMs: int) {
    row.revokedAt.None? && row.expiresAt > now && row.lastSeenAt + idleMs > now && row.userActive
  }

  function Revoked(row: Row, at: int): Row {
    if row.revokedAt.None? then row.(revokedAt := Some(at)) else row
  }

  function Plain(s: State, c: Cipher): (t: Option<Token>) {
    if c.Sealed? && c.index < |s.vault| then Some(s.vault[c.index]) else None
  }

  function Generation(c: Cipher): nat {
    match c case Blank => 0 case Sealed(i) => i + 1
  }

  predicate InTransaction(p: Phase) {
    (p.Exchanging? || p.Granted?) && p.open
  }

  /** A transaction that ends in phase `p` gives the lock back if it had it. */
  function Leave(s: State, w: nat, p: Phase): State
    requires w < |s.workers|
  {
    s.(workers := s.workers[w := p], lock := if InTransaction(s.workers[w]) then None else s.lock)
  }

  function DoAuthenticate(s: State, w: nat): State
    requires w < |s.workers|
  {
    if !Usable(s.row, s.now, s.idleMs) then s.(row := Revoked(s.row, s.now))
    else if s.row.accessTokenExpiresAt > s.now then s.(row := s.row.(lastSeenAt := s.now))
    else if s.workers[w].Idle? then s.(workers := s.workers[w := Waiting(s.row)])
    else s
  }

  /** The lock is granted and the row is read again under it. */
  function DoAcquire(s: State, w: nat): State
    requires w < |s.workers| && s.workers[w].Waiting?
  {
    var seen := s.workers[w].seen;
    if !Usable(s.row, s.now, s.idleMs) then
      s.(workers := s.workers[w := Failed(seen, s.row, s.now, SessionInvalid)])
    else if s.row.accessTokenExpiresAt > s.now then
      s.(workers := s.workers[w := Idle])
    else if s.row.refreshToken.Blank? then
      s.(workers := s.workers[w := Failed(seen, s.row, s.now, RefreshTokenMissing)])
    else
      s.(workers := s.workers[w := Exchanging(seen, s.row, s.now, true)], lock := Some(w))
  }

  function Rotate(p: Provider, t: Token): Provider {
    Provider(Some(p.next), p.rotated + {t}, p.next + 1)
  }

  function DoExchange(s: State, w: nat, reply: Reply): State
    requires w < |s.workers| && s.workers[w].Exchanging?
  {
    var p := s.workers[w];
    var token := Plain(s, p.found.refreshToken);
    if token.None? then s else
      var t := token.value;
      var shown := s.(staleShown := s.staleShown || t in s.provider.rotated);
      var honoured := s.provider.honoured == Some(t);
      match reply
      case Grant(rotates, ttl) =>
        if !honoured then s else
        shown.(provider := if rotates then Rotate(s.provider, t) else s.provider,
               workers := s.workers[w := Granted(p.seen, p.found, p.foundAt,
                   if rotates then Some(s.provider.next) else None, ttl, p.open)])
      case Denied =>
        if honoured then s else
        Leave(shown, w, Failed(p.seen, p.found, p.foundAt, InvalidGrant))
      case Unreachable(rotatedAnyway) =>
        if rotatedAnyway && !honoured then s else
        Leave(shown, w, Failed(p.seen, p.found, p.foundAt, Transient))
          .(provider := if rotatedAnyway then Rotate(s.provider, t) else s.provider)
  }

  function DoCommit(s: State, w: nat): State
    requires w < |s.workers| && s.workers[w].Granted?
  {
    var p := s.workers[w];
    if !p.open then Leave(s, w, Failed(p.seen, p.found, p.foundAt, Transient)) else
      var kept := Plain(s, p.found.refreshToken);
      var token := if p.replacement.Some? then p.replacement else kept;
      if token.None? then s else
      Leave(s, w, Idle).(
        vault := s.vault + [token.value],
        row := s.row.(refreshToken := Sealed(|s.vault|), accessTokenExpiresAt := s.now + p.ttl))
  }

  /** The database gives up on the transaction. The code that awaits the provider is not
      told, and goes on without the lock. */
  function DoAbort(s: State, w: nat): State
    requires w < |s.workers|
  {
    var p := s.workers[w];
    if p.Waiting? then s.(workers := s.workers[w := Failed(p.seen, p.seen, s.now, Transient)])
    else if InTransaction(p) then Leave(s, w, p.(open := false))
    else s
  }

  function DoInspect(s: State, w: nat): State
    requires w < |s.workers| && s.workers[w].Failed?
  {
    var p := s.workers[w];
    if s.row.revokedAt.None? && s.row.refreshToken != p.seen.refreshToken &&
       s.row.accessTokenExpiresAt > s.now then s.(workers := s.workers[w := Idle])
    else if p.why.Transient? then s.(workers := s.workers[w := Idle])
    else s.(workers := s.workers[w := Revoking(p.seen, p.found, p.foundAt, p.why)])
  }

  function DoCompareAndRevoke(s: State, w: nat): State
    requires w < |s.workers| && s.workers[w].Revoking?
  {
    var match_ := s.row.refreshToken == s.workers[w].seen.refreshToken;
    s.(workers := s.workers[w := Idle], row := if match_ then Revoked(s.row, s.now) else s.row)
  }

  function Next(s: State, e: Event): State {
    match e
    case Tick(elapsed) => s.(now := s.now + elapsed)
    case Authenticate(w) => if w < |s.workers| then DoAuthenticate(s, w) else s
    case Acquire(w) =>
      if w < |s.workers| && s.workers[w].Waiting? && s.lock.None? then DoAcquire(s, w) else s
    case Exchange(w, reply) =>
      if w < |s.workers| && s.workers[w].Exchanging? then DoExchange(s, w, reply) else s
    case Commit(w) => if w < |s.workers| && s.workers[w].Granted? then DoCommit(s, w) else s
    case Abort(w) => if w < |s.workers| then DoAbort(s, w) else s
    case Inspect(w) => if w < |s.workers| && s.workers[w].Failed? then DoInspect(s, w) else s
    case CompareAndRevoke(w) =>
      if w < |s.workers| && s.workers[w].Revoking? then DoCompareAndRevoke(s, w) else s
    case Touch => s.(row := s.row.(lastSeenAt := s.now))
    case Revoke => s.(row := Revoked(s.row, s.now))
    case Prune =>
      if s.row.expiresAt <= s.now || s.row.lastSeenAt <= s.now - s.idleMs
      then s.(row := Revoked(s.row, s.now)) else s
    case SetUserActive(active) => s.(row := s.row.(userActive := active))
    case ProviderWithdraws => s.(provider := s.provider.(honoured := None))
  }

  function Run(s: State, events: seq<Event>): State {
    if events == [] then s else Next(Run(s, events[..|events| - 1]), events[|events| - 1])
  }

  /** A session just created at login, and any number of idle replicas. */
  ghost predicate Initial(s: State) {
    && (forall w :: 0 <= w < |s.workers| ==> s.workers[w].Idle?)
    && s.lock.None? && !s.staleShown && s.provider.rotated == {}
    && (if s.row.refreshToken.Blank? then s.vault == []
        else s.row.refreshToken == Sealed(0) && |s.vault| == 1 &&
             s.vault[0] < s.provider.next && s.provider.honoured == Some(s.vault[0]))
    && (s.provider.honoured.Some? ==> s.provider.honoured.value < s.provider.next)
  }

  // ---- What every step keeps -------------------------------------------------

  /** The provider has given up on `t` for good: it is not fresh and not honoured. */
  predicate Dead(p: Provider, t: Token) {
    t < p.next && p.honoured != Some(t)
  }

  ghost predicate Evidence(s: State, p: Phase)
    requires p.Failed? || p.Revoking?
  {
    match p.why
    case SessionInvalid => !Usable(p.found, p.foundAt, s.idleMs)
    case RefreshTokenMissing => p.found.refreshToken.Blank?
    case InvalidGrant =>
      var t := Plain(s, p.found.refreshToken);
      t.Some? && Dead(s.provider, t.value)
    case Transient => p.Failed?
  }

  ghost predicate PhaseOk(s: State, w: nat)
    requires w < |s.workers|
  {
    var p := s.workers[w];
    && (!p.Idle? ==> Generation(p.seen.refreshToken) <= |s.vault|)
    && (!p.Idle? && !p.Waiting? ==>
          Generation(p.seen.refreshToken) <= Generation(p.found.refreshToken) <= |s.vault|)
    && (p.Exchanging? || p.Granted? ==> p.found.refreshToken.Sealed?)
    && (InTransaction(p) ==> s.lock == Some(w) && s.row.refreshToken == p.found.refreshToken)
    && (p.Granted? && p.replacement.Some? ==>
          && p.replacement.value < s.provider.next
          && Plain(s, p.found.refreshToken).Some?
          && Plain(s, p.found.refreshToken).value in s.provider.rotated)
    && (p.Failed? || p.Revoking? ==> Evidence(s, p))
  }

  ghost predicate Tables(s: State) {
    && Generation(s.row.refreshToken) == |s.vault|
    && (forall i :: 0 <= i < |s.vault| ==> s.vault[i] < s.provider.next)
    && (s.provider.honoured.Some? ==>
          s.provider.honoured.value < s.provider.next && s.provider.honoured.value !in s.provider.rotated)
    && (forall t :: t in s.provider.rotated ==> t < s.provider.next)
    && (s.lock.Some? ==> s.lock.value < |s.workers| && InTransaction(s.workers[s.lock.value]))
  }

  ghost predicate Inv(s: State) {
    Tables(s) && forall w :: 0 <= w < |s.workers| ==> PhaseOk(s, w)
  }

  /** The token a granted worker is about to store. */
  function Successor(s: State, p: Phase): Option<Token>
    requires p.Granted?
  {
    if p.replacement.Some? then p.replacement else Plain(s, p.found.refreshToken)
  }

  predicate Current(s: State, t: Option<Token>) {
    t.Some? && t.value !in s.provider.rotated &&
    (s.provider.honoured.None? || s.provider.honoured == t)
  }

  /** The replica was granted a new token and its transaction can still store it. */
  predicate HoldsReplacement(p: Phase) {
    p.Granted? && p.open && p.replacement.Some?
  }

  predicate NobodyHolds(s: State) {
    forall w | 0 <= w < |s.workers| :: !HoldsReplacement(s.workers[w])
  }

  /** The token that replica `w` is about to present, or has presented. */
  function Shown(s: State, w: nat): Option<Token>
    requires w < |s.workers| && s.workers[w].Exchanging?
  {
    Plain(s, s.workers[w].found.refreshToken)
  }

  predicate ShowsHonoured(s: State, w: nat) {
    w < |s.workers| && s.workers[w].Exchanging? && Shown(s, w).Some? && s.provider.honoured == Shown(s, w)
  }

  /** The provider has a successor that no transaction can store any more. */
  predicate Loses(s: State, e: Event) {
    match e
    case Exchange(w, Grant(rotates, _)) => ShowsHonoured(s, w) && rotates && !s.workers[w].open
    case Exchange(w, Unreachable(rotatedAnyway)) => ShowsHonoured(s, w) && rotatedAnyway
    case Abort(w) => w < |s.workers| && HoldsReplacement(s.workers[w])
    case _ => false
  }

  /** A successor was lost in the run: it came for a transaction that had ended, its response did
      not arrive, or the transaction that held it ended without a commit. */
  predicate Lost(s0: State, events: seq<Event>) {
    events != [] &&
    (Lost(s0, events[..|events| - 1]) || Loses(Run(s0, events[..|events| - 1]), events[|events| - 1]))
  }

  /** What the stored tokens, the provider and the replicas have to do with each other. */
  ghost predicate Chain(s: State, lost: bool) {
    && (forall w :: 0 <= w < |s.workers| && s.workers[w].Granted? && s.workers[w].replacement.Some? && !s.workers[w].open ==> lost)
    && (lost ==> NobodyHolds(s))
    && (forall i :: 0 <= i < |s.vault| ==>
          s.vault[i] in s.provider.rotated ||
          (!lost && NobodyHolds(s) && Plain(s, s.row.refreshToken) == Some(s.vault[i])))
    && (!lost && NobodyHolds(s) && s.row.refreshToken.Sealed? ==> Current(s, Plain(s, s.row.refreshToken)))
    && (forall w :: 0 <= w < |s.workers| && HoldsReplacement(s.workers[w]) ==> Current(s, s.workers[w].replacement))
  }

  function Actor(e: Event): Option<nat> {
    match e
    case Acquire(w) => Some(w)
    case Exchange(w, _) => Some(w)
    case Commit(w) => Some(w)
    case Abort(w) => Some(w)
    case Inspect(w) => Some(w)
    case CompareAndRevoke(w) => Some(w)
    case Authenticate(w) => Some(w)
    case _ => None
  }

  /** A provider forgets nothing: what is dead stays dead. */
  predicate Later(p: Provider, q: Provider) {
    p.next <= q.next && p.rotated <= q.rotated &&
    (q.honoured == p.honoured || q.honoured.None? || q.honoured == Some(p.next))
  }

  lemma OthersKeepPhase(s: State, n: State, v: nat)
    requires v < |s.workers| == |n.workers| && n.workers[v] == s.workers[v]
    requires PhaseOk(s, v) && s.vault <= n.vault && n.idleMs == s.idleMs
    requires Later(s.provider, n.provider)
    requires InTransaction(s.workers[v]) ==>
               n.lock == s.lock && n.row.refreshToken == s.row.refreshToken
    ensures PhaseOk(n, v)
  {
  }

  /** Two replicas are never inside the transaction together. */
  lemma OneInTransaction(s: State, v: nat, w: nat)
    requires Inv(s) && v < |s.workers| && w < |s.workers|
    requires InTransaction(s.workers[v]) && InTransaction(s.workers[w])
    ensures v == w
  {
    assert PhaseOk(s, v) && PhaseOk(s, w);
  }

  /** What a step of replica `w` does to everything the other replicas rely on. */
  ghost predicate GoodStep(s: State, n: State, w: nat)
    requires w < |s.workers|
  {
    && |n.workers| == |s.workers| && n.workers == s.workers[w := n.workers[w]]
    && Tables(n) && PhaseOk(n, w) && n.idleMs == s.idleMs
    && Later(s.provider, n.provider) && s.vault <= n.vault
    && (n.lock == s.lock || s.lock.None? || InTransaction(s.workers[w]))
    && (n.row.refreshToken == s.row.refreshToken || InTransaction(s.workers[w]))
  }

  lemma AcquireOk(s: State, w: nat)
    requires Inv(s) && w < |s.workers| && s.workers[w].Waiting? && s.lock.None?
    ensures GoodStep(s, DoAcquire(s, w), w)
  {
    assert PhaseOk(s, w);
  }

  lemma ExchangeOk(s: State, w: nat, reply: Reply)
    requires Inv(s) && w < |s.workers| && s.workers[w].Exchanging?
    ensures GoodStep(s, DoExchange(s, w, reply), w)
  {
    assert PhaseOk(s, w);
  }

  lemma CommitOk(s: State, w: nat)
    requires Inv(s) && w < |s.workers| && s.workers[w].Granted?
    ensures GoodStep(s, DoCommit(s, w), w)
  {
    assert PhaseOk(s, w);
  }

  lemma AbortOk(s: State, w: nat)
    requires Inv(s) && w < |s.workers|
    ensures GoodStep(s, DoAbort(s, w), w)
  {
    assert PhaseOk(s, w);
  }

  lemma CatchOk(s: State, w: nat)
    requires Inv(s) && w < |s.workers|
    ensures s.workers[w].Failed? ==> GoodStep(s, DoInspect(s, w), w)
    ensures s.workers[w].Revoking? ==> GoodStep(s, DoCompareAndRevoke(s, w), w)
  {
    assert PhaseOk(s, w);
  }

  lemma AuthenticateOk(s: State, w: nat)
    requires Inv(s) && w < |s.workers|
    ensures GoodStep(s, DoAuthenticate(s, w), w)
  {
    var n := DoAuthenticate(s, w);
    assert n.row.refreshToken == s.row.refreshToken;
    if n.workers[w] == s.workers[w] {
      OthersKeepPhase(s, n, w);
    }
  }

  lemma OthersFollow(s: State, n: State, w: nat)
    requires Inv(s) && w < |s.workers| && GoodStep(s, n, w)
    ensures Inv(n)
  {
    forall v | 0 <= v < |n.workers| ensures PhaseOk(n, v) {
      assert PhaseOk(s, v);
      if v != w {
        if InTransaction(s.workers[v]) && InTransaction(s.workers[w]) {
          OneInTransaction(s, v, w);
        }
        OthersKeepPhase(s, n, v);
      }
    }
  }

  /** The clock, the other writers of the row and a withdrawal at the provider. */
  lemma EnvironmentStep(s: State, e: Event)
    requires Inv(s) && Actor(e).None?
    ensures Inv(Next(s, e)) && Next(s, e).vault == s.vault
  {
    forall v | 0 <= v < |s.workers| ensures PhaseOk(Next(s, e), v) {
      OthersKeepPhase(s, Next(s, e), v);
    }
  }

  lemma InvStep(s: State, e: Event)
    requires Inv(s)
    ensures Inv(Next(s, e))
    ensures s.vault <= Next(s, e).vault
  {
    if Actor(e).None? {
      EnvironmentStep(s, e);
    } else if Next(s, e) != s {
      var w := Actor(e).value;
      match e {
        case Acquire(_) => AcquireOk(s, w);
        case Exchange(_, reply) => ExchangeOk(s, w, reply);
        case Commit(_) => CommitOk(s, w);
        case Abort(_) => AbortOk(s, w);
        case Authenticate(_) => AuthenticateOk(s, w);
        case _ => CatchOk(s, w);
      }
      OthersFollow(s, Next(s, e), w);
    }
  }

  lemma NobodyElseHolds(s: State, w: nat)
    requires Inv(s) && w < |s.workers| && InTransaction(s.workers[w]) && !HoldsReplacement(s.workers[w])
    ensures NobodyHolds(s)
  {
    forall v | 0 <= v < |s.workers| ensures !HoldsReplacement(s.workers[v]) {
      if HoldsReplacement(s.workers[v]) { OneInTransaction(s, v, w); }
    }
  }

  /** Only the stored token can still be honoured, and only if no successor was lost or is held. */
  lemma HonouredIsStored(s: State, lost: bool, w: nat)
    requires Inv(s) && Chain(s, lost) && ShowsHonoured(s, w)
    ensures !lost && NobodyHolds(s) && Shown(s, w) == Plain(s, s.row.refreshToken)
  {
    assert PhaseOk(s, w);
    assert s.vault[s.workers[w].found.refreshToken.index] !in s.provider.rotated;
  }

  lemma GrantKeepsChain(s: State, lost: bool, w: nat, ttl: nat)
    requires Inv(s) && Chain(s, lost) && ShowsHonoured(s, w)
    ensures Chain(DoExchange(s, w, Grant(true, ttl)), lost || !s.workers[w].open)
  {
    HonouredIsStored(s, lost, w);
    var n := DoExchange(s, w, Grant(true, ttl));
    assert n.workers == s.workers[w := n.workers[w]];
    assert n.provider == Rotate(s.provider, Shown(s, w).value);
    if s.workers[w].open { assert HoldsReplacement(n.workers[w]); }
  }

  lemma LostResponseKeepsChain(s: State, lost: bool, w: nat)
    requires Inv(s) && Chain(s, lost) && ShowsHonoured(s, w)
    ensures Chain(DoExchange(s, w, Unreachable(true)), true)
  {
    HonouredIsStored(s, lost, w);
    var n := DoExchange(s, w, Unreachable(true));
    assert n.workers == s.workers[w := n.workers[w]];
    assert n.provider == Rotate(s.provider, Shown(s, w).value);
  }

  lemma CommitKeepsChain(s: State, lost: bool, w: nat)
    requires Inv(s) && Chain(s, lost) && w < |s.workers| && s.workers[w].Granted? && s.workers[w].open
    ensures Chain(DoCommit(s, w), lost)
  {
    assert PhaseOk(s, w);
    var n := DoCommit(s, w);
    assert n.workers == s.workers[w := Idle];
    if HoldsReplacement(s.workers[w]) {
      assert !NobodyHolds(s);
      forall v | 0 <= v < |s.workers| && v != w ensures !HoldsReplacement(s.workers[v]) {
        if HoldsReplacement(s.workers[v]) { OneInTransaction(s, v, w); }
      }
    } else {
      NobodyElseHolds(s, w);
    }
    assert NobodyHolds(n);
    assert forall i :: 0 <= i < |s.vault| ==> n.vault[i] == s.vault[i];
  }

  lemma AbortKeepsChain(s: State, lost: bool, w: nat)
    requires Inv(s) && Chain(s, lost) && w < |s.workers| && HoldsReplacement(s.workers[w])
    ensures Chain(DoAbort(s, w), true)
  {
    var n := DoAbort(s, w);
    assert n.workers == s.workers[w := n.workers[w]];
    forall v | 0 <= v < |s.workers| && v != w ensures !HoldsReplacement(s.workers[v]) {
      if HoldsReplacement(s.workers[v]) { OneInTransaction(s, v, w); }
    }
  }

  /** The steps that neither move tokens at the provider nor store one. */
  ghost predicate Quiet(s: State, n: State) {
    && |n.workers| == |s.workers| && n.vault == s.vault && n.row.refreshToken == s.row.refreshToken
    && n.provider.rotated == s.provider.rotated
    && (n.provider.honoured == s.provider.honoured || n.provider.honoured.None?)
    && (forall v :: 0 <= v < |s.workers| ==>
          && HoldsReplacement(n.workers[v]) == HoldsReplacement(s.workers[v])
          && (n.workers[v].Granted? && n.workers[v].replacement.Some? ==> n.workers[v] == s.workers[v]))
  }

  lemma QuietKeepsChain(s: State, lost: bool, n: State)
    requires Chain(s, lost) && Quiet(s, n)
    ensures Chain(n, lost)
  {
  }

  predicate Moves(s: State, e: Event) {
    match e
    case Exchange(w, Grant(rotates, _)) => ShowsHonoured(s, w) && rotates
    case Exchange(w, Unreachable(rotatedAnyway)) => ShowsHonoured(s, w) && rotatedAnyway
    case Commit(w) => w < |s.workers| && s.workers[w].Granted? && s.workers[w].open
    case Abort(w) => w < |s.workers| && HoldsReplacement(s.workers[w])
    case _ => false
  }

  lemma QuietExchange(s: State, w: nat, reply: Reply)
    requires !Moves(s, Exchange(w, reply))
    ensures Quiet(s, Next(s, Exchange(w, reply))) && !Loses(s, Exchange(w, reply))
  {
  }

  lemma QuietEnd(s: State, e: Event)
    requires !Moves(s, e) && (e.Commit? || e.Abort?)
    ensures Quiet(s, Next(s, e)) && !Loses(s, e)
  {
  }

  lemma QuietStart(s: State, e: Event)
    requires (e.Authenticate? || e.Acquire?)
    ensures Quiet(s, Next(s, e)) && !Loses(s, e)
  {
  }

  lemma QuietStep(s: State, e: Event)
    requires !Moves(s, e)
    ensures Quiet(s, Next(s, e)) && !Loses(s, e)
  {
    match e
    case Exchange(w, reply) => QuietExchange(s, w, reply);
    case Abort(_) => QuietEnd(s, e);
    case Commit(_) => QuietEnd(s, e);
    case Acquire(_) => QuietStart(s, e);
    case Authenticate(_) => QuietStart(s, e);
    case _ =>
  }

  lemma ChainStep(s: State, lost: bool, e: Event)
    requires Inv(s) && Chain(s, lost)
    ensures Chain(Next(s, e), lost || Loses(s, e))
  {
    if !Moves(s, e) {
      QuietStep(s, e);
      QuietKeepsChain(s, lost, Next(s, e));
    } else {
      match e
      case Exchange(w, Grant(_, ttl)) => GrantKeepsChain(s, lost, w, ttl);
      case Exchange(w, Unreachable(_)) => LostResponseKeepsChain(s, lost, w);
      case Commit(w) => CommitKeepsChain(s, lost, w);
      case Abort(w) => AbortKeepsChain(s, lost, w);
    }
  }

  lemma {:induction false} RunKeepsInv(s: State, events: seq<Event>)
    requires Inv(s)
    ensures Inv(Run(s, events))
    ensures s.vault <= Run(s, events).vault
  {
    if events != [] {
      var before := events[..|events| - 1];
      RunKeepsInv(s, before);
      InvStep(Run(s, before), events[|events| - 1]);
    }
  }

  lemma {:induction false} RunKeepsChain(s0: State, events: seq<Event>)
    requires Initial(s0)
    ensures Inv(Run(s0, events)) && Chain(Run(s0, events), Lost(s0, events))
  {
    InitialIsGood(s0);
    RunKeepsInv(s0, events);
    if events != [] {
      var before := events[..|events| - 1];
      RunKeepsChain(s0, before);
      ChainStep(Run(s0, before), Lost(s0, before), events[|events| - 1]);
    }
  }

  lemma InitialIsGood(s: State)
    requires Initial(s)
    ensures Inv(s) && Chain(s, false)
  {
  }

  // ---- Results -------------------------------------------------------------

  /** In every run, however the replicas interleave: at most one replica is in the transaction, and
      while none holds a successor, the stored token has been rotated exactly if a successor was
      lost. If none was, it is the token the provider honours, unless the provider honours none. */
  lemma StoredTokenIsTheHonouredOne(s0: State, events: seq<Event>)
    requires Initial(s0)
    ensures var s := Run(s0, events);
      && (forall v, w | 0 <= v < |s.workers| && 0 <= w < |s.workers| &&
            InTransaction(s.workers[v]) && InTransaction(s.workers[w]) :: v == w)
      && (NobodyHolds(s) && s.row.refreshToken.Sealed? ==>
            var t := Plain(s, s.row.refreshToken);
            && t.Some? && (t.value in s.provider.rotated <==> Lost(s0, events))
            && (!Lost(s0, events) && s.provider.honoured.Some? ==> s.provider.honoured == t))
  {
    RunKeepsChain(s0, events);
    var s := Run(s0, events);
    forall v, w | 0 <= v < |s.workers| && 0 <= w < |s.workers| &&
                  InTransaction(s.workers[v]) && InTransaction(s.workers[w]) ensures v == w {
      OneInTransaction(s, v, w);
    }
  }

  // ---- Tokens presented after their rotation ---------------------------------------

  /** The provider answers only what it can: a grant or a hidden rotation needs an honoured token,
      a denial another one. */
  predicate Presents(s: State, e: Event) {
    e.Exchange? && e.w < |s.workers| && s.workers[e.w].Exchanging? && Shown(s, e.w).Some? &&
    match e.reply
    case Grant(_, _) => ShowsHonoured(s, e.w)
    case Denied => !ShowsHonoured(s, e.w)
    case Unreachable(rotatedAnyway) => rotatedAnyway ==> ShowsHonoured(s, e.w)
  }

  /** The transaction of replica `w` has ended, and another one holds or has stored a successor. */
  predicate Overtaken(s: State, w: nat)
    requires w < |s.workers| && s.workers[w].Exchanging?
  {
    !s.workers[w].open && (!NobodyHolds(s) || Shown(s, w) != Plain(s, s.row.refreshToken))
  }

  /** A token that is presented has been rotated before exactly if a successor was lost, or the
      replica goes on without its transaction and was overtaken. */
  lemma StaleExactly(s0: State, events: seq<Event>, e: Event)
    requires Initial(s0) && Presents(Run(s0, events), e)
    ensures var s := Run(s0, events);
      Shown(s, e.w).value in s.provider.rotated <==> Lost(s0, events) || Overtaken(s, e.w)
  {
    RunKeepsChain(s0, events);
    var s := Run(s0, events);
    assert PhaseOk(s, e.w);
    assert Shown(s, e.w).value == s.vault[s.workers[e.w].found.refreshToken.index];
    if s.workers[e.w].open { NobodyElseHolds(s, e.w); }
  }

  /** Some replica presented a token after a loss, or after it had been overtaken. */
  predicate ShownTooLate(s0: State, events: seq<Event>) {
    events != [] &&
    var before, e := events[..|events| - 1], events[|events| - 1];
    (ShownTooLate(s0, before) ||
     (Presents(Run(s0, before), e) && (Lost(s0, before) || Overtaken(Run(s0, before), e.w))))
  }

  lemma StaleStep(s: State, e: Event)
    ensures Next(s, e).staleShown <==>
      s.staleShown || (Presents(s, e) && Shown(s, e.w).value in s.provider.rotated)
  {
    match e
    case Exchange(w, reply) =>
    case Acquire(w) =>
    case Commit(w) =>
    case _ =>
  }

  /** In every run a rotated token is presented exactly if that happened. */
  lemma {:induction false} StaleShownExactly(s0: State, events: seq<Event>)
    requires Initial(s0)
    ensures Run(s0, events).staleShown <==> ShownTooLate(s0, events)
  {
    if events != [] {
      var before, e := events[..|events| - 1], events[|events| - 1];
      StaleShownExactly(s0, before);
      StaleStep(Run(s0, before), e);
      if Presents(Run(s0, before), e) { StaleExactly(s0, before, e); }
    }
  }

  lemma RunOneMore(s: State, events: seq<Event>, e: Event)
    ensures Run(s, events + [e]) == Next(Run(s, events), e)
  {
    assert (events + [e])[..|events + [e]| - 1] == events;
  }

  /** Once a successor was lost, three more events of any idle replica present the rotated token. */
  lemma LostTokenIsPresentedAgain(s0: State, events: seq<Event>, v: nat)
    requires Initial(s0) && Lost(s0, events)
    requires var s := Run(s0, events);
      && v < |s.workers| && s.workers[v].Idle? && s.lock.None? && s.row.refreshToken.Sealed?
      && Usable(s.row, s.now, s.idleMs) && s.row.accessTokenExpiresAt <= s.now
    ensures Run(s0, events + [Authenticate(v)] + [Acquire(v)] + [Exchange(v, Denied)]).staleShown
  {
    RunKeepsChain(s0, events);
    RunOneMore(s0, events, Authenticate(v));
    RunOneMore(s0, events + [Authenticate(v)], Acquire(v));
    RunOneMore(s0, events + [Authenticate(v)] + [Acquire(v)], Exchange(v, Denied));
  }

  /** A session whose access token has expired, two idle replicas, and a provider that honours the
      stored token. */
  const EXPIRED := State(0, 1000, Row(7, Sealed(0), 0, 0, 1000, None, None, true), [0], None, [Idle, Idle],
                         Provider(Some(0), {}, 1), false)
  /** Replica 0 is about to present the token. */
  const READY := [Authenticate(0), Acquire(0)]

  lemma ReadyToPresent()
    ensures Initial(EXPIRED)
    ensures Run(EXPIRED, READY) ==
      EXPIRED.(workers := [Exchanging(EXPIRED.row, EXPIRED.row, 0, true), Idle], lock := Some(0))
    ensures !Lost(EXPIRED, READY)
  {
    RunOneMore(EXPIRED, [], Authenticate(0));
    RunOneMore(EXPIRED, [Authenticate(0)], Acquire(0));
    assert [] + [Authenticate(0)] == [Authenticate(0)];
    assert READY == [Authenticate(0)] + [Acquire(0)];
    assert READY[..1] == [Authenticate(0)] && READY[..1][..0] == [];
  }

  lemma LostOneMore(s0: State, events: seq<Event>, e: Event)
    ensures Lost(s0, events + [e]) <==> Lost(s0, events) || Loses(Run(s0, events), e)
  {
    assert (events + [e])[..|events|] == events;
  }

  /** The three ways to lose a successor: the transaction ends before the commit, or before the
      token is presented, or the response does not arrive. */
  lemma ThreeLosses()
    ensures Lost(EXPIRED, READY + [Exchange(0, Grant(true, 60))] + [Abort(0)])
    ensures Lost(EXPIRED, READY + [Abort(0)] + [Exchange(0, Grant(true, 60))])
    ensures Lost(EXPIRED, READY + [Exchange(0, Unreachable(true))])
  {
    ReadyToPresent();
    hide Run, Lost;
    var granted, aborted := Exchange(0, Grant(true, 60)), Abort(0);
    RunOneMore(EXPIRED, READY, granted);
    LostOneMore(EXPIRED, READY + [granted], aborted);
    RunOneMore(EXPIRED, READY, aborted);
    LostOneMore(EXPIRED, READY + [aborted], granted);
    LostOneMore(EXPIRED, READY, Exchange(0, Unreachable(true)));
  }

  const AGAIN := [Authenticate(1)] + [Acquire(1)] + [Exchange(1, Denied)]

  /** After each of them replica 1 presents the rotated token. */
  lemma ThreeLossesShown()
    ensures Run(EXPIRED, READY + [Exchange(0, Grant(true, 60))] + [Abort(0)] + AGAIN).staleShown
    ensures Run(EXPIRED, READY + [Abort(0)] + [Exchange(0, Grant(true, 60))] + AGAIN).staleShown
    ensures Run(EXPIRED, READY + [Exchange(0, Unreachable(true))] + AGAIN).staleShown
  {
    ThreeLosses();
    ReadyToPresent();
    hide Run, Lost;
    var granted, aborted, unheard := Exchange(0, Grant(true, 60)), Abort(0), Exchange(0, Unreachable(true));
    RunOneMore(EXPIRED, READY, granted);
    RunOneMore(EXPIRED, READY + [granted], aborted);
    RunOneMore(EXPIRED, READY, aborted);
    RunOneMore(EXPIRED, READY + [aborted], granted);
    RunOneMore(EXPIRED, READY, unheard);
    ShownAgain(READY + [granted] + [aborted]);
    ShownAgain(READY + [aborted] + [granted]);
    ShownAgain(READY + [unheard]);
  }

  lemma ShownAgain(events: seq<Event>)
    requires Lost(EXPIRED, events)
    requires var s := Run(EXPIRED, events);
      && |s.workers| == 2 && s.workers[1].Idle? && s.lock.None? && s.row == EXPIRED.row
      && s.now == 0 && s.idleMs == 1000
    ensures Run(EXPIRED, events + AGAIN).staleShown
  {
    ReadyToPresent();
    LostTokenIsPresentedAgain(EXPIRED, events, 1);
    assert events + AGAIN == events + [Authenticate(1)] + [Acquire(1)] + [Exchange(1, Denied)];
  }

  /** Without a loss: replica 0 outlives its transaction, replica 1 rotates and commits, and the
      late token of replica 0 is stale. */
  lemma OvertakenShowsStale()
    ensures var first := READY + [Abort(0)] + [Authenticate(1)] + [Acquire(1)] + [Exchange(1, Grant(true, 60))] + [Commit(1)];
      !Lost(EXPIRED, first) && Run(EXPIRED, first + [Exchange(0, Denied)]).staleShown
  {
    ReadyToPresent();
    hide Run, Lost;
    var row := EXPIRED.row;
    var a := READY + [Abort(0)];
    RunOneMore(EXPIRED, READY, Abort(0));
    LostOneMore(EXPIRED, READY, Abort(0));
    assert Run(EXPIRED, a) == EXPIRED.(workers := [Exchanging(row, row, 0, false), Idle]);
    RunOneMore(EXPIRED, a, Authenticate(1));
    LostOneMore(EXPIRED, a, Authenticate(1));
    var b := a + [Authenticate(1)];
    assert Run(EXPIRED, b) == EXPIRED.(workers := [Exchanging(row, row, 0, false), Waiting(row)]);
    RunOneMore(EXPIRED, b, Acquire(1));
    LostOneMore(EXPIRED, b, Acquire(1));
    var c := b + [Acquire(1)];
    assert Run(EXPIRED, c) ==
      EXPIRED.(workers := [Exchanging(row, row, 0, false), Exchanging(row, row, 0, true)], lock := Some(1));
    OvertakenFromThere(c);
  }

  lemma OvertakenFromThere(c: seq<Event>)
    requires var row := EXPIRED.row;
      Run(EXPIRED, c) == EXPIRED.(workers := [Exchanging(row, row, 0, false), Exchanging(row, row, 0, true)], lock := Some(1))
    requires !Lost(EXPIRED, c)
    ensures var first := c + [Exchange(1, Grant(true, 60))] + [Commit(1)];
      !Lost(EXPIRED, first) && Run(EXPIRED, first + [Exchange(0, Denied)]).staleShown
  {
    hide Run, Lost;
    var d := c + [Exchange(1, Grant(true, 60))];
    RunOneMore(EXPIRED, c, Exchange(1, Grant(true, 60)));
    LostOneMore(EXPIRED, c, Exchange(1, Grant(true, 60)));
    RunOneMore(EXPIRED, d, Commit(1));
    LostOneMore(EXPIRED, d, Commit(1));
    RunOneMore(EXPIRED, d + [Commit(1)], Exchange(0, Denied));
  }

  predicate RefreshPath(e: Event) {
    match e
    case Acquire(_) => true
    case Exchange(_, _) => true
    case Commit(_) => true
    case Abort(_) => true
    case Inspect(_) => true
    case CompareAndRevoke(_) => true
    case _ => false
  }

  /** In every run, cut short or not: when the refresh path revokes, the row it read under the
      lock holds the very token stored now, and it either found that row unusable, or found no
      refresh token, or was told `invalid_grant` for a token the provider no longer honours. */
  lemma RefreshRevokesOnlyOnEvidence(s0: State, events: seq<Event>, e: Event)
    requires Initial(s0) && RefreshPath(e)
    requires Next(Run(s0, events), e).row.revokedAt != Run(s0, events).row.revokedAt
    ensures e.CompareAndRevoke? && e.w < |Run(s0, events).workers|
    ensures var s := Run(s0, events); var p := s.workers[e.w];
      && p.Revoking?
      && p.seen.refreshToken == p.found.refreshToken == s.row.refreshToken
      && match p.why
         case SessionInvalid => !Usable(p.found, p.foundAt, s.idleMs)
         case RefreshTokenMissing => s.row.refreshToken.Blank?
         case InvalidGrant =>
           var t := Plain(s, s.row.refreshToken);
           t.Some? && s.provider.honoured != t && t.value < s.provider.next
         case Transient => false
  {
    InitialIsGood(s0);
    RunKeepsInv(s0, events);
    assert PhaseOk(Run(s0, events), e.w);
  }

  lemma {:induction false} RunSplits(s: State, first: seq<Event>, second: seq<Event>)
    ensures Run(s, first + second) == Run(Run(s, first), second)
  {
    if second == [] {
      assert first + second == first;
    } else {
      var init, last := second[..|second| - 1], second[|second| - 1];
      calc {
        Run(s, first + second);
        { assert first + second == (first + init) + [last]; RunOneMore(s, first + init, last); }
        Next(Run(s, first + init), last);
        { RunSplits(s, first, init); }
        Next(Run(Run(s, first), init), last);
        { assert second == init + [last]; RunOneMore(Run(s, first), init, last); }
        Run(Run(s, first), second);
      }
    }
  }

  /** A commit seals a new token; nothing ever unseals one. */
  lemma CommitStoresNewCipher(s: State, w: nat)
    requires Inv(s) && w < |s.workers| && s.workers[w].Granted? && s.workers[w].open
    ensures var n := Next(s, Commit(w));
      |n.vault| == |s.vault| + 1 && n.row.refreshToken != s.row.refreshToken &&
      Plain(n, n.row.refreshToken) == Successor(s, s.workers[w]) &&
      n.row.accessTokenExpiresAt == s.now + s.workers[w].ttl && n.row.revokedAt == s.row.revokedAt
  {
    assert PhaseOk(s, w);
  }

  /** Once a rotation has been committed after a worker's first read, that worker's
      compare-and-set changes nothing, whatever else happened in between. */
  lemma RotationDisarmsRevocation(s0: State, events: seq<Event>, later: seq<Event>, w: nat)
    requires Initial(s0)
    requires var s, n := Run(s0, events), Run(s0, events + later);
      && w < |s.workers| && w < |n.workers| && !s.workers[w].Idle? && n.workers[w].Revoking?
      && n.workers[w].seen == s.workers[w].seen
      && |n.vault| > |s.vault|
    ensures var n := Run(s0, events + later); Next(n, CompareAndRevoke(w)).row == n.row
  {
    InitialIsGood(s0);
    RunKeepsInv(s0, events);
    RunSplits(s0, events, later);
    RunKeepsInv(Run(s0, events), later);
    assert PhaseOk(Run(s0, events), w);
  }

  /** Revocation is permanent and the end of the session never moves. */
  lemma {:induction false} RevocationIsPermanent(s: State, events: seq<Event>)
    ensures Run(s, events).row.expiresAt == s.row.expiresAt
    ensures s.row.revokedAt.Some? ==> Run(s, events).row.revokedAt == s.row.revokedAt
    ensures Run(s, events).now >= s.now
  {
    if events != [] {
      var before, e := events[..|events| - 1], events[|events| - 1];
      RevocationIsPermanent(s, before);
      var m := Run(s, before);
      match e {
        case Acquire(w) =>
        case Exchange(w, _) =>
        case Commit(w) =>
        case _ =>
      }
    }
  }

  /** A session that was revoked or has reached its end can never be used again. */
  lemma DeadSessionsStayDead(s: State, events: seq<Event>)
    requires s.row.revokedAt.Some? || s.row.expiresAt <= s.now
    ensures !Usable(Run(s, events).row, Run(s, events).now, s.idleMs)
  {
    RevocationIsPermanent(s, events);
  }

  // ---- The four encodings of "this session is alive" -------------------------

  const DEFAULT_IDLE_SECONDS := 12 * 60 * 60

  /** `configured` is the parsed setting, absent when it is not a number. */
  function IdleMs(configured: Option<int>): int {
    (if configured.Some? && configured.value > 0 then configured.value else DEFAULT_IDLE_SECONDS) * 1000
  }

  function ListActive(rows: map<nat, Row>, user: nat, now: int, configured: Option<int>): set<nat> {
    set id | id in rows && rows[id].user == user && rows[id].revokedAt.None? &&
             rows[id].expiresAt > now && rows[id].lastSeenAt > now - IdleMs(configured)
  }

  function ActiveFederated(rows: map<nat, Row>, now: int, configured: Option<int>): set<nat> {
    set id | id in rows && rows[id].authenticatedIdp.Some? && rows[id].revokedAt.None? &&
             rows[id].expiresAt > now && rows[id].lastSeenAt > now - IdleMs(configured)
  }

  function PruneExpired(rows: map<nat, Row>, now: int, configured: Option<int>): map<nat, Row> {
    map id | id in rows ::
      var r := rows[id];
      if (r.expiresAt <= now || r.lastSeenAt <= now - IdleMs(configured)) && r.revokedAt.None?
      then r.(revokedAt := Some(now)) else r
  }

  /** After a prune at `now`, the unrevoked sessions of active users are exactly those that are
      listed, exactly those that authenticate, and among federated ones exactly those that block
      the cut-over. Rows that were revoked before keep their revocation time. */
  lemma EncodingsAgreeAfterPrune(rows: map<nat, Row>, now: int, configured: Option<int>)
    ensures var pruned := PruneExpired(rows, now, configured);
      && pruned.Keys == rows.Keys
      && forall id :: id in pruned ==>
           && (rows[id].revokedAt.Some? ==> pruned[id] == rows[id])
           && (pruned[id].revokedAt.None? <==> id in ListActive(pruned, pruned[id].user, now, configured))
           && (pruned[id].revokedAt.None? && pruned[id].authenticatedIdp.Some? <==>
                 id in ActiveFederated(pruned, now, configured))
           && (pruned[id].userActive ==>
                 (pruned[id].revokedAt.None? <==> Usable(pruned[id], now, IdleMs(configured))))
  {
  }
}
