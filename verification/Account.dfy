/** Sign-in, sessions and preferences as a step system. Requests run
    concurrently; each `select`, `update`, `insert`, `delete` and batch is one
    step, and a request that crashes is one that takes no further step. */
module Account {
  import opened Text
  import opened IsoTime
  import opened Hex
  import opened Store
  import opened SiwePolicy

  const SESSION_MS := 86_400_000
  const CHALLENGE_MS := 600_000
  const RETENTION_MS := 86_400_000

  /** What the routes import: hashing, signature verification, the printing of
      instants, the two sign-in policies, and the email helpers. */
  datatype Platform = Platform(
    sha256Hex: string -> string,
    verifies: (SiweMessage, string, string, string, string) -> bool,
    iso: int -> string,
    fieldsValid: (SiweMessage, NonceRow, Identity, string) -> bool,
    activeSession: (SessionRow, int) -> bool,
    normalizeEmail: string -> string,
    acceptsEmail: string -> bool)

  /** Instants are printed by `toISOString`, and the policies are those of
      lib/siwe-policy.mjs over a `Date.parse` that reads such texts back.
      Hashing, signatures and the email helpers stay arbitrary. */
  ghost predicate Faithful(platform: Platform, parse: DateParse)
  {
    && ParsesIso(parse)
    && (forall t {:trigger IsTime(t)} :: IsTime(t) ==> platform.iso(t) == Iso(t))
    && (forall m, row, identity, now {:trigger FieldsValid(parse, m, m.nonce, row, identity, now)} ::
          platform.fieldsValid(m, row, identity, now) <==> FieldsValid(parse, m, m.nonce, row, identity, now))
    && (forall row, t {:trigger ActiveMainnetSession(parse, row, t)} ::
          platform.activeSession(row, t) <==> ActiveMainnetSession(parse, row, t))
  }

  /** A clock reading whose text, a day later too, has a four-digit year. */
  predicate ClockSample(t: int)
  {
    FIRST_FOUR_DIGIT <= t && t + 86_400_000 <= LAST_FOUR_DIGIT
  }

  predicate FourDigitRange(t: int) { FIRST_FOUR_DIGIT <= t <= LAST_FOUR_DIGIT }

  /** On clock readings the column comparisons compare times. */
  lemma TextClock(platform: Platform, parse: DateParse, t: int, u: int)
    requires Faithful(platform, parse) && FourDigitRange(t) && FourDigitRange(u)
    ensures TextLess(platform.iso(t), platform.iso(u)) <==> t < u
    ensures TextAtMost(platform.iso(t), platform.iso(u)) <==> t <= u
  {
    FourDigitInterval(t);
    FourDigitInterval(u);
    assert IsTime(t) && IsTime(u);
    FourDigitOrder(t, u);
  }

  // ---- requests -----------------------------------------------------------

  /** Where one `POST /api/auth/verify` stands; `row` is the selected record. */
  datatype SignInStage =
    | Arrived
    | Selected(row: NonceRow)
    | Checked(row: NonceRow)
    | Consumed(row: NonceRow)
    | Minted(row: NonceRow, token: string, at: int)
    | SignedIn(row: NonceRow, token: string, at: int)
    | Rejected

  /** What a request does after `getCurrentSession`. */
  datatype Task =
    | ReadAccount
    | SaveEmail(email: string, invoiceEmails: bool, receiptEmails: bool)
    | DetachEmail
    | Maintain

  /** Where one request running `getCurrentSession` stands. */
  datatype VisitStage =
    | Presented
    | Found(hash: string, session: SessionRow)
    | Swept(hash: string, session: SessionRow)
    | Recognized(hash: string, session: SessionRow, notifications: Option<PreferenceRow>)
    | Saved(hash: string, session: SessionRow, at: int)
    | Finished(hash: string, session: SessionRow)
    | Refused

  datatype Request =
    | SignIn(message: SiweMessage, signature: string, identity: Identity, now: int, stage: SignInStage)
    | Visit(cookie: Option<string>, observedAt: int, task: Task, visit: VisitStage)

  /** The site a nonce was issued to, and the clock reading. */
  datatype Issue = Issue(site: Identity, at: int)

  /** The tables, the requests, and the history the theorems speak about:
      where and when each nonce was issued, which request consumed it, which
      request minted each token hash, which request last wrote a preference
      record. */
  datatype World = World(
    tables: Tables, requests: map<nat, Request>,
    issued: map<string, Issue>, consumer: map<string, nat>, minter: map<string, nat>, writer: map<string, nat>)

  function Start(preferences: map<string, PreferenceRow>): World
  {
    World(EMPTY.(preferences := preferences), map[], map[], map[], map[], map[])
  }

  datatype Event =
    | IssueNonce(bytes: seq<byte>, domain: string, origin: string, now: int)
    | BeginSignIn(id: nat, message: SiweMessage, signature: string, identity: Identity, now: int)
    | SelectNonce(id: nat)
    | CheckMessage(id: nat)
    | UpdateNonce(id: nat)
    | MintToken(id: nat, bytes: seq<byte>, at: int)
    | CommitSession(id: nat)
    | BeginVisit(id: nat, cookie: Option<string>, observedAt: int, task: Task)
    | SelectSession(id: nat)
    | SweepPreference(id: nat)
    | SelectPreference(id: nat)
    | UpsertPreference(id: nat, at: int)
    | RemovePreference(id: nat)
    | PurgeExpired(actor: Option<nat>, cutoff: int, nonces: set<string>, hashes: set<string>, wallets: set<string>)
    | SignOut(cookie: Option<string>)

  predicate SigningIn(w: World, id: nat) { id in w.requests && w.requests[id].SignIn? }

  predicate Visiting(w: World, id: nat) { id in w.requests && w.requests[id].Visit? }

  /** `/^[0-9a-f]{64}$/`, the gate in front of every token lookup. */
  predicate TokenShaped(cookie: Option<string>) { cookie.Some? && IsLowerHex(cookie.value, 64) }

  /** The rows a purge may name: expired at its own clock reading. */
  predicate AllExpired(
    platform: Platform, t: Tables, cutoff: int, nonces: set<string>, hashes: set<string>, wallets: set<string>)
  {
    && (forall n :: n in nonces ==> n in t.nonces && TextAtMost(t.nonces[n].expiresAt, platform.iso(cutoff)))
    && (forall h :: h in hashes ==> h in t.sessions && TextAtMost(t.sessions[h].expiresAt, platform.iso(cutoff)))
    && (forall p :: p in wallets ==>
        p in t.preferences && TextAtMost(t.preferences[p].retentionExpiresAt, platform.iso(cutoff)))
  }

  /** Which events can happen. The three premises on the platform are here:
      nonces and minted hashes are fresh, and clocks read four-digit years. */
  predicate Enabled(platform: Platform, w: World, e: Event)
  {
    match e
    case IssueNonce(bytes, _, _, now) => |bytes| == 16 && RandomHex(bytes) !in w.issued && ClockSample(now)
    case BeginSignIn(id, message, signature, _, now) =>
      id !in w.requests && IsAddress(message.address) && IsHexWord(signature, 130) && ClockSample(now)
    case SelectNonce(id) => SigningIn(w, id) && w.requests[id].stage.Arrived?
    case CheckMessage(id) => SigningIn(w, id) && w.requests[id].stage.Selected?
    case UpdateNonce(id) => SigningIn(w, id) && w.requests[id].stage.Checked?
    case MintToken(id, bytes, at) =>
      && SigningIn(w, id) && w.requests[id].stage.Consumed? && |bytes| == 32
      && platform.sha256Hex(RandomHex(bytes)) !in w.minter && ClockSample(at)
    case CommitSession(id) => SigningIn(w, id) && w.requests[id].stage.Minted?
    case BeginVisit(id, _, observedAt, _) => id !in w.requests && ClockSample(observedAt)
    case SelectSession(id) => Visiting(w, id) && w.requests[id].visit.Presented?
    case SweepPreference(id) => Visiting(w, id) && w.requests[id].visit.Found?
    case SelectPreference(id) => Visiting(w, id) && w.requests[id].visit.Swept?
    case UpsertPreference(id, at) =>
      Visiting(w, id) && w.requests[id].visit.Recognized? && w.requests[id].task.SaveEmail? && ClockSample(at)
    case RemovePreference(id) => Visiting(w, id) && w.requests[id].visit.Recognized? && w.requests[id].task.DetachEmail?
    case PurgeExpired(actor, cutoff, nonces, hashes, wallets) =>
      && ClockSample(cutoff) && AllExpired(platform, w.tables, cutoff, nonces, hashes, wallets)
      && (actor.Some? ==>
            && Visiting(w, actor.value) && w.requests[actor.value].visit.Recognized?
            && w.requests[actor.value].task.Maintain?)
    case SignOut(_) => true
  }

  // ---- what each step reads, decides and writes ---------------------------

  predicate Live(platform: Platform, t: Tables, nonce: string, now: int)
  {
    nonce in t.nonces && t.nonces[nonce].consumedAt.None? && TextLess(platform.iso(now), t.nonces[nonce].expiresAt)
  }

  predicate Unconsumed(t: Tables, nonce: string)
  {
    nonce in t.nonces && t.nonces[nonce].consumedAt.None?
  }

  predicate MessageAccepted(platform: Platform, r: Request, row: NonceRow)
    requires r.SignIn?
  {
    && platform.fieldsValid(r.message, row, r.identity, platform.iso(r.now))
    && r.message.chainId == CHAIN_ID
    && platform.verifies(r.message, r.signature, row.domain, r.message.nonce, platform.iso(r.now))
  }

  /** The row `createSession` inserts for a sign-in minted at `at`. */
  function SessionFor(platform: Platform, message: SiweMessage, at: int): (row: SessionRow)
  {
    SessionRow(Lower(message.address), message.chainId, platform.iso(at), platform.iso(at + SESSION_MS))
  }

  /** The row `PUT /api/notifications` writes at `at`. */
  function PreferenceFor(platform: Platform, task: Task, at: int): (row: PreferenceRow)
    requires task.SaveEmail?
  {
    PreferenceRow(platform.normalizeEmail(task.email), task.invoiceEmails, task.receiptEmails, Pending, None,
                  platform.iso(at), platform.iso(at + RETENTION_MS))
  }

  predicate TaskAccepted(platform: Platform, task: Task)
    requires task.SaveEmail?
  {
    platform.acceptsEmail(platform.normalizeEmail(task.email)) && (task.invoiceEmails || task.receiptEmails)
  }

  /** The condition on which `getCurrentSession` goes on: the row the cookie
      names is there, its text is past the reading, and the policy agrees. */
  predicate SessionAccepted(platform: Platform, t: Tables, cookie: Option<string>, observedAt: int)
  {
    TokenShaped(cookie) &&
    var h := platform.sha256Hex(cookie.value);
    && h in t.sessions
    && TextLess(platform.iso(observedAt), t.sessions[h].expiresAt)
    && platform.activeSession(t.sessions[h], observedAt)
  }

  function WriteOf(platform: Platform, w: World, e: Event): (r: Write)
    requires Enabled(platform, w, e)
  {
    match e
    case IssueNonce(bytes, domain, origin, now) =>
      InsertNonce(RandomHex(bytes), NonceRow(domain, origin, platform.iso(now), platform.iso(now + CHALLENGE_MS), None))
    case UpdateNonce(id) => ConsumeNonce(w.requests[id].message.nonce, platform.iso(w.requests[id].now))
    case CommitSession(id) =>
      var r := w.requests[id];
      ReplaceSession(platform.sha256Hex(r.stage.token), SessionFor(platform, r.message, r.stage.at))
    case SweepPreference(id) =>
      ExpirePreference(w.requests[id].visit.session.walletAddress, platform.iso(w.requests[id].observedAt))
    case UpsertPreference(id, at) =>
      var r := w.requests[id];
      if TaskAccepted(platform, r.task)
      then SavePreference(r.visit.session.walletAddress, PreferenceFor(platform, r.task, at)) else Keep
    case RemovePreference(id) => DeletePreference(w.requests[id].visit.session.walletAddress)
    case PurgeExpired(_, _, nonces, hashes, wallets) => Purge(nonces, hashes, wallets)
    case SignOut(cookie) => if TokenShaped(cookie) then DeleteSession(platform.sha256Hex(cookie.value)) else Keep
    case _ => Keep
  }

  /** Which event is behind each kind of write. */
  lemma WriteKinds(platform: Platform, w: World, e: Event)
    requires Enabled(platform, w, e)
    ensures var write := WriteOf(platform, w, e);
            && (write.InsertNonce? <==> e.IssueNonce?)
            && (write.ConsumeNonce? <==> e.UpdateNonce?)
            && (write.ReplaceSession? <==> e.CommitSession?)
            && (write.SavePreference? <==> e.UpsertPreference? && TaskAccepted(platform, w.requests[e.id].task))
  {
  }

  lemma NonceWrites(platform: Platform, w: World, e: Event)
    requires Enabled(platform, w, e)
    ensures var write := WriteOf(platform, w, e);
            && (write.InsertNonce? ==> write.nonce == RandomHex(e.bytes))
            && (write.Purge? <==> e.PurgeExpired?) && (write.Purge? ==> write.nonces == e.nonces)
  {
  }

  /** The request an event moves, if any, and its next state. */
  function Moves(platform: Platform, w: World, e: Event): (r: Option<(nat, Request)>)
    requires Enabled(platform, w, e)
  {
    match e
    case BeginSignIn(id, message, signature, identity, now) =>
      Some((id, SignIn(message, signature, identity, now, Arrived)))
    case SelectNonce(id) =>
      var r := w.requests[id];
      Some((id, r.(stage := if Live(platform, w.tables, r.message.nonce, r.now)
                            then Selected(w.tables.nonces[r.message.nonce]) else Rejected)))
    case CheckMessage(id) =>
      var r := w.requests[id];
      Some((id, r.(stage := if MessageAccepted(platform, r, r.stage.row) then Checked(r.stage.row) else Rejected)))
    case UpdateNonce(id) =>
      var r := w.requests[id];
      Some((id, r.(stage := if Unconsumed(w.tables, r.message.nonce) then Consumed(r.stage.row) else Rejected)))
    case MintToken(id, bytes, at) =>
      var r := w.requests[id];
      Some((id, r.(stage := Minted(r.stage.row, RandomHex(bytes), at))))
    case CommitSession(id) =>
      var r := w.requests[id];
      var wallet := Lower(r.message.address);
      Some((id, r.(stage := if platform.sha256Hex(r.stage.token) in OtherWallets(w.tables.sessions, wallet)
                            then Rejected else SignedIn(r.stage.row, r.stage.token, r.stage.at))))
    case BeginVisit(id, cookie, observedAt, task) => Some((id, Visit(cookie, observedAt, task, Presented)))
    case SelectSession(id) =>
      var r := w.requests[id];
      Some((id, r.(visit := if SessionAccepted(platform, w.tables, r.cookie, r.observedAt)
                            then var h := platform.sha256Hex(r.cookie.value); Found(h, w.tables.sessions[h])
                            else Refused)))
    case SweepPreference(id) =>
      var r := w.requests[id];
      Some((id, r.(visit := Swept(r.visit.hash, r.visit.session))))
    case SelectPreference(id) =>
      var r := w.requests[id];
      var p := r.visit.session.walletAddress;
      Some((id, r.(visit := Recognized(r.visit.hash, r.visit.session,
                                       if p in w.tables.preferences then Some(w.tables.preferences[p]) else None))))
    case UpsertPreference(id, at) =>
      var r := w.requests[id];
      Some((id, r.(visit := if TaskAccepted(platform, r.task)
                            then Saved(r.visit.hash, r.visit.session, at) else Refused)))
    case RemovePreference(id) =>
      var r := w.requests[id];
      Some((id, r.(visit := Finished(r.visit.hash, r.visit.session))))
    case PurgeExpired(actor, _, _, _, _) =>
      if actor.None? then None else
        var r := w.requests[actor.value];
        Some((actor.value, r.(visit := Finished(r.visit.hash, r.visit.session))))
    case _ => None
  }

  function Requests(platform: Platform, w: World, e: Event): map<nat, Request>
    requires Enabled(platform, w, e)
  {
    var moved := Moves(platform, w, e);
    if moved.Some? then w.requests[moved.value.0 := moved.value.1] else w.requests
  }

  function Issued(w: World, e: Event): map<string, Issue>
  {
    if e.IssueNonce? then w.issued[RandomHex(e.bytes) := Issue(Identity(e.domain, e.origin), e.now)] else w.issued
  }

  function Consumers(platform: Platform, w: World, e: Event): map<string, nat>
    requires Enabled(platform, w, e)
  {
    if e.UpdateNonce? && Unconsumed(w.tables, w.requests[e.id].message.nonce)
    then w.consumer[w.requests[e.id].message.nonce := e.id] else w.consumer
  }

  function Minters(platform: Platform, w: World, e: Event): map<string, nat>
  {
    if e.MintToken? then w.minter[platform.sha256Hex(RandomHex(e.bytes)) := e.id] else w.minter
  }

  function Writers(platform: Platform, w: World, e: Event): map<string, nat>
    requires Enabled(platform, w, e)
  {
    if e.UpsertPreference? && TaskAccepted(platform, w.requests[e.id].task)
    then w.writer[w.requests[e.id].visit.session.walletAddress := e.id] else w.writer
  }

  /** One event. An event that cannot happen leaves the world alone, so every
      sequence of events is a run. */
  function Step(platform: Platform, w: World, e: Event): (r: World)
  {
    if !Enabled(platform, w, e) then w else
      World(Apply(w.tables, WriteOf(platform, w, e)), Requests(platform, w, e), Issued(w, e),
            Consumers(platform, w, e), Minters(platform, w, e), Writers(platform, w, e))
  }

  function After(platform: Platform, w: World, events: seq<Event>): (r: World)
  {
    if events == [] then w
    else Step(platform, After(platform, w, events[..|events| - 1]), events[|events| - 1])
  }

  /** Running one sequence of events after another. */
  lemma {:induction false} AfterConcat(platform: Platform, w: World, a: seq<Event>, b: seq<Event>)
    ensures After(platform, w, a + b) == After(platform, After(platform, w, a), b)
  {
    if b == [] {
      assert a + b == a;
    } else {
      var init := b[..|b| - 1];
      AfterConcat(platform, w, a, init);
      assert (a + b)[..|a + b| - 1] == a + init;
    }
  }

  lemma AfterOne(platform: Platform, w: World, e: Event)
    ensures After(platform, w, [e]) == Step(platform, w, e)
  {
    assert [e][..0] == [];
  }

  /** The writes a run sends to the store, in order. */
  function Writes(platform: Platform, w: World, events: seq<Event>): (ws: seq<Write>)
    ensures |ws| == |events|
  {
    if events == [] then [] else
      var init, e := events[..|events| - 1], events[|events| - 1];
      var before := After(platform, w, init);
      Writes(platform, w, init) + [if Enabled(platform, before, e) then WriteOf(platform, before, e) else Keep]
  }

  /** The tables of a run are its writes applied to the first tables. */
  lemma {:induction false} TablesAreWrites(platform: Platform, w: World, events: seq<Event>)
    ensures After(platform, w, events).tables == ApplyAll(w.tables, Writes(platform, w, events))
  {
    if events != [] {
      var init := events[..|events| - 1];
      TablesAreWrites(platform, w, init);
      var ws := Writes(platform, w, events);
      assert ws[..|ws| - 1] == Writes(platform, w, init);
    }
  }
}
