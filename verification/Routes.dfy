/** The account routes as sequential code over mutable tables. Between two
    awaited statements any events of other requests may happen; each route is
    proved to perform exactly a run of the step system. */
module Routes {
  import opened Text
  import opened Hex
  import opened Store
  import opened SiwePolicy
  import opened Account
  import opened AccountInvariant
  import opened AccountTheorems
  import opened AccountPreferences

  /** The event is a step of request `id`. */
  predicate StepOf(e: Event, id: nat)
  {
    match e
    case IssueNonce(_, _, _, _) => false
    case SignOut(_) => false
    case PurgeExpired(actor, _, _, _, _) => actor == Some(id)
    case _ => e.id == id
  }

  predicate Foreign(events: seq<Event>, id: nat)
  {
    forall k :: 0 <= k < |events| ==> !StepOf(events[k], id)
  }

  /** The first `n` own events, each followed by what others do meanwhile. */
  function Weave(own: seq<Event>, others: seq<seq<Event>>, n: nat): (r: seq<Event>)
    requires n <= |own| && n <= |others|
  {
    if n == 0 then [] else Weave(own, others, n - 1) + ([own[n - 1]] + others[n - 1])
  }

  /** One own step and one wait extend the woven run. */
  lemma WeaveStep(platform: Platform, w: World, own: seq<Event>, others: seq<seq<Event>>, n: nat)
    requires n < |own| && n < |others|
    ensures After(platform, w, Weave(own, others, n + 1))
         == After(platform, Step(platform, After(platform, w, Weave(own, others, n)), own[n]), others[n])
  {
    AfterConcat(platform, w, Weave(own, others, n), [own[n]] + others[n]);
    AfterConcat(platform, After(platform, w, Weave(own, others, n)), [own[n]], others[n]);
    AfterOne(platform, After(platform, w, Weave(own, others, n)), own[n]);
  }

  /** Other requests do not touch this request's local state. */
  lemma {:induction false} ForeignLeaves(platform: Platform, w: World, events: seq<Event>, id: nat)
    requires id in w.requests && Foreign(events, id)
    ensures id in After(platform, w, events).requests && After(platform, w, events).requests[id] == w.requests[id]
  {
    if events != [] {
      ForeignLeaves(platform, w, events[..|events| - 1], id);
    }
  }

  /** The row a sign-in's select finds: this nonce's, unconsumed and expiring
      after the reading. */
  function FindLive(platform: Platform, w: World, nonce: string, now: int): Option<NonceRow>
  {
    if nonce !in w.tables.nonces then None else
      var row := w.tables.nonces[nonce];
      if row.consumedAt.None? && TextLess(platform.iso(now), row.expiresAt) then Some(row) else None
  }

  /** Field policy, mainnet and signature, against the row that was found. */
  predicate Passes(
    platform: Platform, message: SiweMessage, signature: string, identity: Identity, now: int, row: NonceRow)
  {
    && platform.fieldsValid(message, row, identity, platform.iso(now)) && message.chainId == 1
    && platform.verifies(message, signature, row.domain, message.nonce, platform.iso(now))
  }

  /** The preference record stored for a wallet. */
  function Stored(w: World, wallet: string): Option<PreferenceRow>
  {
    if wallet in w.tables.preferences then Some(w.tables.preferences[wallet]) else None
  }

  /** The nonce can still be consumed. */
  predicate Holds(w: World, nonce: string)
  {
    nonce in w.tables.nonces && w.tables.nonces[nonce].consumedAt.None?
  }

  /** The world after the first `k` own steps and their waits. */
  function Seen(platform: Platform, start: World, own: seq<Event>, others: seq<seq<Event>>, k: nat): World
    requires k <= |own| && k <= |others|
  {
    After(platform, start, Weave(own, others, k))
  }

  /** The nonce is live before the select, the message passes against the row
      found there, and the nonce can still be consumed before the update. */
  predicate Claims(
    platform: Platform, start: World, own: seq<Event>, others: seq<seq<Event>>,
    message: SiweMessage, signature: string, identity: Identity, now: int)
    requires 3 <= |own| && 3 <= |others|
  {
    var found := FindLive(platform, Seen(platform, start, own, others, 1), message.nonce, now);
    && found.Some? && Passes(platform, message, signature, identity, now, found.value)
    && Holds(Seen(platform, start, own, others, 3), message.nonce)
  }

  class Server {
    const platform: Platform
    // the three D1 tables
    var nonces: map<string, NonceRow>
    var sessions: map<string, SessionRow>
    var preferences: map<string, PreferenceRow>
    // suspended requests, and the history the theorems speak about
    var requests: map<nat, Request>
    var issued: map<string, Issue>
    var consumer: map<string, nat>
    var minter: map<string, nat>
    var writer: map<string, nat>

    function State(): World
      reads this
    {
      World(Tables(nonces, sessions, preferences), requests, issued, consumer, minter, writer)
    }

    constructor (platform: Platform, stored: map<string, PreferenceRow>)
      ensures State() == Start(stored) && this.platform == platform && Inv(platform, stored, State())
    {
      this.platform := platform;
      nonces, sessions, preferences := map[], map[], stored;
      requests, issued, consumer, minter, writer := map[], map[], map[], map[], map[];
      Reachable(platform, stored, []);
    }

    // ---- single statements ------------------------------------------------

    /** `GET /api/auth/nonce`, from the insert on. */
    method InsertNonce(bytes: seq<byte>, domain: string, origin: string, now: int)
      requires Enabled(platform, State(), IssueNonce(bytes, domain, origin, now))
      modifies this
      ensures State() == Step(platform, old(State()), IssueNonce(bytes, domain, origin, now))
    {
      var nonce := RandomHex(bytes);
      if nonce !in nonces {
        nonces := nonces[nonce := NonceRow(domain, origin, platform.iso(now), platform.iso(now + CHALLENGE_MS), None)];
      }
      issued := issued[nonce := Issue(Identity(domain, origin), now)];
    }

    method SelectNonce(id: nat) returns (record: Option<NonceRow>)
      requires Enabled(platform, State(), Event.SelectNonce(id))
      modifies this`requests
      ensures State() == Step(platform, old(State()), Event.SelectNonce(id))
      ensures id in requests && requests[id].SignIn?
      ensures requests[id].stage == if record.Some? then Selected(record.value) else Rejected
      ensures var r := old(requests[id]); record == FindLive(platform, State(), r.message.nonce, r.now)
    {
      var r := requests[id];
      var nonce := r.message.nonce;
      if nonce in nonces && nonces[nonce].consumedAt.None? && TextLess(platform.iso(r.now), nonces[nonce].expiresAt) {
        record := Some(nonces[nonce]);
        requests := requests[id := r.(stage := Selected(nonces[nonce]))];
      } else {
        record := None;
        requests := requests[id := r.(stage := Rejected)];
      }
    }

    method CheckMessage(id: nat) returns (accepted: bool)
      requires Enabled(platform, State(), Event.CheckMessage(id))
      modifies this`requests
      ensures State() == Step(platform, old(State()), Event.CheckMessage(id))
      ensures id in requests && requests[id].SignIn?
      ensures requests[id].stage == if accepted then Checked(old(requests[id].stage.row)) else Rejected
      ensures var r := old(requests[id]);
              accepted <==> Passes(platform, r.message, r.signature, r.identity, r.now, r.stage.row)
    {
      var r := requests[id];
      var row := r.stage.row;
      var time := platform.iso(r.now);
      accepted := false;
      if platform.fieldsValid(r.message, row, r.identity, time) && r.message.chainId == CHAIN_ID {
        accepted := platform.verifies(r.message, r.signature, row.domain, r.message.nonce, time);
      }
      requests := requests[id := r.(stage := if accepted then Checked(row) else Rejected)];
    }

    method UpdateNonce(id: nat) returns (consumed: nat)
      requires Enabled(platform, State(), Event.UpdateNonce(id))
      modifies this`nonces, this`requests, this`consumer
      ensures State() == Step(platform, old(State()), Event.UpdateNonce(id))
      ensures id in requests && requests[id].SignIn?
      ensures requests[id].stage == if consumed == 1 then Consumed(old(requests[id].stage.row)) else Rejected
      ensures consumed == 1 <==> Holds(old(State()), old(requests[id].message.nonce))
    {
      var r := requests[id];
      var nonce := r.message.nonce;
      consumed := 0;
      if nonce in nonces && nonces[nonce].consumedAt.None? {
        nonces := nonces[nonce := nonces[nonce].(consumedAt := Some(platform.iso(r.now)))];
        consumer := consumer[nonce := id];
        consumed := 1;
      }
      requests := requests[id := r.(stage := if consumed == 1 then Consumed(r.stage.row) else Rejected)];
    }

    /** The first half of `createSession`: token, hash and clock. */
    method MintToken(id: nat, bytes: seq<byte>, at: int) returns (token: string)
      requires Enabled(platform, State(), Event.MintToken(id, bytes, at))
      modifies this`requests, this`minter
      ensures State() == Step(platform, old(State()), Event.MintToken(id, bytes, at))
      ensures token == RandomHex(bytes) && id in requests && requests[id].SignIn?
      ensures requests[id].stage == Minted(old(requests[id].stage.row), token, at)
    {
      var r := requests[id];
      token := RandomHex(bytes);
      minter := minter[platform.sha256Hex(token) := id];
      requests := requests[id := r.(stage := Minted(r.stage.row, token, at))];
    }

    /** The second half of `createSession`: the transactional batch. */
    method CommitSession(id: nat) returns (committed: bool)
      requires Enabled(platform, State(), Event.CommitSession(id))
      modifies this`sessions, this`requests
      ensures State() == Step(platform, old(State()), Event.CommitSession(id))
      ensures id in requests && requests[id].SignIn?
      ensures var s := old(requests[id].stage);
              requests[id].stage == if committed then SignedIn(s.row, s.token, s.at) else Rejected
      ensures old(platform.sha256Hex(requests[id].stage.token) !in sessions) ==> committed
    {
      var r := requests[id];
      var wallet, tokenHash := Lower(r.message.address), platform.sha256Hex(r.stage.token);
      var kept := OtherWallets(sessions, wallet);
      committed := tokenHash !in kept;
      if committed {
        sessions := kept[tokenHash := SessionRow(wallet, r.message.chainId, platform.iso(r.stage.at),
                                                 platform.iso(r.stage.at + SESSION_MS))];
        requests := requests[id := r.(stage := SignedIn(r.stage.row, r.stage.token, r.stage.at))];
      } else {
        requests := requests[id := r.(stage := Rejected)];
      }
    }

    method SelectSession(id: nat) returns (session: Option<SessionRow>)
      requires Enabled(platform, State(), Event.SelectSession(id))
      modifies this`requests
      ensures State() == Step(platform, old(State()), Event.SelectSession(id))
      ensures id in requests && requests[id].Visit? && requests[id].task == old(requests[id].task)
      ensures session.Some? <==>
              old(SessionAccepted(platform, State().tables, requests[id].cookie, requests[id].observedAt))
      ensures if session.Some? then requests[id].visit.Found? && requests[id].visit.session == session.value
              else requests[id].visit == Refused
      ensures session.Some? ==> session.value == old(sessions[platform.sha256Hex(requests[id].cookie.value)])
    {
      var r := requests[id];
      session := None;
      var next := Refused;
      if r.cookie.Some? && IsLowerHex(r.cookie.value, 64) {
        var hash := platform.sha256Hex(r.cookie.value);
        if hash in sessions && TextLess(platform.iso(r.observedAt), sessions[hash].expiresAt) {
          if platform.activeSession(sessions[hash], r.observedAt) {
            session := Some(sessions[hash]);
            next := Found(hash, sessions[hash]);
          }
        }
      }
      requests := requests[id := r.(visit := next)];
    }

    method SweepPreference(id: nat)
      requires Enabled(platform, State(), Event.SweepPreference(id))
      modifies this`preferences, this`requests
      ensures State() == Step(platform, old(State()), Event.SweepPreference(id))
      ensures id in requests
      ensures var r := old(requests[id]); requests[id] == r.(visit := Swept(r.visit.hash, r.visit.session))
    {
      var r := requests[id];
      var wallet := r.visit.session.walletAddress;
      if wallet in preferences && TextAtMost(preferences[wallet].retentionExpiresAt, platform.iso(r.observedAt)) {
        preferences := preferences - {wallet};
      }
      requests := requests[id := r.(visit := Swept(r.visit.hash, r.visit.session))];
    }

    method SelectPreference(id: nat) returns (notifications: Option<PreferenceRow>)
      requires Enabled(platform, State(), Event.SelectPreference(id))
      modifies this`requests
      ensures State() == Step(platform, old(State()), Event.SelectPreference(id))
      ensures id in requests
      ensures var r := old(requests[id]);
              && requests[id] == r.(visit := Recognized(r.visit.hash, r.visit.session, notifications))
              && notifications == Stored(State(), r.visit.session.walletAddress)
    {
      var r := requests[id];
      var wallet := r.visit.session.walletAddress;
      notifications := if wallet in preferences then Some(preferences[wallet]) else None;
      requests := requests[id := r.(visit := Recognized(r.visit.hash, r.visit.session, notifications))];
    }

    /** `PUT /api/notifications`, after the session read. */
    method UpsertPreference(id: nat, at: int) returns (saved: Option<PreferenceRow>)
      requires Enabled(platform, State(), Event.UpsertPreference(id, at))
      modifies this`preferences, this`requests, this`writer
      ensures State() == Step(platform, old(State()), Event.UpsertPreference(id, at))
      ensures var wallet := old(requests[id].visit.session.walletAddress);
              saved.Some? ==>
                && wallet in preferences
                && preferences[wallet] == saved.value == PreferenceFor(platform, old(requests[id].task), at)
      ensures saved.None? ==> preferences == old(preferences)
      ensures var t := old(requests[id].task);
              saved.Some? <==>
              platform.acceptsEmail(platform.normalizeEmail(t.email)) && (t.invoiceEmails || t.receiptEmails)
      ensures id in requests && requests[id].Visit?
      ensures var v := old(requests[id].visit);
              requests[id].visit == if saved.Some? then Saved(v.hash, v.session, at) else Refused
    {
      var r := requests[id];
      var email := platform.normalizeEmail(r.task.email);
      var wallet := r.visit.session.walletAddress;
      if !platform.acceptsEmail(email) || (!r.task.invoiceEmails && !r.task.receiptEmails) {
        saved := None;
        requests := requests[id := r.(visit := Refused)];
        return;
      }
      var row := PreferenceRow(email, r.task.invoiceEmails, r.task.receiptEmails, Pending, None,
                               platform.iso(at), platform.iso(at + RETENTION_MS));
      preferences := preferences[wallet := row];
      writer := writer[wallet := id];
      requests := requests[id := r.(visit := Saved(r.visit.hash, r.visit.session, at))];
      saved := Some(row);
    }

    /** `DELETE /api/notifications`, after the session read. */
    method RemovePreference(id: nat)
      requires Enabled(platform, State(), Event.RemovePreference(id))
      modifies this`preferences, this`requests
      ensures State() == Step(platform, old(State()), Event.RemovePreference(id))
      ensures id in requests && requests[id].Visit? && requests[id].visit.Finished?
      ensures requests[id].visit.session.walletAddress !in preferences
    {
      var r := requests[id];
      preferences := preferences - {r.visit.session.walletAddress};
      requests := requests[id := r.(visit := Finished(r.visit.hash, r.visit.session))];
    }

    /** `DELETE /api/auth/session`: `deleteSession` behind its gate. */
    method SignOut(cookie: Option<string>)
      modifies this`sessions
      ensures State() == Step(platform, old(State()), Event.SignOut(cookie))
    {
      if cookie.Some? && IsLowerHex(cookie.value, 64) {
        sessions := sessions - {platform.sha256Hex(cookie.value)};
      }
    }

    /** `purgeExpiredAccountRecords`, for whichever expired rows it names. */
    method PurgeExpired(actor: Option<nat>, cutoff: int, ns: set<string>, hs: set<string>, ps: set<string>)
      requires Enabled(platform, State(), Event.PurgeExpired(actor, cutoff, ns, hs, ps))
      modifies this`nonces, this`sessions, this`preferences, this`requests
      ensures State() == Step(platform, old(State()), Event.PurgeExpired(actor, cutoff, ns, hs, ps))
    {
      nonces, sessions, preferences := nonces - ns, sessions - hs, preferences - ps;
      if actor.Some? {
        var r := requests[actor.value];
        requests := requests[actor.value := r.(visit := Finished(r.visit.hash, r.visit.session))];
      }
    }

    // ---- waiting ----------------------------------------------------------

    /** One step of some other request. */
    method Perform(e: Event)
      modifies this
      ensures State() == Step(platform, old(State()), e)
    {
      if !Enabled(platform, State(), e) { return; }
      match e {
        case IssueNonce(bytes, domain, origin, now) => InsertNonce(bytes, domain, origin, now);
        case BeginSignIn(id, message, signature, identity, now) =>
          requests := requests[id := SignIn(message, signature, identity, now, Arrived)];
        case SelectNonce(id) => var _ := SelectNonce(id);
        case CheckMessage(id) => var _ := CheckMessage(id);
        case UpdateNonce(id) => var _ := UpdateNonce(id);
        case MintToken(id, bytes, at) => var _ := MintToken(id, bytes, at);
        case CommitSession(id) => var _ := CommitSession(id);
        case BeginVisit(id, cookie, observedAt, task) =>
          requests := requests[id := Visit(cookie, observedAt, task, Presented)];
        case SelectSession(id) => var _ := SelectSession(id);
        case SweepPreference(id) => SweepPreference(id);
        case SelectPreference(id) => var _ := SelectPreference(id);
        case UpsertPreference(id, at) => var _ := UpsertPreference(id, at);
        case RemovePreference(id) => RemovePreference(id);
        case PurgeExpired(actor, cutoff, ns, hs, ps) => PurgeExpired(actor, cutoff, ns, hs, ps);
        case SignOut(cookie) => SignOut(cookie);
      }
    }

    /** An await: any events of other requests happen. */
    method Await(events: seq<Event>)
      modifies this
      ensures State() == After(platform, old(State()), events)
    {
      for i := 0 to |events|
        invariant State() == After(platform, old(State()), events[..i])
      {
        Perform(events[i]);
        assert events[..i + 1][..i] == events[..i];
      }
      assert events[..|events|] == events;
    }

    // ---- whole routes -----------------------------------------------------

    /** Request `id`, begun in world `start`, has taken its first `n` steps,
        each followed by a wait. */
    ghost predicate Woven(id: nat, own: seq<Event>, others: seq<seq<Event>>, n: nat, start: World)
      reads this
    {
      && n <= |own| && |others| == |own| && (forall k :: 0 <= k < |others| ==> Foreign(others[k], id))
      && State() == After(platform, start, Weave(own, others, n))
    }

    /** The wait after own step `n`. */
    method Suspend(id: nat, own: seq<Event>, others: seq<seq<Event>>, n: nat, ghost start: World)
      requires n < |own| && |others| == |own| && (forall k :: 0 <= k < |others| ==> Foreign(others[k], id))
      requires id in requests
      requires State() == Step(platform, After(platform, start, Weave(own, others, n)), own[n])
      modifies this
      ensures Woven(id, own, others, n + 1, start)
      ensures id in requests && requests[id] == old(requests[id])
    {
      WeaveStep(platform, start, own, others, n);
      ForeignLeaves(platform, State(), others[n], id);
      Await(others[n]);
    }

    /** `POST /api/auth/verify`, from its clock reading to the consumed nonce. */
    method ClaimNonce(
      id: nat, message: SiweMessage, signature: string, identity: Identity, now: int,
      own: seq<Event>, others: seq<seq<Event>>, ghost start: World) returns (claimed: bool, n: nat)
      requires Woven(id, own, others, 0, start) && |own| >= 4
      requires own[0] == BeginSignIn(id, message, signature, identity, now) && own[1] == Event.SelectNonce(id)
      requires own[2] == Event.CheckMessage(id) && own[3] == Event.UpdateNonce(id)
      requires Enabled(platform, State(), BeginSignIn(id, message, signature, identity, now))
      modifies this
      ensures n <= 4 && Woven(id, own, others, n, start)
      ensures SigningInAs(id, message, signature, identity, now)
      ensures if claimed then n == 4 && requests[id].stage.Consumed? else requests[id].stage.Rejected?
      ensures claimed <==> Claims(platform, start, own, others, message, signature, identity, now)
    {
      BeginSignInAndWait(id, message, signature, identity, now, own, others, start);
      var nonceRecord := SelectNonceAndWait(id, own, others, 1, start);
      claimed, n := false, 2;
      if nonceRecord.Some? {
        claimed, n := ConsumeNonce(id, own, others, start);
      }
    }

    /** Request `id` is this sign-in. */
    predicate SigningInAs(id: nat, message: SiweMessage, signature: string, identity: Identity, now: int)
      reads this
    {
      && id in requests && requests[id].SignIn?
      && requests[id] == SignIn(message, signature, identity, now, requests[id].stage)
    }

    /** From the selected record to the consumed nonce. */
    method ConsumeNonce(
      id: nat, own: seq<Event>, others: seq<seq<Event>>, ghost start: World) returns (claimed: bool, n: nat)
      requires Woven(id, own, others, 2, start) && |own| >= 4
      requires own[2] == Event.CheckMessage(id) && own[3] == Event.UpdateNonce(id)
      requires id in requests && requests[id].SignIn? && requests[id].stage.Selected?
      modifies this
      ensures 3 <= n <= 4 && Woven(id, own, others, n, start)
      ensures id in requests && requests[id].SignIn? && requests[id] == old(requests[id]).(stage := requests[id].stage)
      ensures if claimed then n == 4 && requests[id].stage.Consumed? else requests[id].stage.Rejected?
      ensures var r := old(requests[id]);
              claimed <==> && Passes(platform, r.message, r.signature, r.identity, r.now, r.stage.row)
                           && Holds(Seen(platform, start, own, others, 3), r.message.nonce)
    {
      var accepted := CheckMessageAndWait(id, own, others, 2, start);
      claimed, n := false, 3;
      if !accepted { return; }
      var consumed := UpdateNonceAndWait(id, own, others, 3, start);
      claimed, n := consumed == 1, 4;
    }

    method BeginSignInAndWait(
      id: nat, message: SiweMessage, signature: string, identity: Identity, now: int,
      own: seq<Event>, others: seq<seq<Event>>, ghost start: World)
      requires Woven(id, own, others, 0, start) && |own| > 0
      requires own[0] == BeginSignIn(id, message, signature, identity, now)
      requires Enabled(platform, State(), BeginSignIn(id, message, signature, identity, now))
      modifies this
      ensures Woven(id, own, others, 1, start) && id in requests
      ensures requests[id] == SignIn(message, signature, identity, now, Arrived)
    {
      requests := requests[id := SignIn(message, signature, identity, now, Arrived)];
      Suspend(id, own, others, 0, start);
    }

    method SelectNonceAndWait(id: nat, own: seq<Event>, others: seq<seq<Event>>, n: nat, ghost start: World)
      returns (record: Option<NonceRow>)
      requires Woven(id, own, others, n, start) && n < |own| && own[n] == Event.SelectNonce(id)
      requires id in requests && requests[id].SignIn? && requests[id].stage.Arrived?
      modifies this
      ensures Woven(id, own, others, n + 1, start) && id in requests
      ensures requests[id] == old(requests[id]).(stage := if record.Some? then Selected(record.value) else Rejected)
      ensures var r := old(requests[id]); record == FindLive(platform, old(State()), r.message.nonce, r.now)
    {
      record := SelectNonce(id);
      Suspend(id, own, others, n, start);
    }

    method CheckMessageAndWait(id: nat, own: seq<Event>, others: seq<seq<Event>>, n: nat, ghost start: World)
      returns (accepted: bool)
      requires Woven(id, own, others, n, start) && n < |own| && own[n] == Event.CheckMessage(id)
      requires id in requests && requests[id].SignIn? && requests[id].stage.Selected?
      modifies this
      ensures Woven(id, own, others, n + 1, start) && id in requests && requests[id].SignIn?
      ensures requests[id] == old(requests[id]).(stage := requests[id].stage)
      ensures if accepted then requests[id].stage.Checked? else requests[id].stage.Rejected?
      ensures var r := old(requests[id]);
              accepted <==> Passes(platform, r.message, r.signature, r.identity, r.now, r.stage.row)
    {
      accepted := CheckMessage(id);
      Suspend(id, own, others, n, start);
    }

    method UpdateNonceAndWait(id: nat, own: seq<Event>, others: seq<seq<Event>>, n: nat, ghost start: World)
      returns (consumed: nat)
      requires Woven(id, own, others, n, start) && n < |own| && own[n] == Event.UpdateNonce(id)
      requires id in requests && requests[id].SignIn? && requests[id].stage.Checked?
      modifies this
      ensures Woven(id, own, others, n + 1, start) && id in requests && requests[id].SignIn?
      ensures requests[id] == old(requests[id]).(stage := requests[id].stage)
      ensures if consumed == 1 then requests[id].stage.Consumed? else requests[id].stage.Rejected?
      ensures consumed == 1 <==> Holds(old(State()), old(requests[id].message.nonce))
    {
      consumed := UpdateNonce(id);
      Suspend(id, own, others, n, start);
    }

    /** `createSession`: a session for a fresh token always comes about, because
        the batch never meets its own primary key. */
    method CreateSession(
      id: nat, bytes: seq<byte>, at: int, own: seq<Event>, others: seq<seq<Event>>, n: nat, ghost start: World,
      ghost seed: map<string, PreferenceRow>)
      returns (token: string)
      requires Inv(platform, seed, start)
      requires Woven(id, own, others, n, start) && n + 2 == |own| && |bytes| == 32 && ClockSample(at)
      requires own[n] == Event.MintToken(id, bytes, at) && own[n + 1] == Event.CommitSession(id)
      requires id in requests && requests[id].SignIn? && requests[id].stage.Consumed?
      requires platform.sha256Hex(RandomHex(bytes)) !in minter
      modifies this
      ensures Woven(id, own, others, n + 2, start) && id in requests && requests[id].SignIn?
      ensures requests[id] == old(requests[id]).(stage := SignedIn(old(requests[id].stage.row), RandomHex(bytes), at))
      ensures token == RandomHex(bytes)
    {
      token := MintToken(id, bytes, at);
      Suspend(id, own, others, n, start);
      RunKeepsInv(platform, seed, start, Weave(own, others, n + 1));
      CommitIsFresh(platform, seed, State(), id);
      CommitAndWait(id, own, others, n + 1, start);
    }

    method CommitAndWait(id: nat, own: seq<Event>, others: seq<seq<Event>>, n: nat, ghost start: World)
      requires Woven(id, own, others, n, start) && n < |own| && own[n] == Event.CommitSession(id)
      requires id in requests && requests[id].SignIn? && requests[id].stage.Minted?
      requires platform.sha256Hex(requests[id].stage.token) !in sessions
      modifies this
      ensures Woven(id, own, others, n + 1, start) && id in requests && requests[id].SignIn?
      ensures var r := old(requests[id]);
              requests[id] == r.(stage := SignedIn(r.stage.row, r.stage.token, r.stage.at))
    {
      var committed := CommitSession(id);
      Suspend(id, own, others, n, start);
    }

    /** The whole of `POST /api/auth/verify` from its clock reading on: the run
        it performs is the first `n` of its own steps woven with the waits. A
        token comes back if and only if the nonce is live before the select, the
        message passes against the row found there, the nonce is still there and
        unconsumed before the update, and the sampled token is fresh before the
        minting; then all six steps ran, the token is the sampled one, and the
        request has passed every check for the row of that token. */
    method PostVerify(
      id: nat, message: SiweMessage, signature: string, identity: Identity, now: int, bytes: seq<byte>, at: int,
      others: seq<seq<Event>>, ghost parse: DateParse, ghost seed: map<string, PreferenceRow>)
      returns (token: Option<string>, n: nat)
      requires Faithful(platform, parse) && Inv(platform, seed, State())
      requires Enabled(platform, State(), BeginSignIn(id, message, signature, identity, now))
      requires |bytes| == 32 && ClockSample(at) && |others| == 6 && forall k :: 0 <= k < 6 ==> Foreign(others[k], id)
      modifies this
      ensures n <= 6
      ensures State() == After(platform, old(State()),
                               Weave(SignInSteps(id, message, signature, identity, now, bytes, at), others, n))
      ensures Inv(platform, seed, State()) && SigningInAs(id, message, signature, identity, now)
      ensures var own := SignInSteps(id, message, signature, identity, now, bytes, at);
              token.Some? <==>
              && Claims(platform, old(State()), own, others, message, signature, identity, now)
              && platform.sha256Hex(RandomHex(bytes)) !in Seen(platform, old(State()), own, others, 4).minter
      ensures (token.Some? <==> n == 6) && (token.Some? <==> requests[id].stage.SignedIn?)
      ensures token.Some? ==>
                && token.value == RandomHex(bytes)
                && Authenticated(platform, State(), id, platform.sha256Hex(token.value),
                                 SessionFor(platform, message, at))
    {
      var own := SignInSteps(id, message, signature, identity, now, bytes, at);
      ghost var start := State();
      token, n := VerifyAndMint(id, message, signature, identity, now, bytes, at, own, others, start, seed);
      RunKeepsInv(platform, seed, start, Weave(own, others, n));
      if token.Some? {
        SignedInAuthenticated(platform, parse, seed, State(), id);
      }
    }

    method VerifyAndMint(
      id: nat, message: SiweMessage, signature: string, identity: Identity, now: int, bytes: seq<byte>, at: int,
      own: seq<Event>, others: seq<seq<Event>>, ghost start: World, ghost seed: map<string, PreferenceRow>)
      returns (token: Option<string>, n: nat)
      requires own == SignInSteps(id, message, signature, identity, now, bytes, at) && Woven(id, own, others, 0, start)
      requires Enabled(platform, State(), BeginSignIn(id, message, signature, identity, now)) && |bytes| == 32
      requires ClockSample(at) && Inv(platform, seed, start)
      modifies this
      ensures n <= 6 && Woven(id, own, others, n, start) && SigningInAs(id, message, signature, identity, now)
      ensures token.Some? <==>
              && Claims(platform, start, own, others, message, signature, identity, now)
              && platform.sha256Hex(RandomHex(bytes)) !in Seen(platform, start, own, others, 4).minter
      ensures (token.Some? <==> n == 6) && (token.Some? <==> requests[id].stage.SignedIn?)
      ensures token.Some? ==>
                token.value == RandomHex(bytes) == requests[id].stage.token && requests[id].stage.at == at
    {
      var claimed;
      token := None;
      claimed, n := ClaimNonce(id, message, signature, identity, now, own, others, start);
      if !claimed { return; }
      if platform.sha256Hex(RandomHex(bytes)) in minter { return; }
      var minted := CreateSession(id, bytes, at, own, others, 4, start, seed);
      token, n := Some(minted), 6;
    }

    /** `getCurrentSession`, with a wait after each of its statements. */
    method GetCurrentSession(id: nat, cookie: Option<string>, observedAt: int, task: Task, others: seq<seq<Event>>)
      returns (session: Option<(SessionRow, Option<PreferenceRow>)>, n: nat)
      requires Enabled(platform, State(), BeginVisit(id, cookie, observedAt, task))
      requires |others| == 4 && forall k :: 0 <= k < 4 ==> Foreign(others[k], id)
      modifies this
      ensures n <= 4
      ensures State() == After(platform, old(State()), Weave(ReadSteps(id, cookie, observedAt, task), others, n))
      ensures id in requests && requests[id].Visit? && requests[id].task == task
      ensures session.Some? <==>
              var found := After(platform, old(State()), Weave(ReadSteps(id, cookie, observedAt, task), others, 1));
              SessionAccepted(platform, found.tables, cookie, observedAt)
      ensures if session.Some?
              then n == 4 && requests[id].visit.Recognized? && requests[id].visit.session == session.value.0
                && requests[id].visit.notifications == session.value.1
              else requests[id].visit == Refused
      ensures session.Some? ==>
                var own := ReadSteps(id, cookie, observedAt, task);
                && session.value.0 ==
                   Seen(platform, old(State()), own, others, 1).tables.sessions[platform.sha256Hex(cookie.value)]
                && session.value.1 ==
                   Stored(Seen(platform, old(State()), own, others, 3), session.value.0.walletAddress)
    {
      var own := ReadSteps(id, cookie, observedAt, task);
      ghost var start := State();
      BeginVisitAndWait(id, cookie, observedAt, task, own, others, start);
      session, n := None, 2;
      var row := SelectSessionAndWait(id, own, others, 1, start);
      if row.None? { return; }
      n := 4;
      var notifications := ReadPreferences(id, own, others, 2, start);
      session := Some((row.value, notifications));
    }

    method BeginVisitAndWait(
      id: nat, cookie: Option<string>, observedAt: int, task: Task, own: seq<Event>, others: seq<seq<Event>>,
      ghost start: World)
      requires Woven(id, own, others, 0, start) && |own| > 0 && own[0] == BeginVisit(id, cookie, observedAt, task)
      requires Enabled(platform, State(), BeginVisit(id, cookie, observedAt, task))
      modifies this
      ensures Woven(id, own, others, 1, start) && id in requests
      ensures requests[id] == Visit(cookie, observedAt, task, Presented)
    {
      requests := requests[id := Visit(cookie, observedAt, task, Presented)];
      Suspend(id, own, others, 0, start);
    }

    method SelectSessionAndWait(id: nat, own: seq<Event>, others: seq<seq<Event>>, n: nat, ghost start: World)
      returns (session: Option<SessionRow>)
      requires Woven(id, own, others, n, start) && n < |own| && own[n] == Event.SelectSession(id)
      requires id in requests && requests[id].Visit? && requests[id].visit.Presented?
      modifies this
      ensures Woven(id, own, others, n + 1, start) && id in requests
      ensures requests[id].Visit? && requests[id].task == old(requests[id].task)
      ensures session.Some? <==>
              old(SessionAccepted(platform, State().tables, requests[id].cookie, requests[id].observedAt))
      ensures if session.Some? then requests[id].visit.Found? && requests[id].visit.session == session.value
              else requests[id].visit == Refused
      ensures session.Some? ==> session.value == old(sessions[platform.sha256Hex(requests[id].cookie.value)])
    {
      session := SelectSession(id);
      Suspend(id, own, others, n, start);
    }

    /** The sweep and the select that end `getCurrentSession`. */
    method ReadPreferences(id: nat, own: seq<Event>, others: seq<seq<Event>>, n: nat, ghost start: World)
      returns (notifications: Option<PreferenceRow>)
      requires Woven(id, own, others, n, start) && n + 2 == |own|
      requires own[n] == Event.SweepPreference(id) && own[n + 1] == Event.SelectPreference(id)
      requires id in requests && requests[id].Visit? && requests[id].visit.Found?
      modifies this
      ensures Woven(id, own, others, n + 2, start) && id in requests
      ensures requests[id] == old(requests[id]).(visit :=
                Recognized(old(requests[id].visit.hash), old(requests[id].visit.session), notifications))
      ensures notifications ==
              Stored(Seen(platform, start, own, others, n + 1), old(requests[id].visit.session.walletAddress))
    {
      SweepAndWait(id, own, others, n, start);
      notifications := SelectPreferenceAndWait(id, own, others, n + 1, start);
    }

    method SweepAndWait(id: nat, own: seq<Event>, others: seq<seq<Event>>, n: nat, ghost start: World)
      requires Woven(id, own, others, n, start) && n < |own| && own[n] == Event.SweepPreference(id)
      requires id in requests && requests[id].Visit? && requests[id].visit.Found?
      modifies this
      ensures Woven(id, own, others, n + 1, start) && id in requests
      ensures var r := old(requests[id]); requests[id] == r.(visit := Swept(r.visit.hash, r.visit.session))
    {
      SweepPreference(id);
      Suspend(id, own, others, n, start);
    }

    method SelectPreferenceAndWait(id: nat, own: seq<Event>, others: seq<seq<Event>>, n: nat, ghost start: World)
      returns (notifications: Option<PreferenceRow>)
      requires Woven(id, own, others, n, start) && n < |own| && own[n] == Event.SelectPreference(id)
      requires id in requests && requests[id].Visit? && requests[id].visit.Swept?
      modifies this
      ensures Woven(id, own, others, n + 1, start) && id in requests
      ensures var r := old(requests[id]);
              && requests[id] == r.(visit := Recognized(r.visit.hash, r.visit.session, notifications))
              && notifications == Stored(old(State()), r.visit.session.walletAddress)
    {
      notifications := SelectPreference(id);
      Suspend(id, own, others, n, start);
    }

    /** `PUT /api/notifications`: the session read, then the upsert. A record is
        saved only after that read found the session in the table, and for the
        session's wallet. */
    method PutNotifications(
      id: nat, cookie: Option<string>, observedAt: int, task: Task, at: int, others: seq<seq<Event>>,
      ghost parse: DateParse, ghost seed: map<string, PreferenceRow>)
      returns (saved: Option<PreferenceRow>, n: nat)
      requires Faithful(platform, parse) && Inv(platform, seed, State())
      requires task.SaveEmail? && ClockSample(at)
      requires Enabled(platform, State(), BeginVisit(id, cookie, observedAt, task))
      requires |others| == 4 && forall k :: 0 <= k < 4 ==> Foreign(others[k], id)
      modifies this
      ensures n <= 4 && Inv(platform, seed, State())
      ensures var read := After(platform, old(State()), Weave(ReadSteps(id, cookie, observedAt, task), others, n));
              State() == Step(platform, read, Event.UpsertPreference(id, at))
      ensures id in requests && requests[id].Visit? && (saved.Some? <==> requests[id].visit.Saved?)
      ensures var found := Seen(platform, old(State()), ReadSteps(id, cookie, observedAt, task), others, 1);
              saved.Some? <==>
              && SessionAccepted(platform, found.tables, cookie, observedAt)
              && platform.acceptsEmail(platform.normalizeEmail(task.email))
              && (task.invoiceEmails || task.receiptEmails)
      ensures saved.Some? ==>
                var wallet := requests[id].visit.session.walletAddress;
                && wallet in preferences && preferences[wallet] == saved.value == PreferenceFor(platform, task, at)
                && ActsFor(platform, State(), id, wallet)
    {
      ghost var start := State();
      var session;
      saved := None;
      session, n := GetCurrentSession(id, cookie, observedAt, task, others);
      RunKeepsInv(platform, seed, start, Weave(ReadSteps(id, cookie, observedAt, task), others, n));
      if session.Some? {
        InvStep(platform, seed, State(), Event.UpsertPreference(id, at));
        saved := UpsertPreference(id, at);
        if saved.Some? {
          VisitActsFor(platform, parse, seed, State(), id);
        }
      }
    }

    /** `DELETE /api/notifications`: the session read, then the deletion, for the
        wallet of the session that read found. */
    method DeleteNotifications(
      id: nat, cookie: Option<string>, observedAt: int, others: seq<seq<Event>>,
      ghost parse: DateParse, ghost seed: map<string, PreferenceRow>)
      returns (removed: bool, n: nat)
      requires Faithful(platform, parse) && Inv(platform, seed, State())
      requires Enabled(platform, State(), BeginVisit(id, cookie, observedAt, DetachEmail))
      requires |others| == 4 && forall k :: 0 <= k < 4 ==> Foreign(others[k], id)
      modifies this
      ensures n <= 4 && Inv(platform, seed, State())
      ensures var read := After(platform, old(State()),
                                Weave(ReadSteps(id, cookie, observedAt, DetachEmail), others, n));
              State() == Step(platform, read, Event.RemovePreference(id))
      ensures id in requests && requests[id].Visit? && (removed <==> requests[id].visit.Finished?)
      ensures var found := After(platform, old(State()),
                                 Weave(ReadSteps(id, cookie, observedAt, DetachEmail), others, 1));
              removed <==> SessionAccepted(platform, found.tables, cookie, observedAt)
      ensures removed ==>
                var wallet := requests[id].visit.session.walletAddress;
                wallet !in preferences && ActsFor(platform, State(), id, wallet)
    {
      ghost var start := State();
      var session;
      session, n := GetCurrentSession(id, cookie, observedAt, DetachEmail, others);
      RunKeepsInv(platform, seed, start, Weave(ReadSteps(id, cookie, observedAt, DetachEmail), others, n));
      removed := session.Some?;
      if removed {
        InvStep(platform, seed, State(), Event.RemovePreference(id));
        RemovePreference(id);
        VisitActsFor(platform, parse, seed, State(), id);
      }
    }
  }

  /** The steps of one `POST /api/auth/verify`. */
  function SignInSteps(
    id: nat, message: SiweMessage, signature: string, identity: Identity, now: int, bytes: seq<byte>,
    at: int): seq<Event>
  {
    [BeginSignIn(id, message, signature, identity, now), SelectNonce(id), CheckMessage(id), UpdateNonce(id),
     MintToken(id, bytes, at), CommitSession(id)]
  }

  /** The steps of one `getCurrentSession`. */
  function ReadSteps(id: nat, cookie: Option<string>, observedAt: int, task: Task): seq<Event>
  {
    [BeginVisit(id, cookie, observedAt, task), SelectSession(id), SweepPreference(id), SelectPreference(id)]
  }
}
