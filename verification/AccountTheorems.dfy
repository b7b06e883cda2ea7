/** The account protocol's promises, over every run. */
module AccountTheorems {
  import opened Text
  import opened IsoTime
  import opened Hex
  import opened Store
  import opened SiwePolicy
  import opened Account
  import opened AccountInvariant

  /** The world before event `i` of a run. */
  function At(platform: Platform, seed: map<string, PreferenceRow>, events: seq<Event>, i: nat): World
    requires i <= |events|
  {
    After(platform, Start(seed), events[..i])
  }

  lemma AtStep(platform: Platform, seed: map<string, PreferenceRow>, events: seq<Event>, i: nat)
    requires i < |events|
    ensures At(platform, seed, events, i + 1) == Step(platform, At(platform, seed, events, i), events[i])
    ensures Inv(platform, seed, At(platform, seed, events, i))
  {
    assert events[..i + 1][..i] == events[..i];
    Reachable(platform, seed, events[..i]);
  }

  lemma AtExtends(platform: Platform, seed: map<string, PreferenceRow>, events: seq<Event>, i: nat, j: nat)
    requires i <= j <= |events|
    ensures Extends(At(platform, seed, events, i), At(platform, seed, events, j))
    ensures Inv(platform, seed, At(platform, seed, events, i)) && Inv(platform, seed, At(platform, seed, events, j))
  {
    assert events[..j][..i] == events[..i];
    RunExtends(platform, seed, events[..j], i);
    Reachable(platform, seed, events[..i]);
    Reachable(platform, seed, events[..j]);
  }

  // ---- one nonce, one session ---------------------------------------------

  predicate Commits(platform: Platform, w: World, e: Event)
  {
    Enabled(platform, w, e) && e.CommitSession?
  }

  lemma CommitsOnce(platform: Platform, seed: map<string, PreferenceRow>, events: seq<Event>, i: nat, j: nat)
    requires i < j < |events|
    requires Commits(platform, At(platform, seed, events, i), events[i])
    requires Commits(platform, At(platform, seed, events, j), events[j])
    ensures events[i].id != events[j].id
    ensures var a, b := At(platform, seed, events, i).requests[events[i].id],
                        At(platform, seed, events, j).requests[events[j].id];
            a.message.nonce != b.message.nonce && platform.sha256Hex(a.stage.token) != platform.sha256Hex(b.stage.token)
  {
    var before, after, later :=
      At(platform, seed, events, i), At(platform, seed, events, i + 1), At(platform, seed, events, j);
    var first, second := events[i].id, events[j].id;
    AtStep(platform, seed, events, i);
    CommitIsFresh(platform, seed, before, first);
    AtExtends(platform, seed, events, i + 1, j);
    assert after.requests[first].stage.SignedIn?;
    assert later.requests[first] == after.requests[first];
    assert RequestOk(platform, later, first) && RequestOk(platform, later, second);
  }

  /** Over every interleaving, no two sessions come from one nonce. */
  lemma OneSessionPerNonce(platform: Platform, seed: map<string, PreferenceRow>, events: seq<Event>, i: nat, j: nat)
    requires i < |events| && j < |events| && i != j
    requires Commits(platform, At(platform, seed, events, i), events[i])
    requires Commits(platform, At(platform, seed, events, j), events[j])
    ensures At(platform, seed, events, i).requests[events[i].id].message.nonce
         != At(platform, seed, events, j).requests[events[j].id].message.nonce
  {
    if i < j {
      CommitsOnce(platform, seed, events, i, j);
    } else {
      CommitsOnce(platform, seed, events, j, i);
    }
  }

  predicate Updates(platform: Platform, w: World, e: Event, nonce: string)
  {
    Enabled(platform, w, e) && e.UpdateNonce? && w.requests[e.id].message.nonce == nonce
  }

  predicate HasConsumed(w: World, id: nat) { SigningIn(w, id) && w.requests[id].stage.Consumed? }

  /** A nonce row that is gone stays gone: nonces are issued once. */
  lemma {:induction false} NonceNeverReturns(
    platform: Platform, seed: map<string, PreferenceRow>, events: seq<Event>, i: nat, j: nat, n: string)
    requires i <= j <= |events| && n in At(platform, seed, events, i).issued
    requires n !in At(platform, seed, events, i).tables.nonces
    ensures n !in At(platform, seed, events, j).tables.nonces
    decreases j - i
  {
    if i < j {
      var w := At(platform, seed, events, i);
      AtStep(platform, seed, events, i);
      AtExtends(platform, seed, events, i, i + 1);
      if Enabled(platform, w, events[i]) && n in At(platform, seed, events, i + 1).tables.nonces {
        WriteKinds(platform, w, events[i]);
        NonceEffect(w.tables, WriteOf(platform, w, events[i]), n);
        assert false;
      }
      NonceNeverReturns(platform, seed, events, i + 1, j, n);
    }
  }

  /** A consumed nonce was consumed by some earlier update of the run. */
  lemma {:induction false} ConsumerHasUpdate(
    platform: Platform, seed: map<string, PreferenceRow>, events: seq<Event>, i: nat, n: string) returns (j: nat)
    requires i <= |events| && n in At(platform, seed, events, i).consumer
    ensures j < i && Updates(platform, At(platform, seed, events, j), events[j], n)
  {
    assert events[..0] == [];
    AtStep(platform, seed, events, i - 1);
    var w := At(platform, seed, events, i - 1);
    if n in w.consumer {
      j := ConsumerHasUpdate(platform, seed, events, i - 1, n);
    } else {
      j := i - 1;
    }
  }

  lemma UpdateLeavesConsumed(
    platform: Platform, seed: map<string, PreferenceRow>, events: seq<Event>, j: nat, i: nat, n: string)
    requires j < i <= |events| && Updates(platform, At(platform, seed, events, j), events[j], n)
    ensures !Unconsumed(At(platform, seed, events, i).tables, n)
  {
    var w, v := At(platform, seed, events, j), At(platform, seed, events, i);
    AtStep(platform, seed, events, j);
    AtExtends(platform, seed, events, j + 1, i);
    assert RequestOk(platform, w, events[j].id);
    if n in w.tables.nonces {
      assert NonceOk(platform, w, n);
      assert n in At(platform, seed, events, j + 1).consumer;
      assert ConsumerOk(platform, v, n);
    } else {
      NonceNeverReturns(platform, seed, events, j, i, n);
    }
  }

  /** Among all requests that get to the update of one nonce, exactly the first
      wins, provided the row is still there: the update at `i` consumes if and
      only if the row is present and no earlier update of that nonce ran. */
  lemma FirstUpdateWins(platform: Platform, seed: map<string, PreferenceRow>, events: seq<Event>, i: nat, n: string)
    requires i < |events| && Updates(platform, At(platform, seed, events, i), events[i], n)
    ensures HasConsumed(At(platform, seed, events, i + 1), events[i].id) <==>
              && n in At(platform, seed, events, i).tables.nonces
              && forall j :: 0 <= j < i ==> !Updates(platform, At(platform, seed, events, j), events[j], n)
  {
    var w := At(platform, seed, events, i);
    AtStep(platform, seed, events, i);
    assert HasConsumed(At(platform, seed, events, i + 1), events[i].id) <==> Unconsumed(w.tables, n);
    forall j | 0 <= j < i && Updates(platform, At(platform, seed, events, j), events[j], n)
      ensures !Unconsumed(w.tables, n)
    {
      UpdateLeavesConsumed(platform, seed, events, j, i, n);
    }
    if n in w.tables.nonces && !Unconsumed(w.tables, n) {
      assert NonceOk(platform, w, n);
      var j := ConsumerHasUpdate(platform, seed, events, i, n);
    }
  }

  // ---- the nonce table, and what a purge removes --------------------------

  /** Event `k` of the run is a purge that names the nonce. */
  predicate PurgesNonce(platform: Platform, seed: map<string, PreferenceRow>, events: seq<Event>, k: nat, n: string)
  {
    && k < |events| && events[k].PurgeExpired? && n in events[k].nonces
    && Enabled(platform, At(platform, seed, events, k), events[k])
  }

  lemma NoncePresence(platform: Platform, w: World, e: Event, n: string)
    requires Enabled(platform, w, e)
    ensures n in Step(platform, w, e).tables.nonces <==>
            (n in w.tables.nonces || (e.IssueNonce? && RandomHex(e.bytes) == n)) && !(e.PurgeExpired? && n in e.nonces)
    ensures n in Step(platform, w, e).issued <==> n in w.issued || (e.IssueNonce? && RandomHex(e.bytes) == n)
  {
    WriteKinds(platform, w, e);
    NonceWrites(platform, w, e);
    NonceKept(w.tables, WriteOf(platform, w, e), n);
  }

  lemma NonceWasIssued(platform: Platform, seed: map<string, PreferenceRow>, w: World, e: Event, n: string)
    requires Inv(platform, seed, w) && Enabled(platform, w, e)
    ensures n in w.tables.nonces ==> n in w.issued
    ensures e.PurgeExpired? && n in e.nonces ==> n in w.tables.nonces
    ensures e.IssueNonce? && RandomHex(e.bytes) == n ==> n !in w.issued
  {
    assert n in w.tables.nonces ==> NonceOk(platform, w, n);
  }

  /** The nonce table holds exactly the nonces the run issued and has not purged. */
  lemma {:induction false} NonceTableExactly(
    platform: Platform, seed: map<string, PreferenceRow>, events: seq<Event>, n: string)
    ensures var w := After(platform, Start(seed), events);
            && (n in w.tables.nonces <==> n in w.issued && forall k: nat :: !PurgesNonce(platform, seed, events, k, n))
            && (n !in w.issued ==> forall k: nat :: !PurgesNonce(platform, seed, events, k, n))
  {
    if events != [] {
      var init, e := events[..|events| - 1], events[|events| - 1];
      var w := After(platform, Start(seed), init);
      NonceTableExactly(platform, seed, init, n);
      Reachable(platform, seed, init);
      if Enabled(platform, w, e) {
        NoncePresence(platform, w, e, n);
        NonceWasIssued(platform, seed, w, e, n);
      }
      forall k: nat
        ensures PurgesNonce(platform, seed, events, k, n) <==>
                PurgesNonce(platform, seed, init, k, n) ||
                (k == |init| && e.PurgeExpired? && n in e.nonces && Enabled(platform, w, e))
      {
        assert k <= |init| ==> events[..k] == init[..k];
        assert init[..|init|] == init;
      }
      assert e.PurgeExpired? && n in e.nonces && Enabled(platform, w, e) ==>
        PurgesNonce(platform, seed, events, |init|, n);
    }
  }

  // ---- every session traces back to one verified signature ----------------

  /** The sign-in behind a session row: it selected the nonce's own challenge
      unconsumed and unexpired, its message names the site the nonce was issued
      to and passed the field policy on chain 1, its signature was verified, and
      it is the one request that consumed the nonce. */
  predicate Authenticated(platform: Platform, w: World, id: nat, h: string, row: SessionRow)
  {
    && SigningIn(w, id)
    && var r := w.requests[id];
    && r.stage.SignedIn? && h == platform.sha256Hex(r.stage.token) && IsLowerHex(r.stage.token, 64)
    && r.message.chainId == 1 && row.walletAddress == Lower(r.message.address) && row.chainId == 1
    && row.createdAt == platform.iso(r.stage.at) && row.expiresAt == platform.iso(r.stage.at + 86_400_000)
    && var n, challenge := r.message.nonce, r.stage.row;
    && Challenge(platform, w, n, challenge) && challenge.consumedAt.None? && r.now < w.issued[n].at + CHALLENGE_MS
    && r.identity == w.issued[n].site == Identity(r.message.domain, r.message.uri)
    && platform.fieldsValid(r.message, challenge, r.identity, platform.iso(r.now))
    && platform.verifies(r.message, r.signature, challenge.domain, n, platform.iso(r.now))
    && n in w.consumer && w.consumer[n] == id
    && (n in w.tables.nonces ==>
          && w.tables.nonces[n].consumedAt == Some(platform.iso(r.now))
          && TextLess(platform.iso(r.now), w.tables.nonces[n].expiresAt))
  }

  /** The field policy ties the message to the site that issued the nonce. */
  lemma AcceptedSite(platform: Platform, parse: DateParse, r: Request, row: NonceRow)
    requires Faithful(platform, parse) && r.SignIn? && MessageAccepted(platform, r, row)
    ensures r.identity == Identity(row.domain, row.uri) == Identity(r.message.domain, r.message.uri)
  {
    assert FieldsValid(parse, r.message, r.message.nonce, row, r.identity, platform.iso(r.now));
  }

  lemma TracedAuthenticated(
    platform: Platform, parse: DateParse, seed: map<string, PreferenceRow>, w: World, h: string, row: SessionRow)
    requires Faithful(platform, parse) && Inv(platform, seed, w) && Traced(platform, w, h, row)
    ensures Authenticated(platform, w, w.minter[h], h, row)
  {
    var id := w.minter[h];
    var r := w.requests[id];
    assert RequestOk(platform, w, id);
    AcceptedSite(platform, parse, r, r.stage.row);
    AcceptedInTime(platform, parse, w, r.message.nonce, r.stage.row, r.now);
    ConsumedInTime(platform, parse, seed, w, id);
  }

  lemma AcceptedInTime(platform: Platform, parse: DateParse, w: World, n: string, row: NonceRow, now: int)
    requires Faithful(platform, parse) && Challenge(platform, w, n, row) && ClockSample(now)
    requires TextLess(platform.iso(now), row.expiresAt)
    ensures now < w.issued[n].at + CHALLENGE_MS
  {
    TextClock(platform, parse, now, w.issued[n].at + CHALLENGE_MS);
  }

  lemma ConsumedInTime(platform: Platform, parse: DateParse, seed: map<string, PreferenceRow>, w: World, id: nat)
    requires Inv(platform, seed, w) && SigningIn(w, id) && PastConsume(w.requests[id].stage)
    ensures var r := w.requests[id];
            var n := r.message.nonce;
            n in w.tables.nonces ==>
              && w.tables.nonces[n].consumedAt == Some(platform.iso(r.now))
              && TextLess(platform.iso(r.now), w.tables.nonces[n].expiresAt)
  {
    var n := w.requests[id].message.nonce;
    assert RequestOk(platform, w, id);
    assert ConsumerOk(platform, w, n);
    assert n in w.tables.nonces ==> NonceOk(platform, w, n);
  }

  /** And so is every request that has been given its token. */
  lemma SignedInAuthenticated(platform: Platform, parse: DateParse, seed: map<string, PreferenceRow>, w: World, id: nat)
    requires Faithful(platform, parse) && Inv(platform, seed, w) && SigningIn(w, id) && w.requests[id].stage.SignedIn?
    ensures var r := w.requests[id];
            Authenticated(platform, w, id, platform.sha256Hex(r.stage.token),
                          SessionFor(platform, r.message, r.stage.at))
  {
    var r := w.requests[id];
    assert RequestOk(platform, w, id);
    TracedAuthenticated(platform, parse, seed, w, platform.sha256Hex(r.stage.token),
                        SessionFor(platform, r.message, r.stage.at));
  }

  /** Every session row of every reachable world has exactly one such sign-in. */
  lemma SessionProvenance(
    platform: Platform, parse: DateParse, seed: map<string, PreferenceRow>, events: seq<Event>, h: string)
    returns (id: nat)
    requires Faithful(platform, parse) && h in After(platform, Start(seed), events).tables.sessions
    ensures var w := After(platform, Start(seed), events);
            && Authenticated(platform, w, id, h, w.tables.sessions[h])
            && forall other :: Authenticated(platform, w, other, h, w.tables.sessions[h]) ==> other == id
  {
    var w := After(platform, Start(seed), events);
    Reachable(platform, seed, events);
    assert Traced(platform, w, h, w.tables.sessions[h]);
    id := w.minter[h];
    TracedAuthenticated(platform, parse, seed, w, h, w.tables.sessions[h]);
    forall other | Authenticated(platform, w, other, h, w.tables.sessions[h])
      ensures other == id
    {
      assert RequestOk(platform, w, other);
    }
  }

  // ---- the session table refines a map from wallet to latest session ------

  lemma {:induction false} WritesAt(platform: Platform, w: World, events: seq<Event>, i: nat)
    requires i < |events|
    ensures var before := After(platform, w, events[..i]);
            Writes(platform, w, events)[i] ==
            if Enabled(platform, before, events[i]) then WriteOf(platform, before, events[i]) else Keep
  {
    var init := events[..|events| - 1];
    if i < |events| - 1 {
      WritesAt(platform, w, init, i);
      assert init[..i] == events[..i];
    }
  }

  lemma RunHashesAreFresh(platform: Platform, seed: map<string, PreferenceRow>, events: seq<Event>)
    ensures FreshHashes(Writes(platform, Start(seed), events))
  {
    var ws := Writes(platform, Start(seed), events);
    forall i, j | 0 <= i < j < |ws| && ws[i].ReplaceSession? && ws[j].ReplaceSession?
      ensures ws[i].hash != ws[j].hash
    {
      WritesAt(platform, Start(seed), events, i);
      WritesAt(platform, Start(seed), events, j);
      var a, b := At(platform, seed, events, i), At(platform, seed, events, j);
      WriteKinds(platform, a, events[i]);
      WriteKinds(platform, b, events[j]);
      CommitsOnce(platform, seed, events, i, j);
    }
  }

  /** The table holds exactly each wallet's latest session, one per wallet. */
  lemma SessionTableIsLatest(platform: Platform, seed: map<string, PreferenceRow>, events: seq<Event>)
    ensures var t, ws := After(platform, Start(seed), events).tables, Writes(platform, Start(seed), events);
            && OneSessionPerWallet(t)
            && forall h, row :: (h in t.sessions && t.sessions[h] == row) <==>
               Latest(ws, row.walletAddress) == Some((h, row))
  {
    RunHashesAreFresh(platform, seed, events);
    TablesAreWrites(platform, Start(seed), events);
    SessionsAreLatest(Start(seed).tables, Writes(platform, Start(seed), events));
  }

  /** Restricting a run's writes to one wallet gives the same rows for it. */
  lemma WritesIsolation(platform: Platform, seed: map<string, PreferenceRow>, events: seq<Event>, wallet: string)
    ensures OnlyFor(After(platform, Start(seed), events).tables, wallet)
         == ApplyAll(OnlyFor(Start(seed).tables, wallet), Restrict(Writes(platform, Start(seed), events), wallet))
  {
    RunHashesAreFresh(platform, seed, events);
    TablesAreWrites(platform, Start(seed), events);
    WalletIsolation(Start(seed).tables, Writes(platform, Start(seed), events), wallet);
  }

  // ---- the life of a token ------------------------------------------------

  predicate Spent(w: World, h: string)
  {
    h in w.minter && SigningIn(w, w.minter[h]) && w.requests[w.minter[h]].stage.SignedIn? && h !in w.tables.sessions
  }

  /** No event inserts a row under a spent token's hash. */
  lemma SpentHashStays(platform: Platform, seed: map<string, PreferenceRow>, w: World, e: Event, h: string)
    requires Inv(platform, seed, w) && Spent(w, h) && Enabled(platform, w, e)
    ensures h !in Step(platform, w, e).tables.sessions
  {
    WriteKinds(platform, w, e);
    if e.CommitSession? {
      assert RequestOk(platform, w, e.id);
      assert platform.sha256Hex(w.requests[e.id].stage.token) != h;
    }
    assert h in Step(platform, w, e).tables.sessions ==> false by {
      if h in Step(platform, w, e).tables.sessions {
        SessionEffect(w.tables, WriteOf(platform, w, e), h);
      }
    }
  }

  lemma SpentLater(w: World, v: World, h: string)
    requires Spent(w, h) && Extends(w, v) && h !in v.tables.sessions
    ensures Spent(v, h)
  {
  }

  lemma SpentStep(platform: Platform, seed: map<string, PreferenceRow>, w: World, e: Event, h: string)
    requires Inv(platform, seed, w) && Spent(w, h)
    ensures Spent(Step(platform, w, e), h)
  {
    if Enabled(platform, w, e) {
      StepExtends(platform, seed, w, e);
      SpentHashStays(platform, seed, w, e, h);
      SpentLater(w, Step(platform, w, e), h);
    }
  }

  lemma {:induction false} SpentTokenStaysOut(
    platform: Platform, seed: map<string, PreferenceRow>, events: seq<Event>, i: nat, j: nat, h: string)
    requires i <= j <= |events| && Spent(At(platform, seed, events, i), h)
    ensures Spent(At(platform, seed, events, j), h)
    decreases j - i
  {
    if i < j {
      AtStep(platform, seed, events, i);
      SpentStep(platform, seed, At(platform, seed, events, i), events[i], h);
      SpentTokenStaysOut(platform, seed, events, i + 1, j, h);
    }
  }

  /** The event is the select of a session read whose cookie hashes to `h`. */
  predicate Presents(platform: Platform, w: World, e: Event, h: string)
  {
    && Enabled(platform, w, e) && e.SelectSession?
    && w.requests[e.id].cookie.Some? && platform.sha256Hex(w.requests[e.id].cookie.value) == h
  }

  predicate Reaches(w: World, id: nat, visit: VisitStage) { Visiting(w, id) && w.requests[id].visit == visit }

  /** After replacement, sign-out or purge, every later select refuses the token. */
  lemma SpentIsRefused(
    platform: Platform, seed: map<string, PreferenceRow>, events: seq<Event>, i: nat, k: nat, h: string)
    requires i <= k < |events| && Spent(At(platform, seed, events, i), h)
    requires Presents(platform, At(platform, seed, events, k), events[k], h)
    ensures Reaches(At(platform, seed, events, k + 1), events[k].id, Refused)
  {
    SpentTokenStaysOut(platform, seed, events, i, k, h);
    AtStep(platform, seed, events, k);
  }

  /** A token's row comes once and, once gone, never comes back: no later table
      holds it and no later select finds it. */
  lemma TokenNeverReturns(
    platform: Platform, seed: map<string, PreferenceRow>, events: seq<Event>, i: nat, j: nat, k: nat, h: string)
    requires i <= j <= k <= |events|
    requires h in At(platform, seed, events, i).tables.sessions && h !in At(platform, seed, events, j).tables.sessions
    ensures h !in At(platform, seed, events, k).tables.sessions
    ensures k < |events| && Presents(platform, At(platform, seed, events, k), events[k], h) ==>
              Reaches(At(platform, seed, events, k + 1), events[k].id, Refused)
  {
    var w, v := At(platform, seed, events, i), At(platform, seed, events, j);
    AtExtends(platform, seed, events, i, j);
    assert Traced(platform, w, h, w.tables.sessions[h]);
    TracedLater(platform, w, v, h, w.tables.sessions[h]);
    SpentTokenStaysOut(platform, seed, events, j, k, h);
    if k < |events| && Presents(platform, At(platform, seed, events, k), events[k], h) {
      SpentIsRefused(platform, seed, events, j, k, h);
    }
  }

  /** When the token hash was minted: the clock reading of `createSession`. */
  function MintedAt(w: World, h: string): (r: Option<int>)
  {
    if h in w.minter && SigningIn(w, w.minter[h]) && HasToken(w.requests[w.minter[h]].stage)
    then Some(w.requests[w.minter[h]].stage.at) else None
  }

  lemma ActiveExactly(platform: Platform, parse: DateParse, message: SiweMessage, at: int, observedAt: int)
    requires Faithful(platform, parse) && IsAddress(message.address) && message.chainId == 1 && ClockSample(at)
    ensures platform.activeSession(SessionFor(platform, message, at), observedAt) <==> observedAt < at + SESSION_MS
  {
    var row := SessionFor(platform, message, at);
    LowerAddress(message.address);
    assert IsTime(at + SESSION_MS);
    assert parse(Iso(at + SESSION_MS)) == Some(at + SESSION_MS);
    assert ActiveMainnetSession(parse, row, observedAt) <==> observedAt < at + SESSION_MS;
  }

  /** Both tests a session row must pass come down to one time comparison. */
  lemma RowAcceptedExactly(platform: Platform, parse: DateParse, message: SiweMessage, at: int, observedAt: int)
    requires Faithful(platform, parse) && IsAddress(message.address) && message.chainId == 1
    requires ClockSample(at) && ClockSample(observedAt)
    ensures var row := SessionFor(platform, message, at);
            (TextLess(platform.iso(observedAt), row.expiresAt) && platform.activeSession(row, observedAt))
              <==> observedAt < at + SESSION_MS
  {
    ActiveExactly(platform, parse, message, at, observedAt);
    TextClock(platform, parse, observedAt, at + SESSION_MS);
  }

  lemma MintOf(platform: Platform, seed: map<string, PreferenceRow>, w: World, h: string, row: SessionRow)
    returns (message: SiweMessage, at: int)
    requires Inv(platform, seed, w) && Traced(platform, w, h, row)
    ensures row == SessionFor(platform, message, at) && MintedAt(w, h) == Some(at)
    ensures IsAddress(message.address) && message.chainId == 1 && ClockSample(at)
  {
    assert RequestOk(platform, w, w.minter[h]);
    message, at := w.requests[w.minter[h]].message, w.requests[w.minter[h]].stage.at;
  }

  /** A read accepts a cookie exactly when the row is there and the reading is
      less than 86,400,000 milliseconds after the minting: text comparison and
      policy together refuse nothing else. */
  lemma AcceptedExactly(
    platform: Platform, parse: DateParse, seed: map<string, PreferenceRow>, w: World, token: string, observedAt: int)
    requires Faithful(platform, parse) && Inv(platform, seed, w) && IsLowerHex(token, 64) && ClockSample(observedAt)
    ensures var h := platform.sha256Hex(token);
            && (SessionAccepted(platform, w.tables, Some(token), observedAt) <==>
                  h in w.tables.sessions && MintedAt(w, h).Some? && observedAt < MintedAt(w, h).value + SESSION_MS)
            && (h in w.tables.sessions ==> MintedAt(w, h).Some?)
  {
    var h := platform.sha256Hex(token);
    if h in w.tables.sessions {
      assert Traced(platform, w, h, w.tables.sessions[h]);
      var message, at := MintOf(platform, seed, w, h, w.tables.sessions[h]);
      RowAcceptedExactly(platform, parse, message, at, observedAt);
    }
  }

  /** Every select of a session read in every run: it finds the row of its
      cookie if and only if the cookie is well shaped, the row is in the table at
      that moment, and the reading is within a day of the minting; otherwise the
      request is refused. */
  lemma ReadDecidesExactly(
    platform: Platform, parse: DateParse, seed: map<string, PreferenceRow>, events: seq<Event>, k: nat, h: string)
    requires Faithful(platform, parse) && k < |events|
    requires Presents(platform, At(platform, seed, events, k), events[k], h)
    ensures var w, id := At(platform, seed, events, k), events[k].id;
            Reaches(At(platform, seed, events, k + 1), id,
                    if && TokenShaped(w.requests[id].cookie) && h in w.tables.sessions
                       && MintedAt(w, h).Some? && w.requests[id].observedAt < MintedAt(w, h).value + 86_400_000
                    then Found(h, w.tables.sessions[h]) else Refused)
  {
    var w, id := At(platform, seed, events, k), events[k].id;
    AtStep(platform, seed, events, k);
    if TokenShaped(w.requests[id].cookie) {
      assert RequestOk(platform, w, id);
      AcceptedExactly(platform, parse, seed, w, w.requests[id].cookie.value, w.requests[id].observedAt);
    }
  }

  lemma PurgeEffect(platform: Platform, w: World, e: Event)
    requires Enabled(platform, w, e) && e.PurgeExpired?
    ensures Step(platform, w, e).tables ==
            Tables(w.tables.nonces - e.nonces, w.tables.sessions - e.hashes, w.tables.preferences - e.wallets)
    ensures AllExpired(platform, w.tables, e.cutoff, e.nonces, e.hashes, e.wallets) && ClockSample(e.cutoff)
  {
  }

  lemma ExpiredNonceIsOld(
    platform: Platform, parse: DateParse, seed: map<string, PreferenceRow>, w: World, n: string, cutoff: int)
    requires Faithful(platform, parse) && Inv(platform, seed, w) && ClockSample(cutoff)
    requires n in w.tables.nonces && TextAtMost(w.tables.nonces[n].expiresAt, platform.iso(cutoff))
    ensures n in w.issued && w.issued[n].at + 600_000 <= cutoff
  {
    assert NonceOk(platform, w, n);
    TextClock(platform, parse, w.issued[n].at + CHALLENGE_MS, cutoff);
  }

  lemma ExpiredSessionIsOld(
    platform: Platform, parse: DateParse, seed: map<string, PreferenceRow>, w: World, token: string, cutoff: int)
    requires Faithful(platform, parse) && Inv(platform, seed, w) && ClockSample(cutoff) && IsLowerHex(token, 64)
    requires var h := platform.sha256Hex(token);
             h in w.tables.sessions && TextAtMost(w.tables.sessions[h].expiresAt, platform.iso(cutoff))
    ensures var h := platform.sha256Hex(token);
            && MintedAt(w, h).Some? && MintedAt(w, h).value + 86_400_000 <= cutoff
            && !SessionAccepted(platform, w.tables, Some(token), cutoff)
  {
    var h := platform.sha256Hex(token);
    assert Traced(platform, w, h, w.tables.sessions[h]);
    var message, at := MintOf(platform, seed, w, h, w.tables.sessions[h]);
    TextClock(platform, parse, at + SESSION_MS, cutoff);
    AcceptedExactly(platform, parse, seed, w, token, cutoff);
  }

  /** A purge removes exactly the rows it names, and each of them had run out:
      nonces ten minutes, sessions a day before its reading, preference records by
      their retention. No session it removes
      would still have been accepted. */
  lemma PurgeSparesLive(
    platform: Platform, parse: DateParse, seed: map<string, PreferenceRow>, w: World, e: Event, n: string,
    token: string,
    p: string)
    requires Faithful(platform, parse) && Inv(platform, seed, w) && Enabled(platform, w, e) && e.PurgeExpired?
    requires IsLowerHex(token, 64)
    ensures var t, h := Step(platform, w, e).tables, platform.sha256Hex(token);
            && t == Tables(w.tables.nonces - e.nonces, w.tables.sessions - e.hashes, w.tables.preferences - e.wallets)
            && (n in e.nonces ==> n in w.issued && w.issued[n].at + 600_000 <= e.cutoff)
            && (p in e.wallets ==>
                  p in w.tables.preferences
                  && TextAtMost(w.tables.preferences[p].retentionExpiresAt, platform.iso(e.cutoff)))
            && (h in e.hashes ==>
                  && MintedAt(w, h).Some? && MintedAt(w, h).value + 86_400_000 <= e.cutoff
                  && !SessionAccepted(platform, w.tables, Some(token), e.cutoff))
  {
    PurgeEffect(platform, w, e);
    if n in e.nonces {
      ExpiredNonceIsOld(platform, parse, seed, w, n, e.cutoff);
    }
    if platform.sha256Hex(token) in e.hashes {
      ExpiredSessionIsOld(platform, parse, seed, w, token, e.cutoff);
    }
  }

  /** Event `j` of the run is the select in which request `id` found `row`: the
      row was in the table under the hash of its cookie, within a day of its
      minting. */
  predicate FoundAt(
    platform: Platform, seed: map<string, PreferenceRow>, events: seq<Event>, j: nat, id: nat, row: SessionRow)
  {
    && j < |events| && events[j] == SelectSession(id)
    && var w := At(platform, seed, events, j);
    && Enabled(platform, w, events[j]) && TokenShaped(w.requests[id].cookie)
    && var h := platform.sha256Hex(w.requests[id].cookie.value);
    && h in w.tables.sessions && w.tables.sessions[h] == row
    && MintedAt(w, h).Some? && w.requests[id].observedAt < MintedAt(w, h).value + SESSION_MS
  }

  /** A request gets its session from its own accepted select and keeps it. */
  lemma SessionStep(platform: Platform, w: World, e: Event, id: nat)
    requires Visiting(Step(platform, w, e), id) && HasSession(Step(platform, w, e).requests[id].visit)
    ensures var row := Step(platform, w, e).requests[id].visit.session;
            || (Visiting(w, id) && HasSession(w.requests[id].visit) && w.requests[id].visit.session == row)
            || (&& e == SelectSession(id) && Enabled(platform, w, e)
                && SessionAccepted(platform, w.tables, w.requests[id].cookie, w.requests[id].observedAt)
                && w.tables.sessions[platform.sha256Hex(w.requests[id].cookie.value)] == row)
  {
  }

  /** Every request that holds a session found that very row in the table, at
      an earlier select of its own. */
  lemma {:induction false} VisitHasRead(
    platform: Platform, parse: DateParse, seed: map<string, PreferenceRow>, events: seq<Event>, i: nat, id: nat)
    returns (j: nat)
    requires Faithful(platform, parse) && i <= |events|
    requires Visiting(At(platform, seed, events, i), id) && HasSession(At(platform, seed, events, i).requests[id].visit)
    ensures j < i && FoundAt(platform, seed, events, j, id, At(platform, seed, events, i).requests[id].visit.session)
  {
    assert events[..0] == [];
    AtStep(platform, seed, events, i - 1);
    var w := At(platform, seed, events, i - 1);
    SessionStep(platform, w, events[i - 1], id);
    var session := At(platform, seed, events, i).requests[id].visit.session;
    if Visiting(w, id) && HasSession(w.requests[id].visit) && w.requests[id].visit.session == session {
      j := VisitHasRead(platform, parse, seed, events, i - 1, id);
    } else {
      j := i - 1;
      assert RequestOk(platform, w, id);
      AcceptedExactly(platform, parse, seed, w, w.requests[id].cookie.value, w.requests[id].observedAt);
    }
  }

  lemma SignOutUndoes(sessions: map<string, SessionRow>, h: string, row: SessionRow)
    requires h !in sessions
    ensures OtherWallets(sessions, row.walletAddress)[h := row] - {h} == OtherWallets(sessions, row.walletAddress)
  {
  }

  lemma SignOutEffect(platform: Platform, v: World, token: string)
    requires IsLowerHex(token, 64)
    ensures Step(platform, v, SignOut(Some(token))).tables.sessions == v.tables.sessions - {platform.sha256Hex(token)}
  {
  }

  lemma CommitEffect(platform: Platform, seed: map<string, PreferenceRow>, w: World, id: nat)
    requires Inv(platform, seed, w) && Enabled(platform, w, CommitSession(id))
    ensures var r, v := w.requests[id], Step(platform, w, CommitSession(id));
            var h, row := platform.sha256Hex(r.stage.token), SessionFor(platform, r.message, r.stage.at);
            && v.tables.sessions == OtherWallets(w.tables.sessions, row.walletAddress)[h := row]
            && MintedAt(v, h) == Some(r.stage.at) && IsLowerHex(r.stage.token, 64) && h !in w.tables.sessions
  {
    assert RequestOk(platform, w, id);
    CommitIsFresh(platform, seed, w, id);
  }

  /** Minting, lookup and deletion agree: after the batch the token finds the
      row it was minted for, for exactly a day; signing out with it removes
      that row and leaves every other wallet's. */
  lemma SignInRoundTrip(
    platform: Platform, parse: DateParse, seed: map<string, PreferenceRow>, w: World, id: nat, observedAt: int)
    requires Faithful(platform, parse) && Inv(platform, seed, w) && Enabled(platform, w, CommitSession(id))
    requires ClockSample(observedAt)
    ensures var r, v := w.requests[id], Step(platform, w, CommitSession(id));
            var token, row := r.stage.token, SessionFor(platform, r.message, r.stage.at);
            var h, others := platform.sha256Hex(token), OtherWallets(w.tables.sessions, row.walletAddress);
            && v.tables.sessions == others[h := row]
            && (SessionAccepted(platform, v.tables, Some(token), observedAt) <==> observedAt < r.stage.at + 86_400_000)
            && Step(platform, v, SignOut(Some(token))).tables.sessions == others
  {
    var r, v := w.requests[id], Step(platform, w, CommitSession(id));
    CommitEffect(platform, seed, w, id);
    InvStep(platform, seed, w, CommitSession(id));
    AcceptedExactly(platform, parse, seed, v, r.stage.token, observedAt);
    SignOutEffect(platform, v, r.stage.token);
    SignOutUndoes(w.tables.sessions, platform.sha256Hex(r.stage.token), SessionFor(platform, r.message, r.stage.at));
  }
}
