/** The browser half of sign-in against an arbitrary wallet, and what it adds
    up to with the server. */
module WalletAccount {
  import opened Text
  import opened IsoTime
  import opened Hex
  import opened Store
  import opened SiwePolicy
  import opened Account
  import opened AccountInvariant
  import opened AccountTheorems

  /** `GET /api/auth/nonce` as the client receives it. */
  datatype Challenge = Challenge(nonce: string, domain: string, uri: string, expiresAt: string)

  /** Every answer the wallet, the server and the clock would give, in the
      order `signIn` could ask for it; `None` is a rejection. */
  datatype Script = Script(
    walletPresent: bool,
    requestedAccounts: Option<seq<string>>,
    chainId: Option<string>,
    switched: bool,
    chainIdAfterSwitch: Option<string>,
    challenge: Option<Challenge>,
    issuedAt: string,
    signature: Option<string>,
    signedAccounts: Option<seq<string>>,
    signedChainId: Option<string>)

  /** `/^[a-zA-Z0-9]{8,}$/` */
  predicate IsNonce(s: string)
  {
    |s| >= 8 && forall k :: 0 <= k < |s| ==> 'a' <= s[k] <= 'z' || 'A' <= s[k] <= 'Z' || '0' <= s[k] <= '9'
  }

  /** `buildSiweMessage`; `host` reads the host out of a URI, `None` where the
      URI does not parse. */
  function BuildMessage(
    host: string -> Option<string>, address: string, c: Challenge, issuedAt: string): (r: Option<SiweMessage>)
  {
    if c.domain == "" || !IsAddress(address) || !IsNonce(c.nonce) || host(c.uri) != Some(c.domain) then None
    else Some(SiweMessage(c.domain, address, Some(STATEMENT), c.uri, "1", CHAIN_ID, c.nonce,
                          Some(issuedAt), Some(c.expiresAt), None, None, None, []))
  }

  datatype Posted = Posted(message: SiweMessage, signature: string)

  predicate OnMainnet(s: Script)
  {
    s.chainId.Some? && (s.chainId.value == "0x1" || (s.switched && s.chainIdAfterSwitch == Some("0x1")))
  }

  /** What must hold for `signIn` to post this message and signature: chain 0x1
      read before and after signing, and after signing the account of the
      message, up to case. */
  predicate Posts(host: string -> Option<string>, s: Script, message: SiweMessage, signature: string)
  {
    && s.walletPresent && s.requestedAccounts.Some? && s.requestedAccounts.value != []
    && IsAddress(s.requestedAccounts.value[0])
    && OnMainnet(s) && s.challenge.Some? && s.signature == Some(signature)
    && BuildMessage(host, s.requestedAccounts.value[0], s.challenge.value, s.issuedAt) == Some(message)
    && s.signedAccounts.Some? && s.signedAccounts.value != []
    && SameUpToCase(s.signedAccounts.value[0], s.requestedAccounts.value[0]) && s.signedChainId == Some("0x1")
  }

  /** `signIn` up to the verify request. */
  method SignIn(host: string -> Option<string>, s: Script) returns (posted: Option<Posted>)
    ensures posted.Some? ==> Posts(host, s, posted.value.message, posted.value.signature)
    ensures forall message, signature :: Posts(host, s, message, signature) ==>
            posted == Some(Posted(message, signature))
  {
    posted := None;
    if !s.walletPresent || s.requestedAccounts.None? { return; }
    var accounts := s.requestedAccounts.value;
    if |accounts| == 0 || !IsAddress(accounts[0]) { return; }
    var address := accounts[0];

    if s.chainId.None? { return; }
    var chainId := s.chainId.value;
    if chainId != "0x1" {
      if !s.switched || s.chainIdAfterSwitch.None? { return; }
      chainId := s.chainIdAfterSwitch.value;
    }
    if chainId != "0x1" { return; }

    if s.challenge.None? { return; }
    var message := BuildMessage(host, address, s.challenge.value, s.issuedAt);
    if message.None? || s.signature.None? { return; }

    if s.signedAccounts.None? || s.signedChainId.None? { return; }
    if |s.signedAccounts.value| == 0 { return; }
    LowerMerges(s.signedAccounts.value[0], address);
    if Lower(s.signedAccounts.value[0]) != Lower(address) { return; }
    if s.signedChainId.value != "0x1" { return; }
    posted := Some(Posted(message.value, s.signature.value));
  }

  // ---- client and server --------------------------------------------------

  /** Whatever else happens on the server, a session opened by a posted message
      is for the address of the account that was active after signing, with its
      capitals lowered and nothing else changed, on chain 1, with the posted
      signature verified for it. */
  lemma PostedSessionIsForSigner(
    platform: Platform, parse: DateParse, seed: map<string, PreferenceRow>, events: seq<Event>,
    host: string -> Option<string>, s: Script, id: nat, h: string)
    requires Faithful(platform, parse)
    requires var w := After(platform, Start(seed), events);
             && SigningIn(w, id) && Posts(host, s, w.requests[id].message, w.requests[id].signature)
             && w.requests[id].stage.SignedIn? && h == platform.sha256Hex(w.requests[id].stage.token)
             && h in w.tables.sessions
    ensures var w := After(platform, Start(seed), events);
            var wallet := w.tables.sessions[h].walletAddress;
            && SameUpToCase(wallet, s.signedAccounts.value[0]) && NoCapitals(wallet)
            && w.tables.sessions[h].chainId == 1 && IsLowerAddress(wallet)
            && Authenticated(platform, w, id, h, w.tables.sessions[h])
  {
    var w := After(platform, Start(seed), events);
    var signer := SessionProvenance(platform, parse, seed, events, h);
    Reachable(platform, seed, events);
    assert RequestOk(platform, w, id);
    assert RequestOk(platform, w, signer);
    LowerAddress(w.requests[id].message.address);
    SignerKey(host, s, w.requests[id].message, w.requests[id].signature);
  }

  lemma SignerKey(host: string -> Option<string>, s: Script, message: SiweMessage, signature: string)
    requires Posts(host, s, message, signature)
    ensures var wallet, signer := Lower(message.address), s.signedAccounts.value[0];
            wallet == Lower(signer) && SameUpToCase(wallet, signer) && NoCapitals(wallet)
  {
    LowerMerges(s.signedAccounts.value[0], message.address);
    LowerFixes(s.signedAccounts.value[0]);
  }

  /** Two sign-ins open sessions for one wallet, so that each replaces the
      other's, exactly when their signers' addresses agree up to case. */
  lemma SignersShareWalletExactly(
    platform: Platform, host: string -> Option<string>, first: Script, second: Script, a: Posted, b: Posted,
    atFirst: int, atSecond: int, sessions: map<string, SessionRow>, h: string)
    requires Posts(host, first, a.message, a.signature) && Posts(host, second, b.message, b.signature)
    requires h in sessions && sessions[h] == SessionFor(platform, a.message, atFirst)
    ensures var replaced := h !in OtherWallets(sessions, SessionFor(platform, b.message, atSecond).walletAddress);
            replaced <==> SameUpToCase(first.signedAccounts.value[0], second.signedAccounts.value[0])
  {
    SignerKey(host, first, a.message, a.signature);
    SignerKey(host, second, b.message, b.signature);
    LowerMerges(first.signedAccounts.value[0], second.signedAccounts.value[0]);
  }

  lemma ReadsBack(platform: Platform, parse: DateParse, t: int)
    requires Faithful(platform, parse) && FourDigitRange(t)
    ensures parse(platform.iso(t)) == Some(t)
  {
    assert IsTime(t);
    assert parse(Iso(t)) == Some(t);
  }

  /** A message the client builds from the server's own challenge passes the
      field policy exactly inside the time window. */
  lemma BuiltMessagePasses(
    platform: Platform, parse: DateParse, host: string -> Option<string>, address: string, c: Challenge,
    issuedAt: string, row: NonceRow, created: int, now: int, issued: int)
    requires Faithful(platform, parse) && ClockSample(created) && ClockSample(now)
    requires row == NonceRow(c.domain, c.uri, platform.iso(created), platform.iso(created + CHALLENGE_MS), None)
    requires c.expiresAt == row.expiresAt
    requires BuildMessage(host, address, c, issuedAt).Some? && parse(issuedAt) == Some(issued)
    ensures var m := BuildMessage(host, address, c, issuedAt).value;
            platform.fieldsValid(m, row, Identity(c.domain, c.uri), platform.iso(now)) <==>
            now < created + CHALLENGE_MS && created <= issued < created + CHALLENGE_MS && issued <= now + CLOCK_SKEW_MS
  {
    var message := BuildMessage(host, address, c, issuedAt).value;
    ReadsBack(platform, parse, created);
    ReadsBack(platform, parse, created + CHALLENGE_MS);
    ReadsBack(platform, parse, now);
    ChallengeWindow(parse, message, row, Identity(c.domain, c.uri), platform.iso(now), created, now, issued);
    assert FieldsValid(parse, message, message.nonce, row, Identity(c.domain, c.uri), platform.iso(now)) <==>
           platform.fieldsValid(message, row, Identity(c.domain, c.uri), platform.iso(now));
  }

  // ---- an undisturbed sign-in succeeds ------------------------------------

  /** The four steps from arrival to the consumed nonce. */
  function Claim(
    platform: Platform, w: World, id: nat, m: SiweMessage, signature: string, identity: Identity, now: int): World
  {
    Step(platform, Step(platform, Step(platform, Step(platform, w,
      BeginSignIn(id, m, signature, identity, now)), SelectNonce(id)), CheckMessage(id)), UpdateNonce(id))
  }

  lemma ClaimReads(
    platform: Platform, w: World, id: nat, m: SiweMessage, signature: string, identity: Identity, now: int)
    requires Enabled(platform, w, BeginSignIn(id, m, signature, identity, now))
    requires Live(platform, w.tables, m.nonce, now)
    requires MessageAccepted(platform, Request.SignIn(m, signature, identity, now, Arrived), w.tables.nonces[m.nonce])
    ensures var arrived := Step(platform, w, BeginSignIn(id, m, signature, identity, now));
            var checked := Request.SignIn(m, signature, identity, now, Checked(w.tables.nonces[m.nonce]));
            Step(platform, Step(platform, arrived, SelectNonce(id)), CheckMessage(id)) ==
            w.(requests := w.requests[id := checked])
  {
    var row := w.tables.nonces[m.nonce];
    var w1 := Step(platform, w, BeginSignIn(id, m, signature, identity, now));
    assert w1 == w.(requests := w.requests[id := Request.SignIn(m, signature, identity, now, Arrived)]);
    var w2 := Step(platform, w1, SelectNonce(id));
    assert w2.requests == w.requests[id := Request.SignIn(m, signature, identity, now, Selected(row))];
    var w3 := Step(platform, w2, CheckMessage(id));
    assert w3.requests == w.requests[id := Request.SignIn(m, signature, identity, now, Checked(row))];
  }

  lemma ClaimSucceeds(
    platform: Platform, w: World, id: nat, m: SiweMessage, signature: string, identity: Identity, now: int)
    requires Enabled(platform, w, BeginSignIn(id, m, signature, identity, now))
    requires Live(platform, w.tables, m.nonce, now)
    requires MessageAccepted(platform, Request.SignIn(m, signature, identity, now, Arrived), w.tables.nonces[m.nonce])
    ensures var v := Claim(platform, w, id, m, signature, identity, now);
            && id in v.requests
            && v.requests[id] == Request.SignIn(m, signature, identity, now, Consumed(w.tables.nonces[m.nonce]))
            && v.minter == w.minter && v.tables.sessions == w.tables.sessions
  {
    ClaimReads(platform, w, id, m, signature, identity, now);
  }

  /** Undisturbed, the nonce is claimed exactly when it is live and the message
      is accepted. */
  lemma ClaimExactly(
    platform: Platform, w: World, id: nat, m: SiweMessage, signature: string, identity: Identity, now: int)
    requires Enabled(platform, w, BeginSignIn(id, m, signature, identity, now))
    ensures HasConsumed(Claim(platform, w, id, m, signature, identity, now), id) <==>
            && Live(platform, w.tables, m.nonce, now)
            && MessageAccepted(platform, Request.SignIn(m, signature, identity, now, Arrived), w.tables.nonces[m.nonce])
  {
  }

  /** The challenge `GET /api/auth/nonce` answers with. */
  function Answered(platform: Platform, nonceBytes: seq<byte>, domain: string, origin: string, created: int): Challenge
  {
    Challenge.Challenge(RandomHex(nonceBytes), domain, origin, platform.iso(created + CHALLENGE_MS))
  }

  /** The server's challenge always fits the client: a message is built from it
      exactly when the domain is not empty, the origin's host is the domain, and
      the account is an address. */
  lemma AnsweredBuilds(
    platform: Platform, nonceBytes: seq<byte>, domain: string, origin: string, created: int,
    host: string -> Option<string>, address: string, issuedAt: string)
    requires |nonceBytes| == 16
    ensures var c := Answered(platform, nonceBytes, domain, origin, created);
            BuildMessage(host, address, c, issuedAt).Some? <==>
            domain != "" && host(origin) == Some(domain) && IsAddress(address)
  {
    var nonce := RandomHex(nonceBytes);
    assert |nonce| == 32 && forall k :: 0 <= k < |nonce| ==> IsLowerHexDigit(nonce[k]);
    assert IsNonce(nonce);
  }

  lemma IssuedRow(
    platform: Platform, seed: map<string, PreferenceRow>, w: World, nonceBytes: seq<byte>, domain: string,
    origin: string, created: int)
    requires Inv(platform, seed, w) && Enabled(platform, w, IssueNonce(nonceBytes, domain, origin, created))
    ensures var t := Step(platform, w, IssueNonce(nonceBytes, domain, origin, created)).tables;
            && RandomHex(nonceBytes) in t.nonces
            && t.nonces[RandomHex(nonceBytes)] ==
               NonceRow(domain, origin, platform.iso(created), platform.iso(created + CHALLENGE_MS), None)
  {
    var n := RandomHex(nonceBytes);
    assert n in w.tables.nonces ==> NonceOk(platform, w, n);
  }

  lemma IssuedRowAccepts(
    platform: Platform, parse: DateParse, t: Tables, host: string -> Option<string>, address: string, c: Challenge,
    issuedAt: string, created: int, issued: int, signature: string, now: int)
    requires Faithful(platform, parse) && ClockSample(created) && ClockSample(now) && c.nonce in t.nonces
    requires c.expiresAt == platform.iso(created + CHALLENGE_MS)
    requires t.nonces[c.nonce] ==
             NonceRow(c.domain, c.uri, platform.iso(created), platform.iso(created + CHALLENGE_MS), None)
    requires BuildMessage(host, address, c, issuedAt).Some? && parse(issuedAt) == Some(issued)
    ensures var m := BuildMessage(host, address, c, issuedAt).value;
            Live(platform, t, m.nonce, now) &&
            MessageAccepted(platform, Request.SignIn(m, signature, Identity(c.domain, c.uri), now, Arrived),
                            t.nonces[m.nonce]) <==>
              && platform.verifies(m, signature, c.domain, c.nonce, platform.iso(now))
              && now < created + CHALLENGE_MS && created <= issued < created + CHALLENGE_MS
              && issued <= now + CLOCK_SKEW_MS
  {
    BuiltMessagePasses(platform, parse, host, address, c, issuedAt, t.nonces[c.nonce], created, now, issued);
    TextClock(platform, parse, now, created + CHALLENGE_MS);
  }

  /** Challenge, client message and verify request together: from any reachable
      world, the message the client builds from the server's answer claims its
      nonce exactly when its signature verifies and both clocks are inside the
      challenge's ten minutes, the client's at most thirty seconds ahead. */
  lemma IssuedChallengeIsClaimedExactly(
    platform: Platform, parse: DateParse, seed: map<string, PreferenceRow>, w: World, nonceBytes: seq<byte>,
    domain: string, origin: string, created: int, host: string -> Option<string>, address: string, issuedAt: string,
    issued: int, id: nat, signature: string, now: int)
    requires Faithful(platform, parse) && Inv(platform, seed, w)
    requires Enabled(platform, w, IssueNonce(nonceBytes, domain, origin, created))
    requires BuildMessage(host, address, Answered(platform, nonceBytes, domain, origin, created), issuedAt).Some?
    requires parse(issuedAt) == Some(issued)
    requires id !in w.requests && IsHexWord(signature, 130) && ClockSample(now)
    ensures var m := BuildMessage(host, address, Answered(platform, nonceBytes, domain, origin, created),
                                  issuedAt).value;
            var v := Step(platform, w, IssueNonce(nonceBytes, domain, origin, created));
            HasConsumed(Claim(platform, v, id, m, signature, Identity(domain, origin), now), id) <==>
              && platform.verifies(m, signature, domain, RandomHex(nonceBytes), platform.iso(now))
              && now < created + 600_000 && created <= issued < created + 600_000
              && issued <= now + 30_000
  {
    var c := Answered(platform, nonceBytes, domain, origin, created);
    var m := BuildMessage(host, address, c, issuedAt).value;
    var v := Step(platform, w, IssueNonce(nonceBytes, domain, origin, created));
    IssuedRow(platform, seed, w, nonceBytes, domain, origin, created);
    IssuedRowAccepts(platform, parse, v.tables, host, address, c, issuedAt, created, issued, signature, now);
    ClaimExactly(platform, v, id, m, signature, Identity(domain, origin), now);
  }

  /** From any reachable world, a sign-in nobody disturbs, with a live nonce and
      an accepted message, opens a session for its wallet; its token is then
      accepted for exactly a day. */
  lemma UndisturbedSignIn(
    platform: Platform, parse: DateParse, seed: map<string, PreferenceRow>, w: World, id: nat, m: SiweMessage,
    signature: string, identity: Identity, now: int, bytes: seq<byte>, at: int, observedAt: int)
    requires Faithful(platform, parse) && Inv(platform, seed, w) && ClockSample(observedAt)
    requires Enabled(platform, w, BeginSignIn(id, m, signature, identity, now))
    requires Live(platform, w.tables, m.nonce, now)
    requires MessageAccepted(platform, Request.SignIn(m, signature, identity, now, Arrived), w.tables.nonces[m.nonce])
    requires |bytes| == 32 && ClockSample(at) && platform.sha256Hex(RandomHex(bytes)) !in w.minter
    ensures var u := Step(platform, Claim(platform, w, id, m, signature, identity, now), MintToken(id, bytes, at));
            var v, token := Step(platform, u, CommitSession(id)), RandomHex(bytes);
            var h := platform.sha256Hex(token);
            && v.tables.sessions ==
               OtherWallets(w.tables.sessions, Lower(m.address))[h := SessionFor(platform, m, at)]
            && (SessionAccepted(platform, v.tables, Some(token), observedAt) <==> observedAt < at + SESSION_MS)
  {
    ClaimSucceeds(platform, w, id, m, signature, identity, now);
    ClaimKeepsInv(platform, seed, w, id, m, signature, identity, now);
    OpenClaimed(platform, parse, seed, w, Claim(platform, w, id, m, signature, identity, now), id, m, bytes, at,
                observedAt);
  }

  /** The same from any world `c` in which the nonce has been claimed and the
      sessions are still those of `w`. */
  lemma OpenClaimed(
    platform: Platform, parse: DateParse, seed: map<string, PreferenceRow>, w: World, c: World, id: nat, m: SiweMessage,
    bytes: seq<byte>, at: int, observedAt: int)
    requires Faithful(platform, parse) && Inv(platform, seed, c) && ClockSample(observedAt)
    requires HasConsumed(c, id) && c.requests[id].message == m && c.minter == w.minter
    requires c.tables.sessions == w.tables.sessions
    requires |bytes| == 32 && ClockSample(at) && platform.sha256Hex(RandomHex(bytes)) !in w.minter
    ensures var u := Step(platform, c, MintToken(id, bytes, at));
            var v, token := Step(platform, u, CommitSession(id)), RandomHex(bytes);
            var h := platform.sha256Hex(token);
            && v.tables.sessions ==
               OtherWallets(w.tables.sessions, Lower(m.address))[h := SessionFor(platform, m, at)]
            && (SessionAccepted(platform, v.tables, Some(token), observedAt) <==> observedAt < at + SESSION_MS)
  {
    OpenSession(platform, parse, seed, c, id, bytes, at, observedAt);
  }

  lemma OpenSession(
    platform: Platform, parse: DateParse, seed: map<string, PreferenceRow>, c: World, id: nat, bytes: seq<byte>,
    at: int, observedAt: int)
    requires Faithful(platform, parse) && Inv(platform, seed, c) && ClockSample(observedAt)
    requires Enabled(platform, c, MintToken(id, bytes, at))
    ensures var v := Step(platform, Step(platform, c, MintToken(id, bytes, at)), CommitSession(id));
            var m, token := c.requests[id].message, RandomHex(bytes);
            var h := platform.sha256Hex(token);
            && v.tables.sessions ==
               OtherWallets(c.tables.sessions, Lower(m.address))[h := SessionFor(platform, m, at)]
            && (SessionAccepted(platform, v.tables, Some(token), observedAt) <==> observedAt < at + SESSION_MS)
  {
    InvStep(platform, seed, c, MintToken(id, bytes, at));
    MintSucceeds(platform, c, id, bytes, at);
    SignInRoundTrip(platform, parse, seed, Step(platform, c, MintToken(id, bytes, at)), id, observedAt);
  }

  lemma MintSucceeds(platform: Platform, c: World, id: nat, bytes: seq<byte>, at: int)
    requires Enabled(platform, c, MintToken(id, bytes, at))
    ensures var u := Step(platform, c, MintToken(id, bytes, at));
            && Enabled(platform, u, CommitSession(id)) && u.tables == c.tables
            && u.requests[id].message == c.requests[id].message
            && u.requests[id].stage.token == RandomHex(bytes) && u.requests[id].stage.at == at
  {
  }

  lemma ClaimKeepsInv(
    platform: Platform, seed: map<string, PreferenceRow>, w: World, id: nat, m: SiweMessage, signature: string,
    identity: Identity, now: int)
    requires Inv(platform, seed, w)
    ensures Inv(platform, seed, Claim(platform, w, id, m, signature, identity, now))
  {
    var w1 := Step(platform, w, BeginSignIn(id, m, signature, identity, now));
    InvStep(platform, seed, w, BeginSignIn(id, m, signature, identity, now));
    InvStep(platform, seed, w1, SelectNonce(id));
    InvStep(platform, seed, Step(platform, w1, SelectNonce(id)), CheckMessage(id));
    InvStep(platform, seed, Step(platform, Step(platform, w1, SelectNonce(id)), CheckMessage(id)), UpdateNonce(id));
  }
}
