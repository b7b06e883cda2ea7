/** The server's sign-in policy: lib/siwe-policy.mjs. */
module SiwePolicy {
  import opened Text
  import opened IsoTime
  import opened IsoRead
  import opened Store

  /** The fields the `siwe` package reads out of an EIP-4361 message. */
  datatype SiweMessage = SiweMessage(
    domain: string, address: string, statement: Option<string>, uri: string, version: string, chainId: int,
    nonce: string, issuedAt: Option<string>, expirationTime: Option<string>, notBefore: Option<string>,
    requestId: Option<string>, scheme: Option<string>, resources: seq<string>)

  datatype Identity = Identity(domain: string, origin: string)

  const STATEMENT := "Sign in to TreeSwap. This does not authorize a transaction or move funds."
  const CHAIN_ID := 1
  const MAX_TTL_MS := 600_000
  const CLOCK_SKEW_MS := 30_000

  /** `Date.parse`, not a number where it gives `None`. */
  type DateParse = string -> Option<int>

  /** Section 21.4.3.2 of ECMA-262: parsing a `toISOString` text gives the
      instant back. */
  ghost predicate ParsesIso(parse: DateParse)
  {
    forall t :: IsTime(t) ==> parse(Iso(t)) == Some(t)
  }

  /** Such a parser exists, and is computed digit by digit. */
  lemma ParserExists()
    ensures ParsesIso(s => ReadIso(s))
  {
    forall t | IsTime(t)
      ensures ReadIso(Iso(t)) == Some(t)
    {
      IsoRoundTrip(t);
    }
  }

  function ParseOptional(parse: DateParse, text: Option<string>): Option<int>
  {
    if text.Some? then parse(text.value) else None
  }

  /** What `validateSiweMessageFields` accepts, as one condition. */
  predicate FieldsValid(
    parse: DateParse, message: SiweMessage, nonce: string, row: NonceRow, identity: Identity, now: string)
  {
    var nowMs, createdMs, nonceExpiryMs := parse(now), parse(row.createdAt), parse(row.expiresAt);
    var issuedMs, messageExpiryMs := ParseOptional(parse, message.issuedAt),
                                     ParseOptional(parse, message.expirationTime);
    && nowMs.Some? && createdMs.Some? && nonceExpiryMs.Some? && issuedMs.Some? && messageExpiryMs.Some?
    && message.domain == row.domain == identity.domain
    && message.uri == row.uri == identity.origin
    && message.chainId == CHAIN_ID && message.version == "1" && message.nonce == nonce
    && row.consumedAt.None? && message.statement == Some(STATEMENT)
    && message.scheme.None? && message.requestId.None? && message.notBefore.None? && message.resources == []
    && message.expirationTime == Some(row.expiresAt)
    && nowMs.value < nonceExpiryMs.value
    && createdMs.value <= issuedMs.value <= nowMs.value + CLOCK_SKEW_MS
    && issuedMs.value < messageExpiryMs.value <= issuedMs.value + MAX_TTL_MS
  }

  datatype Reason =
    | InvalidServerChallengeTime | DomainChanged | URIChanged | ChainChanged
    | VersionChanged | NonceChanged | NonceAlreadyConsumed | StatementChanged
    | UnexpectedScheme | UnexpectedRequestIdentifier | UnexpectedNotBeforeTime | UnexpectedResources
    | InvalidMessageTime | ExpirationChanged | NonceExpired | IssuedBeforeChallenge
    | IssuedInTheFuture | InvalidMessageLifetime | MessageLifetimeIsTooLong

  /** `if (changed) reasons.push(reason)` */
  function PushIf(reasons: seq<Reason>, changed: bool, reason: Reason): (r: seq<Reason>)
    ensures r == [] <==> reasons == [] && !changed
  {
    if changed then reasons + [reason] else reasons
  }

  /** `validateSiweMessageFields`, collecting the reasons in the source's order. */
  method ValidateSiweMessageFields(
    parse: DateParse, message: SiweMessage, nonce: string, row: NonceRow, identity: Identity, now: string)
    returns (reasons: seq<Reason>)
    ensures reasons == [] <==> FieldsValid(parse, message, nonce, row, identity, now)
  {
    reasons := [];
    var nowMs, createdMs, nonceExpiryMs := parse(now), parse(row.createdAt), parse(row.expiresAt);
    var issuedMs, messageExpiryMs := ParseOptional(parse, message.issuedAt),
                                     ParseOptional(parse, message.expirationTime);
    reasons := PushIf(reasons, nowMs.None? || createdMs.None? || nonceExpiryMs.None?, InvalidServerChallengeTime);
    reasons := PushIf(reasons, message.domain != row.domain || message.domain != identity.domain, DomainChanged);
    reasons := PushIf(reasons, message.uri != row.uri || message.uri != identity.origin, URIChanged);
    reasons := PushIf(reasons, message.chainId != CHAIN_ID, ChainChanged);
    reasons := PushIf(reasons, message.version != "1", VersionChanged);
    reasons := PushIf(reasons, message.nonce != nonce, NonceChanged);
    reasons := PushIf(reasons, row.consumedAt.Some?, NonceAlreadyConsumed);
    reasons := PushIf(reasons, message.statement != Some(STATEMENT), StatementChanged);
    reasons := PushIf(reasons, message.scheme.Some?, UnexpectedScheme);
    reasons := PushIf(reasons, message.requestId.Some?, UnexpectedRequestIdentifier);
    reasons := PushIf(reasons, message.notBefore.Some?, UnexpectedNotBeforeTime);
    reasons := PushIf(reasons, message.resources != [], UnexpectedResources);
    reasons := PushIf(reasons, issuedMs.None? || messageExpiryMs.None?, InvalidMessageTime);
    reasons := PushIf(reasons, message.expirationTime != Some(row.expiresAt), ExpirationChanged);
    reasons := PushIf(reasons, nowMs.Some? && nonceExpiryMs.Some? && nonceExpiryMs.value <= nowMs.value, NonceExpired);
    reasons := PushIf(
      reasons, issuedMs.Some? && createdMs.Some? && issuedMs.value < createdMs.value, IssuedBeforeChallenge);
    reasons := PushIf(
      reasons, issuedMs.Some? && nowMs.Some? && issuedMs.value > nowMs.value + CLOCK_SKEW_MS, IssuedInTheFuture);
    reasons := PushIf(
      reasons, messageExpiryMs.Some? && issuedMs.Some? && messageExpiryMs.value <= issuedMs.value,
      InvalidMessageLifetime);
    reasons := PushIf(
      reasons, messageExpiryMs.Some? && issuedMs.Some? && messageExpiryMs.value - issuedMs.value > MAX_TTL_MS,
      MessageLifetimeIsTooLong);
  }

  /** `isActiveMainnetSession` */
  predicate ActiveMainnetSession(parse: DateParse, row: SessionRow, observedAt: int)
  {
    && IsLowerAddress(row.walletAddress)
    && row.chainId == CHAIN_ID
    && parse(row.expiresAt).Some? && parse(row.expiresAt).value > observedAt
  }

  /** A session row is refused for any chain but mainnet, for a wallet with a
      capital, and from its expiry on; among rows of a lower-case address on
      mainnet, time alone decides. */
  lemma ActiveOnMainnetOnly(parse: DateParse, row: SessionRow, observedAt: int)
    ensures row.chainId != 1 || !NoCapitals(row.walletAddress) || !IsAddress(row.walletAddress) ==>
              !ActiveMainnetSession(parse, row, observedAt)
    ensures row.chainId == 1 && NoCapitals(row.walletAddress) && IsAddress(row.walletAddress) ==>
              (ActiveMainnetSession(parse, row, observedAt) <==>
               parse(row.expiresAt).Some? && observedAt < parse(row.expiresAt).value)
  {
    var a := row.walletAddress;
    if IsAddress(a) {
      assert forall k :: 2 <= k < |a| ==> a[k] == a[2..][k - 2];
      assert NoCapitals(a) <==> IsLowerHex(a[2..], 40);
    }
  }

  /** On a challenge issued at `c`, the time checks come down to one window:
      issued no earlier than the challenge, at most thirty seconds ahead of the
      server, both before the challenge's expiry. The lifetime limit adds
      nothing to it. */
  lemma ChallengeWindow(
    parse: DateParse, message: SiweMessage, row: NonceRow, identity: Identity, now: string, c: int, t: int, issued: int)
    requires parse(row.createdAt) == Some(c) && parse(row.expiresAt) == Some(c + MAX_TTL_MS)
    requires parse(now) == Some(t) && ParseOptional(parse, message.issuedAt) == Some(issued)
    ensures FieldsValid(parse, message, message.nonce, row, identity, now) <==>
      && message.domain == row.domain == identity.domain && message.uri == row.uri == identity.origin
      && message.chainId == CHAIN_ID && message.version == "1" && row.consumedAt.None?
      && message.statement == Some(STATEMENT) && message.expirationTime == Some(row.expiresAt)
      && message.scheme.None? && message.requestId.None? && message.notBefore.None? && message.resources == []
      && t < c + MAX_TTL_MS && c <= issued < c + MAX_TTL_MS && issued <= t + CLOCK_SKEW_MS
  {
  }
}
