/** A run from an empty store that ends in a session read returning an expired
    record: the gap between the sweep and the select is reachable. */
module StaleRead {
  import opened Text
  import opened Hex
  import opened Store
  import opened SiwePolicy
  import opened Account
  import opened AccountInvariant
  import opened AccountPreferences
  import opened WalletAccount

  /** One wallet signs in, as request 0. */
  datatype Opening = Opening(
    nonceBytes: seq<byte>, site: Identity, created: int, message: SiweMessage, signature: string, now: int,
    bytes: seq<byte>, mint: int)

  function IssueEvent(o: Opening): Event { IssueNonce(o.nonceBytes, o.site.domain, o.site.origin, o.created) }

  function SignInEvents(o: Opening): seq<Event>
  {
    [BeginSignIn(0, o.message, o.signature, o.site, o.now), SelectNonce(0), CheckMessage(0), UpdateNonce(0),
     MintToken(0, o.bytes, o.mint), CommitSession(0)]
  }

  function OpeningEvents(o: Opening): seq<Event> { [IssueEvent(o)] + SignInEvents(o) }

  /** A session read with that token, up to its sweep. */
  function ReadEvents(id: nat, token: string, observedAt: int, task: Task): seq<Event>
  {
    [BeginVisit(id, Some(token), observedAt, task), SelectSession(id), SweepPreference(id)]
  }

  /** Sign in; request 1 sweeps; request 2 reads its session and is about to
      save the record. */
  function StaleRun(o: Opening, observedAt: int, task: Task, at: int): seq<Event>
  {
    var token := RandomHex(o.bytes);
    OpeningEvents(o) + ReadEvents(1, token, observedAt, ReadAccount)
    + (ReadEvents(2, token, at, task) + [SelectPreference(2)])
  }

  function IssuedRecord(platform: Platform, o: Opening): NonceRow
  {
    NonceRow(o.site.domain, o.site.origin, platform.iso(o.created), platform.iso(o.created + CHALLENGE_MS), None)
  }

  /** The message answers the server's challenge in time, and is accepted. */
  predicate Opens(platform: Platform, o: Opening)
  {
    && |o.nonceBytes| == 16 && |o.bytes| == 32 && IsHexWord(o.signature, 130) && IsAddress(o.message.address)
    && ClockSample(o.created) && ClockSample(o.now) && ClockSample(o.mint)
    && o.message.nonce == RandomHex(o.nonceBytes) && o.now < o.created + CHALLENGE_MS
    && MessageAccepted(platform, Request.SignIn(o.message, o.signature, o.site, o.now, Arrived),
                       IssuedRecord(platform, o))
  }

  /** Events that neither begin request `id` nor save a record. */
  predicate Quiet(events: seq<Event>, id: nat)
  {
    forall k :: 0 <= k < |events| ==>
      !events[k].UpsertPreference? && !((events[k].BeginSignIn? || events[k].BeginVisit?) && events[k].id == id)
  }

  lemma {:induction false} QuietRun(platform: Platform, w: World, events: seq<Event>, id: nat)
    requires id !in w.requests && Quiet(events, id)
    ensures id !in After(platform, w, events).requests
    ensures w.tables.preferences == map[] ==> After(platform, w, events).tables.preferences == map[]
  {
    if events != [] {
      QuietRun(platform, w, events[..|events| - 1], id);
      QuietStep(platform, After(platform, w, events[..|events| - 1]), events[|events| - 1], id);
    }
  }

  lemma QuietStep(platform: Platform, w: World, e: Event, id: nat)
    requires id !in w.requests && Quiet([e], id)
    ensures id !in Step(platform, w, e).requests
    ensures w.tables.preferences == map[] ==> Step(platform, w, e).tables.preferences == map[]
  {
    assert [e][0] == e;
  }

  lemma AfterThree(platform: Platform, w: World, a: Event, b: Event, c: Event)
    ensures After(platform, w, [a, b, c]) == Step(platform, Step(platform, Step(platform, w, a), b), c)
  {
    assert [a, b, c][..2] == [a, b] && [a, b][..1] == [a];
    AfterOne(platform, w, a);
    assert After(platform, w, [a, b]) == Step(platform, Step(platform, w, a), b);
  }

  /** A read of an accepted token in a store without records, up to its sweep. */
  lemma ReadSweeps(platform: Platform, w: World, id: nat, token: string, observedAt: int, task: Task)
    requires id !in w.requests && ClockSample(observedAt) && w.tables.preferences == map[]
    requires SessionAccepted(platform, w.tables, Some(token), observedAt)
    ensures var h := platform.sha256Hex(token);
            After(platform, w, ReadEvents(id, token, observedAt, task)) ==
            w.(requests := w.requests[id := Visit(Some(token), observedAt, task, Swept(h, w.tables.sessions[h]))])
  {
    var h := platform.sha256Hex(token);
    var row := w.tables.sessions[h];
    AfterThree(platform, w, BeginVisit(id, Some(token), observedAt, task), SelectSession(id), SweepPreference(id));
    var u := Step(platform, w, BeginVisit(id, Some(token), observedAt, task));
    assert u == w.(requests := w.requests[id := Visit(Some(token), observedAt, task, Presented)]);
    ReadFinds(platform, u, id);
    var v := Step(platform, u, SelectSession(id));
    SweepFindsNothing(platform, v, id);
  }

  lemma ReadFinds(platform: Platform, u: World, id: nat)
    requires Enabled(platform, u, SelectSession(id))
    requires SessionAccepted(platform, u.tables, u.requests[id].cookie, u.requests[id].observedAt)
    ensures var r := u.requests[id];
            var h := platform.sha256Hex(r.cookie.value);
            Step(platform, u, SelectSession(id)) ==
              u.(requests := u.requests[id := r.(visit := Found(h, u.tables.sessions[h]))])
  {
  }

  lemma SweepFindsNothing(platform: Platform, v: World, id: nat)
    requires Enabled(platform, v, SweepPreference(id)) && v.tables.preferences == map[]
    ensures var r := v.requests[id];
            Step(platform, v, SweepPreference(id)) ==
            v.(requests := v.requests[id := r.(visit := Swept(r.visit.hash, r.visit.session))])
  {
  }

  /** The opening leaves one session, accepted for a day, and nothing else. */
  lemma OpeningSignsIn(platform: Platform, parse: DateParse, o: Opening, observedAt: int)
    requires Faithful(platform, parse) && Opens(platform, o) && ClockSample(observedAt)
    ensures var v := After(platform, Start(map[]), OpeningEvents(o));
            && 1 !in v.requests && 2 !in v.requests && v.tables.preferences == map[]
            && (SessionAccepted(platform, v.tables, Some(RandomHex(o.bytes)), observedAt) <==>
                observedAt < o.mint + SESSION_MS)
  {
    var start := Start(map[]);
    OpeningIsQuiet(o, 1);
    OpeningIsQuiet(o, 2);
    QuietRun(platform, start, OpeningEvents(o), 1);
    QuietRun(platform, start, OpeningEvents(o), 2);
    AfterConcat(platform, start, [IssueEvent(o)], SignInEvents(o));
    AfterOne(platform, start, IssueEvent(o));
    IssueOpens(platform, parse, o);
    SignInAccepted(platform, parse, o, Step(platform, start, IssueEvent(o)), observedAt);
  }

  lemma OpeningIsQuiet(o: Opening, id: nat)
    requires id != 0
    ensures Quiet(OpeningEvents(o), id)
  {
  }

  /** What `UndisturbedSignIn` asks of the world after the issue. */
  predicate Ready(platform: Platform, w: World, o: Opening)
  {
    && Enabled(platform, w, BeginSignIn(0, o.message, o.signature, o.site, o.now))
    && Live(platform, w.tables, o.message.nonce, o.now) && w.minter == map[]
    && MessageAccepted(platform, Request.SignIn(o.message, o.signature, o.site, o.now, Arrived),
                       w.tables.nonces[o.message.nonce])
  }

  lemma IssueOpens(platform: Platform, parse: DateParse, o: Opening)
    requires Faithful(platform, parse) && Opens(platform, o)
    ensures Inv(platform, map[], Step(platform, Start(map[]), IssueEvent(o)))
    ensures Ready(platform, Step(platform, Start(map[]), IssueEvent(o)), o)
  {
    IssueFacts(platform, o);
    TextClock(platform, parse, o.now, o.created + CHALLENGE_MS);
  }

  lemma IssueFacts(platform: Platform, o: Opening)
    requires |o.nonceBytes| == 16 && ClockSample(o.created)
    ensures var w := Step(platform, Start(map[]), IssueEvent(o));
            && Inv(platform, map[], w) && w.requests == map[] && w.minter == map[]
            && RandomHex(o.nonceBytes) in w.tables.nonces
            && w.tables.nonces[RandomHex(o.nonceBytes)] == IssuedRecord(platform, o)
  {
    Reachable(platform, map[], []);
    InvStep(platform, map[], Start(map[]), IssueEvent(o));
    IssuedRow(platform, map[], Start(map[]), o.nonceBytes, o.site.domain, o.site.origin, o.created);
  }

  lemma SignInAccepted(platform: Platform, parse: DateParse, o: Opening, w: World, observedAt: int)
    requires Faithful(platform, parse) && Inv(platform, map[], w) && Ready(platform, w, o) && ClockSample(observedAt)
    requires |o.bytes| == 32 && ClockSample(o.mint)
    ensures var t := After(platform, w, SignInEvents(o)).tables;
            SessionAccepted(platform, t, Some(RandomHex(o.bytes)), observedAt) <==> observedAt < o.mint + SESSION_MS
  {
    AfterSix(platform, w, BeginSignIn(0, o.message, o.signature, o.site, o.now), SelectNonce(0), CheckMessage(0),
             UpdateNonce(0), MintToken(0, o.bytes, o.mint), CommitSession(0));
    UndisturbedSignIn(platform, parse, map[], w, 0, o.message, o.signature, o.site, o.now, o.bytes, o.mint, observedAt);
  }

  lemma AfterSix(platform: Platform, w: World, a: Event, b: Event, c: Event, d: Event, e: Event, f: Event)
    ensures After(platform, w, [a, b, c, d, e, f]) ==
            var v := Step(platform, Step(platform, Step(platform, w, a), b), c);
            Step(platform, Step(platform, Step(platform, v, d), e), f)
  {
    assert [a, b, c] + [d, e, f] == [a, b, c, d, e, f];
    AfterConcat(platform, w, [a, b, c], [d, e, f]);
    AfterThree(platform, w, a, b, c);
    AfterThree(platform, After(platform, w, [a, b, c]), d, e, f);
  }

  /** From an empty store: one wallet signs in, request 1 sweeps at `observedAt`
      while the session still has time left, request 2 saves on a clock a day or
      more behind it, and request 1's select returns the expired record. A clock
      one millisecond behind the minting one, and a save delayed by a day, is
      enough. */
  lemma StaleReadIsReachable(platform: Platform, parse: DateParse, o: Opening, observedAt: int, task: Task, at: int)
    requires Faithful(platform, parse) && Opens(platform, o)
    requires task.SaveEmail? && TaskAccepted(platform, task) && ClockSample(at) && ClockSample(observedAt)
    requires at + RETENTION_MS <= observedAt < o.mint + SESSION_MS
    ensures var w := After(platform, Start(map[]), StaleRun(o, observedAt, task, at));
            var v := Step(platform, Step(platform, w, UpsertPreference(2, at)), SelectPreference(1));
            && Enabled(platform, w, UpsertPreference(2, at)) && Enabled(platform, w, SelectPreference(1))
            && Returns(v, 1, PreferenceFor(platform, task, at))
            && Expired(PreferenceFor(platform, task, at), platform.iso(observedAt))
  {
    var token := RandomHex(o.bytes);
    var v := After(platform, Start(map[]), OpeningEvents(o));
    OpeningSignsIn(platform, parse, o, observedAt);
    OpeningSignsIn(platform, parse, o, at);
    var tail := ReadEvents(2, token, at, task) + [SelectPreference(2)];
    AfterConcat(platform, Start(map[]), OpeningEvents(o), ReadEvents(1, token, observedAt, ReadAccount));
    AfterConcat(platform, Start(map[]), OpeningEvents(o) + ReadEvents(1, token, observedAt, ReadAccount), tail);
    ReadSweeps(platform, v, 1, token, observedAt, ReadAccount);
    var u := After(platform, v, ReadEvents(1, token, observedAt, ReadAccount));
    ReadSweeps(platform, u, 2, token, at, task);
    AfterConcat(platform, u, ReadEvents(2, token, at, task), [SelectPreference(2)]);
    AfterOne(platform, After(platform, u, ReadEvents(2, token, at, task)), SelectPreference(2));
    StaleWriteIsReturned(platform, parse, After(platform, u, tail), 1, 2, at);
  }
}
