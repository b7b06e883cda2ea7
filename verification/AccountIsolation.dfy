/** One wallet's share of a run. Dropping every other wallet's visits, sign-outs,
    mintings and batches from a run, and running what is left, gives this wallet
    the same rows and takes its requests through the same stages. */
module AccountIsolation {
  import opened Text
  import opened Store
  import opened Account
  import opened AccountInvariant

  // ---- whose request, whose event -----------------------------------------

  /** The token hash was minted for `wallet` in the run that ended in `final`. */
  predicate Owns(final: World, wallet: string, h: string)
  {
    && h in final.minter && SigningIn(final, final.minter[h])
    && Lower(final.requests[final.minter[h]].message.address) == wallet
  }

  /** A sign-in of the wallet, or a visit with one of its tokens. */
  predicate Mine(platform: Platform, final: World, wallet: string, r: Request)
  {
    if r.SignIn? then Lower(r.message.address) == wallet
    else TokenShaped(r.cookie) && Owns(final, wallet, platform.sha256Hex(r.cookie.value))
  }

  predicate MineIn(platform: Platform, final: World, wallet: string, w: World, id: nat)
  {
    id in w.requests && Mine(platform, final, wallet, w.requests[id])
  }

  /** The part of an event that stays. Nonce steps are shared by all wallets; a
      purge keeps its nonces and the wallet's own rows. */
  function Narrowed(platform: Platform, final: World, wallet: string, w: World, e: Event): (r: Option<Event>)
    requires Enabled(platform, w, e)
  {
    match e
    case IssueNonce(_, _, _, _) => Some(e)
    case BeginSignIn(_, _, _, _, _) => Some(e)
    case SelectNonce(_) => Some(e)
    case CheckMessage(_) => Some(e)
    case UpdateNonce(_) => Some(e)
    case BeginVisit(_, cookie, observedAt, task) =>
      if Mine(platform, final, wallet, Visit(cookie, observedAt, task, Presented)) then Some(e) else None
    case SignOut(cookie) =>
      if TokenShaped(cookie) && Owns(final, wallet, platform.sha256Hex(cookie.value)) then Some(e) else None
    case PurgeExpired(actor, cutoff, nonces, hashes, wallets) =>
      Some(PurgeExpired(if actor.Some? && MineIn(platform, final, wallet, w, actor.value) then actor else None,
                        cutoff, nonces, RowsOf(w.tables, hashes, wallet), wallets * {wallet}))
    case _ => if MineIn(platform, final, wallet, w, e.id) then Some(e) else None
  }

  function RowsOf(t: Tables, hashes: set<string>, wallet: string): set<string>
  {
    set h | h in hashes && h in t.sessions && t.sessions[h].walletAddress == wallet
  }

  /** The wallet's share of the events that happened. */
  function Share(platform: Platform, final: World, wallet: string, w: World, events: seq<Event>): (r: seq<Event>)
  {
    if events == [] then [] else
      var init, e := events[..|events| - 1], events[|events| - 1];
      var before := After(platform, w, init);
      Share(platform, final, wallet, w, init) +
      if Enabled(platform, before, e) && Narrowed(platform, final, wallet, before, e).Some?
      then [Narrowed(platform, final, wallet, before, e).value] else []
  }

  // ---- what the share's run sees ------------------------------------------

  /** Every nonce, and this wallet's sessions and preferences. */
  function View(t: Tables, wallet: string): Tables
  {
    Tables(t.nonces, SessionsOf(t.sessions, wallet), PreferencesOf(t.preferences, wallet))
  }

  predicate Kept(platform: Platform, final: World, wallet: string, r: Request)
  {
    r.SignIn? || Mine(platform, final, wallet, r)
  }

  /** The wallet's own requests as they are; another wallet's sign-in gets no
      further than its consumed nonce. */
  function Seen(platform: Platform, final: World, wallet: string, r: Request): Request
  {
    if !Mine(platform, final, wallet, r) && r.SignIn? && HasToken(r.stage)
    then r.(stage := Consumed(r.stage.row)) else r
  }

  function SeenRequests(
    platform: Platform, final: World, wallet: string, requests: map<nat, Request>): map<nat, Request>
  {
    map id | id in requests && Kept(platform, final, wallet, requests[id]) ::
      Seen(platform, final, wallet, requests[id])
  }

  predicate Mirrors(platform: Platform, final: World, wallet: string, w: World, r: World)
  {
    && r.tables == View(w.tables, wallet) && r.issued == w.issued && r.consumer == w.consumer
    && r.requests == SeenRequests(platform, final, wallet, w.requests)
    && r.minter.Keys <= w.minter.Keys
  }

  lemma SeenUpdate(platform: Platform, final: World, wallet: string, requests: map<nat, Request>, id: nat, s: Request)
    requires id in requests ==> (Kept(platform, final, wallet, requests[id]) <==> Kept(platform, final, wallet, s))
    ensures SeenRequests(platform, final, wallet, requests[id := s]) ==
            if Kept(platform, final, wallet, s)
            then SeenRequests(platform, final, wallet, requests)[id := Seen(platform, final, wallet, s)]
            else SeenRequests(platform, final, wallet, requests)
  {
  }

  /** A session row belongs to the wallet exactly when its token does. */
  lemma TracedOwner(platform: Platform, w: World, final: World, wallet: string, h: string, row: SessionRow)
    requires Extends(w, final) && Traced(platform, w, h, row)
    ensures Owns(final, wallet, h) <==> row.walletAddress == wallet
  {
  }

  lemma VisitOwner(
    platform: Platform, seed: map<string, PreferenceRow>, w: World, final: World, wallet: string, id: nat)
    requires Inv(platform, seed, w) && Extends(w, final) && Visiting(w, id) && HasSession(w.requests[id].visit)
    ensures Mine(platform, final, wallet, w.requests[id]) <==> w.requests[id].visit.session.walletAddress == wallet
  {
    var r := w.requests[id];
    assert RequestOk(platform, w, id);
    TracedOwner(platform, w, final, wallet, r.visit.hash, r.visit.session);
  }

  // ---- tables -------------------------------------------------------------

  /** The part of a write that reaches the wallet's view. */
  function NarrowTo(t: Tables, write: Write, wallet: string): Write
  {
    match write
    case ReplaceSession(_, row) => if row.walletAddress == wallet then write else Keep
    case DeleteSession(hash) => if hash in SessionsOf(t.sessions, wallet) then write else Keep
    case SavePreference(w, _) => if w == wallet then write else Keep
    case DeletePreference(w) => if w == wallet then write else Keep
    case ExpirePreference(w, _) => if w == wallet then write else Keep
    case Purge(nonces, hashes, wallets) => Purge(nonces, RowsOf(t, hashes, wallet), wallets * {wallet})
    case _ => write
  }

  lemma ViewApply(t: Tables, write: Write, wallet: string)
    requires write.ReplaceSession? ==> write.hash !in t.sessions
    ensures View(Apply(t, write), wallet) == Apply(View(t, wallet), NarrowTo(t, write, wallet))
  {
    match write {
      case ReplaceSession(hash, row) =>
        NarrowReplace(t.sessions, hash, row, wallet);
      case DeleteSession(hash) =>
        NarrowRemove(t.sessions, {hash}, if hash in SessionsOf(t.sessions, wallet) then {hash} else {}, wallet);
        assert SessionsOf(t.sessions, wallet) - {} == SessionsOf(t.sessions, wallet);
      case Purge(_, hashes, wallets) =>
        NarrowRemove(t.sessions, hashes, RowsOf(t, hashes, wallet), wallet);
        RemovePreferences(t.preferences, wallets, wallet);
      case DeletePreference(w) =>
        RemovePreferences(t.preferences, {w}, wallet);
      case ExpirePreference(w, _) =>
        RemovePreferences(t.preferences, {w}, wallet);
      case _ =>
    }
  }

  // ---- one event ----------------------------------------------------------

  /** `r` mirrors `w`, where event `e` is about to happen. */
  predicate Tracks(
    platform: Platform, final: World, seed: map<string, PreferenceRow>, wallet: string, w: World, r: World, e: Event)
  {
    && Inv(platform, seed, w) && Extends(w, final) && Mirrors(platform, final, wallet, w, r) && Enabled(platform, w, e)
  }

  /** The event moves one sign-in along its nonce, or begins it. */
  predicate NonceStep(e: Event) { e.BeginSignIn? || e.SelectNonce? || e.CheckMessage? || e.UpdateNonce? }

  predicate TokenStep(e: Event) { e.MintToken? || e.CommitSession? }

  predicate VisitStep(e: Event)
  {
    e.SelectSession? || e.SweepPreference? || e.SelectPreference? || e.UpsertPreference? || e.RemovePreference?
  }

  /** A sign-in is kept, and one without a token is seen as it is. */
  lemma SeenSignIn(platform: Platform, final: World, wallet: string, w: World, r: World, id: nat)
    requires Mirrors(platform, final, wallet, w, r) && SigningIn(w, id) && !HasToken(w.requests[id].stage)
    ensures SigningIn(r, id) && r.requests[id] == w.requests[id] && r.tables.nonces == w.tables.nonces
  {
  }

  lemma NonceStepAlike(
    platform: Platform, final: World, seed: map<string, PreferenceRow>, wallet: string, w: World, r: World, e: Event)
    requires Tracks(platform, final, seed, wallet, w, r, e) && NonceStep(e)
    ensures Enabled(platform, r, e) && Moves(platform, w, e).Some?
    ensures var (id, s) := Moves(platform, w, e).value;
            && Moves(platform, r, e) == Some((id, s)) && s.SignIn? && !HasToken(s.stage)
            && (id in w.requests ==> w.requests[id].SignIn?)
  {
    if !e.BeginSignIn? {
      SeenSignIn(platform, final, wallet, w, r, e.id);
    }
  }

  lemma TokenStepAlike(
    platform: Platform, final: World, seed: map<string, PreferenceRow>, wallet: string, w: World, r: World, e: Event)
    requires Tracks(platform, final, seed, wallet, w, r, e) && TokenStep(e)
    ensures Moves(platform, w, e).Some? && Moves(platform, w, e).value.0 == e.id
    ensures Moves(platform, w, e).value.1.SignIn?
    ensures var s := Moves(platform, w, e).value.1;
            if MineIn(platform, final, wallet, w, e.id) then
              Enabled(platform, r, e) && Moves(platform, r, e) == Some((e.id, s)) && Mine(platform, final, wallet, s)
            else Seen(platform, final, wallet, s) == Seen(platform, final, wallet, w.requests[e.id])
  {
    assert RequestOk(platform, w, e.id);
    if e.CommitSession? {
      CommitIsFresh(platform, seed, w, e.id);
    }
  }

  /** The wallet's own visit is seen as it is. */
  lemma SeenVisit(platform: Platform, final: World, wallet: string, w: World, r: World, id: nat)
    requires Mirrors(platform, final, wallet, w, r) && MineIn(platform, final, wallet, w, id) && w.requests[id].Visit?
    ensures id in r.requests && r.requests[id] == w.requests[id]
  {
  }

  /** The wallet's own select decides alike on the view. */
  lemma AcceptedAlike(
    platform: Platform, final: World, seed: map<string, PreferenceRow>, wallet: string, w: World,
    cookie: Option<string>, observedAt: int)
    requires Inv(platform, seed, w) && Extends(w, final)
    requires TokenShaped(cookie) && Owns(final, wallet, platform.sha256Hex(cookie.value))
    ensures var h := platform.sha256Hex(cookie.value);
            && (SessionAccepted(platform, w.tables, cookie, observedAt) <==>
                SessionAccepted(platform, View(w.tables, wallet), cookie, observedAt))
            && (h in w.tables.sessions ==>
                  h in View(w.tables, wallet).sessions && View(w.tables, wallet).sessions[h] == w.tables.sessions[h])
  {
    var h := platform.sha256Hex(cookie.value);
    if h in w.tables.sessions {
      assert Traced(platform, w, h, w.tables.sessions[h]);
      TracedOwner(platform, w, final, wallet, h, w.tables.sessions[h]);
    }
  }

  lemma VisitStepAlike(
    platform: Platform, final: World, seed: map<string, PreferenceRow>, wallet: string, w: World, r: World, e: Event)
    requires Tracks(platform, final, seed, wallet, w, r, e) && VisitStep(e)
    ensures Moves(platform, w, e).Some? && Moves(platform, w, e).value.0 == e.id && Moves(platform, w, e).value.1.Visit?
    ensures var s := Moves(platform, w, e).value.1;
            && (Mine(platform, final, wallet, s) <==> MineIn(platform, final, wallet, w, e.id))
            && (Mine(platform, final, wallet, s) ==>
                Enabled(platform, r, e) && Moves(platform, r, e) == Some((e.id, s)))
  {
    var q := w.requests[e.id];
    if MineIn(platform, final, wallet, w, e.id) {
      SeenVisit(platform, final, wallet, w, r, e.id);
      if e.SelectSession? {
        AcceptedAlike(platform, final, seed, wallet, w, q.cookie, q.observedAt);
      } else {
        VisitOwner(platform, seed, w, final, wallet, e.id);
      }
    }
  }

  lemma BeginVisitAlike(
    platform: Platform, final: World, seed: map<string, PreferenceRow>, wallet: string, w: World, r: World, e: Event)
    requires Tracks(platform, final, seed, wallet, w, r, e) && e.BeginVisit?
    ensures var s := Visit(e.cookie, e.observedAt, e.task, Presented);
            && Enabled(platform, r, e) && e.id !in w.requests
            && Moves(platform, w, e) == Some((e.id, s)) && Moves(platform, r, e) == Some((e.id, s))
  {
  }

  lemma PurgeAlike(
    platform: Platform, final: World, seed: map<string, PreferenceRow>, wallet: string, w: World, r: World, e: Event)
    requires Tracks(platform, final, seed, wallet, w, r, e) && e.PurgeExpired?
    ensures var n := Narrowed(platform, final, wallet, w, e).value;
            && Enabled(platform, r, n)
            && (Moves(platform, w, e).Some? <==> e.actor.Some?)
            && (e.actor.Some? ==>
                  var (id, s) := Moves(platform, w, e).value;
                  && id == e.actor.value && id in w.requests
                  && (Kept(platform, final, wallet, w.requests[id]) <==> Kept(platform, final, wallet, s))
                  && (Kept(platform, final, wallet, s) <==> n.actor.Some?)
                  && (n.actor.Some? ==>
                      Moves(platform, r, n) == Some((id, s)) && Seen(platform, final, wallet, s) == s))
            && (n.actor.None? ==> Moves(platform, r, n) == None)
  {
  }

  /** The share's step takes the seen requests where the event takes them. */
  predicate RequestsFollow(platform: Platform, final: World, wallet: string, w: World, r: World, e: Event)
    requires Enabled(platform, w, e)
  {
    var n, after := Narrowed(platform, final, wallet, w, e),
                    SeenRequests(platform, final, wallet, Requests(platform, w, e));
    if n.Some? then Enabled(platform, r, n.value) && Requests(platform, r, n.value) == after else r.requests == after
  }

  lemma NonceStepFollows(
    platform: Platform, final: World, seed: map<string, PreferenceRow>, wallet: string, w: World, r: World, e: Event)
    requires Tracks(platform, final, seed, wallet, w, r, e) && NonceStep(e)
    ensures RequestsFollow(platform, final, wallet, w, r, e)
  {
    NonceStepAlike(platform, final, seed, wallet, w, r, e);
    var (id, s) := Moves(platform, w, e).value;
    SeenUpdate(platform, final, wallet, w.requests, id, s);
  }

  lemma TokenStepFollows(
    platform: Platform, final: World, seed: map<string, PreferenceRow>, wallet: string, w: World, r: World, e: Event)
    requires Tracks(platform, final, seed, wallet, w, r, e) && TokenStep(e)
    ensures RequestsFollow(platform, final, wallet, w, r, e)
  {
    TokenStepAlike(platform, final, seed, wallet, w, r, e);
    SeenUpdate(platform, final, wallet, w.requests, e.id, Moves(platform, w, e).value.1);
  }

  lemma VisitStepFollows(
    platform: Platform, final: World, seed: map<string, PreferenceRow>, wallet: string, w: World, r: World, e: Event)
    requires Tracks(platform, final, seed, wallet, w, r, e) && VisitStep(e)
    ensures RequestsFollow(platform, final, wallet, w, r, e)
  {
    VisitStepAlike(platform, final, seed, wallet, w, r, e);
    SeenUpdate(platform, final, wallet, w.requests, e.id, Moves(platform, w, e).value.1);
  }

  lemma OtherStepFollows(
    platform: Platform, final: World, seed: map<string, PreferenceRow>, wallet: string, w: World, r: World, e: Event)
    requires Tracks(platform, final, seed, wallet, w, r, e) && (e.BeginVisit? || e.PurgeExpired?)
    ensures RequestsFollow(platform, final, wallet, w, r, e)
  {
    if e.BeginVisit? {
      BeginVisitAlike(platform, final, seed, wallet, w, r, e);
    } else {
      PurgeAlike(platform, final, seed, wallet, w, r, e);
    }
    if Moves(platform, w, e).Some? {
      var (id, s) := Moves(platform, w, e).value;
      SeenUpdate(platform, final, wallet, w.requests, id, s);
    }
  }

  lemma RequestsAlike(
    platform: Platform, final: World, seed: map<string, PreferenceRow>, wallet: string, w: World, r: World, e: Event)
    requires Tracks(platform, final, seed, wallet, w, r, e)
    ensures RequestsFollow(platform, final, wallet, w, r, e)
  {
    if NonceStep(e) {
      NonceStepFollows(platform, final, seed, wallet, w, r, e);
    } else if TokenStep(e) {
      TokenStepFollows(platform, final, seed, wallet, w, r, e);
    } else if VisitStep(e) {
      VisitStepFollows(platform, final, seed, wallet, w, r, e);
    } else if e.BeginVisit? || e.PurgeExpired? {
      OtherStepFollows(platform, final, seed, wallet, w, r, e);
    }
  }

  lemma VisitWriteAlike(
    platform: Platform, final: World, seed: map<string, PreferenceRow>, wallet: string, w: World, r: World, e: Event)
    requires Tracks(platform, final, seed, wallet, w, r, e) && VisitStep(e)
    ensures if MineIn(platform, final, wallet, w, e.id) then
              Enabled(platform, r, e) && WriteOf(platform, r, e) == NarrowTo(w.tables, WriteOf(platform, w, e), wallet)
            else NarrowTo(w.tables, WriteOf(platform, w, e), wallet) == Keep
  {
    VisitStepAlike(platform, final, seed, wallet, w, r, e);
    if !e.SelectSession? {
      VisitOwner(platform, seed, w, final, wallet, e.id);
    }
  }

  lemma SignOutAlike(
    platform: Platform, final: World, seed: map<string, PreferenceRow>, wallet: string, w: World, r: World, e: Event)
    requires Tracks(platform, final, seed, wallet, w, r, e) && e.SignOut?
    ensures Apply(r.tables, NarrowTo(w.tables, WriteOf(platform, w, e), wallet)) ==
            if Narrowed(platform, final, wallet, w, e).Some? then Apply(r.tables, WriteOf(platform, r, e)) else r.tables
  {
    if TokenShaped(e.cookie) {
      var h := platform.sha256Hex(e.cookie.value);
      if h in w.tables.sessions {
        assert Traced(platform, w, h, w.tables.sessions[h]);
        TracedOwner(platform, w, final, wallet, h, w.tables.sessions[h]);
      }
      assert h !in r.tables.sessions ==> r.tables.sessions - {h} == r.tables.sessions;
    }
  }

  lemma SignInWriteAlike(
    platform: Platform, final: World, seed: map<string, PreferenceRow>, wallet: string, w: World, r: World, e: Event)
    requires Tracks(platform, final, seed, wallet, w, r, e)
    requires e.IssueNonce? || NonceStep(e) || TokenStep(e) || e.BeginVisit?
    ensures var n, write := Narrowed(platform, final, wallet, w, e),
                            NarrowTo(w.tables, WriteOf(platform, w, e), wallet);
            if n.Some? then Enabled(platform, r, n.value) && WriteOf(platform, r, n.value) == write else write == Keep
  {
    RequestsAlike(platform, final, seed, wallet, w, r, e);
  }

  /** And it takes the view of the tables where the event takes the tables. */
  predicate TablesFollow(platform: Platform, final: World, wallet: string, w: World, r: World, e: Event)
    requires Enabled(platform, w, e)
  {
    var n, after := Narrowed(platform, final, wallet, w, e), View(Apply(w.tables, WriteOf(platform, w, e)), wallet);
    if n.Some? then Enabled(platform, r, n.value) && Apply(r.tables, WriteOf(platform, r, n.value)) == after
    else r.tables == after
  }

  lemma SignInTablesFollow(
    platform: Platform, final: World, seed: map<string, PreferenceRow>, wallet: string, w: World, r: World, e: Event)
    requires Tracks(platform, final, seed, wallet, w, r, e)
    requires e.IssueNonce? || NonceStep(e) || TokenStep(e) || e.BeginVisit?
    ensures TablesFollow(platform, final, wallet, w, r, e)
  {
    WriteKinds(platform, w, e);
    if e.CommitSession? {
      CommitIsFresh(platform, seed, w, e.id);
    }
    ViewApply(w.tables, WriteOf(platform, w, e), wallet);
    SignInWriteAlike(platform, final, seed, wallet, w, r, e);
  }

  lemma VisitTablesFollow(
    platform: Platform, final: World, seed: map<string, PreferenceRow>, wallet: string, w: World, r: World, e: Event)
    requires Tracks(platform, final, seed, wallet, w, r, e) && VisitStep(e)
    ensures TablesFollow(platform, final, wallet, w, r, e)
  {
    WriteKinds(platform, w, e);
    ViewApply(w.tables, WriteOf(platform, w, e), wallet);
    VisitWriteAlike(platform, final, seed, wallet, w, r, e);
  }

  lemma OtherTablesFollow(
    platform: Platform, final: World, seed: map<string, PreferenceRow>, wallet: string, w: World, r: World, e: Event)
    requires Tracks(platform, final, seed, wallet, w, r, e) && (e.SignOut? || e.PurgeExpired?)
    ensures TablesFollow(platform, final, wallet, w, r, e)
  {
    WriteKinds(platform, w, e);
    ViewApply(w.tables, WriteOf(platform, w, e), wallet);
    if e.SignOut? {
      SignOutAlike(platform, final, seed, wallet, w, r, e);
    } else {
      PurgeAlike(platform, final, seed, wallet, w, r, e);
    }
  }

  lemma TablesAlike(
    platform: Platform, final: World, seed: map<string, PreferenceRow>, wallet: string, w: World, r: World, e: Event)
    requires Tracks(platform, final, seed, wallet, w, r, e)
    ensures TablesFollow(platform, final, wallet, w, r, e)
  {
    if VisitStep(e) {
      VisitTablesFollow(platform, final, seed, wallet, w, r, e);
    } else if e.SignOut? || e.PurgeExpired? {
      OtherTablesFollow(platform, final, seed, wallet, w, r, e);
    } else {
      SignInTablesFollow(platform, final, seed, wallet, w, r, e);
    }
  }

  lemma IssuedAlike(
    platform: Platform, final: World, seed: map<string, PreferenceRow>, wallet: string, w: World, r: World, e: Event)
    requires Tracks(platform, final, seed, wallet, w, r, e)
    ensures var n := Narrowed(platform, final, wallet, w, e);
            && Issued(w, e) == (if n.Some? then Issued(r, n.value) else r.issued)
            && (if n.Some? then Minters(platform, r, n.value) else r.minter).Keys <= Minters(platform, w, e).Keys
  {
  }

  lemma ConsumersAlike(
    platform: Platform, final: World, seed: map<string, PreferenceRow>, wallet: string, w: World, r: World, e: Event)
    requires Tracks(platform, final, seed, wallet, w, r, e)
    requires var n := Narrowed(platform, final, wallet, w, e); n.Some? ==> Enabled(platform, r, n.value)
    ensures var n := Narrowed(platform, final, wallet, w, e);
            Consumers(platform, w, e) == if n.Some? then Consumers(platform, r, n.value) else r.consumer
  {
    if e.UpdateNonce? {
      SeenSignIn(platform, final, wallet, w, r, e.id);
    }
  }

  lemma MirrorsStep(
    platform: Platform, final: World, seed: map<string, PreferenceRow>, wallet: string, w: World, r: World, e: Event)
    requires Tracks(platform, final, seed, wallet, w, r, e)
    ensures var n := Narrowed(platform, final, wallet, w, e);
            Mirrors(platform, final, wallet, Step(platform, w, e), if n.Some? then Step(platform, r, n.value) else r)
  {
    RequestsAlike(platform, final, seed, wallet, w, r, e);
    TablesAlike(platform, final, seed, wallet, w, r, e);
    IssuedAlike(platform, final, seed, wallet, w, r, e);
    ConsumersAlike(platform, final, seed, wallet, w, r, e);
    if Narrowed(platform, final, wallet, w, e).Some? {
      StepIs(platform, r, Narrowed(platform, final, wallet, w, e).value);
    }
    StepIs(platform, w, e);
  }

  lemma StepIs(platform: Platform, w: World, e: Event)
    requires Enabled(platform, w, e)
    ensures var v := Step(platform, w, e);
            && v.tables == Apply(w.tables, WriteOf(platform, w, e)) && v.requests == Requests(platform, w, e)
            && v.issued == Issued(w, e) && v.consumer == Consumers(platform, w, e)
            && v.minter == Minters(platform, w, e)
  {
  }

  // ---- the whole run ------------------------------------------------------

  lemma {:induction false} ShareMirrors(
    platform: Platform, final: World, seed: map<string, PreferenceRow>, wallet: string, events: seq<Event>)
    requires Extends(After(platform, Start(seed), events), final)
    ensures Mirrors(platform, final, wallet, After(platform, Start(seed), events),
                    After(platform, Start(PreferencesOf(seed, wallet)),
                          Share(platform, final, wallet, Start(seed), events)))
  {
    if events != [] {
      var init, e := events[..|events| - 1], events[|events| - 1];
      var w, share := After(platform, Start(seed), init), Share(platform, final, wallet, Start(seed), init);
      Reachable(platform, seed, init);
      InvStep(platform, seed, w, e);
      assert Extends(w, final) by {
        if Enabled(platform, w, e) {
          ExtendsTransitive(w, Step(platform, w, e), final);
        }
      }
      ShareMirrors(platform, final, seed, wallet, init);
      ShareStep(platform, final, seed, wallet, w, After(platform, Start(PreferencesOf(seed, wallet)), share), e);
      ShareMore(platform, final, wallet, Start(seed), events, Start(PreferencesOf(seed, wallet)));
    }
  }

  /** The share's next event, if any. */
  function ShareOf(platform: Platform, final: World, wallet: string, w: World, r: World, e: Event): World
  {
    if Enabled(platform, w, e) && Narrowed(platform, final, wallet, w, e).Some?
    then Step(platform, r, Narrowed(platform, final, wallet, w, e).value) else r
  }

  lemma ShareStep(
    platform: Platform, final: World, seed: map<string, PreferenceRow>, wallet: string, w: World, r: World, e: Event)
    requires Inv(platform, seed, w) && Extends(w, final) && Mirrors(platform, final, wallet, w, r)
    ensures Mirrors(platform, final, wallet, Step(platform, w, e), ShareOf(platform, final, wallet, w, r, e))
  {
    if Enabled(platform, w, e) {
      MirrorsStep(platform, final, seed, wallet, w, r, e);
    }
  }

  lemma ShareMore(platform: Platform, final: World, wallet: string, w: World, events: seq<Event>, own: World)
    requires events != []
    ensures var init, e := events[..|events| - 1], events[|events| - 1];
            After(platform, own, Share(platform, final, wallet, w, events)) ==
            ShareOf(platform, final, wallet, After(platform, w, init),
                    After(platform, own, Share(platform, final, wallet, w, init)), e)
  {
    var init := events[..|events| - 1];
    var share, longer := Share(platform, final, wallet, w, init), Share(platform, final, wallet, w, events);
    if |longer| > |share| {
      assert longer[..|longer| - 1] == share;
    } else {
      assert longer == share;
    }
  }

  /** Running only the wallet's share of any run, from a store with only its
      record, ends with the same nonces, exactly the wallet's sessions and
      preferences of the full run, and its sign-ins and visits in the same
      stages; no other wallet's request could have changed them. */
  lemma RunIsolation(platform: Platform, seed: map<string, PreferenceRow>, events: seq<Event>, wallet: string)
    ensures var full := After(platform, Start(seed), events);
            var alone := After(platform, Start(PreferencesOf(seed, wallet)),
                               Share(platform, full, wallet, Start(seed), events));
            && alone.tables.nonces == full.tables.nonces
            && alone.tables.sessions == SessionsOf(full.tables.sessions, wallet)
            && alone.tables.preferences == PreferencesOf(full.tables.preferences, wallet)
            && (forall id :: MineIn(platform, full, wallet, full, id) ==>
                  id in alone.requests && alone.requests[id] == full.requests[id])
            && (forall id :: id in alone.requests && alone.requests[id].Visit? ==>
                MineIn(platform, full, wallet, full, id))
  {
    var full := After(platform, Start(seed), events);
    ShareMirrors(platform, full, seed, wallet, events);
  }
}
