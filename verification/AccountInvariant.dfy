/** What every reachable world of the account protocol satisfies. */
module AccountInvariant {
  import opened Text
  import opened Hex
  import opened Store
  import opened Account

  predicate HasRow(stage: SignInStage) { !stage.Arrived? && !stage.Rejected? }

  predicate PastCheck(stage: SignInStage) { HasRow(stage) && !stage.Selected? }

  predicate PastConsume(stage: SignInStage) { stage.Consumed? || HasToken(stage) }

  predicate HasToken(stage: SignInStage) { stage.Minted? || stage.SignedIn? }

  predicate HasSession(visit: VisitStage) { !visit.Presented? && !visit.Refused? }

  /** `row` is the challenge recorded when `nonce` was issued. */
  predicate Challenge(platform: Platform, w: World, nonce: string, row: NonceRow)
  {
    && nonce in w.issued
    && var issue := w.issued[nonce];
    && ClockSample(issue.at) && row.domain == issue.site.domain && row.uri == issue.site.origin
    && row.createdAt == platform.iso(issue.at) && row.expiresAt == platform.iso(issue.at + CHALLENGE_MS)
  }

  predicate SignInOk(platform: Platform, w: World, id: nat)
    requires SigningIn(w, id)
  {
    var r := w.requests[id];
    && IsAddress(r.message.address) && ClockSample(r.now)
    && (HasRow(r.stage) ==>
          && Challenge(platform, w, r.message.nonce, r.stage.row) && r.stage.row.consumedAt.None?
          && TextLess(platform.iso(r.now), r.stage.row.expiresAt))
    && (PastCheck(r.stage) ==> MessageAccepted(platform, r, r.stage.row))
    && (PastConsume(r.stage) ==> r.message.nonce in w.consumer && w.consumer[r.message.nonce] == id)
    && (HasToken(r.stage) ==>
          var h := platform.sha256Hex(r.stage.token);
          IsLowerHex(r.stage.token, 64) && ClockSample(r.stage.at) && h in w.minter && w.minter[h] == id)
  }

  /** Session `row` under hash `h` is what one completed sign-in inserted. */
  predicate Traced(platform: Platform, w: World, h: string, row: SessionRow)
  {
    && h in w.minter && SigningIn(w, w.minter[h])
    && var r := w.requests[w.minter[h]];
    r.stage.SignedIn? && platform.sha256Hex(r.stage.token) == h && row == SessionFor(platform, r.message, r.stage.at)
  }

  predicate VisitOk(platform: Platform, w: World, id: nat)
    requires Visiting(w, id)
  {
    var r := w.requests[id];
    && ClockSample(r.observedAt)
    && (HasSession(r.visit) ==>
          && TokenShaped(r.cookie) && r.visit.hash == platform.sha256Hex(r.cookie.value)
          && Traced(platform, w, r.visit.hash, r.visit.session)
          && TextLess(platform.iso(r.observedAt), r.visit.session.expiresAt)
          && platform.activeSession(r.visit.session, r.observedAt))
    && (r.visit.Saved? ==> r.task.SaveEmail? && TaskAccepted(platform, r.task) && ClockSample(r.visit.at))
  }

  predicate RequestOk(platform: Platform, w: World, id: nat)
    requires id in w.requests
  {
    if w.requests[id].SignIn? then SignInOk(platform, w, id) else VisitOk(platform, w, id)
  }

  predicate NonceOk(platform: Platform, w: World, n: string)
    requires n in w.tables.nonces
  {
    Challenge(platform, w, n, w.tables.nonces[n]) && (w.tables.nonces[n].consumedAt.Some? ==> n in w.consumer)
  }

  predicate ConsumerOk(platform: Platform, w: World, n: string)
    requires n in w.consumer
  {
    && n in w.issued && SigningIn(w, w.consumer[n])
    && var r := w.requests[w.consumer[n]];
    && r.message.nonce == n && PastConsume(r.stage)
    && (n in w.tables.nonces ==> w.tables.nonces[n].consumedAt == Some(platform.iso(r.now)))
  }

  predicate MinterOk(platform: Platform, w: World, h: string)
    requires h in w.minter
  {
    && SigningIn(w, w.minter[h])
    && var r := w.requests[w.minter[h]]; HasToken(r.stage) && platform.sha256Hex(r.stage.token) == h
  }

  predicate PreferenceOk(platform: Platform, seed: map<string, PreferenceRow>, w: World, p: string)
    requires p in w.tables.preferences
  {
    if p in w.writer then
      && Visiting(w, w.writer[p])
      && var r := w.requests[w.writer[p]];
      && r.visit.Saved? && r.visit.session.walletAddress == p && r.task.SaveEmail?
      && w.tables.preferences[p] == PreferenceFor(platform, r.task, r.visit.at)
    else p in seed && seed[p] == w.tables.preferences[p]
  }

  predicate Inv(platform: Platform, seed: map<string, PreferenceRow>, w: World)
  {
    && (forall id {:trigger RequestOk(platform, w, id)} :: id in w.requests ==> RequestOk(platform, w, id))
    && (forall n {:trigger NonceOk(platform, w, n)} :: n in w.tables.nonces ==> NonceOk(platform, w, n))
    && (forall n {:trigger ConsumerOk(platform, w, n)} :: n in w.consumer ==> ConsumerOk(platform, w, n))
    && (forall h {:trigger MinterOk(platform, w, h)} :: h in w.minter ==> MinterOk(platform, w, h))
    && (forall h {:trigger Traced(platform, w, h, w.tables.sessions[h])} ::
          h in w.tables.sessions ==> Traced(platform, w, h, w.tables.sessions[h]))
    && (forall p {:trigger PreferenceOk(platform, seed, w, p)} ::
          p in w.tables.preferences ==> PreferenceOk(platform, seed, w, p))
  }

  // ---- history only grows -------------------------------------------------

  predicate Later(r: Request, s: Request)
  {
    r == s ||
    (if r.SignIn? then
       && s.SignIn? && s == r.(stage := s.stage) && !r.stage.SignedIn?
       && (PastConsume(r.stage) ==> PastConsume(s.stage))
       && (HasToken(r.stage) ==> HasToken(s.stage) && r.stage.token == s.stage.token && r.stage.at == s.stage.at)
     else s.Visit? && s == r.(visit := s.visit) && !r.visit.Saved?)
  }

  predicate Extends(w: World, v: World)
  {
    && (forall n :: n in w.issued ==> n in v.issued && w.issued[n] == v.issued[n])
    && (forall n :: n in w.consumer ==> n in v.consumer && w.consumer[n] == v.consumer[n])
    && (forall h :: h in w.minter ==> h in v.minter && w.minter[h] == v.minter[h])
    && (forall id :: id in w.requests ==> id in v.requests && Later(w.requests[id], v.requests[id]))
  }

  /** A sign-in holding a minted token finds no row under its hash. */
  lemma CommitIsFresh(platform: Platform, seed: map<string, PreferenceRow>, w: World, id: nat)
    requires Inv(platform, seed, w) && SigningIn(w, id) && w.requests[id].stage.Minted?
    ensures platform.sha256Hex(w.requests[id].stage.token) !in w.tables.sessions
  {
    var h := platform.sha256Hex(w.requests[id].stage.token);
    assert RequestOk(platform, w, id);
    assert h in w.tables.sessions ==> Traced(platform, w, h, w.tables.sessions[h]);
  }

  lemma MoveIsLater(platform: Platform, seed: map<string, PreferenceRow>, w: World, e: Event)
    requires Inv(platform, seed, w) && Enabled(platform, w, e) && Moves(platform, w, e).Some?
    ensures var (id, s) := Moves(platform, w, e).value; id in w.requests ==> Later(w.requests[id], s)
  {
    match e {
      case CommitSession(id) =>
        CommitIsFresh(platform, seed, w, id);
      case _ =>
    }
  }

  lemma HistoryGrows(platform: Platform, seed: map<string, PreferenceRow>, w: World, e: Event)
    requires Inv(platform, seed, w) && Enabled(platform, w, e)
    ensures forall n :: n in w.issued ==> n in Issued(w, e) && w.issued[n] == Issued(w, e)[n]
    ensures forall n :: n in w.consumer ==>
            n in Consumers(platform, w, e) && w.consumer[n] == Consumers(platform, w, e)[n]
    ensures forall h :: h in w.minter ==> h in Minters(platform, w, e) && w.minter[h] == Minters(platform, w, e)[h]
  {
    if e.UpdateNonce? {
      var n := w.requests[e.id].message.nonce;
      assert n in w.consumer ==> ConsumerOk(platform, w, n);
    }
  }

  lemma RequestsGrow(platform: Platform, seed: map<string, PreferenceRow>, w: World, e: Event, id: nat)
    requires Inv(platform, seed, w) && Enabled(platform, w, e) && id in w.requests
    ensures id in Requests(platform, w, e) && Later(w.requests[id], Requests(platform, w, e)[id])
  {
    if Moves(platform, w, e).Some? {
      MoveIsLater(platform, seed, w, e);
    }
  }

  lemma StepExtends(platform: Platform, seed: map<string, PreferenceRow>, w: World, e: Event)
    requires Inv(platform, seed, w) && Enabled(platform, w, e)
    ensures Extends(w, Step(platform, w, e))
  {
    HistoryGrows(platform, seed, w, e);
    forall id | id in w.requests
      ensures id in Requests(platform, w, e) && Later(w.requests[id], Requests(platform, w, e)[id])
    {
      RequestsGrow(platform, seed, w, e, id);
    }
  }

  // ---- the parts of the invariant -----------------------------------------

  lemma TracedLater(platform: Platform, w: World, v: World, h: string, row: SessionRow)
    requires Extends(w, v) && Traced(platform, w, h, row)
    ensures Traced(platform, v, h, row)
  {
  }

  lemma RequestKept(platform: Platform, w: World, v: World, id: nat)
    requires Extends(w, v) && id in w.requests && v.requests[id] == w.requests[id] && RequestOk(platform, w, id)
    ensures RequestOk(platform, v, id)
  {
    var r := w.requests[id];
    if r.Visit? && HasSession(r.visit) {
      TracedLater(platform, w, v, r.visit.hash, r.visit.session);
    }
  }

  lemma SelectMoved(platform: Platform, seed: map<string, PreferenceRow>, w: World, e: Event)
    requires Inv(platform, seed, w) && Enabled(platform, w, e) && (e.SelectNonce? || e.CheckMessage?)
    ensures SignInOk(platform, Step(platform, w, e), e.id)
  {
    assert RequestOk(platform, w, e.id);
    var n := w.requests[e.id].message.nonce;
    assert n in w.tables.nonces ==> NonceOk(platform, w, n);
  }

  lemma ConsumeMoved(platform: Platform, seed: map<string, PreferenceRow>, w: World, id: nat)
    requires Inv(platform, seed, w) && Enabled(platform, w, UpdateNonce(id))
    ensures SignInOk(platform, Step(platform, w, UpdateNonce(id)), id)
  {
    assert RequestOk(platform, w, id);
  }

  lemma TokenMoved(platform: Platform, seed: map<string, PreferenceRow>, w: World, e: Event)
    requires Inv(platform, seed, w) && Enabled(platform, w, e) && (e.MintToken? || e.CommitSession?)
    ensures SignInOk(platform, Step(platform, w, e), e.id)
  {
    assert RequestOk(platform, w, e.id);
  }

  lemma SignInMoved(platform: Platform, seed: map<string, PreferenceRow>, w: World, e: Event)
    requires Inv(platform, seed, w) && Enabled(platform, w, e)
    requires e.BeginSignIn? || e.SelectNonce? || e.CheckMessage? || e.UpdateNonce? || e.MintToken? || e.CommitSession?
    ensures SignInOk(platform, Step(platform, w, e), e.id)
  {
    if e.SelectNonce? || e.CheckMessage? {
      SelectMoved(platform, seed, w, e);
    } else if e.UpdateNonce? {
      ConsumeMoved(platform, seed, w, e.id);
    } else if !e.BeginSignIn? {
      TokenMoved(platform, seed, w, e);
    }
  }

  lemma VisitMoved(platform: Platform, seed: map<string, PreferenceRow>, w: World, e: Event, id: nat)
    requires Inv(platform, seed, w) && Enabled(platform, w, e)
    requires Moves(platform, w, e).Some? && Moves(platform, w, e).value.0 == id && Moves(platform, w, e).value.1.Visit?
    ensures RequestOk(platform, Step(platform, w, e), id)
  {
    var v := Step(platform, w, e);
    StepExtends(platform, seed, w, e);
    if !e.BeginVisit? {
      assert RequestOk(platform, w, id);
      var r, s := w.requests[id], v.requests[id];
      if HasSession(s.visit) {
        assert Traced(platform, w, s.visit.hash, s.visit.session);
        TracedLater(platform, w, v, s.visit.hash, s.visit.session);
      }
    }
  }

  lemma RequestsKept(platform: Platform, seed: map<string, PreferenceRow>, w: World, e: Event, id: nat)
    requires Inv(platform, seed, w) && Enabled(platform, w, e) && id in Step(platform, w, e).requests
    ensures RequestOk(platform, Step(platform, w, e), id)
  {
    var v, moved := Step(platform, w, e), Moves(platform, w, e);
    StepExtends(platform, seed, w, e);
    if moved.Some? && moved.value.0 == id {
      if moved.value.1.SignIn? {
        SignInMoved(platform, seed, w, e);
      } else {
        VisitMoved(platform, seed, w, e, id);
      }
    } else {
      RequestKept(platform, w, v, id);
    }
  }

  lemma NoncesKept(platform: Platform, seed: map<string, PreferenceRow>, w: World, e: Event, n: string)
    requires Inv(platform, seed, w) && Enabled(platform, w, e) && n in Step(platform, w, e).tables.nonces
    ensures NonceOk(platform, Step(platform, w, e), n)
  {
    StepExtends(platform, seed, w, e);
    WriteKinds(platform, w, e);
    NonceEffect(w.tables, WriteOf(platform, w, e), n);
    if n in w.tables.nonces {
      assert NonceOk(platform, w, n);
    }
  }

  lemma ConsumerNew(platform: Platform, seed: map<string, PreferenceRow>, w: World, id: nat)
    requires Inv(platform, seed, w) && Enabled(platform, w, UpdateNonce(id))
    requires Unconsumed(w.tables, w.requests[id].message.nonce)
    ensures ConsumerOk(platform, Step(platform, w, UpdateNonce(id)), w.requests[id].message.nonce)
  {
    assert RequestOk(platform, w, id);
  }

  /** A consumed nonce's row is never written again. */
  lemma ConsumedStays(platform: Platform, seed: map<string, PreferenceRow>, w: World, e: Event, n: string)
    requires Inv(platform, seed, w) && Enabled(platform, w, e) && n in w.consumer
    ensures n in Step(platform, w, e).tables.nonces ==>
              n in w.tables.nonces && Step(platform, w, e).tables.nonces[n] == w.tables.nonces[n]
  {
    assert ConsumerOk(platform, w, n);
    if n in Step(platform, w, e).tables.nonces {
      WriteKinds(platform, w, e);
      NonceEffect(w.tables, WriteOf(platform, w, e), n);
    }
  }

  lemma ConsumerLater(platform: Platform, w: World, v: World, n: string)
    requires Extends(w, v) && n in w.consumer && ConsumerOk(platform, w, n)
    requires n in v.tables.nonces ==> n in w.tables.nonces && v.tables.nonces[n] == w.tables.nonces[n]
    ensures n in v.consumer && ConsumerOk(platform, v, n)
  {
  }

  lemma ConsumersKept(platform: Platform, seed: map<string, PreferenceRow>, w: World, e: Event, n: string)
    requires Inv(platform, seed, w) && Enabled(platform, w, e) && n in Step(platform, w, e).consumer
    ensures ConsumerOk(platform, Step(platform, w, e), n)
  {
    if n in w.consumer {
      StepExtends(platform, seed, w, e);
      assert ConsumerOk(platform, w, n);
      ConsumedStays(platform, seed, w, e, n);
      ConsumerLater(platform, w, Step(platform, w, e), n);
    } else {
      ConsumerNew(platform, seed, w, e.id);
    }
  }

  lemma MinterLater(platform: Platform, w: World, v: World, h: string)
    requires Extends(w, v) && h in w.minter && MinterOk(platform, w, h)
    ensures h in v.minter && MinterOk(platform, v, h)
  {
  }

  lemma MinterNew(platform: Platform, w: World, e: Event)
    requires Enabled(platform, w, e) && e.MintToken?
    ensures var v, h := Step(platform, w, e), platform.sha256Hex(RandomHex(e.bytes));
            h in v.minter && MinterOk(platform, v, h)
  {
  }

  lemma MintersKept(platform: Platform, seed: map<string, PreferenceRow>, w: World, e: Event, h: string)
    requires Inv(platform, seed, w) && Enabled(platform, w, e) && h in Step(platform, w, e).minter
    ensures MinterOk(platform, Step(platform, w, e), h)
  {
    if h in w.minter {
      StepExtends(platform, seed, w, e);
      assert MinterOk(platform, w, h);
      MinterLater(platform, w, Step(platform, w, e), h);
    } else {
      MinterNew(platform, w, e);
    }
  }

  lemma SessionsKept(platform: Platform, seed: map<string, PreferenceRow>, w: World, e: Event, h: string)
    requires Inv(platform, seed, w) && Enabled(platform, w, e) && h in Step(platform, w, e).tables.sessions
    ensures Traced(platform, Step(platform, w, e), h, Step(platform, w, e).tables.sessions[h])
  {
    var v := Step(platform, w, e);
    SessionEffect(w.tables, WriteOf(platform, w, e), h);
    if h in w.tables.sessions && v.tables.sessions[h] == w.tables.sessions[h] {
      StepExtends(platform, seed, w, e);
      TracedLater(platform, w, v, h, w.tables.sessions[h]);
    } else {
      WriteKinds(platform, w, e);
      SessionNew(platform, seed, w, e.id);
    }
  }

  lemma SessionNew(platform: Platform, seed: map<string, PreferenceRow>, w: World, id: nat)
    requires Inv(platform, seed, w) && Enabled(platform, w, CommitSession(id))
    ensures var r := w.requests[id];
            Traced(platform, Step(platform, w, CommitSession(id)), platform.sha256Hex(r.stage.token),
                   SessionFor(platform, r.message, r.stage.at))
  {
    assert RequestOk(platform, w, id);
    CommitIsFresh(platform, seed, w, id);
  }

  lemma PreferencesKept(platform: Platform, seed: map<string, PreferenceRow>, w: World, e: Event, p: string)
    requires Inv(platform, seed, w) && Enabled(platform, w, e) && p in Step(platform, w, e).tables.preferences
    ensures PreferenceOk(platform, seed, Step(platform, w, e), p)
  {
    WriteKinds(platform, w, e);
    var v, write := Step(platform, w, e), WriteOf(platform, w, e);
    PreferenceEffect(w.tables, write, p);
    if write.SavePreference? && p == write.wallet {
      PreferenceNew(platform, seed, w, e.id, e.at);
    } else {
      StepExtends(platform, seed, w, e);
      WriterKept(platform, w, e, p);
      assert PreferenceOk(platform, seed, w, p);
      PreferenceLater(platform, seed, w, v, p);
    }
  }

  lemma WriterKept(platform: Platform, w: World, e: Event, p: string)
    requires Enabled(platform, w, e)
    requires !(WriteOf(platform, w, e).SavePreference? && p == WriteOf(platform, w, e).wallet)
    ensures p in w.writer <==> p in Writers(platform, w, e)
    ensures p in w.writer ==> w.writer[p] == Writers(platform, w, e)[p]
  {
    WriteKinds(platform, w, e);
  }

  lemma PreferenceLater(platform: Platform, seed: map<string, PreferenceRow>, w: World, v: World, p: string)
    requires Extends(w, v) && p in w.tables.preferences && p in v.tables.preferences
    requires w.tables.preferences[p] == v.tables.preferences[p] && PreferenceOk(platform, seed, w, p)
    requires p in w.writer <==> p in v.writer
    requires p in w.writer ==> w.writer[p] == v.writer[p]
    ensures PreferenceOk(platform, seed, v, p)
  {
  }

  lemma PreferenceNew(platform: Platform, seed: map<string, PreferenceRow>, w: World, id: nat, at: int)
    requires Enabled(platform, w, UpsertPreference(id, at)) && TaskAccepted(platform, w.requests[id].task)
    ensures var p := w.requests[id].visit.session.walletAddress;
            && p in Step(platform, w, UpsertPreference(id, at)).tables.preferences
            && PreferenceOk(platform, seed, Step(platform, w, UpsertPreference(id, at)), p)
  {
  }

  lemma InvStep(platform: Platform, seed: map<string, PreferenceRow>, w: World, e: Event)
    requires Inv(platform, seed, w)
    ensures Inv(platform, seed, Step(platform, w, e)) && Extends(w, Step(platform, w, e))
  {
    if Enabled(platform, w, e) {
      var v := Step(platform, w, e);
      StepExtends(platform, seed, w, e);
      forall id | id in v.requests ensures RequestOk(platform, v, id) { RequestsKept(platform, seed, w, e, id); }
      forall n | n in v.tables.nonces ensures NonceOk(platform, v, n) { NoncesKept(platform, seed, w, e, n); }
      forall n | n in v.consumer ensures ConsumerOk(platform, v, n) { ConsumersKept(platform, seed, w, e, n); }
      forall h | h in v.minter ensures MinterOk(platform, v, h) { MintersKept(platform, seed, w, e, h); }
      forall h | h in v.tables.sessions ensures Traced(platform, v, h, v.tables.sessions[h]) {
        SessionsKept(platform, seed, w, e, h);
      }
      forall p | p in v.tables.preferences ensures PreferenceOk(platform, seed, v, p) {
        PreferencesKept(platform, seed, w, e, p);
      }
    }
  }

  /** The invariant holds after every sequence of events. */
  lemma Reachable(platform: Platform, seed: map<string, PreferenceRow>, events: seq<Event>)
    ensures Inv(platform, seed, After(platform, Start(seed), events))
  {
    RunKeepsInv(platform, seed, Start(seed), events);
  }

  /** And so it does along any run from a world that has it. */
  lemma {:induction false} RunKeepsInv(
    platform: Platform, seed: map<string, PreferenceRow>, w: World, events: seq<Event>)
    requires Inv(platform, seed, w)
    ensures Inv(platform, seed, After(platform, w, events))
  {
    if events != [] {
      var init := events[..|events| - 1];
      RunKeepsInv(platform, seed, w, init);
      InvStep(platform, seed, After(platform, w, init), events[|events| - 1]);
    }
  }

  lemma ExtendsTransitive(u: World, v: World, w: World)
    requires Extends(u, v) && Extends(v, w)
    ensures Extends(u, w)
  {
    forall id | id in u.requests
      ensures id in w.requests && Later(u.requests[id], w.requests[id])
    {
      assert id in v.requests && Later(u.requests[id], v.requests[id]) && Later(v.requests[id], w.requests[id]);
    }
  }

  /** History along a run: what the longer run knows includes what the shorter did. */
  lemma {:induction false} RunExtends(platform: Platform, seed: map<string, PreferenceRow>, events: seq<Event>, i: nat)
    requires i <= |events|
    ensures Extends(After(platform, Start(seed), events[..i]), After(platform, Start(seed), events))
    decreases |events| - i
  {
    if i == |events| {
      assert events[..i] == events;
    } else {
      var longer := events[..i + 1];
      assert longer[..i] == events[..i];
      Reachable(platform, seed, events[..i]);
      InvStep(platform, seed, After(platform, Start(seed), events[..i]), events[i]);
      RunExtends(platform, seed, events, i + 1);
      ExtendsTransitive(After(platform, Start(seed), events[..i]), After(platform, Start(seed), longer),
                        After(platform, Start(seed), events));
    }
  }
}
