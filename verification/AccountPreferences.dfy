/** Preference records: who may write them, and what a session read returns. */
module AccountPreferences {
  import opened Text
  import opened IsoTime
  import opened Store
  import opened SiwePolicy
  import opened Account
  import opened AccountInvariant
  import opened AccountTheorems

  // ---- every write has a session behind it --------------------------------

  /** The request saw an unexpired session of `wallet`, and that session was
      opened by a sign-in whose verified message names the wallet. */
  ghost predicate ActsFor(platform: Platform, w: World, id: nat, wallet: string)
  {
    && Visiting(w, id) && HasSession(w.requests[id].visit)
    && var r := w.requests[id];
    && r.visit.session.walletAddress == wallet && TokenShaped(r.cookie)
    && MintedAt(w, platform.sha256Hex(r.cookie.value)).Some?
    && r.observedAt < MintedAt(w, platform.sha256Hex(r.cookie.value)).value + SESSION_MS
    && exists signer :: Authenticated(platform, w, signer, platform.sha256Hex(r.cookie.value), r.visit.session)
  }

  lemma TracedWindow(
    platform: Platform, parse: DateParse, seed: map<string, PreferenceRow>, w: World, h: string, row: SessionRow,
    observedAt: int)
    requires Faithful(platform, parse) && Inv(platform, seed, w) && Traced(platform, w, h, row)
    requires ClockSample(observedAt)
    requires TextLess(platform.iso(observedAt), row.expiresAt)
    ensures MintedAt(w, h).Some? && observedAt < MintedAt(w, h).value + SESSION_MS
  {
    var message, at := MintOf(platform, seed, w, h, row);
    TextClock(platform, parse, observedAt, at + SESSION_MS);
  }

  lemma VisitActsFor(platform: Platform, parse: DateParse, seed: map<string, PreferenceRow>, w: World, id: nat)
    requires Faithful(platform, parse) && Inv(platform, seed, w) && Visiting(w, id) && HasSession(w.requests[id].visit)
    ensures ActsFor(platform, w, id, w.requests[id].visit.session.walletAddress)
  {
    var r := w.requests[id];
    assert RequestOk(platform, w, id);
    TracedAuthenticated(platform, parse, seed, w, r.visit.hash, r.visit.session);
    TracedWindow(platform, parse, seed, w, r.visit.hash, r.visit.session, r.observedAt);
  }

  /** Which requests write preference records, and whose. */
  lemma PreferenceWriter(platform: Platform, seed: map<string, PreferenceRow>, w: World, e: Event)
    requires Inv(platform, seed, w) && Enabled(platform, w, e)
    ensures var write := WriteOf(platform, w, e);
            (write.SavePreference? || write.DeletePreference? || write.ExpirePreference?) ==>
              && (e.UpsertPreference? || e.RemovePreference? || e.SweepPreference?)
              && Visiting(w, e.id) && HasSession(w.requests[e.id].visit)
              && w.requests[e.id].visit.session.walletAddress == write.wallet
  {
  }

  /** Every preference write, user deletion or sweep of every run is made by a
      request that acts for that very wallet and that, at an earlier event `j`,
      found its session in the table, even if the session has gone meanwhile. */
  lemma WritesAreAuthorized(
    platform: Platform, parse: DateParse, seed: map<string, PreferenceRow>, events: seq<Event>, i: nat)
    returns (j: nat)
    requires Faithful(platform, parse) && i < |events|
    ensures var w, write := At(platform, seed, events, i), Writes(platform, Start(seed), events)[i];
            (write.SavePreference? || write.DeletePreference? || write.ExpirePreference?) ==>
              && (events[i].UpsertPreference? || events[i].RemovePreference? || events[i].SweepPreference?)
              && ActsFor(platform, w, events[i].id, write.wallet)
              && j < i && FoundAt(platform, seed, events, j, events[i].id, w.requests[events[i].id].visit.session)
  {
    j := 0;
    var w := At(platform, seed, events, i);
    WritesAt(platform, Start(seed), events, i);
    AtStep(platform, seed, events, i);
    if Enabled(platform, w, events[i]) {
      PreferenceWriter(platform, seed, w, events[i]);
      var write := WriteOf(platform, w, events[i]);
      if write.SavePreference? || write.DeletePreference? || write.ExpirePreference? {
        VisitActsFor(platform, parse, seed, w, events[i].id);
        j := VisitHasRead(platform, parse, seed, events, i, events[i].id);
      }
    }
  }

  /** From an empty store, every record is pending and unverified, carries at
      least one choice and a retention of exactly a day past its own writing,
      and holds what a request acting for its wallet asked for, after finding
      its session in the table at event `j`. */
  lemma PreferenceProvenance(platform: Platform, parse: DateParse, events: seq<Event>, p: string)
    returns (id: nat, j: nat)
    requires Faithful(platform, parse) && p in After(platform, Start(map[]), events).tables.preferences
    ensures var w := After(platform, Start(map[]), events);
            var row := w.tables.preferences[p];
            && ActsFor(platform, w, id, p) && w.requests[id].visit.Saved?
            && FoundAt(platform, map[], events, j, id, w.requests[id].visit.session)
            && row.verificationStatus == Pending && row.verifiedAt == None && (row.invoiceEmails || row.receiptEmails)
            && row.updatedAt == platform.iso(w.requests[id].visit.at)
            && row.retentionExpiresAt == platform.iso(w.requests[id].visit.at + 86_400_000)
            && platform.acceptsEmail(row.email)
            && exists email :: w.requests[id].task == SaveEmail(email, row.invoiceEmails, row.receiptEmails)
                               && row.email == platform.normalizeEmail(email)
  {
    var w := After(platform, Start(map[]), events);
    Reachable(platform, map[], events);
    assert PreferenceOk(platform, map[], w, p);
    id := w.writer[p];
    assert RequestOk(platform, w, id);
    VisitActsFor(platform, parse, map[], w, id);
    assert events[..|events|] == events;
    j := VisitHasRead(platform, parse, map[], events, |events|, id);
    var row, task := w.tables.preferences[p], w.requests[id].task;
    assert task == SaveEmail(task.email, row.invoiceEmails, row.receiptEmails);
  }

  /** An upsert stores exactly what was asked, pending and for a day, if the
      normalized email is accepted and at least one choice is set; otherwise it
      changes no record. */
  lemma UpsertWritesExactly(platform: Platform, w: World, id: nat, at: int)
    requires Enabled(platform, w, UpsertPreference(id, at))
    ensures var task, p := w.requests[id].task, w.requests[id].visit.session.walletAddress;
            var email := platform.normalizeEmail(task.email);
            var row := PreferenceRow(email, task.invoiceEmails, task.receiptEmails, Pending, None,
                                     platform.iso(at), platform.iso(at + 86_400_000));
            Step(platform, w, UpsertPreference(id, at)).tables.preferences ==
            if platform.acceptsEmail(email) && (task.invoiceEmails || task.receiptEmails)
            then w.tables.preferences[p := row] else w.tables.preferences
  {
  }

  // ---- what a session read returns ----------------------------------------

  /** The record a stretch of writes leaves for `p`, read off the writes alone. */
  function Written(ws: seq<Write>, p: string): (r: Option<PreferenceRow>)
  {
    if ws == [] then None else
      var before, last := Written(ws[..|ws| - 1], p), ws[|ws| - 1];
      match last
      case SavePreference(wallet, row) => if wallet == p then Some(row) else before
      case DeletePreference(wallet) => if wallet == p then None else before
      case ExpirePreference(wallet, cutoff) =>
        if wallet == p && before.Some? && TextAtMost(before.value.retentionExpiresAt, cutoff) then None else before
      case Purge(_, _, wallets) => if p in wallets then None else before
      case _ => before
  }

  predicate Expired(row: PreferenceRow, reading: string) { TextAtMost(row.retentionExpiresAt, reading) }

  predicate NoExpired(t: Tables, p: string, reading: string)
  {
    p in t.preferences ==> !Expired(t.preferences[p], reading)
  }

  /** After the sweep, an expired record can only be one written since. */
  lemma {:induction false} ExpiredMeansWritten(t: Tables, ws: seq<Write>, p: string, reading: string)
    requires NoExpired(t, p, reading)
    ensures !NoExpired(ApplyAll(t, ws), p, reading) <==> Written(ws, p).Some? && Expired(Written(ws, p).value, reading)
    ensures Written(ws, p).Some? ==>
            p in ApplyAll(t, ws).preferences && ApplyAll(t, ws).preferences[p] == Written(ws, p).value
  {
    if ws != [] {
      ExpiredMeansWritten(t, ws[..|ws| - 1], p, reading);
    }
  }

  /** The notifications a request got from `getCurrentSession`. */
  predicate Returns(w: World, id: nat, row: PreferenceRow)
  {
    Visiting(w, id) && w.requests[id].visit.Recognized? && w.requests[id].visit.notifications == Some(row)
  }

  lemma {:induction false} SweptStays(platform: Platform, w: World, id: nat, gap: seq<Event>)
    requires Visiting(w, id) && w.requests[id].visit.Swept?
    requires forall k :: 0 <= k < |gap| ==> gap[k] != SelectPreference(id)
    ensures id in After(platform, w, gap).requests && After(platform, w, gap).requests[id] == w.requests[id]
  {
    if gap != [] {
      SweptStays(platform, w, id, gap[..|gap| - 1]);
    }
  }

  /** A read that sweeps, waits while any events happen, and then selects
      returns an expired record exactly when the gap's own writes left one. */
  lemma ReadReturnsWritten(platform: Platform, w: World, id: nat, gap: seq<Event>)
    requires Enabled(platform, w, SweepPreference(id))
    requires forall k :: 0 <= k < |gap| ==> gap[k] != SelectPreference(id)
    ensures var r := w.requests[id];
            var p, reading := r.visit.session.walletAddress, platform.iso(r.observedAt);
            var swept := Step(platform, w, SweepPreference(id));
            var written := Written(Writes(platform, swept, gap), p);
            ReturnsExpired(Step(platform, After(platform, swept, gap), SelectPreference(id)), id, reading) <==>
            (written.Some? && Expired(written.value, reading))
  {
    var r := w.requests[id];
    var p, reading := r.visit.session.walletAddress, platform.iso(r.observedAt);
    var swept := Step(platform, w, SweepPreference(id));
    SweepClears(platform, w, id);
    SweptReturns(platform, swept, id, gap, p, reading);
  }

  lemma SweepClears(platform: Platform, w: World, id: nat)
    requires Enabled(platform, w, SweepPreference(id))
    ensures var r, swept := w.requests[id], Step(platform, w, SweepPreference(id));
            && Visiting(swept, id) && swept.requests[id].visit == Swept(r.visit.hash, r.visit.session)
            && NoExpired(swept.tables, r.visit.session.walletAddress, platform.iso(r.observedAt))
  {
  }

  lemma SweptReturns(platform: Platform, swept: World, id: nat, gap: seq<Event>, p: string, reading: string)
    requires Visiting(swept, id) && swept.requests[id].visit.Swept?
    requires swept.requests[id].visit.session.walletAddress == p
    requires NoExpired(swept.tables, p, reading) && forall k :: 0 <= k < |gap| ==> gap[k] != SelectPreference(id)
    ensures var written := Written(Writes(platform, swept, gap), p);
            ReturnsExpired(Step(platform, After(platform, swept, gap), SelectPreference(id)), id, reading) <==>
            (written.Some? && Expired(written.value, reading))
  {
    SweptStays(platform, swept, id, gap);
    TablesAreWrites(platform, swept, gap);
    ExpiredMeansWritten(swept.tables, Writes(platform, swept, gap), p, reading);
    SelectReturns(platform, After(platform, swept, gap), id, reading);
  }

  ghost predicate ReturnsExpired(w: World, id: nat, reading: string)
  {
    exists row :: Returns(w, id, row) && Expired(row, reading)
  }

  /** Every select of a session read returns exactly the record stored for the
      session's wallet at that event. */
  lemma ReadReturnsStored(
    platform: Platform, seed: map<string, PreferenceRow>, events: seq<Event>, k: nat, id: nat)
    requires k < |events| && events[k] == SelectPreference(id)
    requires Enabled(platform, At(platform, seed, events, k), events[k])
    ensures var w := At(platform, seed, events, k);
            var v, stored := w.requests[id].visit, w.tables.preferences;
            var record := if v.session.walletAddress in stored then Some(stored[v.session.walletAddress]) else None;
            Reaches(At(platform, seed, events, k + 1), id, Recognized(v.hash, v.session, record))
  {
    AtStep(platform, seed, events, k);
  }

  lemma SelectReturns(platform: Platform, w: World, id: nat, reading: string)
    requires Enabled(platform, w, SelectPreference(id))
    ensures var p := w.requests[id].visit.session.walletAddress;
            ReturnsExpired(Step(platform, w, SelectPreference(id)), id, reading) <==>
            !NoExpired(w.tables, p, reading)
  {
    var p, after := w.requests[id].visit.session.walletAddress, Step(platform, w, SelectPreference(id));
    if p in w.tables.preferences {
      assert Returns(after, id, w.tables.preferences[p]);
    }
  }

  // ---- the condition on the events themselves -----------------------------

  /** The event is an accepted upsert of wallet `p`'s record. */
  predicate Saves(platform: Platform, w: World, e: Event, p: string)
  {
    && Enabled(platform, w, e) && e.UpsertPreference? && TaskAccepted(platform, w.requests[e.id].task)
    && w.requests[e.id].visit.session.walletAddress == p
  }

  /** The event replaces or removes wallet `p`'s record, if that record expires
      at `expiry`. */
  predicate Displaces(platform: Platform, w: World, e: Event, p: string, expiry: int)
  {
    Enabled(platform, w, e) &&
    match e
    case UpsertPreference(_, _) => Saves(platform, w, e, p)
    case RemovePreference(id) => w.requests[id].visit.session.walletAddress == p
    case SweepPreference(id) => w.requests[id].visit.session.walletAddress == p && expiry <= w.requests[id].observedAt
    case PurgeExpired(_, _, _, _, wallets) => p in wallets
    case _ => false
  }

  /** Event `k` of the gap saves wallet `p`'s record, and nothing later in the
      gap displaces it. */
  predicate Leaves(platform: Platform, w: World, gap: seq<Event>, k: nat, p: string)
  {
    && k < |gap| && Saves(platform, After(platform, w, gap[..k]), gap[k], p)
    && forall l :: k < l < |gap| ==>
         !Displaces(platform, After(platform, w, gap[..l]), gap[l], p, gap[k].at + RETENTION_MS)
  }

  // the same on the writes the events send to the store

  predicate WriteSaves(write: Write, p: string) { write.SavePreference? && write.wallet == p }

  predicate WriteDisplaces(write: Write, p: string, row: PreferenceRow)
  {
    match write
    case SavePreference(wallet, _) => wallet == p
    case DeletePreference(wallet) => wallet == p
    case ExpirePreference(wallet, cutoff) => wallet == p && TextAtMost(row.retentionExpiresAt, cutoff)
    case Purge(_, _, wallets) => p in wallets
    case _ => false
  }

  predicate WriteLeaves(ws: seq<Write>, k: nat, p: string)
  {
    && k < |ws| && WriteSaves(ws[k], p)
    && forall l :: k < l < |ws| ==> !WriteDisplaces(ws[l], p, ws[k].preference)
  }

  lemma WriteLeavesMore(ws: seq<Write>, k: nat, p: string)
    requires ws != []
    ensures var init, last := ws[..|ws| - 1], ws[|ws| - 1];
            WriteLeaves(ws, k, p) <==>
              (if k < |init| then WriteLeaves(init, k, p) && !WriteDisplaces(last, p, init[k].preference)
               else k == |init| && WriteSaves(last, p))
  {
    var init := ws[..|ws| - 1];
    assert forall l :: 0 <= l < |init| ==> init[l] == ws[l];
  }

  /** What a stretch of writes leaves is its last undisplaced save. */
  lemma {:induction false} WrittenIsLeft(ws: seq<Write>, p: string)
    ensures Written(ws, p).Some? ==> exists k: nat :: WriteLeaves(ws, k, p)
    ensures forall k: nat :: WriteLeaves(ws, k, p) ==> Written(ws, p) == Some(ws[k].preference)
  {
    if ws != [] {
      var init, last := ws[..|ws| - 1], ws[|ws| - 1];
      WrittenIsLeft(init, p);
      forall k: nat | WriteLeaves(ws, k, p)
        ensures Written(ws, p) == Some(ws[k].preference)
      {
        WriteLeavesMore(ws, k, p);
      }
      if Written(ws, p).Some? {
        if WriteSaves(last, p) {
          WriteLeavesMore(ws, |init|, p);
        } else {
          var k: nat :| WriteLeaves(init, k, p);
          WriteLeavesMore(ws, k, p);
        }
      }
    }
  }

  /** One event and its write: they save and displace alike. */
  lemma WriteActs(
    platform: Platform, parse: DateParse, seed: map<string, PreferenceRow>, w: World, e: Event, p: string,
    row: PreferenceRow, expiry: int)
    requires Faithful(platform, parse) && Inv(platform, seed, w) && Enabled(platform, w, e)
    requires row.retentionExpiresAt == platform.iso(expiry) && FourDigitRange(expiry)
    ensures Displaces(platform, w, e, p, expiry) <==> WriteDisplaces(WriteOf(platform, w, e), p, row)
  {
    if e.SweepPreference? {
      assert RequestOk(platform, w, e.id);
      TextClock(platform, parse, expiry, w.requests[e.id].observedAt);
    }
  }

  lemma SaveActs(platform: Platform, w: World, e: Event, p: string)
    requires Enabled(platform, w, e)
    ensures Saves(platform, w, e, p) <==> WriteSaves(WriteOf(platform, w, e), p)
    ensures Saves(platform, w, e, p) ==>
              WriteOf(platform, w, e).preference.retentionExpiresAt == platform.iso(e.at + RETENTION_MS)
  {
  }

  lemma LeavesAlike(
    platform: Platform, parse: DateParse, seed: map<string, PreferenceRow>, w: World, gap: seq<Event>, k: nat,
    p: string)
    requires Faithful(platform, parse) && Inv(platform, seed, w)
    ensures Leaves(platform, w, gap, k, p) <==> WriteLeaves(Writes(platform, w, gap), k, p)
    ensures Leaves(platform, w, gap, k, p) ==>
              && ClockSample(gap[k].at)
              && Writes(platform, w, gap)[k].preference.retentionExpiresAt == platform.iso(gap[k].at + RETENTION_MS)
  {
    var ws := Writes(platform, w, gap);
    if k < |gap| {
      var u := After(platform, w, gap[..k]);
      WritesAt(platform, w, gap, k);
      assert Saves(platform, u, gap[k], p) <==> WriteSaves(ws[k], p) by {
        if Enabled(platform, u, gap[k]) {
          SaveActs(platform, u, gap[k], p);
        }
      }
      if Saves(platform, u, gap[k], p) {
        SaveActs(platform, u, gap[k], p);
        forall l | k < l < |gap|
          ensures Displaces(platform, After(platform, w, gap[..l]), gap[l], p, gap[k].at + RETENTION_MS) <==>
                  WriteDisplaces(ws[l], p, ws[k].preference)
        {
          DisplacesAlike(platform, parse, seed, w, gap, l, p, ws[k].preference, gap[k].at + RETENTION_MS);
        }
      }
    }
  }

  lemma DisplacesAlike(
    platform: Platform, parse: DateParse, seed: map<string, PreferenceRow>, w: World, gap: seq<Event>, l: nat,
    p: string, row: PreferenceRow, expiry: int)
    requires Faithful(platform, parse) && Inv(platform, seed, w) && l < |gap|
    requires row.retentionExpiresAt == platform.iso(expiry) && FourDigitRange(expiry)
    ensures Displaces(platform, After(platform, w, gap[..l]), gap[l], p, expiry) <==>
            WriteDisplaces(Writes(platform, w, gap)[l], p, row)
  {
    WritesAt(platform, w, gap, l);
    RunKeepsInv(platform, seed, w, gap[..l]);
    if Enabled(platform, After(platform, w, gap[..l]), gap[l]) {
      WriteActs(platform, parse, seed, After(platform, w, gap[..l]), gap[l], p, row, expiry);
    }
  }

  /** Some write of the gap, a day or more behind the reading, is what it left. */
  ghost predicate LeavesStale(platform: Platform, w: World, gap: seq<Event>, p: string, observedAt: int)
  {
    exists k: nat :: Leaves(platform, w, gap, k, p) && gap[k].at + RETENTION_MS <= observedAt
  }

  lemma StaleExactly(
    platform: Platform, parse: DateParse, seed: map<string, PreferenceRow>, w: World, gap: seq<Event>, p: string,
    observedAt: int)
    requires Faithful(platform, parse) && Inv(platform, seed, w) && ClockSample(observedAt)
    ensures var written := Written(Writes(platform, w, gap), p);
            (written.Some? && Expired(written.value, platform.iso(observedAt))) <==>
            LeavesStale(platform, w, gap, p, observedAt)
  {
    var ws := Writes(platform, w, gap);
    WrittenIsLeft(ws, p);
    forall k: nat | WriteLeaves(ws, k, p) || Leaves(platform, w, gap, k, p)
      ensures Leaves(platform, w, gap, k, p) && WriteLeaves(ws, k, p)
      ensures Expired(ws[k].preference, platform.iso(observedAt)) <==> gap[k].at + RETENTION_MS <= observedAt
    {
      LeavesAlike(platform, parse, seed, w, gap, k, p);
      TextClock(platform, parse, gap[k].at + RETENTION_MS, observedAt);
    }
  }

  /** A read that sweeps, waits while any events happen, and then selects
      returns a record expired at its own reading if and only if some upsert of
      the wallet's record in the gap ran on a clock a day or more behind that
      reading, and no later save, deletion, sweep or purge in the gap displaced
      what it wrote. */
  lemma ReadReturnsExpiredExactly(
    platform: Platform, parse: DateParse, seed: map<string, PreferenceRow>, w: World, id: nat, gap: seq<Event>)
    requires Faithful(platform, parse) && Inv(platform, seed, w) && Enabled(platform, w, SweepPreference(id))
    requires forall k :: 0 <= k < |gap| ==> gap[k] != SelectPreference(id)
    ensures var r, swept := w.requests[id], Step(platform, w, SweepPreference(id));
            var after := Step(platform, After(platform, swept, gap), SelectPreference(id));
            ReturnsExpired(after, id, platform.iso(r.observedAt)) <==>
            LeavesStale(platform, swept, gap, r.visit.session.walletAddress, r.observedAt)
  {
    var r, swept := w.requests[id], Step(platform, w, SweepPreference(id));
    assert RequestOk(platform, w, id);
    InvStep(platform, seed, w, SweepPreference(id));
    ReadReturnsWritten(platform, w, id, gap);
    StaleExactly(platform, parse, seed, swept, gap, r.visit.session.walletAddress, r.observedAt);
  }

  lemma CurrentLeavesNothingStale(platform: Platform, w: World, gap: seq<Event>, p: string, observedAt: int)
    requires forall k :: 0 <= k < |gap| ==>
               (Saves(platform, After(platform, w, gap[..k]), gap[k], p) ==> observedAt < gap[k].at + RETENTION_MS)
    ensures !LeavesStale(platform, w, gap, p, observedAt)
  {
  }

  /** So with every writer's clock less than a day behind the reader's, nothing
      expired comes back, whatever runs in the gap; in particular no record
      still carrying the migration's default, for readings at or after the
      epoch. */
  lemma CurrentReadIsUnexpired(
    platform: Platform, parse: DateParse, seed: map<string, PreferenceRow>, w: World, id: nat, gap: seq<Event>,
    row: PreferenceRow)
    requires Faithful(platform, parse) && Inv(platform, seed, w) && Enabled(platform, w, SweepPreference(id))
    requires forall k :: 0 <= k < |gap| ==> gap[k] != SelectPreference(id)
    requires var r, swept := w.requests[id], Step(platform, w, SweepPreference(id));
             && (forall k :: 0 <= k < |gap| ==>
                   (Saves(platform, After(platform, swept, gap[..k]), gap[k], r.visit.session.walletAddress) ==>
                      r.observedAt < gap[k].at + RETENTION_MS))
             && Returns(Step(platform, After(platform, swept, gap), SelectPreference(id)), id, row)
    ensures TextLess(platform.iso(w.requests[id].observedAt), row.retentionExpiresAt)
    ensures w.requests[id].observedAt >= 0 ==> row.retentionExpiresAt != MIGRATION_DEFAULT
  {
    var reading := platform.iso(w.requests[id].observedAt);
    assert RequestOk(platform, w, id);
    ReadReturnsExpiredExactly(platform, parse, seed, w, id, gap);
    CurrentLeavesNothingStale(platform, Step(platform, w, SweepPreference(id)), gap,
                              w.requests[id].visit.session.walletAddress, w.requests[id].observedAt);
    assert !Expired(row, reading);
    TextTotal(reading, row.retentionExpiresAt);
    if w.requests[id].observedAt >= 0 {
      DefaultIsExpired(platform, parse, w.requests[id].observedAt);
    }
  }

  lemma DefaultIsExpired(platform: Platform, parse: DateParse, observedAt: int)
    requires Faithful(platform, parse) && FourDigitRange(observedAt) && observedAt >= 0
    ensures TextAtMost(MIGRATION_DEFAULT, platform.iso(observedAt))
  {
    EpochText();
    assert IsTime(0);
    TextClock(platform, parse, 0, observedAt);
  }

  /** Why the gap matters: a writer whose clock reading is a day or more behind
      the reader's, running between the reader's sweep and its select, makes
      the read return a record expired at its own reading. */
  lemma StaleWriteIsReturned(platform: Platform, parse: DateParse, w: World, reader: nat, writer: nat, at: int)
    requires Faithful(platform, parse) && Enabled(platform, w, SelectPreference(reader))
    requires Enabled(platform, w, UpsertPreference(writer, at))
    requires w.requests[reader].visit.session.walletAddress == w.requests[writer].visit.session.walletAddress
    requires TaskAccepted(platform, w.requests[writer].task)
    requires ClockSample(w.requests[reader].observedAt) && at + RETENTION_MS <= w.requests[reader].observedAt
    ensures var row := PreferenceFor(platform, w.requests[writer].task, at);
            && Returns(Step(platform, Step(platform, w, UpsertPreference(writer, at)), SelectPreference(reader)),
                       reader, row)
            && Expired(row, platform.iso(w.requests[reader].observedAt))
  {
    TextClock(platform, parse, at + RETENTION_MS, w.requests[reader].observedAt);
    var written := Step(platform, w, UpsertPreference(writer, at));
    assert written.requests[reader] == w.requests[reader];
    assert Enabled(platform, written, SelectPreference(reader));
  }
}
