/** The three tables of db/schema.ts and the atomic writes the routes issue. */
module Store {
  import opened Text

  datatype NonceRow = NonceRow(
    domain: string, uri: string, createdAt: string, expiresAt: string, consumedAt: Option<string>)

  datatype SessionRow = SessionRow(walletAddress: string, chainId: int, createdAt: string, expiresAt: string)

  datatype Verification = Pending | Verified

  datatype PreferenceRow = PreferenceRow(
    email: string, invoiceEmails: bool, receiptEmails: bool, verificationStatus: Verification,
    verifiedAt: Option<string>, updatedAt: string, retentionExpiresAt: string)

  /** Keyed by nonce, token hash and wallet address, the three primary keys. */
  datatype Tables = Tables(
    nonces: map<string, NonceRow>, sessions: map<string, SessionRow>, preferences: map<string, PreferenceRow>)

  const EMPTY := Tables(map[], map[], map[])

  /** One D1 statement, or one D1 batch. */
  datatype Write =
    | Keep
    | InsertNonce(nonce: string, nonceRow: NonceRow)
    | ConsumeNonce(nonce: string, at: string)
    | ReplaceSession(hash: string, row: SessionRow)
    | DeleteSession(hash: string)
    | SavePreference(wallet: string, preference: PreferenceRow)
    | DeletePreference(wallet: string)
    | ExpirePreference(wallet: string, cutoff: string)
    | Purge(nonces: set<string>, hashes: set<string>, wallets: set<string>)

  /** The rows a sign-in batch for `wallet` leaves in place. */
  function OtherWallets(sessions: map<string, SessionRow>, wallet: string): map<string, SessionRow>
  {
    map h | h in sessions && sessions[h].walletAddress != wallet :: sessions[h]
  }

  /** An insert meeting its own primary key fails and changes nothing; in a
      batch it takes the batch's deletion back with it. */
  function Apply(t: Tables, w: Write): (r: Tables)
  {
    match w
    case Keep => t
    case InsertNonce(nonce, row) =>
      if nonce in t.nonces then t else t.(nonces := t.nonces[nonce := row])
    case ConsumeNonce(nonce, at) =>
      if nonce in t.nonces && t.nonces[nonce].consumedAt.None?
      then t.(nonces := t.nonces[nonce := t.nonces[nonce].(consumedAt := Some(at))]) else t
    case ReplaceSession(hash, row) =>
      var rest := OtherWallets(t.sessions, row.walletAddress);
      if hash in rest then t else t.(sessions := rest[hash := row])
    case DeleteSession(hash) => t.(sessions := t.sessions - {hash})
    case SavePreference(wallet, row) => t.(preferences := t.preferences[wallet := row])
    case DeletePreference(wallet) => t.(preferences := t.preferences - {wallet})
    case ExpirePreference(wallet, cutoff) =>
      if wallet in t.preferences && TextAtMost(t.preferences[wallet].retentionExpiresAt, cutoff)
      then t.(preferences := t.preferences - {wallet}) else t
    case Purge(nonces, hashes, wallets) =>
      Tables(t.nonces - nonces, t.sessions - hashes, t.preferences - wallets)
  }

  /** Where a row of the new tables comes from: kept, or the write's own. */
  lemma NonceEffect(t: Tables, w: Write, n: string)
    requires n in Apply(t, w).nonces
    ensures var row := Apply(t, w).nonces[n];
            || (n in t.nonces && row == t.nonces[n])
            || (w.InsertNonce? && n == w.nonce && n !in t.nonces && row == w.nonceRow)
            || (w.ConsumeNonce? && n == w.nonce && n in t.nonces && t.nonces[n].consumedAt.None?
                && row == t.nonces[n].(consumedAt := Some(w.at)))
  {
  }

  lemma NonceKept(t: Tables, w: Write, n: string)
    ensures n in Apply(t, w).nonces <==>
            (n in t.nonces || (w.InsertNonce? && w.nonce == n)) && !(w.Purge? && n in w.nonces)
  {
  }

  lemma SessionEffect(t: Tables, w: Write, h: string)
    requires h in Apply(t, w).sessions
    ensures var row := Apply(t, w).sessions[h];
            (h in t.sessions && row == t.sessions[h]) || (w.ReplaceSession? && h == w.hash && row == w.row)
  {
  }

  lemma PreferenceEffect(t: Tables, w: Write, p: string)
    requires p in Apply(t, w).preferences
    ensures var row := Apply(t, w).preferences[p];
            || (p in t.preferences && row == t.preferences[p] && !(w.SavePreference? && p == w.wallet))
            || (w.SavePreference? && p == w.wallet && row == w.preference)
  {
  }

  function ApplyAll(t: Tables, ws: seq<Write>): (r: Tables)
  {
    if ws == [] then t else Apply(ApplyAll(t, ws[..|ws| - 1]), ws[|ws| - 1])
  }

  // ---- one session per wallet --------------------------------------------

  /** The schema has no unique constraint on the wallet column; this is what
      the deletion inside the sign-in batch gives instead. */
  predicate OneSessionPerWallet(t: Tables)
  {
    forall g, h :: (g in t.sessions && h in t.sessions && t.sessions[g].walletAddress == t.sessions[h].walletAddress)
      ==> g == h
  }

  lemma OneSessionPerWalletStep(t: Tables, w: Write)
    requires OneSessionPerWallet(t)
    ensures OneSessionPerWallet(Apply(t, w))
  {
  }

  /** Hashes are inserted at most once: `randomHex` never repeats and
      `sha256Hex` does not collide on minted tokens. */
  predicate FreshHashes(ws: seq<Write>)
  {
    forall i, j :: 0 <= i < j < |ws| && ws[i].ReplaceSession? && ws[j].ReplaceSession? ==> ws[i].hash != ws[j].hash
  }

  predicate MintedFor(ws: seq<Write>, hash: string, wallet: string)
  {
    exists i :: 0 <= i < |ws| && ws[i].ReplaceSession? && ws[i].hash == hash && ws[i].row.walletAddress == wallet
  }

  lemma MintedForLonger(ws: seq<Write>, last: Write, hash: string, wallet: string)
    requires MintedFor(ws, hash, wallet)
    ensures MintedFor(ws + [last], hash, wallet)
  {
    var i :| 0 <= i < |ws| && ws[i].ReplaceSession? && ws[i].hash == hash && ws[i].row.walletAddress == wallet;
    assert (ws + [last])[i] == ws[i];
  }

  lemma MintedForNotLast(ws: seq<Write>, hash: string, wallet: string)
    requires |ws| > 0 && FreshHashes(ws) && ws[|ws| - 1].ReplaceSession? && ws[|ws| - 1].hash == hash
    ensures !MintedFor(ws[..|ws| - 1], hash, wallet)
  {
  }

  lemma FreshPrefix(ws: seq<Write>)
    requires FreshHashes(ws) && |ws| > 0
    ensures FreshHashes(ws[..|ws| - 1])
  {
  }

  /** Every session row was inserted by some write of the run. */
  lemma {:induction false} RowsAreMinted(t: Tables, ws: seq<Write>, hash: string)
    requires t.sessions == map[] && hash in ApplyAll(t, ws).sessions
    ensures MintedFor(ws, hash, ApplyAll(t, ws).sessions[hash].walletAddress)
  {
    if ws != [] {
      var init, last := ws[..|ws| - 1], ws[|ws| - 1];
      assert ws == init + [last];
      var before := ApplyAll(t, init);
      if hash in before.sessions && ApplyAll(t, ws).sessions[hash] == before.sessions[hash] {
        RowsAreMinted(t, init, hash);
        MintedForLonger(init, last, hash, before.sessions[hash].walletAddress);
      } else {
        assert last.ReplaceSession? && last.hash == hash;
      }
    }
  }

  // ---- the plain map the session table refines ---------------------------

  /** The current session of a wallet, read off the writes alone: the last
      sign-in, unless a sign-out or a purge of that very token followed. */
  function Latest(ws: seq<Write>, wallet: string): (r: Option<(string, SessionRow)>)
  {
    if ws == [] then None else
      var before, last := Latest(ws[..|ws| - 1], wallet), ws[|ws| - 1];
      match last
      case ReplaceSession(hash, row) => if row.walletAddress == wallet then Some((hash, row)) else before
      case DeleteSession(hash) => if before.Some? && before.value.0 == hash then None else before
      case Purge(_, hashes, _) => if before.Some? && before.value.0 in hashes then None else before
      case _ => before
  }

  /** The table keyed by token hash holds exactly each wallet's latest session. */
  lemma {:induction false} SessionsAreLatest(t: Tables, ws: seq<Write>)
    requires t.sessions == map[] && FreshHashes(ws)
    ensures forall h, row :: (h in ApplyAll(t, ws).sessions && ApplyAll(t, ws).sessions[h] == row)
              <==> Latest(ws, row.walletAddress) == Some((h, row))
    ensures forall wallet :: Latest(ws, wallet).Some? ==> Latest(ws, wallet).value.1.walletAddress == wallet
    ensures OneSessionPerWallet(ApplyAll(t, ws))
  {
    if ws != [] {
      var init, last := ws[..|ws| - 1], ws[|ws| - 1];
      FreshPrefix(ws);
      SessionsAreLatest(t, init);
      var before, after := ApplyAll(t, init), ApplyAll(t, ws);
      OneSessionPerWalletStep(before, last);
      if last.ReplaceSession? && last.hash in before.sessions {
        RowsAreMinted(t, init, last.hash);
        MintedForNotLast(ws, last.hash, before.sessions[last.hash].walletAddress);
        assert false;
      }
      forall h, row
        ensures (h in after.sessions && after.sessions[h] == row) <==> Latest(ws, row.walletAddress) == Some((h, row))
      {
        LatestStep(before, init, last, h, row);
        assert ws == init + [last];
      }
    }
  }

  lemma LatestStep(before: Tables, init: seq<Write>, last: Write, h: string, row: SessionRow)
    requires forall g, r :: (g in before.sessions && before.sessions[g] == r) <==>
             Latest(init, r.walletAddress) == Some((g, r))
    requires forall wallet :: Latest(init, wallet).Some? ==> Latest(init, wallet).value.1.walletAddress == wallet
    requires last.ReplaceSession? ==> last.hash !in before.sessions
    ensures (h in Apply(before, last).sessions && Apply(before, last).sessions[h] == row)
              <==> Latest(init + [last], row.walletAddress) == Some((h, row))
  {
    var ws := init + [last];
    assert ws[..|ws| - 1] == init && ws[|ws| - 1] == last;
    var current := Latest(init, row.walletAddress);
    assert (h in before.sessions && before.sessions[h] == row) <==> current == Some((h, row));
    if last.ReplaceSession? && last.row.walletAddress == row.walletAddress {
    } else if current.Some? {
      var (g, r) := current.value;
      assert g in before.sessions && before.sessions[g] == r;
    }
  }

  // ---- no wallet's operations change another wallet's rows ---------------

  /** The part of a write that concerns one wallet: its sign-in batches, the
      sign-outs and purges of tokens minted for it, its preference writes. */
  function Narrow(init: seq<Write>, last: Write, wallet: string): (r: Write)
  {
    match last
    case ReplaceSession(_, row) => if row.walletAddress == wallet then last else Keep
    case DeleteSession(hash) => if MintedFor(init, hash, wallet) then last else Keep
    case SavePreference(w, _) => if w == wallet then last else Keep
    case DeletePreference(w) => if w == wallet then last else Keep
    case ExpirePreference(w, _) => if w == wallet then last else Keep
    case Purge(_, hashes, wallets) =>
      Purge({}, (set h | h in hashes && MintedFor(init, h, wallet)), wallets * {wallet})
    case _ => Keep
  }

  function Restrict(ws: seq<Write>, wallet: string): (r: seq<Write>)
    ensures |r| == |ws|
  {
    if ws == [] then []
    else Restrict(ws[..|ws| - 1], wallet) + [Narrow(ws[..|ws| - 1], ws[|ws| - 1], wallet)]
  }

  function SessionsOf(sessions: map<string, SessionRow>, wallet: string): map<string, SessionRow>
  {
    map h | h in sessions && sessions[h].walletAddress == wallet :: sessions[h]
  }

  function PreferencesOf(preferences: map<string, PreferenceRow>, wallet: string): map<string, PreferenceRow>
  {
    if wallet in preferences then map[wallet := preferences[wallet]] else map[]
  }

  /** The store holding nothing but one wallet's sessions and preferences. */
  function OnlyFor(t: Tables, wallet: string): (r: Tables)
  {
    Tables(map[], SessionsOf(t.sessions, wallet), PreferencesOf(t.preferences, wallet))
  }

  /** Dropping every other wallet's operations from any run leaves exactly the
      same rows for this wallet. */
  lemma {:induction false} WalletIsolation(t: Tables, ws: seq<Write>, wallet: string)
    requires t.sessions == map[] && FreshHashes(ws)
    ensures ApplyAll(OnlyFor(t, wallet), Restrict(ws, wallet)) == OnlyFor(ApplyAll(t, ws), wallet)
  {
    if ws != [] {
      var init, last := ws[..|ws| - 1], ws[|ws| - 1];
      FreshPrefix(ws);
      WalletIsolation(t, init, wallet);
      var full := ApplyAll(t, init);
      forall h | h in full.sessions
        ensures MintedFor(init, h, full.sessions[h].walletAddress)
      {
        RowsAreMinted(t, init, h);
      }
      if last.ReplaceSession? && last.hash in full.sessions {
        MintedForNotLast(ws, last.hash, full.sessions[last.hash].walletAddress);
        assert false;
      }
      NarrowStep(full, init, last, wallet);
      var rs := Restrict(ws, wallet);
      assert rs[..|rs| - 1] == Restrict(init, wallet);
    }
  }

  lemma NarrowStep(full: Tables, init: seq<Write>, last: Write, wallet: string)
    requires forall h :: h in full.sessions ==> MintedFor(init, h, full.sessions[h].walletAddress)
    requires last.ReplaceSession? ==> last.hash !in full.sessions
    ensures Apply(OnlyFor(full, wallet), Narrow(init, last, wallet)) == OnlyFor(Apply(full, last), wallet)
  {
    match last {
      case ReplaceSession(hash, row) =>
        NarrowReplace(full.sessions, hash, row, wallet);
      case DeleteSession(hash) =>
        NarrowRemove(full.sessions, {hash}, if MintedFor(init, hash, wallet) then {hash} else {}, wallet);
        assert SessionsOf(full.sessions, wallet) - {} == SessionsOf(full.sessions, wallet);
      case Purge(_, hashes, wallets) =>
        NarrowRemove(full.sessions, hashes, (set h | h in hashes && MintedFor(init, h, wallet)), wallet);
        NarrowPreferences(full, last, wallet);
      case _ =>
        NarrowPreferences(full, last, wallet);
    }
  }

  lemma NarrowReplace(sessions: map<string, SessionRow>, hash: string, row: SessionRow, wallet: string)
    requires hash !in sessions
    ensures SessionsOf(OtherWallets(sessions, row.walletAddress)[hash := row], wallet) ==
            if row.walletAddress == wallet then OtherWallets(SessionsOf(sessions, wallet), wallet)[hash := row]
            else SessionsOf(sessions, wallet)
  {
  }

  lemma NarrowRemove(sessions: map<string, SessionRow>, gone: set<string>, mine: set<string>, wallet: string)
    requires mine <= gone
    requires forall h :: h in gone && h in SessionsOf(sessions, wallet) ==> h in mine
    ensures SessionsOf(sessions - gone, wallet) == SessionsOf(sessions, wallet) - mine
  {
  }

  lemma NarrowPreferences(full: Tables, last: Write, wallet: string)
    ensures Apply(OnlyFor(full, wallet), Narrow([], last, wallet)).preferences ==
            OnlyFor(Apply(full, last), wallet).preferences
  {
    match last {
      case DeletePreference(w) =>
        RemovePreferences(full.preferences, {w}, wallet);
      case ExpirePreference(w, _) =>
        RemovePreferences(full.preferences, {w}, wallet);
      case Purge(_, _, wallets) =>
        RemovePreferences(full.preferences, wallets, wallet);
      case _ =>
    }
  }

  lemma RemovePreferences(preferences: map<string, PreferenceRow>, gone: set<string>, wallet: string)
    ensures PreferencesOf(preferences - gone, wallet) ==
            if wallet in gone then map[] else PreferencesOf(preferences, wallet)
    ensures PreferencesOf(preferences, wallet) - gone * {wallet} == PreferencesOf(preferences - gone, wallet)
  {
  }
}
