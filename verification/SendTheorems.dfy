/** What the send panel promises, against every wallet and every schedule. */
module SendTheorems {
  import opened Text
  import opened SendPolicy
  import opened SendPanel

  // ---- the checks in front of a transfer ----------------------------------

  /** Check `i` of the seven that end with the request: chain, signer, sender,
      contract and balance, simulation, gas estimate, chain and sender again. */
  predicate CheckOk(kit: Kit, c: Review, i: nat, a: Answer)
    requires c.BitReview?
  {
    match i
    case 0 => a == Answer.Text("0x1")
    case 1 => a.Ack?
    case 2 => a.Text? && kit.checksum(a.text) == Some(c.sender)
    case 3 => a.Reads? && ContractStillGood(kit, c, a.snapshot)
    case 4 => a == Flag(true)
    case 5 => a.Ack?
    case 6 => a.Final? && AccountStillThere(kit, c, a.chainId, a.accounts)
    case _ => false
  }

  /** The last `k` answers are the first `k` checks, all passed. */
  predicate Passed(kit: Kit, c: Review, answers: seq<Answer>, k: nat)
    requires c.BitReview?
  {
    k == 0 || (answers != [] && CheckOk(kit, c, k - 1, answers[|answers| - 1]) &&
               Passed(kit, c, answers[..|answers| - 1], k - 1))
  }

  lemma PassedMore(kit: Kit, c: Review, answers: seq<Answer>, k: nat, a: Answer)
    requires c.BitReview? && Passed(kit, c, answers, k) && CheckOk(kit, c, k, a)
    ensures Passed(kit, c, answers + [a], k + 1)
  {
    assert (answers + [a])[..|answers|] == answers;
  }

  function ChecksBefore(pc: Pc): nat
  {
    match pc
    case AwaitSigner => 1
    case AwaitAddress => 2
    case AwaitContract => 3
    case AwaitSimulation => 4
    case AwaitGas => 5
    case AwaitFinal => 6
    case _ => 0
  }

  // ---- the invariant ------------------------------------------------------

  predicate InFlight(p: Panel, id: nat) { id in p.sends && !p.sends[id].pc.Done? }

  predicate SendOk(kit: Kit, s: Send)
  {
    && Typed(s)
    && (!s.pc.Done? ==> (s.requested <==> s.pc.AwaitTransfer? || s.pc.AwaitPayment?))
    && (s.checked.BitReview? ==> Passed(kit, s.checked, s.answers, ChecksBefore(s.pc)))
    && (s.pc.Done? && s.pc.outcome.Failed? ==>
        s.pc.outcome.note == FailureNote(s.checked, s.requested, s.pc.outcome.code))
  }

  /** The request carries exactly what its review froze, and every check in
      front of it had just passed. */
  predicate Justified(kit: Kit, s: Send, r: Request)
  {
    match r
    case Transfer(_, recipient, amountWei, answers) =>
      && s.checked.BitReview? && recipient == s.checked.recipient && amountWei == s.checked.amountWei
      && Passed(kit, s.checked, answers, 7)
    case Payment(_, invoice) =>
      s.checked.LightningReview? && invoice == s.checked.invoice && InvoiceStillFrozen(kit, s.checked)
  }

  predicate RequestOk(kit: Kit, p: Panel, k: nat)
    requires k < |p.requests|
  {
    var id := p.requests[k].id;
    id in p.sends && p.sends[id].requested && Justified(kit, p.sends[id], p.requests[k])
  }

  /** A send that ended with a transaction the response check accepted. */
  predicate Submitted(kit: Kit, p: Panel, id: nat, hash: string)
  {
    && id in p.sends && p.sends[id].checked.BitReview? && p.sends[id].pc == Done(Succeeded)
    && var s := p.sends[id];
    && |s.answers| > 0 && s.answers[|s.answers| - 1].Sent? && s.answers[|s.answers| - 1].tx.hash == hash
    && ResponseValid(kit, s.answers[|s.answers| - 1].tx, s.checked.authorization,
                     kit.transferData(s.checked.recipient, s.checked.amountWei))
  }

  /** The receipt is that of one ended send: its reviewed amount, and the hash or
      the preimage its wallet answered with, or a lightning: link. */
  predicate Backs(kit: Kit, p: Panel, id: nat, r: Receipt)
  {
    match r
    case BitReceipt(amount, recipient, hash, _) =>
      && Submitted(kit, p, id, hash)
      && amount == p.sends[id].checked.displayAmount && recipient == p.sends[id].checked.recipient
    case LightningReceipt(amountSats, status) =>
      && id in p.sends && p.sends[id].checked.LightningReview? && p.sends[id].pc.Done?
      && var s := p.sends[id];
      && amountSats == s.checked.amountSats
      && if s.requested then
           && s.pc.outcome.Succeeded?
           && |s.answers| > 0 && s.answers[|s.answers| - 1].Paid?
           && status == ClassifyPayment(s.answers[|s.answers| - 1].preimage)
         else s.answers == [] && status == Opened
  }

  ghost predicate Guarded(p: Panel)
  {
    && (forall i, j :: InFlight(p, i) && InFlight(p, j) ==> i == j)
    && (p.dispatching <==> exists i :: InFlight(p, i))
    && p.sending == p.dispatching
  }

  predicate Logged(kit: Kit, p: Panel)
  {
    && (forall k {:trigger RequestOk(kit, p, k)} :: 0 <= k < |p.requests| ==> RequestOk(kit, p, k))
    && (forall k, l :: 0 <= k < l < |p.requests| ==> p.requests[k].id != p.requests[l].id)
    && (forall id :: id in p.sends && p.sends[id].requested ==>
        exists k :: 0 <= k < |p.requests| && p.requests[k].id == id)
  }

  ghost predicate Delivered(kit: Kit, p: Panel)
  {
    && (forall id {:trigger id in p.waiting} :: id in p.waiting ==> Submitted(kit, p, id, p.waiting[id]))
    && (forall h {:trigger h in p.mined} :: h in p.mined ==> exists id :: Submitted(kit, p, id, h))
  }

  ghost predicate Shown(kit: Kit, p: Panel)
  {
    p.receipt.Some? ==>
      && (exists id :: Backs(kit, p, id, p.receipt.value))
      && (p.receipt.value.BitReceipt? && p.receipt.value.confirmed ==> p.receipt.value.transactionHash in p.mined)
  }

  ghost predicate Receipted(kit: Kit, p: Panel) { Delivered(kit, p) && Shown(kit, p) }

  predicate SendsOk(kit: Kit, p: Panel)
  {
    forall id {:trigger SendOk(kit, p.sends[id])} :: id in p.sends ==> SendOk(kit, p.sends[id])
  }

  ghost predicate Inv(kit: Kit, p: Panel)
  {
    SendsOk(kit, p) && Guarded(p) && Logged(kit, p) && Receipted(kit, p)
  }

  // ---- steps that move one send -------------------------------------------

  /** `v` differs from `p` in at most the send `id`. */
  predicate Only(p: Panel, v: Panel, id: nat)
  {
    && id in v.sends && v.sends.Keys == p.sends.Keys + {id}
    && forall i {:trigger v.sends[i]} :: i in v.sends && i != id ==> v.sends[i] == p.sends[i]
  }

  lemma GuardedMove(p: Panel, v: Panel, id: nat)
    requires Guarded(p) && Only(p, v, id) && (InFlight(p, id) || !p.dispatching)
    requires v.sending == v.dispatching && (InFlight(v, id) <==> v.dispatching)
    ensures Guarded(v)
  {
    forall i | InFlight(v, i)
      ensures i == id
    {
      assert v.sends[i].pc.Done? || i == id || InFlight(p, i);
    }
  }

  lemma SendsMove(kit: Kit, p: Panel, v: Panel, id: nat)
    requires SendsOk(kit, p) && Only(p, v, id) && SendOk(kit, v.sends[id])
    ensures SendsOk(kit, v)
  {
    forall i | i in v.sends
      ensures SendOk(kit, v.sends[i])
    {
      assert i != id ==> SendOk(kit, p.sends[i]);
    }
  }

  lemma RequestKept(kit: Kit, p: Panel, v: Panel, k: nat)
    requires k < |p.requests| && k < |v.requests| && p.requests[k] == v.requests[k] && RequestOk(kit, p, k)
    requires var id := p.requests[k].id;
             && id in v.sends && v.sends[id].checked == p.sends[id].checked
             && (p.sends[id].requested ==> v.sends[id].requested)
    ensures RequestOk(kit, v, k)
  {
  }

  /** A send that moves without asking leaves the log in order. */
  lemma LoggedMove(kit: Kit, p: Panel, v: Panel, id: nat)
    requires Logged(kit, p) && Only(p, v, id) && v.requests == p.requests
    requires if id in p.sends
             then v.sends[id].checked == p.sends[id].checked && v.sends[id].requested == p.sends[id].requested
             else !v.sends[id].requested
    ensures Logged(kit, v)
  {
    forall k | 0 <= k < |v.requests|
      ensures RequestOk(kit, v, k)
    {
      assert RequestOk(kit, p, k);
      assert v.sends[p.requests[k].id] == v.sends[p.requests[k].id];
      RequestKept(kit, p, v, k);
    }
    forall i | i in v.sends && v.sends[i].requested
      ensures exists k :: 0 <= k < |v.requests| && v.requests[k].id == i
    {
      assert i in p.sends && p.sends[i].requested;
    }
  }

  /** A send that asks adds its first and only request. */
  lemma LoggedAsk(kit: Kit, p: Panel, v: Panel, id: nat, r: Request)
    requires Logged(kit, p) && Only(p, v, id) && id in p.sends && !p.sends[id].requested
    requires v.sends[id].checked == p.sends[id].checked && v.sends[id].requested && r.id == id
    requires Justified(kit, v.sends[id], r)
    requires v.requests == p.requests + [r]
    ensures Logged(kit, v)
  {
    forall k | 0 <= k < |p.requests|
      ensures RequestOk(kit, v, k) && v.requests[k].id != id
    {
      assert RequestOk(kit, p, k);
      assert v.sends[p.requests[k].id] == v.sends[p.requests[k].id];
      RequestKept(kit, p, v, k);
    }
    assert v.requests[|p.requests|] == r && RequestOk(kit, v, |p.requests|);
    forall k | 0 <= k < |v.requests|
      ensures RequestOk(kit, v, k)
    {
      assert k < |p.requests| || k == |p.requests|;
    }
    forall i | i in v.sends && v.sends[i].requested
      ensures exists k :: 0 <= k < |v.requests| && v.requests[k].id == i
    {
      if i != id {
        assert i in p.sends && p.sends[i].requested;
        var k :| 0 <= k < |p.requests| && p.requests[k].id == i;
        assert v.requests[k] == p.requests[k];
      } else {
        assert v.requests[|p.requests|].id == i;
      }
    }
  }

  lemma SubmittedKept(kit: Kit, p: Panel, v: Panel, id: nat)
    requires Only(p, v, id) && (id in p.sends ==> !p.sends[id].pc.Done?)
    ensures forall i, h :: Submitted(kit, p, i, h) ==> Submitted(kit, v, i, h)
  {
    forall i, h | Submitted(kit, p, i, h)
      ensures Submitted(kit, v, i, h)
    {
      assert i in p.sends && i != id;
      assert v.sends[i] == p.sends[i];
    }
  }

  lemma ReceiptedMove(kit: Kit, p: Panel, v: Panel, id: nat)
    requires Receipted(kit, p) && Only(p, v, id) && (id in p.sends ==> !p.sends[id].pc.Done?)
    requires v.mined == p.mined && v.waiting == p.waiting
    requires v.receipt == p.receipt || v.receipt.None? ||
             (v.receipt.value.LightningReceipt? && Backs(kit, v, id, v.receipt.value))
    ensures Receipted(kit, v)
  {
    SubmittedKept(kit, p, v, id);
    forall h | h in v.mined
      ensures exists i :: Submitted(kit, v, i, h)
    {
      var i :| Submitted(kit, p, i, h);
      assert Submitted(kit, v, i, h);
    }
    if v.receipt.Some? && v.receipt == p.receipt {
      var i :| Backs(kit, p, i, v.receipt.value);
      BacksKept(kit, p, v, id, i, v.receipt.value);
    }
  }

  lemma BacksKept(kit: Kit, p: Panel, v: Panel, id: nat, i: nat, r: Receipt)
    requires Only(p, v, id) && (id in p.sends ==> !p.sends[id].pc.Done?) && Backs(kit, p, i, r)
    ensures Backs(kit, v, i, r)
  {
    assert i != id;
  }

  lemma ReceiptedFinish(kit: Kit, p: Panel, v: Panel, id: nat, hash: string)
    requires Receipted(kit, p) && Only(p, v, id) && id in p.sends && !p.sends[id].pc.Done?
    requires Submitted(kit, v, id, hash)
    requires v.mined == p.mined && v.waiting == p.waiting[id := hash]
    requires v.receipt.Some? && v.receipt.value.BitReceipt? && !v.receipt.value.confirmed
    requires Backs(kit, v, id, v.receipt.value)
    ensures Receipted(kit, v)
  {
    SubmittedKept(kit, p, v, id);
    forall h | h in v.mined
      ensures exists i :: Submitted(kit, v, i, h)
    {
      var i :| Submitted(kit, p, i, h);
      assert Submitted(kit, v, i, h);
    }
  }

  // ---- settling -----------------------------------------------------------

  /** What passing one more answer proves. */
  lemma ChecksGrow(kit: Kit, s: Send, a: Answer)
    requires SendOk(kit, s) && Answers(s.pc, a) && s.checked.BitReview? && MoveOn(kit, s.checked, s.pc, a).Next?
    ensures Passed(kit, s.checked, s.answers + [a], ChecksBefore(MoveOn(kit, s.checked, s.pc, a).pc))
  {
    if s.pc.AwaitChain? || s.pc.AwaitChainAgain? {
      if a.text == "0x1" {
        PassedMore(kit, s.checked, s.answers, 0, a);
      }
    } else if !s.pc.AwaitSwitch? {
      PassedMore(kit, s.checked, s.answers, ChecksBefore(s.pc), a);
    }
  }

  lemma NextOk(kit: Kit, s: Send, a: Answer)
    requires SendOk(kit, s) && Answers(s.pc, a)
    ensures var m, t := MoveOn(kit, s.checked, s.pc, a), s.(answers := s.answers + [a]);
            && (m.Next? ==> !m.pc.Done? && SendOk(kit, t.(pc := m.pc)))
            && (m.Ask? ==> !s.requested && !m.pc.Done? && SendOk(kit, t.(pc := m.pc, requested := true)))
  {
    if s.checked.BitReview? && MoveOn(kit, s.checked, s.pc, a).Next? {
      ChecksGrow(kit, s, a);
    }
  }

  /** A move asks for money only from the state that has passed every check. */
  lemma AskJustified(kit: Kit, s: Send, a: Answer)
    requires SendOk(kit, s) && Answers(s.pc, a) && MoveOn(kit, s.checked, s.pc, a).Ask?
    ensures s.checked.BitReview? ==> Passed(kit, s.checked, s.answers + [a], 7)
    ensures s.checked.LightningReview? ==> InvoiceStillFrozen(kit, s.checked)
  {
    if s.checked.BitReview? {
      PassedMore(kit, s.checked, s.answers, 6, a);
    }
  }

  lemma SettleKeeps(kit: Kit, p: Panel, id: nat, a: Answer)
    requires Inv(kit, p) && Enabled(p, Settle(id, a))
    ensures Typed(p.sends[id]) && Inv(kit, SettleStep(kit, p, id, a))
  {
    var s := p.sends[id];
    assert SendOk(kit, s) && InFlight(p, id);
    NextOk(kit, s, a);
    match MoveOn(kit, s.checked, s.pc, a) {
      case Next(_) => SettleNext(kit, p, id, a);
      case Throw(_) => SettleThrow(kit, p, id, a);
      case Ask(_) => SettleAsk(kit, p, id, a);
      case Finish => SettleFinish(kit, p, id, a);
    }
  }

  predicate Settling(kit: Kit, p: Panel, id: nat, a: Answer)
  {
    Enabled(p, Settle(id, a)) && SendOk(kit, p.sends[id])
  }

  lemma SettleNext(kit: Kit, p: Panel, id: nat, a: Answer)
    requires Inv(kit, p) && Settling(kit, p, id, a) && MoveOn(kit, p.sends[id].checked, p.sends[id].pc, a).Next?
    ensures Inv(kit, SettleStep(kit, p, id, a))
  {
    var v := SettleStep(kit, p, id, a);
    assert InFlight(p, id);
    NextOk(kit, p.sends[id], a);
    SendsMove(kit, p, v, id);
    GuardedMove(p, v, id);
    LoggedMove(kit, p, v, id);
    ReceiptedMove(kit, p, v, id);
  }

  lemma SettleThrow(kit: Kit, p: Panel, id: nat, a: Answer)
    requires Inv(kit, p) && Settling(kit, p, id, a) && MoveOn(kit, p.sends[id].checked, p.sends[id].pc, a).Throw?
    ensures Inv(kit, SettleStep(kit, p, id, a))
  {
    var v := SettleStep(kit, p, id, a);
    SendsMove(kit, p, v, id);
    GuardedMove(p, v, id);
    LoggedMove(kit, p, v, id);
    ReceiptedMove(kit, p, v, id);
  }

  lemma SettleAsk(kit: Kit, p: Panel, id: nat, a: Answer)
    requires Inv(kit, p) && Settling(kit, p, id, a) && MoveOn(kit, p.sends[id].checked, p.sends[id].pc, a).Ask?
    ensures Inv(kit, SettleStep(kit, p, id, a))
  {
    var v := SettleStep(kit, p, id, a);
    assert InFlight(p, id);
    NextOk(kit, p.sends[id], a);
    AskJustified(kit, p.sends[id], a);
    SendsMove(kit, p, v, id);
    GuardedMove(p, v, id);
    LoggedAsk(kit, p, v, id, v.requests[|p.requests|]);
    ReceiptedMove(kit, p, v, id);
  }

  lemma SettleFinish(kit: Kit, p: Panel, id: nat, a: Answer)
    requires Inv(kit, p) && Settling(kit, p, id, a) && MoveOn(kit, p.sends[id].checked, p.sends[id].pc, a).Finish?
    ensures Inv(kit, SettleStep(kit, p, id, a))
  {
    FinishEffect(kit, p, id, a);
    FinishReceipt(kit, p, id, a);
    FinishKeeps(kit, p, SettleStep(kit, p, id, a), id);
  }

  /** What finishing leaves, receipts apart. */
  predicate Finishes(p: Panel, v: Panel, id: nat)
  {
    && Only(p, v, id) && id in p.sends && v.requests == p.requests && !v.sending && !v.dispatching
    && v.sends[id] == p.sends[id].(pc := Done(Succeeded), answers := v.sends[id].answers)
  }

  lemma FinishEffect(kit: Kit, p: Panel, id: nat, a: Answer)
    requires Settling(kit, p, id, a) && MoveOn(kit, p.sends[id].checked, p.sends[id].pc, a).Finish?
    ensures Finishes(p, SettleStep(kit, p, id, a), id)
  {
  }

  lemma FinishKeeps(kit: Kit, p: Panel, v: Panel, id: nat)
    requires Inv(kit, p) && InFlight(p, id) && Finishes(p, v, id) && Receipted(kit, v)
    ensures Inv(kit, v)
  {
    SendsMove(kit, p, v, id);
    GuardedMove(p, v, id);
    LoggedMove(kit, p, v, id);
  }

  lemma FinishReceipt(kit: Kit, p: Panel, id: nat, a: Answer)
    requires Receipted(kit, p) && Settling(kit, p, id, a) && MoveOn(kit, p.sends[id].checked, p.sends[id].pc, a).Finish?
    ensures Receipted(kit, SettleStep(kit, p, id, a))
  {
    FinishEffect(kit, p, id, a);
    if p.sends[id].checked.BitReview? {
      FinishSubmits(kit, p, id, a);
      ReceiptedFinish(kit, p, SettleStep(kit, p, id, a), id, a.tx.hash);
    } else {
      FinishPays(kit, p, id, a);
      ReceiptedMove(kit, p, SettleStep(kit, p, id, a), id);
    }
  }

  lemma FinishPays(kit: Kit, p: Panel, id: nat, a: Answer)
    requires Settling(kit, p, id, a) && MoveOn(kit, p.sends[id].checked, p.sends[id].pc, a).Finish?
    requires p.sends[id].checked.LightningReview?
    ensures var v := SettleStep(kit, p, id, a);
            && v.mined == p.mined && v.waiting == p.waiting
            && v.receipt.Some? && v.receipt.value.LightningReceipt? && Backs(kit, v, id, v.receipt.value)
  {
    var s := p.sends[id];
    assert (s.answers + [a])[|s.answers|] == a;
  }

  lemma FinishSubmits(kit: Kit, p: Panel, id: nat, a: Answer)
    requires Settling(kit, p, id, a) && MoveOn(kit, p.sends[id].checked, p.sends[id].pc, a).Finish?
    requires p.sends[id].checked.BitReview?
    ensures var v := SettleStep(kit, p, id, a);
            && a.Sent? && Submitted(kit, v, id, a.tx.hash) && v.mined == p.mined
            && v.waiting == p.waiting[id := a.tx.hash]
            && v.receipt.Some? && v.receipt.value.BitReceipt? && !v.receipt.value.confirmed
            && Backs(kit, v, id, v.receipt.value)
  {
    var s := p.sends[id];
    assert (s.answers + [a])[|s.answers|] == a;
  }

  // ---- the other events ---------------------------------------------------

  /** What an accepted click leaves. */
  predicate Clicks(kit: Kit, p: Panel, v: Panel, id: nat)
  {
    && Only(p, v, id) && id !in p.sends && SendOk(kit, v.sends[id]) && !v.sends[id].requested
    && v.sending == v.dispatching && (InFlight(v, id) <==> v.dispatching)
    && v.requests == p.requests && v.mined == p.mined && v.waiting == p.waiting
    && (v.receipt == p.receipt ||
        (v.receipt.Some? && v.receipt.value.LightningReceipt? && Backs(kit, v, id, v.receipt.value)))
  }

  lemma ClickEffect(kit: Kit, p: Panel, id: nat, checked: Review, wallet: Wallet)
    requires id !in p.sends && !p.dispatching
    ensures Clicks(kit, p, ClickStep(p, id, checked, wallet), id)
  {
  }

  lemma ClickKeeps(kit: Kit, p: Panel, id: nat, checked: Review, wallet: Wallet)
    requires Inv(kit, p) && Enabled(p, Click(id, checked, wallet)) && !p.dispatching
    ensures Inv(kit, ClickStep(p, id, checked, wallet))
  {
    ClickEffect(kit, p, id, checked, wallet);
    ClickedKeeps(kit, p, ClickStep(p, id, checked, wallet), id);
  }

  lemma ClickedKeeps(kit: Kit, p: Panel, v: Panel, id: nat)
    requires Inv(kit, p) && Clicks(kit, p, v, id) && !p.dispatching
    ensures Inv(kit, v)
  {
    SendsMove(kit, p, v, id);
    GuardedMove(p, v, id);
    LoggedMove(kit, p, v, id);
    ReceiptedMove(kit, p, v, id);
  }

  lemma MinedKeeps(kit: Kit, p: Panel, id: nat, status: Option<int>, hash: string)
    requires Inv(kit, p) && id in p.waiting
    ensures Inv(kit, MinedStep(p, id, status, hash))
  {
    SameKeeps(kit, p, MinedStep(p, id, status, hash));
    MinedReceipts(kit, p, MinedStep(p, id, status, hash), id);
  }

  /** Without a change to sends, requests and guard, only receipts matter. */
  lemma SameKeeps(kit: Kit, p: Panel, v: Panel)
    requires SendsOk(kit, p) && Guarded(p) && Logged(kit, p) && v.sends == p.sends && v.requests == p.requests
    requires v.dispatching == p.dispatching && v.sending == p.sending
    ensures SendsOk(kit, v) && Guarded(v) && Logged(kit, v)
  {
    forall k | 0 <= k < |v.requests|
      ensures RequestOk(kit, v, k)
    {
      assert RequestOk(kit, p, k);
    }
    SendsSame(kit, p, v);
    assert forall i :: InFlight(v, i) <==> InFlight(p, i);
  }

  lemma SendsSame(kit: Kit, p: Panel, v: Panel)
    requires SendsOk(kit, p) && v.sends == p.sends
    ensures SendsOk(kit, v)
  {
    forall i | i in v.sends
      ensures SendOk(kit, v.sends[i])
    {
      assert SendOk(kit, p.sends[i]);
    }
  }

  lemma BacksSame(kit: Kit, p: Panel, v: Panel, i: nat, r: Receipt, t: Receipt)
    requires v.sends == p.sends && Backs(kit, p, i, r) && (t == r || (r.BitReceipt? && t == r.(confirmed := true)))
    ensures Backs(kit, v, i, t)
  {
  }

  lemma SubmittedSame(kit: Kit, p: Panel, v: Panel, mined: set<string>)
    requires v.sends == p.sends && forall h :: h in mined ==> exists i :: Submitted(kit, p, i, h)
    ensures forall i, h :: Submitted(kit, p, i, h) ==> Submitted(kit, v, i, h)
    ensures forall h :: h in mined ==> exists i :: Submitted(kit, v, i, h)
  {
    forall h | h in mined
      ensures exists i :: Submitted(kit, v, i, h)
    {
      var i :| Submitted(kit, p, i, h);
      assert Submitted(kit, v, i, h);
    }
  }

  lemma MinedDelivers(kit: Kit, p: Panel, v: Panel, id: nat)
    requires Delivered(kit, p) && id in p.waiting && v.sends == p.sends && v.waiting == p.waiting - {id}
    requires v.mined == p.mined || v.mined == p.mined + {p.waiting[id]}
    ensures Delivered(kit, v)
  {
    assert Submitted(kit, p, id, p.waiting[id]);
    SubmittedSame(kit, p, v, p.mined + {p.waiting[id]});
  }

  lemma ShownSame(kit: Kit, p: Panel, v: Panel)
    requires Shown(kit, p) && v.sends == p.sends && p.mined <= v.mined
    requires v.receipt == p.receipt || v.receipt == None ||
      (&& p.receipt.Some? && p.receipt.value.BitReceipt? && p.receipt.value.transactionHash in v.mined
       && v.receipt == Some(p.receipt.value.(confirmed := true)))
    ensures Shown(kit, v)
  {
    if v.receipt.Some? {
      var i :| Backs(kit, p, i, p.receipt.value);
      BacksSame(kit, p, v, i, p.receipt.value, v.receipt.value);
    }
  }

  lemma MinedReceipts(kit: Kit, p: Panel, v: Panel, id: nat)
    requires Receipted(kit, p) && id in p.waiting && v.sends == p.sends && v.waiting == p.waiting - {id}
    requires v.mined == p.mined || v.mined == p.mined + {p.waiting[id]}
    requires v.receipt == p.receipt ||
      (&& v.mined == p.mined + {p.waiting[id]} && p.receipt.Some? && p.receipt.value.BitReceipt?
       && p.receipt.value.transactionHash == p.waiting[id] && v.receipt == Some(p.receipt.value.(confirmed := true)))
    ensures Receipted(kit, v)
  {
    MinedDelivers(kit, p, v, id);
    ShownSame(kit, p, v);
  }

  /** Reviews, tabs, edits and closing touch neither sends nor requests, and
      can clear a receipt but not make one. */
  lemma ViewKeeps(kit: Kit, p: Panel, v: Panel)
    requires Inv(kit, p) && (v.receipt == p.receipt || v.receipt == None)
    requires v.sends == p.sends && v.requests == p.requests && v.waiting == p.waiting && v.mined == p.mined
    requires v.dispatching == p.dispatching && v.sending == p.sending
    ensures Inv(kit, v)
  {
    SameKeeps(kit, p, v);
    ViewReceipts(kit, p, v);
  }

  lemma ViewReceipts(kit: Kit, p: Panel, v: Panel)
    requires Receipted(kit, p) && (v.receipt == p.receipt || v.receipt == None)
    requires v.sends == p.sends && v.waiting == p.waiting && v.mined == p.mined
    ensures Receipted(kit, v)
  {
    SubmittedSame(kit, p, v, p.mined);
    ShownSame(kit, p, v);
  }

  lemma InvStep(kit: Kit, p: Panel, e: Event)
    requires Inv(kit, p)
    ensures Inv(kit, Step(kit, p, e))
  {
    if Enabled(p, e) {
      match e {
        case Click(id, checked, wallet) =>
          if !p.dispatching {
            ClickKeeps(kit, p, id, checked, wallet);
          }
        case Settle(id, a) =>
          SettleKeeps(kit, p, id, a);
        case Mined(id, status, hash) =>
          MinedKeeps(kit, p, id, status, hash);
        case _ =>
          ViewStep(kit, p, e);
          ViewKeeps(kit, p, Step(kit, p, e));
      }
    }
  }

  lemma ViewStep(kit: Kit, p: Panel, e: Event)
    requires !e.Click? && !e.Settle? && !e.Mined?
    ensures var v := Step(kit, p, e);
            && (v.receipt == p.receipt || v.receipt == None) && v.sends == p.sends && v.requests == p.requests
            && v.waiting == p.waiting && v.mined == p.mined && v.dispatching == p.dispatching && v.sending == p.sending
  {
    match e {
      case Settle(_, _) =>
      case _ =>
    }
  }

  lemma {:induction false} Reachable(kit: Kit, events: seq<Event>)
    ensures Inv(kit, After(kit, FIRST, events))
  {
    if events != [] {
      Reachable(kit, events[..|events| - 1]);
      InvStep(kit, After(kit, FIRST, events[..|events| - 1]), events[|events| - 1]);
    }
  }

  // ---- headline results ---------------------------------------------------

  function At(kit: Kit, events: seq<Event>, i: nat): Panel
    requires i <= |events|
  {
    After(kit, FIRST, events[..i])
  }

  lemma AtStep(kit: Kit, events: seq<Event>, i: nat)
    requires i < |events|
    ensures At(kit, events, i + 1) == Step(kit, At(kit, events, i), events[i]) && Inv(kit, At(kit, events, i))
  {
    assert events[..i + 1][..i] == events[..i];
    Reachable(kit, events[..i]);
  }

  /** In every schedule at most one send is in flight across both assets, and
      the guard is held exactly while one is: every exit path releases it. */
  lemma GuardHeldExactlyInFlight(kit: Kit, events: seq<Event>)
    ensures var p := After(kit, FIRST, events);
            && (forall i, j :: InFlight(p, i) && InFlight(p, j) ==> i == j)
            && (p.dispatching <==> exists i :: InFlight(p, i))
            && p.sending == p.dispatching
  {
    Reachable(kit, events);
  }

  /** How many more answers a send can wait for. */
  function Rank(pc: Pc): nat
  {
    match pc
    case AwaitChain => 10
    case AwaitSwitch => 9
    case AwaitChainAgain => 8
    case AwaitSigner => 7
    case AwaitAddress => 6
    case AwaitContract => 5
    case AwaitSimulation => 4
    case AwaitGas => 3
    case AwaitFinal => 2
    case AwaitTransfer => 1
    case AwaitEnable => 2
    case AwaitPayment => 1
    case Done(_) => 0
  }

  /** The awaited calls of send `id` that settle during a schedule. */
  function Settled(kit: Kit, p: Panel, events: seq<Event>, id: nat): nat
  {
    if events == [] then 0 else
      var init, e := events[..|events| - 1], events[|events| - 1];
      Settled(kit, p, init, id) + if e.Settle? && e.id == id && Enabled(After(kit, p, init), e) then 1 else 0
  }

  /** Only a settled call of its own moves a send, and never its review. */
  lemma SendStep(kit: Kit, p: Panel, e: Event, id: nat)
    requires id in p.sends
    ensures id in Step(kit, p, e).sends
    ensures !(e.Settle? && e.id == id && Enabled(p, e)) ==> Step(kit, p, e).sends[id] == p.sends[id]
  {
    match e {
      case Click(i, checked, _) => assert Enabled(p, e) ==> i != id;
      case Settle(i, a) =>
      case _ =>
    }
  }

  /** A new send comes from a click that found the guard free. */
  lemma NewSend(kit: Kit, p: Panel, e: Event, id: nat)
    requires id !in p.sends && id in Step(kit, p, e).sends
    ensures e.Click? && e.id == id && !p.dispatching && e.checked in p.shown
    ensures Step(kit, p, e).sends[id].checked == e.checked
  {
    if e.Settle? {
      SettleKeys(kit, p, e);
    }
  }

  lemma SettleKeys(kit: Kit, p: Panel, e: Event)
    requires e.Settle?
    ensures Step(kit, p, e).sends.Keys == p.sends.Keys
  {
    if Enabled(p, e) && Typed(p.sends[e.id]) {
      SettleSends(kit, p, e.id, e.answer);
    }
  }

  lemma MoveRank(kit: Kit, s: Send, a: Answer)
    requires SendOk(kit, s) && Answers(s.pc, a)
    ensures var m := MoveOn(kit, s.checked, s.pc, a); m.Next? || m.Ask? ==> 0 < Rank(m.pc) < Rank(s.pc)
  {
  }

  /** What an answer makes of its send. */
  function AnsweredSend(kit: Kit, s: Send, a: Answer): Send
    requires Answers(s.pc, a) && Typed(s)
  {
    var t := s.(answers := s.answers + [a]);
    match MoveOn(kit, s.checked, s.pc, a)
    case Next(pc) => t.(pc := pc)
    case Throw(code) => t.(pc := Done(Failed(code, FailureNote(s.checked, s.requested, code))))
    case Ask(pc) => t.(pc := pc, requested := true)
    case Finish => t.(pc := Done(Succeeded))
  }

  lemma SettleSends(kit: Kit, p: Panel, id: nat, a: Answer)
    requires Enabled(p, Settle(id, a)) && Typed(p.sends[id])
    ensures SettleStep(kit, p, id, a).sends == p.sends[id := AnsweredSend(kit, p.sends[id], a)]
  {
  }

  lemma SettleEffect(kit: Kit, p: Panel, id: nat, a: Answer)
    requires Settling(kit, p, id, a)
    ensures var s, t := p.sends[id], SettleStep(kit, p, id, a).sends[id];
            t.checked == s.checked && Rank(t.pc) < Rank(s.pc)
  {
    SettleSends(kit, p, id, a);
    MoveRank(kit, p.sends[id], a);
  }

  lemma SettleShowsFailure(kit: Kit, p: Panel, id: nat, a: Answer)
    requires Settling(kit, p, id, a)
    ensures var v := SettleStep(kit, p, id, a);
            v.sends[id].pc.Done? && v.sends[id].pc.outcome.Failed? ==> v.error == v.sends[id].pc.outcome.note
  {
    MoveRank(kit, p.sends[id], a);
  }

  lemma RankStep(kit: Kit, p: Panel, e: Event, id: nat)
    requires Inv(kit, p) && id in p.sends
    ensures id in Step(kit, p, e).sends
    ensures var settled := if e.Settle? && e.id == id && Enabled(p, e) then 1 else 0;
            Rank(Step(kit, p, e).sends[id].pc) + settled <= Rank(p.sends[id].pc)
  {
    assert SendOk(kit, p.sends[id]);
    SendStep(kit, p, e, id);
    if e.Settle? && e.id == id && Enabled(p, e) {
      SettleEffect(kit, p, id, e.answer);
    }
  }

  /** Every settled call brings a send closer to its end, so a send whose
      awaited calls settle ends after at most ten answers, whatever they are. */
  lemma {:induction false} SettlingEnds(kit: Kit, p: Panel, events: seq<Event>, id: nat)
    requires Inv(kit, p) && id in p.sends
    ensures Inv(kit, After(kit, p, events)) && id in After(kit, p, events).sends
    ensures Rank(After(kit, p, events).sends[id].pc) + Settled(kit, p, events, id) <= Rank(p.sends[id].pc) <= 10
    ensures Settled(kit, p, events, id) >= 10 ==> !InFlight(After(kit, p, events), id)
  {
    if events != [] {
      var init := events[..|events| - 1];
      SettlingEnds(kit, p, init, id);
      InvStep(kit, After(kit, p, init), events[|events| - 1]);
      RankStep(kit, After(kit, p, init), events[|events| - 1], id);
    }
  }

  /** No accepted click causes two requests. */
  lemma OneRequestPerClick(kit: Kit, events: seq<Event>, k: nat, l: nat)
    requires k < l < |After(kit, FIRST, events).requests|
    ensures After(kit, FIRST, events).requests[k].id != After(kit, FIRST, events).requests[l].id
  {
    Reachable(kit, events);
  }

  /** Every send goes back to one click that found the guard free, and keeps
      the review it was clicked from whatever the panel shows later. */
  lemma {:induction false} SendHasClick(kit: Kit, events: seq<Event>, id: nat) returns (i: nat)
    requires id in After(kit, FIRST, events).sends
    ensures i < |events| && !At(kit, events, i).dispatching && id !in At(kit, events, i).sends
    ensures events[i].Click? && events[i].id == id && events[i].checked == After(kit, FIRST, events).sends[id].checked
    ensures events[i].checked in At(kit, events, i).shown
  {
    var init, e := events[..|events| - 1], events[|events| - 1];
    var p := After(kit, FIRST, init);
    Reachable(kit, init);
    if id in p.sends {
      assert SendOk(kit, p.sends[id]);
      SendStep(kit, p, e, id);
      if e.Settle? && e.id == id && Enabled(p, e) {
        SettleEffect(kit, p, id, e.answer);
      }
      i := SendHasClick(kit, init, id);
      assert init[..i] == events[..i];
    } else {
      NewSend(kit, p, e, id);
      i := |events| - 1;
    }
  }

  /** The BIT review `r` is what event `e` was filled in and read for: the typed
      recipient and amount, the connected account, an unpaused BIT contract with
      enough balance, all frozen over the code read then. */
  predicate FromForm(kit: Kit, e: Event, r: Review)
  {
    && r.BitReview? && e.FinishBitReview?
    && kit.prepareBit(e.to, e.amount) == Some((r.recipient, r.amountWei, r.displayAmount))
    && kit.checksum(e.account) == Some(r.sender) && r.sender != r.recipient
    && e.snapshot.symbol == "BIT" && e.snapshot.decimals == 18 && !e.snapshot.paused
    && e.snapshot.balance >= r.amountWei
    && Frozen(kit, e.snapshot.code, r.sender, r.recipient, r.amountWei, r.authorization)
  }

  lemma PreparedIsFromForm(kit: Kit, e: Event)
    requires e.FinishBitReview?
    ensures var r := PreparedBit(kit, e.to, e.amount, e.account, e.snapshot); r.Some? ==> FromForm(kit, e, r.value)
  {
    var prepared := kit.prepareBit(e.to, e.amount);
    assert prepared.Some? ==> prepared.value == (prepared.value.0, prepared.value.1, prepared.value.2);
  }

  lemma PreparedIsFromInvoice(kit: Kit, e: Event)
    requires e.ReviewLightning?
    ensures var prepared := kit.prepareLightning(e.invoice);
            prepared.Some? ==> FromInvoice(kit, e, LightningReview(prepared.value.0, prepared.value.1))
  {
    var prepared := kit.prepareLightning(e.invoice);
    assert prepared.Some? ==> prepared.value == (prepared.value.0, prepared.value.1);
  }

  /** Finishing a review shows exactly that review, or an error where there is
      none to show. */
  lemma ReviewShownExactly(kit: Kit, p: Panel, e: Event)
    requires e.FinishBitReview?
    ensures forall r :: FromForm(kit, e, r) ==> Step(kit, p, e) == p.(review := Some(r), shown := p.shown + {r})
    ensures (forall r :: !FromForm(kit, e, r)) ==> Step(kit, p, e) == p.(error := Explained(None))
  {
    PreparedIsFromForm(kit, e);
  }

  /** A Lightning review is the prepared invoice text. */
  predicate FromInvoice(kit: Kit, e: Event, r: Review)
  {
    r.LightningReview? && e.ReviewLightning? && kit.prepareLightning(e.invoice) == Some((r.invoice, r.amountSats))
  }

  lemma InvoiceShownExactly(kit: Kit, p: Panel, e: Event)
    requires e.ReviewLightning?
    ensures var q := p.(error := Clear, receipt := None);
            && (forall r :: FromInvoice(kit, e, r) ==> Step(kit, p, e) == q.(review := Some(r), shown := p.shown + {r}))
            && ((forall r :: !FromInvoice(kit, e, r)) ==> Step(kit, p, e) == q.(error := Explained(None)))
  {
    PreparedIsFromInvoice(kit, e);
  }

  /** Settling shows no review and delivers no confirmation. */
  lemma SettleLeaves(kit: Kit, p: Panel, id: nat, a: Answer)
    requires Enabled(p, Settle(id, a)) && Typed(p.sends[id])
    ensures SettleStep(kit, p, id, a).shown == p.shown && SettleStep(kit, p, id, a).mined == p.mined
  {
  }

  lemma StepLeaves(kit: Kit, p: Panel, e: Event)
    requires e.Settle?
    ensures Step(kit, p, e).shown == p.shown && Step(kit, p, e).mined == p.mined
  {
    if Enabled(p, e) && Typed(p.sends[e.id]) {
      SettleLeaves(kit, p, e.id, e.answer);
    }
  }

  lemma NewReview(kit: Kit, p: Panel, e: Event, r: Review)
    requires r !in p.shown && r in Step(kit, p, e).shown
    ensures FromForm(kit, e, r) || FromInvoice(kit, e, r)
  {
    match e {
      case Settle(_, _) => StepLeaves(kit, p, e);
      case FinishBitReview(_, _, _, _) => PreparedIsFromForm(kit, e);
      case ReviewLightning(_) => PreparedIsFromInvoice(kit, e);
      case _ =>
    }
  }

  /** Every review ever shown goes back to the form fields it was typed into. */
  lemma {:induction false} ReviewsAreFrozen(kit: Kit, events: seq<Event>, r: Review) returns (j: nat)
    requires r in After(kit, FIRST, events).shown
    ensures j < |events| && (FromForm(kit, events[j], r) || FromInvoice(kit, events[j], r))
  {
    var init, e := events[..|events| - 1], events[|events| - 1];
    if r in After(kit, FIRST, init).shown {
      j := ReviewsAreFrozen(kit, init, r);
    } else {
      NewReview(kit, After(kit, FIRST, init), e, r);
      j := |events| - 1;
    }
  }

  /** The passed checks are the last answers, in order. */
  lemma {:induction false} PassedAt(kit: Kit, c: Review, answers: seq<Answer>, k: nat, i: nat)
    requires c.BitReview? && Passed(kit, c, answers, k) && i < k
    ensures |answers| >= k && CheckOk(kit, c, i, answers[|answers| - k + i])
  {
    var init := answers[..|answers| - 1];
    if i < k - 1 {
      PassedAt(kit, c, init, k - 1, i);
    } else if k > 1 {
      PassedAt(kit, c, init, k - 1, 0);
    }
  }

  /** The seven answers in front of a transfer, spelled out. */
  lemma PassedSeven(kit: Kit, c: Review, answers: seq<Answer>)
    requires c.BitReview? && Passed(kit, c, answers, 7)
    ensures var n := |answers|;
            && n >= 7 && answers[n - 7] == Answer.Text("0x1") && answers[n - 6].Ack?
            && answers[n - 5].Text? && kit.checksum(answers[n - 5].text) == Some(c.sender)
            && answers[n - 4].Reads? && ContractStillGood(kit, c, answers[n - 4].snapshot)
            && answers[n - 3] == Flag(true) && answers[n - 2].Ack?
            && answers[n - 1].Final? && AccountStillThere(kit, c, answers[n - 1].chainId, answers[n - 1].accounts)
  {
    PassedAt(kit, c, answers, 7, 0);
    PassedAt(kit, c, answers, 7, 1);
    PassedAt(kit, c, answers, 7, 2);
    PassedAt(kit, c, answers, 7, 3);
    PassedAt(kit, c, answers, 7, 4);
    PassedAt(kit, c, answers, 7, 5);
    PassedAt(kit, c, answers, 7, 6);
  }

  /** The transfer request `r` follows from the click at event `i` on the review
      typed at event `j`: it carries the recipient and amount of the form fields,
      and its send had just read chain 0x1, the reviewed sender, an unpaused BIT
      contract with the reviewed runtime code and enough balance, a true
      simulation, and chain and sender once more. */
  predicate TransferFollows(kit: Kit, events: seq<Event>, r: Request, i: nat, j: nat)
  {
    && r.Transfer? && j < i < |events| && events[i].Click? && events[i].id == r.id
    && var c, n := events[i].checked, |r.answers|;
    && FromForm(kit, events[j], c)
    && kit.prepareBit(events[j].to, events[j].amount) == Some((r.recipient, r.amountWei, c.displayAmount))
    && n >= 7 && r.answers[n - 7] == Answer.Text("0x1")
    && r.answers[n - 5].Text? && kit.checksum(r.answers[n - 5].text) == Some(c.sender)
    && r.answers[n - 4].Reads?
    && var s := r.answers[n - 4].snapshot;
    && s.symbol == "BIT" && s.decimals == 18 && !s.paused && s.balance >= r.amountWei
    && kit.codeHash(s.code) == kit.codeHash(events[j].snapshot.code)
    && r.answers[n - 3] == Flag(true)
    && r.answers[n - 1].Final? && r.answers[n - 1].chainId == "0x1" && r.answers[n - 1].accounts != []
    && kit.checksum(r.answers[n - 1].accounts[0]) == Some(c.sender)
  }

  /** Every transfer request of every schedule follows from its form and click. */
  lemma TransferIsJustified(kit: Kit, events: seq<Event>, k: nat) returns (i: nat, j: nat)
    requires k < |After(kit, FIRST, events).requests| && After(kit, FIRST, events).requests[k].Transfer?
    requires DigestInjective(kit)
    ensures TransferFollows(kit, events, After(kit, FIRST, events).requests[k], i, j)
  {
    var p := After(kit, FIRST, events);
    Reachable(kit, events);
    assert RequestOk(kit, p, k);
    var r := p.requests[k];
    i := SendHasClick(kit, events, r.id);
    var c := events[i].checked;
    j := ReviewsAreFrozen(kit, events[..i], c);
    PassedSeven(kit, c, r.answers);
    DispatchPinsContext(kit, events[j].snapshot.code, c.sender, c.recipient, c.amountWei, c.sender,
                        r.answers[|r.answers| - 4].snapshot);
  }

  /** The WebLN request `r` carries exactly the invoice prepared from the text
      typed at event `j` and clicked at event `i`, re-prepared to the same invoice
      and amount. */
  predicate PaymentFollows(kit: Kit, events: seq<Event>, r: Request, i: nat, j: nat)
  {
    && r.Payment? && j < i < |events| && events[i].Click? && events[i].id == r.id
    && FromInvoice(kit, events[j], events[i].checked) && r.invoice == events[i].checked.invoice
    && kit.prepareLightning(r.invoice) == kit.prepareLightning(events[j].invoice) ==
       Some((r.invoice, events[i].checked.amountSats))
  }

  /** Every WebLN request of every schedule follows from its text and click. */
  lemma PaymentIsJustified(kit: Kit, events: seq<Event>, k: nat) returns (i: nat, j: nat)
    requires k < |After(kit, FIRST, events).requests| && After(kit, FIRST, events).requests[k].Payment?
    ensures PaymentFollows(kit, events, After(kit, FIRST, events).requests[k], i, j)
  {
    Reachable(kit, events);
    assert RequestOk(kit, After(kit, FIRST, events), k);
    i := SendHasClick(kit, events, After(kit, FIRST, events).requests[k].id);
    j := ReviewsAreFrozen(kit, events[..i], events[i].checked);
  }

  predicate Asked(p: Panel, id: nat)
  {
    exists k :: 0 <= k < |p.requests| && p.requests[k].id == id
  }

  predicate FailsAt(p: Panel, v: Panel, id: nat, code: Option<int>)
  {
    && (id in p.sends ==> !p.sends[id].pc.Done?)
    && id in v.sends && v.sends[id].pc.Done? && v.sends[id].pc.outcome.Failed? && v.sends[id].pc.outcome.code == code
  }

  lemma FailureIsShown(kit: Kit, p: Panel, e: Event, id: nat, code: Option<int>)
    requires Inv(kit, p) && FailsAt(p, Step(kit, p, e), id, code)
    ensures Step(kit, p, e).error == Step(kit, p, e).sends[id].pc.outcome.note
  {
    if id in p.sends {
      assert SendOk(kit, p.sends[id]);
      SendStep(kit, p, e, id);
      SettleShowsFailure(kit, p, id, e.answer);
    } else {
      NewSend(kit, p, e, id);
    }
  }

  /** Whenever a send fails, the error line says "status is unknown" if and only
      if that send had asked the wallet for money and, for BIT, the failure was
      not the user's cancellation (code 4001). */
  lemma OutcomeIsSound(kit: Kit, events: seq<Event>, i: nat, id: nat, code: Option<int>)
    requires i < |events| && FailsAt(At(kit, events, i), At(kit, events, i + 1), id, code)
    ensures var v := At(kit, events, i + 1);
            && (v.error == StatusUnknown <==>
                Asked(v, id) && (v.sends[id].checked.LightningReview? || code != Some(4001)))
            && (v.error != StatusUnknown ==> v.error == Explained(code))
  {
    AtStep(kit, events, i);
    var p, v := At(kit, events, i), At(kit, events, i + 1);
    FailureIsShown(kit, p, events[i], id, code);
    InvStep(kit, p, events[i]);
    assert SendOk(kit, v.sends[id]);
    if Asked(v, id) {
      var k :| 0 <= k < |v.requests| && v.requests[k].id == id;
      assert RequestOk(kit, v, k);
    }
  }

  lemma NewMined(kit: Kit, p: Panel, e: Event, hash: string)
    requires hash !in p.mined && hash in Step(kit, p, e).mined
    ensures e.Mined? && e.status == Some(1) && e.hash == hash && e.id in p.waiting && p.waiting[e.id] == hash
  {
    if e.Settle? {
      StepLeaves(kit, p, e);
    }
  }

  lemma {:induction false} MinedHasEvent(kit: Kit, events: seq<Event>, hash: string) returns (i: nat)
    requires hash in After(kit, FIRST, events).mined
    ensures i < |events| && events[i].Mined? && events[i].status == Some(1) && events[i].hash == hash
    ensures events[i].id in At(kit, events, i).waiting && At(kit, events, i).waiting[events[i].id] == hash
  {
    var init := events[..|events| - 1];
    if hash in After(kit, FIRST, init).mined {
      i := MinedHasEvent(kit, init, hash);
      assert init[..i] == events[..i];
    } else {
      i := |events| - 1;
      NewMined(kit, After(kit, FIRST, init), events[i], hash);
    }
  }

  /** The transaction a BIT send was answered with is the transfer of review `c`
      and of no other: to the token, from the reviewed sender, without ether. */
  ghost predicate PaidExactly(kit: Kit, c: Review, tx: Transaction)
    requires c.BitReview?
  {
    && Genuine(kit, tx, c.sender, c.recipient, c.amountWei)
    && (EncodingInjective(kit) ==>
          forall other, otherWei: nat ::
            kit.checksum(other).Some? && otherWei <= MAX_UINT256
            && SameUpToCase(tx.data, kit.transferData(other, otherWei)) ==>
              kit.checksum(other) == kit.checksum(c.recipient) && otherWei == c.amountWei)
  }

  lemma GenuinePaysExactly(kit: Kit, c: Review, e: Event, tx: Transaction)
    requires FromForm(kit, e, c) && Genuine(kit, tx, c.sender, c.recipient, c.amountWei)
    ensures PaidExactly(kit, c, tx)
  {
    forall other, otherWei: nat | EncodingInjective(kit) && kit.checksum(other).Some? && otherWei <= MAX_UINT256
                                  && SameUpToCase(tx.data, kit.transferData(other, otherWei))
      ensures kit.checksum(other) == kit.checksum(c.recipient) && otherWei == c.amountWei
    {
      GenuineIsThisTransfer(kit, tx, c.sender, c.recipient, c.amountWei, other, otherWei);
    }
  }

  /** The receipt on screen is always that of one ended click on a review typed
      into the form. A BIT receipt names the recipient and amount of the form, and
      the accepted transaction pays exactly that; a Lightning receipt carries the
      status its preimage deserves, and "opened" only where no payment was
      requested. */
  lemma ReceiptIsSound(kit: Kit, events: seq<Event>) returns (id: nat, i: nat, j: nat)
    requires After(kit, FIRST, events).receipt.Some?
    ensures var p := After(kit, FIRST, events);
            && Backs(kit, p, id, p.receipt.value) && (p.sends[id].requested <==> Asked(p, id))
            && j < i < |events| && events[i].Click? && events[i].id == id && events[i].checked == p.sends[id].checked
            && (p.receipt.value.BitReceipt? ==>
                  var c, answers := events[i].checked, p.sends[id].answers;
                  && FromForm(kit, events[j], c) && p.receipt.value.recipient == c.recipient
                  && p.receipt.value.amount == c.displayAmount
                  && answers != [] && answers[|answers| - 1].Sent?
                  && answers[|answers| - 1].tx.hash == p.receipt.value.transactionHash
                  && PaidExactly(kit, c, answers[|answers| - 1].tx))
            && (p.receipt.value.LightningReceipt? ==>
                  FromInvoice(kit, events[j], events[i].checked)
                  && p.receipt.value.amountSats == events[i].checked.amountSats)
  {
    var p := After(kit, FIRST, events);
    Reachable(kit, events);
    id :| Backs(kit, p, id, p.receipt.value);
    i := SendHasClick(kit, events, id);
    j := ReviewsAreFrozen(kit, events[..i], events[i].checked);
    assert events[..i][j] == events[j];
    if Asked(p, id) {
      var k :| 0 <= k < |p.requests| && p.requests[k].id == id;
      assert RequestOk(kit, p, k);
    }
    if p.receipt.value.BitReceipt? {
      var c, tx := events[i].checked, p.sends[id].answers[|p.sends[id].answers| - 1].tx;
      ResponseExactly(kit, tx, c.authorization, c.sender, c.recipient, c.amountWei);
      GenuinePaysExactly(kit, c, events[j], tx);
    }
  }

  /** What a wallet's answer to the transfer request does, in every schedule: a
      genuine transaction becomes the receipt; with a wrong target, sender, call
      data, value or hash the send ends with "status is unknown". */
  lemma ResponseDecides(kit: Kit, events: seq<Event>, i: nat, id: nat, tx: Transaction)
    requires i < |events| && events[i] == Settle(id, Sent(tx)) && Enabled(At(kit, events, i), events[i])
    ensures var p, v := At(kit, events, i), At(kit, events, i + 1);
            && p.sends[id].checked.BitReview? && id in v.sends
            && var c := p.sends[id].checked;
            if Genuine(kit, tx, c.sender, c.recipient, c.amountWei) then
              && v.receipt == Some(BitReceipt(c.displayAmount, c.recipient, tx.hash, false)) && v.review == None
              && v.sends[id].pc == Done(Succeeded) && v.waiting == p.waiting[id := tx.hash] && v.error == p.error
            else
              && v.error == StatusUnknown && v.sends[id].pc == Done(Failed(None, StatusUnknown))
              && v.receipt == p.receipt && v.review == p.review && v.waiting == p.waiting
  {
    var p := At(kit, events, i);
    AtStep(kit, events, i);
    assert SendOk(kit, p.sends[id]);
    var k := SendHasClick(kit, events[..i], id);
    var c := p.sends[id].checked;
    var j := ReviewsAreFrozen(kit, events[..i][..k], c);
    ResponseExactly(kit, tx, c.authorization, c.sender, c.recipient, c.amountWei);
  }

  /** Event `i` delivered a mined result with status 1 for `hash`, to a send
      whose transaction the response check had accepted under that hash. */
  predicate ConfirmedBy(kit: Kit, events: seq<Event>, hash: string, i: nat)
  {
    && i < |events| && events[i].Mined? && events[i].status == Some(1) && events[i].hash == hash
    && Submitted(kit, At(kit, events, i), events[i].id, hash)
  }

  /** A receipt marked confirmed names a hash that was so delivered. */
  lemma ConfirmedMeansMined(kit: Kit, events: seq<Event>) returns (i: nat)
    requires var r := After(kit, FIRST, events).receipt; r.Some? && r.value.BitReceipt? && r.value.confirmed
    ensures ConfirmedBy(kit, events, After(kit, FIRST, events).receipt.value.transactionHash, i)
  {
    Reachable(kit, events);
    i := MinedHasEvent(kit, events, After(kit, FIRST, events).receipt.value.transactionHash);
    AtStep(kit, events, i);
  }

  /** A late confirmation marks the receipt confirmed exactly when it is a
      status-1 result for the awaited hash and the receipt names that hash; it
      confirms no other receipt, brings no cleared one back, and changes nothing
      else that is shown. */
  lemma LateConfirmationIsLocal(kit: Kit, events: seq<Event>, i: nat)
    requires i < |events| && events[i].Mined?
    ensures !Enabled(At(kit, events, i), events[i]) ==> At(kit, events, i + 1) == At(kit, events, i)
    ensures Enabled(At(kit, events, i), events[i]) ==>
            var p, v, e := At(kit, events, i), At(kit, events, i + 1), events[i];
            && v == p.(receipt := v.receipt, waiting := p.waiting - {e.id}, mined := v.mined)
            && Submitted(kit, p, e.id, p.waiting[e.id])
            && v.receipt ==
               if && e.status == Some(1) && e.hash == p.waiting[e.id]
                  && p.receipt.Some? && p.receipt.value.BitReceipt? && p.receipt.value.transactionHash == e.hash
               then Some(p.receipt.value.(confirmed := true)) else p.receipt
  {
    AtStep(kit, events, i);
  }

  // ---- one panel's whole life ---------------------------------------------

  /** What a panel that went through `events` from its first state shows: the
      guard is exact, every request follows from its own click, and a confirmed
      receipt was delivered. */
  ghost predicate Accounted(kit: Kit, events: seq<Event>, p: Panel)
  {
    && Guarded(p)
    && (forall k, l :: 0 <= k < l < |p.requests| ==> p.requests[k].id != p.requests[l].id)
    && (DigestInjective(kit) ==>
          forall k :: 0 <= k < |p.requests| && p.requests[k].Transfer? ==>
            exists i: nat, j: nat :: TransferFollows(kit, events, p.requests[k], i, j))
    && (forall k :: 0 <= k < |p.requests| && p.requests[k].Payment? ==>
          exists i: nat, j: nat :: PaymentFollows(kit, events, p.requests[k], i, j))
    && (p.receipt.Some? && p.receipt.value.BitReceipt? && p.receipt.value.confirmed ==>
          exists i: nat :: ConfirmedBy(kit, events, p.receipt.value.transactionHash, i))
  }

  lemma RunIsAccounted(kit: Kit, events: seq<Event>)
    ensures Accounted(kit, events, After(kit, FIRST, events))
  {
    var p := After(kit, FIRST, events);
    Reachable(kit, events);
    forall k | 0 <= k < |p.requests| && p.requests[k].Transfer? && DigestInjective(kit)
      ensures exists i: nat, j: nat :: TransferFollows(kit, events, p.requests[k], i, j)
    {
      var i, j := TransferIsJustified(kit, events, k);
    }
    forall k | 0 <= k < |p.requests| && p.requests[k].Payment?
      ensures exists i: nat, j: nat :: PaymentFollows(kit, events, p.requests[k], i, j)
    {
      var i, j := PaymentIsJustified(kit, events, k);
    }
    if p.receipt.Some? && p.receipt.value.BitReceipt? && p.receipt.value.confirmed {
      var i := ConfirmedMeansMined(kit, events);
    }
  }
}
