/** The panel refuses no more than it should: a click with the guard free starts
    its send, a send whose checks all pass asks for the money, and an answered
    payment becomes its receipt. */
module SendCompleteness {
  import opened Text
  import opened SendPolicy
  import opened SendPanel
  import opened SendTheorems

  /** The awaited calls of send `id` settle with these answers, in order. */
  function Settles(id: nat, answers: seq<Answer>): (events: seq<Event>)
    ensures |events| == |answers| && forall k :: 0 <= k < |answers| ==> events[k] == Settle(id, answers[k])
  {
    seq(|answers|, k requires 0 <= k < |answers| => Settle(id, answers[k]))
  }

  lemma SettlesMore(kit: Kit, p: Panel, id: nat, answers: seq<Answer>, k: nat)
    requires k < |answers|
    ensures After(kit, p, Settles(id, answers[..k + 1])) ==
            Step(kit, After(kit, p, Settles(id, answers[..k])), Settle(id, answers[k]))
  {
    assert Settles(id, answers[..k + 1])[..k] == Settles(id, answers[..k]);
  }

  /** The panel once send `id` has got that far with these answers. */
  function Waiting(p: Panel, id: nat, pc: Pc, answers: seq<Answer>): Panel
    requires id in p.sends
  {
    var s := p.sends[id];
    p.(sends := p.sends[id := s.(pc := pc, answers := s.answers + answers)])
  }

  lemma WaitingNone(p: Panel, id: nat, answers: seq<Answer>)
    requires id in p.sends && answers == []
    ensures Waiting(p, id, p.sends[id].pc, answers) == p
  {
    assert p.sends[id].answers + answers == p.sends[id].answers;
    assert p.sends[id := p.sends[id]] == p.sends;
  }

  /** One passed check. */
  lemma Proceeds(kit: Kit, p: Panel, id: nat, pc: Pc, answers: seq<Answer>, a: Answer)
    requires id in p.sends && !pc.Done? && Typed(p.sends[id].(pc := pc)) && Answers(pc, a)
    requires MoveOn(kit, p.sends[id].checked, pc, a).Next?
    ensures Step(kit, Waiting(p, id, pc, answers), Settle(id, a)) ==
            Waiting(p, id, MoveOn(kit, p.sends[id].checked, pc, a).pc, answers + [a])
  {
    var before := Waiting(p, id, pc, answers);
    var after := Waiting(p, id, MoveOn(kit, p.sends[id].checked, pc, a).pc, answers + [a]);
    SettleSends(kit, before, id, a);
    assert (p.sends[id].answers + answers) + [a] == p.sends[id].answers + (answers + [a]);
    assert Step(kit, before, Settle(id, a)).sends == after.sends;
  }

  lemma ProceedsRun(kit: Kit, p: Panel, id: nat, pc: Pc, answers: seq<Answer>, k: nat)
    requires id in p.sends && !pc.Done? && Typed(p.sends[id].(pc := pc)) && k < |answers| && Answers(pc, answers[k])
    requires After(kit, p, Settles(id, answers[..k])) == Waiting(p, id, pc, answers[..k])
    requires MoveOn(kit, p.sends[id].checked, pc, answers[k]).Next?
    ensures After(kit, p, Settles(id, answers[..k + 1])) ==
            Waiting(p, id, MoveOn(kit, p.sends[id].checked, pc, answers[k]).pc, answers[..k + 1])
  {
    SettlesMore(kit, p, id, answers, k);
    Proceeds(kit, p, id, pc, answers[..k], answers[k]);
    assert answers[..k] + [answers[k]] == answers[..k + 1];
  }

  // ---- BIT ------------------------------------------------------------------

  /** Chain 0x1 at once, or after a switch. */
  predicate OnMainnet(answers: seq<Answer>)
  {
    || answers == [Answer.Text("0x1")]
    || (&& |answers| == 3 && answers[0].Text? && answers[0].text != "0x1"
        && answers[1] == Ack && answers[2] == Answer.Text("0x1"))
  }

  lemma MainnetRun(kit: Kit, p: Panel, id: nat, first: seq<Answer>)
    requires id in p.sends && p.sends[id].pc == AwaitChain && p.sends[id].checked.BitReview? && OnMainnet(first)
    ensures After(kit, p, Settles(id, first)) == Waiting(p, id, AwaitSigner, first)
  {
    if |first| == 1 {
      assert Settles(id, first[..0]) == [];
      WaitingNone(p, id, first[..0]);
      ProceedsRun(kit, p, id, AwaitChain, first, 0);
      assert first[..1] == first;
    } else {
      SwitchRun(kit, p, id, first);
    }
  }

  lemma SwitchRun(kit: Kit, p: Panel, id: nat, first: seq<Answer>)
    requires id in p.sends && p.sends[id].pc == AwaitChain && p.sends[id].checked.BitReview? && |first| == 3
    requires first[0].Text? && first[0].text != "0x1" && first[1] == Ack && first[2] == Answer.Text("0x1")
    ensures After(kit, p, Settles(id, first)) == Waiting(p, id, AwaitSigner, first)
  {
    assert Settles(id, first[..0]) == [];
    WaitingNone(p, id, first[..0]);
    ProceedsRun(kit, p, id, AwaitChain, first, 0);
    ProceedsRun(kit, p, id, AwaitSwitch, first, 1);
    ProceedsRun(kit, p, id, AwaitChainAgain, first, 2);
    assert first[..3] == first;
  }

  function PcAfter(k: nat): Pc
  {
    match k
    case 0 => AwaitSigner
    case 1 => AwaitAddress
    case 2 => AwaitContract
    case 3 => AwaitSimulation
    case 4 => AwaitGas
    case _ => AwaitFinal
  }

  lemma {:induction false} ChecksRun(kit: Kit, p: Panel, id: nat, answers: seq<Answer>, k: nat)
    requires id in p.sends && p.sends[id].pc == AwaitSigner && p.sends[id].checked.BitReview?
    requires k <= 5 && k <= |answers| && forall i :: 0 <= i < k ==> CheckOk(kit, p.sends[id].checked, i + 1, answers[i])
    ensures After(kit, p, Settles(id, answers[..k])) == Waiting(p, id, PcAfter(k), answers[..k])
  {
    if k == 0 {
      assert Settles(id, answers[..0]) == [];
      WaitingNone(p, id, answers[..0]);
    } else {
      ChecksRun(kit, p, id, answers, k - 1);
      assert CheckOk(kit, p.sends[id].checked, k, answers[k - 1]);
      ProceedsRun(kit, p, id, PcAfter(k - 1), answers, k - 1);
    }
  }

  /** The panel once the transfer of send `id` is asked for. */
  function Requested(p: Panel, id: nat, answers: seq<Answer>): Panel
    requires id in p.sends && p.sends[id].checked.BitReview?
  {
    var s, c := p.sends[id], p.sends[id].checked;
    p.(sends := p.sends[id := s.(pc := AwaitTransfer, requested := true, answers := s.answers + answers)],
       requests := p.requests + [Transfer(id, c.recipient, c.amountWei, s.answers + answers)])
  }

  lemma SignerRun(kit: Kit, p: Panel, id: nat, answers: seq<Answer>)
    requires id in p.sends && p.sends[id].pc == AwaitSigner && p.sends[id].checked.BitReview?
    requires |answers| == 6 && forall i :: 0 <= i < 6 ==> CheckOk(kit, p.sends[id].checked, i + 1, answers[i])
    ensures After(kit, p, Settles(id, answers)) == Requested(p, id, answers)
  {
    ChecksRun(kit, p, id, answers, 5);
    SettlesMore(kit, p, id, answers, 5);
    assert answers[..6] == answers && CheckOk(kit, p.sends[id].checked, 6, answers[5]);
    FinalAsks(kit, p, id, answers[..5], answers[5]);
    assert answers[..5] + [answers[5]] == answers;
  }

  lemma FinalAsks(kit: Kit, p: Panel, id: nat, answers: seq<Answer>, a: Answer)
    requires id in p.sends && p.sends[id].checked.BitReview? && CheckOk(kit, p.sends[id].checked, 6, a)
    ensures Step(kit, Waiting(p, id, AwaitFinal, answers), Settle(id, a)) == Requested(p, id, answers + [a])
  {
    assert (p.sends[id].answers + answers) + [a] == p.sends[id].answers + (answers + [a]);
    assert Step(kit, Waiting(p, id, AwaitFinal, answers), Settle(id, a)).sends == Requested(p, id, answers + [a]).sends;
  }

  /** Everything a review's send has to hear from the wallet and the contract. */
  predicate AllPass(kit: Kit, c: Review, code: string, answers: seq<Answer>)
    requires c.BitReview?
  {
    && |answers| == 6 && answers[0] == Ack
    && answers[1].Text? && kit.checksum(answers[1].text) == Some(c.sender)
    && answers[2].Reads? && kit.codeHash(answers[2].snapshot.code) == kit.codeHash(code)
    && answers[2].snapshot.symbol == "BIT" && answers[2].snapshot.decimals == 18 && !answers[2].snapshot.paused
    && answers[2].snapshot.balance >= c.amountWei
    && answers[3] == Flag(true) && answers[4] == Ack
    && answers[5].Final? && answers[5].chainId == "0x1" && answers[5].accounts != []
    && kit.checksum(answers[5].accounts[0]) == Some(c.sender)
  }

  lemma AllPassChecks(kit: Kit, e: Event, c: Review, answers: seq<Answer>, i: nat)
    requires DigestInjective(kit) && ChecksumStable(kit) && FromForm(kit, e, c)
    requires AllPass(kit, c, e.snapshot.code, answers) && i < 6
    ensures CheckOk(kit, c, i + 1, answers[i])
  {
    if i == 2 {
      DispatchExactly(kit, e.snapshot.code, c.sender, c.recipient, c.amountWei, c.authorization, answers[2].snapshot);
    }
  }

  /** Once every check passes, the transfer of exactly the reviewed recipient and
      amount is asked for, whether or not the wallet first had to switch chains. */
  lemma PassingSendAsks(kit: Kit, p: Panel, e: Event, id: nat, first: seq<Answer>, answers: seq<Answer>)
    requires DigestInjective(kit) && ChecksumStable(kit)
    requires id in p.sends && p.sends[id].pc == AwaitChain && FromForm(kit, e, p.sends[id].checked)
    requires OnMainnet(first) && AllPass(kit, p.sends[id].checked, e.snapshot.code, answers)
    ensures After(kit, After(kit, p, Settles(id, first)), Settles(id, answers)) == Requested(p, id, first + answers)
  {
    MainnetRun(kit, p, id, first);
    var q := Waiting(p, id, AwaitSigner, first);
    forall i | 0 <= i < 6
      ensures CheckOk(kit, q.sends[id].checked, i + 1, answers[i])
    {
      AllPassChecks(kit, e, q.sends[id].checked, answers, i);
    }
    SignerRun(kit, q, id, answers);
    RequestedLater(p, id, first, answers);
  }

  lemma RequestedLater(p: Panel, id: nat, first: seq<Answer>, answers: seq<Answer>)
    requires id in p.sends && p.sends[id].checked.BitReview?
    ensures Requested(Waiting(p, id, AwaitSigner, first), id, answers) == Requested(p, id, first + answers)
  {
    assert (p.sends[id].answers + first) + answers == p.sends[id].answers + (first + answers);
    assert Requested(Waiting(p, id, AwaitSigner, first), id, answers).sends == Requested(p, id, first + answers).sends;
  }

  // ---- clicks and Lightning -------------------------------------------------

  /** What a click on a shown review does: nothing while the guard is held;
      otherwise it takes the guard and waits for the wallet, and without one it
      fails, or leaves the invoice to a lightning: link. */
  lemma ClickDecides(kit: Kit, p: Panel, id: nat, c: Review, wallet: Wallet)
    requires id !in p.sends && c in p.shown
    ensures var v := Step(kit, p, Click(id, c, wallet));
            if p.dispatching then v == p
            else if wallet.Present? then
              v == p.(dispatching := true, sending := true, error := Clear,
                      sends := p.sends[id := Send(c, if c.BitReview? then AwaitChain else AwaitEnable, false, [])])
            else
              && id in v.sends && v.sends[id].pc.Done? && v.requests == p.requests && !v.dispatching && !v.sending
              && (c.BitReview? ==> v.error == Explained(None) && v.receipt == p.receipt && v.review == p.review)
              && (c.LightningReview? ==>
                    && v.receipt == Some(LightningReceipt(c.amountSats, Opened)) && v.review == None
                    && v.error == if wallet.linkOpens then Clear else Explained(None))
  {
  }

  /** Tabs and edits clear the error and the receipt, closing clears the review
      unless a send is under way, and none of them touches anything else. */
  lemma ViewDecides(kit: Kit, p: Panel, asset: Asset, code: Option<int>)
    ensures Step(kit, p, SelectAsset(asset)) == p.(asset := asset, error := Clear, receipt := None)
    ensures Step(kit, p, Edit) == Step(kit, p, BeginBitReview) == p.(error := Clear, receipt := None)
    ensures Step(kit, p, FailBitReview(code)) == p.(error := Explained(code))
    ensures Step(kit, p, CloseReview) == if p.sending then p else p.(review := None)
  {
  }

  /** A call that throws ends its send, whatever it was waiting for: the guard is
      released, the error line is set, and review, receipt, requests and every
      other send stay. */
  lemma ThrowDecides(kit: Kit, p: Panel, id: nat, code: Option<int>)
    requires id in p.sends && !p.sends[id].pc.Done? && Typed(p.sends[id])
    ensures var s := p.sends[id];
            var note := if s.requested && (s.checked.LightningReview? || code != Some(4001))
                        then StatusUnknown else Explained(code);
            Step(kit, p, Settle(id, Threw(code))) ==
            p.(dispatching := false, sending := false, error := note,
               sends := p.sends[id := s.(pc := Done(Failed(code, note)), answers := s.answers + [Threw(code)])])
  {
  }

  /** An enabled WebLN provider is asked for exactly the frozen invoice if it
      still prepares to itself and its amount; otherwise the send ends with an
      explanation and no request. */
  lemma EnabledAsksExactly(kit: Kit, p: Panel, id: nat)
    requires id in p.sends && p.sends[id].pc == AwaitEnable && p.sends[id].checked.LightningReview?
    requires !p.sends[id].requested
    ensures var v, c := Step(kit, p, Settle(id, Ack)), p.sends[id].checked;
            if kit.prepareLightning(c.invoice) == Some((c.invoice, c.amountSats)) then
              v.requests == p.requests + [Payment(id, c.invoice)] && id in v.sends && v.sends[id].pc == AwaitPayment
            else
              && v.requests == p.requests && id in v.sends && v.sends[id].pc == Done(Failed(None, Explained(None)))
              && v.error == Explained(None) && !v.dispatching
  {
  }

  /** An answered payment becomes a receipt for the reviewed amount, reported
      exactly when its preimage is sixty-four hexadecimal digits. */
  lemma PaymentDecides(kit: Kit, p: Panel, id: nat, preimage: string)
    requires id in p.sends && p.sends[id].pc == AwaitPayment && p.sends[id].checked.LightningReview?
    ensures var v := Step(kit, p, Settle(id, Paid(preimage)));
            && v.receipt.Some? && v.receipt.value.LightningReceipt? && v.review == None && !v.dispatching
            && v.receipt.value.amountSats == p.sends[id].checked.amountSats
            && v.receipt.value.status == if PreimageShaped(preimage) then Reported else PaymentUnknown
  {
    PaymentExactly(preimage);
  }
}
