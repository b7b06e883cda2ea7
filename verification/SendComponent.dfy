/** The panel component as mutable state. Each asynchronous function is cut at
    its awaits: a click runs to the first wait, and settling a call runs from
    that wait to the next one or to `finally`. */
module SendComponent {
  import opened Text
  import opened SendPolicy
  import opened SendPanel
  import opened SendTheorems

  class Component {
    const kit: Kit
    var asset: Asset
    var review: Option<Review>
    var sending: bool
    var error: Note
    var receipt: Option<Receipt>
    var dispatching: bool
    // suspended sends, reviews shown so far, requests made, confirmations due and delivered
    var sends: map<nat, Send>
    var shown: set<Review>
    var requests: seq<Request>
    var waiting: map<nat, string>
    var mined: set<string>

    function State(): Panel
      reads this
    {
      Panel(asset, review, sending, error, receipt, dispatching, sends, shown, requests, waiting, mined)
    }

    constructor (kit: Kit)
      ensures State() == FIRST && this.kit == kit && Inv(kit, State())
    {
      this.kit := kit;
      asset, review, sending, error, receipt, dispatching := Bit, None, false, Clear, None, false;
      sends, shown, requests, waiting, mined := map[], {}, [], map[], {};
      Reachable(kit, []);
    }

    method ChooseAsset(next: Asset)
      modifies this`asset, this`error, this`receipt
      ensures State() == Step(kit, old(State()), SelectAsset(next))
    {
      asset := next;
      error := Clear;
      receipt := None;
    }

    /** The end of `reviewBitSend`, once every awaited read has answered. */
    method EndBitReview(to: string, amount: string, account: string, snapshot: Snapshot)
      modifies this`review, this`error, this`shown
      ensures State() == Step(kit, old(State()), FinishBitReview(to, amount, account, snapshot))
    {
      var prepared, sender := kit.prepareBit(to, amount), kit.checksum(account);
      var failed := true;
      if prepared.Some? && sender.Some? {
        var (recipient, amountWei, display) := prepared.value;
        if sender.value != recipient && snapshot.symbol == "BIT" && snapshot.decimals == BIT_DECIMALS {
          if !snapshot.paused && snapshot.balance >= amountWei {
            var authorization := CreateAuthorization(kit, snapshot.code, sender.value, recipient, amountWei);
            if authorization.Some? {
              var next := BitReview(sender.value, recipient, amountWei, display, authorization.value);
              review := Some(next);
              shown := shown + {next};
              failed := false;
            }
          }
        }
      }
      if failed {
        error := Explained(None);
      }
    }

    method ReviewLightningSend(invoice: string)
      modifies this`review, this`error, this`receipt, this`shown
      ensures State() == Step(kit, old(State()), ReviewLightning(invoice))
    {
      error := Clear;
      receipt := None;
      var prepared := kit.prepareLightning(invoice);
      if prepared.Some? {
        var next := LightningReview(prepared.value.0, prepared.value.1);
        review := Some(next);
        shown := shown + {next};
      } else {
        error := Explained(None);
      }
    }

    /** `sendBit` or `sendLightning`, up to the first wait. */
    method OnClick(id: nat, checked: Review, wallet: Wallet)
      modifies this
      ensures State() == ClickStep(old(State()), id, checked, wallet)
    {
      if dispatching { return; }
      dispatching := true;
      sending := true;
      error := Clear;
      if checked.BitReview? {
        var s := Send(checked, AwaitChain, false, []);
        if wallet.Absent? {
          Catch(id, s, None);
          return;
        }
        sends := sends[id := s];
      } else {
        var s := Send(checked, AwaitEnable, false, []);
        if wallet.Absent? {
          receipt := Some(LightningReceipt(checked.amountSats, Opened));
          review := None;
          if wallet.linkOpens {
            Finally(id, s, Succeeded);
          } else {
            Catch(id, s, None);
          }
          return;
        }
        sends := sends[id := s];
      }
    }

    /** `finally`; `s` holds the send's local variables. */
    method Finally(id: nat, s: Send, outcome: Outcome)
      modifies this`dispatching, this`sending, this`sends
      ensures State() == Release(old(State()), id, s, outcome)
    {
      dispatching := false;
      sending := false;
      sends := sends[id := s.(pc := Done(outcome))];
    }

    /** `catch`, then `finally` */
    method Catch(id: nat, s: Send, code: Option<int>)
      modifies this`dispatching, this`sending, this`sends, this`error
      ensures State() == Fail(old(State()), id, s, code)
    {
      if s.requested && (s.checked.LightningReview? || code != Some(4001)) {
        error := StatusUnknown;
      } else {
        error := Explained(code);
      }
      Finally(id, s, Failed(code, error));
    }

    /** From one wait to the next: the awaited call of send `id` settles. */
    method OnSettle(id: nat, a: Answer)
      requires Enabled(State(), Settle(id, a)) && Typed(sends[id])
      modifies this
      ensures State() == SettleStep(kit, old(State()), id, a)
    {
      var s := sends[id].(answers := sends[id].answers + [a]);
      if a.Threw? {
        Catch(id, s, a.code);
      } else if s.pc.AwaitTransfer? {
        AcceptTransaction(id, s, a.tx);
      } else if s.pc.AwaitPayment? {
        RecordPayment(id, a);
      } else if s.pc.AwaitFinal? {
        RequestTransfer(id, a);
      } else if s.pc.AwaitEnable? {
        RequestPayment(id, a);
      } else {
        Recheck(id, s, a);
      }
    }

    /** The last check of chain and account, then the transfer request. */
    method RequestTransfer(id: nat, a: Answer)
      requires Enabled(State(), Settle(id, a)) && Typed(sends[id]) && sends[id].pc.AwaitFinal? && !a.Threw?
      modifies this
      ensures State() == SettleStep(kit, old(State()), id, a)
    {
      var s := sends[id].(answers := sends[id].answers + [a]);
      var c := s.checked;
      if a.chainId != "0x1" || |a.accounts| == 0 || kit.checksum(a.accounts[0]) != Some(c.sender) {
        Catch(id, s, None);
        return;
      }
      requests := requests + [Transfer(id, c.recipient, c.amountWei, s.answers)];
      sends := sends[id := s.(pc := AwaitTransfer, requested := true)];
    }

    /** The frozen invoice once more, then the payment request. */
    method RequestPayment(id: nat, a: Answer)
      requires Enabled(State(), Settle(id, a)) && Typed(sends[id]) && sends[id].pc.AwaitEnable? && !a.Threw?
      modifies this
      ensures State() == SettleStep(kit, old(State()), id, a)
    {
      var s := sends[id].(answers := sends[id].answers + [a]);
      var c := s.checked;
      if kit.prepareLightning(c.invoice) != Some((c.invoice, c.amountSats)) {
        Catch(id, s, None);
        return;
      }
      requests := requests + [Payment(id, c.invoice)];
      sends := sends[id := s.(pc := AwaitPayment, requested := true)];
    }

    method RecordPayment(id: nat, a: Answer)
      requires Enabled(State(), Settle(id, a)) && Typed(sends[id]) && sends[id].pc.AwaitPayment? && !a.Threw?
      modifies this
      ensures State() == SettleStep(kit, old(State()), id, a)
    {
      var s := sends[id].(answers := sends[id].answers + [a]);
      receipt := Some(LightningReceipt(s.checked.amountSats, ClassifyPayment(a.preimage)));
      review := None;
      Finally(id, s, Succeeded);
    }

    predicate Rechecked(pc: Pc)
    {
      !pc.Done? && !pc.AwaitTransfer? && !pc.AwaitPayment? && !pc.AwaitFinal? && !pc.AwaitEnable?
    }

    /** The checks of `requireMainnet` and `sendBit` up to the gas estimate. */
    method Recheck(id: nat, s: Send, a: Answer)
      requires s.checked.BitReview? && Answers(s.pc, a) && !a.Threw? && Rechecked(s.pc)
      modifies this
      ensures var m := MoveOn(kit, s.checked, s.pc, a); m.Next? || m.Throw?
      ensures var m := MoveOn(kit, s.checked, s.pc, a);
              State() ==
              if m.Next? then old(State()).(sends := old(sends)[id := s.(pc := m.pc)])
              else Fail(old(State()), id, s, m.code)
    {
      var c := s.checked;
      var next := None;
      match s.pc {
        case AwaitChain => next := Some(if a.text == "0x1" then AwaitSigner else AwaitSwitch);
        case AwaitSwitch => next := Some(AwaitChainAgain);
        case AwaitChainAgain => if a.text == "0x1" { next := Some(AwaitSigner); }
        case AwaitSigner => next := Some(AwaitAddress);
        case AwaitAddress => if kit.checksum(a.text) == Some(c.sender) { next := Some(AwaitContract); }
        case AwaitContract => if ContractStillGood(kit, c, a.snapshot) { next := Some(AwaitSimulation); }
        case AwaitSimulation => if a.flag { next := Some(AwaitGas); }
        case AwaitGas => next := Some(AwaitFinal);
      }
      if next.None? {
        Catch(id, s, None);
      } else {
        sends := sends[id := s.(pc := next.value)];
      }
    }

    method AcceptTransaction(id: nat, s: Send, tx: Transaction)
      requires s.checked.BitReview?
      modifies this
      ensures var c, before := s.checked, old(State());
              State() ==
              if ResponseValid(kit, tx, c.authorization, kit.transferData(c.recipient, c.amountWei)) then
                Release(before, id, s, Succeeded).(
                  receipt := Some(BitReceipt(c.displayAmount, c.recipient, tx.hash, false)), review := None,
                  waiting := before.waiting[id := tx.hash])
              else Fail(before, id, s, None)
    {
      var c := s.checked;
      if !ResponseValid(kit, tx, c.authorization, kit.transferData(c.recipient, c.amountWei)) {
        Catch(id, s, None);
        return;
      }
      receipt := Some(BitReceipt(c.displayAmount, c.recipient, tx.hash, false));
      review := None;
      waiting := waiting[id := tx.hash];
      Finally(id, s, Succeeded);
    }

    /** The callback of `transaction.wait(1)`. */
    method OnMined(id: nat, status: Option<int>, hash: string)
      requires id in waiting
      modifies this`waiting, this`mined, this`receipt
      ensures State() == MinedStep(old(State()), id, status, hash)
    {
      var transactionHash := waiting[id];
      waiting := waiting - {id};
      if status == Some(1) && hash == transactionHash {
        mined := mined + {hash};
        if receipt.Some? && receipt.value.BitReceipt? && receipt.value.transactionHash == transactionHash {
          receipt := Some(receipt.value.(confirmed := true));
        }
      }
    }

    /** One event, whatever the user, the wallet or the chain does next: the
        component moves as the step system does and keeps the invariant. */
    method Handle(e: Event)
      requires Inv(kit, State())
      modifies this
      ensures State() == Step(kit, old(State()), e) && Inv(kit, State())
    {
      InvStep(kit, State(), e);
      if !Enabled(State(), e) { return; }
      match e {
        case SelectAsset(next) => ChooseAsset(next);
        case Edit => error, receipt := Clear, None;
        case BeginBitReview => error, receipt := Clear, None;
        case FinishBitReview(to, amount, account, snapshot) => EndBitReview(to, amount, account, snapshot);
        case FailBitReview(code) => error := Explained(code);
        case ReviewLightning(invoice) => ReviewLightningSend(invoice);
        case CloseReview => review := None;
        case Click(id, checked, wallet) => OnClick(id, checked, wallet);
        case Settle(id, a) =>
          assert SendOk(kit, State().sends[id]);
          OnSettle(id, a);
        case Mined(id, status, hash) => OnMined(id, status, hash);
      }
    }

    /** Any schedule: the component goes through a run of the step system. From
        its first state on, its guard is held exactly while one send is in
        flight, every request it made follows from its own click, and a receipt
        it shows as confirmed was delivered as mined. */
    method Run(events: seq<Event>)
      requires Inv(kit, State())
      modifies this
      ensures State() == After(kit, old(State()), events) && Inv(kit, State())
      ensures old(State()) == FIRST ==> Accounted(kit, events, State())
    {
      for i := 0 to |events|
        invariant State() == After(kit, old(State()), events[..i]) && Inv(kit, State())
      {
        Handle(events[i]);
        assert events[..i + 1][..i] == events[..i];
      }
      assert events[..|events|] == events;
      RunIsAccounted(kit, events);
    }
  }
}
