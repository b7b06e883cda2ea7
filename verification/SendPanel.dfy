/** The direct-send panel as a step system: clicks, tab switches, edits, late
    confirmations, and a wallet that answers every awaited call as it likes. */
module SendPanel {
  import opened Text
  import opened SendPolicy

  datatype Asset = Bit | Lightning

  datatype Review =
    | BitReview(sender: string, recipient: string, amountWei: nat, displayAmount: string, authorization: Authorization)
    | LightningReview(invoice: string, amountSats: nat)

  datatype Receipt =
    | BitReceipt(amount: string, recipient: string, transactionHash: string, confirmed: bool)
    | LightningReceipt(amountSats: nat, status: PaymentStatus)

  /** The error line: empty, the "status is unknown" warning, or an explanation
      of the failure (cancelled when the failure carried code 4001). */
  datatype Note = Clear | StatusUnknown | Explained(code: Option<int>)

  /** What one awaited call may settle with. */
  datatype Answer =
    | Threw(code: Option<int>)
    | Text(text: string)
    | Ack
    | Flag(flag: bool)
    | Reads(snapshot: Snapshot)
    | Final(chainId: string, accounts: seq<string>)
    | Sent(tx: Transaction)
    | Paid(preimage: string)

  /** Which call a send is waiting for. */
  datatype Pc =
    | AwaitChain | AwaitSwitch | AwaitChainAgain | AwaitSigner | AwaitAddress
    | AwaitContract | AwaitSimulation | AwaitGas | AwaitFinal
    | AwaitTransfer
    | AwaitEnable | AwaitPayment
    | Done(outcome: Outcome)

  datatype Outcome = Succeeded | Failed(code: Option<int>, note: Note)

  /** One accepted click: the review it was clicked from, where it stands,
      whether money was requested, and every answer it got. */
  datatype Send = Send(checked: Review, pc: Pc, requested: bool, answers: seq<Answer>)

  /** A request that leaves the page, with the answers its send had by then. */
  datatype Request =
    | Transfer(id: nat, recipient: string, amountWei: nat, answers: seq<Answer>)
    | Payment(id: nat, invoice: string)

  datatype Panel = Panel(
    asset: Asset, review: Option<Review>, sending: bool, error: Note, receipt: Option<Receipt>, dispatching: bool,
    sends: map<nat, Send>, shown: set<Review>, requests: seq<Request>, waiting: map<nat, string>, mined: set<string>)

  const FIRST := Panel(Bit, None, false, Clear, None, false, map[], {}, [], map[], {})

  /** Whether the page has a wallet for the asset; without one, a Lightning send
      opens a lightning: link, which may throw. */
  datatype Wallet = Present | Absent(linkOpens: bool)

  datatype Event =
    | SelectAsset(asset: Asset)
    | Edit
    | BeginBitReview
    | FinishBitReview(to: string, amount: string, account: string, snapshot: Snapshot)
    | FailBitReview(code: Option<int>)
    | ReviewLightning(invoice: string)
    | CloseReview
    | Click(id: nat, checked: Review, wallet: Wallet)
    | Settle(id: nat, answer: Answer)
    | Mined(id: nat, status: Option<int>, hash: string)

  // ---- preparing a review -------------------------------------------------

  /** The review `reviewBitSend` ends with on these answers, if it gets there. */
  function PreparedBit(kit: Kit, to: string, amount: string, account: string, s: Snapshot): (r: Option<Review>)
  {
    var prepared, sender := kit.prepareBit(to, amount), kit.checksum(account);
    if prepared.None? || sender.None? then None else
      var (recipient, amountWei, display) := prepared.value;
      var authorization := CreateAuthorization(kit, s.code, sender.value, recipient, amountWei);
      if sender.value == recipient || s.symbol != "BIT" || s.decimals != BIT_DECIMALS || s.paused
         || s.balance < amountWei
         || authorization.None? then None
      else Some(BitReview(sender.value, recipient, amountWei, display, authorization.value))
  }

  // ---- one send -----------------------------------------------------------

  /** The answers a wait can settle with. */
  predicate Answers(pc: Pc, a: Answer)
  {
    !pc.Done? && (a.Threw? ||
      match pc
      case AwaitChain => a.Text?
      case AwaitSwitch => a.Ack?
      case AwaitChainAgain => a.Text?
      case AwaitSigner => a.Ack?
      case AwaitAddress => a.Text?
      case AwaitContract => a.Reads?
      case AwaitSimulation => a.Flag?
      case AwaitGas => a.Ack?
      case AwaitFinal => a.Final?
      case AwaitTransfer => a.Sent?
      case AwaitEnable => a.Ack?
      case AwaitPayment => a.Paid?
      case Done(_) => false)
  }

  predicate ContractStillGood(kit: Kit, c: Review, s: Snapshot)
    requires c.BitReview?
  {
    && s.symbol == "BIT" && s.decimals == BIT_DECIMALS && !s.paused && s.balance >= c.amountWei
    && DispatchValid(kit, c.authorization, c.sender, s)
  }

  predicate AccountStillThere(kit: Kit, c: Review, chainId: string, accounts: seq<string>)
    requires c.BitReview?
  {
    chainId == "0x1" && |accounts| > 0 && kit.checksum(accounts[0]) == Some(c.sender)
  }

  predicate InvoiceStillFrozen(kit: Kit, c: Review)
    requires c.LightningReview?
  {
    kit.prepareLightning(c.invoice) == Some((c.invoice, c.amountSats))
  }

  /** What the code does with an answer: wait for the next call, fail with a
      code, ask for the money, or finish. */
  datatype Move = Next(pc: Pc) | Throw(code: Option<int>) | Ask(pc: Pc) | Finish

  function MoveOn(kit: Kit, c: Review, pc: Pc, a: Answer): (m: Move)
    requires Answers(pc, a) && (c.BitReview? <==> !pc.AwaitEnable? && !pc.AwaitPayment?)
  {
    if a.Threw? then Throw(a.code) else
      match pc
      case AwaitChain => if a.text == "0x1" then Next(AwaitSigner) else Next(AwaitSwitch)
      case AwaitSwitch => Next(AwaitChainAgain)
      case AwaitChainAgain => if a.text == "0x1" then Next(AwaitSigner) else Throw(None)
      case AwaitSigner => Next(AwaitAddress)
      case AwaitAddress => if kit.checksum(a.text) == Some(c.sender) then Next(AwaitContract) else Throw(None)
      case AwaitContract => if ContractStillGood(kit, c, a.snapshot) then Next(AwaitSimulation) else Throw(None)
      case AwaitSimulation => if a.flag then Next(AwaitGas) else Throw(None)
      case AwaitGas => Next(AwaitFinal)
      case AwaitFinal => if AccountStillThere(kit, c, a.chainId, a.accounts) then Ask(AwaitTransfer) else Throw(None)
      case AwaitTransfer =>
        if ResponseValid(kit, a.tx, c.authorization, kit.transferData(c.recipient, c.amountWei))
        then Finish else Throw(None)
      case AwaitEnable => if InvoiceStillFrozen(kit, c) then Ask(AwaitPayment) else Throw(None)
      case AwaitPayment => Finish
  }

  /** The error line a failing send leaves: unknown once money was requested,
      unless the wallet said the user cancelled a BIT transfer. */
  function FailureNote(c: Review, requested: bool, code: Option<int>): Note
  {
    if requested && (c.LightningReview? || code != Some(4001)) then StatusUnknown else Explained(code)
  }

  predicate Enabled(p: Panel, e: Event)
  {
    match e
    case CloseReview => !p.sending
    case Click(id, checked, _) => id !in p.sends && checked in p.shown
    case Settle(id, answer) => id in p.sends && Answers(p.sends[id].pc, answer)
    case Mined(id, _, _) => id in p.waiting
    case _ => true
  }

  /** `finally`: the guard and the busy flag are released. */
  function Release(p: Panel, id: nat, s: Send, outcome: Outcome): Panel
  {
    p.(dispatching := false, sending := false, sends := p.sends[id := s.(pc := Done(outcome))])
  }

  function Fail(p: Panel, id: nat, s: Send, code: Option<int>): Panel
  {
    var note := FailureNote(s.checked, s.requested, code);
    Release(p, id, s, Failed(code, note)).(error := note)
  }

  function ClickStep(p: Panel, id: nat, checked: Review, wallet: Wallet): Panel
  {
    if p.dispatching then p else
      var begun := p.(dispatching := true, sending := true, error := Clear);
      if checked.BitReview? then
        var s := Send(checked, AwaitChain, false, []);
        if wallet.Present? then begun.(sends := p.sends[id := s]) else Fail(begun, id, s, None)
      else
        var s := Send(checked, AwaitEnable, false, []);
        if wallet.Present? then begun.(sends := p.sends[id := s])
        else
          var linked := begun.(receipt := Some(LightningReceipt(checked.amountSats, Opened)), review := None);
          if wallet.linkOpens then Release(linked, id, s, Succeeded) else Fail(linked, id, s, None)
  }

  function SettleStep(kit: Kit, p: Panel, id: nat, a: Answer): Panel
    requires Enabled(p, Settle(id, a)) && Typed(p.sends[id])
  {
    var before := p.sends[id];
    var s := before.(answers := before.answers + [a]);
    match MoveOn(kit, s.checked, s.pc, a)
    case Next(pc) => p.(sends := p.sends[id := s.(pc := pc)])
    case Throw(code) => Fail(p, id, s, code)
    case Ask(pc) =>
      p.(sends := p.sends[id := s.(pc := pc, requested := true)],
         requests := p.requests + [if s.checked.BitReview?
                                   then Transfer(id, s.checked.recipient, s.checked.amountWei, s.answers)
                                   else Payment(id, s.checked.invoice)])
    case Finish =>
      if s.checked.BitReview? then
        Release(p, id, s, Succeeded).(
          receipt := Some(BitReceipt(s.checked.displayAmount, s.checked.recipient, a.tx.hash, false)),
          review := None, waiting := p.waiting[id := a.tx.hash])
      else
        Release(p, id, s, Succeeded).(
          receipt := Some(LightningReceipt(s.checked.amountSats, ClassifyPayment(a.preimage))), review := None)
  }

  /** A send waits only for calls of its own kind. */
  predicate Typed(s: Send)
  {
    s.pc.Done? || (s.checked.BitReview? <==> !s.pc.AwaitEnable? && !s.pc.AwaitPayment?)
  }

  /** The late confirmation of one send. */
  function MinedStep(p: Panel, id: nat, status: Option<int>, hash: string): Panel
    requires id in p.waiting
  {
    var expected := p.waiting[id];
    var settled := p.(waiting := p.waiting - {id});
    if status == Some(1) && hash == expected then
      settled.(
        mined := p.mined + {hash},
        receipt := if p.receipt.Some? && p.receipt.value.BitReceipt? && p.receipt.value.transactionHash == expected
                   then Some(p.receipt.value.(confirmed := true)) else p.receipt)
    else settled
  }

  function Show(p: Panel, review: Option<Review>): Panel
  {
    if review.None? then p.(error := Explained(None)) else p.(review := review, shown := p.shown + {review.value})
  }

  function Step(kit: Kit, p: Panel, e: Event): (r: Panel)
  {
    if !Enabled(p, e) then p else
      match e
      case SelectAsset(asset) => p.(asset := asset, error := Clear, receipt := None)
      case Edit => p.(error := Clear, receipt := None)
      case BeginBitReview => p.(error := Clear, receipt := None)
      case FinishBitReview(to, amount, account, snapshot) => Show(p, PreparedBit(kit, to, amount, account, snapshot))
      case FailBitReview(code) => p.(error := Explained(code))
      case ReviewLightning(invoice) =>
        var prepared := kit.prepareLightning(invoice);
        Show(p.(error := Clear, receipt := None),
             if prepared.Some? then Some(LightningReview(prepared.value.0, prepared.value.1)) else None)
      case CloseReview => p.(review := None)
      case Click(id, checked, wallet) => ClickStep(p, id, checked, wallet)
      case Settle(id, a) => if Typed(p.sends[id]) then SettleStep(kit, p, id, a) else p
      case Mined(id, status, hash) => MinedStep(p, id, status, hash)
  }

  function After(kit: Kit, p: Panel, events: seq<Event>): (r: Panel)
  {
    if events == [] then p else Step(kit, After(kit, p, events[..|events| - 1]), events[|events| - 1])
  }
}
