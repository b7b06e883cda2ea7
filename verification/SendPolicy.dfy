/** The checks around a direct send: lib/send.mjs. */
module SendPolicy {
  import opened Text

  const BIT_DECIMALS := 18
  const MAX_UINT256 := 0x1_0000_0000_0000_0000_0000_0000_0000_0000_0000_0000_0000_0000_0000_0000_0000_0000 - 1

  /** What the panel imports: address checksumming, hashing, call encoding and
      the two canonicalizers of user input. */
  datatype Kit = Kit(
    token: string,
    zeroAddress: string,
    checksum: string -> Option<string>,
    codeHash: string -> Option<string>,
    digest: (string, string, string, nat) -> string,
    transferData: (string, nat) -> string,
    prepareBit: (string, string) -> Option<(string, nat, string)>,
    prepareLightning: string -> Option<(string, nat)>)

  /** Keccak has no collisions on what the panel freezes. */
  ghost predicate DigestInjective(kit: Kit)
  {
    forall c, f, t, a, d, g, u, b ::
      kit.digest(c, f, t, a) == kit.digest(d, g, u, b) ==> c == d && f == g && t == u && a == b
  }

  /** Checksumming an address that already is one changes nothing. */
  ghost predicate ChecksumStable(kit: Kit)
  {
    forall a :: kit.checksum(a).Some? ==> kit.checksum(kit.checksum(a).value) == kit.checksum(a)
  }

  /** The call data of a transfer tells its recipient and amount. */
  ghost predicate EncodingInjective(kit: Kit)
  {
    forall r, a: nat, s, b: nat ::
      (&& kit.checksum(r).Some? && kit.checksum(s).Some? && a <= MAX_UINT256 && b <= MAX_UINT256
       && SameUpToCase(kit.transferData(r, a), kit.transferData(s, b))) ==> kit.checksum(r) == kit.checksum(s) && a == b
  }

  datatype Authorization = Authorization(codeHash: string, sender: string, recipient: string, amountWei: nat,
                                         digest: string)

  /** What one reload of the token contract and account returned. */
  datatype Snapshot = Snapshot(code: string, symbol: string, decimals: int, paused: bool, balance: nat)

  /** `createBitSendAuthorization` on mainnet and the BIT address; `None` where
      it throws. */
  function CreateAuthorization(
    kit: Kit, code: string, sender: string, recipient: string, amountWei: nat): (r: Option<Authorization>)
  {
    var from, to, hash := kit.checksum(sender), kit.checksum(recipient), kit.codeHash(code);
    if from.None? || to.None? || hash.None? then None
    else if from == to || to.value == kit.zeroAddress || amountWei == 0 || amountWei > MAX_UINT256 then None
    else Some(Authorization(hash.value, from.value, to.value, amountWei,
                            kit.digest(hash.value, from.value, to.value, amountWei)))
  }

  /** `validateBitSendDispatch` */
  predicate DispatchValid(kit: Kit, authorization: Authorization, sender: string, s: Snapshot)
  {
    var current := CreateAuthorization(kit, s.code, sender, authorization.recipient, authorization.amountWei);
    && current.Some? && current.value.digest == authorization.digest
    && s.symbol == "BIT" && s.decimals == BIT_DECIMALS && !s.paused && s.balance >= authorization.amountWei
  }

  datatype Transaction = Transaction(hash: string, to: string, from: string, data: string, value: int)

  /** `validateBitTransactionResponse` */
  predicate ResponseValid(kit: Kit, tx: Transaction, authorization: Authorization, expectedData: string)
  {
    && IsHexWord(tx.hash, 64)
    && kit.checksum(tx.to) == Some(kit.token) && kit.checksum(tx.from) == Some(authorization.sender)
    && Lower(tx.data) == Lower(expectedData) && tx.value == 0
  }

  /** What an accepted response is: a hash, and a transaction to the token from
      the sender that moves no ether and whose call data is the transfer's. */
  predicate Genuine(kit: Kit, tx: Transaction, sender: string, recipient: string, amountWei: nat)
  {
    && IsHexWord(tx.hash, 64) && tx.value == 0
    && kit.checksum(tx.to) == Some(kit.token) && kit.checksum(tx.from) == kit.checksum(sender)
    && SameUpToCase(tx.data, kit.transferData(recipient, amountWei))
  }

  /** The response check accepts exactly the genuine ones. */
  lemma ResponseExactly(
    kit: Kit, tx: Transaction, authorization: Authorization, sender: string, recipient: string, amountWei: nat)
    requires kit.checksum(sender) == Some(authorization.sender)
    ensures ResponseValid(kit, tx, authorization, kit.transferData(recipient, amountWei)) <==>
            Genuine(kit, tx, sender, recipient, amountWei)
  {
    LowerMerges(tx.data, kit.transferData(recipient, amountWei));
  }

  /** And a genuine one is a call of no other transfer. */
  lemma GenuineIsThisTransfer(
    kit: Kit, tx: Transaction, sender: string, recipient: string, amountWei: nat, other: string, otherWei: nat)
    requires EncodingInjective(kit) && Genuine(kit, tx, sender, recipient, amountWei)
    requires kit.checksum(recipient).Some? && kit.checksum(other).Some?
    requires amountWei <= MAX_UINT256 && otherWei <= MAX_UINT256
    requires SameUpToCase(tx.data, kit.transferData(other, otherWei))
    ensures kit.checksum(other) == kit.checksum(recipient) && otherWei == amountWei
  {
    LowerMerges(tx.data, kit.transferData(recipient, amountWei));
    LowerMerges(tx.data, kit.transferData(other, otherWei));
    LowerMerges(kit.transferData(recipient, amountWei), kit.transferData(other, otherWei));
  }

  datatype PaymentStatus = Reported | PaymentUnknown | Opened

  /** `/^(?:0x)?[0-9a-fA-F]{64}$/` */
  predicate IsPreimage(s: string)
  {
    IsHexWord(s, 64) || (|s| == 64 && forall k :: 0 <= k < 64 ==> IsHexDigit(s[k]))
  }

  /** `classifyWebLnPaymentResponse` */
  function ClassifyPayment(preimage: string): PaymentStatus
  {
    if IsPreimage(preimage) then Reported else PaymentUnknown
  }

  /** Sixty-four hexadecimal digits. */
  predicate SixtyFourDigits(h: string)
  {
    |h| == 64 && forall k :: 0 <= k < 64 ==> h[k] in HEX_DIGITS
  }

  /** With or without 0x in front. */
  predicate PreimageShaped(s: string)
  {
    SixtyFourDigits(s) || (|s| == 66 && s[..2] == "0x" && SixtyFourDigits(s[2..]))
  }

  /** A payment is reported exactly when its preimage is sixty-four hexadecimal
      digits, with or without 0x in front; otherwise its status is unknown. */
  lemma PaymentExactly(preimage: string)
    ensures ClassifyPayment(preimage) ==
            if PreimageShaped(preimage) then Reported else PaymentUnknown
  {
    forall c: char
      ensures IsHexDigit(c) <==> c in HEX_DIGITS
    {
      HexDigits(c);
    }
    if |preimage| == 66 {
      assert forall k :: 2 <= k < 66 ==> preimage[k] == preimage[2..][k - 2];
      assert preimage[..2] == "0x" <==> preimage[0] == '0' && preimage[1] == 'x';
    }
  }

  /** What was frozen at review time, from the contract code read then. */
  predicate Frozen(
    kit: Kit, code: string, sender: string, recipient: string, amountWei: nat, authorization: Authorization)
  {
    var from, to, hash := kit.checksum(sender), kit.checksum(recipient), kit.codeHash(code);
    && from.Some? && to.Some? && hash.Some? && from != to && to.value != kit.zeroAddress
    && 0 < amountWei <= MAX_UINT256
    && authorization ==
       Authorization(hash.value, from.value, to.value, amountWei,
                     kit.digest(hash.value, from.value, to.value, amountWei))
  }

  /** The dispatch check accepts exactly an unpaused BIT contract with the
      reviewed runtime code and enough balance. */
  lemma DispatchExactly(
    kit: Kit, code: string, sender: string, recipient: string, amountWei: nat, authorization: Authorization,
    s: Snapshot)
    requires DigestInjective(kit) && ChecksumStable(kit)
    requires Frozen(kit, code, sender, recipient, amountWei, authorization)
    ensures DispatchValid(kit, authorization, sender, s) <==>
            && kit.codeHash(s.code) == kit.codeHash(code)
            && s.symbol == "BIT" && s.decimals == 18 && !s.paused && s.balance >= amountWei
  {
    var to, hash := kit.checksum(recipient).value, kit.codeHash(s.code);
    assert kit.checksum(to) == Some(to);
    if hash.Some? {
      assert kit.digest(hash.value, authorization.sender, to, amountWei) == authorization.digest <==>
             hash.value == authorization.codeHash;
    }
  }

  /** Passing the dispatch check means nothing frozen has changed: same runtime
      code, same sender, same recipient and amount. */
  lemma DispatchPinsContext(
    kit: Kit, code: string, sender: string, recipient: string, amountWei: nat, current: string, s: Snapshot)
    requires DigestInjective(kit) && CreateAuthorization(kit, code, sender, recipient, amountWei).Some?
    requires DispatchValid(kit, CreateAuthorization(kit, code, sender, recipient, amountWei).value, current, s)
    ensures kit.codeHash(s.code) == kit.codeHash(code) && kit.checksum(current) == kit.checksum(sender)
  {
    var a := CreateAuthorization(kit, code, sender, recipient, amountWei).value;
    var b := CreateAuthorization(kit, s.code, current, a.recipient, a.amountWei).value;
    assert a.digest == kit.digest(a.codeHash, a.sender, a.recipient, a.amountWei);
    assert b.digest == kit.digest(b.codeHash, b.sender, b.recipient, b.amountWei);
  }
}
