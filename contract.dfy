/** The ledger client (`useStealthVaultContract`, `useStealthVaultData`):
    the write operations guard on a connected wallet, encrypt through the
    gateway, and submit one argument tuple to the ledger; the reads map
    absent data to defaults.

    The wallet session is modelled by the address it yields, and the
    ledger's `writeContract` by a transport that records each call and
    answers with a response given by the caller. */
module Contract {
  import opened Wrappers
  import opened Errors
  import opened Fhe

  /** The ledger contract's address (a placeholder until deployment). */
  const ContractAddress: Address := "0x0000000000000000000000000000000000000000"

  type TxHash = string

  /** One argument of a ledger call: a byte string or an unsigned integer. */
  datatype Arg = Bytes(hex: Hex) | Uint(n: int)

  /** One call of `writeContract`: the contract, the function, the argument
      tuple and the native value attached, if any. */
  datatype WriteCall = WriteCall(address: Address, functionName: string, args: seq<Arg>, value: Option<int>)

  /** The call `createPosition` submits: the three ciphertexts and the
      proof of the amount field, with value 0. Without an address nothing is
      encrypted and the error is `NoWalletConnected`. */
  function CreatePositionRequest(address: Option<Address>, fhevm: Result<Backend, Error>,
                                 amount: real, shares: real, entryPrice: real): (r: Result<WriteCall, Error>)
    ensures address.None? ==> r == Err(NoWalletConnected)
    ensures address.Some? ==>
              var a, s, p := EncryptNumberWith(fhevm, amount, ContractAddress, address.value),
                             EncryptNumberWith(fhevm, shares, ContractAddress, address.value),
                             EncryptNumberWith(fhevm, entryPrice, ContractAddress, address.value);
              (r.Ok? <==> a.Ok? && s.Ok? && p.Ok?) &&
              (r.Ok? ==> r.value == WriteCall(ContractAddress, "createPosition",
                                              [Bytes(a.value.encryptedData), Bytes(s.value.encryptedData),
                                               Bytes(p.value.encryptedData), Bytes(a.value.inputProof)],
                                              Some(0))) &&
              (r.Err? ==> r.error == if a.Err? then a.error else if s.Err? then s.error else p.error)
  {
    match address
    case None => Err(NoWalletConnected)
    case Some(user) =>
      match EncryptPositionWith(fhevm, amount, shares, entryPrice, ContractAddress, user)
      case Err(e) => Err(e)
      case Ok(enc) =>
        Ok(WriteCall(ContractAddress, "createPosition",
                     [Bytes(enc.amount.encryptedData), Bytes(enc.shares.encryptedData),
                      Bytes(enc.entryPrice.encryptedData), Bytes(enc.amount.inputProof)],
                     Some(0)))
  }

  /** The call `updatePosition` submits. The entry price is encrypted as a
      placeholder 0, so its failure fails the update, but its ciphertext is
      not sent: the tuple is the id, two ciphertexts and the amount's proof. */
  function UpdatePositionRequest(address: Option<Address>, fhevm: Result<Backend, Error>,
                                 positionId: int, newAmount: real, newShares: real): (r: Result<WriteCall, Error>)
    ensures address.None? ==> r == Err(NoWalletConnected)
    ensures address.Some? ==>
              var a, s, z := EncryptNumberWith(fhevm, newAmount, ContractAddress, address.value),
                             EncryptNumberWith(fhevm, newShares, ContractAddress, address.value),
                             EncryptNumberWith(fhevm, 0.0, ContractAddress, address.value);
              (r.Ok? <==> a.Ok? && s.Ok? && z.Ok?) &&
              (r.Ok? ==> r.value == WriteCall(ContractAddress, "updatePosition",
                                              [Uint(positionId), Bytes(a.value.encryptedData),
                                               Bytes(s.value.encryptedData), Bytes(a.value.inputProof)],
                                              None)) &&
              (r.Err? ==> r.error == if a.Err? then a.error else if s.Err? then s.error else z.error)
  {
    match address
    case None => Err(NoWalletConnected)
    case Some(user) =>
      match EncryptPositionWith(fhevm, newAmount, newShares, 0.0, ContractAddress, user)
      case Err(e) => Err(e)
      case Ok(enc) =>
        Ok(WriteCall(ContractAddress, "updatePosition",
                     [Uint(positionId), Bytes(enc.amount.encryptedData),
                      Bytes(enc.shares.encryptedData), Bytes(enc.amount.inputProof)],
                     None))
  }

  /** The call `updatePortfolioMetrics` submits: the four ciphertexts in the
      order value, pnl, risk, diversification, then the total value's proof
      alone. */
  function UpdatePortfolioMetricsRequest(address: Option<Address>, fhevm: Result<Backend, Error>,
                                         totalValue: real, totalPnl: real,
                                         riskExposure: real, diversificationScore: real): (r: Result<WriteCall, Error>)
    ensures address.None? ==> r == Err(NoWalletConnected)
    ensures address.Some? ==>
              var v, p, k, d := EncryptNumberWith(fhevm, totalValue, ContractAddress, address.value),
                                EncryptNumberWith(fhevm, totalPnl, ContractAddress, address.value),
                                EncryptNumberWith(fhevm, riskExposure, ContractAddress, address.value),
                                EncryptNumberWith(fhevm, diversificationScore, ContractAddress, address.value);
              (r.Ok? <==> v.Ok? && p.Ok? && k.Ok? && d.Ok?) &&
              (r.Ok? ==> r.value == WriteCall(ContractAddress, "updatePortfolioMetrics",
                                              [Bytes(v.value.encryptedData), Bytes(p.value.encryptedData),
                                               Bytes(k.value.encryptedData), Bytes(d.value.encryptedData),
                                               Bytes(v.value.inputProof)],
                                              None)) &&
              (r.Err? ==> r.error == if v.Err? then v.error else if p.Err? then p.error
                                     else if k.Err? then k.error else d.error)
  {
    match address
    case None => Err(NoWalletConnected)
    case Some(user) =>
      match EncryptPortfolioWith(fhevm, totalValue, totalPnl, riskExposure, diversificationScore, ContractAddress, user)
      case Err(e) => Err(e)
      case Ok(enc) =>
        Ok(WriteCall(ContractAddress, "updatePortfolioMetrics",
                     [Bytes(enc.totalValue.encryptedData), Bytes(enc.totalPnl.encryptedData),
                      Bytes(enc.riskExposure.encryptedData), Bytes(enc.diversificationScore.encryptedData),
                      Bytes(enc.totalValue.inputProof)],
                     None))
  }

  /** The call a write without encrypted payload submits: the named function
      with the given arguments, or `NoWalletConnected` without an address. */
  function PlainRequest(address: Option<Address>, functionName: string, args: seq<Arg>): (r: Result<WriteCall, Error>)
    ensures r.Ok? <==> address.Some?
    ensures address.None? ==> r == Err(NoWalletConnected)
    ensures r.Ok? ==> r.value.address == ContractAddress && r.value.functionName == functionName &&
                      r.value.args == args && r.value.value.None?
  {
    if address.None? then Err(NoWalletConnected) else Ok(WriteCall(ContractAddress, functionName, args, None))
  }

  /** What `createPosition` sends, in the backend's terms: the ciphertexts
      of amount, shares and entry price, and the proof the backend generated
      for the amount's ciphertext under this contract and user. */
  lemma CreatePositionSends(user: Address, b: Backend, amount: real, shares: real, entryPrice: real)
    requires CreatePositionRequest(Some(user), Ok(b), amount, shares, entryPrice).Ok?
    ensures var c := CreatePositionRequest(Some(user), Ok(b), amount, shares, entryPrice).value;
            c.functionName == "createPosition" && |c.args| == 4 &&
            b.encrypt32(amount) == Ok(c.args[0].hex) &&
            b.encrypt32(shares) == Ok(c.args[1].hex) &&
            b.encrypt32(entryPrice) == Ok(c.args[2].hex) &&
            b.generateInputProof(ContractAddress, user, c.args[0].hex) == Ok(c.args[3].hex)
  {
  }

  /** What `updatePosition` sends: the id, the ciphertexts of the new amount
      and shares, and the amount's proof; nothing derived from the placeholder
      entry price. */
  lemma UpdatePositionSends(user: Address, b: Backend, positionId: int, newAmount: real, newShares: real)
    requires UpdatePositionRequest(Some(user), Ok(b), positionId, newAmount, newShares).Ok?
    ensures var c := UpdatePositionRequest(Some(user), Ok(b), positionId, newAmount, newShares).value;
            c.functionName == "updatePosition" && |c.args| == 4 && c.args[0] == Uint(positionId) &&
            b.encrypt32(newAmount) == Ok(c.args[1].hex) &&
            b.encrypt32(newShares) == Ok(c.args[2].hex) &&
            b.generateInputProof(ContractAddress, user, c.args[1].hex) == Ok(c.args[3].hex)
  {
  }

  /** What `updatePortfolioMetrics` sends: four ciphertexts in order and the
      total value's proof only. */
  lemma UpdatePortfolioMetricsSends(user: Address, b: Backend, totalValue: real, totalPnl: real,
                                    riskExposure: real, diversificationScore: real)
    requires UpdatePortfolioMetricsRequest(Some(user), Ok(b), totalValue, totalPnl, riskExposure, diversificationScore).Ok?
    ensures var c := UpdatePortfolioMetricsRequest(Some(user), Ok(b), totalValue, totalPnl,
                                                   riskExposure, diversificationScore).value;
            c.functionName == "updatePortfolioMetrics" && |c.args| == 5 &&
            b.encrypt32(totalValue) == Ok(c.args[0].hex) &&
            b.encrypt32(totalPnl) == Ok(c.args[1].hex) &&
            b.encrypt32(riskExposure) == Ok(c.args[2].hex) &&
            b.encrypt32(diversificationScore) == Ok(c.args[3].hex) &&
            b.generateInputProof(ContractAddress, user, c.args[0].hex) == Ok(c.args[4].hex)
  {
  }

  /** A write operation's effect on the transport: it saw exactly the
      request `req` when that is a call, and the result is the transport's
      answer, or the request's error when no call was made. */
  predicate Submits(before: seq<WriteCall>, after: seq<WriteCall>, req: Result<WriteCall, Error>,
                    response: Result<TxHash, Error>, r: Result<TxHash, Error>)
  {
    after == before + (if req.Ok? then [req.value] else []) &&
    r == (if req.Ok? then response else Err(req.error))
  }

  /** A transport standing in for the ledger: it records every call it is
      given and answers with the response it is handed. That response is
      what an awaitable submission (wagmi's `writeContractAsync`) would
      resolve to; the `writeContract` of `useWriteContract` itself resolves
      to nothing and reports a failed transaction only through the hook's
      state. */
  class RecordingTransport {
    var calls: seq<WriteCall>

    constructor ()
      ensures calls == []
    {
      calls := [];
    }

    method WriteContract(call: WriteCall, response: Result<TxHash, Error>) returns (r: Result<TxHash, Error>)
      modifies this
      ensures calls == old(calls) + [call]
      ensures r == response
    {
      calls := calls + [call];
      r := response;
    }
  }

  /** The write operations of `useStealthVaultContract`, over the address
      the session yields, the gateway and the transport. `create` is the
      outcome the backend factory would have and `response` the answer an
      awaitable submission would give for the submitted call. A failure of
      the gateway, or that answer, is returned unchanged. With the source's
      fire-and-forget `writeContract` the answer is always `undefined`, so
      no ledger failure reaches the operation. */
  class StealthVaultContract {
    const address: Option<Address>
    const fhe: FheUtils
    const transport: RecordingTransport

    constructor (address: Option<Address>, fhe: FheUtils, transport: RecordingTransport)
      ensures this.address == address && this.fhe == fhe && this.transport == transport
    {
      this.address := address;
      this.fhe := fhe;
      this.transport := transport;
    }

    /** The gateway after a batch of `n` encryptions. */
    twostate predicate Encrypted(create: Result<Backend, Error>, n: nat)
      reads fhe
    {
      fhe.instance == old(fhe.Next(create)) &&
      fhe.creations == old(fhe.creations) + old(fhe.BatchCreations(create, n)) &&
      fhe.encryptions == old(fhe.encryptions) + n
    }

    method CreatePosition(amount: real, shares: real, entryPrice: real,
                          create: Result<Backend, Error>, response: Result<TxHash, Error>)
      returns (r: Result<TxHash, Error>)
      modifies fhe, transport
      ensures Submits(old(transport.calls), transport.calls,
                      CreatePositionRequest(address, old(fhe.Current(create)), amount, shares, entryPrice), response, r)
      ensures address.None? ==> unchanged(fhe)
      ensures address.Some? ==> Encrypted(create, 3)
    {
      if address.None? {
        return Err(NoWalletConnected);
      }
      var encryptedData := fhe.EncryptPositionData(amount, shares, entryPrice, ContractAddress, address.value, create);
      if encryptedData.Err? {
        return Err(encryptedData.error);
      }
      var enc := encryptedData.value;
      r := transport.WriteContract(
        WriteCall(ContractAddress, "createPosition",
                  [Bytes(enc.amount.encryptedData), Bytes(enc.shares.encryptedData),
                   Bytes(enc.entryPrice.encryptedData), Bytes(enc.amount.inputProof)],
                  Some(0)),
        response);
    }

    method UpdatePosition(positionId: int, newAmount: real, newShares: real,
                          create: Result<Backend, Error>, response: Result<TxHash, Error>)
      returns (r: Result<TxHash, Error>)
      modifies fhe, transport
      ensures Submits(old(transport.calls), transport.calls,
                      UpdatePositionRequest(address, old(fhe.Current(create)), positionId, newAmount, newShares), response, r)
      ensures address.None? ==> unchanged(fhe)
      ensures address.Some? ==> Encrypted(create, 3)
    {
      if address.None? {
        return Err(NoWalletConnected);
      }
      var encryptedData := fhe.EncryptPositionData(newAmount, newShares, 0.0, ContractAddress, address.value, create);
      if encryptedData.Err? {
        return Err(encryptedData.error);
      }
      var enc := encryptedData.value;
      r := transport.WriteContract(
        WriteCall(ContractAddress, "updatePosition",
                  [Uint(positionId), Bytes(enc.amount.encryptedData),
                   Bytes(enc.shares.encryptedData), Bytes(enc.amount.inputProof)],
                  None),
        response);
    }

    method UpdatePortfolioMetrics(totalValue: real, totalPnl: real, riskExposure: real, diversificationScore: real,
                                  create: Result<Backend, Error>, response: Result<TxHash, Error>)
      returns (r: Result<TxHash, Error>)
      modifies fhe, transport
      ensures Submits(old(transport.calls), transport.calls,
                      UpdatePortfolioMetricsRequest(address, old(fhe.Current(create)), totalValue, totalPnl,
                                                      riskExposure, diversificationScore), response, r)
      ensures address.None? ==> unchanged(fhe)
      ensures address.Some? ==> Encrypted(create, 4)
    {
      if address.None? {
        return Err(NoWalletConnected);
      }
      var encryptedData := fhe.EncryptPortfolioData(totalValue, totalPnl, riskExposure, diversificationScore,
                                                    ContractAddress, address.value, create);
      if encryptedData.Err? {
        return Err(encryptedData.error);
      }
      var enc := encryptedData.value;
      r := transport.WriteContract(
        WriteCall(ContractAddress, "updatePortfolioMetrics",
                  [Bytes(enc.totalValue.encryptedData), Bytes(enc.totalPnl.encryptedData),
                   Bytes(enc.riskExposure.encryptedData), Bytes(enc.diversificationScore.encryptedData),
                   Bytes(enc.totalValue.inputProof)],
                  None),
        response);
    }

    method RequestAnalytics(response: Result<TxHash, Error>) returns (r: Result<TxHash, Error>)
      modifies transport
      ensures Submits(old(transport.calls), transport.calls,
                      PlainRequest(address, "requestAnalytics", []), response, r)
    {
      if address.None? {
        return Err(NoWalletConnected);
      }
      r := transport.WriteContract(WriteCall(ContractAddress, "requestAnalytics", [], None), response);
    }

    method ClearPrivateData(response: Result<TxHash, Error>) returns (r: Result<TxHash, Error>)
      modifies transport
      ensures Submits(old(transport.calls), transport.calls,
                      PlainRequest(address, "clearPrivateData", []), response, r)
    {
      if address.None? {
        return Err(NoWalletConnected);
      }
      r := transport.WriteContract(WriteCall(ContractAddress, "clearPrivateData", [], None), response);
    }

    method ClearPositionData(positionId: int, response: Result<TxHash, Error>) returns (r: Result<TxHash, Error>)
      modifies transport
      ensures Submits(old(transport.calls), transport.calls,
                      PlainRequest(address, "clearPositionData", [Uint(positionId)]), response, r)
    {
      if address.None? {
        return Err(NoWalletConnected);
      }
      r := transport.WriteContract(WriteCall(ContractAddress, "clearPositionData", [Uint(positionId)], None), response);
    }
  }

  // ---------------------------------------------------------------------
  // useStealthVaultData
  // ---------------------------------------------------------------------

  /** One read query: the contract, the view function and the user. */
  datatype ReadCall = ReadCall(address: Address, functionName: string, user: Address)

  /** The query a read issues: none while no address is known (the query is
      disabled), otherwise the view function called with that address. */
  function ReadQuery(address: Option<Address>, functionName: string): (q: Option<ReadCall>)
    ensures q.Some? <==> address.Some?
    ensures q.Some? ==> q.value == ReadCall(ContractAddress, functionName, address.value)
  {
    match address
    case None => None
    case Some(user) => Some(ReadCall(ContractAddress, functionName, user))
  }

  /** What `useStealthVaultData` returns. */
  datatype VaultData = VaultData(positionCount: nat, positionIds: seq<nat>)

  /** `useStealthVaultData`, given the data the ledger holds for each query
      (`None` while that data is undefined: not yet loaded, or failed). A
      disabled or undefined count reads as 0 and undefined ids as []. */
  function StealthVaultData(address: Option<Address>,
                            countData: ReadCall -> Option<nat>,
                            idsData: ReadCall -> Option<seq<nat>>): (d: VaultData)
    ensures address.None? ==> d == VaultData(0, [])
    ensures address.Some? ==>
              d.positionCount == countData(ReadCall(ContractAddress, "getUserPositionCount", address.value)).GetOr(0) &&
              d.positionIds == idsData(ReadCall(ContractAddress, "getUserPositionIds", address.value)).GetOr([])
  {
    var positionCount := match ReadQuery(address, "getUserPositionCount")
      case None => None
      case Some(q) => countData(q);
    var positionIds := match ReadQuery(address, "getUserPositionIds")
      case None => None
      case Some(q) => idsData(q);
    VaultData(
      match positionCount case Some(n) => n case None => 0,
      match positionIds case Some(ids) => ids case None => [])
  }
}
