/** The encryption gateway (`FHEUtils`): a lazily created backend handle and
    the encryption of single numbers and of named bundles of numbers.

    The homomorphic-encryption backend is foreign. Its handle is modelled as
    the three operations the gateway calls, each of which may throw; the
    backend factory is modelled by the outcome it would have, passed in as
    `create`. */
module Fhe {
  import opened Wrappers
  import opened Errors

  type Address = string
  type Hex = string

  /** The backend handle, reduced to the operations the gateway uses. */
  datatype Backend = Backend(
    encrypt32: real -> Result<Hex, Error>,
    generateInputProof: (Address, Address, Hex) -> Result<Hex, Error>,
    decrypt: (Address, Hex) -> Result<real, Error>)

  /** A ciphertext with the proof generated for it. */
  datatype EncryptedField = EncryptedField(encryptedData: Hex, inputProof: Hex)

  /** `encryptNumber`, given what `getFhevmInstance` yielded: the ciphertext
      of `value`, paired with the proof the backend generates for the same
      contract, the same user and that ciphertext. A failure of either step
      is the result, unchanged. */
  function EncryptNumberWith(fhevm: Result<Backend, Error>, value: real,
                             contractAddress: Address, userAddress: Address): (r: Result<EncryptedField, Error>)
    ensures r.Ok? <==>
              fhevm.Ok? && fhevm.value.encrypt32(value).Ok? &&
              fhevm.value.generateInputProof(contractAddress, userAddress, fhevm.value.encrypt32(value).value).Ok?
    ensures r.Ok? ==>
              fhevm.value.encrypt32(value) == Ok(r.value.encryptedData) &&
              fhevm.value.generateInputProof(contractAddress, userAddress, r.value.encryptedData)
                == Ok(r.value.inputProof)
    ensures r.Err? && fhevm.Ok? ==>
              var ct := fhevm.value.encrypt32(value);
              ct == Err(r.error) ||
              (ct.Ok? && fhevm.value.generateInputProof(contractAddress, userAddress, ct.value) == Err(r.error))
    ensures fhevm.Err? ==> r == Err(fhevm.error)
  {
    match fhevm
    case Err(e) => Err(e)
    case Ok(b) =>
      match b.encrypt32(value)
      case Err(e) => Err(e)
      case Ok(ct) =>
        match b.generateInputProof(contractAddress, userAddress, ct)
        case Err(e) => Err(e)
        case Ok(proof) => Ok(EncryptedField(ct, proof))
  }

  /** `decryptNumber`, given what `getFhevmInstance` yielded. The user address
      is accepted but never used: the result is the backend's decryption of
      the ciphertext for the contract. */
  function DecryptNumberWith(fhevm: Result<Backend, Error>, encryptedData: Hex,
                             contractAddress: Address, userAddress: Address): (r: Result<real, Error>)
    ensures fhevm.Ok? ==> r == fhevm.value.decrypt(contractAddress, encryptedData)
    ensures fhevm.Err? ==> r == Err(fhevm.error)
  {
    match fhevm
    case Err(e) => Err(e)
    case Ok(b) => b.decrypt(contractAddress, encryptedData)
  }

  /** `Promise.all` over calls that have all been made: every value when all
      succeed, otherwise the error of the first failure in list order. */
  function All<T>(rs: seq<Result<T, Error>>): (r: Result<seq<T>, Error>)
    ensures r.Ok? <==> forall i :: 0 <= i < |rs| ==> rs[i].Ok?
    ensures r.Ok? ==> |r.value| == |rs| && forall i :: 0 <= i < |rs| ==> rs[i] == Ok(r.value[i])
    ensures r.Err? ==>
              exists i :: 0 <= i < |rs| && rs[i] == Err(r.error) && forall j :: 0 <= j < i ==> rs[j].Ok?
  {
    if rs == [] then Ok([])
    else if rs[0].Err? then Err(rs[0].error)
    else
      match All(rs[1..])
      case Err(e) =>
        assert exists i :: 1 <= i < |rs| && rs[i] == Err(e) && forall j :: 1 <= j < i ==> rs[j].Ok?;
        Err(e)
      case Ok(vs) => Ok([rs[0].value] + vs)
  }

  /** The bundle `encryptPositionData` resolves to. */
  datatype PositionEncrypted = PositionEncrypted(amount: EncryptedField, shares: EncryptedField, entryPrice: EncryptedField)

  /** The bundle `encryptPortfolioData` resolves to. */
  datatype PortfolioEncrypted = PortfolioEncrypted(
    totalValue: EncryptedField, totalPnl: EncryptedField,
    riskExposure: EncryptedField, diversificationScore: EncryptedField)

  /** The bundle `encryptVaultMetrics` resolves to. */
  datatype VaultMetricsEncrypted = VaultMetricsEncrypted(
    tvl: EncryptedField, totalShares: EncryptedField,
    performance: EncryptedField, riskScore: EncryptedField)

  /** `encryptPositionData`: each field is `encryptNumber` of the matching
      input under the same contract and user; one failure fails the bundle
      with the first failure's error. */
  function EncryptPositionWith(fhevm: Result<Backend, Error>, amount: real, shares: real, entryPrice: real,
                               contractAddress: Address, userAddress: Address): (r: Result<PositionEncrypted, Error>)
    ensures var a, s, p := EncryptNumberWith(fhevm, amount, contractAddress, userAddress),
                           EncryptNumberWith(fhevm, shares, contractAddress, userAddress),
                           EncryptNumberWith(fhevm, entryPrice, contractAddress, userAddress);
            (r.Ok? <==> a.Ok? && s.Ok? && p.Ok?) &&
            (r.Ok? ==> r.value == PositionEncrypted(a.value, s.value, p.value)) &&
            (r.Err? ==> r.error == if a.Err? then a.error else if s.Err? then s.error else p.error)
  {
    var rs := [EncryptNumberWith(fhevm, amount, contractAddress, userAddress),
               EncryptNumberWith(fhevm, shares, contractAddress, userAddress),
               EncryptNumberWith(fhevm, entryPrice, contractAddress, userAddress)];
    match All(rs)
    case Err(e) =>
      assert e == if rs[0].Err? then rs[0].error else if rs[1].Err? then rs[1].error else rs[2].error by {
        var i :| 0 <= i < |rs| && rs[i] == Err(e) && forall j :: 0 <= j < i ==> rs[j].Ok?;
      }
      Err(e)
    case Ok(fs) => Ok(PositionEncrypted(fs[0], fs[1], fs[2]))
  }

  /** `encryptPortfolioData`, field by field as `EncryptPositionWith`. */
  function EncryptPortfolioWith(fhevm: Result<Backend, Error>, totalValue: real, totalPnl: real,
                                riskExposure: real, diversificationScore: real,
                                contractAddress: Address, userAddress: Address): (r: Result<PortfolioEncrypted, Error>)
    ensures var v, p, k, d := EncryptNumberWith(fhevm, totalValue, contractAddress, userAddress),
                              EncryptNumberWith(fhevm, totalPnl, contractAddress, userAddress),
                              EncryptNumberWith(fhevm, riskExposure, contractAddress, userAddress),
                              EncryptNumberWith(fhevm, diversificationScore, contractAddress, userAddress);
            (r.Ok? <==> v.Ok? && p.Ok? && k.Ok? && d.Ok?) &&
            (r.Ok? ==> r.value == PortfolioEncrypted(v.value, p.value, k.value, d.value)) &&
            (r.Err? ==> r.error == if v.Err? then v.error else if p.Err? then p.error
                                   else if k.Err? then k.error else d.error)
  {
    var rs := [EncryptNumberWith(fhevm, totalValue, contractAddress, userAddress),
               EncryptNumberWith(fhevm, totalPnl, contractAddress, userAddress),
               EncryptNumberWith(fhevm, riskExposure, contractAddress, userAddress),
               EncryptNumberWith(fhevm, diversificationScore, contractAddress, userAddress)];
    match All(rs)
    case Err(e) =>
      assert e == if rs[0].Err? then rs[0].error else if rs[1].Err? then rs[1].error
                  else if rs[2].Err? then rs[2].error else rs[3].error by {
        var i :| 0 <= i < |rs| && rs[i] == Err(e) && forall j :: 0 <= j < i ==> rs[j].Ok?;
      }
      Err(e)
    case Ok(fs) => Ok(PortfolioEncrypted(fs[0], fs[1], fs[2], fs[3]))
  }

  /** `encryptVaultMetrics`, field by field as `EncryptPositionWith`. */
  function EncryptVaultMetricsWith(fhevm: Result<Backend, Error>, tvl: real, totalShares: real,
                                   performance: real, riskScore: real,
                                   contractAddress: Address, userAddress: Address): (r: Result<VaultMetricsEncrypted, Error>)
    ensures var t, s, p, k := EncryptNumberWith(fhevm, tvl, contractAddress, userAddress),
                              EncryptNumberWith(fhevm, totalShares, contractAddress, userAddress),
                              EncryptNumberWith(fhevm, performance, contractAddress, userAddress),
                              EncryptNumberWith(fhevm, riskScore, contractAddress, userAddress);
            (r.Ok? <==> t.Ok? && s.Ok? && p.Ok? && k.Ok?) &&
            (r.Ok? ==> r.value == VaultMetricsEncrypted(t.value, s.value, p.value, k.value)) &&
            (r.Err? ==> r.error == if t.Err? then t.error else if s.Err? then s.error
                                   else if p.Err? then p.error else k.error)
  {
    var rs := [EncryptNumberWith(fhevm, tvl, contractAddress, userAddress),
               EncryptNumberWith(fhevm, totalShares, contractAddress, userAddress),
               EncryptNumberWith(fhevm, performance, contractAddress, userAddress),
               EncryptNumberWith(fhevm, riskScore, contractAddress, userAddress)];
    match All(rs)
    case Err(e) =>
      assert e == if rs[0].Err? then rs[0].error else if rs[1].Err? then rs[1].error
                  else if rs[2].Err? then rs[2].error else rs[3].error by {
        var i :| 0 <= i < |rs| && rs[i] == Err(e) && forall j :: 0 <= j < i ==> rs[j].Ok?;
      }
      Err(e)
    case Ok(fs) => Ok(VaultMetricsEncrypted(fs[0], fs[1], fs[2], fs[3]))
  }

  /** The static state of `FHEUtils`: the backend handle, absent until the
      first successful creation and never replaced afterwards. The ghost
      counters record how often the factory and `encryptNumber` were called. */
  class FheUtils {
    var instance: Option<Backend>
    ghost var creations: nat
    ghost var encryptions: nat

    constructor ()
      ensures instance == None && creations == 0 && encryptions == 0
    {
      instance := None;
      creations := 0;
      encryptions := 0;
    }

    /** What `getFhevmInstance` yields in the current state, `create` being
        the outcome the factory would have. */
    function Current(create: Result<Backend, Error>): Result<Backend, Error>
      reads this
    {
      if instance.Some? then Ok(instance.value) else create
    }

    /** The handle after a call that starts from the current state. */
    function Next(create: Result<Backend, Error>): Option<Backend>
      reads this
    {
      if instance.Some? then instance else if create.Ok? then Some(create.value) else None
    }

    /** `initializeFHE`: calls the factory only while no handle is held;
        once one is held it is returned and kept, and the factory is not
        called again. */
    method InitializeFhe(create: Result<Backend, Error>) returns (r: Result<Backend, Error>)
      modifies this
      ensures r == old(Current(create))
      ensures instance == old(Next(create))
      ensures old(instance).Some? ==> instance == old(instance) && creations == old(creations)
      ensures old(instance).None? ==> creations == old(creations) + 1
      ensures encryptions == old(encryptions)
    {
      if instance.None? {
        creations := creations + 1;
        match create
        case Err(e) => return Err(e);
        case Ok(b) => instance := Some(b);
      }
      r := Ok(instance.value);
    }

    /** `getFhevmInstance`: initialises first when no handle is held. */
    method GetFhevmInstance(create: Result<Backend, Error>) returns (r: Result<Backend, Error>)
      modifies this
      ensures r == old(Current(create))
      ensures instance == old(Next(create))
      ensures old(instance).Some? ==> instance == old(instance) && creations == old(creations)
      ensures old(instance).None? ==> creations == old(creations) + 1
      ensures encryptions == old(encryptions)
    {
      if instance.None? {
        var initialized := InitializeFhe(create);
        if initialized.Err? {
          return Err(initialized.error);
        }
      }
      r := Ok(instance.value);
    }

    /** `encryptNumber`. */
    method EncryptNumber(value: real, contractAddress: Address, userAddress: Address,
                         create: Result<Backend, Error>) returns (r: Result<EncryptedField, Error>)
      modifies this
      ensures r == EncryptNumberWith(old(Current(create)), value, contractAddress, userAddress)
      ensures instance == old(Next(create)) && Current(create) == old(Current(create))
      ensures creations == old(creations) + (if old(instance).None? then 1 else 0)
      ensures encryptions == old(encryptions) + 1
    {
      encryptions := encryptions + 1;
      var fhevm := GetFhevmInstance(create);
      if fhevm.Err? {
        return Err(fhevm.error);
      }
      var encryptedData := fhevm.value.encrypt32(value);
      if encryptedData.Err? {
        return Err(encryptedData.error);
      }
      var inputProof := fhevm.value.generateInputProof(contractAddress, userAddress, encryptedData.value);
      if inputProof.Err? {
        return Err(inputProof.error);
      }
      r := Ok(EncryptedField(encryptedData.value, inputProof.value));
    }

    /** `decryptNumber`. */
    method DecryptNumber(encryptedData: Hex, contractAddress: Address, userAddress: Address,
                         create: Result<Backend, Error>) returns (r: Result<real, Error>)
      modifies this
      ensures r == DecryptNumberWith(old(Current(create)), encryptedData, contractAddress, userAddress)
      ensures instance == old(Next(create))
      ensures creations == old(creations) + (if old(instance).None? then 1 else 0)
      ensures encryptions == old(encryptions)
    {
      var fhevm := GetFhevmInstance(create);
      if fhevm.Err? {
        return Err(fhevm.error);
      }
      r := fhevm.value.decrypt(contractAddress, encryptedData);
    }

    /** The number of factory calls a batch of `n` encryptions makes, one
        after the other, from the current state. */
    function BatchCreations(create: Result<Backend, Error>, n: nat): nat
      reads this
    {
      if instance.Some? then 0 else if create.Ok? then 1 else n
    }

    /** `encryptPositionData`: three encryptions, all of them made. */
    method EncryptPositionData(amount: real, shares: real, entryPrice: real,
                               contractAddress: Address, userAddress: Address,
                               create: Result<Backend, Error>) returns (r: Result<PositionEncrypted, Error>)
      modifies this
      ensures r == EncryptPositionWith(old(Current(create)), amount, shares, entryPrice, contractAddress, userAddress)
      ensures instance == old(Next(create))
      ensures creations == old(creations) + old(BatchCreations(create, 3))
      ensures encryptions == old(encryptions) + 3
    {
      var amountEnc := EncryptNumber(amount, contractAddress, userAddress, create);
      var sharesEnc := EncryptNumber(shares, contractAddress, userAddress, create);
      var priceEnc := EncryptNumber(entryPrice, contractAddress, userAddress, create);
      var fields := All([amountEnc, sharesEnc, priceEnc]);
      match fields
      case Err(e) => r := Err(e);
      case Ok(fs) => r := Ok(PositionEncrypted(fs[0], fs[1], fs[2]));
    }

    /** `encryptPortfolioData`: four encryptions, all of them made. */
    method EncryptPortfolioData(totalValue: real, totalPnl: real, riskExposure: real, diversificationScore: real,
                                contractAddress: Address, userAddress: Address,
                                create: Result<Backend, Error>) returns (r: Result<PortfolioEncrypted, Error>)
      modifies this
      ensures r == EncryptPortfolioWith(old(Current(create)), totalValue, totalPnl, riskExposure,
                                        diversificationScore, contractAddress, userAddress)
      ensures instance == old(Next(create))
      ensures creations == old(creations) + old(BatchCreations(create, 4))
      ensures encryptions == old(encryptions) + 4
    {
      var totalValueEnc := EncryptNumber(totalValue, contractAddress, userAddress, create);
      var totalPnlEnc := EncryptNumber(totalPnl, contractAddress, userAddress, create);
      var riskEnc := EncryptNumber(riskExposure, contractAddress, userAddress, create);
      var divEnc := EncryptNumber(diversificationScore, contractAddress, userAddress, create);
      var fields := All([totalValueEnc, totalPnlEnc, riskEnc, divEnc]);
      match fields
      case Err(e) => r := Err(e);
      case Ok(fs) => r := Ok(PortfolioEncrypted(fs[0], fs[1], fs[2], fs[3]));
    }

    /** `encryptVaultMetrics`: four encryptions, all of them made. */
    method EncryptVaultMetrics(tvl: real, totalShares: real, performance: real, riskScore: real,
                               contractAddress: Address, userAddress: Address,
                               create: Result<Backend, Error>) returns (r: Result<VaultMetricsEncrypted, Error>)
      modifies this
      ensures r == EncryptVaultMetricsWith(old(Current(create)), tvl, totalShares, performance, riskScore,
                                           contractAddress, userAddress)
      ensures instance == old(Next(create))
      ensures creations == old(creations) + old(BatchCreations(create, 4))
      ensures encryptions == old(encryptions) + 4
    {
      var tvlEnc := EncryptNumber(tvl, contractAddress, userAddress, create);
      var sharesEnc := EncryptNumber(totalShares, contractAddress, userAddress, create);
      var perfEnc := EncryptNumber(performance, contractAddress, userAddress, create);
      var riskEnc := EncryptNumber(riskScore, contractAddress, userAddress, create);
      var fields := All([tvlEnc, sharesEnc, perfEnc, riskEnc]);
      match fields
      case Err(e) => r := Err(e);
      case Ok(fs) => r := Ok(VaultMetricsEncrypted(fs[0], fs[1], fs[2], fs[3]));
    }
  }
}
