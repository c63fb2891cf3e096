/**
  The contract layer of contract/contract.go as objects: a `Contract` bound to an address and
  an ABI, and the transaction draft `Txn` whose methods fill in its fields step by step and talk
  to the oracle. The methods `Validate`, `EstimateGas`, `FillGasPrice`, `FillGasLimit`,
  `ConvertToWeb3Transaction` and `SignAndSend` of `Txn` are each proved to do exactly their run in
  ContractSpec (`ValidateRun`, `EstimateGasRun`, `GasPriceRun`, `GasLimitRun`, `ConvertRun`,
  `SignAndSendRun`): the same result, the same fields afterwards and the same requests, in order.
  `AssembleWithNonce` does `AssembleRun`'s result and requests, and `Contract.Call` does `CallRun`'s.
  The other members are tied to ContractSpec differently: the setters state the one field they
  set; `GetReceipt` reads the recorded receipt; `QueryGasEstimate` asks `EstimateRequest` of the
  draft and returns its reply; `Wait` asks nothing when `maxPolls` is 0, and otherwise its first
  poll is `WaitStepRun`; `DeployContract` and `Contract.Txn` build the drafts `DeployDraft` and
  `CallDraft`; and `Contract.EstimateGas` is the corrected `ContractEstimateGas`.
 */
module Contract {
  import opened Wrappers
  import opened Web3
  import opened ContractSpec

  /** A transaction draft, `Txn`. */
  class Txn {
    var from: Address
    var addr: Option<Address>
    const provider: Oracle
    var abiMethod: Option<AbiMethod>
    var args: seq<Arg>
    var data: Slice
    var bin: Slice
    var gasLimit: U64
    var gasPrice: U64
    var value: Value
    var hash: Hash
    var receipt: Option<Receipt>

    /** The draft's fields as a value. */
    function Snapshot(): Draft
      reads this
    {
      Draft(from, addr, abiMethod, args, data, bin, gasLimit, gasPrice, value, hash, receipt)
    }

    /** The Go struct literal `&Txn{...}` with the given fields and provider. */
    constructor (d: Draft, provider: Oracle)
      ensures Snapshot() == d && this.provider == provider
    {
      from, addr, abiMethod, args := d.from, d.addr, d.abiMethod, d.args;
      data, bin, gasLimit, gasPrice := d.data, d.bin, d.gasLimit, d.gasPrice;
      value, hash, receipt := d.value, d.hash, d.receipt;
      this.provider := provider;
    }

    /** `GetReceipt`: the receipt `Wait` recorded, if any. */
    function GetReceipt(): Option<Receipt>
      reads this
    {
      receipt
    }

    /** `AddArgs`: replaces the arguments (it does not append to them) and returns the draft. */
    method AddArgs(args: seq<Arg>) returns (t: Txn)
      modifies this
      ensures t == this && Snapshot() == old(Snapshot()).(args := args)
    {
      this.args := args;
      t := this;
    }

    /** `SetValue`: stores a copy of the amount and returns the draft. */
    method SetValue(v: int) returns (t: Txn)
      modifies this
      ensures t == this && Snapshot() == old(Snapshot()).(value := Some(v))
    {
      value := Some(v);
      t := this;
    }

    /** `SetGasPrice`: a nonzero gas price is then used as it is, 0 means "ask the node". */
    method SetGasPrice(gasPrice: U64) returns (t: Txn)
      modifies this
      ensures t == this && Snapshot() == old(Snapshot()).(gasPrice := gasPrice)
    {
      this.gasPrice := gasPrice;
      t := this;
    }

    /** `SetGasLimit`: a nonzero gas limit is then used as it is, 0 means "estimate it". */
    method SetGasLimit(gasLimit: U64) returns (t: Txn)
      modifies this
      ensures t == this && Snapshot() == old(Snapshot()).(gasLimit := gasLimit)
    {
      this.gasLimit := gasLimit;
      t := this;
    }

    /** `Validate`: fills in `Data` from the bytecode, the selector and the encoded arguments. */
    method Validate() returns (err: Option<Error>)
      modifies this, provider
      ensures var run := ValidateRun(old(Snapshot()), provider.replies);
        && err == ErrorOf(run.result)
        && Snapshot() == run.next
        && provider.log == old(provider.log) + run.requests
    {
      if data.Some? {
        return None;
      }
      if IsContractDeployment(Snapshot()) {
        data := Append(data, bin.value);
      }
      if abiMethod.Some? {
        var encoded := provider.Encode(args, abiMethod.value.inputs);
        if encoded.Err? {
          return Some(EncodingError(encoded.error));
        }
        if !IsContractDeployment(Snapshot()) {
          data := Append(Some(abiMethod.value.id), encoded.value);
        } else {
          data := Append(data, encoded.value);
        }
      }
      return None;
    }

    /** `estimateGas`: asks the creation estimator for a deployment, else the call estimator. */
    method QueryGasEstimate() returns (r: Reply<U64>)
      modifies provider
      ensures r == EstimateReply(provider.replies, EstimateRequest(Snapshot()))
      ensures provider.log == old(provider.log) + [EstimateRequest(Snapshot())]
    {
      if IsContractDeployment(Snapshot()) {
        r := provider.EstimateGasContract(data);
      } else {
        r := provider.EstimateGas(CallMsg(from, addr, data, value));
      }
    }

    /** `EstimateGas`: validate, then estimate; the estimate is returned, not stored. */
    method EstimateGas() returns (r: Result<U64, Error>)
      modifies this, provider
      ensures var run := EstimateGasRun(old(Snapshot()), provider.replies);
        && r == run.result
        && Snapshot() == run.next
        && provider.log == old(provider.log) + run.requests
    {
      var err := Validate();
      if err.Some? {
        return Err(err.value);
      }
      var reply := QueryGasEstimate();
      r := if reply.err.Some? then Err(reply.err.value) else Ok(reply.value);
    }

    /** The gas price step: when it is 0, ask the node and store its answer, even with an error. */
    method FillGasPrice() returns (err: Option<Error>)
      modifies this, provider
      ensures var run := GasPriceRun(old(Snapshot()), provider.replies);
        && err == ErrorOf(run.result)
        && Snapshot() == run.next
        && provider.log == old(provider.log) + run.requests
    {
      err := None;
      if gasPrice == 0 {
        var price := provider.GasPrice();
        gasPrice := price.value;
        err := price.err;
      }
    }

    /** The gas limit step: when it is 0, estimate it and store the estimate, even with an error. */
    method FillGasLimit() returns (err: Option<Error>)
      modifies this, provider
      ensures var run := GasLimitRun(old(Snapshot()), provider.replies);
        && err == ErrorOf(run.result)
        && Snapshot() == run.next
        && provider.log == old(provider.log) + run.requests
    {
      err := None;
      if gasLimit == 0 {
        var limit := QueryGasEstimate();
        gasLimit := limit.value;
        err := limit.err;
      }
    }

    /** The last step: fetch the nonce at the latest block and assemble the transaction. */
    method AssembleWithNonce() returns (r: Result<Transaction, Error>)
      modifies provider
      ensures var run := AssembleRun(Snapshot(), provider.replies);
        && r == run.result
        && provider.log == old(provider.log) + run.requests
    {
      var nonce := provider.GetNonce(from, Latest);
      if nonce.Err? {
        return Err(nonce.error);
      }
      r := Ok(Transaction(from, addr, data, gasPrice, gasLimit, value, nonce.value));
    }

    /**
      `ConvertToWeb3Transaction`: validate, fill in the gas price and the gas limit when they are
      0, fetch the nonce, assemble; each failure returns at once.
     */
    method ConvertToWeb3Transaction() returns (r: Result<Transaction, Error>)
      modifies this, provider
      ensures var run := ConvertRun(old(Snapshot()), provider.replies);
        && r == run.result
        && Snapshot() == run.next
        && provider.log == old(provider.log) + run.requests
    {
      ghost var d0, rs, log0 := Snapshot(), provider.replies, provider.log;
      var err := Validate();
      if err.Some? {
        return Err(err.value);
      }
      ghost var fin := ValidateRun(d0, rs);
      ghost var price := GasPriceRun(fin.next, rs);
      err := FillGasPrice();
      LogAppend(log0, fin.requests, price.requests);
      if err.Some? {
        return Err(err.value);
      }
      ghost var limit := GasLimitRun(price.next, rs);
      err := FillGasLimit();
      LogAppend(log0 + fin.requests, price.requests, limit.requests);
      if err.Some? {
        LogAppend(log0, fin.requests, price.requests + limit.requests);
        return Err(err.value);
      }
      ghost var nonce := AssembleRun(limit.next, rs);
      r := AssembleWithNonce();
      LogAppend(log0 + fin.requests + price.requests, limit.requests, nonce.requests);
      LogAppend(log0 + fin.requests, price.requests, limit.requests + nonce.requests);
      LogAppend(log0, fin.requests, price.requests + (limit.requests + nonce.requests));
    }

    /**
      `SignAndSend`: the steps of ConvertToWeb3Transaction, then sign for `chainID` and broadcast;
      the node's hash is stored even when the broadcast reports an error.
     */
    method SignAndSend(key: Key, chainID: U64) returns (err: Option<Error>)
      modifies this, provider
      ensures var run := SignAndSendRun(old(Snapshot()), provider.replies, key, chainID);
        && err == ErrorOf(run.result)
        && Snapshot() == run.next
        && provider.log == old(provider.log) + run.requests
    {
      ghost var d0, rs, log0 := Snapshot(), provider.replies, provider.log;
      var txn := ConvertToWeb3Transaction();
      if txn.Err? {
        return Some(txn.error);
      }
      ghost var conv := ConvertRun(d0, rs);
      var signed := provider.Sign(txn.value, key, chainID);
      if signed.Err? {
        return Some(signed.error);
      }
      var sent := provider.SendRawTransaction(signed.value);
      hash := sent.value;
      err := sent.err;
      LogAppend(log0, conv.requests, [SignReq(txn.value, key, chainID), SendRawReq(signed.value)]);
    }

    /**
      `Wait`, with its endless loop cut off after `maxPolls` polls: each poll records the receipt;
      an error other than "not found" is returned, a receipt ends the wait. The node's answers are
      fixed, so the first poll decides: either the wait ends there, or every poll is pending.
     */
    method Wait(maxPolls: nat) returns (r: Result<Progress, Error>)
      requires hash != ZeroHash
      modifies this, provider
      ensures var step := WaitStepRun(old(Snapshot()), provider.replies);
        && (maxPolls == 0 ==> r == Ok(StillPending) && Snapshot() == old(Snapshot()) && provider.log == old(provider.log))
        && (maxPolls > 0 ==> r == step.result && Snapshot() == step.next)
        && (maxPolls > 0 && r != Ok(StillPending) ==> provider.log == old(provider.log) + step.requests)
        && (r == Ok(StillPending) ==> provider.log == old(provider.log) + seq(maxPolls, _ => ReceiptReq(old(hash))))
        && (r == Ok(Mined) ==> GetReceipt().Some?)
    {
      ghost var d0 := Snapshot();
      ghost var log0 := provider.log;
      ghost var step := WaitStepRun(d0, provider.replies);
      r := Ok(StillPending);
      var polls := 0;
      while polls < maxPolls
        invariant 0 <= polls <= maxPolls
        invariant polls == 0 ==> Snapshot() == d0
        invariant polls > 0 ==> Snapshot() == step.next && step.result == Ok(StillPending)
        invariant r == Ok(StillPending)
        invariant hash == d0.hash
        invariant provider.log == log0 + seq(polls, _ => ReceiptReq(d0.hash))
      {
        var reply := provider.GetTransactionReceipt(hash);
        receipt := reply.value;
        if reply.err.Some? && reply.err.value.msg != NotFound {
          assert polls == 0;
          assert provider.log == log0 + [ReceiptReq(d0.hash)];
          return Err(reply.err.value);
        }
        if receipt.Some? {
          assert polls == 0;
          assert provider.log == log0 + [ReceiptReq(d0.hash)];
          return Ok(Mined);
        }
        assert seq(polls + 1, _ => ReceiptReq(d0.hash)) == seq(polls, _ => ReceiptReq(d0.hash)) + [ReceiptReq(d0.hash)];
        polls := polls + 1;
      }
    }
  }

  /** `DeployContract`: a fresh draft that creates a contract from `bin` and the constructor's arguments. */
  method DeployContract(provider: Oracle, from: Address, abi: Abi, bin: Slice, args: seq<Arg>) returns (t: Txn)
    ensures fresh(t) && t.provider == provider
    ensures t.Snapshot() == DeployDraft(from, abi, bin, args)
  {
    t := new Txn(DeployDraft(from, abi, bin, args), provider);
  }

  /** A deployed contract: its address, the optional sender of calls, its ABI and the provider. */
  class Contract {
    const addr: Address
    var from: Option<Address>
    const abi: Abi
    const provider: Oracle

    /** `NewContract`: no sender is set. */
    constructor (addr: Address, abi: Abi, provider: Oracle)
      ensures this.addr == addr && this.abi == abi && this.provider == provider && from == None
    {
      this.addr, this.abi, this.provider := addr, abi, provider;
      from := None;
    }

    /** `SetFrom`: the sender of later calls. */
    method SetFrom(a: Address)
      modifies this
      ensures from == Some(a)
    {
      from := Some(a);
    }

    /**
      `Call`: a read-only call of method `name` at `block`: look it up, encode, call, reject an
      empty response, decode.
     */
    method Call(name: string, block: BlockNumber, args: seq<Arg>) returns (r: Result<Fields, Error>)
      modifies provider
      ensures var out := CallRun(addr, from, abi, name, block, args, provider.replies);
        r == out.result && provider.log == old(provider.log) + out.requests
    {
      if name !in abi.methods {
        return Err(Error("method " + name + " not found"));
      }
      var m := abi.methods[name];
      var encoded := provider.Encode(args, m.inputs);
      if encoded.Err? {
        return Err(encoded.error);
      }
      var data := Append(Some(m.id), encoded.value);
      var msg := CallMsg(if from.Some? then from.value else ZeroAddress, Some(addr), data, None);
      var raw := provider.Call(msg, block);
      if raw.Err? {
        return Err(raw.error);
      }
      if |raw.value| == 0 {
        return Err(Error("empty response"));
      }
      r := provider.Decode(m.outputs, raw.value);
    }

    /**
      `Contract.Txn`: a fresh draft calling method `name` of this contract. The source panics on an
      unknown name, so callers must name a method of the ABI. The sender is not copied from `from`.
     */
    method Txn(name: string, args: seq<Arg>) returns (t: Txn)
      requires name in abi.methods
      ensures fresh(t) && t.provider == provider
      ensures t.Snapshot() == CallDraft(addr, abi.methods[name], args)
    {
      t := new Txn(CallDraft(addr, abi.methods[name], args), provider);
    }

    /** `Contract.EstimateGas`, with the caller's arguments passed on as arguments. */
    method EstimateGas(name: string, args: seq<Arg>) returns (r: Result<U64, Error>)
      requires name in abi.methods
      modifies provider
      ensures var run := ContractEstimateGas(addr, abi.methods[name], args, provider.replies);
        r == run.result && provider.log == old(provider.log) + run.requests
    {
      var t := Txn(name, args);
      r := t.EstimateGas();
    }
  }
}
