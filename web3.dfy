/**
  The values the contract layer passes around, and the outside world it talks to.

  The JSON-RPC node, the ABI codec and the EIP-155 signer are one `Oracle` object. What each of
  them answers is fixed when the oracle is made (a `Replies` record of total functions, so the same
  question always gets the same answer), and every question put to it is appended to the ghost
  `log`, which is what the ordering and "no network call" properties of the contract layer are
  stated over.
 */
module Web3 {
  import opened Wrappers

  type Byte = b: int | 0 <= b < 256
  type Bytes = seq<Byte>

  /** Go's `uint64`. */
  type U64 = n: int | 0 <= n < 0x1_0000_0000_0000_0000

  /** A Go `[]byte`: `None` is the nil slice, which Go tells apart from an empty one. */
  type Slice = Option<Bytes>

  /** The bytes of a slice; nil has none. */
  function Contents(s: Slice): Bytes
  {
    if s.Some? then s.value else []
  }

  /**
    Go's `append(s, extra...)`: appending nothing returns `s` itself, so a nil slice stays nil;
    appending something gives a non-nil slice holding the old bytes followed by `extra`.
   */
  function Append(s: Slice, extra: Bytes): (r: Slice)
    ensures Contents(r) == Contents(s) + extra
    ensures r.Some? <==> s.Some? || extra != []
  {
    if extra == [] then s else Some(Contents(s) + extra)
  }

  /** `web3.Address`: 20 bytes. */
  type Address = a: Bytes | |a| == 20 witness seq(20, _ => 0)
  const ZeroAddress: Address := [0, 0, 0, 0, 0, 0, 0, 0, 0, 0, 0, 0, 0, 0, 0, 0, 0, 0, 0, 0]

  /** `web3.Hash`: 32 bytes; the zero hash marks a transaction that has not been sent. */
  type Hash = h: Bytes | |h| == 32 witness seq(32, _ => 0)
  const ZeroHash: Hash :=
    [0, 0, 0, 0, 0, 0, 0, 0, 0, 0, 0, 0, 0, 0, 0, 0,
    0, 0, 0, 0, 0, 0, 0, 0, 0, 0, 0, 0, 0, 0, 0, 0]

  /** A method selector, `Method.ID()`: the first 4 bytes of the Keccak-256 of the signature. */
  type Selector = s: Bytes | |s| == 4 witness [0, 0, 0, 0]

  /** A Go `error`, known by its message. */
  datatype Error = Error(msg: string)

  /** `*big.Int` amount of wei sent with a transaction; `None` is nil. Its arithmetic is not modelled. */
  type Value = Option<int>

  /** `web3.BlockNumber`: a block tag. */
  datatype BlockNumber = Latest | Earliest | PendingBlock | Block(number: U64)

  /**
    One argument of a call, a Go `interface{}`: an opaque value, or a slice of arguments passed
    as one value.
   */
  datatype Arg = Arg(payload: Bytes) | ArgList(items: seq<Arg>)

  /** An ABI type list (`abi.Type` tuple), opaque here. */
  type Schema = seq<string>

  /** `abi.Method`: its name, selector and input and output schemas. */
  datatype AbiMethod = AbiMethod(name: string, id: Selector, inputs: Schema, outputs: Schema)

  /** `abi.ABI`: the constructor, if the contract declares one, and the methods by name. */
  datatype Abi = Abi(ctor: Option<AbiMethod>, methods: map<string, AbiMethod>)

  /** Decoded output fields of a call. */
  type Fields = map<string, Arg>

  /** `web3.CallMsg`. */
  datatype CallMsg = CallMsg(from: Address, to: Option<Address>, data: Slice, value: Value)

  /** `web3.Transaction` as the contract layer assembles it. */
  datatype Transaction = Transaction(
    from: Address, to: Option<Address>, input: Slice, gasPrice: U64, gas: U64, value: Value, nonce: U64)

  /** `web3.Receipt`, opaque. */
  datatype Receipt = Receipt(raw: Bytes)

  /** `wallet.Key`, opaque. */
  datatype Key = Key(secret: Bytes)

  /**
    The answer of a Go call `(value, err)` whose caller keeps `value` even when `err` is not nil,
    as `t.GasPrice, err = ...` does.
   */
  datatype Reply<T> = Reply(value: T, err: Option<Error>)

  /** A question put to the oracle. */
  datatype Request =
    | EncodeReq(args: seq<Arg>, schema: Schema)                 // abi.Encode
    | DecodeReq(schema: Schema, raw: Bytes)                     // abi.Decode
    | GasPriceReq                                               // eth_gasPrice
    | EstimateGasReq(msg: CallMsg)                              // eth_estimateGas for a call
    | EstimateGasContractReq(code: Slice)                       // eth_estimateGas for a creation
    | GetNonceReq(account: Address, block: BlockNumber)         // eth_getTransactionCount
    | SignReq(tx: Transaction, key: Key, chainID: U64)          // EIP-155 signing and RLP encoding
    | SendRawReq(raw: Bytes)                                    // eth_sendRawTransaction
    | ReceiptReq(hash: Hash)                                    // eth_getTransactionReceipt
    | CallReq(msg: CallMsg, block: BlockNumber)                 // eth_call, with `0x` hex decoding

  /** The requests that go over the network to the node; encoding, decoding and signing are local. */
  predicate IsNetwork(r: Request)
  {
    !(r.EncodeReq? || r.DecodeReq? || r.SignReq?)
  }

  /** What the oracle answers to each question. */
  datatype Replies = Replies(
    encode: (seq<Arg>, Schema) -> Result<Bytes, Error>,
    decode: (Schema, Bytes) -> Result<Fields, Error>,
    gasPrice: Reply<U64>,
    estimateGas: CallMsg -> Reply<U64>,
    estimateGasContract: Slice -> Reply<U64>,
    getNonce: (Address, BlockNumber) -> Result<U64, Error>,
    sign: (Transaction, Key, U64) -> Result<Bytes, Error>,
    sendRaw: Bytes -> Reply<Hash>,
    receipt: Hash -> Reply<Option<Receipt>>,
    call: (CallMsg, BlockNumber) -> Result<Bytes, Error>)

  /** Whether the oracle answers request `r` without an error. */
  predicate Succeeds(rs: Replies, r: Request)
  {
    match r
    case EncodeReq(args, schema) => rs.encode(args, schema).Ok?
    case DecodeReq(schema, raw) => rs.decode(schema, raw).Ok?
    case GasPriceReq => rs.gasPrice.err.None?
    case EstimateGasReq(msg) => rs.estimateGas(msg).err.None?
    case EstimateGasContractReq(code) => rs.estimateGasContract(code).err.None?
    case GetNonceReq(account, block) => rs.getNonce(account, block).Ok?
    case SignReq(tx, key, chainID) => rs.sign(tx, key, chainID).Ok?
    case SendRawReq(raw) => rs.sendRaw(raw).err.None?
    case ReceiptReq(hash) => rs.receipt(hash).err.None?
    case CallReq(msg, block) => rs.call(msg, block).Ok?
  }

  /** The node, the ABI codec and the signer, with the log of every question put to them. */
  class Oracle {
    const replies: Replies
    ghost var log: seq<Request>

    constructor (replies: Replies)
      ensures this.replies == replies && log == []
    {
      this.replies := replies;
      log := [];
    }

    method Encode(args: seq<Arg>, schema: Schema) returns (r: Result<Bytes, Error>)
      modifies this
      ensures r == replies.encode(args, schema) && log == old(log) + [EncodeReq(args, schema)]
    {
      r := replies.encode(args, schema);
      log := log + [EncodeReq(args, schema)];
    }

    method Decode(schema: Schema, raw: Bytes) returns (r: Result<Fields, Error>)
      modifies this
      ensures r == replies.decode(schema, raw) && log == old(log) + [DecodeReq(schema, raw)]
    {
      r := replies.decode(schema, raw);
      log := log + [DecodeReq(schema, raw)];
    }

    method GasPrice() returns (r: Reply<U64>)
      modifies this
      ensures r == replies.gasPrice && log == old(log) + [GasPriceReq]
    {
      r := replies.gasPrice;
      log := log + [GasPriceReq];
    }

    method EstimateGas(msg: CallMsg) returns (r: Reply<U64>)
      modifies this
      ensures r == replies.estimateGas(msg) && log == old(log) + [EstimateGasReq(msg)]
    {
      r := replies.estimateGas(msg);
      log := log + [EstimateGasReq(msg)];
    }

    method EstimateGasContract(code: Slice) returns (r: Reply<U64>)
      modifies this
      ensures r == replies.estimateGasContract(code) && log == old(log) + [EstimateGasContractReq(code)]
    {
      r := replies.estimateGasContract(code);
      log := log + [EstimateGasContractReq(code)];
    }

    method GetNonce(account: Address, block: BlockNumber) returns (r: Result<U64, Error>)
      modifies this
      ensures r == replies.getNonce(account, block) && log == old(log) + [GetNonceReq(account, block)]
    {
      r := replies.getNonce(account, block);
      log := log + [GetNonceReq(account, block)];
    }

    method Sign(tx: Transaction, key: Key, chainID: U64) returns (r: Result<Bytes, Error>)
      modifies this
      ensures r == replies.sign(tx, key, chainID) && log == old(log) + [SignReq(tx, key, chainID)]
    {
      r := replies.sign(tx, key, chainID);
      log := log + [SignReq(tx, key, chainID)];
    }

    method SendRawTransaction(raw: Bytes) returns (r: Reply<Hash>)
      modifies this
      ensures r == replies.sendRaw(raw) && log == old(log) + [SendRawReq(raw)]
    {
      r := replies.sendRaw(raw);
      log := log + [SendRawReq(raw)];
    }

    method GetTransactionReceipt(hash: Hash) returns (r: Reply<Option<Receipt>>)
      modifies this
      ensures r == replies.receipt(hash) && log == old(log) + [ReceiptReq(hash)]
    {
      r := replies.receipt(hash);
      log := log + [ReceiptReq(hash)];
    }

    method Call(msg: CallMsg, block: BlockNumber) returns (r: Result<Bytes, Error>)
      modifies this
      ensures r == replies.call(msg, block) && log == old(log) + [CallReq(msg, block)]
    {
      r := replies.call(msg, block);
      log := log + [CallReq(msg, block)];
    }
  }
}
