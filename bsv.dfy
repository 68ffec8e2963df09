/**
 * What the transaction library hands to the record assembly: a parsed
 * transaction and the library operations the assembly calls. Parsing (which
 * also yields the transaction id), the pay-to-pubkey-hash recognisers,
 * address derivation and UTF-8 decoding are the library's; here they are
 * values of `Library`, unconstrained functions supplied by the caller.
 */
module Bsv {
  import opened Wrappers
  import opened Encoding

  /**
   * One script chunk: a data push (its `buf`, possibly empty), a bare opcode
   * (its `opcodenum`), or a chunk that carries neither.
   */
  datatype Chunk = Data(buf: Bytes) | Op(opcodenum: nat) | Raw

  /** A script, as the sequence of its chunks. */
  type Script = seq<Chunk>

  /** An input; `script` is None when the parsed input has no script. */
  datatype TxIn = TxIn(script: Option<Script>, sequenceNumber: int, txHashBuf: Bytes, txOutNum: int)

  /** An output; `script` is None when the parsed output has no script. */
  datatype TxOut = TxOut(script: Option<Script>, satoshis: int)

  /** A parsed transaction; `id` is the transaction id the library computes. */
  datatype Tx = Tx(id: string, txIns: seq<TxIn>, txOuts: seq<TxOut>, nLockTime: int)

  /**
   * The library calls. `fromHex` yields None when parsing throws. The two
   * address derivers receive the payload of the chunk they are pointed at
   * (None where that chunk has no payload) and yield None when they throw,
   * otherwise the address text.
   */
  datatype Library = Library(
    fromHex: string -> Option<Tx>,
    utf8: Bytes -> string,
    isPubKeyHashIn: Script -> bool,
    isPubKeyHashOut: Script -> bool,
    addressFromPubKey: Option<Bytes> -> Option<string>,
    addressFromPubKeyHash: Option<Bytes> -> Option<string>)

  /** The payload of a chunk, or None where `c.buf` would be undefined. */
  function Payload(c: Chunk): (p: Option<Bytes>)
    ensures p.Some? <==> c.Data?
    ensures c.Data? ==> p.value == c.buf
  {
    if c.Data? then Some(c.buf) else None
  }

  /** Why an assembly or a fetch gives no summary. */
  datatype Error =
    | Malformed              // the library could not parse the transaction
    | NoSuchChunk(at: nat)   // a recognised script lacks the chunk the address is read from
    | AddressFailure         // the address derivation threw
    | Rpc(message: string)   // the node's RPC call failed
}
