# txo record assembly, in Dafny

txo turns a raw Bitcoin (BSV) transaction into a summary object. The
summary is made of JSON-like records. `fromTx` parses the transaction with
the `bsv` library and builds:

- one record per input and per output that has a script, holding:
  - the entry's index `i` (and `seq` for inputs);
  - its script's chunks, one field per chunk in one of three size tiers
    (`b`/`lb`/`xlb` for Base64, `s`/`ls`/`xls` for UTF-8 text on outputs
    only, `h` for hex when `options.h` is positive);
  - a descriptor `e`, which names the spent output or the paid value and
    carries an address `a` when the script is pay-to-pubkey-hash;
- the top level: `tx.h` (the transaction id), `in`, `out`, `lock`, and
  `confirmations` when that option is truthy.

`fromHash` asks a node for the raw transaction, runs `fromTx` on it, stores
the raw hex under `tx.r`, and for a verbose answer with a single coinbase
input copies the coinbase text under `coinbase`.

The model follows `index.js`. The library calls are fields of a `Library`
value the caller supplies. These are: parsing (which also yields the
transaction id), the pay-to-pubkey-hash recognisers, address derivation and
UTF-8 decoding.
Hex and padded Base64 (section 4 of RFC 4648) are defined in full, with
their decoders and round-trip lemmas.

Modules:

- `Wrappers`: `Option` and `Result`.
- `Decimal`: the decimal rendering of chunk indices used in keys, with its
  parser.
- `Encoding`: bytes, `Reverse`, `Hex`, `Base64` and their decoders.
- `Bsv`: chunks, inputs, outputs, transactions, the library calls and the
  error kinds.
- `Json`: the values a summary is built from.
- `ChunkEncoding`: the per-chunk fields, as a pure specification
  (`ChunkFields`, `ScriptFields`). Two methods check the chunk loop against
  it: `EncodeChunk` and `EncodeScript`. It also holds the lemmas that keys
  never collide and that each data chunk gets exactly one tier.
- `Records`: input and output records and their descriptors. Also the
  generic loop `Collect`, which pushes records in order and stops at the
  first throw, with its order and failure lemmas.
- `Txo`: `FromTx` and `FromHash`, their specifications `Decode` and
  `Fetch`, and the lemmas about the top-level summary.

Two behaviours of index.js worth knowing:

- **Skipped entries.** An input or output without a script is skipped, so
  `in` can be shorter than the list of inputs (index.js:58, index.js:100).
- **fromHash can hang.** The `await fromTx(...)` sits inside the node's
  callback (index.js:26, index.js:39). If `fromTx` rejects there, the
  callback throws before it reaches `resolve` or `reject`, so the promise
  returned by `fromHash` never settles. The model represents this as
  `Settlement.Unsettled`, keeping the error that was thrown.

## Model

| member | source | states |
|---|---|---|
| Decimal.ParseShow | index.js:64 | the decimal text of a chunk index reads back as that index |
| Decimal.ShowInjective | index.js:64 | two different chunk indices never render to the same digits |
| Encoding.Reverse | index.js:84 | the result has the same length, with byte k taken from position length-1-k |
| Encoding.HexRoundTrip | index.js:71 | the hex text of a buffer decodes back to the same bytes |
| Encoding.Base64RoundTrip | index.js:64 | the padded Base64 text of a buffer decodes back to the same bytes |
| ChunkEncoding.EncodeChunk | index.js:61-81 | writing one chunk's fields into `xput` adds exactly that chunk's specified fields and keeps every other key |
| ChunkEncoding.EncodeScript | index.js:60-82 | the chunk loop leaves `xput` holding its old fields plus every chunk's specified fields |
| ChunkEncoding.DataChunkTier | index.js:105-117 | a data chunk gets `xlb` iff it has at least 1000000 bytes, `lb` iff 512 to 999999, `b` iff fewer than 512; the matching `s`-family key iff the chunk is in an output; `h` iff hex is requested |
| ChunkEncoding.DataChunkValues | index.js:105-117 | the `b`-family value is the Base64 of the payload, the `s`-family value its UTF-8 text and `h` its hex |
| ChunkEncoding.NonDataChunkFields | index.js:118-126 | a chunk without payload writes only `b<idx>`: `{op: opcodenum}` for an opcode, otherwise the chunk object itself; never `h` |
| ChunkEncoding.ChunkFieldsKeys | index.js:62-81 | a chunk's fields are all keyed by one of the seven prefixes followed by the chunk's own index |
| ChunkEncoding.ChunkKeysDisjoint | index.js:60-82 | two different chunks never write a common key |
| ChunkEncoding.ChunkFieldsSurvive | index.js:102-127 | every field a chunk writes is still present with the same value after the whole loop, so no later chunk overwrites it |
| ChunkEncoding.ScriptFieldAt | index.js:102-127 | the script's fields hold key prefix+j exactly when chunk j writes it, with chunk j's value |
| ChunkEncoding.ScriptHexFields | index.js:115-117 | the script has `h<j>` exactly when hex is requested and chunk j is a data chunk, and it holds the payload's hex |
| ChunkEncoding.InputScriptHasNoText | index.js:62-72 | an input's script fields contain no `s`, `ls` or `xls` key |
| ChunkEncoding.WordNotInScript | index.js:59-93 | no chunk field is keyed by a bare word such as `i`, `seq` or `e` |
| ChunkEncoding.KeyInjective | index.js:64 | a prefix and an index are recovered from the key they form |
| Records.BuildInput | index.js:58-94 | an input's record, built step by step, is the specified input record or the error thrown |
| Records.BuildOutput | index.js:100-139 | an output's record, built step by step, is the specified output record or the error thrown |
| Records.InputRecordFields | index.js:59-93 | an input record holds exactly `i` (the index), `seq` (the sequence number), `e` and its chunk fields, each with its chunk's value |
| Records.OutputRecordFields | index.js:101-138 | an output record holds exactly `i` (the index), `e` and its chunk fields, each with its chunk's value |
| Records.SenderDescriptorContents | index.js:83-93 | the record fails iff the script is recognised and chunk 1 is missing (missing chunk) or the derivation throws (address failure); otherwise `e` has `h` = hex of the reversed previous hash, `i` = previous output index, and `a` iff recognised with a non-empty derived address |
| Records.ReceiverDescriptorContents | index.js:128-138 | the record fails iff the script is recognised and chunk 2 is missing or the derivation throws; otherwise `e` has `v` = satoshis, `i` = output index, and `a` iff recognised with a non-empty derived address |
| Records.EmittedIndices | index.js:57-58 | the indices of pushed entries increase strictly and are exactly the entries that push |
| Records.CollectRecords | index.js:57-96 | the loop finishes iff no entry throws, and then pushes one record per emitting entry in order |
| Records.CollectStopsAtError | index.js:57-96 | once an entry throws, later entries do not change the outcome |
| Records.CollectFirstFailure | index.js:57-96 | a failing loop fails with the error of its first throwing entry |
| Records.InputRecordsInOrder | index.js:56-97 | the input loop finishes iff every scripted input has a record; its records are those of the scripted inputs in order, `i` equal to each input's index |
| Records.OutputRecordsInOrder | index.js:98-142 | the output loop finishes iff every scripted output has a record; its records are those of the scripted outputs in order, `i` equal to each output's index |
| Txo.CollectInputs | index.js:56-97 | the input loop's pushes equal the specified collection of input records, or its first error |
| Txo.CollectOutputs | index.js:98-142 | the output loop's pushes equal the specified collection of output records, or its first error |
| Txo.FromTx | index.js:47-155 | fromTx's outcome equals the specified decoding |
| Txo.DecodeFailure | index.js:49-142 | fromTx rejects iff parsing throws (error: malformed) or some scripted input or output has no record (error: missing chunk or address failure) |
| Txo.SummaryContents | index.js:143-152 | the summary has exactly `tx`, `in`, `out`, `lock`, plus `confirmations` iff that option is truthy; `tx` is `{h: txid}`, `lock` the lock time |
| Txo.DecodedInputs | index.js:56-97 | `in` lists the scripted inputs' records in input order, each `i` its index, with no more entries than inputs |
| Txo.DecodedOutputs | index.js:98-148 | `out` lists the scripted outputs' records in output order, each `i` its index, with no more entries than outputs |
| Txo.FromHash | index.js:20-45 | fromHash's outcome, from the node's reply on, equals the specified fetch |
| Txo.FetchContents | index.js:21-43 | a node error rejects; a fromTx rejection leaves the promise unsettled; otherwise `tx` is `{h: txid, r: raw hex}`, the other keys are fromTx's, `coinbase` is present iff the answer is verbose with exactly one vin entry whose coinbase is non-empty, and `confirmations` only for a verbose answer |

## Left out

- The `bsv` library: parsing (`Tx.fromHex`), the transaction id, script
  chunk parsing, the pay-to-pubkey-hash recognisers and address derivation.
  Their code is not part of this model, so they are unconstrained
  functions in `Library`.
- UTF-8 decoding (`toString('utf8')`, with replacement characters) is
  unconstrained too. Hex and Base64 are defined.
- The node RPC client, the network call, `dotenv`, the environment-variable
  defaults of the connection settings and the command-line entry point
  (index.js:2-19, index.js:156-168). This is I/O. `FromHash` starts from
  the reply the callback receives.
- The order in which keys were inserted into a JavaScript object. Records
  are maps, so printing order is not modelled.
- `txHashBuf.reverse()` reverses the library's buffer in place
  (index.js:84). Only the reversed bytes are modelled, not the aliasing
  side effect on the parsed transaction.
- Options and RPC numbers are integers. Fractional, NaN or non-number values
  of `options.h`, `options.confirmations`, `satoshis`, `sequenceNumber` and
  `txOutNum` are not modelled.
- A plain (non-verbose) answer is the hex string alone. It is modelled by
  the same `RawTransaction` value, whose `confirmations` and `vin` are not
  read on that path.
- A verbose answer without `hex` is not modelled.
- The unused locals `result`, `graph` and `chunk` have no behaviour.
- Errors are kinds, not the library's exception objects:
  - a missing chunk, for reading `.buf` of an absent chunk;
  - an address failure, for a thrown derivation;
  - malformed, for a thrown parse;
  - RPC with the node's message.
