/**
 * The transaction summary: fromTx, which parses a raw transaction and
 * assembles its summary object, and fromHash, which asks a node for a raw
 * transaction and patches the summary with the raw hex and, for a verbose
 * coinbase answer, the coinbase text.
 */
module Txo {
  import opened Wrappers
  import opened Bsv
  import opened Json
  import opened Records

  // ---- fromTx ----

  /** The options fromTx reads; None where the option is absent. */
  datatype Options = Options(confirmations: Option<int>, h: Option<int>)

  /** fromTx called without options. */
  const NoOptions := Options(None, None)

  /** `options.h` is present and positive (a positive number is truthy): hex fields are wanted. */
  predicate HexRequested(options: Options) {
    options.h.Some? && options.h.value > 0
  }

  /** `options.confirmations` is truthy: the summary carries it. */
  predicate ConfirmationsGiven(options: Options) {
    options.confirmations.Some? && options.confirmations.value != 0
  }

  /** The summary object built from the collected records. */
  function Summary(tx: Tx, inputs: seq<Value>, outputs: seq<Value>, options: Options): map<string, Value> {
    var r := map["tx" := Obj(map["h" := Str(tx.id)]), "in" := Arr(inputs), "out" := Arr(outputs), "lock" := Num(tx.nLockTime)];
    if ConfirmationsGiven(options) then r["confirmations" := Num(options.confirmations.value)] else r
  }

  /** The summary of a parsed transaction, or the first error its loops throw. */
  function Assemble(tx: Tx, options: Options, lib: Library): Result<map<string, Value>, Error> {
    var hexFlag := HexRequested(options);
    match Collect(tx.txIns, InputSteps(hexFlag, lib))
    case Err(e) => Err(e)
    case Ok(inputs) =>
      match Collect(tx.txOuts, OutputSteps(hexFlag, lib))
      case Err(e) => Err(e)
      case Ok(outputs) => Ok(Summary(tx, inputs, outputs, options))
  }

  /** What fromTx's promise settles to: the summary, or the reason it rejects. */
  function Decode(transaction: string, options: Options, lib: Library): Result<map<string, Value>, Error> {
    match lib.fromHex(transaction)
    case None => Err(Malformed)
    case Some(tx) => Assemble(tx, options, lib)
  }

  /** fromTx's loop over the inputs: one record per script-bearing input, in order. */
  method CollectInputs(txIns: seq<TxIn>, hexFlag: bool, lib: Library) returns (r: Result<seq<Value>, Error>)
    ensures r == Collect(txIns, InputSteps(hexFlag, lib))
  {
    ghost var steps := InputSteps(hexFlag, lib);
    var inputs: seq<Value> := [];
    var k := 0;
    while k < |txIns|
      invariant 0 <= k <= |txIns|
      invariant Collect(txIns[..k], steps) == Ok(inputs)
    {
      var input := txIns[k];
      CollectStep(txIns, k, steps);
      if input.script.Some? {
        var xput := BuildInput(input, k, hexFlag, lib);
        if xput.Err? {
          CollectStopsAtError(txIns, k + 1, steps, xput.error);
          return Err(xput.error);
        }
        inputs := inputs + [Obj(xput.value)];
      }
      k := k + 1;
    }
    assert txIns[..k] == txIns;
    return Ok(inputs);
  }

  /** fromTx's loop over the outputs: one record per script-bearing output, in order. */
  method CollectOutputs(txOuts: seq<TxOut>, hexFlag: bool, lib: Library) returns (r: Result<seq<Value>, Error>)
    ensures r == Collect(txOuts, OutputSteps(hexFlag, lib))
  {
    ghost var steps := OutputSteps(hexFlag, lib);
    var outputs: seq<Value> := [];
    var k := 0;
    while k < |txOuts|
      invariant 0 <= k <= |txOuts|
      invariant Collect(txOuts[..k], steps) == Ok(outputs)
    {
      var output := txOuts[k];
      CollectStep(txOuts, k, steps);
      if output.script.Some? {
        var xput := BuildOutput(output, k, hexFlag, lib);
        if xput.Err? {
          CollectStopsAtError(txOuts, k + 1, steps, xput.error);
          return Err(xput.error);
        }
        outputs := outputs + [Obj(xput.value)];
      }
      k := k + 1;
    }
    assert txOuts[..k] == txOuts;
    return Ok(outputs);
  }

  /** fromTx: parse, collect the input and output records, build the summary. */
  method FromTx(transaction: string, options: Options, lib: Library) returns (r: Result<map<string, Value>, Error>)
    ensures r == Decode(transaction, options, lib)
  {
    var parsed := lib.fromHex(transaction);
    if parsed.None? {
      return Err(Malformed);
    }
    var gene := parsed.value;
    var hexFlag := options.h.Some? && options.h.value > 0;
    var inputs := CollectInputs(gene.txIns, hexFlag, lib);
    if inputs.Err? {
      return Err(inputs.error);
    }
    var outputs := CollectOutputs(gene.txOuts, hexFlag, lib);
    if outputs.Err? {
      return Err(outputs.error);
    }
    var result := map["tx" := Obj(map["h" := Str(gene.id)]), "in" := Arr(inputs.value), "out" := Arr(outputs.value), "lock" := Num(gene.nLockTime)];
    if options.confirmations.Some? && options.confirmations.value != 0 {
      result := result["confirmations" := Num(options.confirmations.value)];
    }
    return Ok(result);
  }

  /** Every script-bearing input and output of `tx` has a record. */
  predicate AllRecordsBuild(tx: Tx, hexFlag: bool, lib: Library) {
    && (forall k :: 0 <= k < |tx.txIns| && tx.txIns[k].script.Some? ==> InputRecord(tx.txIns[k], k, hexFlag, lib).Ok?)
    && (forall k :: 0 <= k < |tx.txOuts| && tx.txOuts[k].script.Some? ==> OutputRecord(tx.txOuts[k], k, hexFlag, lib).Ok?)
  }

  /**
   * fromTx rejects exactly when parsing throws or some script-bearing input
   * or output has no record; a parse failure is reported as such, any other
   * failure is an address failure or a missing chunk.
   */
  lemma DecodeFailure(transaction: string, options: Options, lib: Library)
    ensures Decode(transaction, options, lib).Err? <==>
      lib.fromHex(transaction).None? || !AllRecordsBuild(lib.fromHex(transaction).value, HexRequested(options), lib)
    ensures lib.fromHex(transaction).None? ==> Decode(transaction, options, lib) == Err(Malformed)
    ensures lib.fromHex(transaction).Some? && Decode(transaction, options, lib).Err? ==>
      Decode(transaction, options, lib).error.NoSuchChunk? || Decode(transaction, options, lib).error.AddressFailure?
  {
    if lib.fromHex(transaction).Some? {
      var tx, hexFlag := lib.fromHex(transaction).value, HexRequested(options);
      InputRecordsInOrder(tx.txIns, hexFlag, lib);
      OutputRecordsInOrder(tx.txOuts, hexFlag, lib);
      if Collect(tx.txIns, InputSteps(hexFlag, lib)).Err? {
        CollectFirstFailure(tx.txIns, InputSteps(hexFlag, lib));
        var k :| 0 <= k < |tx.txIns| && InputSteps(hexFlag, lib)(tx.txIns[k], k).Fail? &&
          InputSteps(hexFlag, lib)(tx.txIns[k], k).error == Decode(transaction, options, lib).error;
        SenderDescriptorContents(tx.txIns[k], k, hexFlag, lib);
      } else if Collect(tx.txOuts, OutputSteps(hexFlag, lib)).Err? {
        CollectFirstFailure(tx.txOuts, OutputSteps(hexFlag, lib));
        var k :| 0 <= k < |tx.txOuts| && OutputSteps(hexFlag, lib)(tx.txOuts[k], k).Fail? &&
          OutputSteps(hexFlag, lib)(tx.txOuts[k], k).error == Decode(transaction, options, lib).error;
        ReceiverDescriptorContents(tx.txOuts[k], k, hexFlag, lib);
      }
    }
  }

  /**
   * The summary fromTx resolves to holds `tx` (the transaction id under
   * `h`), `in`, `out`, `lock` (the lock time), and `confirmations` exactly
   * when that option is truthy.
   */
  lemma SummaryContents(transaction: string, options: Options, lib: Library)
    requires Decode(transaction, options, lib).Ok?
    ensures lib.fromHex(transaction).Some?
    ensures var tx, r := lib.fromHex(transaction).value, Decode(transaction, options, lib).value;
      && r.Keys == {"tx", "in", "out", "lock"} + (if ConfirmationsGiven(options) then {"confirmations"} else {})
      && r["tx"] == Obj(map["h" := Str(tx.id)])
      && r["lock"] == Num(tx.nLockTime)
      && (ConfirmationsGiven(options) ==> r["confirmations"] == Num(options.confirmations.value))
  {
  }

  /**
   * The `in` array holds one record per script-bearing input, in input
   * order; each is that input's record, with `i` its index in the
   * transaction.
   */
  lemma DecodedInputs(transaction: string, options: Options, lib: Library)
    requires Decode(transaction, options, lib).Ok?
    ensures lib.fromHex(transaction).Some?
    ensures var tx, hexFlag := lib.fromHex(transaction).value, HexRequested(options);
            var ins, order := Decode(transaction, options, lib).value["in"], Emitted(tx.txIns, InputSteps(hexFlag, lib));
      && ins.Arr? && |ins.items| == |order| <= |tx.txIns|
      && (forall j, j' :: 0 <= j < j' < |order| ==> order[j] < order[j'])
      && (forall k :: 0 <= k < |tx.txIns| ==> (k in order <==> tx.txIns[k].script.Some?))
      && (forall j :: 0 <= j < |order| ==>
            && tx.txIns[order[j]].script.Some?
            && InputRecord(tx.txIns[order[j]], order[j], hexFlag, lib).Ok?
            && ins.items[j] == Obj(InputRecord(tx.txIns[order[j]], order[j], hexFlag, lib).value)
            && ins.items[j].fields["i"] == Num(order[j]))
  {
    var tx := lib.fromHex(transaction).value;
    InputRecordsInOrder(tx.txIns, HexRequested(options), lib);
  }

  /**
   * The `out` array holds one record per script-bearing output, in output
   * order; each is that output's record, with `i` its index in the
   * transaction.
   */
  lemma DecodedOutputs(transaction: string, options: Options, lib: Library)
    requires Decode(transaction, options, lib).Ok?
    ensures lib.fromHex(transaction).Some?
    ensures var tx, hexFlag := lib.fromHex(transaction).value, HexRequested(options);
            var outs, order := Decode(transaction, options, lib).value["out"], Emitted(tx.txOuts, OutputSteps(hexFlag, lib));
      && outs.Arr? && |outs.items| == |order| <= |tx.txOuts|
      && (forall j, j' :: 0 <= j < j' < |order| ==> order[j] < order[j'])
      && (forall k :: 0 <= k < |tx.txOuts| ==> (k in order <==> tx.txOuts[k].script.Some?))
      && (forall j :: 0 <= j < |order| ==>
            && tx.txOuts[order[j]].script.Some?
            && OutputRecord(tx.txOuts[order[j]], order[j], hexFlag, lib).Ok?
            && outs.items[j] == Obj(OutputRecord(tx.txOuts[order[j]], order[j], hexFlag, lib).value)
            && outs.items[j].fields["i"] == Num(order[j]))
  {
    var tx := lib.fromHex(transaction).value;
    InputRecordsInOrder(tx.txIns, HexRequested(options), lib);
    OutputRecordsInOrder(tx.txOuts, HexRequested(options), lib);
  }

  // ---- fromHash ----

  /** One entry of a verbose answer's `vin`; `coinbase` is None where absent. */
  datatype VinEntry = VinEntry(coinbase: Option<string>)

  /**
   * The node's `result`: the raw hex and, in a verbose answer, the
   * `confirmations` and `vin` beside it (None where absent). A plain answer
   * is the hex alone, so only `hex` is read from it.
   */
  datatype RawTransaction = RawTransaction(hex: string, confirmations: Option<int>, vin: Option<seq<VinEntry>>)

  /** What the node's callback receives: an error, or the answer. */
  datatype Reply = Failure(message: string) | Answer(result: RawTransaction)

  /**
   * How fromHash's promise ends. It resolves with a summary or rejects with
   * the node's error. When fromTx rejects while the callback awaits it, the
   * callback throws and neither resolve nor reject is reached: the promise
   * never settles; `Unsettled` keeps the error thrown in the callback.
   */
  datatype Settlement = Resolved(summary: map<string, Value>) | Rejected(error: Error) | Unsettled(error: Error)

  /** The options fromHash passes to fromTx: the confirmations of a verbose answer, or none. */
  function FetchOptions(verbose: bool, res: RawTransaction): Options {
    if verbose then Options(res.confirmations, None) else NoOptions
  }

  /** The coinbase text a verbose answer contributes: one `vin` entry with a non-empty coinbase. */
  function CoinbaseMarker(vin: Option<seq<VinEntry>>): Option<string> {
    if vin.Some? && |vin.value| == 1 && vin.value[0].coinbase.Some? && vin.value[0].coinbase.value != ""
    then Some(vin.value[0].coinbase.value)
    else None
  }

  /** The summary with the raw hex stored under `tx.r`. */
  function WithRawHex(summary: map<string, Value>, hex: string): map<string, Value> {
    if "tx" in summary && summary["tx"].Obj?
    then summary["tx" := Obj(summary["tx"].fields["r" := Str(hex)])]
    else summary
  }

  /** How fromHash's promise ends, given the node's reply. */
  function Fetch(verbose: bool, reply: Reply, lib: Library): Settlement {
    match reply
    case Failure(message) => Rejected(Rpc(message))
    case Answer(res) =>
      match Decode(res.hex, FetchOptions(verbose, res), lib)
      case Err(e) => Unsettled(e)
      case Ok(summary) =>
        var patched := WithRawHex(summary, res.hex);
        var marker := CoinbaseMarker(res.vin);
        if verbose && marker.Some? then Resolved(patched["coinbase" := Str(marker.value)]) else Resolved(patched)
  }

  /** fromHash, from the point where the node's callback runs. */
  method FromHash(verbose: bool, reply: Reply, lib: Library) returns (s: Settlement)
    ensures s == Fetch(verbose, reply, lib)
  {
    if verbose {
      if reply.Failure? {
        return Rejected(Rpc(reply.message));
      }
      var transaction := reply.result;
      var decoded := FromTx(transaction.hex, Options(transaction.confirmations, None), lib);
      if decoded.Err? {
        return Unsettled(decoded.error);
      }
      var result := decoded.value;
      SummaryContents(transaction.hex, Options(transaction.confirmations, None), lib);
      result := result["tx" := Obj(result["tx"].fields["r" := Str(transaction.hex)])];
      var vin := transaction.vin;
      if vin.Some? && |vin.value| == 1 && vin.value[0].coinbase.Some? && vin.value[0].coinbase.value != "" {
        result := result["coinbase" := Str(vin.value[0].coinbase.value)];
      }
      return Resolved(result);
    } else {
      if reply.Failure? {
        return Rejected(Rpc(reply.message));
      }
      var transaction := reply.result;
      var decoded := FromTx(transaction.hex, NoOptions, lib);
      if decoded.Err? {
        return Unsettled(decoded.error);
      }
      var result := decoded.value;
      SummaryContents(transaction.hex, NoOptions, lib);
      result := result["tx" := Obj(result["tx"].fields["r" := Str(transaction.hex)])];
      return Resolved(result);
    }
  }

  /**
   * fromHash rejects exactly on a node error, never settles exactly when
   * fromTx rejects, and otherwise resolves with fromTx's summary where `tx`
   * also holds the raw hex under `r`, and `coinbase` is added exactly for a
   * verbose answer whose `vin` has a single entry with a non-empty coinbase.
   * Only a verbose answer can carry `confirmations`.
   */
  lemma FetchContents(verbose: bool, reply: Reply, lib: Library)
    ensures Fetch(verbose, reply, lib).Rejected? <==> reply.Failure?
    ensures reply.Failure? ==> Fetch(verbose, reply, lib) == Rejected(Rpc(reply.message))
    ensures Fetch(verbose, reply, lib).Unsettled? <==>
      reply.Answer? && Decode(reply.result.hex, FetchOptions(verbose, reply.result), lib).Err?
    ensures Fetch(verbose, reply, lib).Resolved? ==>
      var res, s := reply.result, Fetch(verbose, reply, lib).summary;
      && lib.fromHex(res.hex).Some?
      && Decode(res.hex, FetchOptions(verbose, res), lib).Ok?
      && var d := Decode(res.hex, FetchOptions(verbose, res), lib).value;
      && s["tx"] == Obj(map["h" := Str(lib.fromHex(res.hex).value.id), "r" := Str(res.hex)])
      && (forall key :: key in d && key != "tx" ==> key in s && s[key] == d[key])
      && ("coinbase" in s <==>
            verbose && res.vin.Some? && |res.vin.value| == 1 &&
            res.vin.value[0].coinbase.Some? && res.vin.value[0].coinbase.value != "")
      && ("coinbase" in s ==> s["coinbase"] == Str(res.vin.value[0].coinbase.value))
      && s.Keys == d.Keys + (if "coinbase" in s then {"coinbase"} else {})
      && ("confirmations" in s <==> verbose && res.confirmations.Some? && res.confirmations.value != 0)
      && ("confirmations" in s ==> s["confirmations"] == Num(res.confirmations.value))
  {
    if reply.Answer? && Decode(reply.result.hex, FetchOptions(verbose, reply.result), lib).Ok? {
      SummaryContents(reply.result.hex, FetchOptions(verbose, reply.result), lib);
    }
  }
}
