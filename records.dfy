/**
 * The per-input and per-output records of fromTx, their sender and receiver
 * descriptors, and the two loops that collect the records of the
 * script-bearing entries in their original order.
 */
module Records {
  import opened Wrappers
  import opened Encoding
  import opened Bsv
  import opened Json
  import opened ChunkEncoding

  // ---- descriptors ----

  /**
   * The library's answer for the address of a script: None when the
   * recogniser rejects it (the source's `false`), otherwise the text the
   * deriver produces from the payload of chunk `at`, possibly empty.
   */
  function DerivedAddress(recognised: bool, chunks: Script, at: nat, derive: Option<Bytes> -> Option<string>)
    : Result<Option<string>, Error>
  {
    if !recognised then Ok(None)
    else if |chunks| <= at then Err(NoSuchChunk(at))
    else match derive(Payload(chunks[at]))
      case None => Err(AddressFailure)
      case Some(a) => Ok(Some(a))
  }

  /** P2PKH unlocking scripts carry the public key in chunk 1. */
  function SenderAddress(chunks: Script, lib: Library): Result<Option<string>, Error> {
    DerivedAddress(lib.isPubKeyHashIn(chunks), chunks, 1, lib.addressFromPubKey)
  }

  /** P2PKH locking scripts carry the public-key hash in chunk 2. */
  function ReceiverAddress(chunks: Script, lib: Library): Result<Option<string>, Error> {
    DerivedAddress(lib.isPubKeyHashOut(chunks), chunks, 2, lib.addressFromPubKeyHash)
  }

  /** Adds the address under `a` only when there is one and it is not empty. */
  function WithAddress(d: map<string, Value>, address: Option<string>): map<string, Value> {
    if address.Some? && |address.value| > 0 then d["a" := Str(address.value)] else d
  }

  function SenderDescriptor(input: TxIn, address: Option<string>): map<string, Value> {
    WithAddress(map["h" := Str(Hex(Reverse(input.txHashBuf))), "i" := Num(input.txOutNum)], address)
  }

  function ReceiverDescriptor(output: TxOut, index: nat, address: Option<string>): map<string, Value> {
    WithAddress(map["v" := Num(output.satoshis), "i" := Num(index)], address)
  }

  // ---- records ----

  /** The record of the script-bearing input at `index`; Err when its address derivation throws. */
  function InputRecord(input: TxIn, index: nat, hexFlag: bool, lib: Library): Result<map<string, Value>, Error>
    requires input.script.Some?
  {
    var chunks := input.script.value;
    match SenderAddress(chunks, lib)
    case Err(e) => Err(e)
    case Ok(address) =>
      var xput := map["i" := Num(index), "seq" := Num(input.sequenceNumber)] + ScriptFields(chunks, InputSide, hexFlag, lib);
      Ok(xput["e" := Obj(SenderDescriptor(input, address))])
  }

  /** The record of the script-bearing output at `index`; Err when its address derivation throws. */
  function OutputRecord(output: TxOut, index: nat, hexFlag: bool, lib: Library): Result<map<string, Value>, Error>
    requires output.script.Some?
  {
    var chunks := output.script.value;
    match ReceiverAddress(chunks, lib)
    case Err(e) => Err(e)
    case Ok(address) =>
      var xput := map["i" := Num(index)] + ScriptFields(chunks, OutputSide, hexFlag, lib);
      Ok(xput["e" := Obj(ReceiverDescriptor(output, index, address))])
  }

  /** Builds the record of one script-bearing input, as the input loop's body does. */
  method BuildInput(input: TxIn, index: nat, hexFlag: bool, lib: Library) returns (r: Result<map<string, Value>, Error>)
    requires input.script.Some?
    ensures r == InputRecord(input, index, hexFlag, lib)
  {
    var chunks := input.script.value;
    var xput := map["i" := Num(index), "seq" := Num(input.sequenceNumber)];
    xput := EncodeScript(xput, chunks, InputSide, hexFlag, lib);
    var sender := map["h" := Str(Hex(Reverse(input.txHashBuf))), "i" := Num(input.txOutNum)];
    var address := SenderAddress(chunks, lib);
    if address.Err? {
      return Err(address.error);
    }
    if address.value.Some? && |address.value.value| > 0 {
      sender := sender["a" := Str(address.value.value)];
    }
    xput := xput["e" := Obj(sender)];
    r := Ok(xput);
  }

  /** Builds the record of one script-bearing output, as the output loop's body does. */
  method BuildOutput(output: TxOut, index: nat, hexFlag: bool, lib: Library) returns (r: Result<map<string, Value>, Error>)
    requires output.script.Some?
    ensures r == OutputRecord(output, index, hexFlag, lib)
  {
    var chunks := output.script.value;
    var xput := map["i" := Num(index)];
    xput := EncodeScript(xput, chunks, OutputSide, hexFlag, lib);
    var receiver := map["v" := Num(output.satoshis), "i" := Num(index)];
    var address := ReceiverAddress(chunks, lib);
    if address.Err? {
      return Err(address.error);
    }
    if address.value.Some? && |address.value.value| > 0 {
      receiver := receiver["a" := Str(address.value.value)];
    }
    xput := xput["e" := Obj(receiver)];
    r := Ok(xput);
  }

  // ---- what a record holds ----

  /**
   * An input's record holds `i` (its index), `seq`, `e` and its chunks'
   * fields, and nothing else; no chunk field replaces `i`, `seq` or `e`.
   */
  lemma InputRecordFields(input: TxIn, index: nat, hexFlag: bool, lib: Library)
    requires input.script.Some? && InputRecord(input, index, hexFlag, lib).Ok?
    ensures var rec := InputRecord(input, index, hexFlag, lib).value;
            var fields := ScriptFields(input.script.value, InputSide, hexFlag, lib);
      && rec.Keys == {"i", "seq", "e"} + fields.Keys
      && rec["i"] == Num(index)
      && rec["seq"] == Num(input.sequenceNumber)
      && (forall key :: key in fields ==> rec[key] == fields[key])
  {
    var chunks := input.script.value;
    WordNotInScript("i", chunks, InputSide, hexFlag, lib);
    WordNotInScript("seq", chunks, InputSide, hexFlag, lib);
    WordNotInScript("e", chunks, InputSide, hexFlag, lib);
  }

  /**
   * An output's record holds `i` (its index), `e` and its chunks' fields,
   * and nothing else; no chunk field replaces `i` or `e`.
   */
  lemma OutputRecordFields(output: TxOut, index: nat, hexFlag: bool, lib: Library)
    requires output.script.Some? && OutputRecord(output, index, hexFlag, lib).Ok?
    ensures var rec := OutputRecord(output, index, hexFlag, lib).value;
            var fields := ScriptFields(output.script.value, OutputSide, hexFlag, lib);
      && rec.Keys == {"i", "e"} + fields.Keys
      && rec["i"] == Num(index)
      && (forall key :: key in fields ==> rec[key] == fields[key])
  {
    var chunks := output.script.value;
    WordNotInScript("i", chunks, OutputSide, hexFlag, lib);
    WordNotInScript("e", chunks, OutputSide, hexFlag, lib);
  }

  /**
   * The sender descriptor: the previous transaction's hash in reversed byte
   * order as hex, the previous output index, and `a` exactly when the
   * unlocking script is recognised and the derived address is not empty.
   * The record fails exactly when a recognised script's address cannot be
   * derived: its chunk 1 is missing or the derivation throws.
   */
  lemma SenderDescriptorContents(input: TxIn, index: nat, hexFlag: bool, lib: Library)
    requires input.script.Some?
    ensures var chunks := input.script.value;
      InputRecord(input, index, hexFlag, lib).Err? <==>
        lib.isPubKeyHashIn(chunks) && (|chunks| < 2 || lib.addressFromPubKey(Payload(chunks[1])).None?)
    ensures InputRecord(input, index, hexFlag, lib).Err? ==>
      InputRecord(input, index, hexFlag, lib).error ==
        if |input.script.value| < 2 then NoSuchChunk(1) else AddressFailure
    ensures InputRecord(input, index, hexFlag, lib).Ok? ==>
      var chunks := input.script.value;
      var e := InputRecord(input, index, hexFlag, lib).value["e"];
      && e.Obj?
      && e.fields.Keys <= {"h", "i", "a"}
      && e.fields["h"] == Str(Hex(Reverse(input.txHashBuf)))
      && e.fields["i"] == Num(input.txOutNum)
      && ("a" in e.fields <==>
            lib.isPubKeyHashIn(chunks) && |chunks| > 1 && lib.addressFromPubKey(Payload(chunks[1])).Some?
            && |lib.addressFromPubKey(Payload(chunks[1])).value| > 0)
      && ("a" in e.fields ==> e.fields["a"] == Str(lib.addressFromPubKey(Payload(chunks[1])).value))
  {
  }

  /**
   * The receiver descriptor: the satoshi amount, the output's own index,
   * and `a` exactly when the locking script is recognised and the derived
   * address is not empty. The record fails exactly when a recognised
   * script's address cannot be derived: its chunk 2 is missing or the
   * derivation throws.
   */
  lemma ReceiverDescriptorContents(output: TxOut, index: nat, hexFlag: bool, lib: Library)
    requires output.script.Some?
    ensures var chunks := output.script.value;
      OutputRecord(output, index, hexFlag, lib).Err? <==>
        lib.isPubKeyHashOut(chunks) && (|chunks| < 3 || lib.addressFromPubKeyHash(Payload(chunks[2])).None?)
    ensures OutputRecord(output, index, hexFlag, lib).Err? ==>
      OutputRecord(output, index, hexFlag, lib).error ==
        if |output.script.value| < 3 then NoSuchChunk(2) else AddressFailure
    ensures OutputRecord(output, index, hexFlag, lib).Ok? ==>
      var chunks := output.script.value;
      var e := OutputRecord(output, index, hexFlag, lib).value["e"];
      && e.Obj?
      && e.fields.Keys <= {"v", "i", "a"}
      && e.fields["v"] == Num(output.satoshis)
      && e.fields["i"] == Num(index)
      && ("a" in e.fields <==>
            lib.isPubKeyHashOut(chunks) && |chunks| > 2 && lib.addressFromPubKeyHash(Payload(chunks[2])).Some?
            && |lib.addressFromPubKeyHash(Payload(chunks[2])).value| > 0)
      && ("a" in e.fields ==> e.fields["a"] == Str(lib.addressFromPubKeyHash(Payload(chunks[2])).value))
  {
  }

  // ---- collecting the records in order ----

  /** What the loop body does with one entry: skip it, push a record, or throw. */
  datatype Step = Skip | Emit(record: Value) | Fail(error: Error)

  /** The records pushed by a loop over `xs`, or the first error thrown. */
  function Collect<X>(xs: seq<X>, step: (X, nat) -> Step): Result<seq<Value>, Error>
  {
    if |xs| == 0 then Ok([])
    else match Collect(xs[..|xs| - 1], step)
      case Err(e) => Err(e)
      case Ok(rs) =>
        match step(xs[|xs| - 1], |xs| - 1)
        case Skip => Ok(rs)
        case Emit(rec) => Ok(rs + [rec])
        case Fail(e) => Err(e)
  }

  /** The indices of the entries that push a record, in loop order. */
  function Emitted<X>(xs: seq<X>, step: (X, nat) -> Step): (r: seq<nat>)
    ensures |r| <= |xs|
    ensures forall j :: 0 <= j < |r| ==> r[j] < |xs|
  {
    if |xs| == 0 then []
    else Emitted(xs[..|xs| - 1], step) + (if step(xs[|xs| - 1], |xs| - 1).Emit? then [|xs| - 1] else [])
  }

  /** The emitted indices increase strictly and are exactly the entries that emit. */
  lemma {:induction false} EmittedIndices<X>(xs: seq<X>, step: (X, nat) -> Step)
    ensures var r := Emitted(xs, step);
      && (forall j, j' :: 0 <= j < j' < |r| ==> r[j] < r[j'])
      && (forall k :: 0 <= k < |xs| ==> (k in r <==> step(xs[k], k).Emit?))
  {
    if |xs| > 0 {
      var init := xs[..|xs| - 1];
      EmittedIndices(init, step);
      assert forall k :: 0 <= k < |init| ==> init[k] == xs[k];
    }
  }

  /**
   * The loop pushes exactly one record per emitting entry, in order, and
   * finishes exactly when no entry throws.
   */
  lemma {:induction false} CollectRecords<X>(xs: seq<X>, step: (X, nat) -> Step)
    ensures Collect(xs, step).Ok? <==> forall k :: 0 <= k < |xs| ==> !step(xs[k], k).Fail?
    ensures Collect(xs, step).Ok? ==>
      var rs, order := Collect(xs, step).value, Emitted(xs, step);
      && |rs| == |order|
      && forall j :: 0 <= j < |rs| ==> step(xs[order[j]], order[j]) == Emit(rs[j])
  {
    if |xs| > 0 {
      var init := xs[..|xs| - 1];
      CollectRecords(init, step);
      assert forall k :: 0 <= k < |init| ==> init[k] == xs[k];
    }
  }

  /** Once the loop has thrown, the rest of the entries are not visited. */
  lemma {:induction false} CollectStopsAtError<X>(xs: seq<X>, n: nat, step: (X, nat) -> Step, e: Error)
    requires n <= |xs| && Collect(xs[..n], step) == Err(e)
    ensures Collect(xs, step) == Err(e)
    decreases |xs| - n
  {
    if n < |xs| {
      var k := |xs| - 1;
      assert xs[..k][..n] == xs[..n];
      CollectStopsAtError(xs[..k], n, step, e);
    } else {
      assert xs[..n] == xs;
    }
  }

  /** A loop that throws, throws the error of its first failing entry. */
  lemma {:induction false} CollectFirstFailure<X>(xs: seq<X>, step: (X, nat) -> Step)
    requires Collect(xs, step).Err?
    ensures exists k ::
      && 0 <= k < |xs|
      && step(xs[k], k) == Fail(Collect(xs, step).error)
      && forall k' :: 0 <= k' < k ==> !step(xs[k'], k').Fail?
  {
    var init := xs[..|xs| - 1];
    assert forall k :: 0 <= k < |init| ==> init[k] == xs[k];
    if Collect(init, step).Err? {
      CollectFirstFailure(init, step);
      var k :|
        && 0 <= k < |init|
        && step(init[k], k) == Fail(Collect(init, step).error)
        && forall k' :: 0 <= k' < k ==> !step(init[k'], k').Fail?;
      assert step(xs[k], k) == Fail(Collect(xs, step).error);
    } else {
      CollectRecords(init, step);
      var k := |xs| - 1;
      assert step(xs[k], k) == Fail(Collect(xs, step).error);
    }
  }

  lemma CollectStep<X>(xs: seq<X>, k: nat, step: (X, nat) -> Step)
    requires k < |xs|
    ensures Collect(xs[..k + 1], step) ==
      match Collect(xs[..k], step)
      case Err(e) => Err(e)
      case Ok(rs) =>
        match step(xs[k], k)
        case Skip => Ok(rs)
        case Emit(rec) => Ok(rs + [rec])
        case Fail(e) => Err(e)
  {
    assert xs[..k + 1][..k] == xs[..k];
  }

  // ---- the input and output loops ----

  function InputStep(input: TxIn, index: nat, hexFlag: bool, lib: Library): Step {
    if input.script.None? then Skip
    else match InputRecord(input, index, hexFlag, lib)
      case Ok(rec) => Emit(Obj(rec))
      case Err(e) => Fail(e)
  }

  function OutputStep(output: TxOut, index: nat, hexFlag: bool, lib: Library): Step {
    if output.script.None? then Skip
    else match OutputRecord(output, index, hexFlag, lib)
      case Ok(rec) => Emit(Obj(rec))
      case Err(e) => Fail(e)
  }

  function InputSteps(hexFlag: bool, lib: Library): (TxIn, nat) -> Step {
    (input: TxIn, index: nat) => InputStep(input, index, hexFlag, lib)
  }

  function OutputSteps(hexFlag: bool, lib: Library): (TxOut, nat) -> Step {
    (output: TxOut, index: nat) => OutputStep(output, index, hexFlag, lib)
  }

  /**
   * The input loop finishes exactly when every script-bearing input's record
   * can be built; its records are those of the script-bearing inputs, in
   * their original order, each with `i` equal to the input's index.
   */
  lemma InputRecordsInOrder(ins: seq<TxIn>, hexFlag: bool, lib: Library)
    ensures Collect(ins, InputSteps(hexFlag, lib)).Ok? <==>
      forall k :: 0 <= k < |ins| && ins[k].script.Some? ==> InputRecord(ins[k], k, hexFlag, lib).Ok?
    ensures Collect(ins, InputSteps(hexFlag, lib)).Ok? ==>
      var rs, order := Collect(ins, InputSteps(hexFlag, lib)).value, Emitted(ins, InputSteps(hexFlag, lib));
      && |rs| == |order| <= |ins|
      && (forall j, j' :: 0 <= j < j' < |order| ==> order[j] < order[j'])
      && (forall k :: 0 <= k < |ins| ==> (k in order <==> ins[k].script.Some?))
      && (forall j :: 0 <= j < |rs| ==>
            && ins[order[j]].script.Some?
            && InputRecord(ins[order[j]], order[j], hexFlag, lib).Ok?
            && rs[j] == Obj(InputRecord(ins[order[j]], order[j], hexFlag, lib).value)
            && rs[j].fields["i"] == Num(order[j]))
  {
    var step := InputSteps(hexFlag, lib);
    CollectRecords(ins, step);
    EmittedIndices(ins, step);
    if Collect(ins, step).Ok? {
      var rs, order := Collect(ins, step).value, Emitted(ins, step);
      forall j | 0 <= j < |rs|
        ensures rs[j].Obj? && "i" in rs[j].fields && rs[j].fields["i"] == Num(order[j])
      {
        InputRecordFields(ins[order[j]], order[j], hexFlag, lib);
      }
    }
  }

  /**
   * The output loop finishes exactly when every script-bearing output's
   * record can be built; its records are those of the script-bearing
   * outputs, in their original order, each with `i` equal to the output's
   * index.
   */
  lemma OutputRecordsInOrder(outs: seq<TxOut>, hexFlag: bool, lib: Library)
    ensures Collect(outs, OutputSteps(hexFlag, lib)).Ok? <==>
      forall k :: 0 <= k < |outs| && outs[k].script.Some? ==> OutputRecord(outs[k], k, hexFlag, lib).Ok?
    ensures Collect(outs, OutputSteps(hexFlag, lib)).Ok? ==>
      var rs, order := Collect(outs, OutputSteps(hexFlag, lib)).value, Emitted(outs, OutputSteps(hexFlag, lib));
      && |rs| == |order| <= |outs|
      && (forall j, j' :: 0 <= j < j' < |order| ==> order[j] < order[j'])
      && (forall k :: 0 <= k < |outs| ==> (k in order <==> outs[k].script.Some?))
      && (forall j :: 0 <= j < |rs| ==>
            && outs[order[j]].script.Some?
            && OutputRecord(outs[order[j]], order[j], hexFlag, lib).Ok?
            && rs[j] == Obj(OutputRecord(outs[order[j]], order[j], hexFlag, lib).value)
            && rs[j].fields["i"] == Num(order[j]))
  {
    var step := OutputSteps(hexFlag, lib);
    CollectRecords(outs, step);
    EmittedIndices(outs, step);
    if Collect(outs, step).Ok? {
      var rs, order := Collect(outs, step).value, Emitted(outs, step);
      forall j | 0 <= j < |rs|
        ensures rs[j].Obj? && "i" in rs[j].fields && rs[j].fields["i"] == Num(order[j])
      {
        OutputRecordFields(outs[order[j]], order[j], hexFlag, lib);
      }
    }
  }
}
