/**
 * The chunk-encoding rule of fromTx: every chunk of a script writes its
 * fields into the record under keys made of a prefix and the chunk's index.
 * A data chunk writes its Base64 text under a size-tiered key (`b`, `lb` or
 * `xlb`), on outputs also its UTF-8 text (`s`, `ls` or `xls`), and its hex
 * text under `h` when hex output is requested; any other chunk writes one
 * `b` field.
 */
module ChunkEncoding {
  import opened Encoding
  import opened Bsv
  import opened Json
  import Decimal

  /** Payloads of at least this many bytes go to the middle tier. */
  const LargeMin: nat := 512
  /** Payloads of at least this many bytes go to the top tier. */
  const ExtraLargeMin: nat := 1000000

  datatype Tier = Small | Large | ExtraLarge

  function TierOf(byteLength: nat): Tier {
    if byteLength >= ExtraLargeMin then ExtraLarge
    else if byteLength >= LargeMin && byteLength < ExtraLargeMin then Large
    else Small
  }

  function BinaryPrefix(t: Tier): string {
    match t
    case Small => "b"
    case Large => "lb"
    case ExtraLarge => "xlb"
  }

  function TextPrefix(t: Tier): string {
    match t
    case Small => "s"
    case Large => "ls"
    case ExtraLarge => "xls"
  }

  /** Whether a record also receives the UTF-8 text of its data chunks. */
  datatype Side = InputSide | OutputSide

  /** The field name of chunk `idx` under `prefix`. */
  function Key(prefix: string, idx: nat): string {
    prefix + Decimal.Show(idx)
  }

  /** Every prefix a chunk field can carry. */
  const Prefixes: set<string> := {"b", "lb", "xlb", "s", "ls", "xls", "h"}

  /** Every field name the chunk at index `idx` can write. */
  function ChunkKeys(idx: nat): set<string> {
    {Key("b", idx), Key("lb", idx), Key("xlb", idx), Key("s", idx), Key("ls", idx), Key("xls", idx), Key("h", idx)}
  }

  /** The fields chunk `c`, at index `idx` of its script, writes into its record. */
  function ChunkFields(c: Chunk, idx: nat, side: Side, hexFlag: bool, lib: Library): map<string, Value>
  {
    match c
    case Data(buf) =>
      var t := TierOf(|buf|);
      var binary := map[Key(BinaryPrefix(t), idx) := Str(Base64(buf))];
      var text := if side == OutputSide then map[Key(TextPrefix(t), idx) := Str(lib.utf8(buf))] else map[];
      var hex := if hexFlag then map[Key("h", idx) := Str(Hex(buf))] else map[];
      binary + text + hex
    case Op(n) => map[Key("b", idx) := Obj(map["op" := Num(n)])]
    case Raw => map[Key("b", idx) := ChunkObject(c)]
  }

  /** The fields of all chunks of a script, chunk 0 first. */
  function ScriptFields(chunks: Script, side: Side, hexFlag: bool, lib: Library): map<string, Value>
  {
    if |chunks| == 0 then map[]
    else ScriptFields(chunks[..|chunks| - 1], side, hexFlag, lib) + ChunkFields(chunks[|chunks| - 1], |chunks| - 1, side, hexFlag, lib)
  }

  lemma ScriptFieldsSnoc(chunks: Script, k: nat, side: Side, hexFlag: bool, lib: Library)
    requires k < |chunks|
    ensures ScriptFields(chunks[..k + 1], side, hexFlag, lib)
         == ScriptFields(chunks[..k], side, hexFlag, lib) + ChunkFields(chunks[k], k, side, hexFlag, lib)
  {
    assert chunks[..k + 1][..k] == chunks[..k];
  }

  lemma UnionAssociates<K, V>(a: map<K, V>, b: map<K, V>, c: map<K, V>)
    ensures (a + b) + c == a + (b + c)
  {
  }

  /**
   * Writes the fields of chunk `c`, at index `k`, into the record `xput`: the
   * body of the chunk loops of fromTx.
   */
  method EncodeChunk(xput: map<string, Value>, c: Chunk, k: nat, side: Side, hexFlag: bool, lib: Library)
    returns (r: map<string, Value>)
    ensures r == xput + ChunkFields(c, k, side, hexFlag, lib)
  {
    r := xput;
    if c.Data? {
      ghost var t := TierOf(|c.buf|);
      ghost var binary := map[Key(BinaryPrefix(t), k) := Str(Base64(c.buf))];
      ghost var text := if side == OutputSide then map[Key(TextPrefix(t), k) := Str(lib.utf8(c.buf))] else map[];
      ghost var hex := if hexFlag then map[Key("h", k) := Str(Hex(c.buf))] else map[];
      if |c.buf| >= ExtraLargeMin {
        r := r[Key("xlb", k) := Str(Base64(c.buf))];
        if side == OutputSide {
          r := r[Key("xls", k) := Str(lib.utf8(c.buf))];
        }
      } else if |c.buf| >= LargeMin && |c.buf| < ExtraLargeMin {
        r := r[Key("lb", k) := Str(Base64(c.buf))];
        if side == OutputSide {
          r := r[Key("ls", k) := Str(lib.utf8(c.buf))];
        }
      } else {
        r := r[Key("b", k) := Str(Base64(c.buf))];
        if side == OutputSide {
          r := r[Key("s", k) := Str(lib.utf8(c.buf))];
        }
      }
      assert r == xput + binary + text;
      ghost var tiered := r;
      if hexFlag {
        r := r[Key("h", k) := Str(Hex(c.buf))];
      }
      assert r == tiered + hex;
      assert ChunkFields(c, k, side, hexFlag, lib) == binary + text + hex;
      UnionAssociates(xput + binary, text, hex);
      UnionAssociates(xput, binary, text + hex);
      UnionAssociates(binary, text, hex);
    } else if c.Op? {
      r := r[Key("b", k) := Obj(map["op" := Num(c.opcodenum)])];
      assert r == xput + ChunkFields(c, k, side, hexFlag, lib);
    } else {
      r := r[Key("b", k) := ChunkObject(c)];
      assert r == xput + ChunkFields(c, k, side, hexFlag, lib);
    }
  }

  /**
   * Writes the fields of every chunk of `chunks` into the record `xput`, one
   * chunk at a time and in order, as the chunk loops of fromTx do.
   */
  method EncodeScript(xput: map<string, Value>, chunks: Script, side: Side, hexFlag: bool, lib: Library)
    returns (r: map<string, Value>)
    ensures r == xput + ScriptFields(chunks, side, hexFlag, lib)
  {
    r := xput;
    var k := 0;
    while k < |chunks|
      invariant 0 <= k <= |chunks|
      invariant r == xput + ScriptFields(chunks[..k], side, hexFlag, lib)
    {
      r := EncodeChunk(r, chunks[k], k, side, hexFlag, lib);
      ScriptFieldsSnoc(chunks, k, side, hexFlag, lib);
      UnionAssociates(xput, ScriptFields(chunks[..k], side, hexFlag, lib), ChunkFields(chunks[k], k, side, hexFlag, lib));
      k := k + 1;
    }
    assert chunks[..|chunks|] == chunks;
  }

  // ---- field names never collide ----

  predicate IsLetter(c: char) {
    'a' <= c <= 'z'
  }

  predicate AllLetters(s: string) {
    forall i :: 0 <= i < |s| ==> IsLetter(s[i])
  }

  /** The length of the run of letters `s` starts with. */
  function LetterRun(s: string): (n: nat)
    ensures n <= |s|
  {
    if |s| == 0 || !IsLetter(s[0]) then 0 else 1 + LetterRun(s[1..])
  }

  /** The letters a field name starts with. */
  function PrefixOf(key: string): string {
    key[..LetterRun(key)]
  }

  /** The chunk index a field name ends with, or -1 for a name without one. */
  function IndexOf(key: string): int {
    var n := LetterRun(key);
    if n < |key| && Decimal.AllDigits(key[n..]) then Decimal.Parse(key[n..]) else -1
  }

  lemma {:induction false} LetterRunOfWord(w: string)
    requires AllLetters(w)
    ensures LetterRun(w) == |w|
  {
    if |w| > 0 {
      LetterRunOfWord(w[1..]);
    }
  }

  lemma {:induction false} LetterRunOfKey(p: string, d: string)
    requires AllLetters(p) && Decimal.AllDigits(d) && |d| > 0
    ensures LetterRun(p + d) == |p|
  {
    if |p| == 0 {
      assert (p + d)[0] == d[0];
    } else {
      assert (p + d)[1..] == p[1..] + d;
      LetterRunOfKey(p[1..], d);
    }
  }

  /** A field name gives back the prefix and the chunk index it was made of. */
  lemma KeyParts(p: string, idx: nat)
    requires AllLetters(p)
    ensures PrefixOf(Key(p, idx)) == p && IndexOf(Key(p, idx)) == idx
  {
    var d := Decimal.Show(idx);
    LetterRunOfKey(p, d);
    assert Key(p, idx)[..|p|] == p;
    assert Key(p, idx)[|p|..] == d;
    Decimal.ParseShow(idx);
  }

  lemma PrefixesAreWords(p: string)
    requires p in Prefixes
    ensures AllLetters(p)
  {
  }

  /** A field name determines both its prefix and its chunk index. */
  lemma KeyInjective(p: string, i: nat, q: string, j: nat)
    requires p in Prefixes && q in Prefixes
    requires Key(p, i) == Key(q, j)
    ensures p == q && i == j
  {
    PrefixesAreWords(p);
    PrefixesAreWords(q);
    KeyParts(p, i);
    KeyParts(q, j);
  }

  /** Every field name of chunk k carries index k. */
  lemma ChunkKeyIndex(key: string, k: nat)
    requires key in ChunkKeys(k)
    ensures IndexOf(key) == k
  {
    KeyParts("b", k);
    KeyParts("lb", k);
    KeyParts("xlb", k);
    KeyParts("s", k);
    KeyParts("ls", k);
    KeyParts("xls", k);
    KeyParts("h", k);
  }

  /** A name made of letters only (`i`, `seq`, `e`) is never a chunk field. */
  lemma {:induction false} WordIsNoChunkKey(w: string, idx: nat)
    requires AllLetters(w)
    ensures w !in ChunkKeys(idx)
  {
    LetterRunOfWord(w);
    if w in ChunkKeys(idx) {
      ChunkKeyIndex(w, idx);
    }
  }

  /** Chunks at different indices have disjoint field names. */
  lemma ChunkKeysDisjoint(i: nat, j: nat)
    requires i != j
    ensures ChunkKeys(i) !! ChunkKeys(j)
  {
    forall key | key in ChunkKeys(i)
      ensures key !in ChunkKeys(j)
    {
      ChunkKeyIndex(key, i);
      if key in ChunkKeys(j) {
        ChunkKeyIndex(key, j);
      }
    }
  }

  /** A chunk writes only its own seven field names. */
  lemma ChunkFieldsKeys(c: Chunk, idx: nat, side: Side, hexFlag: bool, lib: Library)
    ensures ChunkFields(c, idx, side, hexFlag, lib).Keys <= ChunkKeys(idx)
  {
  }

  /** Every field of a script record belongs to one of its chunks. */
  lemma {:induction false} ScriptFieldsCovered(chunks: Script, side: Side, hexFlag: bool, lib: Library)
    ensures forall key :: key in ScriptFields(chunks, side, hexFlag, lib) ==>
      exists k :: 0 <= k < |chunks| && key in ChunkFields(chunks[k], k, side, hexFlag, lib)
  {
    if |chunks| > 0 {
      var init := chunks[..|chunks| - 1];
      ScriptFieldsCovered(init, side, hexFlag, lib);
      forall key | key in ScriptFields(chunks, side, hexFlag, lib)
        ensures exists k :: 0 <= k < |chunks| && key in ChunkFields(chunks[k], k, side, hexFlag, lib)
      {
        if key !in ChunkFields(chunks[|chunks| - 1], |chunks| - 1, side, hexFlag, lib) {
          assert key in ScriptFields(init, side, hexFlag, lib);
          var k :| 0 <= k < |init| && key in ChunkFields(init[k], k, side, hexFlag, lib);
          assert init[k] == chunks[k];
        }
      }
    }
  }

  /** A record name made of letters only is never written by a script's chunks. */
  lemma WordNotInScript(w: string, chunks: Script, side: Side, hexFlag: bool, lib: Library)
    requires AllLetters(w)
    ensures w !in ScriptFields(chunks, side, hexFlag, lib)
  {
    ScriptFieldsCovered(chunks, side, hexFlag, lib);
    if w in ScriptFields(chunks, side, hexFlag, lib) {
      var k :| 0 <= k < |chunks| && w in ChunkFields(chunks[k], k, side, hexFlag, lib);
      ChunkFieldsKeys(chunks[k], k, side, hexFlag, lib);
      WordIsNoChunkKey(w, k);
    }
  }

  /** No chunk overwrites another chunk's field: each chunk's fields survive intact. */
  lemma {:induction false} ChunkFieldsSurvive(chunks: Script, k: nat, side: Side, hexFlag: bool, lib: Library)
    requires k < |chunks|
    ensures forall key :: key in ChunkFields(chunks[k], k, side, hexFlag, lib) ==>
      key in ScriptFields(chunks, side, hexFlag, lib)
      && ScriptFields(chunks, side, hexFlag, lib)[key] == ChunkFields(chunks[k], k, side, hexFlag, lib)[key]
  {
    var last := |chunks| - 1;
    var init := chunks[..last];
    if k < last {
      assert init[k] == chunks[k];
      ChunkFieldsSurvive(init, k, side, hexFlag, lib);
      ChunkFieldsKeys(chunks[k], k, side, hexFlag, lib);
      ChunkFieldsKeys(chunks[last], last, side, hexFlag, lib);
      ChunkKeysDisjoint(k, last);
    }
  }

  /** A field of a script record named for chunk j was written by chunk j. */
  lemma ScriptKeyOwner(chunks: Script, p: string, j: nat, side: Side, hexFlag: bool, lib: Library)
    requires p in Prefixes && Key(p, j) in ScriptFields(chunks, side, hexFlag, lib)
    ensures j < |chunks| && Key(p, j) in ChunkFields(chunks[j], j, side, hexFlag, lib)
  {
    var key := Key(p, j);
    ScriptFieldsCovered(chunks, side, hexFlag, lib);
    var k :| 0 <= k < |chunks| && key in ChunkFields(chunks[k], k, side, hexFlag, lib);
    ChunkFieldsKeys(chunks[k], k, side, hexFlag, lib);
    ChunkKeyIndex(key, k);
    PrefixesAreWords(p);
    KeyParts(p, j);
  }

  /** A prefix's fields of a script record are exactly that prefix's fields of each chunk. */
  lemma ScriptFieldAt(chunks: Script, p: string, j: nat, side: Side, hexFlag: bool, lib: Library)
    requires p in Prefixes
    ensures Key(p, j) in ScriptFields(chunks, side, hexFlag, lib) <==>
      j < |chunks| && Key(p, j) in ChunkFields(chunks[j], j, side, hexFlag, lib)
    ensures Key(p, j) in ScriptFields(chunks, side, hexFlag, lib) ==>
      ScriptFields(chunks, side, hexFlag, lib)[Key(p, j)] == ChunkFields(chunks[j], j, side, hexFlag, lib)[Key(p, j)]
  {
    if Key(p, j) in ScriptFields(chunks, side, hexFlag, lib) {
      ScriptKeyOwner(chunks, p, j, side, hexFlag, lib);
    }
    if j < |chunks| {
      ChunkFieldsSurvive(chunks, j, side, hexFlag, lib);
    }
  }

  /** The seven field names of one chunk are pairwise distinct. */
  lemma DistinctKeys(idx: nat)
    ensures Key("b", idx) != Key("lb", idx)
    ensures Key("b", idx) != Key("xlb", idx)
    ensures Key("b", idx) != Key("s", idx)
    ensures Key("b", idx) != Key("ls", idx)
    ensures Key("b", idx) != Key("xls", idx)
    ensures Key("b", idx) != Key("h", idx)
    ensures Key("lb", idx) != Key("xlb", idx)
    ensures Key("lb", idx) != Key("s", idx)
    ensures Key("lb", idx) != Key("ls", idx)
    ensures Key("lb", idx) != Key("xls", idx)
    ensures Key("lb", idx) != Key("h", idx)
    ensures Key("xlb", idx) != Key("s", idx)
    ensures Key("xlb", idx) != Key("ls", idx)
    ensures Key("xlb", idx) != Key("xls", idx)
    ensures Key("xlb", idx) != Key("h", idx)
    ensures Key("s", idx) != Key("ls", idx)
    ensures Key("s", idx) != Key("xls", idx)
    ensures Key("s", idx) != Key("h", idx)
    ensures Key("ls", idx) != Key("xls", idx)
    ensures Key("ls", idx) != Key("h", idx)
    ensures Key("xls", idx) != Key("h", idx)
  {
    KeyParts("b", idx);
    KeyParts("lb", idx);
    KeyParts("xlb", idx);
    KeyParts("s", idx);
    KeyParts("ls", idx);
    KeyParts("xls", idx);
    KeyParts("h", idx);
  }

  /**
   * A data chunk writes exactly one Base64 field, under the tier its byte
   * length selects (each tier's lower bound inclusive); an output's data
   * chunk also writes the matching UTF-8 field and an input's writes none;
   * the hex field is written exactly when requested.
   */
  lemma DataChunkTier(buf: Bytes, idx: nat, side: Side, hexFlag: bool, lib: Library)
    ensures var m := ChunkFields(Data(buf), idx, side, hexFlag, lib);
      && (Key("xlb", idx) in m <==> |buf| >= 1000000)
      && (Key("lb", idx) in m <==> 512 <= |buf| < 1000000)
      && (Key("b", idx) in m <==> |buf| < 512)
      && (Key("xls", idx) in m <==> side == OutputSide && |buf| >= 1000000)
      && (Key("ls", idx) in m <==> side == OutputSide && 512 <= |buf| < 1000000)
      && (Key("s", idx) in m <==> side == OutputSide && |buf| < 512)
      && (Key("h", idx) in m <==> hexFlag)
  {
    DistinctKeys(idx);
  }

  /**
   * The values a data chunk writes: its Base64 text under the `b` family,
   * its UTF-8 text under the `s` family, its hex text under `h`.
   */
  lemma DataChunkValues(buf: Bytes, idx: nat, side: Side, hexFlag: bool, lib: Library)
    ensures var m := ChunkFields(Data(buf), idx, side, hexFlag, lib);
      && (forall p :: p in {"b", "lb", "xlb"} && Key(p, idx) in m ==> m[Key(p, idx)] == Str(Base64(buf)))
      && (forall p :: p in {"s", "ls", "xls"} && Key(p, idx) in m ==> m[Key(p, idx)] == Str(lib.utf8(buf)))
      && (Key("h", idx) in m ==> m[Key("h", idx)] == Str(Hex(buf)))
  {
    DistinctKeys(idx);
  }

  /**
   * A chunk without payload writes only its `b` field: `{op: n}` for an
   * opcode, the chunk object itself otherwise; so it never has a hex field.
   */
  lemma NonDataChunkFields(c: Chunk, idx: nat, side: Side, hexFlag: bool, lib: Library)
    requires !c.Data?
    ensures var m := ChunkFields(c, idx, side, hexFlag, lib);
      && m.Keys == {Key("b", idx)}
      && m[Key("b", idx)] == (if c.Op? then Obj(map["op" := Num(c.opcodenum)]) else ChunkObject(c))
      && Key("h", idx) !in m
  {
    DistinctKeys(idx);
  }

  /** A script record has a hex field for chunk j exactly when hex is requested and chunk j is data. */
  lemma ScriptHexFields(chunks: Script, j: nat, side: Side, hexFlag: bool, lib: Library)
    ensures var m := ScriptFields(chunks, side, hexFlag, lib);
      && (Key("h", j) in m <==> hexFlag && j < |chunks| && chunks[j].Data?)
      && (Key("h", j) in m ==> m[Key("h", j)] == Str(Hex(chunks[j].buf)))
  {
    ScriptFieldAt(chunks, "h", j, side, hexFlag, lib);
    if j < |chunks| {
      if chunks[j].Data? {
        DataChunkTier(chunks[j].buf, j, side, hexFlag, lib);
        DataChunkValues(chunks[j].buf, j, side, hexFlag, lib);
      } else {
        NonDataChunkFields(chunks[j], j, side, hexFlag, lib);
      }
    }
  }

  /** An input's record never receives a UTF-8 field. */
  lemma InputScriptHasNoText(chunks: Script, j: nat, hexFlag: bool, lib: Library)
    ensures var m := ScriptFields(chunks, InputSide, hexFlag, lib);
      Key("s", j) !in m && Key("ls", j) !in m && Key("xls", j) !in m
  {
    ScriptFieldAt(chunks, "s", j, InputSide, hexFlag, lib);
    ScriptFieldAt(chunks, "ls", j, InputSide, hexFlag, lib);
    ScriptFieldAt(chunks, "xls", j, InputSide, hexFlag, lib);
    if j < |chunks| {
      if chunks[j].Data? {
        DataChunkTier(chunks[j].buf, j, InputSide, hexFlag, lib);
      } else {
        NonDataChunkFields(chunks[j], j, InputSide, hexFlag, lib);
        DistinctKeys(j);
      }
    }
  }
}
