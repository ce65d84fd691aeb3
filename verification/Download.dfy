/** Whole downloads: what memory holds, word by word, once the payload is decoded. */
module Download {
  import opened Bits
  import opened Deflate
  import opened DeflateProofs
  import opened Machine
  import opened Memory
  import opened Outform
  import opened Payload
  import opened StreamBits
  import Crc32

  /** A payload that encodes a list of token blocks, with anything after the last one. */
  ghost predicate Encodes(comp: seq<byte>, blocks: seq<seq<Token>>, pad: seq<bool>) {
    blocks != [] && StreamBits.Of(comp) == EncodeBlocks(blocks) + pad && InHistory(Concat(blocks), [])
  }

  lemma EncodedDecodes(comp: seq<byte>, blocks: seq<seq<Token>>, pad: seq<bool>, limit: nat)
    requires Encodes(comp, blocks, pad) && 0 < limit == |Expand(Concat(blocks), [])|
    ensures Reference(METHOD_DEFLATE, comp, [], limit) == Done(Expand(Concat(blocks), []))
  {
    StreamRoundTrip(blocks, pad, [], limit);
  }

  /** For every stream of fixed-Huffman blocks whose expansion fills the region, the engine
      reaches its checksum comparison with exactly that expansion in memory, every word
      written once and in order, and no other word changed. */
  method InflateStream(mem: Dmem, compSize: Word, totalWords: nat, baseReg: Word, rx: seq<Rx>,
                       ghost blocks: seq<seq<Token>>, ghost pad: seq<bool>)
    returns (engine: ChurchOutform)
    requires 1 <= totalWords <= 0x4000
    requires baseReg % 4 == 0 && baseReg / 4 + totalWords <= mem.cells.Length <= 0x4000_0000
    requires compSize <= |Data(rx)| && Encodes(Data(rx)[..compSize], blocks, pad)
    requires |Expand(Concat(blocks), [])| == 4 * totalWords
    modifies mem.cells, mem`log
    ensures engine.state == CHECK_CRC32 && engine.w.out == Expand(Concat(blocks), [])
    ensures mem.cells[..] == Unpack(old(mem.cells[..]), baseReg / 4, engine.w.out, totalWords)
    ensures |engine.w.out| == 4 * totalWords
    ensures mem.log == old(mem.log) + Stores(baseReg / 4, engine.w.out, totalWords)
    ensures engine.w.crcAcc == Crc32.TableUpdate(Crc32.INIT, engine.w.out)
  {
    engine := new ChurchOutform(mem, METHOD_DEFLATE, compSize, totalWords, baseReg, rx);
    EncodedDecodes(Data(rx)[..compSize], blocks, pad, 4 * totalWords);
    engine.Run();
    Crc32.StagesAreTable(Crc32.INIT, engine.w.out);
  }

  // ---- run-length payloads

  datatype Run = Run(count: byte, literal: byte)

  function Copies(n: nat, v: byte): seq<byte> {
    seq(n, i => v)
  }

  function EncodeRuns(runs: seq<Run>): seq<byte> {
    if runs == [] then [] else [runs[0].count, runs[0].literal] + EncodeRuns(runs[1..])
  }

  function ExpandRuns(runs: seq<Run>, out: seq<byte>): seq<byte> {
    if runs == [] then out else ExpandRuns(runs[1..], out + Copies(runs[0].count, runs[0].literal))
  }

  lemma {:induction false} FillIsRun(out: seq<byte>, n: nat, v: byte, limit: nat)
    requires |out| + n <= limit
    ensures Fill(out, n, v, limit) == out + Copies(n, v)
    decreases n
  {
    if n > 0 {
      FillIsRun(out + [v], n - 1, v, limit);
      assert out + [v] + Copies(n - 1, v) == out + Copies(n, v);
    }
  }

  lemma {:induction false} ExpandRunsGrows(runs: seq<Run>, out: seq<byte>)
    ensures |ExpandRuns(runs, out)| >= |out|
  {
    if runs != [] {
      ExpandRunsGrows(runs[1..], out + Copies(runs[0].count, runs[0].literal));
    }
  }

  /** Every list of runs that fills the region decodes to its expansion. */
  lemma {:induction false} RunsRoundTrip(runs: seq<Run>, out: seq<byte>, limit: nat)
    requires |out| < limit == |ExpandRuns(runs, out)|
    ensures Runs(EncodeRuns(runs), out, limit) == Done(ExpandRuns(runs, out))
  {
    if runs != [] {
      var n, v, p := runs[0].count, runs[0].literal, EncodeRuns(runs);
      var out' := out + Copies(n, v);
      assert p[0] == n && p[1..][0] == v && p[1..][1..] == EncodeRuns(runs[1..]);
      ExpandRunsGrows(runs[1..], out');
      FillIsRun(out, n, v, limit);
      if n == 0 {
        assert out' == out;
      }
      assert Runs(p, out, limit) == RunLiteral(n, p[1..], out, limit);
      assert n > 0 ==> RunLiteral(n, p[1..], out, limit) == AfterRun(EncodeRuns(runs[1..]), out', limit);
      if |out'| < limit {
        RunsRoundTrip(runs[1..], out', limit);
      } else {
        FullExpansion(runs[1..], out');
      }
    }
  }

  lemma {:induction false} FullExpansion(runs: seq<Run>, out: seq<byte>)
    requires |ExpandRuns(runs, out)| == |out|
    ensures ExpandRuns(runs, out) == out
  {
    if runs != [] {
      var out' := out + Copies(runs[0].count, runs[0].literal);
      ExpandRunsGrows(runs[1..], out');
      assert out' == out;
      FullExpansion(runs[1..], out);
    }
  }
}
