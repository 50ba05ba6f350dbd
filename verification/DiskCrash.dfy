/** A crash at any byte of the log is a crash at a record boundary. */
module DiskCrash {
  import opened Protocol
  import opened TornLog
  import opened Invariants

  /**
   * Reading the log of any history after a cut at any byte never fails, and
   * once the first record is there it gives one of the cuts recovery is proved for.
   */
  lemma AnyByteCutIsARecordCut(
    cfg: Config, tape: seq<Answer>, encode: Protocol.Record -> Bytes, parse: Bytes -> Parsed<Protocol.Record>, n: nat)
    returns (keep: nat)
    requires Proper(cfg) && Codec(encode, parse) && n <= |File(encode, Run(cfg, tape).log)|
    ensures var log := Run(cfg, tape).log;
            var lines, whole := Lines(File(encode, log)[..n]), EndsWithNewline(File(encode, log)[..n]);
            && log != []
            && (n >= |encode(log[0])| ==> keep > 0 && Collect(lines, parse) == Cut(log, keep))
            && (n < |encode(log[0])| ==> Collect(lines, parse) == [])
            && forall i :: 0 <= i < |lines| ==> Tolerated(lines, whole, parse, i)
  {
    hide Run;
    RunKeeps(cfg, tape);
    var log := Run(cfg, tape).log;
    var content := File(encode, log)[..n];
    EveryCut(encode, log, n);
    var k: nat, tail :| CutAt(encode, log, content, k, tail);
    CutReads(encode, parse, log, content, k, tail);
    keep := |Surviving(encode, log, k, tail)|;
    if k == 0 {
      assert log[..0] == [] && content == tail;
    } else {
      FirstLineFits(encode, log[..k]);
      assert |content| == n;
    }
  }

  lemma {:induction false} FirstLineFits<R>(encode: R -> Bytes, records: seq<R>)
    requires records != []
    ensures |File(encode, records)| > |encode(records[0])|
    decreases |records|
  {
    if |records| > 1 {
      FirstLineFits(encode, records[..|records| - 1]);
    }
  }
}
