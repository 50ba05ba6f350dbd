/**
 * The run log as bytes: one line per record, written by appends, read back
 * after a crash that may have cut the last write anywhere.
 *
 * `parse` stands for decoding and parsing one line. The newline byte is no
 * part of a longer UTF-8 sequence, so splitting bytes is splitting text.
 */
module TornLog {
  newtype Byte = b: int | 0 <= b < 256

  type Bytes = seq<Byte>

  const NEWLINE: Byte := 10

  /** What a line holds; a JSON value of no known record type is a bad record. */
  datatype Parsed<R> = Record(record: R) | NotJson | BadRecord

  datatype Read<R> = Records(records: seq<R>) | Invalid(line: nat)

  /** Lines have no newline, read back, and are not JSON when cut short. */
  ghost predicate Codec<R(!new)>(encode: R -> Bytes, parse: Bytes -> Parsed<R>) {
    forall r: R ::
      && encode(r) != []
      && NEWLINE !in encode(r)
      && parse(encode(r)) == Record(r)
      && forall n :: 0 < n < |encode(r)| ==> parse(encode(r)[..n]) == NotJson
  }

  // ---------------------------------------------------------------- writing

  function File<R>(encode: R -> Bytes, records: seq<R>): Bytes {
    if records == [] then []
    else File(encode, records[..|records| - 1]) + encode(records[|records| - 1]) + [NEWLINE]
  }

  class LogFile<R> {
    var content: Bytes
    const encode: R -> Bytes

    constructor (encode: R -> Bytes)
      ensures content == [] && this.encode == encode
    {
      content := [];
      this.encode := encode;
    }

    method Append(record: R, ghost written: seq<R>)
      requires content == File(encode, written)
      modifies this
      ensures content == File(encode, written + [record])
    {
      content := content + (encode(record) + [NEWLINE]);
      assert (written + [record])[..|written|] == written;
    }
  }

  // ---------------------------------------------------------------- splitting

  /** The pieces between newlines; one more than there are newlines. */
  function Split(content: Bytes): (pieces: seq<Bytes>)
    ensures pieces != []
  {
    if content == [] then [[]]
    else
      var front := Split(content[..|content| - 1]);
      var b := content[|content| - 1];
      if b == NEWLINE then front + [[]] else front[..|front| - 1] + [front[|front| - 1] + [b]]
  }

  /** The pieces with a newline after each but the last. */
  function Join(pieces: seq<Bytes>): Bytes
    requires pieces != []
  {
    if |pieces| == 1 then pieces[0]
    else Join(pieces[..|pieces| - 1]) + [10] + pieces[|pieces| - 1]
  }

  /** Splitting is undone by joining, and no piece holds a newline. */
  lemma {:induction false} SplitJoins(content: Bytes)
    ensures Join(Split(content)) == content
    ensures forall i :: 0 <= i < |Split(content)| ==> 10 !in Split(content)[i]
    decreases |content|
  {
    if content != [] {
      var n := |content| - 1;
      var front, b := Split(content[..n]), content[n];
      SplitJoins(content[..n]);
      assert Split(content) == if b == 10 then front + [[]] else front[..|front| - 1] + [front[|front| - 1] + [b]];
      hide Split;
      assert content == content[..n] + [b];
      if b == 10 {
        JoinsNext(front, []);
        assert Join(front) + [10] + [] == content;
      } else {
        JoinsOn(front, b);
      }
    }
  }

  lemma JoinsNext(pieces: seq<Bytes>, next: Bytes)
    requires pieces != []
    ensures Join(pieces + [next]) == Join(pieces) + [10] + next
  {
    assert (pieces + [next])[..|pieces|] == pieces;
  }

  lemma JoinsOn(pieces: seq<Bytes>, b: Byte)
    requires pieces != []
    ensures Join(pieces[..|pieces| - 1] + [pieces[|pieces| - 1] + [b]]) == Join(pieces) + [b]
  {
    var front, last := pieces[..|pieces| - 1], pieces[|pieces| - 1];
    assert front + [last] == pieces;
    if front == [] {
      assert front + [last + [b]] == [last + [b]];
    } else {
      JoinsNext(front, last);
      JoinsNext(front, last + [b]);
      hide Join;
      Append(Join(front) + [10], last, b);
    }
  }

  lemma Append(x: Bytes, y: Bytes, b: Byte)
    ensures x + (y + [b]) == x + y + [b]
  {}

  predicate EndsWithNewline(content: Bytes) {
    content != [] && content[|content| - 1] == NEWLINE
  }

  function Lines(content: Bytes): seq<Bytes> {
    var pieces := Split(content);
    if EndsWithNewline(content) then pieces[..|pieces| - 1] else pieces
  }

  lemma {:induction false} SplitPlain(content: Bytes, tail: Bytes)
    requires NEWLINE !in tail
    ensures var front := Split(content);
            Split(content + tail) == front[..|front| - 1] + [front[|front| - 1] + tail]
    decreases |tail|
  {
    var front := Split(content);
    if tail == [] {
      assert content + tail == content && front[|front| - 1] + tail == front[|front| - 1];
    } else {
      var short, b := tail[..|tail| - 1], tail[|tail| - 1];
      SplitPlain(content, short);
      assert (content + tail)[..|content + tail| - 1] == content + short;
      assert front[|front| - 1] + short + [b] == front[|front| - 1] + tail;
    }
  }

  // ---------------------------------------------------------------- reading

  /** Every line after `i` is blank. */
  ghost predicate LastNonEmpty(lines: seq<Bytes>, i: int) {
    && -1 <= i < |lines|
    && (i >= 0 ==> lines[i] != [])
    && forall k :: i < k < |lines| ==> lines[k] == []
  }

  /** The line `i` may stand in the log. */
  ghost predicate Tolerated<R>(lines: seq<Bytes>, whole: bool, parse: Bytes -> Parsed<R>, i: nat)
    requires i < |lines|
  {
    || lines[i] == []
    || parse(lines[i]).Record?
    || (parse(lines[i]).NotJson? && !whole && LastNonEmpty(lines, i))
  }

  function Collect<R>(lines: seq<Bytes>, parse: Bytes -> Parsed<R>): seq<R> {
    if lines == [] then []
    else
      var front := Collect(lines[..|lines| - 1], parse);
      var line := lines[|lines| - 1];
      if line != [] && parse(line).Record? then front + [parse(line).record] else front
  }

  method FindLastNonEmpty(lines: seq<Bytes>) returns (last: int)
    ensures LastNonEmpty(lines, last)
  {
    last := -1;
    var index := |lines| - 1;
    while index >= 0
      invariant -1 <= index < |lines|
      invariant forall k :: index < k < |lines| ==> lines[k] == []
    {
      if lines[index] != [] {
        return index;
      }
      index := index - 1;
    }
  }

  /** All records of a file whose damage is confined to a torn last line; else the first damaged line. */
  method ReadRecords<R>(content: Bytes, parse: Bytes -> Parsed<R>) returns (r: Read<R>)
    ensures var lines, whole := Lines(content), EndsWithNewline(content);
            match r
            case Records(records) =>
              && records == Collect(lines, parse)
              && forall i :: 0 <= i < |lines| ==> Tolerated(lines, whole, parse, i)
            case Invalid(line) =>
              && 0 < line <= |lines|
              && !Tolerated(lines, whole, parse, line - 1)
              && forall i :: 0 <= i < line - 1 ==> Tolerated(lines, whole, parse, i)
  {
    var whole := EndsWithNewline(content);
    var lines := Lines(content);
    hide Lines;
    var last := FindLastNonEmpty(lines);
    var records: seq<R> := [];
    for index := 0 to |lines|
      invariant records == Collect(lines[..index], parse)
      invariant forall i :: 0 <= i < index ==> Tolerated(lines, whole, parse, i)
    {
      assert lines[..index + 1][..index] == lines[..index];
      var line := lines[index];
      if line != [] {
        match parse(line)
        case Record(record) => records := records + [record];
        case NotJson =>
          if whole || index != last {
            return Invalid(index + 1);
          }
        case BadRecord => return Invalid(index + 1);
      }
    }
    assert lines[..|lines|] == lines;
    r := Records(records);
  }

  // ---------------------------------------------------------------- reading what was written

  function Encoded<R>(encode: R -> Bytes, records: seq<R>): (lines: seq<Bytes>)
    ensures |lines| == |records| && forall i :: 0 <= i < |records| ==> lines[i] == encode(records[i])
  {
    if records == [] then []
    else Encoded(encode, records[..|records| - 1]) + [encode(records[|records| - 1])]
  }

  lemma {:induction false} FileSplits<R(!new)>(encode: R -> Bytes, parse: Bytes -> Parsed<R>, records: seq<R>)
    requires Codec(encode, parse)
    ensures Split(File(encode, records)) == Encoded(encode, records) + [[]]
    ensures records != [] ==> EndsWithNewline(File(encode, records))
    decreases |records|
  {
    if records != [] {
      var front, line := File(encode, records[..|records| - 1]), encode(records[|records| - 1]);
      FileSplits(encode, parse, records[..|records| - 1]);
      SplitPlain(front, line);
      assert (front + line + [NEWLINE])[..|front + line|] == front + line;
      var pieces := Encoded(encode, records[..|records| - 1]);
      assert (pieces + [[]])[..|pieces|] == pieces && [] + line == line;
    }
  }

  lemma {:induction false} EncodedCollects<R(!new)>(encode: R -> Bytes, parse: Bytes -> Parsed<R>, records: seq<R>)
    requires Codec(encode, parse)
    ensures Collect(Encoded(encode, records), parse) == records
    decreases |records|
  {
    if records != [] {
      EncodedCollects(encode, parse, records[..|records| - 1]);
      var lines := Encoded(encode, records);
      assert lines[..|lines| - 1] == Encoded(encode, records[..|records| - 1]);
    }
  }

  /** A cut file is some whole lines and the beginning of the next. */
  ghost predicate CutAt<R>(encode: R -> Bytes, records: seq<R>, cut: Bytes, k: nat, tail: Bytes) {
    && k <= |records|
    && cut == File(encode, records[..k]) + tail
    && (k == |records| ==> tail == [])
    && (k < |records| ==> tail <= encode(records[k]))
  }

  lemma {:induction false} EveryCut<R>(encode: R -> Bytes, records: seq<R>, n: nat)
    requires n <= |File(encode, records)|
    ensures exists k: nat, tail :: CutAt(encode, records, File(encode, records)[..n], k, tail)
    decreases |records|
  {
    var whole := File(encode, records);
    if n == |whole| {
      assert records[..|records|] == records && whole[..n] == whole + [];
      assert CutAt(encode, records, whole[..n], |records|, []);
    } else {
      var last := |records| - 1;
      var front, line := File(encode, records[..last]), encode(records[last]);
      assert whole == front + line + [NEWLINE];
      if n <= |front| {
        EveryCut(encode, records[..last], n);
        var k: nat, tail :| CutAt(encode, records[..last], front[..n], k, tail);
        assert whole[..n] == front[..n];
        assert records[..last][..k] == records[..k];
        assert CutAt(encode, records, whole[..n], k, tail);
      } else {
        var tail := whole[|front|..n];
        assert whole[..n] == front + tail;
        assert tail == line[..n - |front|];
        assert CutAt(encode, records, whole[..n], last, tail);
      }
    }
  }

  /** The records a cut log still holds: all whole lines, and the last if only its newline is missing. */
  function Surviving<R>(encode: R -> Bytes, records: seq<R>, k: nat, tail: Bytes): seq<R>
    requires k <= |records|
  {
    if k < |records| && tail == encode(records[k]) then records[..k + 1] else records[..k]
  }

  lemma CutLines<R(!new)>(encode: R -> Bytes, parse: Bytes -> Parsed<R>, records: seq<R>, cut: Bytes, k: nat,
      tail: Bytes)
    requires Codec(encode, parse) && CutAt(encode, records, cut, k, tail)
    ensures Split(cut) == Encoded(encode, records[..k]) + [tail]
    ensures tail != [] ==> !EndsWithNewline(cut)
    ensures tail == [] ==> (EndsWithNewline(cut) <==> k > 0)
  {
    var front := Encoded(encode, records[..k]);
    FileSplits(encode, parse, records[..k]);
    if tail == [] {
      assert cut == File(encode, records[..k]);
    } else {
      forall i | 0 <= i < |tail|
        ensures tail[i] != NEWLINE
      {
        assert tail[i] == encode(records[k])[i];
      }
      SplitPlain(File(encode, records[..k]), tail);
      assert (front + [[]])[..|front|] == front && [] + tail == tail;
      assert cut[|cut| - 1] == tail[|tail| - 1];
    }
  }

  /** Reading any cut of a log never fails and gives the surviving records, a prefix of what was written. */
  method ReadCut<R(!new)>(encode: R -> Bytes, parse: Bytes -> Parsed<R>, ghost records: seq<R>, content: Bytes,
                          ghost n: nat)
    returns (r: Read<R>)
    requires Codec(encode, parse)
    requires n <= |File(encode, records)| && content == File(encode, records)[..n]
    ensures r.Records? && r.records <= records
    ensures exists k: nat, tail :: CutAt(encode, records, content, k, tail) &&
              r.records == Surviving(encode, records, k, tail)
  {
    r := ReadRecords(content, parse);
    EveryCut(encode, records, n);
    ghost var k: nat, tail :| CutAt(encode, records, content, k, tail);
    CutReads(encode, parse, records, content, k, tail);
  }

  lemma CutReads<R(!new)>(encode: R -> Bytes, parse: Bytes -> Parsed<R>, records: seq<R>, cut: Bytes, k: nat,
      tail: Bytes)
    requires Codec(encode, parse) && CutAt(encode, records, cut, k, tail)
    ensures Collect(Lines(cut), parse) == Surviving(encode, records, k, tail)
    ensures forall i :: 0 <= i < |Lines(cut)| ==> Tolerated(Lines(cut), EndsWithNewline(cut), parse, i)
  {
    CutLines(encode, parse, records, cut, k, tail);
    EncodedCollects(encode, parse, records[..k]);
    var front := Encoded(encode, records[..k]);
    if tail == [] {
      assert k < |records| ==> encode(records[k]) != [];
      assert Lines(cut) == if k > 0 then front else [[]];
    } else {
      assert Lines(cut) == front + [tail];
      TornLineReads(encode, parse, records, k, tail);
    }
  }

  /** Whole lines and a non-empty rest of one. */
  lemma TornLineReads<R(!new)>(encode: R -> Bytes, parse: Bytes -> Parsed<R>, records: seq<R>, k: nat, tail: Bytes)
    requires Codec(encode, parse) && k < |records| && tail != [] && tail <= encode(records[k])
    ensures var lines := Encoded(encode, records[..k]) + [tail];
            && Collect(lines, parse) == Surviving(encode, records, k, tail)
            && forall i :: 0 <= i < |lines| ==> Tolerated(lines, false, parse, i)
  {
    var front := Encoded(encode, records[..k]);
    var lines := front + [tail];
    EncodedCollects(encode, parse, records[..k]);
    TailParses(encode, parse, records[k], tail);
    assert lines[..|lines| - 1] == front;
    if tail == encode(records[k]) {
      assert records[..k + 1] == records[..k] + [records[k]];
    }
    assert LastNonEmpty(lines, k);
    forall i | 0 <= i < |lines|
      ensures Tolerated(lines, false, parse, i)
    {
      if i < k {
        assert lines[i] == encode(records[i]);
      }
    }
  }

  lemma TailParses<R(!new)>(encode: R -> Bytes, parse: Bytes -> Parsed<R>, record: R, tail: Bytes)
    requires Codec(encode, parse) && tail != [] && tail <= encode(record)
    ensures parse(tail) == if tail == encode(record) then Record(record) else NotJson
  {
    if |tail| < |encode(record)| {
      assert tail == encode(record)[..|tail|];
    } else {
      assert tail == encode(record);
    }
  }
}
