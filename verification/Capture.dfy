/**
  The timed capture of a session (daemon/capture.py): length-prefixed records, each a header line
  `<offset> <count>` followed by exactly that many bytes, which may themselves contain newlines or
  look like headers.

  Offsets are whole microseconds, as the writer prints them: a sign, seconds, a point, six digits.
*/
module Capture {
  import opened Prelude

  type Micros = int

  datatype Entry = Entry(offset: Micros, data: seq<Byte>)

  datatype ReadError = NoHeaderEnd | BadHeader

  const NEWLINE: Byte := 10
  const SPACE: Byte := 32
  const MINUS: Byte := 45
  const POINT: Byte := 46

  // ---- numbers ------------------------------------------------------------------------------------------

  function Digit(d: nat): Byte
    requires d < 10
  {
    (48 + d) as Byte
  }

  predicate IsDigit(b: Byte) {
    48 <= b <= 57
  }

  function Decimal(n: nat): (s: seq<Byte>)
    ensures s != [] && forall b :: b in s ==> IsDigit(b)
  {
    if n < 10 then [Digit(n)] else Decimal(n / 10) + [Digit(n % 10)]
  }

  // The last `width` decimal digits.
  function Padded(n: nat, width: nat): (s: seq<Byte>)
    ensures |s| == width && forall b :: b in s ==> IsDigit(b)
  {
    if width == 0 then [] else Padded(n / 10, width - 1) + [Digit(n % 10)]
  }

  function Value(s: seq<Byte>): nat
    requires forall b :: b in s ==> IsDigit(b)
  {
    if s == [] then 0
    else
      assert IsDigit(s[|s| - 1]) by { assert s[|s| - 1] in s; }
      10 * Value(s[..|s| - 1]) + (s[|s| - 1] as int - 48)
  }

  function ParseNat(s: seq<Byte>): Option<nat> {
    if s != [] && forall b :: b in s ==> IsDigit(b) then Some(Value(s)) else None
  }

  lemma ValueSnoc(s: seq<Byte>, d: nat)
    requires d < 10 && forall b :: b in s ==> IsDigit(b)
    ensures Value(s + [Digit(d)]) == 10 * Value(s) + d
  {
    assert (s + [Digit(d)])[..|s|] == s;
  }

  lemma {:induction false} ParseDecimal(n: nat)
    ensures ParseNat(Decimal(n)) == Some(n)
  {
    if n >= 10 {
      ParseDecimal(n / 10);
      ValueSnoc(Decimal(n / 10), n % 10);
    } else {
      ValueSnoc([], n);
      assert [] + [Digit(n)] == [Digit(n)];
    }
  }

  function Power(width: nat): nat {
    if width == 0 then 1 else 10 * Power(width - 1)
  }

  lemma {:induction false} ValuePadded(n: nat, width: nat)
    requires n < Power(width)
    ensures Value(Padded(n, width)) == n
  {
    if width > 0 {
      ValuePadded(n / 10, width - 1);
      ValueSnoc(Padded(n / 10, width - 1), n % 10);
    }
  }

  // ---- headers ------------------------------------------------------------------------------------------

  const MILLION := 1_000_000

  function PrintMicros(t: Micros): seq<Byte> {
    var size := if t < 0 then -t else t;
    (if t < 0 then [MINUS] else []) + Decimal(size / MILLION) + [POINT] + Padded(size % MILLION, 6)
  }

  function ParseUnsigned(s: seq<Byte>): Option<nat> {
    if |s| < 8 || s[|s| - 7] != POINT then None
    else
      match (ParseNat(s[..|s| - 7]), ParseNat(s[|s| - 6..]))
      case (Some(whole), Some(part)) => Some(whole * MILLION + part)
      case _ => None
  }

  function ParseMicros(s: seq<Byte>): Option<Micros> {
    if s != [] && s[0] == MINUS then
      match ParseUnsigned(s[1..])
      case Some(n) => Some(-(n as Micros))
      case None => None
    else
      match ParseUnsigned(s)
      case Some(n) => Some(n as Micros)
      case None => None
  }

  function Header(t: Micros, count: nat): seq<Byte> {
    PrintMicros(t) + [SPACE] + Decimal(count)
  }

  // The place of the first `b` at or after `from`; the end when there is none.
  function FirstAt(s: seq<Byte>, b: Byte, from: nat): (i: nat)
    requires from <= |s|
    ensures from <= i <= |s| && (i < |s| ==> s[i] == b) && forall j :: from <= j < i ==> s[j] != b
    decreases |s| - from
  {
    if from == |s| || s[from] == b then from else FirstAt(s, b, from + 1)
  }

  lemma FirstAtIs(s: seq<Byte>, b: Byte, from: nat, i: nat)
    requires from <= i < |s| && s[i] == b && forall j :: from <= j < i ==> s[j] != b
    ensures FirstAt(s, b, from) == i
  {
  }

  function ParseHeader(line: seq<Byte>): Option<(Micros, nat)> {
    var i := FirstAt(line, SPACE, 0);
    if i == |line| then None
    else
      match (ParseMicros(line[..i]), ParseNat(line[i + 1..]))
      case (Some(t), Some(n)) => Some((t, n))
      case _ => None
  }

  predicate Printable(s: seq<Byte>) {
    forall b :: b in s ==> b != SPACE && b != NEWLINE
  }

  lemma DigitsPrintable(s: seq<Byte>)
    requires forall b :: b in s ==> IsDigit(b)
    ensures Printable(s)
  {
  }

  lemma UnsignedRoundTrip(n: nat)
    ensures ParseUnsigned(Decimal(n / MILLION) + [POINT] + Padded(n % MILLION, 6)) == Some(n)
  {
    hide Decimal, Padded, ParseNat, ParseUnsigned;
    assert n == n / MILLION * MILLION + n % MILLION;
    ParseDecimal(n / MILLION);
    ParsePadded(n % MILLION);
    UnsignedParts(Decimal(n / MILLION), Padded(n % MILLION, 6), n / MILLION, n % MILLION);
  }

  lemma ParsePadded(n: nat)
    requires n < MILLION
    ensures ParseNat(Padded(n, 6)) == Some(n)
  {
    hide Padded;
    PowerSix();
    ValuePadded(n, 6);
  }

  lemma UnsignedParts(whole: seq<Byte>, part: seq<Byte>, a: nat, b: nat)
    requires whole != [] && |part| == 6 && ParseNat(whole) == Some(a) && ParseNat(part) == Some(b)
    ensures ParseUnsigned(whole + [POINT] + part) == Some(a * MILLION + b)
  {
    hide ParseNat;
    var s := whole + [POINT] + part;
    assert s[..|s| - 7] == whole && s[|s| - 6..] == part && s[|s| - 7] == POINT;
  }

  lemma PowerSix()
    ensures Power(6) == MILLION
  {
    assert Power(3) == 1000;
  }

  lemma MicrosRoundTrip(t: Micros)
    ensures ParseMicros(PrintMicros(t)) == Some(t)
    ensures Printable(PrintMicros(t))
  {
    hide ParseUnsigned, Decimal, Padded;
    var size := if t < 0 then -t else t;
    var s := Decimal(size / MILLION) + [POINT] + Padded(size % MILLION, 6);
    UnsignedRoundTrip(size);
    if t < 0 {
      assert PrintMicros(t)[1..] == s;
    } else {
      assert PrintMicros(t) == s;
      assert s[0] == Decimal(size / MILLION)[0] && s[0] in Decimal(size / MILLION);
    }
  }

  lemma HeaderRoundTrip(t: Micros, count: nat)
    ensures ParseHeader(Header(t, count)) == Some((t, count))
    ensures forall b :: b in Header(t, count) ==> b != NEWLINE
  {
    hide PrintMicros, ParseMicros, ParseNat, Decimal;
    MicrosRoundTrip(t);
    ParseDecimal(count);
    DigitsPrintable(Decimal(count));
    var line := Header(t, count);
    var i := FirstAt(line, SPACE, 0);
    assert line[|PrintMicros(t)|] == SPACE;
    forall j | 0 <= j < |PrintMicros(t)| ensures line[j] != SPACE {
      assert line[j] == PrintMicros(t)[j] && PrintMicros(t)[j] in PrintMicros(t);
    }
    FirstAtIs(line, SPACE, 0, |PrintMicros(t)|);
    assert line[..i] == PrintMicros(t) && line[i + 1..] == Decimal(count);
  }

  lemma PaddedNext(n: nat, width: nat, d: nat)
    requires d < 10
    ensures Padded(10 * n + d, width + 1) == Padded(n, width) + [Digit(d)]
  {
  }

  lemma DecimalNext(n: nat, d: nat)
    requires 0 < n && d < 10
    ensures Decimal(10 * n + d) == Decimal(n) + [Digit(d)]
  {
  }

  lemma NoDigits(n: nat)
    ensures Padded(n, 0) == [] && (n < 10 ==> Decimal(n) == [Digit(n)])
  {
  }

  lemma PaddedDigits()
    ensures Padded(34500, 6) == [48, 51, 52, 53, 48, 48]
    ensures Padded(1, 6) == [48, 48, 48, 48, 48, 49]
  {
    hide Padded;
    NoDigits(0);
    PaddedNext(0, 0, 0);
    PaddedNext(0, 1, 3);
    PaddedNext(3, 2, 4);
    PaddedNext(34, 3, 5);
    PaddedNext(345, 4, 0);
    PaddedNext(3450, 5, 0);
    PaddedNext(0, 1, 0);
    PaddedNext(0, 2, 0);
    PaddedNext(0, 3, 0);
    PaddedNext(0, 4, 0);
    PaddedNext(0, 5, 1);
  }

  lemma DecimalDigits()
    ensures Decimal(0) == [48] && Decimal(7) == [55] && Decimal(12) == [49, 50] && Decimal(10) == [49, 48]
  {
    hide Decimal;
    NoDigits(0);
    NoDigits(1);
    NoDigits(7);
    DecimalNext(1, 2);
    DecimalNext(1, 0);
  }

  // The format on two headers: `12.034500 7` and `-0.000001 10`.
  lemma HeadersLookSo()
    ensures Header(12_034_500, 7) == [49, 50, 46, 48, 51, 52, 53, 48, 48, 32, 55]
    ensures Header(-1, 10) == [45, 48, 46, 48, 48, 48, 48, 48, 49, 32, 49, 48]
  {
    hide Decimal, Padded;
    PaddedDigits();
    DecimalDigits();
    assert 12_034_500 / MILLION == 12 && 12_034_500 % MILLION == 34500;
    assert 1 / MILLION == 0 && 1 % MILLION == 1;
  }

  // ---- files ----------------------------------------------------------------------------------------------

  function PrintRecord(r: Entry): seq<Byte> {
    Header(r.offset, |r.data|) + [NEWLINE] + r.data
  }

  function PrintAll(records: seq<Entry>): seq<Byte> {
    if records == [] then [] else PrintAll(records[..|records| - 1]) + PrintRecord(records[|records| - 1])
  }

  // What the bytes from `pos` on read as.  The last record may be cut short.
  function Parse(file: seq<Byte>, pos: nat): Result<seq<Entry>, ReadError>
    decreases |file| - pos
  {
    if pos >= |file| then Ok([])
    else
      var end := FirstAt(file, NEWLINE, pos);
      if end == |file| then Err(NoHeaderEnd)
      else
        match ParseHeader(file[pos..end])
        case None => Err(BadHeader)
        case Some(header) =>
          var start := end + 1;
          var stop := if start + header.1 <= |file| then start + header.1 else |file|;
          match Parse(file, start + header.1)
          case Err(e) => Err(e)
          case Ok(rest) => Ok([Entry(header.0, file[start..stop])] + rest)
  }

  lemma {:induction false} PrintAllPrepend(r: Entry, records: seq<Entry>)
    ensures PrintAll([r] + records) == PrintRecord(r) + PrintAll(records)
  {
    hide PrintRecord;
    if records == [] {
      assert [r] + records == [r];
      assert [r][..0] == [];
      assert PrintAll([r]) == [] + PrintRecord(r);
    } else {
      var n := |records| - 1;
      PrintAllPrepend(r, records[..n]);
      assert ([r] + records)[..n + 1] == [r] + records[..n];
      assert PrintAll([r] + records) == (PrintRecord(r) + PrintAll(records[..n])) + PrintRecord(records[n]);
    }
  }

  // One record read, and the rest.
  lemma ParseStep(file: seq<Byte>, pos: nat, end: nat)
    requires pos < |file| && end == FirstAt(file, NEWLINE, pos)
    ensures end == |file| ==> Parse(file, pos) == Err(NoHeaderEnd)
    ensures end < |file| && ParseHeader(file[pos..end]) == None ==> Parse(file, pos) == Err(BadHeader)
    ensures end < |file| && ParseHeader(file[pos..end]).Some? ==>
      var header := ParseHeader(file[pos..end]).value;
      Parse(file, pos) == Prepend([Entry(header.0, file[end + 1..][..Min(header.1, |file| - end - 1)])],
                                  Parse(file, end + 1 + header.1))
  {
    hide ParseHeader, FirstAt;
    if end < |file| && ParseHeader(file[pos..end]).Some? {
      Taken(file, end + 1, ParseHeader(file[pos..end]).value.1);
    }
  }

  lemma Taken(file: seq<Byte>, start: nat, count: nat)
    requires start <= |file|
    ensures file[start..][..Min(count, |file| - start)]
         == file[start..if start + count <= |file| then start + count else |file|]
  {
  }

  lemma RecordFirst(before: seq<Byte>, records: seq<Entry>)
    requires records != []
    ensures before + PrintAll(records) == before + PrintRecord(records[0]) + PrintAll(records[1..])
  {
    hide PrintRecord, PrintAll;
    assert records == [records[0]] + records[1..];
    PrintAllPrepend(records[0], records[1..]);
  }

  // Reading what was written gives the records back, whatever their bytes are and whatever stands before.
  lemma {:induction false} ParsePrinted(before: seq<Byte>, records: seq<Entry>)
    ensures Parse(before + PrintAll(records), |before|) == Ok(records)
    decreases |records|
  {
    var file := before + PrintAll(records);
    if records != [] {
      hide *;
      RecordFirst(before, records);
      ParsePrinted(before + PrintRecord(records[0]), records[1..]);
      ParseFirst(before, records[0], PrintAll(records[1..]));
      PrependIs(records[0], records[1..]);
      assert [records[0]] + records[1..] == records;
    } else {
      assert file == before;
    }
  }

  lemma PrependIs(r: Entry, rest: seq<Entry>)
    ensures Prepend([r], Ok(rest)) == Ok([r] + rest)
  {
  }

  lemma ParseFirst(before: seq<Byte>, r: Entry, after: seq<Byte>)
    ensures var file := before + PrintRecord(r) + after;
      Parse(file, |before|) == Prepend([r], Parse(file, |before + PrintRecord(r)|))
  {
    hide ParseHeader, Header, PrintRecord, Parse, Prepend;
    var file := before + PrintRecord(r) + after;
    HeaderRoundTrip(r.offset, |r.data|);
    RecordIn(before, r, after);
    var end := |before| + |Header(r.offset, |r.data|)|;
    ParseStep(file, |before|, end);
    assert file[end + 1..][..|r.data|] == file[end + 1..end + 1 + |r.data|];
  }

  // Where the parts of a record stand in the file.
  lemma RecordIn(before: seq<Byte>, r: Entry, after: seq<Byte>)
    ensures var file := before + PrintRecord(r) + after;
      var head := Header(r.offset, |r.data|);
      var end := |before| + |head|;
      && |file| > end && FirstAt(file, NEWLINE, |before|) == end
      && file[|before|..end] == head
      && end + 1 + |r.data| <= |file| && file[end + 1..end + 1 + |r.data|] == r.data
      && |before + PrintRecord(r)| == end + 1 + |r.data|
  {
    hide Header, ParseHeader;
    var head := Header(r.offset, |r.data|);
    HeaderRoundTrip(r.offset, |r.data|);
    var file := before + PrintRecord(r) + after;
    var end := |before| + |head|;
    assert file[end] == NEWLINE;
    forall j | |before| <= j < end ensures file[j] != NEWLINE {
      assert file[j] == head[j - |before|] && head[j - |before|] in head;
    }
    FirstAtIs(file, NEWLINE, |before|, end);
    assert file[|before|..end] == head;
    assert file[end + 1..end + 1 + |r.data|] == r.data;
  }

  lemma ReadInvertsWrite(records: seq<Entry>)
    ensures Parse(PrintAll(records), 0) == Ok(records)
  {
    ParsePrinted([], records);
    assert [] + PrintAll(records) == PrintAll(records);
  }

  // Two captures that read alike are the same file only if their records are the same.
  lemma PrintIsInjective(a: seq<Entry>, b: seq<Entry>)
    requires PrintAll(a) == PrintAll(b)
    ensures a == b
  {
    ReadInvertsWrite(a);
    ReadInvertsWrite(b);
  }

  function Prepend(records: seq<Entry>, rest: Result<seq<Entry>, ReadError>): Result<seq<Entry>, ReadError> {
    match rest
    case Err(e) => Err(e)
    case Ok(more) => Ok(records + more)
  }

  lemma PrependTwice(records: seq<Entry>, r: Entry, rest: Result<seq<Entry>, ReadError>)
    ensures Prepend(records, Prepend([r], rest)) == Prepend(records + [r], rest)
  {
    if rest.Ok? {
      assert records + ([r] + rest.value) == (records + [r]) + rest.value;
    }
  }

  // The reader: a cursor over the bytes.
  method ReadCapture(file: seq<Byte>) returns (r: Result<seq<Entry>, ReadError>)
    ensures r == Parse(file, 0)
  {
    hide ParseHeader, Parse, Prepend;
    var records: seq<Entry> := [];
    var pos := 0;
    PrependNothing(Parse(file, 0));
    while pos < |file|
      invariant Parse(file, 0) == Prepend(records, Parse(file, pos))
      decreases |file| - pos
    {
      var end := FirstAt(file, NEWLINE, pos);
      ParseStep(file, pos, end);
      if end == |file| {
        PrependError(records, NoHeaderEnd);
        return Err(NoHeaderEnd);
      }
      var header := ParseHeader(file[pos..end]);
      if header == None {
        PrependError(records, BadHeader);
        return Err(BadHeader);
      }
      var start, count := end + 1, header.value.1;
      var r := Entry(header.value.0, file[start..][..Min(count, |file| - start)]);
      PrependTwice(records, r, Parse(file, start + count));
      records := records + [r];
      pos := start + count;
    }
    PrependToNothing(records, file, pos);
    return Ok(records);
  }

  lemma PrependError(records: seq<Entry>, e: ReadError)
    ensures Prepend(records, Err(e)) == Err(e)
  {
  }

  lemma PrependToNothing(records: seq<Entry>, file: seq<Byte>, pos: nat)
    requires pos >= |file|
    ensures Prepend(records, Parse(file, pos)) == Ok(records)
  {
    assert records + [] == records;
  }

  lemma PrependNothing(rest: Result<seq<Entry>, ReadError>)
    ensures Prepend([], rest) == rest
  {
    if rest.Ok? {
      assert [] + rest.value == rest.value;
    }
  }

  // ---- writing ----------------------------------------------------------------------------------------------

  // Chunks are stamped with the time since the first one; empty chunks are not recorded.
  class CaptureWriter {
    var file: seq<Byte>
    var start: Option<Micros>
    ghost var written: seq<Entry>

    ghost predicate Valid()
      reads this
    {
      file == PrintAll(written) && (start == None <==> written == []) && (written != [] ==> written[0].offset == 0)
    }

    constructor ()
      ensures Valid() && written == []
    {
      file, start, written := [], None, [];
    }

    method Record(data: seq<Byte>, now: Micros)
      requires Valid()
      modifies this
      ensures Valid()
      ensures data == [] ==> written == old(written)
      ensures data != [] ==> start == (if old(start) == None then Some(now) else old(start))
      ensures data != [] ==> written == old(written) + [Entry(now - start.value, data)]
    {
      if data == [] {
        return;
      }
      if start == None {
        start := Some(now);
      }
      var r := Entry(now - start.value, data);
      assert (written + [r])[..|written|] == written;
      file := file + PrintRecord(r);
      written := written + [r];
    }
  }

  function Payload(records: seq<Entry>): seq<Byte> {
    if records == [] then [] else Payload(records[..|records| - 1]) + records[|records| - 1].data
  }

  predicate ChunkIs(r: Entry, raw: seq<Byte>, k: nat, chunkSize: nat, dt: Micros) {
    && r.offset == k * dt
    && k * chunkSize < |raw|
    && r.data == raw[k * chunkSize..][..Min(chunkSize, |raw| - k * chunkSize)]
  }

  // A capture made up for bytes without times: chunks of one size, dt apart.  With a chunk size below
  // zero the program writes nothing, and with zero it fails.
  method SynthesizeCapture(raw: seq<Byte>, chunkSize: int, dt: Micros)
    returns (file: Option<seq<Byte>>, ghost records: seq<Entry>)
    ensures file == None <==> chunkSize == 0
    ensures file.Some? ==> file.value == PrintAll(records) && Parse(file.value, 0) == Ok(records)
    ensures chunkSize > 0 ==> Payload(records) == raw
    ensures chunkSize > 0 ==> forall k :: 0 <= k < |records| ==> ChunkIs(records[k], raw, k, chunkSize, dt)
    ensures chunkSize < 0 ==> records == []
  {
    hide ChunkIs, PrintRecord, Parse;
    records := [];
    ReadInvertsWrite(records);
    if chunkSize == 0 {
      return None, records;
    }
    var out: seq<Byte> := [];
    if chunkSize < 0 {
      return Some(out), records;
    }
    var off, stamp := 0, 0;
    while off < |raw|
      invariant off == |records| * chunkSize && stamp == |records| * dt
      invariant out == PrintAll(records) && Payload(records) == raw[..Min(off, |raw|)]
      invariant forall k :: 0 <= k < |records| ==> ChunkIs(records[k], raw, k, chunkSize, dt)
      decreases |raw| - off
    {
      var end := Min(off + chunkSize, |raw|);
      var r := Entry(stamp, raw[off..end]);
      ChunkMade(r, raw, |records|, chunkSize, dt);
      assert (records + [r])[..|records|] == records;
      assert raw[..off] + raw[off..end] == raw[..end];
      out := out + PrintRecord(r);
      records := records + [r];
      off, stamp := off + chunkSize, stamp + dt;
    }
    assert raw[..|raw|] == raw;
    ReadInvertsWrite(records);
    return Some(out), records;
  }

  lemma ChunkMade(r: Entry, raw: seq<Byte>, k: nat, chunkSize: nat, dt: Micros)
    requires k * chunkSize < |raw| && r.offset == k * dt && chunkSize > 0
    requires r.data == raw[k * chunkSize..Min(k * chunkSize + chunkSize, |raw|)]
    ensures ChunkIs(r, raw, k, chunkSize, dt)
    ensures k * chunkSize + chunkSize == (k + 1) * chunkSize && k * dt + dt == (k + 1) * dt
  {
    var off := k * chunkSize;
    assert raw[off..][..Min(chunkSize, |raw| - off)] == raw[off..Min(off + chunkSize, |raw|)];
  }
}
