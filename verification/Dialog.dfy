/**
  The durable dialog of a session (daemon/dialog.py): one-line records whose texts, joined by newlines,
  make the flat text that offsets and pages are about, and a raw spool cut to its newest bytes.

  Files are not modelled; the spool and the records are their contents.
*/
module Dialogs {
  import opened Prelude

  datatype Speaker = Agent | User

  datatype Kind = Line | Marker

  datatype Record = Record(kind: Kind, speaker: Speaker, text: string)

  const USER_PREFIX := "» "
  const AGENT_MARKER := "‹agent›"

  // ---- the flat text --------------------------------------------------------------------------------------

  function Flat(records: seq<Record>): string {
    if records == [] then ""
    else if |records| == 1 then records[0].text
    else Flat(records[..|records| - 1]) + "\n" + records[|records| - 1].text
  }

  // Where record i starts.
  function Start(records: seq<Record>, i: nat): nat
    requires i <= |records|
  {
    if i == 0 then 0 else |Flat(records[..i])| + 1
  }

  predicate OneLine(s: string) {
    '\n' !in s
  }

  predicate OneLiners(records: seq<Record>) {
    forall r :: r in records ==> OneLine(r.text)
  }

  // The text that comes before a record appended to these.
  function Lead(records: seq<Record>): string {
    if records == [] then "" else Flat(records) + "\n"
  }

  lemma FlatSnoc(records: seq<Record>, r: Record)
    ensures Flat(records + [r]) == Lead(records) + r.text
    ensures |Lead(records)| == Start(records + [r], |records|)
  {
    assert (records + [r])[..|records|] == records;
  }

  // What is in the flat text stays where it is.
  lemma {:induction false} FlatGrows(records: seq<Record>, more: seq<Record>)
    ensures |Flat(records)| <= |Flat(records + more)| && Flat(records + more)[..|Flat(records)|] == Flat(records)
    decreases |more|
  {
    if more == [] {
      assert records + more == records;
    } else {
      var n := |more| - 1;
      FlatGrows(records, more[..n]);
      assert records + more == (records + more[..n]) + [more[n]];
      FlatSnoc(records + more[..n], more[n]);
    }
  }

  // The offset at which a record was appended locates its text for ever.
  lemma OffsetsLast(records: seq<Record>, more: seq<Record>, i: nat)
    requires i < |records|
    ensures var at := Start(records, i);
      && Start(records + more, i) == at
      && at + |records[i].text| <= |Flat(records + more)|
      && Flat(records + more)[at..at + |records[i].text|] == records[i].text
  {
    hide Flat;
    assert (records + more)[..i] == records[..i];
    var upto, rest := records[..i + 1], (records + more)[i + 1..];
    EndsAtText(records, i);
    assert records + more == upto + rest;
    FlatGrows(upto, rest);
    Within(Flat(records + more), Flat(upto), Start(records, i));
  }

  // Up to and with record i, the flat text ends with that record's text.
  lemma EndsAtText(records: seq<Record>, i: nat)
    requires i < |records|
    ensures var text := Flat(records[..i + 1]);
      Start(records, i) + |records[i].text| == |text| && text[Start(records, i)..] == records[i].text
  {
    assert records[..i + 1] == records[..i] + [records[i]];
    FlatSnoc(records[..i], records[i]);
    assert (records[..i] + [records[i]])[..i] == records[..i];
  }

  lemma Within(all: string, text: string, at: nat)
    requires at <= |text| <= |all| && all[..|text|] == text
    ensures all[at..|text|] == text[at..]
  {
    assert all[..|text|][at..] == all[at..|text|];
  }

  lemma StartNext(records: seq<Record>, i: nat)
    requires i < |records|
    ensures Start(records, i + 1) == Start(records, i) + |records[i].text| + 1
  {
    EndsAtText(records, i);
  }

  // ---- which record an offset is in -------------------------------------------------------------------------

  // The record that holds the offset, its final newline included; the last one holds the rest.
  predicate Holds(records: seq<Record>, i: nat, offset: nat) {
    && i < |records| && Start(records, i) <= offset
    && (i + 1 < |records| ==> offset < Start(records, i + 1))
  }

  lemma {:induction false} StartsGrow(records: seq<Record>, i: nat, j: nat)
    requires i < j <= |records|
    ensures Start(records, i) < Start(records, j)
    decreases j - i
  {
    StartNext(records, j - 1);
    if i < j - 1 {
      StartsGrow(records, i, j - 1);
    }
  }

  lemma OneHolds(records: seq<Record>, i: nat, j: nat, offset: nat)
    requires Holds(records, i, offset) && Holds(records, j, offset)
    ensures i == j
  {
    if i + 1 < j {
      StartsGrow(records, i + 1, j);
    }
    if j + 1 < i {
      StartsGrow(records, j + 1, i);
    }
  }

  method SpeakerAt(records: seq<Record>, offset: nat) returns (speaker: Speaker)
    ensures records == [] ==> speaker == Agent
    ensures records != [] ==> exists i: nat :: Holds(records, i, offset) && speaker == records[i].speaker
  {
    if records == [] {
      return Agent;
    }
    hide Flat;
    var pos := 0;
    speaker := records[0].speaker;
    ghost var held := 0;
    for i := 0 to |records|
      invariant pos == Start(records, i)
      invariant held < |records| && Start(records, held) <= offset && speaker == records[held].speaker
      invariant held == if i == 0 then 0 else i - 1
    {
      if pos > offset {
        assert Holds(records, held, offset);
        return;
      }
      held := i;
      speaker := records[i].speaker;
      StartNext(records, i);
      pos := pos + |records[i].text| + 1;
    }
    assert Holds(records, held, offset);
  }

  method IsAtRecordBoundary(text: string, offset: nat) returns (at: bool)
    ensures at <==> offset == 0 || (offset <= |text| && text[offset - 1] == '\n')
  {
    if offset == 0 {
      return true;
    }
    if offset <= |text| {
      return text[offset - 1] == '\n';
    }
    return false;
  }

  // A newline in the flat text is always the end of a record.
  lemma {:induction false} BoundaryIsRecordStart(records: seq<Record>, offset: nat)
    requires records != [] && OneLiners(records)
    ensures (offset == 0 || (offset <= |Flat(records)| && Flat(records)[offset - 1] == '\n'))
       <==> exists i :: 0 <= i < |records| && Start(records, i) == offset
    decreases |records|
  {
    var n := |records| - 1;
    var last := records[n];
    if n == 0 {
      assert Start(records, 0) == 0;
      assert last.text == Flat(records) && OneLine(last.text);
    } else {
      var init := records[..n];
      var text := Flat(records);
      BoundaryIsRecordStart(init, offset);
      assert records == init + [last];
      FlatSnoc(init, last);
      assert text == Flat(init) + "\n" + last.text && Start(records, n) == |Flat(init)| + 1;
      assert OneLine(last.text);
      forall i | 0 <= i < n ensures Start(init, i) == Start(records, i) {
        assert init[..i] == records[..i];
      }
      if offset > |Flat(init)| + 1 {
        StartsBelow(records, offset);
        assert offset <= |text| ==> text[offset - 1] == last.text[offset - 1 - (|Flat(init)| + 1)];
      } else if offset == |Flat(init)| + 1 {
        assert text[offset - 1] == '\n';
      } else if offset > 0 {
        assert text[offset - 1] == Flat(init)[offset - 1];
      } else {
        assert Start(records, 0) == 0;
      }
    }
  }

  lemma StartsBelow(records: seq<Record>, offset: nat)
    requires records != [] && offset > Start(records, |records| - 1)
    ensures forall i :: 0 <= i < |records| ==> Start(records, i) < offset
  {
    forall i | 0 <= i < |records| ensures Start(records, i) < offset {
      if i < |records| - 1 {
        StartsGrow(records, i, |records| - 1);
      }
    }
  }

  // ---- pages ------------------------------------------------------------------------------------------------

  // The last newline, or -1.
  function LastNewline(s: string): (i: int)
    ensures -1 <= i < |s| && (i >= 0 ==> s[i] == '\n') && forall j :: i < j < |s| ==> s[j] != '\n'
  {
    if s == "" then -1
    else if s[|s| - 1] == '\n' then |s| - 1
    else LastNewline(s[..|s| - 1])
  }

  // How much of a chunk longer than the limit goes on one page: up to a newline, if one stands beyond
  // six tenths of the limit.
  function PageLength(chunk: string, limit: nat, snap: bool): nat
    requires limit < |chunk|
  {
    var cut := LastNewline(chunk[..limit]);
    if !snap || cut == -1 || cut < 6 * limit / 10 then limit else cut + 1
  }

  // The page at an offset inside the text.
  function PageAt(text: string, offset: nat, limit: Option<nat>, snap: bool): string
    requires offset < |text|
  {
    var chunk := text[offset..];
    if limit == None || |chunk| <= limit.value then chunk else chunk[..PageLength(chunk, limit.value, snap)]
  }

  // Following the next offsets.
  function Pages(text: string, limit: nat, snap: bool, offset: nat): seq<string>
    requires limit > 0
    decreases |text| - offset
  {
    if offset >= |text| then []
    else
      var page := PageAt(text, offset, Some(limit), snap);
      [page] + Pages(text, limit, snap, offset + |page|)
  }

  function Concat(pages: seq<string>): string {
    if pages == [] then "" else pages[0] + Concat(pages[1..])
  }

  lemma {:induction false} PagesMakeTheText(text: string, limit: nat, snap: bool, offset: nat)
    requires limit > 0 && offset <= |text|
    ensures Concat(Pages(text, limit, snap, offset)) == text[offset..]
    decreases |text| - offset
  {
    if offset < |text| {
      var page := PageAt(text, offset, Some(limit), snap);
      PagesMakeTheText(text, limit, snap, offset + |page|);
      assert page == text[offset..][..|page|] && text[offset + |page|..] == text[offset..][|page|..];
    }
  }

  // Every page but the last has more than six tenths of the limit; none exceeds it or is empty.
  lemma {:induction false} PagesAreWellSized(text: string, limit: nat, snap: bool, offset: nat, k: nat)
    requires limit > 0 && k < |Pages(text, limit, snap, offset)|
    ensures var pages := Pages(text, limit, snap, offset);
      && 0 < |pages[k]| <= limit
      && (k < |pages| - 1 ==> 6 * limit / 10 + 1 <= |pages[k]|)
      && (k < |pages| - 1 && !snap ==> |pages[k]| == limit)
    decreases k
  {
    var page := PageAt(text, offset, Some(limit), snap);
    if k > 0 {
      PagesAreWellSized(text, limit, snap, offset + |page|, k - 1);
    } else if |text[offset..]| <= limit {
      assert Pages(text, limit, snap, offset + |page|) == [];
    }
  }

  // A snapped page ends with the last newline before the limit, if that stands beyond six tenths of it;
  // otherwise it is as long as the limit.
  lemma SnappedPageEndsAtNewline(text: string, offset: nat, limit: nat)
    requires offset < |text| && limit < |text| - offset
    ensures var from, end := offset + 6 * limit / 10, offset + limit;
      var next := offset + |PageAt(text, offset, Some(limit), true)|;
      if exists p :: from <= p < end && text[p] == '\n' then
        from < next <= end && text[next - 1] == '\n' && forall p :: next <= p < end ==> text[p] != '\n'
      else next == end
  {
    var chunk := text[offset..];
    var cut := LastNewline(chunk[..limit]);
    assert PageAt(text, offset, Some(limit), true) == chunk[..PageLength(chunk, limit, true)];
    forall p | offset <= p < offset + limit ensures text[p] == chunk[..limit][p - offset] {
    }
  }

  datatype Page = Page(text: string, startOffset: nat, nextOffset: nat, speakerAtStart: Speaker, continued: bool,
                       totalLen: nat)

  datatype PageError = BadOffset | BadLimit

  method RFind(s: string) returns (i: int)
    ensures i == LastNewline(s)
  {
    i := |s| - 1;
    while i >= 0 && s[i] != '\n'
      invariant -1 <= i < |s| && LastNewline(s) == LastNewline(s[..i + 1])
    {
      assert s[..i + 1][..i] == s[..i];
      i := i - 1;
    }
    if i >= 0 {
      assert s[..i + 1][i] == '\n';
    }
    assert i == -1 ==> s[..i + 1] == "";
    assert s[..|s|] == s;
  }

  method SnapPage(chunk: string, offset: nat, limit: nat) returns (text: string, next: nat)
    requires limit < |chunk|
    ensures text == chunk[..PageLength(chunk, limit, true)] && next == offset + |text|
  {
    var cut := RFind(chunk[..limit]);
    if cut == -1 || cut < 6 * limit / 10 {
      return chunk[..limit], offset + limit;
    }
    return chunk[..cut + 1], offset + cut + 1;
  }

  // ---- splitting --------------------------------------------------------------------------------------------

  // The lines of a text.
  function Split(text: string): (lines: seq<string>)
    ensures lines != []
  {
    var i := LastNewline(text);
    if i == -1 then [text] else Split(text[..i]) + [text[i + 1..]]
  }

  function RecordsOf(lines: seq<string>, first: Kind, speaker: Speaker): seq<Record> {
    seq(|lines|, i requires 0 <= i < |lines| => Record(if i == 0 then first else Line, speaker, lines[i]))
  }

  lemma RecordsOfSnoc(lines: seq<string>, line: string, first: Kind, speaker: Speaker)
    requires lines != []
    ensures RecordsOf(lines + [line], first, speaker) == RecordsOf(lines, first, speaker)
        + [Record(Line, speaker, line)]
  {
  }

  lemma SplitAt(text: string, i: int)
    requires i == LastNewline(text)
    ensures i == -1 ==> Split(text) == [text] && OneLine(text)
    ensures i >= 0 ==> Split(text) == Split(text[..i]) + [text[i + 1..]] && OneLine(text[i + 1..])
    ensures i >= 0 ==> text == text[..i] + "\n" + text[i + 1..]
  {
    hide LastNewline;
  }

  // Appending a text as records appends the text.
  lemma {:induction false} SplitKeepsText(records: seq<Record>, text: string, first: Kind, speaker: Speaker)
    requires OneLiners(records)
    ensures var added := RecordsOf(Split(text), first, speaker);
      Flat(records + added) == Lead(records) + text && OneLiners(records + added)
    decreases |text|
  {
    hide LastNewline, Split, Flat, OneLine;
    var i := LastNewline(text);
    SplitAt(text, i);
    if i == -1 {
      assert RecordsOf([text], first, speaker) == [Record(first, speaker, text)];
      FlatSnoc(records, Record(first, speaker, text));
    } else {
      var head, line := text[..i], text[i + 1..];
      SplitKeepsText(records, head, first, speaker);
      RecordsOfSnoc(Split(head), line, first, speaker);
      var before := records + RecordsOf(Split(head), first, speaker);
      var last := Record(Line, speaker, line);
      hide RecordsOf;
      assert records + RecordsOf(Split(text), first, speaker) == before + [last];
      FlatSnoc(before, last);
      assert before != [] by { RecordsOfSize(Split(head), first, speaker); }
      assert Flat(before + [last]) == (Lead(records) + head) + "\n" + line;
      assert (Lead(records) + head) + "\n" + line == Lead(records) + (head + "\n" + line);
    }
  }

  lemma RecordsOfSize(lines: seq<string>, first: Kind, speaker: Speaker)
    ensures |RecordsOf(lines, first, speaker)| == |lines|
  {
  }

  method SplitLines(text: string) returns (lines: seq<string>)
    ensures lines == Split(text)
  {
    hide Split, LastNewline;
    lines := [];
    var rest := text;
    var i := RFind(rest);
    assert Split(rest) + [] == Split(rest);
    while i != -1
      invariant i == LastNewline(rest) && -1 <= i < |rest| && Split(text) == Split(rest) + lines
      decreases |rest|
    {
      SplitAt(rest, i);
      assert (Split(rest[..i]) + [rest[i + 1..]]) + lines == Split(rest[..i]) + ([rest[i + 1..]] + lines);
      lines := [rest[i + 1..]] + lines;
      rest := rest[..i];
      i := RFind(rest);
    }
    SplitAt(rest, i);
    lines := [rest] + lines;
  }

  // ---- the dialog -------------------------------------------------------------------------------------------

  function Newest(s: seq<Byte>, n: nat): seq<Byte> {
    if n == 0 || |s| <= n then s else s[|s| - n..]
  }

  // How many of so many bytes a spool keeps; 0 bounds nothing.
  function SpoolLength(total: nat, max: nat): nat {
    if max == 0 || total <= max then total else max
  }

  predicate EndsWith(whole: seq<Byte>, end: seq<Byte>) {
    |end| <= |whole| && end == whole[|whole| - |end|..]
  }

  lemma EndOfMore(whole: seq<Byte>, end: seq<Byte>, more: seq<Byte>)
    requires EndsWith(whole, end)
    ensures EndsWith(whole + more, end + more)
  {
    assert (whole + more)[|whole| - |end|..] == whole[|whole| - |end|..] + more;
  }

  lemma EndOfEnd(whole: seq<Byte>, end: seq<Byte>, k: nat)
    requires EndsWith(whole, end) && k <= |end|
    ensures EndsWith(whole, end[k..])
  {
    assert whole[|whole| - |end|..][k..] == whole[|whole| - |end| + k..];
  }

  // From `from` on: a marker and plain lines, all of the user.
  predicate UserRecords(records: seq<Record>, from: nat) {
    forall i :: from <= i < |records| ==>
      records[i].speaker == User && records[i].kind == if i == from then Marker else Line
  }

  class Dialog {
    const spoolMax: nat
    var records: seq<Record>
    var flatLen: nat
    var currentSpeaker: Option<Speaker>
    var lastUserInputOffset: nat
    var lastAgentMarkerOffset: nat
    var raw: seq<Byte>
    var rawTotal: nat
    var rawBase: nat
    ghost var appended: seq<Byte>      // every raw byte ever

    ghost predicate Valid()
      reads this
    {
      && OneLiners(records) && flatLen == |Flat(records)|
      && EndsWith(appended, raw)
      && rawTotal == |appended| && rawBase + |raw| == rawTotal
      && |raw| == SpoolLength(|appended|, spoolMax)
    }

    constructor (spoolMaxBytes: nat)
      ensures Valid() && records == [] && appended == [] && spoolMax == spoolMaxBytes
      ensures currentSpeaker == None
    {
      spoolMax := spoolMaxBytes;
      records, flatLen, currentSpeaker := [], 0, None;
      lastUserInputOffset, lastAgentMarkerOffset := 0, 0;
      raw, rawTotal, rawBase, appended := [], 0, 0, [];
    }

    // The spool keeps its newest bytes; its base says where in all that was appended it starts.
    method AppendRaw(chunk: seq<Byte>)
      requires Valid()
      modifies this`raw, this`rawTotal, this`rawBase, this`appended
      ensures Valid() && appended == old(appended) + chunk
      ensures raw == Newest(old(raw) + chunk, spoolMax)
    {
      EndOfMore(appended, raw, chunk);
      raw := raw + chunk;
      rawTotal := rawTotal + |chunk|;
      appended := appended + chunk;
      if |raw| > spoolMax {
        EndOfEnd(appended, raw, |raw| - |Newest(raw, spoolMax)|);
        raw := Newest(raw, spoolMax);
        rawBase := rawTotal - |raw|;
      }
    }

    method AppendRecord(kind: Kind, speaker: Speaker, text: string) returns (offset: nat)
      requires Valid()
      modifies this`records, this`flatLen
      ensures Valid() && records == old(records) + RecordsOf(Split(text), kind, speaker)
      ensures Flat(records) == Lead(old(records)) + text
      ensures offset == |Lead(old(records))| == Start(records, |old(records)|)
    {
      hide Split, Flat, OneLiners;
      var lines := SplitLines(text);
      ghost var added := RecordsOf(lines, kind, speaker);
      SplitKeepsText(records, text, kind, speaker);
      offset := if records == [] then 0 else flatLen + 1;
      ghost var before := records;
      assert before + added[..0] == before;
      for i := 0 to |lines|
        invariant records == before + added[..i]
        invariant flatLen == |Flat(records)|
        invariant offset == |Lead(before)|
      {
        var start := if records == [] then 0 else flatLen + 1;
        var r := Record(if i == 0 then kind else Line, speaker, lines[i]);
        FlatSnoc(records, r);
        LeadIs(records);
        flatLen := start + |lines[i]|;
        assert r == added[i];
        OneMore(before, added, i);
        records := records + [r];
      }
      assert added[..|lines|] == added;
      StartOfAdded(before, added);
    }

    // A user's input: its first line marked, the others plain lines of the same speaker.
    method AppendUserInput(text: string) returns (offset: nat)
      requires Valid()
      modifies this`records, this`flatLen, this`currentSpeaker, this`lastUserInputOffset
      ensures Valid() && Flat(records) == Lead(old(records)) + USER_PREFIX + text
      ensures offset == |Lead(old(records))| && lastUserInputOffset == offset && currentSpeaker == Some(User)
      ensures |old(records)| < |records| && records[..|old(records)|] == old(records)
      ensures offset == Start(records, |old(records)|)
      ensures UserRecords(records, |old(records)|)
    {
      hide Split, Flat, OneLiners;
      var lines := SplitLines(text);
      ghost var before := records;
      JoinOne(lines);
      SplitIsOneLiners(text);
      offset := AppendRecord(Marker, User, USER_PREFIX + lines[0]);
      PrefixedSplit(lines[0]);
      for i := 1 to |lines|
        invariant Valid() && |before| + i == |records| && records[..|before|] == before
        invariant Flat(records) == Lead(before) + USER_PREFIX + Join(lines[..i])
        invariant UserRecords(records, |before|)
      {
        JoinSnoc(lines, i);
        LeadIs(records);
        OneLineSplit(lines[i]);
        var at := AppendRecord(Line, User, lines[i]);
      }
      assert lines[..|lines|] == lines;
      JoinSplit(text);
      assert Flat(records) == Lead(before) + USER_PREFIX + text;
      currentSpeaker := Some(User);
      lastUserInputOffset := offset;
      StartKept(records, before);
    }

    // A line of the agent, after a marker when the agent was not already speaking.
    method AddAgentLine(text: string)
      requires Valid()
      modifies this`records, this`flatLen, this`currentSpeaker, this`lastAgentMarkerOffset
      ensures Valid() && currentSpeaker == Some(Agent)
      ensures var line := RecordsOf(Split(text), Line, Agent);
        records == if old(currentSpeaker) == Some(Agent) then old(records) + line
                   else old(records) + [Record(Marker, Agent, AGENT_MARKER)] + line
      ensures old(currentSpeaker) != Some(Agent) ==> lastAgentMarkerOffset == |Lead(old(records))|
      ensures old(currentSpeaker) == Some(Agent) ==> lastAgentMarkerOffset == old(lastAgentMarkerOffset)
    {
      hide Split, Flat, OneLiners;
      if currentSpeaker != Some(Agent) {
        OneLineSplit(AGENT_MARKER);
        lastAgentMarkerOffset := AppendRecord(Marker, Agent, AGENT_MARKER);
        assert RecordsOf([AGENT_MARKER], Marker, Agent) == [Record(Marker, Agent, AGENT_MARKER)];
        currentSpeaker := Some(Agent);
      }
      var at := AppendRecord(Line, Agent, text);
    }

    method FlatText() returns (text: string)
      ensures text == Flat(records)
    {
      text := "";
      assert records[..0] == [];
      for i := 0 to |records|
        invariant text == Flat(records[..i])
      {
        assert records[..i + 1] == records[..i] + [records[i]];
        FlatSnoc(records[..i], records[i]);
        text := if i == 0 then records[i].text else text + "\n" + records[i].text;
      }
      assert records[..|records|] == records;
    }

    // A page from an offset, and where the next one starts.
    method ReadPage(offset: int, limit: Option<int>, snap: bool) returns (r: Result<Page, PageError>)
      requires Valid()
      ensures offset < 0 ==> r == Err(BadOffset)
      ensures offset >= 0 && limit.Some? && limit.value <= 0 ==> r == Err(BadLimit)
      ensures offset >= 0 && (limit == None || limit.value > 0) ==>
        && r.Ok? && r.value.startOffset == offset && r.value.totalLen == |Flat(records)|
        && var text := Flat(records);
           && (if offset >= |text| then r.value.text == "" && r.value.nextOffset == |text|
               else r.value.text == PageAt(text, offset, if limit == None then None else Some(limit.value as nat), snap)
                    && r.value.nextOffset == offset + |r.value.text|)
           && (records != []
               ==> exists i: nat :: Holds(records, i, offset) && r.value.speakerAtStart == records[i].speaker)
           && (records != []
               ==> (r.value.continued <==> !exists i :: 0 <= i < |records| && Start(records, i) == offset))
    {
      hide Flat, Holds, Start, OneLiners;
      if offset < 0 {
        return Err(BadOffset);
      }
      if limit.Some? && limit.value <= 0 {
        return Err(BadLimit);
      }
      var text := FlatText();
      var total := |text|;
      var speaker := SpeakerAt(records, offset);
      var boundary := IsAtRecordBoundary(text, offset);
      if records != [] { BoundaryIsRecordStart(records, offset); }
      if offset >= total {
        return Ok(Page("", offset, total, speaker, !boundary, total));
      }
      var chunk := text[offset..];
      if limit == None || |chunk| <= limit.value {
        return Ok(Page(chunk, offset, total, speaker, !boundary, total));
      }
      if snap {
        var page, next := SnapPage(chunk, offset, limit.value);
        return Ok(Page(page, offset, next, speaker, !boundary, total));
      }
      return Ok(Page(chunk[..limit.value], offset, offset + limit.value, speaker, !boundary, total));
    }

    // The last characters of the flat text, from a line start when there is one among them.
    method Tail(maxChars: Option<nat>) returns (excerpt: string, start: nat, speaker: Speaker)
      requires Valid()
      ensures var text := Flat(records);
        && start <= |text| && excerpt == text[start..]
        && (maxChars.Some? ==> |excerpt| <= maxChars.value)
        && (maxChars == None || |text| <= maxChars.value ==> start == 0)
        && (maxChars.Some? && |text| > maxChars.value ==>
              var from := |text| - maxChars.value;
              if exists j :: from <= j < |text| && text[j] == '\n' then
                from < start && text[start - 1] == '\n' && forall j :: from <= j < start - 1 ==> text[j] != '\n'
              else start == from)
      ensures records != [] ==> exists i: nat :: Holds(records, i, start) && speaker == records[i].speaker
    {
      hide Flat, Holds, Start, OneLiners;
      var text := FlatText();
      start := 0;
      if maxChars.Some? && |text| > maxChars.value {
        var from := |text| - maxChars.value;
        var nl := from;
        while nl < |text| && text[nl] != '\n'
          invariant from <= nl <= |text| && forall j :: from <= j < nl ==> text[j] != '\n'
        {
          nl := nl + 1;
        }
        start := if nl < |text| then nl + 1 else from;
      }
      excerpt := text[start..];
      speaker := SpeakerAt(records, start);
    }
  }

  lemma LeadIs(records: seq<Record>)
    ensures records == [] ==> Lead(records) == ""
    ensures records != [] ==> Lead(records) == Flat(records) + "\n"
  {
  }

  lemma OneMore<T>(before: seq<T>, added: seq<T>, i: nat)
    requires i < |added|
    ensures before + added[..i + 1] == (before + added[..i]) + [added[i]]
  {
    assert added[..i + 1] == added[..i] + [added[i]];
  }

  lemma StartOfAdded(before: seq<Record>, added: seq<Record>)
    ensures Start(before + added, |before|) == |Lead(before)|
  {
    assert (before + added)[..|before|] == before;
  }

  lemma StartKept(records: seq<Record>, before: seq<Record>)
    requires |before| <= |records| && records[..|before|] == before
    ensures Start(records, |before|) == |Lead(before)|
  {
  }

  function Join(lines: seq<string>): string {
    if lines == [] then ""
    else if |lines| == 1 then lines[0]
    else Join(lines[..|lines| - 1]) + "\n" + lines[|lines| - 1]
  }

  lemma JoinOne(lines: seq<string>)
    requires lines != []
    ensures Join(lines[..1]) == lines[0]
  {
  }

  lemma JoinSnoc(lines: seq<string>, i: nat)
    requires 0 < i < |lines|
    ensures Join(lines[..i + 1]) == Join(lines[..i]) + "\n" + lines[i]
  {
    assert lines[..i + 1][..i] == lines[..i];
  }

  lemma {:induction false} JoinSplit(text: string)
    ensures Join(Split(text)) == text
    decreases |text|
  {
    hide LastNewline, Split;
    var i := LastNewline(text);
    SplitAt(text, i);
    if i != -1 {
      JoinSplit(text[..i]);
      var lines := Split(text);
      assert lines[..|lines| - 1] == Split(text[..i]);
    }
  }

  lemma {:induction false} SplitIsOneLiners(text: string)
    ensures forall line :: line in Split(text) ==> OneLine(line)
    decreases |text|
  {
    hide LastNewline, Split;
    var i := LastNewline(text);
    SplitAt(text, i);
    if i != -1 {
      SplitIsOneLiners(text[..i]);
    }
  }

  lemma OneLineSplit(line: string)
    requires OneLine(line)
    ensures Split(line) == [line]
    ensures forall k, s :: RecordsOf(Split(line), k, s) == [Record(k, s, line)]
  {
    assert LastNewline(line) == -1;
    forall k, s ensures RecordsOf(Split(line), k, s) == [Record(k, s, line)] {
    }
  }

  lemma PrefixedSplit(line: string)
    requires OneLine(line)
    ensures OneLine(USER_PREFIX + line)
    ensures RecordsOf(Split(USER_PREFIX + line), Marker, User) == [Record(Marker, User, USER_PREFIX + line)]
  {
    OneLineSplit(USER_PREFIX + line);
  }
}
