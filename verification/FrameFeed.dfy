/**
  Cutting the terminal's byte stream into frames (daemon/pty_session.py): the renderer is fed, and
  after every end-of-frame sequence it is asked for a snapshot.  A read may end in the middle of that
  sequence, so a trailing part of it is held back until the next read.

  What the renderer is given is a function of the bytes alone, however they were split into reads.
*/
module FrameFeeds {
  import opened Prelude

  // ESC [ ? 2 0 2 6 l
  const ESU: seq<Byte> := [27, 91, 63, 50, 48, 50, 54, 108]

  datatype Event = Fed(byte: Byte) | Snapshot

  // The laws below hold of any marker whose first byte does not come again in it.
  predicate IsMarker(p: seq<Byte>) {
    |p| > 0 && forall j :: 0 < j < |p| ==> p[j] != p[0]
  }

  lemma EsuIsMarker()
    ensures IsMarker(ESU)
  {
  }

  predicate OccursAt(p: seq<Byte>, s: seq<Byte>, i: int) {
    0 <= i && i + |p| <= |s| && s[i..i + |p|] == p
  }

  predicate EndsAt(p: seq<Byte>, s: seq<Byte>, m: int) {
    OccursAt(p, s, m - |p|)
  }

  // What is left from x on is a proper beginning of the marker.
  predicate HoldsFrom(p: seq<Byte>, s: seq<Byte>, x: int) {
    0 <= x <= |s| && |s| - x < |p| && s[x..] == p[..|s| - x]
  }

  // The longest such rest starts at x.
  ghost predicate IsHeldBack(p: seq<Byte>, s: seq<Byte>, x: int) {
    HoldsFrom(p, s, x) && forall y :: 0 <= y < x ==> !HoldsFrom(p, s, y)
  }

  // The first n bytes of the stream, with a snapshot after each that completes a marker.
  function Marked(p: seq<Byte>, s: seq<Byte>, n: nat): seq<Event>
    requires n <= |s|
  {
    if n == 0 then []
    else Marked(p, s, n - 1) + [Fed(s[n - 1])] + (if EndsAt(p, s, n) then [Snapshot] else [])
  }

  // ---- the two searches ---------------------------------------------------------------------------------

  // The length of the longest proper beginning of the marker that buf ends with.
  method EsuPartialLen(buf: seq<Byte>) returns (k: nat)
    ensures k <= |buf| && IsHeldBack(ESU, buf, |buf| - k)
  {
    k := |ESU| - 1;
    while k > 0
      invariant k < |ESU|
      invariant forall y :: 0 <= y < |buf| - k ==> !HoldsFrom(ESU, buf, y)
    {
      if k <= |buf| && buf[|buf| - k..] == ESU[..k] {
        return;
      }
      assert k <= |buf| ==> !HoldsFrom(ESU, buf, |buf| - k);
      k := k - 1;
    }
    assert HoldsFrom(ESU, buf, |buf|);
  }

  // The first occurrence at or after pos, or -1.
  method Find(buf: seq<Byte>, pos: nat) returns (i: int)
    requires pos <= |buf|
    ensures i == -1 || (pos <= i && OccursAt(ESU, buf, i))
    ensures forall j :: pos <= j && (i == -1 || j < i) ==> !OccursAt(ESU, buf, j)
  {
    i := pos;
    while i + |ESU| <= |buf|
      invariant pos <= i
      invariant forall j :: pos <= j < i ==> !OccursAt(ESU, buf, j)
    {
      if buf[i..i + |ESU|] == ESU {
        return;
      }
      i := i + 1;
    }
    i := -1;
  }

  // ---- what the trace says --------------------------------------------------------------------------------

  function BytesOf(t: seq<Event>): seq<Byte> {
    if t == [] then []
    else
      var rest := BytesOf(t[..|t| - 1]);
      if t[|t| - 1].Fed? then rest + [t[|t| - 1].byte] else rest
  }

  // After how many bytes each snapshot was taken.
  function SnapshotPoints(t: seq<Event>): set<nat> {
    if t == [] then {}
    else
      var rest := SnapshotPoints(t[..|t| - 1]);
      if t[|t| - 1] == Snapshot then rest + {|BytesOf(t[..|t| - 1])|} else rest
  }

  lemma SnocEvent(t: seq<Event>, e: Event)
    ensures BytesOf(t + [e]) == if e.Fed? then BytesOf(t) + [e.byte] else BytesOf(t)
    ensures SnapshotPoints(t + [e]) == if e == Snapshot then SnapshotPoints(t) + {|BytesOf(t)|} else SnapshotPoints(t)
  {
    assert (t + [e])[..|t + [e]| - 1] == t;
  }

  function EndsWithin(p: seq<Byte>, s: seq<Byte>, n: nat): set<nat> {
    set m: nat | 0 < m <= n && EndsAt(p, s, m)
  }

  lemma {:induction false} MarkedBytes(p: seq<Byte>, s: seq<Byte>, n: nat)
    requires n <= |s|
    ensures BytesOf(Marked(p, s, n)) == s[..n]
  {
    hide EndsAt, BytesOf;
    if n > 0 {
      MarkedBytes(p, s, n - 1);
      var t := Marked(p, s, n - 1);
      var t1 := t + [Fed(s[n - 1])];
      SnocEvent(t, Fed(s[n - 1]));
      SnocEvent(t1, Snapshot);
      assert s[..n] == s[..n - 1] + [s[n - 1]];
      assert t1 + [] == t1;
    } else {
      assert BytesOf([]) == [] by { NoBytes(); }
    }
  }

  lemma NoBytes()
    ensures BytesOf([]) == []
  {
  }

  lemma EndsWithinNext(p: seq<Byte>, s: seq<Byte>, n: nat)
    requires n > 0
    ensures EndsWithin(p, s, n) == EndsWithin(p, s, n - 1) + (if EndsAt(p, s, n) then {n} else {})
  {
  }

  lemma {:induction false} MarkedSnapshots(p: seq<Byte>, s: seq<Byte>, n: nat)
    requires n <= |s|
    ensures SnapshotPoints(Marked(p, s, n)) == EndsWithin(p, s, n)
  {
    hide EndsAt, BytesOf;
    if n > 0 {
      hide SnapshotPoints, EndsWithin;
      MarkedSnapshots(p, s, n - 1);
      var t := Marked(p, s, n - 1);
      var t1 := t + [Fed(s[n - 1])];
      SnocEvent(t, Fed(s[n - 1]));
      SnocEvent(t1, Snapshot);
      MarkedBytes(p, s, n - 1);
      EndsWithinNext(p, s, n);
      assert t1 + [] == t1;
    }
  }

  // Inside an occurrence no other one starts, nor a held-back rest.
  lemma OccurrenceIsAlone(p: seq<Byte>, s: seq<Byte>, i: int, x: int)
    requires IsMarker(p) && OccursAt(p, s, i) && i < x < i + |p|
    ensures !OccursAt(p, s, x) && !HoldsFrom(p, s, x)
  {
    assert s[x] == s[i..i + |p|][x - i] == p[x - i];
  }

  // No occurrence reaches into what is held back.
  lemma HeldBackIsAfterOccurrences(p: seq<Byte>, s: seq<Byte>, x: int, i: int)
    requires IsMarker(p) && HoldsFrom(p, s, x) && OccursAt(p, s, i)
    ensures i + |p| <= x
  {
    if i < x < i + |p| {
      OccurrenceIsAlone(p, s, i, x);
    }
  }

  // For a whole stream: what was fed and what is held back make up the stream, and the snapshots are
  // exactly at the ends of the markers in it.
  lemma TraceOfStream(s: seq<Byte>, x: int)
    requires IsHeldBack(ESU, s, x)
    ensures var t := Marked(ESU, s, x);
      && BytesOf(t) + s[x..] == s
      && SnapshotPoints(t) == EndsWithin(ESU, s, |s|)
  {
    EsuIsMarker();
    MarkedBytes(ESU, s, x);
    MarkedSnapshots(ESU, s, x);
    forall m: nat | 0 < m <= |s| && EndsAt(ESU, s, m) ensures m <= x {
      HeldBackIsAfterOccurrences(ESU, s, x, m - |ESU|);
    }
    assert EndsWithin(ESU, s, |s|) == EndsWithin(ESU, s, x);
  }

  // There is one trace for a stream.
  lemma HeldBackIsUnique(s: seq<Byte>, x: int, y: int)
    requires IsHeldBack(ESU, s, x) && IsHeldBack(ESU, s, y)
    ensures x == y
  {
  }

  // ---- feeding ----------------------------------------------------------------------------------------------

  function Bytes(s: seq<Byte>): seq<Event> {
    seq(|s|, i requires 0 <= i < |s| => Fed(s[i]))
  }

  // A stretch in which no marker ends, except perhaps at its end.
  lemma {:induction false} MarkedStretch(p: seq<Byte>, s: seq<Byte>, a: nat, b: nat)
    requires a < b <= |s|
    requires forall m :: a - |p| < m < b - |p| ==> !OccursAt(p, s, m)
    ensures Marked(p, s, b) == Marked(p, s, a) + Bytes(s[a..b]) + (if EndsAt(p, s, b) then [Snapshot] else [])
    decreases b - a
  {
    if b == a + 1 {
      assert Bytes(s[a..b]) == [Fed(s[a])];
    } else {
      MarkedStretch(p, s, a, b - 1);
      assert !OccursAt(p, s, b - 1 - |p|);
      assert Bytes(s[a..b]) == Bytes(s[a..b - 1]) + [Fed(s[b - 1])];
    }
  }

  // Longer streams have the same beginnings.
  lemma {:induction false} MarkedPrefix(p: seq<Byte>, s: seq<Byte>, more: seq<Byte>, n: nat)
    requires n <= |s|
    ensures Marked(p, s + more, n) == Marked(p, s, n)
  {
    if n > 0 {
      MarkedPrefix(p, s, more, n - 1);
      OccursInPrefix(p, s, more, n - |p|);
    }
  }

  lemma OccursInPrefix(p: seq<Byte>, s: seq<Byte>, more: seq<Byte>, i: int)
    requires i + |p| <= |s|
    ensures OccursAt(p, s + more, i) <==> OccursAt(p, s, i)
  {
    if 0 <= i {
      assert (s + more)[i..i + |p|] == s[i..i + |p|];
    }
  }

  lemma HoldsInPrefix(p: seq<Byte>, s: seq<Byte>, more: seq<Byte>, x: int)
    requires x <= |s| && HoldsFrom(p, s + more, x)
    ensures HoldsFrom(p, s, x)
  {
    var all := s + more;
    assert s[x..] == all[x..][..|s| - x];
    assert p[..|all| - x][..|s| - x] == p[..|s| - x];
  }

  // An occurrence that starts in s and is completed later leaves s holding its beginning.
  lemma CutOccurrenceHolds(p: seq<Byte>, s: seq<Byte>, more: seq<Byte>, x: int)
    requires OccursAt(p, s + more, x) && x <= |s| < x + |p|
    ensures HoldsFrom(p, s, x)
  {
    var all := s + more;
    assert s[x..] == all[x..x + |p|][..|s| - x] == p[..|s| - x];
  }

  // A place that no marker straddles, complete or begun.
  ghost predicate Clean(p: seq<Byte>, s: seq<Byte>, from: int) {
    && 0 <= from <= |s|
    && (forall x :: from - |p| < x < from ==> !OccursAt(p, s, x))
    && (forall x :: 0 <= x < from ==> !HoldsFrom(p, s, x))
  }

  lemma CleanAfterOccurrence(p: seq<Byte>, s: seq<Byte>, i: int)
    requires IsMarker(p) && OccursAt(p, s, i)
    ensures Clean(p, s, i + |p|)
  {
    forall x | i < x < i + |p| ensures !OccursAt(p, s, x) && !HoldsFrom(p, s, x) {
      OccurrenceIsAlone(p, s, i, x);
    }
  }

  lemma CleanAtHeldBack(p: seq<Byte>, s: seq<Byte>, from: int, data: seq<Byte>)
    requires IsMarker(p) && IsHeldBack(p, s, from)
    ensures Clean(p, s + data, from)
  {
    forall x | 0 <= x < from ensures !HoldsFrom(p, s + data, x) {
      if HoldsFrom(p, s + data, x) {
        HoldsInPrefix(p, s, data, x);
      }
    }
    forall x | from - |p| < x < from ensures !OccursAt(p, s + data, x) {
      if x + |p| <= |s| {
        OccursInPrefix(p, s, data, x);
        if OccursAt(p, s, x) {
          HeldBackIsAfterOccurrences(p, s, from, x);
        }
      } else if OccursAt(p, s + data, x) {
        CutOccurrenceHolds(p, s, data, x);
      }
    }
  }

  // What the buffer shows is what the stream has from there on.
  lemma OccursInRest(p: seq<Byte>, s: seq<Byte>, from: nat, i: int)
    requires from <= |s| && from <= i
    ensures OccursAt(p, s, i) <==> OccursAt(p, s[from..], i - from)
  {
    if i + |p| <= |s| {
      assert s[from..][i - from..i - from + |p|] == s[i..i + |p|];
    }
  }

  lemma HoldsInRest(p: seq<Byte>, s: seq<Byte>, from: nat, x: int)
    requires from <= |s| && from <= x
    ensures HoldsFrom(p, s, x) <==> HoldsFrom(p, s[from..], x - from)
  {
    if x <= |s| {
      assert s[from..][x - from..] == s[x..];
    }
  }

  lemma HeldBackOfRest(p: seq<Byte>, s: seq<Byte>, from: nat, x: int)
    requires Clean(p, s, from) && IsHeldBack(p, s[from..], x)
    ensures IsHeldBack(p, s, from + x)
  {
    HoldsInRest(p, s, from, from + x);
    forall y | from <= y < from + x ensures !HoldsFrom(p, s, y) {
      HoldsInRest(p, s, from, y);
    }
  }

  // Feeding up to the end of the next occurrence, or the rest when there is none.
  lemma FeedStretch(p: seq<Byte>, s: seq<Byte>, base: nat, pos: nat, i: int, end: nat)
    requires Clean(p, s, base + pos) && base + pos <= end <= |s| && |p| > 0
    requires forall j :: pos <= j && (i == -1 || j < i) ==> !OccursAt(p, s[base..], j)
    requires i != -1 ==> pos <= i && OccursAt(p, s[base..], i) && end == base + i + |p|
    ensures Marked(p, s, end)
         == Marked(p, s, base + pos) + Bytes(s[base + pos..end]) + (if i != -1 then [Snapshot] else [])
  {
    if base + pos < end {
      forall m | base + pos - |p| < m <= end - |p| && (i == -1 || m < end - |p|) ensures !OccursAt(p, s, m) {
        if base + pos <= m {
          OccursInRest(p, s, base, m);
        }
      }
      if i != -1 {
        OccursInRest(p, s, base, base + i);
      }
      MarkedStretch(p, s, base + pos, end);
    }
  }

  lemma SliceOfRest(s: seq<Byte>, base: nat, a: nat, b: nat)
    requires base <= |s| && a <= b <= |s| - base
    ensures s[base..][a..b] == s[base + a..base + b]
    ensures s[base..][a..] == s[base + a..]
  {
  }

  lemma NothingRead()
    ensures IsHeldBack(ESU, [], 0) && Marked(ESU, [], 0) == [] && Bytes([]) == []
  {
  }

  class FrameFeed {
    const hasTranscript: bool
    var esuCarry: seq<Byte>
    var raw: seq<Byte>              // the byte-exact spool
    var trace: seq<Event>           // what the renderer was given and when it was read
    ghost var stream: seq<Byte>     // everything ever read

    ghost predicate Valid()
      reads this
    {
      && raw == stream
      && (if hasTranscript then
            && |esuCarry| <= |stream| && esuCarry == stream[|stream| - |esuCarry|..]
            && IsHeldBack(ESU, stream, |stream| - |esuCarry|)
            && trace == Marked(ESU, stream, |stream| - |esuCarry|)
          else esuCarry == [] && trace == Bytes(stream))
    }

    constructor (withTranscript: bool)
      ensures Valid() && stream == [] && hasTranscript == withTranscript
    {
      hasTranscript := withTranscript;
      esuCarry, raw, trace, stream := [], [], [], [];
      new;
      hide HoldsFrom, IsHeldBack, Marked, Bytes;
      NothingRead();
    }

    method Feed(data: seq<Byte>)
      requires Valid()
      modifies this
      ensures Valid() && stream == old(stream) + data
    {
      raw := raw + data;
      if !hasTranscript {
        assert Bytes(stream + data) == Bytes(stream) + Bytes(data);
        stream := stream + data;
        trace := trace + Bytes(data);
        return;
      }
      FeedFrames(data);
    }

    method FeedFrames(data: seq<Byte>)
      requires hasTranscript && |esuCarry| <= |stream| && esuCarry == stream[|stream| - |esuCarry|..]
      requires IsHeldBack(ESU, stream, |stream| - |esuCarry|)
      requires trace == Marked(ESU, stream, |stream| - |esuCarry|)
      requires raw == stream + data
      modifies this`esuCarry, this`trace, this`stream
      ensures Valid() && stream == old(stream) + data
    {
      hide IsMarker, OccursAt, EndsAt, HoldsFrom, IsHeldBack, Clean, Marked, Bytes;
      ghost var all := stream + data;
      ghost var base := |stream| - |esuCarry|;
      EsuIsMarker();
      CleanAtHeldBack(ESU, stream, base, data);
      MarkedPrefix(ESU, stream, data, base);
      var buf := esuCarry + data;
      assert buf == all[base..];
      esuCarry := [];
      var pos := 0;
      var i := Find(buf, pos);
      while i >= 0
        invariant pos <= |buf| && buf == all[base..] && Clean(ESU, all, base + pos)
            && trace == Marked(ESU, all, base + pos)
        invariant i == -1 || (pos <= i && OccursAt(ESU, buf, i))
        invariant forall j :: pos <= j && (i == -1 || j < i) ==> !OccursAt(ESU, buf, j)
        decreases if i < 0 then 0 else |buf| + 1 - pos
      {
        Fits(ESU, buf, i);
        var end := i + |ESU|;
        FeedStretch(ESU, all, base, pos, i, base + end);
        SliceOfRest(all, base, pos, end);
        trace := trace + Bytes(buf[pos..end]);
        trace := trace + [Snapshot];
        OccursInRest(ESU, all, base, base + i);
        CleanAfterOccurrence(ESU, all, base + i);
        pos := end;
        i := Find(buf, pos);
      }
      var rest := buf[pos..];
      var k := EsuPartialLen(rest);
      SliceOfRest(all, base, pos, |buf| - k);
      HeldBackOfRest(ESU, all, base + pos, |rest| - k);
      esuCarry := rest[|rest| - k..];
      rest := rest[..|rest| - k];
      FeedStretch(ESU, all, base, pos, -1, base + pos + |rest|);
      assert rest == buf[pos..|buf| - k];
      trace := trace + Bytes(rest);
      stream := all;
    }
  }

  lemma Fits(p: seq<Byte>, s: seq<Byte>, i: int)
    requires OccursAt(p, s, i)
    ensures 0 <= i && i + |p| <= |s|
  {
  }

  // However the same bytes were split into reads, the renderer was given the same, and the same is
  // held back.
  lemma SplittingDoesNotMatter(a: FrameFeed, b: FrameFeed)
    requires a.Valid() && b.Valid() && a.hasTranscript == b.hasTranscript && a.stream == b.stream
    ensures a.trace == b.trace && a.esuCarry == b.esuCarry
  {
    hide IsHeldBack, Marked, Bytes;
    if a.hasTranscript {
      HeldBackIsUnique(a.stream, |a.stream| - |a.esuCarry|, |b.stream| - |b.esuCarry|);
    }
  }
}
