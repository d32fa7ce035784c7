/**
  The transcript builder (daemon/transcript_builder.py): it follows the content lines of successive
  screen frames as occurrences, and commits each to the dialog once, when it has been on screen long
  enough and then left it.

  A row's text is what is compared exactly; its normal form, in which runs of white space count as one,
  is what tells two sightings of a line.  Both are opaque, and so is the driver's judgement of a row.
*/
module Transcript {
  import opened Prelude

  type Id = nat

  datatype Row = Row(blank: bool, text: Id, norm: Id, volatile: bool, chrome: bool)

  // One occurrence of a line.
  datatype Line = Line(id: nat, norm: Id, text: Id, y: int, firstSeen: nat, lastSeen: nat, seen: nat, committed: bool)

  datatype Sighting = Sighting(y: nat, norm: Id, text: Id)

  // ---- the content of a frame -------------------------------------------------------------------------------

  predicate IsContent(row: Row) {
    !row.blank && !row.volatile
  }

  // A non-blank row of the active prompt.
  predicate IsChrome(row: Row) {
    !row.blank && row.chrome
  }

  // The topmost content row with this text.
  predicate IsTop(rows: seq<Row>, p: nat, text: Id) {
    p < |rows| && IsContent(rows[p]) && rows[p].text == text
    && forall q :: 0 <= q < p && IsContent(rows[q]) ==> rows[q].text != text
  }

  // A leftover of a half-done redraw: the same text stands higher up, above the active prompt.
  ghost predicate IsRemnant(rows: seq<Row>, y: nat)
    requires y < |rows|
  {
    exists p, c :: 0 <= p < c < y && IsTop(rows, p, rows[y].text) && IsChrome(rows[c])
  }

  ghost predicate IsKept(rows: seq<Row>, y: int) {
    0 <= y < |rows| && IsContent(rows[y]) && !IsRemnant(rows, y)
  }

  function SightingOf(rows: seq<Row>, y: nat): Sighting
    requires y < |rows|
  {
    Sighting(y, rows[y].norm, rows[y].text)
  }

  predicate TopDown(content: seq<Sighting>) {
    forall i, j :: 0 <= i < j < |content| ==> content[i].y < content[j].y
  }

  // Is there prompt chrome strictly between two rows?
  method ChromeBetween(rows: seq<Row>, lo: nat, hi: nat) returns (found: bool)
    requires lo < hi <= |rows|
    ensures found <==> exists c :: lo < c < hi && IsChrome(rows[c])
  {
    for c := lo + 1 to hi
      invariant forall k :: lo < k < c ==> !IsChrome(rows[k])
    {
      if IsChrome(rows[c]) {
        return true;
      }
    }
    return false;
  }

  // Exactly the content rows that are no remnants, top down.
  method ContentRows(rows: seq<Row>) returns (content: seq<Sighting>)
    ensures TopDown(content)
    ensures forall s :: s in content ==> IsKept(rows, s.y) && s == SightingOf(rows, s.y)
    ensures forall y :: IsKept(rows, y) ==> SightingOf(rows, y) in content
  {
    content := [];
    var firstY: map<Id, nat> := map[];
    for y := 0 to |rows|
      invariant TopDown(content) && forall s :: s in content ==> s.y < y
      invariant forall s :: s in content ==> IsKept(rows, s.y) && s == SightingOf(rows, s.y)
      invariant forall k :: 0 <= k < y && IsKept(rows, k) ==> SightingOf(rows, k) in content
      invariant forall t :: t in firstY ==> firstY[t] < y && IsTop(rows, firstY[t], t)
      invariant forall k :: 0 <= k < y && IsContent(rows[k]) ==> rows[k].text in firstY
    {
      var row := rows[y];
      if !IsContent(row) {
        continue;
      }
      if row.text in firstY {
        var torn := ChromeBetween(rows, firstY[row.text], y);
        RemnantByTop(rows, y, firstY[row.text]);
        if torn {
          continue;
        }
      } else {
        TopIsNoRemnant(rows, y);
        firstY := firstY[row.text := y];
      }
      var s := SightingOf(rows, y);
      assert forall x :: x in content + [s] <==> x in content || x == s;
      content := content + [s];
    }
  }

  lemma RemnantByTop(rows: seq<Row>, y: nat, p: nat)
    requires y < |rows| && p < y && IsTop(rows, p, rows[y].text)
    ensures IsRemnant(rows, y) <==> exists c :: p < c < y && IsChrome(rows[c])
  {
    forall q: nat | q < |rows| && IsTop(rows, q, rows[y].text) ensures q == p {
    }
  }

  lemma TopIsNoRemnant(rows: seq<Row>, y: nat)
    requires y < |rows| && forall q :: 0 <= q < y && IsContent(rows[q]) ==> rows[q].text != rows[y].text
    ensures !IsRemnant(rows, y)
  {
  }

  // The topmost of equal rows is always kept.
  lemma TopIsKept(rows: seq<Row>, p: nat, text: Id)
    requires IsTop(rows, p, text)
    ensures IsKept(rows, p)
  {
    TopIsNoRemnant(rows, p);
  }

  // ---- every occurrence ever made ---------------------------------------------------------------------------

  type Lines = map<nat, Line>

  ghost predicate Numbered(lines: Lines, made: nat) {
    forall id: nat :: id in lines <==> id < made
  }

  // How often the first n occurrences were seen, all together.
  ghost function Sightings(lines: Lines, n: nat): nat {
    if n == 0 then 0 else Sightings(lines, n - 1) + (if n - 1 in lines then lines[n - 1].seen else 0)
  }

  lemma {:induction false} SightingsUpdate(lines: Lines, n: nat, id: nat, line: Line)
    requires id in lines
    ensures Sightings(lines[id := line], n) == Sightings(lines, n) + (if id < n then line.seen - lines[id].seen else 0)
  {
    if n > 0 {
      SightingsUpdate(lines, n - 1, id, line);
    }
  }

  lemma {:induction false} SightingsBefore(lines: Lines, n: nat, id: nat, line: Line)
    requires n <= id
    ensures Sightings(lines[id := line], n) == Sightings(lines, n)
  {
    if n > 0 {
      SightingsBefore(lines, n - 1, id, line);
    }
  }

  // The tracked lines are occurrences, each once, oldest first, as they now are.
  ghost predicate Tracks(lines: Lines, tracked: seq<Line>) {
    && (forall i :: 0 <= i < |tracked| ==> tracked[i].id in lines && lines[tracked[i].id] == tracked[i])
    && OldestFirst(tracked)
  }

  ghost predicate OldestFirst(lines: seq<Line>) {
    forall i, j :: 0 <= i < j < |lines| ==> lines[i].id < lines[j].id
  }

  ghost predicate IsTracked(tracked: seq<Line>, id: nat) {
    exists i :: 0 <= i < |tracked| && tracked[i].id == id
  }

  // An occurrence no longer tracked was committed, or was seen too seldom.
  ghost predicate LeftRightly(lines: Lines, tracked: seq<Line>, stable: nat) {
    forall id :: id in lines ==> IsTracked(tracked, id) || lines[id].committed || lines[id].seen < stable
  }

  // `log` names the committed occurrences, each once, in the order of the dialog's lines.
  ghost predicate Logged(lines: Lines, log: seq<nat>, dialog: seq<Id>) {
    && |log| == |dialog|
    && (forall k :: 0 <= k < |log| ==> log[k] in lines && lines[log[k]].committed && dialog[k] == lines[log[k]].text)
    && (forall j, k :: 0 <= j < k < |log| ==> log[j] != log[k])
    && (forall id :: id in lines && lines[id].committed ==> id in log)
  }

  // ---- sorting what is to be committed ----------------------------------------------------------------------

  predicate Before(a: Line, b: Line) {
    a.firstSeen < b.firstSeen || (a.firstSeen == b.firstSeen && a.y <= b.y)
  }

  predicate InOrder(lines: seq<Line>) {
    forall i, j :: 0 <= i < j < |lines| ==> Before(lines[i], lines[j])
  }

  // Where a line goes: after all that come before it.
  method PlaceFor(sorted: seq<Line>, line: Line) returns (i: nat)
    requires InOrder(sorted)
    ensures i <= |sorted|
    ensures forall j :: 0 <= j < i ==> Before(sorted[j], line)
    ensures forall j :: i <= j < |sorted| ==> !Before(sorted[j], line)
  {
    i := |sorted|;
    while i > 0 && !Before(sorted[i - 1], line)
      invariant i <= |sorted|
      invariant forall j :: i <= j < |sorted| ==> !Before(sorted[j], line)
    {
      i := i - 1;
    }
    forall j | 0 <= j < i ensures Before(sorted[j], line) {
      assert j < i - 1 ==> Before(sorted[j], sorted[i - 1]);
    }
  }

  // The lines of one sort key, in their order.
  function Keyed(lines: seq<Line>, firstSeen: nat, y: int): seq<Line> {
    if lines == [] then []
    else
      var n := |lines| - 1;
      Keyed(lines[..n], firstSeen, y)
      + (if lines[n].firstSeen == firstSeen && lines[n].y == y then [lines[n]] else [])
  }

  lemma {:induction false} KeyedAppend(s: seq<Line>, t: seq<Line>, firstSeen: nat, y: int)
    ensures Keyed(s + t, firstSeen, y) == Keyed(s, firstSeen, y) + Keyed(t, firstSeen, y)
    decreases |t|
  {
    if t == [] {
      assert s + t == s;
    } else {
      var n := |t| - 1;
      KeyedAppend(s, t[..n], firstSeen, y);
      assert (s + t)[..|s + t| - 1] == s + t[..n];
    }
  }

  lemma {:induction false} NoneKeyed(s: seq<Line>, firstSeen: nat, y: int)
    requires forall line :: line in s ==> line.firstSeen != firstSeen || line.y != y
    ensures Keyed(s, firstSeen, y) == []
    decreases |s|
  {
    if s != [] {
      NoneKeyed(s[..|s| - 1], firstSeen, y);
    }
  }

  // Lines of one key stay in the order they had.
  ghost predicate Stable(sorted: seq<Line>, lines: seq<Line>) {
    forall firstSeen, y :: Keyed(sorted, firstSeen, y) == Keyed(lines, firstSeen, y)
  }

  lemma InsertedStable(sorted: seq<Line>, line: Line, i: nat, lines: seq<Line>)
    requires i <= |sorted| && Stable(sorted, lines)
    requires forall j :: i <= j < |sorted| ==> !Before(sorted[j], line)
    ensures Stable(sorted[..i] + [line] + sorted[i..], lines + [line])
  {
    var head, tail := sorted[..i], sorted[i..];
    forall f, y ensures Keyed(head + [line] + tail, f, y) == Keyed(lines + [line], f, y) {
      KeyedAppend(head, tail, f, y);
      KeyedAppend(head + [line], tail, f, y);
      KeyedAppend(head, [line], f, y);
      KeyedAppend(lines, [line], f, y);
      assert head + tail == sorted;
      if line.firstSeen == f && line.y == y {
        NoneKeyed(tail, f, y);
      }
    }
  }

  method Insert(sorted: seq<Line>, line: Line, ghost lines: seq<Line>) returns (r: seq<Line>)
    requires InOrder(sorted) && Stable(sorted, lines)
    ensures InOrder(r) && multiset(r) == multiset(sorted) + multiset{line}
    ensures Stable(r, lines + [line])
  {
    var i := PlaceFor(sorted, line);
    InsertedInOrder(sorted, line, i);
    InsertedStable(sorted, line, i, lines);
    hide InOrder, Stable;
    r := sorted[..i] + [line] + sorted[i..];
    assert sorted == sorted[..i] + sorted[i..];
  }

  lemma InsertedInOrder(sorted: seq<Line>, line: Line, i: nat)
    requires InOrder(sorted) && i <= |sorted|
    requires forall j :: 0 <= j < i ==> Before(sorted[j], line)
    requires forall j :: i <= j < |sorted| ==> !Before(sorted[j], line)
    ensures InOrder(sorted[..i] + [line] + sorted[i..])
  {
    assert forall j :: i <= j < |sorted| ==> Before(line, sorted[j]);
    hide Before;
    var r := sorted[..i] + [line] + sorted[i..];
    assert forall j :: 0 <= j < |r| ==> r[j] == if j < i then sorted[j] else if j == i then line else sorted[j - 1];
  }

  method Sort(lines: seq<Line>) returns (sorted: seq<Line>)
    ensures InOrder(sorted) && multiset(sorted) == multiset(lines) && Stable(sorted, lines)
  {
    sorted := [];
    assert lines[..0] == [];
    for k := 0 to |lines|
      invariant InOrder(sorted) && multiset(sorted) == multiset(lines[..k]) && Stable(sorted, lines[..k])
    {
      assert lines[..k + 1] == lines[..k] + [lines[k]];
      sorted := Insert(sorted, lines[k], lines[..k]);
    }
    assert lines[..|lines|] == lines;
  }

  ghost predicate DistinctIds(lines: seq<Line>) {
    forall i, j :: 0 <= i < j < |lines| ==> lines[i].id != lines[j].id
  }

  lemma {:induction false} IdOnce(lines: seq<Line>, line: Line)
    requires DistinctIds(lines)
    ensures multiset(lines)[line] <= 1
    ensures line in lines ==> forall other :: other in lines && other.id == line.id ==> other == line
    decreases |lines|
  {
    if lines != [] {
      var n := |lines| - 1;
      assert lines == lines[..n] + [lines[n]];
      IdOnce(lines[..n], line);
      if lines[n] == line {
        assert line !in lines[..n];
      }
    }
  }

  lemma SortedIds(lines: seq<Line>, sorted: seq<Line>)
    requires DistinctIds(lines) && multiset(sorted) == multiset(lines)
    ensures DistinctIds(sorted) && forall line :: line in sorted <==> line in lines
  {
    forall line ensures line in sorted <==> line in lines {
      assert line in multiset(sorted) <==> line in multiset(lines);
    }
    forall i, j | 0 <= i < j < |sorted| ensures sorted[i].id != sorted[j].id {
      IdOnce(lines, sorted[i]);
      Twice(sorted, i, j);
      assert sorted[i] in lines && sorted[j] in lines;
    }
  }

  lemma Twice(s: seq<Line>, i: int, j: int)
    requires 0 <= i < j < |s|
    ensures s[i] == s[j] ==> multiset(s)[s[i]] >= 2
  {
    assert s == s[..i] + [s[i]] + s[i + 1..j] + [s[j]] + s[j + 1..];
  }

  function Distance(a: int, b: int): nat {
    if a < b then b - a else a - b
  }

  // ---- matching a frame's content with what is tracked ------------------------------------------------------

  // Row s was matched to place i: to a line tracked before, near enough and alike, or to a new one.
  predicate Took(before: seq<Line>, after: seq<Line>, s: Sighting, i: nat, frame: nat, window: nat) {
    && i < |after|
    && if i < |before| then
         && before[i].norm == s.norm && Distance(before[i].y, s.y) <= window
         && after[i] == before[i].(lastSeen := frame, seen := before[i].seen + 1, y := s.y)
       else
         after[i] == Line(after[i].id, s.norm, s.text, s.y, frame, frame, 1, false)
  }

  // Line i of before was no better for row s than what s took: farther off, or as near and not before it.
  predicate NoBetter(before: seq<Line>, s: Sighting, took: nat, i: nat, window: nat)
    requires i < |before|
  {
    before[i].norm == s.norm ==>
      if took < |before| then
        var d, e := Distance(before[took].y, s.y), Distance(before[i].y, s.y);
        d < e || (d == e && took <= i)
      else Distance(before[i].y, s.y) > window
  }

  // Row by row from the top, each took the best of the lines that the rows above it had left.
  ghost predicate Greedy(before: seq<Line>, content: seq<Sighting>, took: seq<nat>, window: nat) {
    && |took| <= |content|
    && forall k, i: nat :: 0 <= k < |took| && i < |before| && i !in took[..k] ==>
         NoBetter(before, content[k], took[k], i, window)
  }

  lemma GreedyMore(before: seq<Line>, content: seq<Sighting>, took: seq<nat>, place: nat, window: nat)
    requires Greedy(before, content, took, window) && |took| < |content|
    requires forall i: nat :: i < |before| && i !in took ==> NoBetter(before, content[|took|], place, i, window)
    ensures Greedy(before, content, took + [place], window)
  {
    hide NoBetter;
    assert (took + [place])[..|took|] == took;
    assert forall k :: 0 <= k < |took| ==> (took + [place])[..k] == took[..k];
  }

  lemma NoneGreedy(before: seq<Line>, content: seq<Sighting>, window: nat)
    ensures Greedy(before, content, [], window)
  {
  }

  // Every row took one place, no place was taken twice, and nothing else changed.
  ghost predicate Matched(before: seq<Line>, after: seq<Line>, content: seq<Sighting>, took: seq<nat>,
                          frame: nat, window: nat)
  {
    && |took| == |content| && |before| <= |after|
    && (forall k :: 0 <= k < |content| ==> Took(before, after, content[k], took[k], frame, window))
    && (forall j, k :: 0 <= j < k < |took| ==> took[j] != took[k])
    && (forall i: nat :: i < |after| && i !in took ==> i < |before| && after[i] == before[i])
    && Greedy(before, content, took, window)
  }

  // ---- what a frame ends ------------------------------------------------------------------------------------

  // Not seen for the last `grace` frames.
  predicate Gone(line: Line, frame: nat, grace: nat) {
    line.lastSeen as int <= frame - grace
  }

  predicate IsDue(line: Line, frame: nat, grace: nat, stable: nat) {
    Gone(line, frame, grace) && line.seen >= stable && !line.committed
  }

  function Survivors(lines: seq<Line>, frame: nat, grace: nat): seq<Line> {
    if lines == [] then []
    else
      var rest := Survivors(lines[..|lines| - 1], frame, grace);
      if Gone(lines[|lines| - 1], frame, grace) then rest else rest + [lines[|lines| - 1]]
  }

  function Due(lines: seq<Line>, frame: nat, grace: nat, stable: nat): seq<Line> {
    if lines == [] then []
    else
      var rest := Due(lines[..|lines| - 1], frame, grace, stable);
      if IsDue(lines[|lines| - 1], frame, grace, stable) then rest + [lines[|lines| - 1]] else rest
  }

  function Uncommitted(lines: seq<Line>): seq<Line> {
    if lines == [] then []
    else
      var rest := Uncommitted(lines[..|lines| - 1]);
      if lines[|lines| - 1].committed then rest else rest + [lines[|lines| - 1]]
  }

  lemma NoneDistinct()
    ensures DistinctIds([])
  {
  }

  lemma LastIsApart(lines: seq<Line>)
    requires lines != [] && DistinctIds(lines)
    ensures var n := |lines| - 1;
      && DistinctIds(lines[..n]) && lines == lines[..n] + [lines[n]]
      && forall line :: line in lines[..n] ==> line.id != lines[n].id
  {
  }

  lemma ApartSnoc(lines: seq<Line>, line: Line)
    requires DistinctIds(lines) && forall other :: other in lines ==> other.id != line.id
    ensures DistinctIds(lines + [line])
    ensures forall x :: x in lines + [line] <==> x in lines || x == line
  {
  }

  lemma {:induction false} SurvivorsAre(lines: seq<Line>, frame: nat, grace: nat)
    requires OldestFirst(lines)
    ensures var r := Survivors(lines, frame, grace);
      OldestFirst(r) && forall line :: line in r <==> line in lines && !Gone(line, frame, grace)
    decreases |lines|
  {
    if lines != [] {
      var n := |lines| - 1;
      var rest := Survivors(lines[..n], frame, grace);
      SurvivorsAre(lines[..n], frame, grace);
      assert lines == lines[..n] + [lines[n]];
      forall line | line in rest ensures line.id < lines[n].id {
        assert line in lines[..n];
      }
    }
  }

  lemma {:induction false} DueAre(lines: seq<Line>, frame: nat, grace: nat, stable: nat)
    requires DistinctIds(lines)
    ensures var r := Due(lines, frame, grace, stable);
      DistinctIds(r) && forall line :: line in r <==> line in lines && IsDue(line, frame, grace, stable)
  {
    hide DistinctIds;
    if lines != [] {
      LastIsApart(lines);
      DueAre(lines[..|lines| - 1], frame, grace, stable);
      ApartSnoc(Due(lines[..|lines| - 1], frame, grace, stable), lines[|lines| - 1]);
    } else {
      NoneDistinct();
    }
  }

  lemma {:induction false} UncommittedAre(lines: seq<Line>)
    requires DistinctIds(lines)
    ensures DistinctIds(Uncommitted(lines))
    ensures forall line :: line in Uncommitted(lines) <==> line in lines && !line.committed
  {
    hide DistinctIds;
    if lines != [] {
      LastIsApart(lines);
      UncommittedAre(lines[..|lines| - 1]);
      ApartSnoc(Uncommitted(lines[..|lines| - 1]), lines[|lines| - 1]);
    } else {
      NoneDistinct();
    }
  }

  function Texts(lines: seq<Line>): seq<Id> {
    seq(|lines|, i requires 0 <= i < |lines| => lines[i].text)
  }

  // The same lines, oldest first, and those of one age and row in the order they had.
  ghost predicate IsSortOf(sorted: seq<Line>, lines: seq<Line>) {
    InOrder(sorted) && multiset(sorted) == multiset(lines) && Stable(sorted, lines)
  }

  ghost predicate HasId(lines: seq<Line>, id: nat) {
    exists line :: line in lines && line.id == id
  }

  // `after` is `before` with exactly these occurrences committed.
  ghost predicate CommitsOf(before: Lines, after: Lines, lines: seq<Line>) {
    && after.Keys == before.Keys
    && (forall line :: line in lines ==> line.id in after && after[line.id] == line.(committed := true))
    && (forall id :: id in after && !HasId(lines, id) ==> after[id] == before[id])
  }

  // ---- the builder ------------------------------------------------------------------------------------------

  class TranscriptBuilder {
    const stable: nat
    const grace: nat
    const window: nat
    var frameNo: nat
    var tracked: seq<Line>
    var dialog: seq<Id>            // the lines given to the dialog, in order
    var made: nat
    ghost var lines: Lines         // every occurrence ever made, as it now is
    ghost var log: seq<nat>        // the occurrences committed, in order
    ghost var rowsTotal: nat       // content rows of all frames

    ghost predicate Valid()
      reads this
    {
      && Numbered(lines, made) && Tracks(lines, tracked)
      && LeftRightly(lines, tracked, stable) && Logged(lines, log, dialog)
      && Sightings(lines, made) == rowsTotal
    }

    constructor (stableFrames: nat, graceFrames: nat, matchWindow: nat)
      ensures Valid() && tracked == [] && dialog == [] && rowsTotal == 0
      ensures stable == stableFrames && grace == graceFrames && window == matchWindow
    {
      stable, grace, window := stableFrames, graceFrames, matchWindow;
      frameNo, tracked, dialog, made := 0, [], [], 0;
      lines, log, rowsTotal := map[], [], 0;
    }

    // The nearest unmatched line like this row, within the window; the first of equally near ones.
    method FindBest(s: Sighting, unmatched: set<nat>, prefix: nat) returns (best: Option<nat>)
      requires prefix <= |tracked| && forall i :: i in unmatched ==> i < prefix
      ensures best.Some? ==>
        best.value in unmatched && tracked[best.value].norm == s.norm && Distance(tracked[best.value].y, s.y) <= window
      ensures forall i :: i in unmatched ==>
        NoBetter(tracked[..prefix], s, if best.Some? then best.value else prefix, i, window)
    {
      best := None;
      for i := 0 to prefix
        invariant best.Some? ==> best.value in unmatched && best.value < i
        invariant best.Some? ==> tracked[best.value].norm == s.norm && Distance(tracked[best.value].y, s.y) <= window
        invariant forall k :: k in unmatched && k < i ==>
          NoBetter(tracked[..prefix], s, if best.Some? then best.value else prefix, k, window)
      {
        if i in unmatched {
          var o := tracked[i];
          if o.norm == s.norm {
            var d := Distance(o.y, s.y);
            if d <= window && (best == None || d < Distance(tracked[best.value].y, s.y)) {
              best := Some(i);
            }
          }
        }
      }
    }

    // The same line, seen once more in this frame.
    method Resee(i: nat, y: nat)
      requires Valid() && i < |tracked|
      modifies this`tracked, this`lines, this`rowsTotal
      ensures Valid() && rowsTotal == old(rowsTotal) + 1
      ensures var was := old(tracked)[i];
        tracked == old(tracked)[i := was.(lastSeen := frameNo, seen := was.seen + 1, y := y)]
    {
      var o := tracked[i].(lastSeen := frameNo, seen := tracked[i].seen + 1, y := y);
      Change(lines, tracked, made, stable, log, dialog, i, o);
      tracked := tracked[i := o];
      lines := lines[o.id := o];
      rowsTotal := rowsTotal + 1;
    }

    method MakeLine(s: Sighting)
      requires Valid()
      modifies this`tracked, this`lines, this`rowsTotal, this`made
      ensures Valid() && rowsTotal == old(rowsTotal) + 1
      ensures tracked == old(tracked) + [Line(old(made), s.norm, s.text, s.y, frameNo, frameNo, 1, false)]
    {
      var o := Line(made, s.norm, s.text, s.y, frameNo, frameNo, 1, false);
      NewOccurrence(lines, tracked, made, stable, log, dialog, o);
      tracked := tracked + [o];
      lines := lines[made := o];
      made := made + 1;
      rowsTotal := rowsTotal + 1;
    }

    // Match each row of a frame to the nearest line like it that no other row has taken, or to a new one.
    method MatchRows(content: seq<Sighting>) returns (ghost took: seq<nat>)
      requires Valid()
      modifies this`tracked, this`lines, this`rowsTotal, this`made
      ensures Valid() && rowsTotal == old(rowsTotal) + |content|
      ensures Matched(old(tracked), tracked, content, took, frameNo, window)
    {
      hide Numbered, Tracks, LeftRightly, Logged, Sightings, NoBetter, Greedy;
      ghost var before := tracked;
      NoneGreedy(before, content, window);
      var prefix := |tracked|;
      var unmatched: set<nat> := AllBelow(prefix);
      took := [];
      for r := 0 to |content|
        invariant Valid() && rowsTotal == old(rowsTotal) + r
        invariant prefix == |before| <= |tracked| && |took| == r
        invariant forall i :: i in unmatched ==> i < prefix && tracked[i] == before[i]
        invariant forall i: nat :: i < prefix ==> (i in unmatched <==> i !in took)
        invariant forall i :: i in took ==> i < |tracked|
        invariant forall k :: 0 <= k < r ==> Took(before, tracked, content[k], took[k], frameNo, window)
        invariant forall j, k :: 0 <= j < k < r ==> took[j] != took[k]
        invariant forall i: nat :: i < |tracked| && i !in took ==> i < prefix
        invariant Greedy(before, content, took, window)
      {
        var s := content[r];
        var best := FindBest(s, unmatched, prefix);
        ghost var was := tracked;
        ghost var place := if best.Some? then best.value else |tracked|;
        forall i | i in unmatched ensures NoBetter(before, s, place, i, window) {
          SameChoice(before, tracked, s, best, prefix, i, window);
        }
        if best.Some? {
          Resee(best.value, s.y);
          unmatched := unmatched - {best.value};
        } else {
          MakeLine(s);
        }
        forall k | 0 <= k < r ensures Took(before, tracked, content[k], took[k], frameNo, window) {
          assert took[k] in took && took[k] != place;
          TookStays(before, was, tracked, content[k], took[k], frameNo, window);
        }
        GreedyMore(before, content, took, place, window);
        took := took + [place];
      }
    }

    // Give lines to the dialog.
    method CommitAll(due: seq<Line>)
      requires Numbered(lines, made) && Logged(lines, log, dialog) && DistinctIds(due)
      requires forall line :: line in due ==> line.id in lines && lines[line.id] == line && !line.committed
      modifies this`dialog, this`lines, this`log
      ensures Numbered(lines, made) && Logged(lines, log, dialog)
      ensures dialog == old(dialog) + Texts(due)
      ensures CommitsOf(old(lines), lines, due)
      ensures Sightings(lines, made) == Sightings(old(lines), made)
    {
      hide Numbered, Logged, CommitsOf, Texts;
      ghost var before := lines;
      Started(before, due);
      assert dialog + Texts([]) == dialog by { NoTexts(dialog); }
      for k := 0 to |due|
        invariant Numbered(lines, made) && Logged(lines, log, dialog)
        invariant dialog == old(dialog) + Texts(due[..k])
        invariant CommitsOf(before, lines, due[..k])
        invariant Sightings(lines, made) == Sightings(before, made)
      {
        assert due[k] in due;
        CommitNext(before, lines, due, k);
        CommitOne(lines, made, log, dialog, due[k]);
        MoreTexts(old(dialog), due, k);
        dialog := dialog + [due[k].text];
        log := log + [due[k].id];
        lines := lines[due[k].id := due[k].(committed := true)];
      }
      assert due[..|due|] == due;
    }

    // Fold in one frame: match its rows, then commit and drop what has been gone for long enough.
    method Observe(rows: seq<Row>)
      returns (ghost content: seq<Sighting>, ghost took: seq<nat>, ghost matched: seq<Line>, ghost committed: seq<Line>)
      requires Valid()
      modifies this
      ensures Valid() && frameNo == old(frameNo) + 1
      ensures TopDown(content) && rowsTotal == old(rowsTotal) + |content|
      ensures forall s :: s in content ==> IsKept(rows, s.y) && s == SightingOf(rows, s.y)
      ensures forall y :: IsKept(rows, y) ==> SightingOf(rows, y) in content
      ensures Matched(old(tracked), matched, content, took, old(frameNo), window)
      ensures tracked == Survivors(matched, old(frameNo), grace)
      ensures IsSortOf(committed, Due(matched, old(frameNo), grace, stable)) && dialog == old(dialog) + Texts(committed)
      ensures forall line :: line in tracked <==> line in matched && old(frameNo) < line.lastSeen + grace
      ensures forall line :: line in committed <==>
        && line in matched && line.lastSeen + grace <= old(frameNo) && line.seen >= stable && !line.committed
    {
      hide Numbered, Tracks, LeftRightly, Logged, Matched, IsKept, Texts;
      var sightings := ContentRows(rows);
      content := sightings;
      took := MatchRows(sightings);
      matched := tracked;
      committed := Sweep();
      frameNo := frameNo + 1;
    }

    method Sweep() returns (sorted: seq<Line>)
      requires Valid()
      modifies this`tracked, this`dialog, this`lines, this`log
      ensures Valid()
      ensures tracked == Survivors(old(tracked), frameNo, grace)
      ensures IsSortOf(sorted, Due(old(tracked), frameNo, grace, stable)) && dialog == old(dialog) + Texts(sorted)
      ensures forall line :: line in tracked <==> line in old(tracked) && frameNo < line.lastSeen + grace
      ensures forall line :: line in sorted <==>
        && line in old(tracked) && line.lastSeen + grace <= frameNo && line.seen >= stable && !line.committed
    {
      hide Numbered, Logged, Texts, LeftRightly, Sightings, Tracks, OldestFirst, DistinctIds, CommitsOf;
      var survivors: seq<Line> := [];
      var toCommit: seq<Line> := [];
      for i := 0 to |tracked|
        invariant survivors == Survivors(tracked[..i], frameNo, grace)
        invariant toCommit == Due(tracked[..i], frameNo, grace, stable)
      {
        var o := tracked[i];
        assert tracked[..i + 1][..i] == tracked[..i];
        if Gone(o, frameNo, grace) {
          if o.seen >= stable && !o.committed {
            toCommit := toCommit + [o];
          }
        } else {
          survivors := survivors + [o];
        }
      }
      assert tracked[..|tracked|] == tracked;
      sorted := Sort(toCommit);
      ghost var before := lines;
      TrackedDistinct(lines, tracked);
      DueAre(tracked, frameNo, grace, stable);
      SortedIds(toCommit, sorted);
      DueAreOccurrences(lines, tracked, sorted, frameNo, grace, stable);
      CommitAll(sorted);
      SurvivorsAre(tracked, frameNo, grace);
      SweepKeeps(before, lines, tracked, survivors, sorted, frameNo, grace, stable);
      tracked := survivors;
    }

    // At a stop: fold in the last frame, then commit every tracked line not yet committed, however
    // seldom seen.
    method Finalize(frame: Option<seq<Row>>)
      returns (ghost content: seq<Sighting>, ghost took: seq<nat>, ghost matched: seq<Line>,
               ghost swept: seq<Line>, ghost committed: seq<Line>)
      requires Valid()
      modifies this
      ensures Valid() && forall line :: line in tracked ==> line.committed
      ensures frame == None ==>
        && IsSortOf(committed, Uncommitted(old(tracked))) && dialog == old(dialog) + Texts(committed)
        && rowsTotal == old(rowsTotal) && |tracked| == |old(tracked)| && frameNo == old(frameNo)
      ensures frame.Some? ==>
        && frameNo == old(frameNo) + 1 && rowsTotal == old(rowsTotal) + |content| && TopDown(content)
        && (forall s :: s in content ==> IsKept(frame.value, s.y) && s == SightingOf(frame.value, s.y))
        && (forall y :: IsKept(frame.value, y) ==> SightingOf(frame.value, y) in content)
        && Matched(old(tracked), matched, content, took, old(frameNo), window)
        && IsSortOf(swept, Due(matched, old(frameNo), grace, stable))
        && IsSortOf(committed, Uncommitted(Survivors(matched, old(frameNo), grace)))
        && |tracked| == |Survivors(matched, old(frameNo), grace)|
        && dialog == old(dialog) + Texts(swept) + Texts(committed)
    {
      hide Numbered, Tracks, LeftRightly, Logged, Texts, Matched, IsKept, IsSortOf, Survivors, Due, TopDown,
          Uncommitted;
      content, took, matched, swept := [], [], [], [];
      if frame.Some? {
        content, took, matched, swept := Observe(frame.value);
      }
      committed := CommitRest();
    }

    method CommitRest() returns (sorted: seq<Line>)
      requires Valid()
      modifies this`tracked, this`dialog, this`lines, this`log
      ensures Valid() && forall line :: line in tracked ==> line.committed
      ensures |tracked| == |old(tracked)|
      ensures IsSortOf(sorted, Uncommitted(old(tracked))) && dialog == old(dialog) + Texts(sorted)
    {
      hide Numbered, Logged, Texts, LeftRightly, Sightings, Tracks, DistinctIds, CommitsOf;
      var pending: seq<Line> := [];
      var kept: seq<Line> := [];
      for i := 0 to |tracked|
        invariant pending == Uncommitted(tracked[..i])
        invariant |kept| == i && forall k :: 0 <= k < i ==> kept[k] == tracked[k].(committed := true)
      {
        assert tracked[..i + 1][..i] == tracked[..i];
        if !tracked[i].committed {
          pending := pending + [tracked[i]];
        }
        kept := kept + [tracked[i].(committed := true)];
      }
      assert tracked[..|tracked|] == tracked;
      sorted := Sort(pending);
      ghost var before := lines;
      TrackedDistinct(lines, tracked);
      UncommittedAre(tracked);
      SortedIds(pending, sorted);
      PendingAreOccurrences(lines, tracked, sorted);
      CommitAll(sorted);
      RestKeeps(before, lines, tracked, kept, sorted, stable);
      tracked := kept;
    }
  }

  method AllBelow(n: nat) returns (r: set<nat>)
    ensures forall i: nat :: i in r <==> i < n
  {
    r := {};
    for k := 0 to n
      invariant forall i: nat :: i in r <==> i < k
    {
      r := r + {k};
    }
  }

  lemma TookStays(before: seq<Line>, was: seq<Line>, after: seq<Line>, s: Sighting, i: nat, frame: nat, window: nat)
    requires Took(before, was, s, i, frame, window) && |was| <= |after| && after[i] == was[i]
    ensures Took(before, after, s, i, frame, window)
  {
  }

  lemma SameChoice(before: seq<Line>, tracked: seq<Line>, s: Sighting, best: Option<nat>, prefix: nat, i: nat,
                   window: nat)
    requires prefix == |before| <= |tracked| && i < prefix && tracked[i] == before[i]
    requires best.Some? ==> best.value < prefix && tracked[best.value] == before[best.value]
    requires NoBetter(tracked[..prefix], s, if best.Some? then best.value else prefix, i, window)
    ensures NoBetter(before, s, if best.Some? then best.value else |tracked|, i, window)
  {
  }

  // Changing a tracked line's place and count keeps the books.
  lemma Change(lines: Lines, tracked: seq<Line>, made: nat, stable: nat, log: seq<nat>, dialog: seq<Id>, i: nat,
               o: Line)
    requires Numbered(lines, made) && Tracks(lines, tracked) && LeftRightly(lines, tracked, stable)
        && Logged(lines, log, dialog)
    requires i < |tracked| && o == tracked[i].(lastSeen := o.lastSeen, seen := tracked[i].seen + 1, y := o.y)
    ensures var l, t := lines[o.id := o], tracked[i := o];
      && Numbered(l, made) && Tracks(l, t) && LeftRightly(l, t, stable) && Logged(l, log, dialog)
      && Sightings(l, made) == Sightings(lines, made) + 1
  {
    assert Numbered(lines[o.id := o], made);
    SightingsUpdate(lines, made, o.id, o);
    ChangeTracks(lines, tracked, stable, i, o);
    ChangeLog(lines, log, dialog, o);
  }

  lemma ChangeTracks(lines: Lines, tracked: seq<Line>, stable: nat, i: nat, o: Line)
    requires Tracks(lines, tracked) && LeftRightly(lines, tracked, stable) && i < |tracked| && o.id == tracked[i].id
    ensures Tracks(lines[o.id := o], tracked[i := o]) && LeftRightly(lines[o.id := o], tracked[i := o], stable)
  {
    var t := tracked[i := o];
    forall id | IsTracked(tracked, id) ensures IsTracked(t, id) {
      var k :| 0 <= k < |tracked| && tracked[k].id == id;
      assert t[k].id == id;
    }
    assert t[i].id == o.id;
  }

  lemma ChangeLog(lines: Lines, log: seq<nat>, dialog: seq<Id>, o: Line)
    requires Logged(lines, log, dialog) && o.id in lines
    requires o.committed == lines[o.id].committed && o.text == lines[o.id].text
    ensures Logged(lines[o.id := o], log, dialog)
  {
  }

  lemma NewOccurrence(lines: Lines, tracked: seq<Line>, made: nat, stable: nat, log: seq<nat>, dialog: seq<Id>, o: Line)
    requires Numbered(lines, made) && Tracks(lines, tracked) && LeftRightly(lines, tracked, stable)
        && Logged(lines, log, dialog)
    requires o.id == made && o.seen == 1 && !o.committed
    ensures var l, t := lines[made := o], tracked + [o];
      && Numbered(l, made + 1) && Tracks(l, t) && LeftRightly(l, t, stable) && Logged(l, log, dialog)
      && Sightings(l, made + 1) == Sightings(lines, made) + 1
  {
    var l, t := lines[made := o], tracked + [o];
    assert made !in lines;
    SightingsBefore(lines, made, made, o);
    forall id | IsTracked(tracked, id) ensures IsTracked(t, id) {
      var k :| 0 <= k < |tracked| && tracked[k].id == id;
      assert t[k].id == id;
    }
    assert t[|tracked|].id == made;
  }

  lemma TrackedDistinct(lines: Lines, tracked: seq<Line>)
    requires Tracks(lines, tracked)
    ensures OldestFirst(tracked) && DistinctIds(tracked)
  {
  }

  lemma DueAreOccurrences(lines: Lines, tracked: seq<Line>, due: seq<Line>, frame: nat, grace: nat, stable: nat)
    requires Tracks(lines, tracked)
    requires forall line :: line in due ==> line in tracked && IsDue(line, frame, grace, stable)
    ensures forall line :: line in due ==> line.id in lines && lines[line.id] == line && !line.committed
  {
  }

  lemma PendingAreOccurrences(lines: Lines, tracked: seq<Line>, pending: seq<Line>)
    requires Tracks(lines, tracked) && forall line :: line in pending ==> line in tracked && !line.committed
    ensures forall line :: line in pending ==> line.id in lines && lines[line.id] == line && !line.committed
  {
  }

  lemma Started(lines: Lines, due: seq<Line>)
    ensures CommitsOf(lines, lines, due[..0])
  {
  }

  lemma NoTexts(dialog: seq<Id>)
    ensures dialog + Texts([]) == dialog
  {
  }

  lemma MoreTexts(dialog: seq<Id>, due: seq<Line>, k: nat)
    requires k < |due|
    ensures (dialog + Texts(due[..k])) + [due[k].text] == dialog + Texts(due[..k + 1])
  {
  }

  lemma NotYet(due: seq<Line>, k: nat)
    requires DistinctIds(due) && k < |due|
    ensures !HasId(due[..k], due[k].id)
    ensures forall id :: HasId(due[..k + 1], id) <==> HasId(due[..k], id) || id == due[k].id
    ensures forall line :: line in due[..k + 1] <==> line in due[..k] || line == due[k]
  {
    assert due[..k + 1] == due[..k] + [due[k]];
    assert forall line :: line in due[..k + 1] <==> line in due[..k] || line == due[k];
    assert due[k] in due[..k + 1];
    forall line | line in due[..k] ensures line.id != due[k].id {
      var j :| 0 <= j < k && due[j] == line;
    }
  }

  // The next line to commit is still as it was, and committing it extends what is committed.
  lemma CommitNext(before: Lines, lines: Lines, due: seq<Line>, k: nat)
    requires DistinctIds(due) && k < |due| && CommitsOf(before, lines, due[..k])
    requires due[k].id in before && before[due[k].id] == due[k]
    ensures due[k].id in lines && lines[due[k].id] == due[k]
    ensures CommitsOf(before, lines[due[k].id := due[k].(committed := true)], due[..k + 1])
  {
    NotYet(due, k);
    forall line | line in due[..k] ensures line.id != due[k].id {
      assert HasId(due[..k], line.id);
    }
    hide HasId, DistinctIds;
  }

  lemma CommitOne(lines: Lines, made: nat, log: seq<nat>, dialog: seq<Id>, o: Line)
    requires Numbered(lines, made) && Logged(lines, log, dialog)
    requires o.id in lines && lines[o.id] == o && !o.committed
    ensures var l := lines[o.id := o.(committed := true)];
      && Numbered(l, made) && Logged(l, log + [o.id], dialog + [o.text])
      && Sightings(l, made) == Sightings(lines, made)
  {
    SightingsUpdate(lines, made, o.id, o.(committed := true));
    assert forall k :: 0 <= k < |log| ==> log[k] != o.id;
  }

  // Dropping what is gone, once the due part of it is committed, keeps the books.
  lemma SweepKeeps(before: Lines, lines: Lines, tracked: seq<Line>, survivors: seq<Line>, due: seq<Line>,
                   frame: nat, grace: nat, stable: nat)
    requires Tracks(before, tracked) && LeftRightly(before, tracked, stable) && CommitsOf(before, lines, due)
    requires OldestFirst(survivors)
    requires forall line :: line in survivors <==> line in tracked && !Gone(line, frame, grace)
    requires forall line :: line in due <==> line in tracked && IsDue(line, frame, grace, stable)
    ensures Tracks(lines, survivors) && LeftRightly(lines, survivors, stable)
  {
    forall line | line in survivors ensures line.id in lines && lines[line.id] == line {
      forall other | other in due ensures other.id != line.id {
      }
    }
    forall id | id in lines ensures IsTracked(survivors, id) || lines[id].committed || lines[id].seen < stable {
      if line :| line in due && line.id == id {
        assert lines[id].committed;
      } else if IsTracked(tracked, id) {
        var k :| 0 <= k < |tracked| && tracked[k].id == id;
        assert tracked[k] in tracked;
        if !Gone(tracked[k], frame, grace) {
          var j :| 0 <= j < |survivors| && survivors[j] == tracked[k];
          assert IsTracked(survivors, id);
        }
      }
    }
  }

  lemma RestKeeps(before: Lines, lines: Lines, tracked: seq<Line>, kept: seq<Line>, pending: seq<Line>, stable: nat)
    requires Tracks(before, tracked) && LeftRightly(before, tracked, stable) && CommitsOf(before, lines, pending)
    requires forall line :: line in pending <==> line in tracked && !line.committed
    requires |kept| == |tracked| && forall k :: 0 <= k < |kept| ==> kept[k] == tracked[k].(committed := true)
    ensures Tracks(lines, kept) && LeftRightly(lines, kept, stable)
  {
    forall k | 0 <= k < |kept| ensures kept[k].id in lines && lines[kept[k].id] == kept[k] {
      assert tracked[k] in tracked;
      if tracked[k].committed {
        forall other | other in pending ensures other.id != tracked[k].id {
          var j :| 0 <= j < |tracked| && tracked[j] == other;
        }
      }
    }
    forall id | IsTracked(tracked, id) ensures IsTracked(kept, id) {
      var k :| 0 <= k < |tracked| && tracked[k].id == id;
      assert kept[k].id == id;
    }
    forall id | id in lines ensures IsTracked(kept, id) || lines[id].committed || lines[id].seen < stable {
      if line :| line in pending && line.id == id {
        assert lines[id].committed;
      }
    }
  }
}
