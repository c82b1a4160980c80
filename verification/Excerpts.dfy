/**
 * Focused excerpts of a web page (examples/travel-planner/src/research.ts, 193-226 and 419-447):
 * overlapping windows are ranked, the best disjoint ones chosen, and each cut down until the
 * whole result, encoded as JSON, fits its budget.
 */
module Excerpts {
  import opened Common
  import opened Sorting

  /** A UTF-16 code unit; a page text is a sequence of them and may hold half a surrogate pair. */
  type CodeUnit = x: nat | x < 0x1_0000

  type Text = seq<CodeUnit>

  const MAX_RESULT_BYTES := 12 * 1_024
  const STRIDE := 1_000
  const WINDOW := 1_600
  const MAX_EXCERPTS := 6

  // ------------------------------------------------------------------ JSON sizes

  predicate High(u: CodeUnit) { 0xD800 <= u < 0xDC00 }
  predicate Low(u: CodeUnit) { 0xDC00 <= u < 0xE000 }

  /** Bytes of one code unit in a JSON string: short escapes, control escapes, then UTF-8. */
  function UnitBytes(u: CodeUnit): nat {
    if u == 0x22 || u == 0x5C || u == 8 || u == 9 || u == 10 || u == 12 || u == 13 then 2
    else if u < 0x20 then 6
    else if u < 0x80 then 1
    else if u < 0x800 then 2
    else if High(u) || Low(u) then 6
    else 3
  }

  /** Bytes of a string's content from a unit on: a surrogate pair is one four-byte character. */
  function ContentBytes(t: Text, i: nat): nat
    decreases |t| - i
  {
    if i >= |t| then 0
    else if i + 1 < |t| && High(t[i]) && Low(t[i + 1]) then 4 + ContentBytes(t, i + 2)
    else UnitBytes(t[i]) + ContentBytes(t, i + 1)
  }

  function JsonBytes(t: Text): nat {
    2 + ContentBytes(t, 0)
  }

  function Total(sizes: seq<nat>): nat {
    if sizes == [] then 0 else Total(sizes[..|sizes| - 1]) + sizes[|sizes| - 1]
  }

  function Sizes(texts: seq<Text>): (r: seq<nat>)
    ensures |r| == |texts|
  {
    seq(|texts|, i requires 0 <= i < |texts| => JsonBytes(texts[i]))
  }

  /**
   * Bytes of a result, given those of the same result without excerpts and not truncated:
   * the excerpts, the commas between them, and one letter less in `true` than in `false`.
   */
  function ResultBytes(frame: nat, excerpts: seq<Text>, truncated: bool): int {
    frame + Total(Sizes(excerpts)) + (if excerpts == [] then 0 else |excerpts| - 1) - (if truncated then 1 else 0)
  }

  // ------------------------------------------------------------------ choosing windows

  datatype Candidate = Candidate(start: nat, end: nat, score: nat)

  predicate Overlaps(a: Candidate, b: Candidate) {
    a.start < b.end && a.end > b.start
  }

  /** Higher scores first, then document order. */
  function Preference(c: Candidate): Rank {
    Rank(0 - c.score, c.start)
  }

  predicate Candidates(cs: seq<Candidate>, length: nat) {
    && (forall i :: 0 <= i < |cs| ==> cs[i].start == i * STRIDE < length && cs[i].end == Min(length, cs[i].start + WINDOW))
    && |cs| * STRIDE >= length
  }

  method Windows(length: nat, score: nat -> nat) returns (cs: seq<Candidate>)
    ensures Candidates(cs, length) && forall c :: c in cs ==> c.score == score(c.start)
  {
    cs := [];
    var start := 0;
    while start < length
      invariant start == |cs| * STRIDE
      invariant forall i :: 0 <= i < |cs| ==> cs[i].start == i * STRIDE < length && cs[i].end == Min(length, cs[i].start + WINDOW)
      invariant forall c :: c in cs ==> c.score == score(c.start)
    {
      cs := cs + [Candidate(start, Min(length, start + WINDOW), score(start))];
      start := start + STRIDE;
    }
  }

  predicate Disjoint(cs: seq<Candidate>) {
    forall i, j :: 0 <= i < j < |cs| ==> !Overlaps(cs[i], cs[j])
  }

  /** Why a candidate was passed over: a preferred choice overlaps it, or there were enough before it. */
  ghost predicate Excused(selected: seq<Candidate>, c: Candidate) {
    || (exists s :: s in selected && Overlaps(c, s) && AtMost(Preference(s), Preference(c)))
    || (|selected| == MAX_EXCERPTS && forall s :: s in selected ==> AtMost(Preference(s), Preference(c)))
  }

  /** Greedy choice: disjoint windows, at most six, and no other window has cause to complain. */
  method ExcerptsFor(length: nat, score: nat -> nat) returns (selected: seq<Candidate>, ghost all: seq<Candidate>)
    ensures Candidates(all, length) && forall c :: c in all ==> c.score == score(c.start)
    ensures Disjoint(selected) && |selected| <= MAX_EXCERPTS
    ensures forall c :: c in selected ==> c in all
    ensures Ascending(selected, Preference)
    ensures forall c :: c in all && c !in selected ==> Excused(selected, c)
    ensures length > 0 ==> selected != []
  {
    var candidates := Windows(length, score);
    all := candidates;
    candidates := SortBy(candidates, Preference);
    SortSorts(all, Preference);
    SortKeepsMembers(all, Preference);
    selected := [];
    for k := 0 to |candidates|
      invariant Greedy(selected, candidates, k) && |selected| < MAX_EXCERPTS
    {
      var candidate := candidates[k];
      if exists other :: other in selected && candidate.start < other.end && candidate.end > other.start {
        GreedySkips(selected, candidates, k);
        continue;
      }
      GreedyTakes(selected, candidates, k);
      selected := selected + [candidate];
      if |selected| == MAX_EXCERPTS {
        SixAreEnough(selected, candidates, k + 1);
        return;
      }
    }
    assert candidates[..|candidates|] == candidates;
  }

  /** What the greedy choice among the first `k` of the ranked windows has achieved. */
  ghost predicate Greedy(selected: seq<Candidate>, candidates: seq<Candidate>, k: nat)
    requires k <= |candidates|
  {
    && Disjoint(selected) && Ascending(selected, Preference)
    && (forall c :: c in selected ==> c in candidates[..k])
    && (forall c :: c in candidates[..k] && c !in selected ==> Excused(selected, c))
    && (k > 0 ==> selected != [])
  }

  lemma GreedySkips(selected: seq<Candidate>, candidates: seq<Candidate>, k: nat)
    requires Ascending(candidates, Preference) && k < |candidates| && Greedy(selected, candidates, k)
    requires exists other :: other in selected && Overlaps(candidates[k], other)
    ensures Greedy(selected, candidates, k + 1)
  {
    assert candidates[..k + 1] == candidates[..k] + [candidates[k]];
    var other :| other in selected && Overlaps(candidates[k], other);
    var i :| 0 <= i < k && candidates[..k][i] == other;
    assert Excused(selected, candidates[k]);
  }

  lemma GreedyTakes(selected: seq<Candidate>, candidates: seq<Candidate>, k: nat)
    requires Ascending(candidates, Preference) && k < |candidates| && Greedy(selected, candidates, k)
    requires |selected| < MAX_EXCERPTS && !exists other :: other in selected && Overlaps(candidates[k], other)
    ensures Greedy(selected + [candidates[k]], candidates, k + 1)
  {
    assert candidates[..k + 1] == candidates[..k] + [candidates[k]];
    NextIsLast(selected, candidates, k);
    StillExcused(selected, candidates[k], candidates[..k]);
    var next := selected + [candidates[k]];
    assert forall c :: c in next <==> c in selected || c == candidates[k];
    forall i, j | 0 <= i < j < |next| ensures !Overlaps(next[i], next[j]) {
      if j == |selected| { assert selected[i] in selected; }
    }
  }

  lemma StillExcused(selected: seq<Candidate>, next: Candidate, before: seq<Candidate>)
    requires |selected| < MAX_EXCERPTS
    requires forall c :: c in before && c !in selected ==> Excused(selected, c)
    ensures forall c :: c in before && c !in selected ==> Excused(selected + [next], c)
  {
    forall c | c in before && c !in selected ensures Excused(selected + [next], c) {
      var s :| s in selected && Overlaps(c, s) && AtMost(Preference(s), Preference(c));
      assert s in selected + [next];
    }
  }

  lemma NextIsLast(selected: seq<Candidate>, candidates: seq<Candidate>, k: nat)
    requires Ascending(candidates, Preference) && k < |candidates| && Ascending(selected, Preference)
    requires forall c :: c in selected ==> c in candidates[..k]
    ensures Ascending(selected + [candidates[k]], Preference)
  {
    forall i | 0 <= i < |selected| ensures AtMost(Preference(selected[i]), Preference(candidates[k])) {
      assert selected[i] in candidates[..k];
      var j :| 0 <= j < k && candidates[..k][j] == selected[i];
    }
  }

  lemma SixAreEnough(selected: seq<Candidate>, candidates: seq<Candidate>, k: nat)
    requires Ascending(candidates, Preference) && k <= |candidates| && |selected| == MAX_EXCERPTS
    requires Greedy(selected, candidates, k)
    ensures forall c :: c in candidates && c !in selected ==> Excused(selected, c)
  {
    forall c | c in candidates && c !in selected ensures Excused(selected, c) {
      if c !in candidates[..k] {
        var j :| 0 <= j < |candidates| && candidates[j] == c;
        assert j >= k;
        forall s | s in selected ensures AtMost(Preference(s), Preference(c)) {
          assert s in candidates[..k];
          var i :| 0 <= i < k && candidates[..k][i] == s;
        }
      }
    }
  }

  // ------------------------------------------------------------------ fitting the budget

  datatype Piece = Piece(start: nat, text: Text)

  function InOrder(p: Piece): Rank {
    Rank(p.start, 0)
  }

  predicate Slice(page: Text, p: Piece) {
    p.text != [] && p.start + |p.text| <= |page| && p.text == page[p.start..p.start + |p.text|]
  }

  predicate Apart(a: Piece, b: Piece) {
    a.start + |a.text| <= b.start || b.start + |b.text| <= a.start
  }

  function Shrunk(text: Text, remaining: int): Text
    decreases |text|
  {
    if |text| == 0 || JsonBytes(text) + 1 <= remaining then text else Shrunk(text[..9 * |text| / 10], remaining)
  }

  predicate Fit(windows: seq<Candidate>, length: nat) {
    forall i :: 0 <= i < |windows| ==> windows[i].start < windows[i].end <= Min(length, windows[i].start + WINDOW)
  }

  function Window(page: Text, c: Candidate): Text
    requires c.start < c.end <= |page|
  {
    page[c.start..c.end]
  }

  /** `pieces` and what windows from `k` on add, until one shrinks away or little budget is left. */
  function Spent(page: Text, windows: seq<Candidate>, k: nat, pieces: seq<Piece>, remaining: int): seq<Piece>
    requires Fit(windows, |page|) && k <= |windows|
    decreases |windows| - k
  {
    if k == |windows| then pieces
    else
      var text := Shrunk(Window(page, windows[k]), remaining);
      if text == [] then pieces
      else
        var left := remaining - (JsonBytes(text) + 1);
        var more := pieces + [Piece(windows[k].start, text)];
        if left < 256 then more else Spent(page, windows, k + 1, more, left)
  }

  /** Each shrinking keeps nine tenths, until the text fits or nothing is left. */
  method Shrink(text: Text, remaining: int) returns (r: Text)
    ensures r == Shrunk(text, remaining)
  {
    r := text;
    while |r| > 0 && JsonBytes(r) + 1 > remaining
      invariant Shrunk(r, remaining) == Shrunk(text, remaining)
    {
      r := r[..9 * |r| / 10];
    }
  }

  ghost predicate Chosen(page: Text, pieces: seq<Piece>) {
    && |pieces| <= MAX_EXCERPTS
    && (forall i :: 0 <= i < |pieces| ==> Slice(page, pieces[i]) && |pieces[i].text| <= WINDOW)
    && (forall i, j :: 0 <= i < j < |pieces| ==> Apart(pieces[i], pieces[j]))
  }

  /** The budget charges every excerpt its bytes and one comma. */
  function Charge(pieces: seq<Piece>): nat {
    if pieces == [] then 0 else Charge(pieces[..|pieces| - 1]) + JsonBytes(pieces[|pieces| - 1].text) + 1
  }

  method Spend(page: Text, windows: seq<Candidate>, frame: nat) returns (pieces: seq<Piece>)
    requires Fit(windows, |page|)
    ensures pieces == Spent(page, windows, 0, [], MAX_RESULT_BYTES - frame)
  {
    pieces := [];
    var remaining: int := MAX_RESULT_BYTES - frame;
    for k := 0 to |windows|
      invariant Spent(page, windows, k, pieces, remaining) == Spent(page, windows, 0, [], MAX_RESULT_BYTES - frame)
    {
      var text := Shrink(Window(page, windows[k]), remaining);
      if text == [] { break; }
      pieces := pieces + [Piece(windows[k].start, text)];
      remaining := remaining - (JsonBytes(text) + 1);
      if remaining < 256 { break; }
    }
  }

  /** The pieces begin the first windows, one each. */
  predicate Follows(page: Text, s: seq<Piece>, windows: seq<Candidate>) {
    |s| <= |windows| && forall i :: 0 <= i < |s| ==> Begins(page, s[i], windows[i])
  }

  /** Each piece begins its own window. */
  lemma {:induction false} SpentFollowsTheWindows(page: Text, windows: seq<Candidate>, k: nat, pieces: seq<Piece>, remaining: int)
    requires Fit(windows, |page|) && |pieces| == k <= |windows| && Follows(page, pieces, windows)
    ensures Follows(page, Spent(page, windows, k, pieces, remaining), windows)
    ensures |Spent(page, windows, k, pieces, remaining)| >= |pieces|
    decreases |windows| - k
  {
    if k < |windows| {
      var text := Shrunk(Window(page, windows[k]), remaining);
      ShrunkIsPrefix(Window(page, windows[k]), remaining);
      if text != [] {
        var piece := Piece(windows[k].start, text);
        OneMoreFollows(page, pieces, piece, windows);
        SpentFollowsTheWindows(page, windows, k + 1, pieces + [piece], remaining - (JsonBytes(text) + 1));
      }
    }
  }

  /** Together the pieces cost no more than the budget. */
  lemma {:induction false} SpentIsAffordable(page: Text, windows: seq<Candidate>, k: nat, pieces: seq<Piece>, remaining: int)
    requires Fit(windows, |page|) && k <= |windows| && (pieces != [] ==> remaining >= 0)
    ensures var s := Spent(page, windows, k, pieces, remaining);
            s != [] ==> Charge(s) <= Charge(pieces) + remaining
    decreases |windows| - k
  {
    if k < |windows| {
      var text := Shrunk(Window(page, windows[k]), remaining);
      ShrunkIsPrefix(Window(page, windows[k]), remaining);
      if text != [] {
        var piece := Piece(windows[k].start, text);
        OneMoreCharged(pieces, piece);
        SpentIsAffordable(page, windows, k + 1, pieces + [piece], remaining - (JsonBytes(text) + 1));
      }
    }
  }

  lemma OneMoreFollows(page: Text, pieces: seq<Piece>, piece: Piece, windows: seq<Candidate>)
    requires Follows(page, pieces, windows) && |pieces| < |windows| && Begins(page, piece, windows[|pieces|])
    ensures Follows(page, pieces + [piece], windows)
  {
  }

  lemma OneMoreCharged(pieces: seq<Piece>, piece: Piece)
    ensures Charge(pieces + [piece]) == Charge(pieces) + JsonBytes(piece.text) + 1
  {
    assert (pieces + [piece])[..|pieces|] == pieces;
  }

  lemma SomethingIsSpent(page: Text, windows: seq<Candidate>, remaining: int)
    requires Fit(windows, |page|) && windows != [] && remaining >= 9
    ensures Spent(page, windows, 0, [], remaining) != []
  {
    var text := Shrunk(Window(page, windows[0]), remaining);
    ShrunkIsPrefix(Window(page, windows[0]), remaining);
    var first := [Piece(windows[0].start, text)];
    assert Begins(page, first[0], windows[0]);
    SpentFollowsTheWindows(page, windows, 1, first, remaining - (JsonBytes(text) + 1));
    assert [] + first == first;
  }

  lemma {:induction false} ShrunkIsPrefix(text: Text, remaining: int)
    ensures Shrunk(text, remaining) <= text
    ensures Shrunk(text, remaining) != [] ==> JsonBytes(Shrunk(text, remaining)) + 1 <= remaining
    ensures text != [] && remaining >= 9 ==> Shrunk(text, remaining) != []
    decreases |text|
  {
    if !(|text| == 0 || JsonBytes(text) + 1 <= remaining) {
      if |text| == 1 {
        assert ContentBytes(text, 0) == UnitBytes(text[0]);
      }
      ShrunkIsPrefix(text[..9 * |text| / 10], remaining);
    }
  }

  predicate Begins(page: Text, p: Piece, c: Candidate) {
    c.end <= |page| && p.start == c.start < c.end && p.text != [] && p.text <= page[c.start..c.end]
  }

  /** Pieces that each begin their own window are disjoint slices, if the windows are disjoint. */
  lemma BeginningsAreChosen(page: Text, windows: seq<Candidate>, s: seq<Piece>)
    requires Fit(windows, |page|) && Disjoint(windows) && |s| <= |windows| <= MAX_EXCERPTS
    requires Follows(page, s, windows)
    ensures Chosen(page, s)
  {
    forall i | 0 <= i < |s| ensures Slice(page, s[i]) && |s[i].text| <= WINDOW {
      assert Begins(page, s[i], windows[i]);
      PrefixIsSlice(page, windows[i].start, windows[i].end, s[i]);
    }
    forall i, j | 0 <= i < j < |s| ensures Apart(s[i], s[j]) {
      BeginningsAreApart(page, s[i], windows[i], s[j], windows[j]);
    }
  }

  lemma BeginningsAreApart(page: Text, p: Piece, c: Candidate, q: Piece, d: Candidate)
    requires Begins(page, p, c) && Begins(page, q, d) && !Overlaps(c, d)
    ensures Apart(p, q)
  {
  }

  lemma PrefixIsSlice(page: Text, from: nat, to: nat, piece: Piece)
    requires from <= to <= |page| && piece.start == from && piece.text != [] && piece.text <= page[from..to]
    ensures Slice(page, piece) && |piece.text| <= to - from
  {
    assert piece.text == page[from..to][..|piece.text|];
  }

  function Texts(pieces: seq<Piece>): (r: seq<Text>)
    ensures |r| == |pieces|
  {
    seq(|pieces|, i requires 0 <= i < |pieces| => pieces[i].text)
  }

  function Length(pieces: seq<Piece>): nat {
    if pieces == [] then 0 else |pieces[0].text| + Length(pieces[1..])
  }

  function Concatenated(texts: seq<Text>): Text {
    if texts == [] then [] else texts[0] + Concatenated(texts[1..])
  }

  datatype Inspection = Inspection(excerpts: seq<Text>, truncated: bool)

  /** The whole result, or nothing when not even one unit of text fits. */
  method Inspect(page: Text, score: nat -> nat, frame: nat) returns (r: Option<Inspection>, ghost pieces: seq<Piece>)
    ensures r.Some? ==>
              && 1 <= |r.value.excerpts| <= MAX_EXCERPTS
              && ResultBytes(frame, r.value.excerpts, r.value.truncated) <= MAX_RESULT_BYTES
    ensures r.Some? ==> r.value.excerpts == Texts(pieces) && Chosen(page, pieces) && Ascending(pieces, InOrder)
    ensures r.Some? ==> (!r.value.truncated <==> Concatenated(r.value.excerpts) == page)
    ensures page != [] && frame + 9 <= MAX_RESULT_BYTES ==> r.Some?
  {
    var windows, all := ExcerptsFor(|page|, score);
    forall i | 0 <= i < |windows| ensures windows[i].start < windows[i].end <= Min(|page|, windows[i].start + WINDOW) {
      assert windows[i] in all;
    }
    var selected := Spend(page, windows, frame);
    var sorted := SortBy(selected, InOrder);
    pieces := sorted;
    var truncated := Length(selected) < |page|;
    WhatInspectionShows(page, windows, frame, selected, pieces);
    if selected == [] { return None, pieces; }
    r := Some(Inspection(Texts(sorted), truncated));
  }

  lemma WhatInspectionShows(page: Text, windows: seq<Candidate>, frame: nat, selected: seq<Piece>, pieces: seq<Piece>)
    requires Fit(windows, |page|) && Disjoint(windows) && |windows| <= MAX_EXCERPTS
    requires selected == Spent(page, windows, 0, [], MAX_RESULT_BYTES - frame) && pieces == SortBy(selected, InOrder)
    ensures |pieces| == |selected| && Chosen(page, pieces) && Ascending(pieces, InOrder)
    ensures selected != [] ==> forall truncated :: ResultBytes(frame, Texts(pieces), truncated) < MAX_RESULT_BYTES
    ensures Length(selected) < |page| <==> Concatenated(Texts(pieces)) != page
    ensures windows != [] && frame + 9 <= MAX_RESULT_BYTES ==> selected != []
  {
    SpentFollowsTheWindows(page, windows, 0, [], MAX_RESULT_BYTES - frame);
    SpentIsAffordable(page, windows, 0, [], MAX_RESULT_BYTES - frame);
    if windows != [] && frame + 9 <= MAX_RESULT_BYTES { SomethingIsSpent(page, windows, MAX_RESULT_BYTES - frame); }
    BeginningsAreChosen(page, windows, selected);
    InOrderOfThePage(page, selected);
    if selected != [] { ChargeCoversTheResult(frame, pieces); }
  }

  lemma InOrderOfThePage(page: Text, selected: seq<Piece>)
    requires Chosen(page, selected)
    ensures var pieces := SortBy(selected, InOrder);
            && |pieces| == |selected| && Chosen(page, pieces) && Ascending(pieces, InOrder)
            && Charge(pieces) == Charge(selected)
            && (Length(selected) < |page| <==> Concatenated(Texts(pieces)) != page)
  {
    var pieces := SortBy(selected, InOrder);
    SortSorts(selected, InOrder);
    SortingKeepsChoice(page, selected, pieces);
    SameCharge(selected, pieces);
    SameLength(selected, pieces);
    SlicesFillThePage(page, pieces, 0);
    assert page[0..] == page;
  }

  // ------------------------------------------------------------------ why it fits, and what truncated means

  lemma SortingKeepsChoice(page: Text, selected: seq<Piece>, pieces: seq<Piece>)
    requires Chosen(page, selected) && multiset(pieces) == multiset(selected) && |pieces| == |selected|
    ensures Chosen(page, pieces)
  {
    forall i | 0 <= i < |pieces| ensures Slice(page, pieces[i]) && |pieces[i].text| <= WINDOW {
      assert pieces[i] in multiset(pieces);
      assert pieces[i] in selected;
    }
    forall i, j | 0 <= i < j < |pieces| ensures Apart(pieces[i], pieces[j]) {
      TwoOf(pieces, selected, i, j);
      var a, b :| 0 <= a < |selected| && 0 <= b < |selected| && a != b && selected[a] == pieces[i] && selected[b] == pieces[j];
    }
  }

  lemma Among<T>(s: seq<T>, x: T) returns (k: nat)
    requires x in multiset(s)
    ensures k < |s| && s[k] == x
  {
    assert x in s;
    k :| 0 <= k < |s| && s[k] == x;
  }

  lemma Without<T>(s: seq<T>, i: nat) returns (rest: seq<T>)
    requires i < |s|
    ensures rest == s[..i] + s[i + 1..] && multiset(s) == multiset(rest) + multiset{s[i]}
  {
    rest := s[..i] + s[i + 1..];
    assert s == s[..i] + [s[i]] + s[i + 1..];
  }

  /** Two places of a sequence are two places of any rearrangement of it. */
  lemma TwoOf<T>(s: seq<T>, t: seq<T>, i: nat, j: nat)
    requires multiset(s) == multiset(t) && i < j < |s|
    ensures exists a, b :: 0 <= a < |t| && 0 <= b < |t| && a != b && t[a] == s[i] && t[b] == s[j]
  {
    var a := Among(t, s[i]);
    var left := Without(s, i);
    var rest := Without(t, a);
    Cancel(multiset(t), multiset(left), multiset(rest), s[i]);
    assert s[j] == left[j - 1];
    assert s[j] in multiset(left);
    var k := Among(rest, s[j]);
    var b := if k < a then k else k + 1;
    assert t[b] == s[j];
  }

  lemma Cancel<T>(whole: multiset<T>, a: multiset<T>, b: multiset<T>, x: T)
    requires whole == a + multiset{x} && whole == b + multiset{x}
    ensures a == b
  {
    assert a == whole - multiset{x};
    assert b == whole - multiset{x};
  }

  lemma {:induction false} ChargeOf(pieces: seq<Piece>, k: nat)
    requires k < |pieces|
    ensures Charge(pieces) == Charge(pieces[..k] + pieces[k + 1..]) + JsonBytes(pieces[k].text) + 1
    decreases |pieces|
  {
    var last := |pieces| - 1;
    if k < last {
      ChargeOf(pieces[..last], k);
      assert (pieces[..k] + pieces[k + 1..])[..last - 1] == pieces[..last][..k] + pieces[..last][k + 1..];
    } else {
      assert pieces[..k] + pieces[k + 1..] == pieces[..last];
    }
  }

  lemma {:induction false} SameCharge(s: seq<Piece>, t: seq<Piece>)
    requires multiset(s) == multiset(t)
    ensures Charge(s) == Charge(t)
    decreases |s|
  {
    if s == [] {
      assert |multiset(t)| == 0;
    } else {
      var last := s[|s| - 1];
      assert s == s[..|s| - 1] + [last];
      var k := Among(t, last);
      assert t == t[..k] + [t[k]] + t[k + 1..];
      var rest := t[..k] + t[k + 1..];
      Cancel(multiset(s), multiset(s[..|s| - 1]), multiset(rest), last);
      SameCharge(s[..|s| - 1], rest);
      ChargeOf(t, k);
    }
  }

  lemma {:induction false} LengthOfBoth(a: seq<Piece>, b: seq<Piece>)
    ensures Length(a + b) == Length(a) + Length(b)
    decreases |a|
  {
    if a == [] {
      assert a + b == b;
    } else {
      assert (a + b)[0] == a[0] && (a + b)[1..] == a[1..] + b;
      LengthOfBoth(a[1..], b);
    }
  }

  lemma LengthOf(pieces: seq<Piece>, k: nat)
    requires k < |pieces|
    ensures Length(pieces) == Length(pieces[..k] + pieces[k + 1..]) + |pieces[k].text|
  {
    LengthOfBoth(pieces[..k], pieces[k + 1..]);
    LengthOfBoth(pieces[..k], pieces[k..]);
    assert pieces == pieces[..k] + pieces[k..];
    assert pieces[k..][0] == pieces[k] && pieces[k..][1..] == pieces[k + 1..];
  }

  lemma {:induction false} SameLength(s: seq<Piece>, t: seq<Piece>)
    requires multiset(s) == multiset(t)
    ensures Length(s) == Length(t)
    decreases |s|
  {
    if s == [] {
      assert |multiset(t)| == 0;
    } else {
      assert s == [s[0]] + s[1..];
      var k := Among(t, s[0]);
      assert t == t[..k] + [t[k]] + t[k + 1..];
      var rest := t[..k] + t[k + 1..];
      Cancel(multiset(s), multiset(s[1..]), multiset(rest), s[0]);
      SameLength(s[1..], rest);
      LengthOf(t, k);
    }
  }

  lemma {:induction false} ChargeIsTotal(pieces: seq<Piece>)
    ensures Charge(pieces) == Total(Sizes(Texts(pieces))) + |pieces|
    decreases |pieces|
  {
    if pieces != [] {
      var rest := pieces[..|pieces| - 1];
      ChargeIsTotal(rest);
      assert Sizes(Texts(pieces))[..|pieces| - 1] == Sizes(Texts(rest));
    }
  }

  /** What was charged covers the encoded result, with one comma to spare. */
  lemma ChargeCoversTheResult(frame: nat, pieces: seq<Piece>)
    requires pieces != [] && frame + Charge(pieces) <= MAX_RESULT_BYTES
    ensures forall truncated :: ResultBytes(frame, Texts(pieces), truncated) < MAX_RESULT_BYTES
  {
    ChargeIsTotal(pieces);
  }

  lemma {:induction false} ConcatenationLength(pieces: seq<Piece>)
    ensures |Concatenated(Texts(pieces))| == Length(pieces)
    decreases |pieces|
  {
    if pieces != [] {
      ConcatenationLength(pieces[1..]);
      assert Texts(pieces)[1..] == Texts(pieces[1..]);
    }
  }

  lemma {:induction false} AfterTheFirst(page: Text, pieces: seq<Piece>)
    requires Chosen(page, pieces) && Ascending(pieces, InOrder) && pieces != []
    ensures Chosen(page, pieces[1..]) && Ascending(pieces[1..], InOrder)
    ensures forall p :: p in pieces[1..] ==> pieces[0].start + |pieces[0].text| <= p.start
  {
    forall k | 0 <= k < |pieces[1..]| ensures pieces[0].start + |pieces[0].text| <= pieces[1..][k].start {
      assert pieces[1..][k] == pieces[k + 1];
      assert Apart(pieces[0], pieces[k + 1]) && AtMost(InOrder(pieces[0]), InOrder(pieces[k + 1]));
      assert Slice(page, pieces[k + 1]);
    }
  }

  /** Disjoint slices in document order are as long as the rest of the page only if they are it. */
  lemma {:induction false} SlicesFillThePage(page: Text, pieces: seq<Piece>, from: nat)
    requires Chosen(page, pieces) && Ascending(pieces, InOrder) && from <= |page|
    requires forall p :: p in pieces ==> from <= p.start
    ensures Length(pieces) <= |page| - from
    ensures Length(pieces) == |page| - from <==> Concatenated(Texts(pieces)) == page[from..]
    decreases |pieces|
  {
    ConcatenationLength(pieces);
    if pieces != [] {
      var first := pieces[0];
      assert Slice(page, first) && first in pieces;
      AfterTheFirst(page, pieces);
      SlicesFillThePage(page, pieces[1..], first.start + |first.text|);
      assert Texts(pieces)[1..] == Texts(pieces[1..]);
      if Length(pieces) == |page| - from {
        assert first.start == from;
        assert page[from..] == first.text + page[from + |first.text|..];
      }
    }
  }
}
