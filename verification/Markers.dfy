/** Regenerating the text between a pair of markers. */
module Markers {
  import opened Wrappers

  predicate At(text: string, part: string, i: int) {
    0 <= i && i + |part| <= |text| && text[i..i + |part|] == part
  }

  predicate Contains(text: string, part: string) {
    exists i :: 0 <= i <= |text| && At(text, part, i)
  }

  /** `text.indexOf(part, from)` */
  function IndexOf(text: string, part: string, from: nat): (r: Option<nat>)
    ensures r.Some? ==> from <= r.value && r.value + |part| <= |text|
    decreases |text| - from
  {
    if from + |part| > |text| then None
    else if At(text, part, from) then Some(from)
    else IndexOf(text, part, from + 1)
  }

  predicate Absent(text: string, part: string, from: int, to: int) {
    forall i :: from <= i < to ==> !At(text, part, i)
  }

  lemma {:induction false} IndexOfFinds(text: string, part: string, from: nat)
    ensures match IndexOf(text, part, from)
            case Some(i) => At(text, part, i) && Absent(text, part, from, i)
            case None => Absent(text, part, from, |text| + 1)
    decreases |text| - from
  {
    if from + |part| <= |text| && !At(text, part, from) {
      IndexOfFinds(text, part, from + 1);
    }
  }

  datatype Error = NoEndMarker

  datatype Replacement = Replacement(content: string, replaced: bool)

  /** The payload on lines of its own. */
  function Spliced(pre: string, payload: string, suf: string): (r: string)
    ensures |r| == |pre| + |payload| + 2 + |suf|
  {
    pre + "\n" + payload + "\n" + suf
  }

  function ReplaceMarker(content: string, begin: string, end: string, payload: string): Result<Replacement, Error> {
    match IndexOf(content, begin, 0)
    case None => Ok(Replacement(content, false))
    case Some(b) =>
      match IndexOf(content, end, b)
      case None => Err(NoEndMarker)
      case Some(e) => Ok(Replacement(Spliced(content[..b + |begin|], payload, content[e..]), true))
  }

  /** The branch of `rewriteCss` for a file that has its begin marker. */
  function RewriteMarkedCss(existing: string, begin: string, end: string, body: string): Result<string, Error>
    requires Contains(existing, begin)
  {
    IndexOfFinds(existing, begin, 0);
    var b := IndexOf(existing, begin, 0).value;
    match IndexOf(existing, end, b)
    case None => Err(NoEndMarker)
    case Some(e) => Ok(existing[..b] + (begin + "\n" + body + "\n" + end) + existing[e + |end|..])
  }

  /** What the markers in use have in common: an end marker of one line, not inside its begin. */
  predicate Proper(begin: string, end: string) {
    '\n' !in end && !Contains(begin, end)
  }

  // ---- where markers can be after a replacement ------------------------------------------

  lemma SplicedParts(pre: string, payload: string, suf: string)
    ensures var r := Spliced(pre, payload, suf);
            && r[..|pre|] == pre && r[|pre|] == '\n' && r[|pre| + 1..|pre| + 1 + |payload|] == payload
            && r[|pre| + 1 + |payload|] == '\n' && r[|pre| + |payload| + 2..] == suf
  {
  }

  lemma AtSub(text: string, part: string, i: int, from: nat, to: nat)
    requires from <= to <= |text| && from <= i && i + |part| <= to
    ensures At(text, part, i) <==> At(text[from..to], part, i - from)
  {
    var here, there := text[i..i + |part|], text[from..to][i - from..i - from + |part|];
    assert here == there by {
      forall k | 0 <= k < |part| ensures here[k] == there[k] {}
    }
  }

  lemma SamePrefix(text: string, next: string, part: string, i: int, to: nat)
    requires to <= |text| && to <= |next| && next[..to] == text[..to] && i + |part| <= to
    ensures At(next, part, i) <==> At(text, part, i)
  {
    if 0 <= i {
      AtSub(text, part, i, 0, to);
      AtSub(next, part, i, 0, to);
      assert text[0..to] == text[..to] && next[0..to] == next[..to];
    }
  }

  /** At the start of what is kept on the right. */
  lemma AtStart(text: string, suf: string, part: string, from: nat)
    requires from <= |text| && text[from..] == suf && At(suf, part, 0)
    ensures At(text, part, from)
  {
    AtSub(text, part, from, from, |text|);
    assert text[from..|text|] == suf;
  }

  lemma AtHasEveryChar(text: string, part: string, i: int, k: int)
    requires At(text, part, i) && i <= k < i + |part|
    ensures text[k] in part
  {
    assert part[k - i] == text[i..i + |part|][k - i];
  }

  /** A one-line marker that is not in the payload is, after the replacement, where it was before:
      within what is kept on the left, or within what is kept on the right. */
  lemma MarkerIsOutside(pre: string, payload: string, suf: string, m: string, q: int)
    requires '\n' !in m && !Contains(payload, m)
    ensures At(Spliced(pre, payload, suf), m, q) <==>
              At(pre, m, q) || (q >= |pre| + |payload| + 2 && At(suf, m, q - |pre| - |payload| - 2))
  {
    var r, left, right := Spliced(pre, payload, suf), |pre|, |pre| + 1 + |payload|;
    SplicedParts(pre, payload, suf);
    if At(pre, m, q) {
      AtSub(r, m, q, 0, left);
    }
    if q >= right + 1 && At(suf, m, q - right - 1) {
      AtSub(r, m, q, right + 1, |r|);
    }
    if At(r, m, q) {
      if q <= left < q + |m| { AtHasEveryChar(r, m, q, left); }
      if q <= right < q + |m| { AtHasEveryChar(r, m, q, right); }
      if q + |m| <= left {
        AtSub(r, m, q, 0, left);
      } else if q > right {
        AtSub(r, m, q, right + 1, |r|);
      } else {
        AtSub(r, m, q, left + 1, right);
      }
    }
  }

  // ---- one pair of markers ---------------------------------------------------------------

  lemma IndexIs(text: string, part: string, from: nat, i: nat)
    requires from <= i && At(text, part, i) && Absent(text, part, from, i)
    ensures IndexOf(text, part, from) == Some(i)
  {
    IndexOfFinds(text, part, from);
  }

  /** What is found first depends only on the text up to its end. */
  lemma FoundInPrefix(text: string, next: string, part: string, i: nat)
    requires IndexOf(text, part, 0) == Some(i) && i + |part| <= |next| && next[..i + |part|] == text[..i + |part|]
    ensures IndexOf(next, part, 0) == Some(i)
  {
    IndexOfFinds(text, part, 0);
    assert At(text, part, i) && Absent(text, part, 0, i);
    var to := i + |part|;
    SamePrefix(text, next, part, i, to);
    NoneBefore(text, next, part, i, to);
    IndexIs(next, part, 0, i);
  }

  lemma NoneBefore(text: string, next: string, part: string, i: nat, to: nat)
    requires Absent(text, part, 0, i) && i + |part| <= to <= |text| && to <= |next| && next[..to] == text[..to]
    ensures Absent(next, part, 0, i)
  {
    forall k | 0 <= k < i ensures !At(next, part, k) {
      SamePrefix(text, next, part, k, to);
    }
  }

  /** Where the markers stand in a text that has both. */
  predicate MarkedAt(content: string, begin: string, end: string, b: nat, e: nat) {
    IndexOf(content, begin, 0) == Some(b) && IndexOf(content, end, b) == Some(e)
  }

  lemma ReplacesTo(content: string, begin: string, end: string, payload: string, b: nat, e: nat)
    requires MarkedAt(content, begin, end, b, e)
    ensures ReplaceMarker(content, begin, end, payload)
         == Ok(Replacement(Spliced(content[..b + |begin|], payload, content[e..]), true))
  {
  }

  /** The text up to the begin marker and from the end marker on is kept, and the begin marker is
      still the one found. */
  lemma ReplacementIsLocal(content: string, begin: string, end: string, payload: string, b: nat, e: nat)
    requires MarkedAt(content, begin, end, b, e)
    ensures var next := ReplaceMarker(content, begin, end, payload).value.content;
            && |next| == b + |begin| + |payload| + 2 + (|content| - e)
            && next[..b + |begin|] == content[..b + |begin|] && next[b + |begin| + |payload| + 2..] == content[e..]
            && IndexOf(next, begin, 0) == Some(b)
  {
    ReplacesTo(content, begin, end, payload, b, e);
    SplicedKeeps(content, b + |begin|, payload, e);
    BeginStays(content, begin, payload, b, e);
  }

  lemma BeginStays(content: string, begin: string, payload: string, b: nat, e: nat)
    requires IndexOf(content, begin, 0) == Some(b) && e <= |content|
    ensures IndexOf(Spliced(content[..b + |begin|], payload, content[e..]), begin, 0) == Some(b)
  {
    SplicedKeeps(content, b + |begin|, payload, e);
    FoundInPrefix(content, Spliced(content[..b + |begin|], payload, content[e..]), begin, b);
  }

  lemma EndFollows(content: string, begin: string, end: string, payload: string, b: nat, e: nat)
    requires b + |begin| <= |content| && IndexOf(content, end, b) == Some(e)
    ensures At(Spliced(content[..b + |begin|], payload, content[e..]), end, b + |begin| + |payload| + 2)
  {
    SplicedKeeps(content, b + |begin|, payload, e);
    IndexOfFinds(content, end, b);
    AtSub(content, end, e, e, |content|);
    assert content[e..|content|] == content[e..];
    AtStart(Spliced(content[..b + |begin|], payload, content[e..]), content[e..], end, b + |begin| + |payload| + 2);
  }

  lemma SplicedKeeps(content: string, to: nat, payload: string, from: nat)
    requires to <= |content| && from <= |content|
    ensures var next := Spliced(content[..to], payload, content[from..]);
            next[..to] == content[..to] && next[to + |payload| + 2..] == content[from..]
  {
    SplicedParts(content[..to], payload, content[from..]);
  }

  lemma AgainIsTheSame(content: string, begin: string, end: string, payload: string, b: nat, e: nat)
    requires Proper(begin, end) && MarkedAt(content, begin, end, b, e) && !Contains(payload, end)
    ensures var next := Spliced(content[..b + |begin|], payload, content[e..]);
            ReplaceMarker(next, begin, end, payload) == Ok(Replacement(next, true))
  {
    var next := Spliced(content[..b + |begin|], payload, content[e..]);
    BeginStays(content, begin, payload, b, e);
    EndFound(content, begin, end, payload, b, e);
    ReplacesTo(next, begin, end, payload, b, b + |begin| + |payload| + 2);
    SplicedKeeps(content, b + |begin|, payload, e);
  }

  lemma EndFound(content: string, begin: string, end: string, payload: string, b: nat, e: nat)
    requires Proper(begin, end) && MarkedAt(content, begin, end, b, e) && !Contains(payload, end)
    ensures IndexOf(Spliced(content[..b + |begin|], payload, content[e..]), end, b) == Some(b + |begin| + |payload| + 2)
  {
    EndFollows(content, begin, end, payload, b, e);
    BeginCut(content, begin, b);
    EndStays(content[..b + |begin|], payload, content[e..], begin, end, b);
  }

  lemma AgainGrows(content: string, begin: string, end: string, payload: string, b: nat, e: nat)
    requires MarkedAt(content, begin, end, b, e) && Contains(payload, end)
    ensures var next := Spliced(content[..b + |begin|], payload, content[e..]);
            && ReplaceMarker(next, begin, end, payload).Ok?
            && |ReplaceMarker(next, begin, end, payload).value.content| > |next|
  {
    var pre, suf := content[..b + |begin|], content[e..];
    var next := Spliced(pre, payload, suf);
    BeginStays(content, begin, payload, b, e);
    EndComesEarlier(pre, payload, suf, begin, end, b);
    ReplacesTo(next, begin, end, payload, b, IndexOf(next, end, b).value);
  }

  /** Replacing twice equals replacing once exactly when the payload does not contain the end marker. */
  lemma ReplacingTwiceIsOnce(content: string, begin: string, end: string, payload: string, b: nat, e: nat)
    requires Proper(begin, end) && MarkedAt(content, begin, end, b, e)
    ensures var once := ReplaceMarker(content, begin, end, payload);
            once.Ok? && (ReplaceMarker(once.value.content, begin, end, payload) == once <==> !Contains(payload, end))
  {
    ReplacesTo(content, begin, end, payload, b, e);
    if Contains(payload, end) {
      AgainGrows(content, begin, end, payload, b, e);
    } else {
      AgainIsTheSame(content, begin, end, payload, b, e);
    }
  }

  lemma BeginCut(content: string, begin: string, b: nat)
    requires IndexOf(content, begin, 0) == Some(b)
    ensures content[..b + |begin|][b..] == begin
  {
    IndexOfFinds(content, begin, 0);
  }

  lemma EndComesEarlier(pre: string, payload: string, suf: string, begin: string, end: string, b: nat)
    requires |pre| == b + |begin| && Contains(payload, end)
    ensures IndexOf(Spliced(pre, payload, suf), end, b).Some?
    ensures IndexOf(Spliced(pre, payload, suf), end, b).value < |pre| + |payload| + 2
  {
    var next := Spliced(pre, payload, suf);
    SplicedParts(pre, payload, suf);
    var p :| 0 <= p <= |payload| && At(payload, end, p);
    AtSub(next, end, |pre| + 1 + p, |pre| + 1, |pre| + 1 + |payload|);
    IndexOfFinds(next, end, b);
    assert At(next, end, |pre| + 1 + p);
  }

  lemma EndStays(pre: string, payload: string, suf: string, begin: string, end: string, b: nat)
    requires |pre| == b + |begin| && pre[b..] == begin && Proper(begin, end) && !Contains(payload, end)
    requires At(Spliced(pre, payload, suf), end, |pre| + |payload| + 2)
    ensures IndexOf(Spliced(pre, payload, suf), end, b) == Some(|pre| + |payload| + 2)
  {
    var next, e' := Spliced(pre, payload, suf), |pre| + |payload| + 2;
    forall i | b <= i < e' ensures !At(next, end, i) {
      MarkerIsOutside(pre, payload, suf, end, i);
      if At(pre, end, i) {
        AtSub(pre, end, i, b, |pre|);
        assert At(begin, end, i - b);
        assert false;
      }
    }
    IndexIs(next, end, b, e');
  }

  /** The stylesheet's branch is the same operation. */
  lemma CssIsReplaceMarker(existing: string, begin: string, end: string, body: string)
    requires Contains(existing, begin)
    ensures RewriteMarkedCss(existing, begin, end, body)
         == match ReplaceMarker(existing, begin, end, body)
            case Ok(r) => Ok(r.content)
            case Err(e) => Err(e)
  {
    IndexOfFinds(existing, begin, 0);
    var b := IndexOf(existing, begin, 0).value;
    IndexOfFinds(existing, end, b);
    if IndexOf(existing, end, b).Some? {
      var e := IndexOf(existing, end, b).value;
      Cut(existing, begin, b);
      Cut(existing, end, e);
      assert existing[..b + |begin|] == existing[..b] + begin;
      SplicedAround(existing[..b], begin, body, end, existing[e + |end|..]);
    }
  }

  lemma ContainsIsFound(text: string, part: string)
    ensures Contains(text, part) <==> IndexOf(text, part, 0).Some?
  {
    IndexOfFinds(text, part, 0);
    if IndexOf(text, part, 0).Some? { assert At(text, part, IndexOf(text, part, 0).value); }
  }

  /** Writing the stylesheet twice is writing it once exactly when the body does not contain the end
      marker; a file without one is refused. */
  lemma RewritingCssTwiceIsOnce(existing: string, begin: string, end: string, body: string, b: nat)
    requires Contains(existing, begin) && Proper(begin, end) && IndexOf(existing, begin, 0) == Some(b)
    ensures RewriteMarkedCss(existing, begin, end, body).Err? <==> IndexOf(existing, end, b).None?
    ensures var once := RewriteMarkedCss(existing, begin, end, body);
            once.Ok? ==>
              && Contains(once.value, begin)
              && (RewriteMarkedCss(once.value, begin, end, body) == once <==> !Contains(body, end))
  {
    CssIsReplaceMarker(existing, begin, end, body);
    if IndexOf(existing, end, b).Some? {
      var e := IndexOf(existing, end, b).value;
      var next := ReplaceMarker(existing, begin, end, body).value.content;
      ReplacingTwiceIsOnce(existing, begin, end, body, b, e);
      ReplacementIsLocal(existing, begin, end, body, b, e);
      ContainsIsFound(next, begin);
      CssIsReplaceMarker(next, begin, end, body);
    }
  }

  lemma SplicedAround(pre: string, begin: string, body: string, end: string, suf: string)
    ensures pre + (begin + "\n" + body + "\n" + end) + suf == Spliced(pre + begin, body, end + suf)
  {
    calc {
      pre + (begin + "\n" + body + "\n" + end) + suf;
      (pre + begin) + "\n" + body + "\n" + end + suf;
      Spliced(pre + begin, body, end + suf);
    }
  }

  lemma Cut(text: string, part: string, i: nat)
    requires At(text, part, i)
    ensures text[..i + |part|] == text[..i] + part && text[i..] == part + text[i + |part|..]
  {
  }

  // ---- several pairs in one file ---------------------------------------------------------

  datatype Table = Table(begin: string, end: string, payload: string)

  /** `rewriteDesignMd`: the tables one after the other. */
  function Regenerated(content: string, tables: seq<Table>): Result<string, Error> {
    if tables == [] then Ok(content)
    else
      match Regenerated(content, tables[..|tables| - 1])
      case Err(e) => Err(e)
      case Ok(c) =>
        var t := tables[|tables| - 1];
        match ReplaceMarker(c, t.begin, t.end, t.payload)
        case Err(e) => Err(e)
        case Ok(r) => Ok(r.content)
  }

  method RewriteDesignMd(content: string, tables: seq<Table>) returns (r: Result<string, Error>)
    ensures r == Regenerated(content, tables)
  {
    var c := content;
    for i := 0 to |tables|
      invariant Regenerated(content, tables[..i]) == Ok(c)
    {
      assert tables[..i + 1][..i] == tables[..i];
      var t := tables[i];
      var next := ReplaceMarker(c, t.begin, t.end, t.payload);
      if next.Err? {
        ErrorStays(content, tables, i + 1, next.error);
        return Err(next.error);
      }
      c := next.value.content;
    }
    assert tables[..|tables|] == tables;
    return Ok(c);
  }

  lemma {:induction false} ErrorStays(content: string, tables: seq<Table>, n: nat, e: Error)
    requires n <= |tables| && Regenerated(content, tables[..n]) == Err(e)
    ensures Regenerated(content, tables) == Err(e)
    decreases |tables| - n
  {
    if n == |tables| {
      assert tables[..n] == tables;
    } else {
      assert tables[..n + 1][..n] == tables[..n];
      ErrorStays(content, tables, n + 1, e);
    }
  }

  /** One-line markers that no payload contains. */
  predicate Separate(tables: seq<Table>) {
    forall i, j :: 0 <= i < |tables| && 0 <= j < |tables| ==>
      OneLine(tables[i], tables[j].payload)
  }

  predicate OneLine(t: Table, payload: string) {
    '\n' !in t.begin && '\n' !in t.end && !Contains(payload, t.begin) && !Contains(payload, t.end)
  }

  datatype Place = Place(b: nat, e: nat)

  ghost predicate OnlyAt(content: string, m: string, at: int) {
    forall q :: At(content, m, q) <==> q == at
  }

  /** A table's markers stand once each, the end after the begin; or its begin is missing. */
  ghost predicate Stands(content: string, t: Table, p: Option<Place>) {
    match p
    case None => forall q :: !At(content, t.begin, q)
    case Some(at) => OnlyAt(content, t.begin, at.b) && OnlyAt(content, t.end, at.e) && at.b + |t.begin| <= at.e
  }

  /** What a marker at `x` becomes when the text from `k` to `e` is replaced by `n` characters. */
  function Shifted(x: nat, k: nat, e: nat, n: nat): nat {
    if x < e then x else x - e + k + n
  }

  lemma OccurrenceKept(content: string, k: nat, payload: string, e: nat, m: string, q: int)
    requires k <= e <= |content| && '\n' !in m && !Contains(payload, m)
    ensures At(Spliced(content[..k], payload, content[e..]), m, q) <==>
              (At(content, m, q) && q + |m| <= k)
              || (q >= k + |payload| + 2 && At(content, m, q - k - |payload| - 2 + e))
  {
    var pre, suf := content[..k], content[e..];
    MarkerIsOutside(pre, payload, suf, m, q);
    if 0 <= q && q + |m| <= k {
      AtSub(content, m, q, 0, k);
      assert content[0..k] == pre;
    }
    var r := q - k - |payload| - 2;
    if r >= 0 && r + e + |m| <= |content| {
      AtSub(content, m, r + e, e, |content|);
      assert content[e..|content|] == suf;
    }
  }

  /** A marker that stands once, outside what is replaced, stands once after it. */
  lemma OnlyAtKept(content: string, k: nat, payload: string, e: nat, m: string, x: nat)
    requires k <= e <= |content| && '\n' !in m && !Contains(payload, m)
    requires OnlyAt(content, m, x) && (x + |m| <= k || x >= e)
    ensures OnlyAt(Spliced(content[..k], payload, content[e..]), m, Shifted(x, k, e, |payload| + 2))
  {
    var next := Spliced(content[..k], payload, content[e..]);
    assert At(content, m, x);
    assert At(payload, "", 0);
    forall q ensures At(next, m, q) <==> q == Shifted(x, k, e, |payload| + 2) {
      OccurrenceKept(content, k, payload, e, m, q);
    }
  }

  // ---- a whole pass ----------------------------------------------------------------------

  /** Two tables' stretches do not touch. */
  predicate Apart(s: Table, p: Place, t: Table, q: Place) {
    p.e + |s.end| <= q.b || q.e + |t.end| <= p.b
  }

  /** Every table has its place, or has no begin marker, and the stretches are apart. */
  ghost predicate Document(content: string, tables: seq<Table>, places: seq<Option<Place>>) {
    && |places| == |tables|
    && (forall i :: 0 <= i < |tables| ==> Stands(content, tables[i], places[i]))
    && forall i, j :: 0 <= i < j < |tables| && places[i].Some? && places[j].Some? ==>
         Apart(tables[i], places[i].value, tables[j], places[j].value)
  }

  /** The stretch already holds the payload. */
  predicate Filled(content: string, t: Table, p: Place) {
    && p.b + |t.begin| <= |content| && p.e == p.b + |t.begin| + |t.payload| + 2 && p.e <= |content|
    && content[p.b + |t.begin|..p.e] == "\n" + t.payload + "\n"
  }

  lemma StandsMarked(content: string, t: Table, p: Place)
    requires Stands(content, t, Some(p))
    ensures MarkedAt(content, t.begin, t.end, p.b, p.e) && p.b + |t.begin| <= p.e && p.e + |t.end| <= |content|
  {
    assert At(content, t.begin, p.b) && At(content, t.end, p.e);
    IndexIs(content, t.begin, 0, p.b);
    IndexIs(content, t.end, p.b, p.e);
  }

  lemma FilledIsKept(content: string, t: Table, p: Place)
    requires Stands(content, t, Some(p)) && Filled(content, t, p)
    ensures ReplaceMarker(content, t.begin, t.end, t.payload) == Ok(Replacement(content, true))
  {
    StandsMarked(content, t, p);
    ReplacesTo(content, t.begin, t.end, t.payload, p.b, p.e);
    Rejoined(content, p.b + |t.begin|, t.payload, p.e);
  }

  lemma Rejoined(content: string, k: nat, payload: string, e: nat)
    requires k <= e <= |content| && content[k..e] == "\n" + payload + "\n"
    ensures Spliced(content[..k], payload, content[e..]) == content
  {
    assert content == content[..k] + content[k..e] + content[e..];
    assert content[..k] + ("\n" + payload + "\n") + content[e..] == content[..k] + "\n" + payload + "\n" + content[e..];
  }

  function MovedPlace(p: Option<Place>, k: nat, e: nat, n: nat): Option<Place> {
    if p.None? then None else Some(Place(Shifted(p.value.b, k, e, n), Shifted(p.value.e, k, e, n)))
  }

  /** Replacing one table's stretch leaves another's markers standing. */
  lemma OthersStand(content: string, t: Table, p: Place, s: Table, q: Option<Place>)
    requires Stands(content, t, Some(p)) && Stands(content, s, q) && OneLine(s, t.payload)
    requires q.Some? ==> Apart(t, p, s, q.value)
    ensures var k := p.b + |t.begin|;
            && k <= p.e <= |content|
            && Stands(Spliced(content[..k], t.payload, content[p.e..]), s, MovedPlace(q, k, p.e, |t.payload| + 2))
  {
    StandsMarked(content, t, p);
    var k := p.b + |t.begin|;
    if q.None? {
      forall i ensures !At(Spliced(content[..k], t.payload, content[p.e..]), s.begin, i) {
        OccurrenceKept(content, k, t.payload, p.e, s.begin, i);
      }
    } else {
      StandsMarked(content, s, q.value);
      OnlyAtKept(content, k, t.payload, p.e, s.begin, q.value.b);
      OnlyAtKept(content, k, t.payload, p.e, s.end, q.value.e);
    }
  }

  /** And its own: the end marker follows the payload, which fills the stretch. */
  lemma OwnStands(content: string, t: Table, p: Place)
    requires Stands(content, t, Some(p)) && OneLine(t, t.payload)
    ensures var k := p.b + |t.begin|;
            && k <= p.e <= |content|
            && var next, own := Spliced(content[..k], t.payload, content[p.e..]), Place(p.b, k + |t.payload| + 2);
            Stands(next, t, Some(own)) && Filled(next, t, own)
  {
    StandsMarked(content, t, p);
    var k := p.b + |t.begin|;
    OnlyAtKept(content, k, t.payload, p.e, t.end, p.e);
    assert At(t.payload, "", 0);
    OnlyAtKept(content, k, t.payload, p.e, t.begin, p.b);
    SplicedMiddle(content[..k], t.payload, content[p.e..]);
  }

  lemma SplicedMiddle(pre: string, payload: string, suf: string)
    ensures Spliced(pre, payload, suf)[|pre|..|pre| + |payload| + 2] == "\n" + payload + "\n"
  {
    SplicedParts(pre, payload, suf);
  }

  function NextPlaces(tables: seq<Table>, places: seq<Option<Place>>, i: nat): seq<Option<Place>>
    requires i < |places| == |tables| && places[i].Some?
  {
    var p, t := places[i].value, tables[i];
    var k, n := p.b + |t.begin|, |t.payload| + 2;
    seq(|places|, j requires 0 <= j < |places| =>
      if j == i then Some(Place(p.b, k + n)) else MovedPlace(places[j], k, p.e, n))
  }

  function Refilled(content: string, t: Table, p: Place): string
    requires p.b + |t.begin| <= |content| && p.e <= |content|
  {
    Spliced(content[..p.b + |t.begin|], t.payload, content[p.e..])
  }

  lemma StaysApart(s: Table, p: Place, t: Table, q: Place, k: nat, e: nat, n: nat)
    requires Apart(s, p, t, q) && p.b <= p.e && q.b <= q.e && k <= e
    requires p.e + |s.end| <= k || p.b >= e
    requires q.e + |t.end| <= k || q.b >= e
    requires s.end != "" && t.end != ""
    ensures Apart(s, Place(Shifted(p.b, k, e, n), Shifted(p.e, k, e, n)),
                  t, Place(Shifted(q.b, k, e, n), Shifted(q.e, k, e, n)))
  {
  }

  lemma MarkersAreNotEmpty(tables: seq<Table>, i: nat)
    requires Separate(tables) && i < |tables|
    ensures tables[i].begin != "" && tables[i].end != "" && OneLine(tables[i], tables[i].payload)
  {
    assert OneLine(tables[i], tables[i].payload);
    assert At(tables[i].payload, "", 0);
  }

  lemma OthersApart(content: string, tables: seq<Table>, places: seq<Option<Place>>, i: nat, j: nat)
    requires Document(content, tables, places) && i < |tables| && j < |tables| && i != j
    requires places[i].Some? && places[j].Some?
    ensures Apart(tables[i], places[i].value, tables[j], places[j].value)
  {
    if i < j {
      assert Apart(tables[i], places[i].value, tables[j], places[j].value);
    } else {
      assert Apart(tables[j], places[j].value, tables[i], places[i].value);
    }
  }

  lemma StepKeepsDocument(content: string, tables: seq<Table>, places: seq<Option<Place>>, i: nat)
    requires Document(content, tables, places) && Separate(tables) && i < |tables| && places[i].Some?
    ensures var p, t := places[i].value, tables[i];
            && p.b + |t.begin| <= |content| && p.e <= |content|
            && Document(Refilled(content, t, p), tables, NextPlaces(tables, places, i))
  {
    var p, t, next := places[i].value, tables[i], NextPlaces(tables, places, i);
    StandsMarked(content, t, p);
    var c := Refilled(content, t, p);
    forall j | 0 <= j < |tables| ensures Stands(c, tables[j], next[j]) {
      MarkersAreNotEmpty(tables, j);
      if j == i {
        OwnStands(content, t, p);
      } else {
        assert OneLine(tables[j], t.payload);
        if places[j].Some? { OthersApart(content, tables, places, i, j); }
        OthersStand(content, t, p, tables[j], places[j]);
      }
    }
    forall j, l | 0 <= j < l < |tables| && next[j].Some? && next[l].Some?
      ensures Apart(tables[j], next[j].value, tables[l], next[l].value)
    {
      NextApart(content, tables, places, i, j, l);
    }
  }

  lemma NextApart(content: string, tables: seq<Table>, places: seq<Option<Place>>, i: nat, j: nat, l: nat)
    requires Document(content, tables, places) && Separate(tables) && i < |tables| && j < l < |tables|
    requires places[i].Some? && places[j].Some? && places[l].Some?
    ensures var next := NextPlaces(tables, places, i); Apart(tables[j], next[j].value, tables[l], next[l].value)
  {
    var p, t := places[i].value, tables[i];
    StandsMarked(content, t, p);
    StandsMarked(content, tables[j], places[j].value);
    StandsMarked(content, tables[l], places[l].value);
    MarkersAreNotEmpty(tables, i);
    MarkersAreNotEmpty(tables, j);
    MarkersAreNotEmpty(tables, l);
    OthersApart(content, tables, places, j, l);
    if j != i { OthersApart(content, tables, places, i, j); }
    if l != i { OthersApart(content, tables, places, i, l); }
    if j != i && l != i {
      StaysApart(tables[j], places[j].value, tables[l], places[l].value, p.b + |t.begin|, p.e, |t.payload| + 2);
    }
  }

  /** A filled stretch apart from the one replaced stays filled. */
  lemma FilledStays(content: string, t: Table, p: Place, s: Table, q: Place)
    requires Apart(t, p, s, q) && Filled(content, s, q) && t.end != "" && s.end != ""
    requires p.b + |t.begin| <= p.e && p.e + |t.end| <= |content|
    ensures var k, n := p.b + |t.begin|, |t.payload| + 2;
            Filled(Refilled(content, t, p), s, Place(Shifted(q.b, k, p.e, n), Shifted(q.e, k, p.e, n)))
  {
    if q.e + |s.end| <= p.b {
      LeftSlice(content, p.b + |t.begin|, t.payload, p.e, q.b + |s.begin|, q.e);
    } else {
      RightSlice(content, p.b + |t.begin|, t.payload, p.e, q.b + |s.begin|, q.e);
    }
  }

  lemma LeftSlice(content: string, k: nat, payload: string, e: nat, from: nat, to: nat)
    requires k <= e <= |content| && from <= to <= k
    ensures Spliced(content[..k], payload, content[e..])[from..to] == content[from..to]
  {
    SplicedKeeps(content, k, payload, e);
    SliceOfPrefix(Spliced(content[..k], payload, content[e..]), content, k, from, to);
  }

  lemma RightSlice(content: string, k: nat, payload: string, e: nat, from: nat, to: nat)
    requires k <= e <= from <= to <= |content|
    ensures var d := k + |payload| + 2 - e;
            from + d >= 0 && Spliced(content[..k], payload, content[e..])[from + d..to + d] == content[from..to]
  {
    SplicedKeeps(content, k, payload, e);
    SliceOfSuffix(Spliced(content[..k], payload, content[e..]), content, k + |payload| + 2, e, from - e, to - e);
  }

  lemma SliceOfPrefix(x: string, y: string, k: nat, from: nat, to: nat)
    requires from <= to <= k && k <= |x| && k <= |y| && x[..k] == y[..k]
    ensures x[from..to] == y[from..to]
  {
    assert x[from..to] == x[..k][from..to] && y[from..to] == y[..k][from..to];
  }

  lemma SliceOfSuffix(x: string, y: string, a: nat, b: nat, from: nat, to: nat)
    requires a <= |x| && b <= |y| && x[a..] == y[b..] && from <= to <= |x| - a
    ensures |x| - a == |y| - b && x[a + from..a + to] == y[b + from..b + to]
  {
    assert |x[a..]| == |y[b..]|;
    SliceOfDrop(x, a, from, to);
    SliceOfDrop(y, b, from, to);
  }

  lemma SliceOfDrop(x: string, a: nat, from: nat, to: nat)
    requires a <= |x| && from <= to <= |x| - a
    ensures x[a..][from..to] == x[a + from..a + to]
  {
  }

  ghost predicate FilledUpTo(content: string, tables: seq<Table>, places: seq<Option<Place>>, n: nat) {
    && |places| == |tables|
    && forall i :: 0 <= i < n <= |tables| && places[i].Some? ==> Filled(content, tables[i], places[i].value)
  }

  lemma {:induction false} PassFills(content: string, tables: seq<Table>, places: seq<Option<Place>>, n: nat)
    returns (c: string, ps: seq<Option<Place>>)
    requires Document(content, tables, places) && Separate(tables) && n <= |tables|
    ensures Regenerated(content, tables[..n]) == Ok(c)
    ensures Document(c, tables, ps) && FilledUpTo(c, tables, ps, n)
  {
    if n == 0 {
      c, ps := content, places;
    } else {
      var i := n - 1;
      c, ps := PassFills(content, tables, places, i);
      assert tables[..n][..i] == tables[..i];
      if ps[i].Some? {
        FillOneMore(c, tables, ps, i);
        c, ps := Refilled(c, tables[i], ps[i].value), NextPlaces(tables, ps, i);
      } else {
        IndexOfFinds(c, tables[i].begin, 0);
      }
    }
  }

  lemma FillOneMore(c: string, tables: seq<Table>, ps: seq<Option<Place>>, i: nat)
    requires Document(c, tables, ps) && Separate(tables) && i < |tables| && ps[i].Some? && FilledUpTo(c, tables, ps, i)
    ensures var t, p := tables[i], ps[i].value;
            && p.b + |t.begin| <= |c| && p.e <= |c|
            && ReplaceMarker(c, t.begin, t.end, t.payload) == Ok(Replacement(Refilled(c, t, p), true))
            && Document(Refilled(c, t, p), tables, NextPlaces(tables, ps, i))
            && FilledUpTo(Refilled(c, t, p), tables, NextPlaces(tables, ps, i), i + 1)
  {
    var t, p := tables[i], ps[i].value;
    StandsMarked(c, t, p);
    ReplacesTo(c, t.begin, t.end, t.payload, p.b, p.e);
    StepKeepsDocument(c, tables, ps, i);
    MarkersAreNotEmpty(tables, i);
    OwnStands(c, t, p);
    forall j | 0 <= j < i && ps[j].Some?
      ensures Filled(Refilled(c, t, p), tables[j], NextPlaces(tables, ps, i)[j].value)
    {
      OtherStaysFilled(c, tables, ps, i, j);
    }
  }

  lemma OtherStaysFilled(c: string, tables: seq<Table>, ps: seq<Option<Place>>, i: nat, j: nat)
    requires Document(c, tables, ps) && Separate(tables) && i < |tables| && j < |tables| && i != j
    requires ps[i].Some? && ps[j].Some? && Filled(c, tables[j], ps[j].value)
    ensures ps[i].value.b + |tables[i].begin| <= |c| && ps[i].value.e <= |c|
    ensures Filled(Refilled(c, tables[i], ps[i].value), tables[j], NextPlaces(tables, ps, i)[j].value)
  {
    MarkersAreNotEmpty(tables, i);
    MarkersAreNotEmpty(tables, j);
    OthersApart(c, tables, ps, i, j);
    StandsMarked(c, tables[i], ps[i].value);
    FilledStays(c, tables[i], ps[i].value, tables[j], ps[j].value);
  }

  lemma {:induction false} FilledPassIsIdle(c: string, tables: seq<Table>, ps: seq<Option<Place>>, n: nat)
    requires Document(c, tables, ps) && n <= |tables| && FilledUpTo(c, tables, ps, |tables|)
    ensures Regenerated(c, tables[..n]) == Ok(c)
  {
    if n > 0 {
      var i := n - 1;
      FilledPassIsIdle(c, tables, ps, i);
      assert tables[..n][..i] == tables[..i];
      if ps[i].Some? {
        FilledIsKept(c, tables[i], ps[i].value);
      } else {
        IndexOfFinds(c, tables[i].begin, 0);
      }
    }
  }

  /** Regenerating a document twice is regenerating it once: with any number of tables, in any order,
      some of them missing, as long as the stretches are apart, each marker that is there stands once,
      and no payload contains a marker. */
  lemma RegeneratingTwiceIsOnce(content: string, tables: seq<Table>, places: seq<Option<Place>>)
    requires Document(content, tables, places) && Separate(tables)
    ensures Regenerated(content, tables).Ok?
    ensures Regenerated(Regenerated(content, tables).value, tables) == Regenerated(content, tables)
  {
    var c, ps := PassFills(content, tables, places, |tables|);
    FilledPassIsIdle(c, tables, ps, |tables|);
    assert tables[..|tables|] == tables;
  }

  /** The markers of the design document are of this kind. */
  lemma DesignMarkersAreProper()
    ensures Proper("<!-- BEGIN AUTO: tokens-typography -->", "<!-- END AUTO: tokens-typography -->")
    ensures Proper("<!-- BEGIN AUTO: tokens-spacing -->", "<!-- END AUTO: tokens-spacing -->")
    ensures Proper("<!-- BEGIN AUTO: tokens-layout -->", "<!-- END AUTO: tokens-layout -->")
  {
    TwoLonger("<!-- BEGIN AUTO: tokens-typography -->", "<!-- END AUTO: tokens-typography -->");
    TwoLonger("<!-- BEGIN AUTO: tokens-spacing -->", "<!-- END AUTO: tokens-spacing -->");
    TwoLonger("<!-- BEGIN AUTO: tokens-layout -->", "<!-- END AUTO: tokens-layout -->");
  }

  // In pieces, each short enough for the verifier to look at every character.
  const CSS_BEGIN_TEXT :=
    "* BEGIN AUTO-GENERATED " + "(size + radius + layout) " + "— regenerate via npm " + "run gen:tokens *"
  const CSS_BEGIN := "/" + CSS_BEGIN_TEXT + "/"
  const CSS_END := "/* END AUTO-GENERATED */"

  /** And so are those of the stylesheet. */
  lemma CssMarkersAreProper()
    ensures Proper(CSS_BEGIN, CSS_END)
  {
    OneSlash();
    forall i ensures !At(CSS_BEGIN, CSS_END, i) {
      if 0 <= i && i + |CSS_END| <= |CSS_BEGIN| {
        var here := CSS_BEGIN[i..i + |CSS_END|];
        assert here[0] == CSS_BEGIN[i] && here[3] == CSS_BEGIN[i + 3];
      }
    }
  }

  lemma OneSlash()
    ensures forall i :: 0 < i < |CSS_BEGIN| - 1 ==> CSS_BEGIN[i] != '/'
  {
    assert '/' !in CSS_BEGIN_TEXT;
    forall i | 0 < i < |CSS_BEGIN| - 1 ensures CSS_BEGIN[i] != '/' {
      assert CSS_BEGIN[i] == CSS_BEGIN_TEXT[i - 1];
    }
  }

  lemma TwoLonger(begin: string, end: string)
    requires |begin| == |end| + 2 && |end| > 5 && '\n' !in end
    requires begin[0] == end[0] && begin[1] != end[0] && begin[2] != end[0] && begin[5] != end[5]
    ensures Proper(begin, end)
  {
    forall i ensures !At(begin, end, i) {
      if 0 <= i <= 2 {
        var here := begin[i..i + |end|];
        assert here[0] == begin[i] && here[5] == begin[i + 5];
      }
    }
  }
}
