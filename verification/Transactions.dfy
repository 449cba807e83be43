/** One key's message cut into frames small enough for the lane, and put together again.

    The JSON encoder is a parameter: a message comes with the tokens the encoder emits for it,
    and `parse` undoes their concatenation. */
module Transactions {
  import opened Wrappers

  datatype Identity = Identity(epoch: string, version: int, key: string, revision: int)

  datatype Message = Message(id: Identity, content: string)

  datatype Part = Part(id: Identity, part: nat, last: bool, data: string)

  datatype Error = MixedOrMissing | IdentityMismatch | Incomplete | BadStep

  function Concat(xs: seq<string>): string {
    if xs == [] then "" else Concat(xs[..|xs| - 1]) + xs[|xs| - 1]
  }

  function DataOf(parts: seq<Part>): string {
    if parts == [] then "" else DataOf(parts[..|parts| - 1]) + parts[|parts| - 1].data
  }

  lemma DataSnoc(parts: seq<Part>, p: Part)
    ensures DataOf(parts + [p]) == DataOf(parts) + p.data
  {
    assert (parts + [p])[..|parts|] == parts;
  }

  lemma ConcatSnoc(xs: seq<string>, x: string)
    ensures Concat(xs + [x]) == Concat(xs) + x
  {
    assert (xs + [x])[..|xs|] == xs;
  }

  // ---- cutting ---------------------------------------------------------------------------

  /** Parts numbered from 0, all of one identity, none of them the last, none too long. */
  predicate Opening(parts: seq<Part>, id: Identity, step: nat) {
    forall i :: 0 <= i < |parts| ==>
      parts[i].id == id && parts[i].part == i && !parts[i].last && |parts[i].data| <= step
  }

  /** What a sender emits: an opening and exactly one last part, together spelling the text. */
  predicate IsTransaction(parts: seq<Part>, id: Identity, text: string, step: nat) {
    && parts != []
    && Opening(parts[..|parts| - 1], id, step)
    && var end := parts[|parts| - 1];
    && end.id == id && end.part == |parts| - 1 && end.last && |end.data| <= step
    && DataOf(parts) == text
  }

  /** Cutting so far: complete parts, and the pieces of the one being filled, spell the text read. */
  predicate Cut(out: seq<Part>, chunks: string, text: string, id: Identity, step: nat) {
    Opening(out, id, step) && |chunks| <= step && DataOf(out) + chunks == text
  }

  lemma CutFlushes(out: seq<Part>, chunks: string, text: string, id: Identity, step: nat)
    requires Cut(out, chunks, text, id, step)
    ensures Cut(out + [Part(id, |out|, false, chunks)], "", text, id, step)
  {
    DataSnoc(out, Part(id, |out|, false, chunks));
  }

  lemma CutGrows(out: seq<Part>, chunks: string, text: string, id: Identity, step: nat, piece: string)
    requires Cut(out, chunks, text, id, step) && |chunks| + |piece| <= step
    ensures Cut(out, chunks + piece, text + piece, id, step)
  {
    assert (DataOf(out) + chunks) + piece == DataOf(out) + (chunks + piece);
  }

  lemma CutEnds(out: seq<Part>, chunks: string, text: string, id: Identity, step: nat)
    requires Cut(out, chunks, text, id, step)
    ensures IsTransaction(out + [Part(id, |out|, true, chunks)], id, text, step)
  {
    var end := Part(id, |out|, true, chunks);
    DataSnoc(out, end);
    assert (out + [end])[..|out|] == out;
  }

  /** `limit // 8` is the longest piece; Python refuses to step by nothing. */
  method TransactionFrames(id: Identity, tokens: seq<string>, limit: nat) returns (r: Result<seq<Part>, Error>)
    ensures r.Err? <==> limit < 8 && tokens != []
    ensures r.Err? ==> r.error == BadStep
    ensures r.Ok? ==> IsTransaction(r.value, id, Concat(tokens), limit / 8)
  {
    var step := limit / 8;
    var out: seq<Part>, chunks := [], "";
    for t := 0 to |tokens|
      invariant t > 0 ==> step > 0
      invariant Cut(out, chunks, Concat(tokens[..t]), id, step)
    {
      if step == 0 {
        return Err(BadStep);
      }
      assert tokens[..t + 1] == tokens[..t] + [tokens[t]];
      ConcatSnoc(tokens[..t], tokens[t]);
      out, chunks := CutToken(out, chunks, Concat(tokens[..t]), id, step, tokens[t]);
    }
    assert tokens[..|tokens|] == tokens;
    CutEnds(out, chunks, Concat(tokens), id, step);
    return Ok(out + [Part(id, |out|, true, chunks)]);
  }

  /** A piece goes into the part being filled, or into a new one if it would be too long. */
  method AddPiece(out0: seq<Part>, chunks0: string, ghost text: string, id: Identity, step: nat, piece: string)
    returns (out: seq<Part>, chunks: string)
    requires |piece| <= step && Cut(out0, chunks0, text, id, step)
    ensures Cut(out, chunks, text + piece, id, step)
  {
    out, chunks := out0, chunks0;
    if |chunks| + |piece| > step && chunks != "" {
      CutFlushes(out, chunks, text, id, step);
      out, chunks := out + [Part(id, |out|, false, chunks)], "";
    }
    CutGrows(out, chunks, text, id, step, piece);
    chunks := chunks + piece;
  }

  /** One turn of the outer loop: a token goes in piece by piece. */
  method CutToken(out0: seq<Part>, chunks0: string, ghost text: string, id: Identity, step: nat, token: string)
    returns (out: seq<Part>, chunks: string)
    requires step > 0 && Cut(out0, chunks0, text, id, step)
    ensures Cut(out, chunks, text + token, id, step)
  {
    out, chunks := out0, chunks0;
    var start := 0;
    while start < |token|
      invariant 0 <= start
      invariant Cut(out, chunks, text + token[..if start < |token| then start else |token|], id, step)
      decreases |token| - start
    {
      var end := if start + step < |token| then start + step else |token|;
      assert text + token[..start] + token[start..end] == text + token[..end];
      out, chunks := AddPiece(out, chunks, text + token[..start], id, step, token[start..end]);
      start := start + step;
    }
    assert token[..|token|] == token;
  }

  // ---- assembling ------------------------------------------------------------------------

  /** The index of the part that ends the message, if the parts before it fit together. */
  predicate Fits(parts: seq<Part>, n: nat) {
    && n < |parts| && parts[n].last
    && forall i :: 0 <= i <= n ==> parts[i].id == parts[0].id && parts[i].part == i && (parts[i].last ==> i == n)
  }

  /** No part is missing or mixed in so far, and none is the last. */
  predicate Unfinished(parts: seq<Part>) {
    forall i :: 0 <= i < |parts| ==> parts[i].id == parts[0].id && parts[i].part == i && !parts[i].last
  }

  /** The message inside the parts up to the first last part, if these are numbered from 0 and of
      one identity, and so is the message. What follows the last part is not looked at. */
  ghost function Assembled(parse: string -> Message, parts: seq<Part>): Result<Message, Error> {
    if exists n :: Fits(parts, n) then
      var n :| Fits(parts, n);
      var m := parse(DataOf(parts[..n + 1]));
      if m.id == parts[0].id then Ok(m) else Err(IdentityMismatch)
    else if Unfinished(parts) then Err(Incomplete)
    else Err(MixedOrMissing)
  }

  method Assemble(parse: string -> Message, parts: seq<Part>) returns (r: Result<Message, Error>)
    ensures r == Assembled(parse, parts)
  {
    var data := "";
    for expected := 0 to |parts|
      invariant data == DataOf(parts[..expected])
      invariant Unfinished(parts[..expected])
    {
      var frame := parts[expected];
      if frame.id != parts[0].id || frame.part != expected {
        NothingFits(parts, expected);
        return Err(MixedOrMissing);
      }
      assert parts[..expected + 1] == parts[..expected] + [frame];
      DataSnoc(parts[..expected], frame);
      data := data + frame.data;
      if frame.last {
        FitsHere(parts, expected);
        var result := parse(data);
        if result.id != frame.id {
          return Err(IdentityMismatch);
        }
        return Ok(result);
      }
    }
    assert parts[..|parts|] == parts;
    return Err(Incomplete);
  }

  lemma NothingFits(parts: seq<Part>, k: nat)
    requires k < |parts| && Unfinished(parts[..k])
    requires parts[k].id != parts[0].id || parts[k].part != k
    ensures !Unfinished(parts) && forall n :: !Fits(parts, n)
  {
    forall n: nat ensures !Fits(parts, n) {
      if n < k && k < |parts| { assert !parts[..k][n].last; }
    }
  }

  lemma FitsHere(parts: seq<Part>, n: nat)
    requires n < |parts| && Unfinished(parts[..n])
    requires parts[n].id == parts[0].id && parts[n].part == n && parts[n].last
    ensures Fits(parts, n) && forall m :: Fits(parts, m) ==> m == n
  {
    forall i | 0 <= i < n ensures parts[i] == parts[..n][i] {}
    forall m | Fits(parts, m) ensures m == n { FitsOnce(parts, m, n); }
  }

  lemma FitsOnce(parts: seq<Part>, m: nat, n: nat)
    requires Fits(parts, m) && Fits(parts, n)
    ensures m == n
  {
    if m < n { assert false; }
    if n < m { assert false; }
  }

  // ---- the lane between them --------------------------------------------------------------

  /** Transactions in flight: each message with the parts it was cut into, no two of one identity. */
  ghost predicate InFlight(parse: string -> Message, sent: seq<(Message, seq<Part>)>, step: nat) {
    && (forall i, j :: 0 <= i < j < |sent| ==> sent[i].0.id != sent[j].0.id)
    && forall i :: 0 <= i < |sent| ==>
         exists text :: IsTransaction(sent[i].1, sent[i].0.id, text, step) && parse(text) == sent[i].0
  }

  predicate IsStartOf(xs: seq<Part>, ys: seq<Part>) {
    |xs| <= |ys| && ys[..|xs|] == xs
  }

  /** Whatever a lane makes of the parts of several transactions, by dropping, repeating,
      reordering and mixing them, assembling yields a message if and only if what arrived starts
      with one whole transaction in order, and then it yields that transaction's message. */
  lemma OnlyWholeTransactionsAssemble(parse: string -> Message, sent: seq<(Message, seq<Part>)>, step: nat,
                                      arrived: seq<Part>, m: Message)
    requires InFlight(parse, sent, step)
    requires forall p :: p in arrived ==> exists i :: 0 <= i < |sent| && p in sent[i].1
    ensures Assembled(parse, arrived) == Ok(m)
       <==> exists i :: 0 <= i < |sent| && sent[i].0 == m && IsStartOf(sent[i].1, arrived)
  {
    if i :| 0 <= i < |sent| && sent[i].0 == m && IsStartOf(sent[i].1, arrived) {
      WholeTransactionAssembles(parse, sent, step, arrived, i);
    }
    if Assembled(parse, arrived) == Ok(m) {
      var n :| Fits(arrived, n);
      assert arrived[0] in arrived;
      var i :| 0 <= i < |sent| && arrived[0] in sent[i].1;
      AssembledIsWhole(parse, sent, step, arrived, n, i);
      WholeTransactionAssembles(parse, sent, step, arrived, i);
    }
  }

  lemma PartsOf(parts: seq<Part>, id: Identity, text: string, step: nat, k: nat)
    requires IsTransaction(parts, id, text, step) && k < |parts|
    ensures parts[k].id == id && parts[k].part == k && (parts[k].last <==> k == |parts| - 1)
  {
    if k < |parts| - 1 { assert parts[..|parts| - 1][k] == parts[k]; }
  }

  lemma WholeTransactionAssembles(parse: string -> Message, sent: seq<(Message, seq<Part>)>, step: nat,
                                  arrived: seq<Part>, i: nat)
    requires InFlight(parse, sent, step) && i < |sent| && IsStartOf(sent[i].1, arrived)
    ensures Assembled(parse, arrived) == Ok(sent[i].0)
  {
    var parts := sent[i].1;
    var text :| IsTransaction(parts, sent[i].0.id, text, step) && parse(text) == sent[i].0;
    var n := |parts| - 1;
    forall k | 0 <= k <= n
      ensures arrived[k].id == sent[i].0.id && arrived[k].part == k && (arrived[k].last <==> k == n)
    {
      PartsOf(parts, sent[i].0.id, text, step, k);
      assert arrived[..|parts|][k] == arrived[k];
    }
    assert Fits(arrived, n);
    forall m | Fits(arrived, m) ensures m == n { FitsOnce(arrived, m, n); }
    assert arrived[..n + 1] == parts;
  }

  lemma AssembledIsWhole(parse: string -> Message, sent: seq<(Message, seq<Part>)>, step: nat,
                         arrived: seq<Part>, n: nat, i: nat)
    requires InFlight(parse, sent, step) && Fits(arrived, n) && i < |sent| && arrived[0] in sent[i].1
    requires forall p :: p in arrived ==> exists j :: 0 <= j < |sent| && p in sent[j].1
    ensures IsStartOf(sent[i].1, arrived)
  {
    var parts, id := sent[i].1, sent[i].0.id;
    var text :| IsTransaction(parts, id, text, step) && parse(text) == sent[i].0;
    forall k | 0 <= k <= n ensures k < |parts| && arrived[k] == parts[k] {
      ArrivedPartIsTheNumbered(parse, sent, step, arrived, i, n, k);
    }
    PartsOf(parts, id, text, step, n);
    assert n == |parts| - 1;
    assert arrived[..|parts|] == parts;
  }

  lemma ArrivedPartIsTheNumbered(parse: string -> Message, sent: seq<(Message, seq<Part>)>, step: nat,
                                 arrived: seq<Part>, i: nat, n: nat, k: nat)
    requires InFlight(parse, sent, step) && Fits(arrived, n) && i < |sent| && arrived[0] in sent[i].1 && k <= n
    requires forall p :: p in arrived ==> exists j :: 0 <= j < |sent| && p in sent[j].1
    ensures k < |sent[i].1| && arrived[k] == sent[i].1[k]
  {
    var text :| IsTransaction(sent[i].1, sent[i].0.id, text, step) && parse(text) == sent[i].0;
    var a :| 0 <= a < |sent[i].1| && sent[i].1[a] == arrived[0];
    PartsOf(sent[i].1, sent[i].0.id, text, step, a);
    assert arrived[k] in arrived;
    var j :| 0 <= j < |sent| && arrived[k] in sent[j].1;
    var text2 :| IsTransaction(sent[j].1, sent[j].0.id, text2, step) && parse(text2) == sent[j].0;
    var b :| 0 <= b < |sent[j].1| && sent[j].1[b] == arrived[k];
    PartsOf(sent[j].1, sent[j].0.id, text2, step, b);
    assert arrived[k].id == arrived[0].id;
    assert i == j by {
      if i < j { assert false; }
      if j < i { assert false; }
    }
    assert arrived[k].part == k;
  }

  /** Cut and assembled, a message comes back. */
  method RoundTrip(parse: string -> Message, message: Message, tokens: seq<string>, limit: nat)
    returns (r: Result<Message, Error>)
    requires limit >= 8 && parse(Concat(tokens)) == message
    ensures r == Ok(message)
  {
    var cut := TransactionFrames(message.id, tokens, limit);
    var sent := [(message, cut.value)];
    assert IsTransaction(cut.value, message.id, Concat(tokens), limit / 8);
    assert InFlight(parse, sent, limit / 8);
    assert cut.value[..|cut.value|] == cut.value;
    WholeTransactionAssembles(parse, sent, limit / 8, cut.value, 0);
    r := Assemble(parse, cut.value);
  }
}
