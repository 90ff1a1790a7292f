/**
 Whatever the chunks, every event of the stream is delivered once and in order; an event whose
 document contains "id: " blocks the stream for good.
 */
module EventDelivery {
  import opened Prelude
  import opened EventFraming
  import opened EventStream

  /** The document of the event, perhaps with line ends after it. */
  predicate IsDocumentOf(document: string, e: Event) {
    document == e.payload || document == e.payload + "\n" || document == e.payload + "\n\n"
  }

  ghost predicate Carries(documents: seq<string>, es: seq<Event>) {
    |documents| == |es| && forall i :: 0 <= i < |es| ==> IsDocumentOf(documents[i], es[i])
  }

  ghost predicate AllGood(valid: Validator, es: seq<Event>) { forall i :: 0 <= i < |es| ==> Good(valid, es[i]) }

  lemma {:induction false} TextsBegin(es: seq<Event>)
    ensures es != [] ==> Texts(es) != "" && IdAt(Texts(es), 0) && |Texts(es)| >= 4
  {
    if es != [] {
      TextIs(es[0]);
    }
  }

  /** Of the events, the first b are good, and the next one, if any, blocks. */
  ghost predicate GoodUpTo(valid: Validator, es: seq<Event>, b: nat) {
    && b <= |es| && AllGood(valid, es[..b])
    && (b < |es| ==> Blocks(valid, es[b]))
  }

  lemma {:induction false} GoodRest(valid: Validator, es: seq<Event>, b: nat, k: nat)
    requires GoodUpTo(valid, es, b) && k <= b
    ensures GoodUpTo(valid, es[k..], b - k)
  {
    assert es[k..][..b - k] == es[..b][k..];
  }

  lemma {:induction false} FirstSplits(valid: Validator, w: string, es: seq<Event>, b: nat)
    requires es != [] && Inert(w) && GoodUpTo(valid, es, b)
    ensures Splits(w + Texts(es), w, es[0], Texts(es[1..]))
    ensures if b == 0 then Blocks(valid, es[0]) else Good(valid, es[0]) && GoodUpTo(valid, es[1..], b - 1)
  {
    hide Good;
    hide Blocks;
    hide Text;
    if b > 0 {
      assert es[..b][0] == es[0];
      GoodRest(valid, es, b, 1);
    }
    FirstIsNumber(valid, es, b);
    hide GoodUpTo;
    hide AllGood;
    TextsBegin(es[1..]);
    FirstText(w, es);
  }

  lemma {:induction false} FirstIsNumber(valid: Validator, es: seq<Event>, b: nat)
    requires es != [] && GoodUpTo(valid, es, b)
    ensures IsNumber(es[0].number)
  {
    if b > 0 {
      assert Good(valid, es[..b][0]);
    }
  }

  lemma {:induction false} FirstText(w: string, es: seq<Event>)
    requires es != []
    ensures w + Texts(es) == w + Text(es[0]) + Texts(es[1..])
  {
    hide Text;
    Associate(w, Text(es[0]), Texts(es[1..]));
  }

  lemma {:induction false} NothingInInert(w: string, valid: Validator, n: nat)
    requires Inert(w) && n <= |w|
    ensures Next(w[..n], valid) == None
  {
    assert forall k :: 0 <= k <= n ==> !DataAt(w[..n], k);
  }

  /** Taking the first event, if it is ready, leaves inert text and the other events. */
  lemma {:induction false} TakeFirst(valid: Validator, t: string, w: string, e: Event, rest: string, n: nat) returns (v: string, m: nat)
    requires Splits(t, w, e, rest) && Good(valid, e) && n <= |t| && Ready(w, e, n)
    ensures Next(t[..n], valid).Some? && IsDocumentOf(Next(t[..n], valid).value.document, e)
    ensures Inert(v) && m <= |v + rest| && m == n - Next(t[..n], valid).value.end
    ensures t[..n][Next(t[..n], valid).value.end..] == (v + rest)[..m] && t[n..] == (v + rest)[m..]
  {
    hide *;
    BeginIs(w, e);
    NextIs(valid, t, w, e, rest, n);
    PayloadIsAt(t, w, e, rest);
    ReadyDocument(t, w, e, rest, n);
    var end := if n < End(w, e) then n else End(w, e);
    v, m := t[end..End(w, e)], n - end;
    LineEnds(t, w, e, end);
    Slices(t, end, End(w, e), n);
  }

  lemma {:induction false} ReadyDocument(t: string, w: string, e: Event, rest: string, n: nat)
    requires Splits(t, w, e, rest) && Ready(w, e, n) && n <= |t|
    ensures var end := if n < End(w, e) then n else End(w, e);
            Begin(w, e) <= end && End(w, e) - 2 <= end <= End(w, e) <= |t| && IsDocumentOf(t[Begin(w, e)..end], e)
  {
    PayloadIsAt(t, w, e, rest);
    CutText(t, w, e, rest, if n < End(w, e) then n else End(w, e));
    hide Splits;
  }

  lemma {:induction false} LineEnds(t: string, w: string, e: Event, end: nat)
    requires End(w, e) - 2 <= end <= End(w, e) <= |t|
    requires t[End(w, e) - 2] == '\n' && t[End(w, e) - 1] == '\n'
    ensures Inert(t[end..End(w, e)])
  {
  }

  lemma {:induction false} Slices(t: string, end: nat, next: nat, n: nat)
    requires end <= n <= |t| && end <= next <= |t|
    ensures t[end..] == t[end..next] + t[next..]
    ensures t[..n][end..] == t[end..][..n - end] && t[n..] == t[end..][n - end..]
  {
  }

  /** Draining the first n bytes of a stream delivers its first k events and leaves a stream of the others. */
  lemma {:induction false} DrainPrefix(valid: Validator, w: string, es: seq<Event>, b: nat, n: nat) returns (k: nat, v: string)
    requires Inert(w) && GoodUpTo(valid, es, b) && n <= |w + Texts(es)|
    ensures k <= b && Inert(v)
    ensures var (documents, rest) := Drained((w + Texts(es))[..n], valid);
            && Carries(documents, es[..k])
            && rest + (w + Texts(es))[n..] == v + Texts(es[k..])
    ensures n == |w + Texts(es)| ==> k == b
    decreases |es|
  {
    var t := w + Texts(es);
    k, v := 0, w;
    assert t[..n] + t[n..] == t && es[0..] == es;
    if es == [] {
      assert t == w;
      NothingInInert(w, valid, n);
    } else {
      var e, rest := es[0], Texts(es[1..]);
      FirstSplits(valid, w, es, b);
      if b == 0 {
        NothingIsNext(valid, t, w, e, rest, n);
      } else {
        NextIs(valid, t, w, e, rest, n);
        if Ready(w, e, n) {
          k, v := DrainFirst(valid, w, es, b, n);
        } else {
          PayloadIsAt(t, w, e, rest);
          TextsBegin(es[1..]);
        }
      }
    }
  }

  lemma {:induction false} DrainFirst(valid: Validator, w: string, es: seq<Event>, b: nat, n: nat) returns (k: nat, v: string)
    requires Inert(w) && GoodUpTo(valid, es, b) && n <= |w + Texts(es)|
    requires b > 0 && Ready(w, es[0], n)
    ensures k <= b && Inert(v)
    ensures var (documents, rest) := Drained((w + Texts(es))[..n], valid);
            && Carries(documents, es[..k])
            && rest + (w + Texts(es))[n..] == v + Texts(es[k..])
    ensures n == |w + Texts(es)| ==> k == b
    decreases |es|, 0
  {
    var t, e, rest := w + Texts(es), es[0], Texts(es[1..]);
    FirstSplits(valid, w, es, b);
    hide Texts;
    hide Next;
    var u, m := TakeFirst(valid, t, w, e, rest, n);
    var k', v' := DrainPrefix(valid, u, es[1..], b - 1, m);
    k, v := k' + 1, v';
    CarriesOneMore(Next(t[..n], valid).value.document, Drained((u + rest)[..m], valid).0, es, k');
    assert es[k..] == es[1..][k'..];
    SameLength(t, n, u + rest, m);
  }

  lemma {:induction false} SameLength(t: string, n: nat, s: string, m: nat)
    requires n <= |t| && m <= |s| && t[n..] == s[m..]
    ensures n == |t| <==> m == |s|
  {
    assert |t[n..]| == |t| - n && |s[m..]| == |s| - m;
  }

  lemma {:induction false} CarriesOneMore(document: string, documents: seq<string>, es: seq<Event>, k: nat)
    requires es != [] && k < |es| && IsDocumentOf(document, es[0]) && Carries(documents, es[1..][..k])
    ensures Carries([document] + documents, es[..k + 1])
  {
    assert es[..k + 1] == [es[0]] + es[1..][..k];
  }

  // ---------------------------------------------------------------- chunks

  /** Everything delivered, and the buffer, after the chunks have come in one by one. */
  function Fed(chunks: seq<string>, valid: Validator): (seq<string>, string) {
    if chunks == [] then ([], "")
    else
      var (documents, buffer) := Fed(chunks[..|chunks| - 1], valid);
      var (more, rest) := Drained(buffer + chunks[|chunks| - 1], valid);
      (documents + more, rest)
  }

  function Joined(chunks: seq<string>): string {
    if chunks == [] then "" else Joined(chunks[..|chunks| - 1]) + chunks[|chunks| - 1]
  }

  /** At any time: the first k events were delivered, and the buffer is what remains of the stream so far. */
  lemma {:induction false} FedPrefix(valid: Validator, w: string, es: seq<Event>, b: nat, chunks: seq<string>, future: string)
    returns (k: nat, v: string)
    requires Inert(w) && GoodUpTo(valid, es, b) && Joined(chunks) + future == w + Texts(es)
    ensures k <= b && Inert(v) && Carries(Fed(chunks, valid).0, es[..k])
    ensures Fed(chunks, valid).1 + future == v + Texts(es[k..])
    ensures future == "" ==> k == b
    decreases |chunks|
  {
    if chunks == [] {
      k, v := 0, w;
      assert es[0..] == es;
      TextsBegin(es);
    } else {
      var front, last := chunks[..|chunks| - 1], chunks[|chunks| - 1];
      var (documents, buffer) := Fed(front, valid);
      Associate(Joined(front), last, future);
      var k', v' := FedPrefix(valid, w, es, b, front, last + future);
      k, v := FedOneMore(valid, es, b, documents, buffer, last, future, k', v');
    }
  }

  /** One more chunk. */
  lemma {:induction false} FedOneMore(valid: Validator, es: seq<Event>, b: nat, documents: seq<string>, buffer: string, last: string, future: string,
                   k': nat, v': string) returns (k: nat, v: string)
    requires GoodUpTo(valid, es, b) && k' <= b && Inert(v') && Carries(documents, es[..k'])
    requires buffer + (last + future) == v' + Texts(es[k'..])
    ensures k <= b && Inert(v) && Carries(documents + Drained(buffer + last, valid).0, es[..k])
    ensures Drained(buffer + last, valid).1 + future == v + Texts(es[k..])
    ensures future == "" ==> k == b
  {
    hide *;
    GoodEnds(valid, es, b);
    GoodRest(valid, es, b, k');
    var t := v' + Texts(es[k'..]);
    Append(buffer, last, future);
    var more, v'' := DrainPrefix(valid, v', es[k'..], b - k', |buffer + last|);
    k, v := k' + more, v'';
    CarriesMore(documents, Drained(buffer + last, valid).0, es, k', more);
    RestOfRest(es, k', more);
  }

  lemma {:induction false} RestOfRest(es: seq<Event>, k: nat, m: nat)
    requires k + m <= |es|
    ensures es[k..][m..] == es[k + m..]
  {
  }

  lemma {:induction false} GoodEnds(valid: Validator, es: seq<Event>, b: nat)
    requires GoodUpTo(valid, es, b)
    ensures b <= |es|
  {
  }

  lemma {:induction false} Append(a: string, b: string, c: string)
    ensures a + (b + c) == a + b + c
    ensures (a + (b + c))[..|a + b|] == a + b && (a + (b + c))[|a + b|..] == c
  {
  }

  lemma {:induction false} CarriesMore(a: seq<string>, b: seq<string>, es: seq<Event>, k: nat, m: nat)
    requires k + m <= |es| && Carries(a, es[..k]) && Carries(b, es[k..][..m])
    ensures Carries(a + b, es[..k + m])
  {
  }

  /** Framing is independent of the chunks: however the greeting and the events are cut, each document is
      delivered once and in order. */
  lemma {:induction false} EveryEventOnceInOrder(valid: Validator, es: seq<Event>, chunks: seq<string>)
    requires AllGood(valid, es) && Joined(chunks) == GREETING + Texts(es)
    ensures Carries(Fed(chunks, valid).0, es)
  {
    assert es[..|es|] == es && Joined(chunks) + "" == Joined(chunks);
    var k, v := FedPrefix(valid, GREETING, es, |es|, chunks, "");
  }

  /** When the stream is not yet complete, what is delivered is a beginning of the events. */
  lemma {:induction false} NothingElseBeforehand(valid: Validator, es: seq<Event>, chunks: seq<string>, future: string)
    requires AllGood(valid, es) && Joined(chunks) + future == GREETING + Texts(es)
    ensures |Fed(chunks, valid).0| <= |es| && Carries(Fed(chunks, valid).0, es[..|Fed(chunks, valid).0|])
  {
    assert es[..|es|] == es;
    var k, v := FedPrefix(valid, GREETING, es, |es|, chunks, future);
  }

  /** A document that contains "id: " is never delivered, and neither is anything after it; what comes before is.
      So a stream is delivered completely exactly when no document contains "id: ". */
  lemma {:induction false} BlockedExactlyByIds(valid: Validator, es: seq<Event>, b: nat, chunks: seq<string>)
    requires GoodUpTo(valid, es, b) && Joined(chunks) == GREETING + Texts(es)
    ensures Carries(Fed(chunks, valid).0, es[..b])
    ensures Carries(Fed(chunks, valid).0, es) <==> b == |es|
  {
    assert Joined(chunks) + "" == Joined(chunks);
    var k, v := FedPrefix(valid, GREETING, es, b, chunks, "");
    assert b == |es| ==> es[..b] == es;
  }
}
