/**
 Framing does not depend on how the stream is cut into chunks.
 */
module EventStream {
  import opened Prelude
  import opened EventFraming

  /** The text the server writes for an event. */
  function Header(e: Event): string { "id: " + e.number + ":0\n" }

  function Text(e: Event): string { Header(e) + "data: " + e.payload + "\n\n" }

  function Texts(es: seq<Event>): string { if es == [] then "" else Text(es[0]) + Texts(es[1..]) }

  predicate IsNumber(s: string) { forall i :: 0 <= i < |s| ==> '0' <= s[i] <= '9' }

  /** Text with no 'd' in it, such as the greeting or the end of an event already taken. */
  predicate Inert(w: string) { forall i :: 0 <= i < |w| ==> w[i] != 'd' }

  predicate ContainsId(s: string) { exists i :: 0 <= i < |s| && IdAt(s, i) }

  /** What is assumed of the validator: no proper prefix of a document is valid; the document is, also with line
      ends after it; but not with other text after it. */
  ghost predicate Judges(valid: Validator, p: string) {
    && (forall m :: 0 <= m < |p| ==> !valid(p[..m]))
    && valid(p) && valid(p + "\n") && valid(p + "\n\n")
    && !valid(p + "\n\ni") && !valid(p + "\n\nid") && !valid(p + "\n\nid:")
  }

  /** An event that the framing can carry. */
  ghost predicate Good(valid: Validator, e: Event) {
    IsNumber(e.number) && Judges(valid, e.payload) && !ContainsId(e.payload)
  }

  // ---------------------------------------------------------------- where things are in the stream

  /** Where the document of the first event begins, after the inert text w. */
  function Begin(w: string, e: Event): nat { |w| + |e.number| + 13 }

  /** The stream `t` is inert text, an event, and the rest, which is empty or another event. */
  ghost predicate Splits(t: string, w: string, e: Event, rest: string) {
    t == w + Text(e) + rest && Inert(w) && IsNumber(e.number) && (rest == "" || IdAt(rest, 0))
  }

  lemma {:induction false} TextIs(e: Event)
    ensures var x, n := Text(e), |e.number| + 13;
            && |x| == n + |e.payload| + 2
            && x[..n] == Header(e) + "data: " && x[n..n + |e.payload|] == e.payload
            && x[n + |e.payload|] == '\n' && x[n + |e.payload| + 1] == '\n'
  {
  }

  lemma {:induction false} HeaderHasNoData(e: Event)
    requires IsNumber(e.number)
    ensures var h := Header(e) + "data: ";
            |h| == |e.number| + 13 && DataAt(h, |h| - 6) && forall k :: 0 <= k < |h| - 6 ==> h[k] != 'd' || h[k + 1] != 'a'
  {
  }

  lemma {:induction false} DataIsFirst(t: string, w: string, e: Event, rest: string)
    requires Splits(t, w, e, rest)
    ensures Begin(w, e) <= |t| && DataAt(t, Begin(w, e) - 6)
    ensures forall k :: 0 <= k < Begin(w, e) - 6 ==> !DataAt(t, k)
  {
    HeaderHasNoData(e);
    TextIs(e);
    var h := Header(e) + "data: ";
    forall k | 0 <= k < |h| ensures t[|w| + k] == h[k] {
      assert t[|w| + k] == Text(e)[k];
      assert Text(e)[k] == Text(e)[..|h|][k];
    }
    forall k | 0 <= k < Begin(w, e) - 6 ensures !DataAt(t, k) {
      if k < |w| {
        assert t[k] == w[k];
      } else {
        assert t[k] == h[k - |w|] && t[k + 1] == h[k - |w| + 1];
      }
    }
  }

  /** Where the next event begins. */
  function End(w: string, e: Event): nat { Begin(w, e) + |e.payload| + 2 }

  lemma {:induction false} PayloadIsAt(t: string, w: string, e: Event, rest: string)
    requires Splits(t, w, e, rest)
    ensures |t| == End(w, e) + |rest|
    ensures t[Begin(w, e)..Begin(w, e) + |e.payload|] == e.payload
    ensures t[End(w, e) - 2] == '\n' && t[End(w, e) - 1] == '\n'
    ensures t[End(w, e)..] == rest
  {
    TextIs(e);
    var x, n := Text(e), |e.number| + 13;
    assert t[|w|..|w| + |x|] == x;
    assert t[Begin(w, e)..Begin(w, e) + |e.payload|] == x[n..n + |e.payload|];
    assert t[End(w, e) - 2] == x[|x| - 2] && t[End(w, e) - 1] == x[|x| - 1];
  }

  /** Between the data and the next event no "id: " begins, unless the payload contains one. */
  lemma {:induction false} NoIdInside(t: string, w: string, e: Event, rest: string, k: nat)
    requires Splits(t, w, e, rest) && !ContainsId(e.payload)
    requires Begin(w, e) - 6 <= k < End(w, e)
    ensures !IdAt(t, k)
  {
    DataIsFirst(t, w, e, rest);
    PayloadIsAt(t, w, e, rest);
    hide Splits;
    hide ContainsId;
    NoIdIn(t, Begin(w, e), e.payload, k);
  }

  lemma {:induction false} NoIdIn(t: string, b: nat, p: string, k: nat)
    requires 6 <= b && b + |p| + 2 <= |t| && DataAt(t, b - 6) && t[b..b + |p|] == p && !ContainsId(p)
    requires t[b + |p|] == '\n' && t[b + |p| + 1] == '\n'
    requires b - 6 <= k < b + |p| + 2
    ensures !IdAt(t, k)
  {
    if b <= k && k + 4 <= b + |p| {
      assert !IdAt(p, k - b);
      assert forall i :: 0 <= i < |p| ==> p[i] == t[b + i];
    }
  }

  lemma {:induction false} IdIsNext(t: string, w: string, e: Event, rest: string)
    requires Splits(t, w, e, rest) && rest != ""
    ensures End(w, e) + 4 <= |t| && IdAt(t, End(w, e))
  {
    PayloadIsAt(t, w, e, rest);
    assert forall i :: 0 <= i < |rest| ==> t[End(w, e) + i] == rest[i];
  }

  // ---------------------------------------------------------------- what the client finds in the first n bytes

  lemma {:induction false} DataFound(t: string, w: string, e: Event, rest: string, n: nat)
    requires Splits(t, w, e, rest) && n <= |t|
    ensures FindData(t[..n], 0) == if n < Begin(w, e) then n else Begin(w, e) - 6
  {
    DataIsFirst(t, w, e, rest);
    var u, b := t[..n], Begin(w, e);
    assert forall k :: 0 <= k < b - 6 ==> !DataAt(u, k);
    assert DataAt(u, b - 6) <==> b <= n;
  }

  lemma {:induction false} IdFound(t: string, w: string, e: Event, rest: string, n: nat)
    requires Splits(t, w, e, rest) && !ContainsId(e.payload) && Begin(w, e) <= n <= |t|
    ensures FindId(t[..n], Begin(w, e) - 6) == if n < End(w, e) + 4 then n else End(w, e)
  {
    var u, b, end := t[..n], Begin(w, e), End(w, e);
    forall k | b - 6 <= k < end && k <= n ensures !IdAt(u, k) {
      NoIdInside(t, w, e, rest, k);
    }
    PayloadIsAt(t, w, e, rest);
    if n >= end + 4 {
      IdIsNext(t, w, e, rest);
      assert IdAt(u, end);
    } else {
      assert forall k :: end <= k <= n ==> !IdAt(u, k);
    }
  }

  /** The text between the data mark and the cut, for a cut at the end of the buffer or at the next event. */
  lemma {:induction false} CutText(t: string, w: string, e: Event, rest: string, n: nat)
    requires Splits(t, w, e, rest) && Begin(w, e) <= n <= |t| && n < End(w, e) + 4
    ensures var m, p := n - Begin(w, e), e.payload;
            t[Begin(w, e)..n] ==
            if m < |p| then p[..m]
            else if m == |p| then p
            else if m == |p| + 1 then p + "\n"
            else if m == |p| + 2 then p + "\n\n"
            else if m == |p| + 3 then p + "\n\ni"
            else if m == |p| + 4 then p + "\n\nid"
            else p + "\n\nid:"
  {
    PayloadIsAt(t, w, e, rest);
    var b, end, p := Begin(w, e), End(w, e), e.payload;
    if n <= b + |p| {
      assert t[b..n] == t[b..b + |p|][..n - b];
    } else {
      assert t[b..n] == t[b..b + |p|] + t[b + |p|..n];
      if n > end {
        IdIsNext(t, w, e, rest);
      }
    }
  }

  /** The first n bytes give a document exactly when its text and no part of the next mark is there. */
  predicate Ready(w: string, e: Event, n: nat) {
    End(w, e) - 2 <= n <= End(w, e) || n >= End(w, e) + 4
  }

  lemma {:induction false} SliceOfSlice(t: string, n: nat, i: nat, j: nat)
    requires i <= j <= n <= |t|
    ensures t[..n][i..j] == t[i..j]
  {
  }

  lemma {:induction false} NextIs(valid: Validator, t: string, w: string, e: Event, rest: string, n: nat)
    requires Splits(t, w, e, rest) && Good(valid, e) && n <= |t|
    ensures var end := if n < End(w, e) then n else End(w, e);
            Next(t[..n], valid) == if Ready(w, e, n) then Some(Cut(t[Begin(w, e)..end], end)) else None
  {
    DataFound(t, w, e, rest, n);
    if n >= Begin(w, e) {
      IdFound(t, w, e, rest, n);
      var b, end := Begin(w, e), if n < End(w, e) + 4 then n else End(w, e);
      SliceOfSlice(t, n, b, end);
      CutText(t, w, e, rest, if n < End(w, e) + 4 then n else End(w, e));
    }
  }

  /** An event that the framing cannot carry. */
  ghost predicate Blocks(valid: Validator, e: Event) {
    IsNumber(e.number) && Judges(valid, e.payload) && ContainsId(e.payload)
  }

  /** The client takes the "id: " inside the document for the next event, so the document never becomes valid. */
  lemma {:induction false} NothingIsNext(valid: Validator, t: string, w: string, e: Event, rest: string, n: nat)
    requires Splits(t, w, e, rest) && Blocks(valid, e) && n <= |t|
    ensures Next(t[..n], valid) == None
  {
    hide *;
    DataFound(t, w, e, rest, n);
    if n < Begin(w, e) {
      NothingFound(t[..n], valid);
    } else {
      PayloadIsAt(t, w, e, rest);
      DataIsFirst(t, w, e, rest);
      BlocksIs(valid, e);
      BeginIs(w, e);
      BlockedAt(valid, t, Begin(w, e), e.payload, n);
    }
  }

  lemma {:induction false} BlockedAt(valid: Validator, t: string, b: nat, p: string, n: nat)
    requires 6 <= b <= n <= |t| && DataAt(t, b - 6) && b + |p| <= |t| && t[b..b + |p|] == p
    requires FindData(t[..n], 0) == b - 6 && ContainsId(p) && Judges(valid, p)
    ensures Next(t[..n], valid) == None
  {
    hide *;
    CutInside(t, b, p, n);
    var r := FindId(t[..n], b - 6);
    ProperPrefix(valid, p, r - b);
    NothingValid(t[..n], valid, b - 6);
  }

  lemma {:induction false} BeginIs(w: string, e: Event)
    ensures Begin(w, e) >= 13 && End(w, e) == Begin(w, e) + |e.payload| + 2
  {
  }

  lemma {:induction false} BlocksIs(valid: Validator, e: Event)
    requires Blocks(valid, e)
    ensures Judges(valid, e.payload) && ContainsId(e.payload)
  {
  }

  lemma {:induction false} ProperPrefix(valid: Validator, p: string, m: nat)
    requires Judges(valid, p) && m < |p|
    ensures !valid(p[..m])
  {
  }

  lemma {:induction false} NothingFound(u: string, valid: Validator)
    requires FindData(u, 0) == |u|
    ensures Next(u, valid) == None
  {
  }

  lemma {:induction false} NothingValid(u: string, valid: Validator, start: nat)
    requires FindData(u, 0) == start < |u|
    requires start + 6 <= FindId(u, start) && !valid(u[start + 6..FindId(u, start)])
    ensures Next(u, valid) == None
  {
  }

  lemma {:induction false} CutInside(t: string, b: nat, p: string, n: nat)
    requires 6 <= b <= n <= |t| && DataAt(t, b - 6) && b + |p| <= |t| && t[b..b + |p|] == p && ContainsId(p)
    ensures var r := FindId(t[..n], b - 6);
            b <= r && r - b < |p| && t[..n][b..r] == p[..r - b]
  {
    var u := t[..n];
    assert DataAt(u, b - 6);
    IdComesAfterData(u, b - 6);
    var r := FindId(u, b - 6);
    var j :| 0 <= j < |p| && IdAt(p, j);
    IdInside(t, b, p, j, n);
    SliceOfSlice(t, n, b, r);
    SliceOfSlice(t[b..], |p|, 0, r - b);
    assert t[b..][..|p|] == p && t[b..r] == t[b..][..r - b];
  }

  lemma {:induction false} IdInside(t: string, b: nat, p: string, j: nat, n: nat)
    requires b + |p| <= |t| && t[b..b + |p|] == p && IdAt(p, j) && n <= |t|
    ensures n < b + j + 4 || IdAt(t[..n], b + j)
  {
    assert forall i :: 0 <= i < |p| ==> p[i] == t[b + i];
  }
}
