/**
 The event stream as the client cuts it: bytes are appended to a buffer, and complete documents
 are taken from its front.  The framing is the part of server-sent events (section 9.2.6 of the
 WHATWG HTML Living Standard) that the simulator uses.
 */
module EventFraming {
  import opened Prelude

  const GREETING := ": hi\n\n"

  /** An event of the server: its number in decimal and the document it carries. */
  datatype Event = Event(number: string, payload: string)

  predicate DataAt(s: string, i: nat) {
    i + 6 <= |s| && s[i] == 'd' && s[i + 1] == 'a' && s[i + 2] == 't' && s[i + 3] == 'a' && s[i + 4] == ':' && s[i + 5] == ' '
  }

  predicate IdAt(s: string, i: nat) {
    i + 4 <= |s| && s[i] == 'i' && s[i + 1] == 'd' && s[i + 2] == ':' && s[i + 3] == ' '
  }

  /** The first "data: " at or after i, or the length of the text. */
  function FindData(s: string, i: nat): (r: nat)
    requires i <= |s|
    ensures i <= r <= |s|
    ensures forall k :: i <= k < r ==> !DataAt(s, k)
    ensures r < |s| ==> DataAt(s, r)
    decreases |s| - i
  {
    if i == |s| || DataAt(s, i) then i else FindData(s, i + 1)
  }

  /** The first "id: " at or after i, or the length of the text. */
  function FindId(s: string, i: nat): (r: nat)
    requires i <= |s|
    ensures i <= r <= |s|
    ensures forall k :: i <= k < r ==> !IdAt(s, k)
    ensures r < |s| ==> IdAt(s, r)
    decreases |s| - i
  {
    if i == |s| || IdAt(s, i) then i else FindId(s, i + 1)
  }

  /** No "id: " begins inside "data: ". */
  lemma {:induction false} IdComesAfterData(s: string, i: nat)
    requires DataAt(s, i)
    ensures FindId(s, i) >= i + 6
  {
    assert forall k :: i <= k < i + 6 ==> !IdAt(s, k);
  }

  /** A document cut from the front of the buffer, which then begins at `end`. */
  datatype Cut = Cut(document: string, end: nat)

  type Validator = string -> bool

  function Next(buffer: string, valid: Validator): (r: Option<Cut>)
    ensures r.Some? ==> 0 < r.value.end <= |buffer|
  {
    var start := FindData(buffer, 0);
    if start == |buffer| then None
    else
      IdComesAfterData(buffer, start);
      var end := FindId(buffer, start);
      var document := buffer[start + 6..end];
      if valid(document) then Some(Cut(document, end)) else None
  }

  /** The documents taken and what is left, until no complete document is at the front. */
  function Drained(buffer: string, valid: Validator): (seq<string>, string)
    decreases |buffer|
  {
    match Next(buffer, valid)
    case None => ([], buffer)
    case Some(cut) =>
      var (documents, rest) := Drained(buffer[cut.end..], valid);
      ([cut.document] + documents, rest)
  }

  class EventReader {
    const valid: Validator
    var response: string
    var documents: seq<string>

    constructor (valid: Validator)
      ensures response == "" && documents == [] && this.valid == valid
    {
      this.valid, response, documents := valid, "", [];
    }

    /** A chunk arrives; the loop ends because each document taken makes the buffer shorter. */
    method Receive(chunk: string)
      modifies this
      ensures documents == old(documents) + Drained(old(response) + chunk, valid).0
      ensures response == Drained(old(response) + chunk, valid).1
    {
      response := response + chunk;
      ghost var all := Drained(response, valid);
      ghost var taken: seq<string> := [];
      while true
        invariant documents == old(documents) + taken
        invariant all.0 == taken + Drained(response, valid).0 && all.1 == Drained(response, valid).1
        decreases |response|
      {
        var start := FindPosition(false, 0);
        if start == |response| {
          return;
        }
        var end := FindPosition(true, start);
        IdComesAfterData(response, start);
        var document := response[start + 6..end];
        if !valid(document) {
          return;
        }
        Associate(taken, [document], Drained(response[end..], valid).0);
        Associate(old(documents), taken, [document]);
        taken := taken + [document];
        response := response[end..];
        documents := documents + [document];
      }
    }

    method FindPosition(id: bool, from: nat) returns (r: nat)
      requires from <= |response|
      ensures r == if id then FindId(response, from) else FindData(response, from)
    {
      r := from;
      while r < |response| && !(if id then IdAt(response, r) else DataAt(response, r))
        invariant from <= r <= |response|
        invariant id ==> FindId(response, r) == FindId(response, from)
        invariant !id ==> FindData(response, r) == FindData(response, from)
      {
        r := r + 1;
      }
    }
  }
}
