/**
 Documents the framing can and cannot carry: a validator that meets what the framing assumes, for every document it
 accepts, and names that let a document through or block the stream.
 */
module EventDocuments {
  import opened Prelude
  import opened EventFraming
  import opened EventStream
  import opened EventDelivery

  // ---------------------------------------------------------------- a validator

  /** Reading an array: outside or inside a text, after a backslash in a text, at the end, or beyond it. */
  datatype Scan = Outside(depth: nat) | Inside(depth: nat) | Escaped(depth: nat) | Done | Failed

  function Step(s: Scan, c: char): Scan {
    match s
    case Outside(d) =>
      if d == 0 then (if c == '[' then Outside(1) else Failed)
      else if c == '[' || c == '{' then Outside(d + 1)
      else if c == ']' || c == '}' then (if d == 1 then Done else Outside(d - 1))
      else if c == '"' then Inside(d)
      else s
    case Inside(d) => if c == '"' then Outside(d) else if c == '\\' then Escaped(d) else s
    case Escaped(d) => Inside(d)
    case Done => if c == '\n' then Done else Failed
    case Failed => Failed
  }

  function Run(s: Scan, text: string): Scan
    decreases |text|
  {
    if text == "" then s else Run(Step(s, text[0]), text[1..])
  }

  /** The text is an array whose brackets close at its end, perhaps with line ends after it. */
  predicate Complete(text: string) { Run(Outside(0), text).Done? }

  lemma {:induction false} RunOn(s: Scan, a: string, b: string)
    ensures Run(s, a + b) == Run(Run(s, a), b)
    decreases |a|
  {
    if a == "" {
      assert a + b == b;
    } else {
      assert (a + b)[0] == a[0] && (a + b)[1..] == a[1..] + b;
      RunOn(Step(s, a[0]), a[1..], b);
    }
  }

  /** What comes after the end: only line ends. */
  lemma {:induction false} AfterDone(text: string)
    ensures Run(Done, text).Done? <==> forall i :: 0 <= i < |text| ==> text[i] == '\n'
  {
    if text != "" {
      if text[0] == '\n' {
        AfterDone(text[1..]);
        assert text == ['\n'] + text[1..];
      } else {
        StaysFailed(text[1..]);
      }
    }
  }

  lemma {:induction false} StaysFailed(text: string)
    ensures Run(Failed, text).Failed?
  {
    if text != "" {
      StaysFailed(text[1..]);
    }
  }

  /** This validator is as the framing assumes, for every document that it accepts and that does not end in a line end. */
  lemma {:induction false} CompleteJudges(p: string)
    requires Complete(p) && p[|p| - 1] != '\n'
    ensures Judges(Complete, p)
  {
    forall m | 0 <= m < |p| ensures !Complete(p[..m]) {
      assert p[..m] + p[m..] == p;
      RunOn(Outside(0), p[..m], p[m..]);
      AfterDone(p[m..]);
      assert p[m..][|p| - 1 - m] == p[|p| - 1];
    }
    Judged(p, "\n");
    Judged(p, "\n\n");
    Judged(p, "\n\ni");
    Judged(p, "\n\nid");
    Judged(p, "\n\nid:");
    assert "\n\ni"[2] == 'i' && "\n\nid"[2] == 'i' && "\n\nid:"[2] == 'i';
  }

  lemma {:induction false} Judged(p: string, more: string)
    requires Complete(p)
    ensures Complete(p + more) <==> forall i :: 0 <= i < |more| ==> more[i] == '\n'
  {
    RunOn(Outside(0), p, more);
    AfterDone(more);
  }

  // ---------------------------------------------------------------- documents with a name

  const OPENING := "[{\"" + ("metadata" + ("\":{\"" + ("name" + "\":\"")))
  const CLOSING := "\"}}]"

  /** An update that carries a name. */
  function Named(name: string): string { OPENING + name + CLOSING }

  /** A name that needs no escape. */
  predicate Plain(name: string) { forall i :: 0 <= i < |name| ==> name[i] != '"' && name[i] != '\\' }

  lemma {:induction false} PlainStaysInside(d: nat, name: string)
    requires Plain(name)
    ensures Run(Inside(d), name) == Inside(d)
  {
    if name != "" {
      PlainStaysInside(d, name[1..]);
    }
  }

  lemma {:induction false} RunFive(s: Scan, a: string, b: string, c: string, d: string, e: string)
    ensures Run(s, a + (b + (c + (d + e)))) == Run(Run(Run(Run(Run(s, a), b), c), d), e)
  {
    hide Run;
    RunOn(s, a, b + (c + (d + e)));
    RunOn(Run(s, a), b, c + (d + e));
    RunOn(Run(Run(s, a), b), c, d + e);
    RunOn(Run(Run(Run(s, a), b), c), d, e);
  }

  lemma {:induction false} OpeningIs()
    ensures Run(Outside(0), OPENING) == Inside(3)
  {
    hide Run;
    RunFive(Outside(0), "[{\"", "metadata", "\":{\"", "name", "\":\"");
    Three(Outside(0), "[{\"");
    PlainStaysInside(2, "metadata");
    Four(Inside(2), "\":{\"");
    PlainStaysInside(3, "name");
    Three(Inside(3), "\":\"");
  }

  lemma {:induction false} RunOne(s: Scan, text: string)
    requires |text| > 0
    ensures Run(s, text) == Run(Step(s, text[0]), text[1..])
  {
    hide Step;
  }

  lemma {:induction false} Three(s: Scan, text: string)
    requires |text| == 3
    ensures Run(s, text) == Step(Step(Step(s, text[0]), text[1]), text[2])
  {
    hide Step;
    RunOne(s, text);
    RunOne(Step(s, text[0]), text[1..]);
    RunOne(Step(Step(s, text[0]), text[1]), text[1..][1..]);
    assert text[1..][1..][1..] == "";
  }

  lemma {:induction false} Four(s: Scan, text: string)
    requires |text| == 4
    ensures Run(s, text) == Step(Step(Step(Step(s, text[0]), text[1]), text[2]), text[3])
  {
    hide Step;
    RunOne(s, text);
    Three(Step(s, text[0]), text[1..]);
  }

  lemma {:induction false} NamedIsComplete(name: string)
    requires Plain(name)
    ensures Complete(Named(name)) && Named(name)[|Named(name)| - 1] == ']'
  {
    NamedRuns(name);
    hide Run;
    hide OPENING;
  }

  lemma {:induction false} NamedRuns(name: string)
    requires Plain(name)
    ensures Run(Outside(0), Named(name)).Done?
  {
    hide Run;
    hide OPENING;
    RunOn(Outside(0), OPENING + name, CLOSING);
    RunOn(Outside(0), OPENING, name);
    OpeningIs();
    PlainStaysInside(3, name);
    Four(Inside(3), CLOSING);
  }

  /** The document contains "id: " exactly when the name does. */
  lemma {:induction false} IdOnlyInName(name: string)
    ensures ContainsId(Named(name)) <==> ContainsId(name)
  {
    NoIInOpening();
    hide OPENING;
    IdInMiddle(OPENING, name, CLOSING);
  }

  lemma {:induction false} NoIInOpening()
    ensures forall k :: 0 <= k < |OPENING| ==> OPENING[k] != 'i'
  {
  }

  lemma {:induction false} IdInMiddle(a: string, name: string, c: string)
    requires forall k :: 0 <= k < |a| ==> a[k] != 'i'
    requires forall k :: 0 <= k < |c| ==> c[k] != 'i' && c[k] != 'd' && c[k] != ':' && c[k] != ' '
    ensures ContainsId(a + name + c) <==> ContainsId(name)
  {
    var p := a + name + c;
    forall k | 0 <= k < |p| ensures IdAt(p, k) <==> |a| <= k < |a| + |name| && IdAt(name, k - |a|) {
    }
    if k :| 0 <= k < |name| && IdAt(name, k) {
      assert IdAt(p, |a| + k);
    }
  }

  // ---------------------------------------------------------------- what gets through

  /** An event with a plain name passes the framing exactly when the name does not contain "id: "; otherwise it blocks it. */
  lemma {:induction false} NamePassesExactly(e: Event, name: string)
    requires IsNumber(e.number) && Plain(name) && e.payload == Named(name)
    ensures Good(Complete, e) <==> !ContainsId(name)
    ensures Blocks(Complete, e) <==> ContainsId(name)
  {
    hide Run;
    NamedIsComplete(name);
    hide Complete;
    CompleteJudges(Named(name));
    IdOnlyInName(name);
    hide Named;
    hide Judges;
    hide ContainsId;
  }

  /** Of events that each carry a name, exactly those before the first name with "id: " in it are delivered. */
  lemma {:induction false} DeliveredUpToTheFirstId(es: seq<Event>, names: seq<string>, b: nat, chunks: seq<string>)
    requires |es| == |names| && b <= |es|
    requires forall i :: 0 <= i < |es| ==> IsNumber(es[i].number) && Plain(names[i]) && es[i].payload == Named(names[i])
    requires forall i :: 0 <= i < b ==> !ContainsId(names[i])
    requires b < |es| ==> ContainsId(names[b])
    requires Joined(chunks) == GREETING + Texts(es)
    ensures Carries(Fed(chunks, Complete).0, es[..b])
  {
    hide *;
    forall i | 0 <= i < |es|
      ensures Good(Complete, es[i]) <==> !ContainsId(names[i])
      ensures Blocks(Complete, es[i]) <==> ContainsId(names[i])
    {
      NamePassesExactly(es[i], names[i]);
    }
    GoodUpToThere(Complete, es, b);
    BlockedExactlyByIds(Complete, es, b, chunks);
  }

  lemma {:induction false} GoodUpToThere(valid: Validator, es: seq<Event>, b: nat)
    requires b <= |es| && (forall i :: 0 <= i < b ==> Good(valid, es[i])) && (b < |es| ==> Blocks(valid, es[b]))
    ensures GoodUpTo(valid, es, b)
  {
    hide Good;
    hide Blocks;
  }

  /** It does happen: a hall in Madrid, followed by one in Oslo.  Neither is delivered, however the stream is cut. */
  lemma {:induction false} MadridBlocksOslo(chunks: seq<string>)
    requires Joined(chunks) == GREETING + Texts([Event("7", Named("Madrid: hall")), Event("8", Named("Oslo: hall"))])
    ensures Good(Complete, Event("8", Named("Oslo: hall")))
    ensures Fed(chunks, Complete).0 == []
  {
    hide *;
    var madrid, oslo := Event("7", Named("Madrid: hall")), Event("8", Named("Oslo: hall"));
    Names();
    NamePassesExactly(oslo, "Oslo: hall");
    DeliveredUpToTheFirstId([madrid, oslo], ["Madrid: hall", "Oslo: hall"], 0, chunks);
    CarriesNothing(Fed(chunks, Complete).0, [madrid, oslo][..0]);
  }

  lemma {:induction false} Names()
    ensures Plain("Madrid: hall") && ContainsId("Madrid: hall") && Plain("Oslo: hall") && !ContainsId("Oslo: hall")
    ensures IsNumber("7") && IsNumber("8")
  {
    assert IdAt("Madrid: hall", 4);
    var oslo := "Oslo: hall";
    assert forall i :: 0 <= i < |oslo| ==> oslo[i] != 'i';
  }

  lemma {:induction false} CarriesNothing(documents: seq<string>, es: seq<Event>)
    requires Carries(documents, es) && es == []
    ensures documents == []
  {
  }
}
