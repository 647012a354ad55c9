/** The chat transcript: role-tagged messages, the update-by-id that the
    streaming loop applies to it, and the text the streamed chunks add up to. */
module Transcript {

  datatype Option<T> = None | Some(value: T)

  datatype Role = User | Model

  /** A transcript entry.  Ids come from a fresh-id counter; the chat page
      itself derives them from the wall clock. */
  datatype Message = Message(id: nat, role: Role, text: string)

  /** The transcript with every message carrying `id` given `text` and every
      other message left as it is (the `prev.map(...)` state update). */
  function UpdateById(ms: seq<Message>, id: nat, text: string): (r: seq<Message>)
    ensures |r| == |ms|
    ensures forall i :: 0 <= i < |ms| && ms[i].id == id ==> r[i] == ms[i].(text := text)
    ensures forall i :: 0 <= i < |ms| && ms[i].id != id ==> r[i] == ms[i]
    ensures (forall i :: 0 <= i < |ms| ==> ms[i].id != id) ==> r == ms
  {
    if ms == [] then []
    else
      var head := if ms[0].id == id then ms[0].(text := text) else ms[0];
      var r := [head] + UpdateById(ms[1..], id, text);
      assert forall i :: 0 < i < |ms| ==> r[i] == UpdateById(ms[1..], id, text)[i - 1];
      r
  }

  /** Updating the same id twice leaves only the second text. */
  lemma {:induction false} UpdateTwice(ms: seq<Message>, id: nat, a: string, b: string)
    ensures UpdateById(UpdateById(ms, id, a), id, b) == UpdateById(ms, id, b)
  {
    var l, r := UpdateById(UpdateById(ms, id, a), id, b), UpdateById(ms, id, b);
    assert forall i :: 0 <= i < |ms| ==> l[i] == r[i];
  }

  /** Giving a message the text it already has changes nothing. */
  lemma {:induction false} UpdateWithSameText(ms: seq<Message>, id: nat, text: string)
    requires forall i :: 0 <= i < |ms| && ms[i].id == id ==> ms[i].text == text
    ensures UpdateById(ms, id, text) == ms
  {
    var r := UpdateById(ms, id, text);
    assert forall i :: 0 <= i < |ms| ==> r[i] == ms[i];
  }

  /** Appending three messages one at a time is appending them together. */
  lemma AppendThree(ms: seq<Message>, a: Message, b: Message, c: Message)
    ensures ms + [a] + [b] + [c] == ms + [a, b, c]
  {
  }

  /** The text one streamed chunk carries; a chunk without text carries "". */
  function ChunkText(c: Option<string>): string
  {
    if c.Some? then c.value else ""
  }

  /** The chat page acts on a chunk only when its text is present and non-empty. */
  predicate IsEmitted(c: Option<string>)
  {
    c.Some? && c.value != ""
  }

  /** The accumulated reply after the chunks `cs`, built as the streaming loop
      builds it: one `+=` per chunk, in order. */
  function Accumulate(cs: seq<Option<string>>): string
  {
    if cs == [] then "" else Accumulate(cs[..|cs| - 1]) + ChunkText(cs[|cs| - 1])
  }

  /** The texts of the emitted chunks, in the order they arrived. */
  function Emitted(cs: seq<Option<string>>): (r: seq<string>)
    ensures |r| <= |cs|
    ensures forall i :: 0 <= i < |r| ==> r[i] != ""
  {
    if cs == [] then []
    else if IsEmitted(cs[0]) then [cs[0].value] + Emitted(cs[1..])
    else Emitted(cs[1..])
  }

  function Concat(ss: seq<string>): string
  {
    if ss == [] then "" else ss[0] + Concat(ss[1..])
  }

  /** The accumulated reply is the in-order concatenation of the non-empty
      chunk texts: skipped chunks contribute nothing. */
  lemma {:induction false} AccumulateIsConcatOfEmitted(cs: seq<Option<string>>)
    ensures Accumulate(cs) == Concat(Emitted(cs))
  {
    if cs != [] {
      var init, last := cs[..|cs| - 1], cs[|cs| - 1];
      assert cs == init + [last];
      AccumulateIsConcatOfEmitted(init);
      EmittedAppend(init, last);
      if IsEmitted(last) {
        ConcatAppend(Emitted(init), [last.value]);
        assert Concat([last.value]) == last.value + Concat([]);
      } else {
        assert Accumulate(cs) == Accumulate(init) + "" == Accumulate(init);
        assert Emitted(cs) == Emitted(init) + [] == Emitted(init);
      }
    }
  }

  lemma {:induction false} EmittedAppend(cs: seq<Option<string>>, c: Option<string>)
    ensures Emitted(cs + [c]) == Emitted(cs) + (if IsEmitted(c) then [c.value] else [])
  {
    if cs == [] {
      assert [c][1..] == [];
    } else {
      assert (cs + [c])[1..] == cs[1..] + [c];
      EmittedAppend(cs[1..], c);
    }
  }

  lemma {:induction false} ConcatAppend(a: seq<string>, b: seq<string>)
    ensures Concat(a + b) == Concat(a) + Concat(b)
  {
    if a == [] {
      assert a + b == b;
    } else {
      assert (a + b)[1..] == a[1..] + b;
      ConcatAppend(a[1..], b);
    }
  }

  /** Every intermediate accumulated text is a prefix of the final one. */
  lemma {:induction false} AccumulatePrefix(cs: seq<Option<string>>, k: nat)
    requires k <= |cs|
    ensures Accumulate(cs[..k]) <= Accumulate(cs)
  {
    if k < |cs| {
      var init := cs[..|cs| - 1];
      assert cs[..k] == init[..k];
      AccumulatePrefix(init, k);
    } else {
      assert cs[..k] == cs;
    }
  }

  /** The transcript after the streaming loop has handled the chunks `cs` for
      the placeholder `id`: every emitted chunk re-sets that message's text to
      the reply accumulated so far, a skipped chunk causes no update. */
  function FoldChunks(ms: seq<Message>, id: nat, cs: seq<Option<string>>): (r: seq<Message>)
    ensures |r| == |ms|
    ensures forall i :: 0 <= i < |ms| ==> r[i].id == ms[i].id && r[i].role == ms[i].role
    ensures forall i :: 0 <= i < |ms| && ms[i].id != id ==> r[i] == ms[i]
  {
    if cs == [] then ms
    else
      var prev := FoldChunks(ms, id, cs[..|cs| - 1]);
      if IsEmitted(cs[|cs| - 1]) then UpdateById(prev, id, Accumulate(cs)) else prev
  }

  /** The whole fold equals one update with the accumulated text, as long as
      the placeholder starts out empty. */
  lemma {:induction false} FoldIsSingleUpdate(ms: seq<Message>, id: nat, cs: seq<Option<string>>)
    requires forall i :: 0 <= i < |ms| && ms[i].id == id ==> ms[i].text == ""
    ensures FoldChunks(ms, id, cs) == UpdateById(ms, id, Accumulate(cs))
  {
    if cs == [] {
      UpdateWithSameText(ms, id, "");
    } else {
      var init := cs[..|cs| - 1];
      var prev := FoldChunks(ms, id, init);
      FoldIsSingleUpdate(ms, id, init);
      assert prev == UpdateById(ms, id, Accumulate(init));
      if IsEmitted(cs[|cs| - 1]) {
        calc {
          FoldChunks(ms, id, cs);
          UpdateById(prev, id, Accumulate(cs));
          { UpdateTwice(ms, id, Accumulate(init), Accumulate(cs)); }
          UpdateById(ms, id, Accumulate(cs));
        }
      } else {
        assert Accumulate(cs) == Accumulate(init) + "" == Accumulate(init);
        assert FoldChunks(ms, id, cs) == prev;
      }
    }
  }

  /** Chunks aimed at an id that no message carries change nothing. */
  lemma {:induction false} FoldWithoutTarget(ms: seq<Message>, id: nat, cs: seq<Option<string>>)
    requires forall i :: 0 <= i < |ms| ==> ms[i].id != id
    ensures FoldChunks(ms, id, cs) == ms
  {
    if cs != [] {
      FoldWithoutTarget(ms, id, cs[..|cs| - 1]);
    }
  }

  /** One more chunk adds its text to the accumulated reply. */
  lemma AccumulateSnoc(cs: seq<Option<string>>, c: Option<string>)
    ensures Accumulate(cs + [c]) == Accumulate(cs) + ChunkText(c)
  {
    assert (cs + [c])[..|cs|] == cs;
  }

  /** The chunks "Hel", "lo", " world" show the texts "Hel", "Hello" and
      "Hello world" in that order; an empty or absent chunk in between
      changes nothing. */
  lemma ScenarioHelloWorld()
    ensures var c1 := [Some("Hel")];
      var c2 := c1 + [Some("")];
      var c3 := c2 + [Some("lo")];
      var c4 := c3 + [None];
      var c5 := c4 + [Some(" world")];
      && Accumulate(c1) == "Hel" && Accumulate(c2) == "Hel"
      && Accumulate(c3) == "Hello" && Accumulate(c4) == "Hello"
      && Accumulate(c5) == "Hello world"
  {
    var c2 := [Some("Hel")] + [Some("")];
    var c4 := c2 + [Some("lo")] + [None];
    HelloFirstChunks();
    HelloMiddleChunks(c2);
    HelloLastChunk(c4);
  }

  lemma HelloFirstChunks()
    ensures Accumulate([Some("Hel")]) == "Hel"
    ensures Accumulate([Some("Hel")] + [Some("")]) == "Hel"
  {
    var c0: seq<Option<string>> := [];
    AccumulateSnoc(c0, Some("Hel"));
    assert c0 + [Some("Hel")] == [Some("Hel")];
    AccumulateSnoc([Some("Hel")], Some(""));
  }

  lemma HelloMiddleChunks(c2: seq<Option<string>>)
    requires Accumulate(c2) == "Hel"
    ensures Accumulate(c2 + [Some("lo")]) == "Hello"
    ensures Accumulate(c2 + [Some("lo")] + [None]) == "Hello"
  {
    AccumulateSnoc(c2, Some("lo"));
    assert "Hel" + "lo" == "Hello";
    AccumulateSnoc(c2 + [Some("lo")], None);
  }

  lemma HelloLastChunk(c4: seq<Option<string>>)
    requires Accumulate(c4) == "Hello"
    ensures Accumulate(c4 + [Some(" world")]) == "Hello world"
  {
    AccumulateSnoc(c4, Some(" world"));
    assert "Hello" + " world" == "Hello world";
  }
}
