/** The response stream as the client sees it: a finite sequence of chunks,
    each exposing an optional `text` field, read in arrival order. */
module Stream {
  import opened Types

  /** The `text` of one response chunk; None when the chunk carries none. */
  type Chunk = Option<string>

  /** The text a chunk contributes; an absent text contributes nothing. */
  function ChunkText(c: Chunk): string {
    match c
    case None => ""
    case Some(t) => t
  }

  /** The client's `if (text)`: a chunk is used only when its text is
      present and non-empty. */
  predicate Carries(c: Chunk) {
    ChunkText(c) != ""
  }

  /** The accumulator `fullContent` after the loop has read `cs`: each
      chunk's text appended, in arrival order, starting from "". */
  function Accumulated(cs: seq<Chunk>): string {
    if cs == [] then ""
    else
      var last := cs[|cs| - 1];
      Accumulated(cs[..|cs| - 1]) + (if Carries(last) then ChunkText(last) else "")
  }

  /** The texts of the chunks that carry one, in arrival order. */
  function NonEmptyTexts(cs: seq<Chunk>): (r: seq<string>)
    ensures |r| <= |cs|
    ensures forall k :: 0 <= k < |r| ==> r[k] != ""
  {
    if cs == [] then []
    else (if Carries(cs[0]) then [ChunkText(cs[0])] else []) + NonEmptyTexts(cs[1..])
  }

  /** The concatenation of a list of strings, first to last. */
  function Concat(ss: seq<string>): string {
    if ss == [] then "" else ss[0] + Concat(ss[1..])
  }

  lemma {:induction false} ConcatAppend(a: seq<string>, b: seq<string>)
    ensures Concat(a + b) == Concat(a) + Concat(b)
  {
    if a == [] {
      assert a + b == b;
    } else {
      assert (a + b)[1..] == a[1..] + b;
      ConcatAppend(a[1..], b);
    }
  }

  lemma {:induction false} NonEmptyTextsAppend(a: seq<Chunk>, b: seq<Chunk>)
    ensures NonEmptyTexts(a + b) == NonEmptyTexts(a) + NonEmptyTexts(b)
  {
    if a == [] {
      assert a + b == b;
    } else {
      assert (a + b)[0] == a[0];
      assert (a + b)[1..] == a[1..] + b;
      NonEmptyTextsAppend(a[1..], b);
    }
  }

  /** The accumulated content is exactly the in-order concatenation of the
      non-empty chunk texts: nothing is reordered, dropped or repeated. */
  lemma {:induction false} AccumulatedIsConcat(cs: seq<Chunk>)
    ensures Accumulated(cs) == Concat(NonEmptyTexts(cs))
  {
    if cs != [] {
      var init, last := cs[..|cs| - 1], cs[|cs| - 1];
      AccumulatedIsConcat(init);
      assert cs == init + [last];
      NonEmptyTextsAppend(init, [last]);
      ConcatAppend(NonEmptyTexts(init), NonEmptyTexts([last]));
      assert NonEmptyTexts([last]) == (if Carries(last) then [ChunkText(last)] else []) + NonEmptyTexts([]);
      assert Carries(last) ==> Concat([ChunkText(last)]) == ChunkText(last) + Concat([]);
    }
  }

  /** Reading one more chunk extends the accumulator at its end: by that
      chunk's text when it carries one, and not at all otherwise. */
  lemma AccumulatedStep(cs: seq<Chunk>, i: nat)
    requires i < |cs|
    ensures Accumulated(cs[..i + 1])
         == Accumulated(cs[..i]) + (if Carries(cs[i]) then ChunkText(cs[i]) else "")
  {
    assert cs[..i + 1][..i] == cs[..i];
  }

  /** The accumulator only grows by appending: what it held after `i`
      chunks is a prefix of what it holds after `j >= i` chunks. */
  lemma {:induction false} AccumulatedGrows(cs: seq<Chunk>, i: nat, j: nat)
    requires i <= j <= |cs|
    ensures Accumulated(cs[..i]) <= Accumulated(cs[..j])
  {
    if i < j {
      AccumulatedGrows(cs, i, j - 1);
      AccumulatedStep(cs, j - 1);
    }
  }

  /** An answer delivered as "Hel", a chunk without text, "lo" and an
      empty chunk accumulates to "Hello". */
  lemma HelloAnswer()
    ensures Accumulated([Some("Hel"), None, Some("lo"), Some("")]) == "Hello"
  {
    var cs: seq<Chunk> := [Some("Hel"), None, Some("lo"), Some("")];
    assert Accumulated(cs[..0]) == "" by { assert cs[..0] == []; }
    AccumulatedStep(cs, 0);
    AccumulatedStep(cs, 1);
    AccumulatedStep(cs, 2);
    AccumulatedStep(cs, 3);
    assert cs[..4] == cs;
    assert "" + "Hel" + "" + "lo" + "" == "Hello";
  }
}
