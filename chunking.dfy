/**
 * The 500-character pieces into which uploaded documents and scraped pages
 * are cut for the retrieval store: piece k is the slice starting at 500·k,
 * and there are just enough pieces to cover the text.
 */
module Chunking {
  import opened Seqs

  const ChunkSize: nat := 500

  function Min(a: int, b: int): int
  {
    if a < b then a else b
  }

  /** `text.slice(ChunkSize * k, ChunkSize * (k + 1))`. */
  function PieceAt(text: string, k: nat): string
    requires ChunkSize * k < |text|
  {
    text[ChunkSize * k..Min(ChunkSize * k + ChunkSize, |text|)]
  }

  /** `pieces` is the cutting of `text`. */
  predicate Sliced(text: string, pieces: seq<string>)
  {
    && |pieces| == CeilDiv(|text|, ChunkSize)
    && forall k :: 0 <= k < |pieces| ==> ChunkSize * k < |text| && pieces[k] == PieceAt(text, k)
  }

  /** The pieces put back together are the text. */
  lemma SlicedConcat(text: string, pieces: seq<string>)
    requires Sliced(text, pieces)
    ensures Flatten(pieces) == text
  {
    SlicedPrefix(text, pieces, |pieces|);
    assert pieces[..|pieces|] == pieces;
    assert ChunkSize * |pieces| >= |text|;
  }

  lemma {:induction false} SlicedPrefix(text: string, pieces: seq<string>, m: nat)
    requires Sliced(text, pieces) && m <= |pieces|
    ensures Flatten(pieces[..m]) == text[..Min(ChunkSize * m, |text|)]
  {
    if m > 0 {
      SlicedPrefix(text, pieces, m - 1);
      assert pieces[..m][..m - 1] == pieces[..m - 1];
      var start := ChunkSize * (m - 1);
      assert start < |text|;
      assert text[..Min(start + ChunkSize, |text|)] == text[..start] + PieceAt(text, m - 1);
    }
  }

  /** Every piece but the last has the full size; none is empty; the empty text has none. */
  lemma SlicedShape(text: string, pieces: seq<string>)
    requires Sliced(text, pieces)
    ensures forall k :: 0 <= k < |pieces| ==> 0 < |pieces[k]| <= ChunkSize
    ensures forall k :: 0 <= k < |pieces| - 1 ==> |pieces[k]| == ChunkSize
    ensures text == [] <==> pieces == []
  {
    forall k | 0 <= k < |pieces| - 1
      ensures |pieces[k]| == ChunkSize
    {
      assert ChunkSize * (k + 1) < |text|;
    }
  }
}
