/**
 * Wrapping the text splitter's output into `Chunk` records (utils/chunk_util.py).
 * The splitter itself is a library and stays abstract: its output pieces are an input.
 */
module ChunkUtil {
  import opened ChunkModel

  /** `tag` is `s` with its whole run of leading dots removed. */
  ghost predicate StrippedOfDots(s: string, tag: string) {
    && |tag| <= |s|
    && tag == s[|s| - |tag|..]
    && (forall i :: 0 <= i < |s| - |tag| ==> s[i] == '.')
    && (tag == [] || tag[0] != '.')
  }

  /** Python's `suffix.lstrip(".")`. */
  function LStripDots(s: string): (r: string)
    ensures StrippedOfDots(s, r)
    decreases |s|
  {
    if |s| > 0 && s[0] == '.' then
      var r := LStripDots(s[1..]);
      assert s[1..][|s| - 1 - |r|..] == s[|s| - |r|..];
      assert forall i :: 1 <= i < |s| - |r| ==> s[i] == s[1..][i - 1];
      r
    else s
  }

  /** Stripping leading dots has exactly one possible result, so `StrippedOfDots` specifies `LStripDots`. */
  lemma {:induction false} StrippedOfDotsUnique(s: string, tag: string)
    requires StrippedOfDots(s, tag)
    ensures tag == LStripDots(s)
    decreases |s|
  {
    if |s| > 0 && s[0] == '.' {
      assert s[1..][|s| - 1 - |tag|..] == s[|s| - |tag|..];
      StrippedOfDotsUnique(s[1..], tag);
    }
  }

  /** ".pdf", "..pdf" and "pdf" all give the tag "pdf"; stripping twice changes nothing. */
  lemma LStripDotsExamples(s: string)
    ensures LStripDots(".pdf") == "pdf"
    ensures LStripDots("..pdf") == "pdf"
    ensures LStripDots("pdf") == "pdf"
    ensures LStripDots(LStripDots(s)) == LStripDots(s)
  {
    assert ".pdf"[1..] == "pdf";
    assert "..pdf"[1..] == ".pdf";
  }

  /**
   * The id supply standing for `uuid4().hex`: the k-th chunk made by one call
   * gets `ids(k)`. A supply is distinct when no id is drawn twice.
   */
  ghost predicate DistinctSupply(ids: nat -> string) {
    forall i: nat, j: nat :: i != j ==> ids(i) != ids(j)
  }

  /** The chunks for `pieces`, numbered from `start` on. */
  function WrapFrom(pieces: seq<Document>, start: nat, source: string, tag: string, ids: nat -> string): (r: seq<Chunk>)
    ensures |r| == |pieces|
    ensures forall i :: 0 <= i < |r| ==>
              r[i] == Chunk(ids(start + i), pieces[i].pageContent, source, tag, start + i, pieces[i].metadata)
    decreases |pieces|
  {
    if |pieces| == 0 then []
    else [Chunk(ids(start), pieces[0].pageContent, source, tag, start, pieces[0].metadata)]
         + WrapFrom(pieces[1..], start + 1, source, tag, ids)
  }

  /**
   * `split_document` after the library split: one chunk per piece, in the
   * splitter's order, numbered 0..N-1 over the whole output.
   */
  function SplitDocument(pieces: seq<Document>, source: string, suffix: string, ids: nat -> string): (r: seq<Chunk>)
    ensures |r| == |pieces|
    ensures pieces == [] ==> r == []
    ensures forall i :: 0 <= i < |r| ==> r[i].index == i
    ensures forall i :: 0 <= i < |r| ==> r[i].source == source
    ensures forall i :: 0 <= i < |r| ==> StrippedOfDots(suffix, r[i].fileType)
    ensures forall i :: 0 <= i < |r| ==> r[i].text == pieces[i].pageContent && r[i].metadata == pieces[i].metadata
    ensures forall i :: 0 <= i < |r| ==> r[i].chunkId == ids(i)
    ensures DistinctSupply(ids) ==> forall i, j :: 0 <= i < j < |r| ==> r[i].chunkId != r[j].chunkId
  {
    WrapFrom(pieces, 0, source, LStripDots(suffix), ids)
  }

  /**
   * Splitting a concatenation numbers the second part after the first:
   * indices are not reset per input document.
   */
  lemma {:induction false} WrapFromAppend(a: seq<Document>, b: seq<Document>, start: nat, source: string, tag: string, ids: nat -> string)
    ensures WrapFrom(a + b, start, source, tag, ids)
            == WrapFrom(a, start, source, tag, ids) + WrapFrom(b, start + |a|, source, tag, ids)
  {
    var l := WrapFrom(a + b, start, source, tag, ids);
    var r := WrapFrom(a, start, source, tag, ids) + WrapFrom(b, start + |a|, source, tag, ids);
    assert |l| == |r|;
    forall i | 0 <= i < |l|
      ensures l[i] == r[i]
    {
      if i < |a| {
        assert (a + b)[i] == a[i];
      } else {
        assert (a + b)[i] == b[i - |a|];
        assert start + i == start + |a| + (i - |a|);
      }
    }
  }
}
