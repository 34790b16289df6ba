/** The two chunked log-probability loops: flatten the batch, cut rows and labels into pieces,
    score piece by piece and put the results back into the batch's shape. */
module Chunking {
  import opened Tensors

  function CeilDiv(n: nat, d: nat): nat
    requires d > 0
  {
    (n + d - 1) / d
  }

  /** The number of pieces asked for; a positive cap raises it so that no piece is too long. */
  function EffectiveChunks(rows: nat, chunks: int, maxRowsPerChunk: int): int {
    if maxRowsPerChunk > 0 then Min(Max(chunks, CeilDiv(rows, maxRowsPerChunk)), Max(rows, 1))
    else chunks
  }

  /** `torch.chunk`: pieces of ceil(n / chunks) rows, the last one possibly shorter. An empty input
      gives `chunks` empty pieces. */
  function Chunk<T>(s: seq<T>, chunks: nat): seq<seq<T>>
    requires chunks > 0
  {
    if s == [] then Fill(chunks, []) else Pieces(s, CeilDiv(|s|, chunks))
  }

  function Pieces<T>(s: seq<T>, size: nat): seq<seq<T>>
    requires size > 0
  {
    if |s| <= size then [s] else [s[..size]] + Pieces(s[size..], size)
  }

  function ScoreRows<H>(score: (H, int) -> real, hidden: seq<H>, labels: seq<int>): seq<real>
    requires |hidden| == |labels|
  {
    seq(|hidden|, i requires 0 <= i < |hidden| => score(hidden[i], labels[i]))
  }

  /** Cutting hidden states and labels with the same numbers gives pieces with the same borders. */
  lemma {:induction false} PiecesShareBorders<S, T>(a: seq<S>, b: seq<T>, size: nat)
    requires size > 0 && |a| == |b|
    ensures |Pieces(a, size)| == |Pieces(b, size)|
    ensures forall k :: 0 <= k < |Pieces(a, size)| ==> |Pieces(a, size)[k]| == |Pieces(b, size)[k]| <= size
    ensures forall k :: 0 <= k < |Pieces(a, size)| ==> Offset(Pieces(a, size), k) == Offset(Pieces(b, size), k)
    ensures Concat(Pieces(a, size)) == a
  {
    PiecesCover(a, size);
    if |a| > size {
      PiecesShareBorders(a[size..], b[size..], size);
      var p, q := Pieces(a[size..], size), Pieces(b[size..], size);
      assert Pieces(a, size) == [a[..size]] + p && Pieces(b, size) == [b[..size]] + q;
      forall k | 0 <= k < |p| + 1 ensures Offset(Pieces(a, size), k) == Offset(Pieces(b, size), k) {
        OffsetSame(Pieces(a, size), Pieces(b, size), k);
      }
    }
  }

  lemma {:induction false} PiecesCover<T>(s: seq<T>, size: nat)
    requires size > 0
    ensures Concat(Pieces(s, size)) == s
  {
    if |s| > size {
      PiecesCover(s[size..], size);
      assert s == s[..size] + s[size..];
    } else {
      assert Concat([s]) == s + Concat([]);
    }
  }

  lemma ChunksShareBorders<S, T>(a: seq<S>, b: seq<T>, chunks: nat)
    requires chunks > 0 && |a| == |b|
    ensures |Chunk(a, chunks)| == |Chunk(b, chunks)|
    ensures forall k :: 0 <= k < |Chunk(a, chunks)| ==> |Chunk(a, chunks)[k]| == |Chunk(b, chunks)[k]|
    ensures forall k :: 0 <= k < |Chunk(a, chunks)| ==> Offset(Chunk(a, chunks), k) == Offset(Chunk(b, chunks), k)
    ensures Concat(Chunk(a, chunks)) == a
  {
    if a == [] {
      forall k | 0 <= k < chunks ensures Offset(Chunk(a, chunks), k) == Offset(Chunk(b, chunks), k) {
        OffsetSame(Chunk(a, chunks), Chunk(b, chunks), k);
      }
      ConcatEmpties<S>(chunks);
    } else {
      PiecesShareBorders(a, b, CeilDiv(|a|, chunks));
    }
  }

  lemma {:induction false} ConcatEmpties<T>(n: nat)
    ensures Concat(Fill<seq<T>>(n, [])) == []
  {
    if n > 0 {
      assert Fill<seq<T>>(n, [])[1..] == Fill<seq<T>>(n - 1, []);
      ConcatEmpties<T>(n - 1);
    }
  }

  /** At most as many pieces as asked for. */
  lemma {:induction false} PieceCount<T>(s: seq<T>, size: nat, chunks: nat)
    requires size > 0 && |s| <= size * chunks && chunks > 0
    ensures |Pieces(s, size)| <= chunks
  {
    if |s| > size {
      assert size * chunks == size + size * (chunks - 1);
      assert chunks > 1;
      PieceCount(s[size..], size, chunks - 1);
    }
  }

  /** With a positive cap no piece is longer than the cap; without one the boundaries are those of
      the plain call. The result never has more pieces than asked for. */
  lemma CapBoundsEveryChunk<T>(s: seq<T>, chunks: int, maxRowsPerChunk: int, k: nat)
    requires EffectiveChunks(|s|, chunks, maxRowsPerChunk) > 0
    requires k < |Chunk(s, EffectiveChunks(|s|, chunks, maxRowsPerChunk))|
    ensures |Chunk(s, EffectiveChunks(|s|, chunks, maxRowsPerChunk))| <= EffectiveChunks(|s|, chunks, maxRowsPerChunk)
    ensures maxRowsPerChunk > 0 ==>
      |Chunk(s, EffectiveChunks(|s|, chunks, maxRowsPerChunk))[k]| <= maxRowsPerChunk
    ensures maxRowsPerChunk <= 0 ==>
      Chunk(s, EffectiveChunks(|s|, chunks, maxRowsPerChunk)) == Chunk(s, chunks)
  {
    var n, c := |s|, EffectiveChunks(|s|, chunks, maxRowsPerChunk);
    if n > 0 {
      CeilDivBounds(n, c);
      PiecesShareBorders(s, s, CeilDiv(n, c));
      PieceCount(s, CeilDiv(n, c), c);
      if maxRowsPerChunk > 0 {
        CapFits(n, chunks, maxRowsPerChunk);
      }
    }
  }

  lemma CapFits(n: nat, chunks: int, cap: nat)
    requires n > 0 && cap > 0
    ensures EffectiveChunks(n, chunks, cap) > 0
    ensures CeilDiv(n, EffectiveChunks(n, chunks, cap)) <= cap
  {
    var c := EffectiveChunks(n, chunks, cap);
    CeilDivBounds(n, cap);
    assert c >= CeilDiv(n, cap);
    MulAtLeast(CeilDiv(n, cap), c, cap);
    CeilDivLeast(n, c, cap);
  }

  /** A positive cap asks for the least number of pieces that is no smaller than chunks and keeps every piece
      within the cap, unless there are not that many rows; without a cap chunks stays. The loop can run
      exactly when chunks is positive or a cap meets a row. */
  lemma EffectiveChunksIsLeast(rows: nat, chunks: int, cap: int)
    ensures
      var e := EffectiveChunks(rows, chunks, cap);
      && (cap <= 0 ==> e == chunks)
      && (e > 0 <==> chunks > 0 || (cap > 0 && rows > 0))
      && (cap > 0 && rows == 0 ==> e == if chunks > 0 then 1 else 0)
      && (cap > 0 && 0 < rows < chunks ==> e == rows)
      && (cap > 0 && rows > 0 && chunks <= rows ==>
           chunks <= e <= rows && e * cap >= rows && (e > chunks ==> (e - 1) * cap < rows))
  {
    if cap > 0 && rows > 0 { CeilDivExact(rows, cap); }
    if cap > 0 && 0 < rows && CeilDiv(rows, cap) <= chunks <= rows { MulAtLeast(CeilDiv(rows, cap), chunks, cap); }
  }

  lemma CeilDivExact(n: nat, d: nat)
    requires n > 0 && d > 0
    ensures 0 < CeilDiv(n, d) <= n && (CeilDiv(n, d) - 1) * d < n <= CeilDiv(n, d) * d
  {
    CeilDivBounds(n, d);
    var q := CeilDiv(n, d);
    assert n + d - 1 == q * d + (n + d - 1) % d;
    assert (q - 1) * d == q * d - d;
  }

  lemma MulAtLeast(a: nat, b: nat, d: nat)
    requires a <= b
    ensures a * d <= b * d
  {
  }

  lemma MulLess(a: nat, b: nat, d: nat)
    requires a * d < b * d
    ensures a < b
  {
    if b <= a { MulAtLeast(b, a, d); }
  }

  lemma CeilDivLeast(n: nat, d: nat, size: nat)
    requires d > 0 && n <= d * size
    ensures CeilDiv(n, d) <= size
  {
    var q := CeilDiv(n, d);
    assert n + d - 1 == q * d + (n + d - 1) % d;
    assert (size + 1) * d == d * size + d;
    MulLess(q, size + 1, d);
  }

  lemma CeilDivBounds(n: nat, d: nat)
    requires d > 0
    ensures n <= CeilDiv(n, d) * d
    ensures 0 < n ==> 0 < CeilDiv(n, d) <= n
  {
    var q := CeilDiv(n, d);
    assert n + d - 1 == q * d + (n + d - 1) % d;
    if 0 < n {
      MulLess(0, q, d);
      MulAtLeast(1, d, n);
      CeilDivLeast(n, d, n);
    }
  }

  lemma ScoreRowsAppend<H>(score: (H, int) -> real, hidden: seq<H>, labels: seq<int>, o: nat, n: nat)
    requires |hidden| == |labels| && o + n <= |hidden|
    ensures ScoreRows(score, hidden[..o + n], labels[..o + n])
            == ScoreRows(score, hidden[..o], labels[..o]) + ScoreRows(score, hidden[o..o + n], labels[o..o + n])
  {
  }

  lemma NextPiece<T>(s: seq<T>, pieces: seq<seq<T>>, k: nat, o: nat, n: nat)
    requires Concat(pieces) == s && k < |pieces| && o == Offset(pieces, k) && n == |pieces[k]|
    ensures o + n <= |s| && Offset(pieces, k + 1) == o + n && s[o..o + n] == pieces[k]
  {
    ConcatSlice(pieces, k);
  }

  /** The loop over the zipped pieces. It fails only when asked for no pieces at all. */
  method ChunkedScores<H>(score: (H, int) -> real, hidden: seq<H>, labels: seq<int>, chunks: int, maxRowsPerChunk: int)
    returns (r: Result<seq<real>>)
    requires |hidden| == |labels|
    ensures r.Failure? <==> EffectiveChunks(|hidden|, chunks, maxRowsPerChunk) <= 0
    ensures r.Success? ==> r.value == ScoreRows(score, hidden, labels)
  {
    var effective := chunks;
    if maxRowsPerChunk > 0 {
      effective := Max(effective, CeilDiv(|hidden|, maxRowsPerChunk));
      effective := Min(effective, Max(|hidden|, 1));
    }
    if effective <= 0 {
      return Failure(RuntimeError);
    }
    var chunkedHidden, chunkedLabels := Chunk(hidden, effective), Chunk(labels, effective);
    ChunksShareBorders(hidden, labels, effective);
    ChunksShareBorders(labels, hidden, effective);
    var all := [];
    for k := 0 to |chunkedHidden|
      invariant |all| == Offset(chunkedHidden, k) <= |hidden|
      invariant all == ScoreRows(score, hidden[..|all|], labels[..|all|])
    {
      NextPiece(hidden, chunkedHidden, k, |all|, |chunkedHidden[k]|);
      NextPiece(labels, chunkedLabels, k, |all|, |chunkedHidden[k]|);
      ScoreRowsAppend(score, hidden, labels, |all|, |chunkedHidden[k]|);
      all := all + ScoreRows(score, chunkedHidden[k], chunkedLabels[k]);
    }
    OffsetEnd(chunkedHidden);
    assert hidden[..|all|] == hidden && labels[..|all|] == labels;
    return Success(all);
  }

  /** Back to the batch's shape: the entry at [b, t] is the score of that very position. */
  method ChunkedSelectiveLogSoftmax<H>(score: (H, int) -> real, hidden: seq<seq<H>>, labels: seq<seq<int>>, width: nat,
                                       chunks: int, maxRowsPerChunk: int)
    returns (r: Result<seq<seq<real>>>)
    requires |hidden| == |labels| && Rect(hidden, width) && Rect(labels, width)
    ensures r.Success? <==> EffectiveChunks(|hidden| * width, chunks, maxRowsPerChunk) > 0
    ensures r.Success? ==> |r.value| == |hidden| && Rect(r.value, width)
    ensures r.Success? ==> forall b, t :: 0 <= b < |hidden| && 0 <= t < width ==>
      r.value[b][t] == score(hidden[b][t], labels[b][t])
  {
    ConcatRect(hidden, width);
    ConcatRect(labels, width);
    var flat := ChunkedScores(score, Concat(hidden), Concat(labels), chunks, maxRowsPerChunk);
    if flat.Failure? {
      return Failure(flat.error);
    }
    var out := [];
    for b := 0 to |hidden|
      invariant |out| == b && Rect(out, width)
      invariant forall i, t :: 0 <= i < b && 0 <= t < width ==> out[i][t] == score(hidden[i][t], labels[i][t])
    {
      RowOfFlat(hidden, width, b);
      RowOfFlat(labels, width, b);
      out := out + [flat.value[b * width..(b + 1) * width]];
    }
    return Success(out);
  }

  lemma {:induction false} ConcatRect<T>(rows: seq<seq<T>>, width: nat)
    requires Rect(rows, width)
    ensures |Concat(rows)| == |rows| * width
  {
    if rows != [] {
      ConcatRect(rows[1..], width);
      assert |rows| * width == width + (|rows| - 1) * width;
    }
  }

  lemma RowOfFlat<T>(rows: seq<seq<T>>, width: nat, b: nat)
    requires Rect(rows, width) && b < |rows|
    ensures (b + 1) * width == b * width + width <= |Concat(rows)|
    ensures forall t :: 0 <= t < width ==> Concat(rows)[b * width + t] == rows[b][t]
  {
    OffsetRect(rows, width, b);
    ConcatSlice(rows, b);
    var o := b * width;
    forall t | 0 <= t < width ensures Concat(rows)[o + t] == rows[b][t] {
      assert Concat(rows)[o..o + width][t] == Concat(rows)[o + t];
    }
  }

  lemma {:induction false} OffsetRect<T>(rows: seq<seq<T>>, width: nat, b: nat)
    requires Rect(rows, width) && b <= |rows|
    ensures Offset(rows, b) == b * width
  {
    if b > 0 {
      OffsetRect(rows[1..], width, b - 1);
      assert b * width == width + (b - 1) * width;
    }
  }
}
