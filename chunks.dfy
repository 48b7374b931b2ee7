/** Diagnostic chunks: the per-chunk results a diagnosis produces, their
    grouping into runs of adjacent chunk indices, the column-wise
    concatenation of a run into one result, and the choice of which chunks to
    diagnose around the most anomalous one.
 */
module Chunks {
  import opened Wrappers

  /** A numeric array as the engine hands it over. Vectors and matrices are
      kept apart because the code distinguishes rank 1 from rank 2; any other
      rank is carried with its shape and its elements in row-major order. */
  datatype NdArray =
    | Vector(items: seq<real>)
    | Matrix(rows: seq<seq<real>>, width: nat)
    | Other(dims: seq<nat>, flat: seq<real>)

  /** Every row of a matrix has its declared width; `Other` is neither rank 1 nor 2. */
  predicate WellFormed(a: NdArray)
  {
    match a
    case Vector(_) => true
    case Matrix(rows, w) => forall i :: 0 <= i < |rows| ==> |rows[i]| == w
    case Other(dims, _) => |dims| != 1 && |dims| != 2
  }

  function Shape(a: NdArray): seq<nat>
  {
    match a
    case Vector(v) => [|v|]
    case Matrix(rows, w) => [|rows|, w]
    case Other(dims, _) => dims
  }

  /** `_ensure_dimension`: a rank-1 array of n elements becomes a 1 x n
      matrix holding the same elements; every other array is returned as is. */
  function EnsureDimension(a: NdArray): (r: NdArray)
    ensures a.Vector? ==> r.Matrix? && Shape(r) == [1] + Shape(a) && r.rows == [a.items]
    ensures !a.Vector? ==> r == a
    ensures WellFormed(a) ==> WellFormed(r) && |Shape(r)| != 1
  {
    if a.Vector? then Matrix([a.items], |a.items|) else a
  }

  /** One chunk's diagnosis: its index, its offset from the start of the
      flight (microseconds), the reconstruction and the input. */
  datatype DiagnosticChunk = DiagnosticChunk(chunkIndex: int, chunkTimedelta: int, synthetic: NdArray, original: NdArray)

  // ---------------------------------------------------------------------
  // Sorting by chunk index

  predicate SortedByIndex(s: seq<DiagnosticChunk>)
  {
    forall i, j :: 0 <= i < j < |s| ==> s[i].chunkIndex <= s[j].chunkIndex
  }

  /** Inserts `c` after every element whose index is not greater than its own. */
  function InsertByIndex(s: seq<DiagnosticChunk>, c: DiagnosticChunk): (r: seq<DiagnosticChunk>)
    ensures multiset(r) == multiset(s) + multiset{c}
    ensures |r| == |s| + 1
  {
    if s == [] then [c]
    else if s[0].chunkIndex > c.chunkIndex then [c] + s
    else
      assert s == [s[0]] + s[1..];
      [s[0]] + InsertByIndex(s[1..], c)
  }

  lemma {:induction false} InsertKeepsSorted(s: seq<DiagnosticChunk>, c: DiagnosticChunk)
    requires SortedByIndex(s)
    ensures SortedByIndex(InsertByIndex(s, c))
  {
    if s != [] && s[0].chunkIndex <= c.chunkIndex {
      InsertKeepsSorted(s[1..], c);
      var r := InsertByIndex(s, c);
      var t := InsertByIndex(s[1..], c);
      assert r == [s[0]] + t;
      forall k | 0 <= k < |t| ensures s[0].chunkIndex <= t[k].chunkIndex {
        assert t[k] in multiset(t);
        assert t[k] in multiset(s[1..]) + multiset{c};
        if t[k] != c {
          assert t[k] in s[1..];
        }
      }
    }
  }

  /** `sorted(results, key=chunk_index)`: a stable insertion sort. */
  function SortByIndex(s: seq<DiagnosticChunk>): (r: seq<DiagnosticChunk>)
    ensures multiset(r) == multiset(s)
    ensures |r| == |s|
  {
    if s == [] then []
    else
      assert s == s[..|s| - 1] + [s[|s| - 1]];
      InsertByIndex(SortByIndex(s[..|s| - 1]), s[|s| - 1])
  }

  /** The members of `s` with chunk index `k`, in their order in `s`. */
  function WithIndex(s: seq<DiagnosticChunk>, k: int): seq<DiagnosticChunk>
  {
    if s == [] then [] else (if s[0].chunkIndex == k then [s[0]] else []) + WithIndex(s[1..], k)
  }

  lemma {:induction false} WithIndexAppend(s: seq<DiagnosticChunk>, t: seq<DiagnosticChunk>, k: int)
    ensures WithIndex(s + t, k) == WithIndex(s, k) + WithIndex(t, k)
  {
    if s == [] {
      assert s + t == t;
    } else {
      assert (s + t)[1..] == s[1..] + t;
      WithIndexAppend(s[1..], t, k);
    }
  }

  /** A sorted list whose first index is above `k` has no member with index `k`. */
  lemma {:induction false} NoneWithIndex(s: seq<DiagnosticChunk>, k: int)
    requires SortedByIndex(s) && s != [] && s[0].chunkIndex > k
    ensures WithIndex(s, k) == []
  {
    if |s| > 1 {
      NoneWithIndex(s[1..], k);
    } else {
      assert s[1..] == [];
    }
  }

  /** Inserting into a sorted list puts `c` after every member with the
      same index. */
  lemma {:induction false} InsertIsStable(s: seq<DiagnosticChunk>, c: DiagnosticChunk, k: int)
    requires SortedByIndex(s)
    ensures WithIndex(InsertByIndex(s, c), k) == WithIndex(s, k) + WithIndex([c], k)
  {
    if s == [] {
    } else if s[0].chunkIndex > c.chunkIndex {
      WithIndexAppend([c], s, k);
      if c.chunkIndex == k {
        NoneWithIndex(s, k);
      }
    } else {
      InsertIsStable(s[1..], c, k);
      WithIndexAppend([s[0]], InsertByIndex(s[1..], c), k);
      WithIndexAppend([s[0]], s[1..], k);
      assert [s[0]] + s[1..] == s;
    }
  }

  /** The sort is stable: the chunks sharing an index keep their input order. */
  lemma {:induction false} SortIsStable(s: seq<DiagnosticChunk>, k: int)
    ensures WithIndex(SortByIndex(s), k) == WithIndex(s, k)
  {
    if s != [] {
      var init := s[..|s| - 1];
      SortIsStable(init, k);
      SortByIndexCorrect(init);
      InsertIsStable(SortByIndex(init), s[|s| - 1], k);
      WithIndexAppend(init, [s[|s| - 1]], k);
      assert s == init + [s[|s| - 1]];
    }
  }

  /** The sort yields the input's elements, each as often as in the input, in
      non-decreasing chunk index order. */
  lemma {:induction false} SortByIndexCorrect(s: seq<DiagnosticChunk>)
    ensures SortedByIndex(SortByIndex(s))
    ensures multiset(SortByIndex(s)) == multiset(s)
  {
    if s != [] {
      SortByIndexCorrect(s[..|s| - 1]);
      InsertKeepsSorted(SortByIndex(s[..|s| - 1]), s[|s| - 1]);
    }
  }

  // ---------------------------------------------------------------------
  // Runs of adjacent chunks

  /** A chunk with index `next` may follow the chunk with index `prev` in a
      run: the next index, or anything at all after index 0, because a
      latest index of 0 is falsy and reads as "nothing added yet". */
  predicate Follows(prev: int, next: int)
  {
    prev == 0 || next == prev + 1
  }

  /** One step of `group_adjacent_chunks`: the chunk joins the current
      (last) run when that run is empty or the chunk may follow its last
      member; otherwise it opens a new run. */
  function Push(g: seq<seq<DiagnosticChunk>>, c: DiagnosticChunk): (r: seq<seq<DiagnosticChunk>>)
    requires |g| >= 1
    ensures |r| >= 1
  {
    var last := g[|g| - 1];
    if last == [] || Follows(last[|last| - 1].chunkIndex, c.chunkIndex) then g[..|g| - 1] + [last + [c]]
    else g + [[c]]
  }

  /** The runs `group_adjacent_chunks` builds from an already sorted list,
      one element at a time, starting from a single empty run. */
  function Groups(s: seq<DiagnosticChunk>): (r: seq<seq<DiagnosticChunk>>)
    ensures |r| >= 1
    decreases |s|
  {
    if s == [] then [[]] else Push(Groups(s[..|s| - 1]), s[|s| - 1])
  }

  lemma GroupsStep(s: seq<DiagnosticChunk>, i: nat)
    requires i < |s|
    ensures Groups(s[..i + 1]) == Push(Groups(s[..i]), s[i])
  {
    assert s[..i + 1][..i] == s[..i];
  }

  function Flatten(gs: seq<seq<DiagnosticChunk>>): seq<DiagnosticChunk>
  {
    if gs == [] then [] else Flatten(gs[..|gs| - 1]) + gs[|gs| - 1]
  }

  /** No input gives no runs: there is exactly one, empty, run. */
  lemma GroupsOfNothing()
    ensures Groups([]) == [[]]
  {
  }

  lemma {:induction false} FlattenSnoc(gs: seq<seq<DiagnosticChunk>>, x: seq<DiagnosticChunk>)
    ensures Flatten(gs + [x]) == Flatten(gs) + x
  {
    assert (gs + [x])[..|gs|] == gs;
  }

  lemma {:induction false} PushFlatten(g: seq<seq<DiagnosticChunk>>, c: DiagnosticChunk)
    requires |g| >= 1
    ensures Flatten(Push(g, c)) == Flatten(g) + [c]
  {
    var init := g[..|g| - 1];
    var last := g[|g| - 1];
    assert g == init + [last];
    FlattenSnoc(init, last);
    var h := Push(g, c);
    if last == [] || Follows(last[|last| - 1].chunkIndex, c.chunkIndex) {
      assert h == init + [last + [c]];
      FlattenSnoc(init, last + [c]);
      assert Flatten(h) == Flatten(init) + (last + [c]);
    } else {
      assert h == g + [[c]];
      FlattenSnoc(g, [c]);
    }
  }

  /** Appending the runs back together gives the input: every element in
      exactly one run, in the input's order. */
  lemma {:induction false} GroupsPartition(s: seq<DiagnosticChunk>)
    ensures Flatten(Groups(s)) == s
    decreases |s|
  {
    if s != [] {
      var p := s[..|s| - 1];
      GroupsPartition(p);
      PushFlatten(Groups(p), s[|s| - 1]);
      assert s == p + [s[|s| - 1]];
    }
  }

  /** Within a run each member may follow the one before it. */
  predicate RunsAdjacent(gs: seq<seq<DiagnosticChunk>>)
  {
    forall k, i :: 0 <= k < |gs| && 0 < i < |gs[k]| ==> Follows(gs[k][i - 1].chunkIndex, gs[k][i].chunkIndex)
  }

  /** Two consecutive runs: both non-empty, and the first element of the
      second may not follow the last member of the first. */
  predicate Closed(a: seq<DiagnosticChunk>, b: seq<DiagnosticChunk>)
  {
    a != [] && b != [] && !Follows(a[|a| - 1].chunkIndex, b[0].chunkIndex)
  }

  /** A run is closed exactly when the next element may not follow its last member. */
  predicate RunsMaximal(gs: seq<seq<DiagnosticChunk>>)
  {
    forall k :: 0 <= k < |gs| - 1 ==> Closed(gs[k], gs[k + 1])
  }

  lemma PushAdjacent(g: seq<seq<DiagnosticChunk>>, c: DiagnosticChunk)
    requires |g| >= 1 && RunsAdjacent(g)
    ensures RunsAdjacent(Push(g, c))
  {
    var last := g[|g| - 1];
    var h: seq<seq<DiagnosticChunk>> := Push(g, c);
    if last == [] || Follows(last[|last| - 1].chunkIndex, c.chunkIndex) {
      forall k, i | 0 <= k < |h| && 0 < i < |h[k]|
        ensures Follows(h[k][i - 1].chunkIndex, h[k][i].chunkIndex)
      {
        if k < |g| - 1 {
          assert h[k] == g[k];
        } else if i < |last| {
          assert h[k][i - 1] == g[k][i - 1] && h[k][i] == g[k][i];
        }
      }
    } else {
      assert forall k :: 0 <= k < |g| ==> h[k] == g[k];
    }
  }

  lemma PushMaximal(g: seq<seq<DiagnosticChunk>>, c: DiagnosticChunk)
    requires |g| >= 1 && RunsMaximal(g)
    ensures RunsMaximal(Push(g, c))
  {
    var last := g[|g| - 1];
    var h: seq<seq<DiagnosticChunk>> := Push(g, c);
    if last == [] || Follows(last[|last| - 1].chunkIndex, c.chunkIndex) {
      forall k | 0 <= k < |h| - 1 ensures Closed(h[k], h[k + 1]) {
        assert h[k] == g[k];
        if k + 1 < |g| - 1 {
          assert h[k + 1] == g[k + 1];
        } else {
          assert h[k + 1][0] == g[k + 1][0];
        }
      }
    } else {
      forall k | 0 <= k < |h| - 1 ensures Closed(h[k], h[k + 1]) {
        if k < |g| - 1 {
          assert h[k] == g[k] && h[k + 1] == g[k + 1];
        } else {
          assert h[k] == last;
          if |g| > 1 { assert Closed(g[|g| - 2], g[|g| - 1]); }
        }
      }
    }
  }

  /** Every run's members are adjacent, and a new run is opened exactly when
      the next element may not follow the current run's last member. */
  lemma {:induction false} GroupsShape(s: seq<DiagnosticChunk>)
    ensures RunsAdjacent(Groups(s)) && RunsMaximal(Groups(s))
    decreases |s|
  {
    if s != [] {
      var p := s[..|s| - 1];
      GroupsShape(p);
      PushAdjacent(Groups(p), s[|s| - 1]);
      PushMaximal(Groups(p), s[|s| - 1]);
    }
  }

  /** For input that is not empty, no run is empty. */
  lemma {:induction false} GroupsNonEmpty(s: seq<DiagnosticChunk>)
    requires s != []
    ensures forall k :: 0 <= k < |Groups(s)| ==> Groups(s)[k] != []
  {
    var g := Groups(s);
    if |g| == 1 {
      GroupsPartition(s);
      assert g[..0] == [];
      assert Flatten(g) == Flatten(g[..0]) + g[0];
    } else {
      GroupsShape(s);
      assert RunsMaximal(g);
      forall k | 0 <= k < |g| ensures g[k] != [] {
        if k < |g| - 1 { assert Closed(g[k], g[k + 1]); } else { assert Closed(g[k - 1], g[k]); }
      }
    }
  }

  // ---------------------------------------------------------------------
  // The run object

  /** Index of the last element of a list, None for an empty list. */
  function LastIndex(s: seq<DiagnosticChunk>): Option<int>
  {
    if s == [] then None else Some(s[|s| - 1].chunkIndex)
  }

  /** `a` is a well-formed matrix of the same size as `b`. */
  predicate SameSize(a: NdArray, b: NdArray)
  {
    a.Matrix? && b.Matrix? && WellFormed(a) && |a.rows| == |b.rows| && a.width == b.width
  }

  /** Each member of a run holds original and synthetic matrices of the first
      member's sizes. */
  predicate Uniform(s: seq<DiagnosticChunk>)
  {
    forall m :: 0 <= m < |s| ==> SameSize(s[m].original, s[0].original) && SameSize(s[m].synthetic, s[0].synthetic)
  }

  /** Row `i` of every block, one after the other. */
  function RowConcat(blocks: seq<seq<seq<real>>>, i: nat): seq<real>
    requires forall m :: 0 <= m < |blocks| ==> i < |blocks[m]|
  {
    if blocks == [] then [] else RowConcat(blocks[..|blocks| - 1], i) + blocks[|blocks| - 1][i]
  }

  /** Blocks of `height` rows laid side by side. */
  function SideBySide(blocks: seq<seq<seq<real>>>, height: nat): seq<seq<real>>
    requires forall m :: 0 <= m < |blocks| ==> |blocks[m]| == height
  {
    seq(height, i requires 0 <= i < height => RowConcat(blocks, i))
  }

  /** Blocks of `height` rows of `width` columns each. */
  predicate BlocksOf(blocks: seq<seq<seq<real>>>, height: nat, width: nat)
  {
    forall m :: 0 <= m < |blocks| ==> |blocks[m]| == height && forall i :: 0 <= i < height ==> |blocks[m][i]| == width
  }

  /** Columns `[lo, lo + width)` of every row. */
  function ColumnBlock(rows: seq<seq<real>>, lo: nat, width: nat): seq<seq<real>>
    requires forall i :: 0 <= i < |rows| ==> lo + width <= |rows[i]|
  {
    seq(|rows|, i requires 0 <= i < |rows| => rows[i][lo..lo + width])
  }

  lemma {:induction false} RowConcatLength(blocks: seq<seq<seq<real>>>, height: nat, width: nat, i: nat)
    requires BlocksOf(blocks, height, width) && i < height
    ensures |RowConcat(blocks, i)| == |blocks| * width
    decreases |blocks|
  {
    if blocks != [] {
      RowConcatLength(blocks[..|blocks| - 1], height, width, i);
    }
  }

  lemma BlockBelow(m: nat, n: nat, w: nat)
    requires m < n
    ensures m * w + w <= n * w
  {
    assert (n - m - 1) * w >= 0;
    assert n * w - (m * w + w) == (n - m - 1) * w;
  }

  /** Block m of a row sits at columns [m * width, (m + 1) * width). */
  lemma {:induction false} RowConcatBlock(blocks: seq<seq<seq<real>>>, height: nat, width: nat, i: nat, m: nat)
    requires BlocksOf(blocks, height, width) && i < height && m < |blocks|
    ensures m * width + width <= |RowConcat(blocks, i)|
    ensures RowConcat(blocks, i)[m * width..m * width + width] == blocks[m][i]
    decreases |blocks|
  {
    var n := |blocks|;
    var init := blocks[..n - 1];
    RowConcatLength(blocks, height, width, i);
    RowConcatLength(init, height, width, i);
    BlockBelow(m, n, width);
    if m < n - 1 {
      RowConcatBlock(init, height, width, i, m);
      BlockBelow(m, n - 1, width);
    } else {
      assert m * width == |RowConcat(init, i)|;
    }
  }

  /** In blocks laid side by side, block m occupies columns
      [m * width, (m + 1) * width) of every row, unchanged. */
  lemma SideBySideColumns(blocks: seq<seq<seq<real>>>, height: nat, width: nat)
    requires BlocksOf(blocks, height, width)
    ensures forall i :: 0 <= i < height ==> |SideBySide(blocks, height)[i]| == width * |blocks|
    ensures forall m :: 0 <= m < |blocks| ==>
      (forall i :: 0 <= i < height ==> m * width + width <= |SideBySide(blocks, height)[i]|) &&
      ColumnBlock(SideBySide(blocks, height), m * width, width) == blocks[m]
  {
    var rows := SideBySide(blocks, height);
    forall i | 0 <= i < height ensures |rows[i]| == width * |blocks| {
      RowConcatLength(blocks, height, width, i);
    }
    forall m | 0 <= m < |blocks|
      ensures (forall i :: 0 <= i < height ==> m * width + width <= |rows[i]|) &&
              ColumnBlock(rows, m * width, width) == blocks[m]
    {
      forall i | 0 <= i < height
        ensures m * width + width <= |rows[i]| && rows[i][m * width..m * width + width] == blocks[m][i]
      {
        RowConcatBlock(blocks, height, width, i, m);
      }
    }
  }

  /** `AdjacentChunkList`: a run under construction. */
  class AdjacentChunkList {
    var list: seq<DiagnosticChunk>
    var latestIndex: Option<int>

    /** The latest index is the index of the last member added. */
    predicate Valid()
      reads this
    {
      latestIndex == LastIndex(list)
    }

    constructor ()
      ensures list == [] && latestIndex == None && Valid()
    {
      list := [];
      latestIndex := None;
    }

    /** `can_be_added`: on a valid run, true exactly when the run is empty or
        the chunk may follow the run's last member. */
    predicate CanBeAdded(c: DiagnosticChunk)
      reads this
      ensures Valid() ==> (CanBeAdded(c) <==> list == [] || Follows(list[|list| - 1].chunkIndex, c.chunkIndex))
    {
      latestIndex.None? || latestIndex.value == 0 || c.chunkIndex == latestIndex.value + 1
    }

    /** `add_result`: appends the chunk and remembers its index. */
    method AddResult(c: DiagnosticChunk)
      modifies this
      ensures list == old(list) + [c] && latestIndex == Some(c.chunkIndex)
      ensures Valid()
    {
      list := list + [c];
      latestIndex := Some(c.chunkIndex);
    }

    /** `get_cumulative_result`: None for an empty run; otherwise the first
        member's index and time offset, with the members' originals laid side
        by side and likewise their synthetics. */
    method GetCumulativeResult() returns (r: Option<DiagnosticChunk>)
      requires Uniform(list)
      ensures list == [] <==> r.None?
      ensures r.Some? ==>
        var first := list[0];
        var n := |list|;
        r.value.chunkIndex == first.chunkIndex && r.value.chunkTimedelta == first.chunkTimedelta &&
        r.value.original == Matrix(SideBySide(Originals(list), |first.original.rows|), first.original.width * n) &&
        r.value.synthetic == Matrix(SideBySide(Synthetics(list), |first.synthetic.rows|), first.synthetic.width * n)
    {
      if list == [] {
        return None;
      }
      var first := list[0];
      var original := FillSideBySide(Originals(list), |first.original.rows|, first.original.width);
      var synthetic := FillSideBySide(Synthetics(list), |first.synthetic.rows|, first.synthetic.width);
      r := Some(DiagnosticChunk(first.chunkIndex, first.chunkTimedelta,
                                Matrix(synthetic, first.synthetic.width * |list|),
                                Matrix(original, first.original.width * |list|)));
    }
  }

  /** The members' original matrices. */
  function Originals(s: seq<DiagnosticChunk>): (r: seq<seq<seq<real>>>)
    requires Uniform(s)
    ensures s != [] ==> BlocksOf(r, |s[0].original.rows|, s[0].original.width)
    ensures |r| == |s| && forall m :: 0 <= m < |s| ==> r[m] == s[m].original.rows
  {
    seq(|s|, m requires 0 <= m < |s| => s[m].original.rows)
  }

  /** The members' synthetic matrices. */
  function Synthetics(s: seq<DiagnosticChunk>): (r: seq<seq<seq<real>>>)
    requires Uniform(s)
    ensures s != [] ==> BlocksOf(r, |s[0].synthetic.rows|, s[0].synthetic.width)
    ensures |r| == |s| && forall m :: 0 <= m < |s| ==> r[m] == s[m].synthetic.rows
  {
    seq(|s|, m requires 0 <= m < |s| => s[m].synthetic.rows)
  }

  /** A zero matrix of height x (width * count), into which block m is
      copied at column offset m * width. */
  method FillSideBySide(blocks: seq<seq<seq<real>>>, height: nat, width: nat) returns (rows: seq<seq<real>>)
    requires BlocksOf(blocks, height, width)
    ensures rows == SideBySide(blocks, height)
  {
    var n := |blocks|;
    var total := new real[height, width * n]((i, j) => 0.0);
    var m := 0;
    var offset := 0;
    while m < n
      invariant 0 <= m <= n && offset == m * width
      invariant forall i :: 0 <= i < height ==> |RowConcat(blocks[..m], i)| == offset
      invariant forall i, c :: 0 <= i < height && 0 <= c < offset ==> total[i, c] == RowConcat(blocks[..m], i)[c]
    {
      BlockBelow(m, n, width);
      CopyBlock(total, blocks[m], offset, width);
      assert blocks[..m + 1][..m] == blocks[..m];
      forall i | 0 <= i < height ensures RowConcat(blocks[..m + 1], i) == RowConcat(blocks[..m], i) + blocks[m][i] {
      }
      m := m + 1;
      offset := offset + width;
    }
    assert blocks[..n] == blocks;
    rows := seq(height, i requires 0 <= i < height reads total =>
                seq(width * n, j requires 0 <= j < width * n reads total => total[i, j]));
    forall i | 0 <= i < height ensures rows[i] == RowConcat(blocks, i) {
      RowConcatLength(blocks, height, width, i);
    }
  }

  /** `total[:, lo:lo + width] = block`. */
  method CopyBlock(total: array2<real>, block: seq<seq<real>>, lo: nat, width: nat)
    requires |block| == total.Length0 && lo + width <= total.Length1
    requires forall i :: 0 <= i < |block| ==> |block[i]| == width
    modifies total
    ensures forall i, j :: 0 <= i < |block| && 0 <= j < width ==> total[i, lo + j] == block[i][j]
    ensures forall i, j :: 0 <= i < total.Length0 && 0 <= j < total.Length1 && !(lo <= j < lo + width) ==>
      total[i, j] == old(total[i, j])
  {
    var i := 0;
    while i < |block|
      invariant 0 <= i <= |block|
      invariant forall a, b :: 0 <= a < i && 0 <= b < width ==> total[a, lo + b] == block[a][b]
      invariant forall a, b :: 0 <= a < total.Length0 && 0 <= b < total.Length1 && !(a < i && lo <= b < lo + width) ==>
        total[a, b] == old(total[a, b])
    {
      var j := 0;
      while j < width
        invariant 0 <= j <= width
        invariant forall a, b :: 0 <= a < i && 0 <= b < width ==> total[a, lo + b] == block[a][b]
        invariant forall b :: 0 <= b < j ==> total[i, lo + b] == block[i][b]
        invariant forall a, b ::
          0 <= a < total.Length0 && 0 <= b < total.Length1 && !(a < i && lo <= b < lo + width) && !(a == i && lo <= b < lo + j)
          ==> total[a, b] == old(total[a, b])
      {
        total[i, lo + j] := block[i][j];
        j := j + 1;
      }
      i := i + 1;
    }
  }

  /** `group_adjacent_chunks`: sorts the results by chunk index and splits
      them into runs, each a fresh `AdjacentChunkList`. */
  method GroupAdjacentChunks(results: seq<DiagnosticChunk>) returns (groups: seq<AdjacentChunkList>)
    ensures |groups| == |Groups(SortByIndex(results))|
    ensures forall k :: 0 <= k < |groups| ==> groups[k].list == Groups(SortByIndex(results))[k] && groups[k].Valid()
    ensures forall k :: 0 <= k < |groups| ==> fresh(groups[k])
    ensures forall k, l :: 0 <= k < l < |groups| ==> groups[k] != groups[l]
  {
    groups := GroupSorted(SortByIndex(results));
  }

  /** The loop of `group_adjacent_chunks` over the sorted results. */
  method GroupSorted(sorted: seq<DiagnosticChunk>) returns (groups: seq<AdjacentChunkList>)
    ensures |groups| == |Groups(sorted)|
    ensures forall k :: 0 <= k < |groups| ==> groups[k].list == Groups(sorted)[k] && groups[k].Valid()
    ensures forall k :: 0 <= k < |groups| ==> fresh(groups[k])
    ensures forall k, l :: 0 <= k < l < |groups| ==> groups[k] != groups[l]
  {
    var first := new AdjacentChunkList();
    groups := [first];
    var i := 0;
    while i < |sorted|
      invariant 0 <= i <= |sorted|
      invariant HoldsRuns(groups, Groups(sorted[..i]))
      invariant forall k :: 0 <= k < |groups| ==> fresh(groups[k])
    {
      GroupsStep(sorted, i);
      groups := AddToRuns(groups, sorted[i], Groups(sorted[..i]));
      i := i + 1;
    }
    assert sorted[..|sorted|] == sorted;
  }

  /** Distinct run objects holding the given runs, each valid. */
  predicate HoldsRuns(groups: seq<AdjacentChunkList>, runs: seq<seq<DiagnosticChunk>>)
    reads set k | 0 <= k < |groups| :: groups[k]
  {
    |groups| == |runs| &&
    (forall k :: 0 <= k < |groups| ==> groups[k].list == runs[k] && groups[k].Valid()) &&
    (forall k, l :: 0 <= k < l < |groups| ==> groups[k] != groups[l])
  }

  /** One iteration: the chunk goes into the current run when it can be
      added, else into a new run appended to the list. */
  method AddToRuns(groups: seq<AdjacentChunkList>, c: DiagnosticChunk, ghost runs: seq<seq<DiagnosticChunk>>)
    returns (next: seq<AdjacentChunkList>)
    requires |runs| >= 1 && HoldsRuns(groups, runs)
    modifies groups[|groups| - 1]
    ensures HoldsRuns(next, Push(runs, c))
    ensures forall k :: 0 <= k < |next| ==> next[k] in groups || fresh(next[k])
  {
    var current := groups[|groups| - 1];
    if current.CanBeAdded(c) {
      PushJoins(runs, c);
      current.AddResult(c);
      next := groups;
    } else {
      PushOpens(runs, c);
      current := new AdjacentChunkList();
      current.AddResult(c);
      next := groups + [current];
    }
  }

  lemma PushJoins(g: seq<seq<DiagnosticChunk>>, c: DiagnosticChunk)
    requires |g| >= 1
    requires g[|g| - 1] == [] || Follows(g[|g| - 1][|g[|g| - 1]| - 1].chunkIndex, c.chunkIndex)
    ensures |Push(g, c)| == |g|
    ensures forall k :: 0 <= k < |g| - 1 ==> Push(g, c)[k] == g[k]
    ensures Push(g, c)[|g| - 1] == g[|g| - 1] + [c]
  {
  }

  lemma PushOpens(g: seq<seq<DiagnosticChunk>>, c: DiagnosticChunk)
    requires |g| >= 1
    requires !(g[|g| - 1] == [] || Follows(g[|g| - 1][|g[|g| - 1]| - 1].chunkIndex, c.chunkIndex))
    ensures Push(g, c) == g + [[c]]
  {
  }

  function RunIndices(gs: seq<seq<DiagnosticChunk>>): seq<seq<int>>
  {
    seq(|gs|, k requires 0 <= k < |gs| => seq(|gs[k]|, i requires 0 <= i < |gs[k]| => gs[k][i].chunkIndex))
  }

  /** Two sorted arrangements of the same chunks start with the same chunk
      when the first one's indices are distinct. */
  lemma {:induction false} SortedHeads(a: seq<DiagnosticChunk>, b: seq<DiagnosticChunk>)
    requires a != [] && SortedByIndex(a) && SortedByIndex(b) && multiset(a) == multiset(b)
    requires forall i, j :: 0 <= i < j < |a| ==> a[i].chunkIndex != a[j].chunkIndex
    ensures b != [] && a[0] == b[0]
  {
    assert a[0] in multiset(b);
    var j :| 0 <= j < |b| && b[j] == a[0];
    assert b[0] in multiset(a);
    var k :| 0 <= k < |a| && a[k] == b[0];
    assert k == 0;
  }

  /** Removing a common first element leaves the same multiset. */
  lemma {:induction false} SameTails<T>(a: seq<T>, b: seq<T>)
    requires a != [] && b != [] && a[0] == b[0] && multiset(a) == multiset(b)
    ensures multiset(a[1..]) == multiset(b[1..])
  {
    assert a == [a[0]] + a[1..] && b == [b[0]] + b[1..];
    assert multiset(a[1..]) == multiset(a) - multiset{a[0]};
    assert multiset(b[1..]) == multiset(b) - multiset{b[0]};
  }

  /** Sorting is determined by the multiset when the indices are distinct:
      a sorted list with distinct indices is the only sorted arrangement of
      its elements. */
  lemma {:induction false} SortedUnique(a: seq<DiagnosticChunk>, b: seq<DiagnosticChunk>)
    requires SortedByIndex(a) && SortedByIndex(b) && multiset(a) == multiset(b)
    requires forall i, j :: 0 <= i < j < |a| ==> a[i].chunkIndex != a[j].chunkIndex
    ensures a == b
    decreases |a|
  {
    if a != [] {
      SortedHeads(a, b);
      SameTails(a, b);
      SortedUnique(a[1..], b[1..]);
      assert a == [a[0]] + a[1..] && b == [b[0]] + b[1..];
    } else {
      assert |b| == |multiset(b)|;
    }
  }

  /** Whatever order the chunks arrive in, sorting yields the one sorted
      arrangement of them, as long as their indices are distinct. */
  lemma {:induction false} SortIsDetermined(s: seq<DiagnosticChunk>, t: seq<DiagnosticChunk>)
    requires SortedByIndex(t) && multiset(s) == multiset(t)
    requires forall i, j :: 0 <= i < j < |t| ==> t[i].chunkIndex != t[j].chunkIndex
    ensures SortByIndex(s) == t
  {
    SortByIndexCorrect(s);
    SortedUnique(t, SortByIndex(s));
  }

  /** Chunks with indices 1, 2, 3, 5 and 7, arriving in any order, are
      sorted into index order. */
  lemma SortExample(s: seq<DiagnosticChunk>, c1: DiagnosticChunk, c2: DiagnosticChunk,
                    c3: DiagnosticChunk, c5: DiagnosticChunk, c7: DiagnosticChunk)
    requires c1.chunkIndex == 1 && c2.chunkIndex == 2 && c3.chunkIndex == 3 && c5.chunkIndex == 5 && c7.chunkIndex == 7
    requires multiset(s) == multiset([c1, c2, c3, c5, c7])
    ensures SortByIndex(s) == [c1, c2, c3, c5, c7]
  {
    var t := [c1, c2, c3, c5, c7];
    assert forall i :: 0 <= i < |t| ==> t[i].chunkIndex == [1, 2, 3, 5, 7][i];
    SortIsDetermined(s, t);
  }

  /** The first chunk of any input opens the one run. */
  lemma {:induction false} GroupsOfOne(s: seq<DiagnosticChunk>)
    requires |s| >= 1
    ensures Groups(s[..1]) == [[s[0]]]
  {
    var none: seq<seq<DiagnosticChunk>> := [[]];
    assert s[..1][..0] == [] && s[..1][0] == s[0];
    assert none[0] + [s[0]] == [s[0]];
    assert Push(none, s[0]) == [[s[0]]];
  }

  /** Chunks with indices 1, 2, 3 at the front of a list form one run. */
  lemma {:induction false} GroupsExampleHead(s: seq<DiagnosticChunk>)
    requires |s| >= 3 && s[0].chunkIndex == 1 && s[1].chunkIndex == 2 && s[2].chunkIndex == 3
    ensures Groups(s[..3]) == [[s[0], s[1], s[2]]]
  {
    GroupsOfOne(s);
    GroupsStep(s, 1);
    PushJoins([[s[0]]], s[1]);
    assert [s[0]] + [s[1]] == [s[0], s[1]];
    var g2: seq<seq<DiagnosticChunk>> := [[s[0], s[1]]];
    assert Groups(s[..2]) == g2;
    GroupsStep(s, 2);
    PushJoins(g2, s[2]);
    assert [s[0], s[1]] + [s[2]] == [s[0], s[1], s[2]];
  }

  /** The runs of chunks with indices 1, 2, 3, 5, 7. */
  lemma {:induction false} GroupsExample(c1: DiagnosticChunk, c2: DiagnosticChunk, c3: DiagnosticChunk,
                                         c5: DiagnosticChunk, c7: DiagnosticChunk)
    requires c1.chunkIndex == 1 && c2.chunkIndex == 2 && c3.chunkIndex == 3 && c5.chunkIndex == 5 && c7.chunkIndex == 7
    ensures Groups([c1, c2, c3, c5, c7]) == [[c1, c2, c3], [c5], [c7]]
  {
    GroupsOfFive([c1, c2, c3, c5, c7]);
  }

  lemma {:induction false} GroupsOfFive(s: seq<DiagnosticChunk>)
    requires |s| == 5 && s[0].chunkIndex == 1 && s[1].chunkIndex == 2 && s[2].chunkIndex == 3
    requires s[3].chunkIndex == 5 && s[4].chunkIndex == 7
    ensures Groups(s) == [[s[0], s[1], s[2]], [s[3]], [s[4]]]
  {
    GroupsExampleHead(s);
    var g3: seq<seq<DiagnosticChunk>> := [[s[0], s[1], s[2]]];
    GroupsOpenRun(s, 3, g3);
    var g4 := g3 + [[s[3]]];
    GroupsOpenRun(s, 4, g4);
    assert s[..5] == s;
    assert g4 + [[s[4]]] == [[s[0], s[1], s[2]], [s[3]], [s[4]]];
  }

  /** A chunk that may not follow the last member of the current run opens
      a new run of its own. */
  lemma {:induction false} GroupsOpenRun(s: seq<DiagnosticChunk>, i: nat, g: seq<seq<DiagnosticChunk>>)
    requires i < |s| && Groups(s[..i]) == g && |g| >= 1 && g[|g| - 1] != []
    requires !Follows(g[|g| - 1][|g[|g| - 1]| - 1].chunkIndex, s[i].chunkIndex)
    ensures Groups(s[..i + 1]) == g + [[s[i]]]
  {
    GroupsStep(s, i);
    PushOpens(g, s[i]);
  }

  /** Chunks 1, 2, 3, 5 and 7, arriving in any order, are grouped as
      [1, 2, 3], [5], [7]. */
  lemma GroupingExample(s: seq<DiagnosticChunk>, c1: DiagnosticChunk, c2: DiagnosticChunk,
                        c3: DiagnosticChunk, c5: DiagnosticChunk, c7: DiagnosticChunk)
    requires c1.chunkIndex == 1 && c2.chunkIndex == 2 && c3.chunkIndex == 3 && c5.chunkIndex == 5 && c7.chunkIndex == 7
    requires multiset(s) == multiset([c1, c2, c3, c5, c7])
    ensures RunIndices(Groups(SortByIndex(s))) == [[1, 2, 3], [5], [7]]
  {
    SortExample(s, c1, c2, c3, c5, c7);
    GroupsExample(c1, c2, c3, c5, c7);
    ExampleRunIndices(c1, c2, c3, c5, c7);
  }

  lemma ExampleRunIndices(c1: DiagnosticChunk, c2: DiagnosticChunk,
                          c3: DiagnosticChunk, c5: DiagnosticChunk, c7: DiagnosticChunk)
    requires c1.chunkIndex == 1 && c2.chunkIndex == 2 && c3.chunkIndex == 3 && c5.chunkIndex == 5 && c7.chunkIndex == 7
    ensures RunIndices([[c1, c2, c3], [c5], [c7]]) == [[1, 2, 3], [5], [7]]
  {
    var g := [[c1, c2, c3], [c5], [c7]];
    var r := RunIndices(g);
    assert |r| == 3;
    assert r[0] == [1, 2, 3];
    assert r[1] == [5];
    assert r[2] == [7];
  }

  /** Because index 0 is falsy, anything joins a run that ends in chunk 0:
      chunks 0 and 5 form one run. */
  lemma ZeroJoinsAnything(c0: DiagnosticChunk, c5: DiagnosticChunk)
    requires c0.chunkIndex == 0 && c5.chunkIndex == 5
    ensures Groups([c0, c5]) == [[c0, c5]]
  {
    var sorted := [c0, c5];
    GroupsOfOne(sorted);
    GroupsStep(sorted, 1);
    PushJoins([[c0]], c5);
    assert sorted[..2] == sorted;
    assert [c0] + [c5] == [c0, c5];
  }

  // ---------------------------------------------------------------------
  // Which chunks to diagnose

  /** `xs.index(v)`: the first position holding `v`, ValueError when there is none. */
  function FirstIndex(xs: seq<real>, v: real): (r: Result<nat>)
    ensures r.Ok? <==> v in xs
    ensures r.Ok? ==> r.value < |xs| && xs[r.value] == v && forall i :: 0 <= i < r.value ==> xs[i] != v
    ensures r.Err? ==> r.error.ValueError?
  {
    if xs == [] then Err(ValueError("value is not in list"))
    else if xs[0] == v then Ok(0)
    else match FirstIndex(xs[1..], v)
      case Ok(i) => Ok(i + 1)
      case Err(e) => Err(e)
  }

  /** `list(range(lo, hi))`. */
  function Range(lo: int, hi: int): (r: seq<int>)
    ensures |r| == if lo <= hi then hi - lo else 0
    ensures forall i :: 0 <= i < |r| ==> r[i] == lo + i
    decreases hi - lo
  {
    if lo >= hi then [] else [lo] + Range(lo + 1, hi)
  }

  /** The chunk window: the chunks within `radius` of the first chunk holding
      the maximal anomaly value, that chunk moved to 1 when it is chunk 0. */
  function ChunkWindow(probabilities: seq<real>, maxValue: real, radius: int): (r: Result<seq<int>>)
    ensures r.Ok? <==> maxValue in probabilities
    ensures r.Err? ==> r.error.ValueError?
  {
    match FirstIndex(probabilities, maxValue)
    case Err(e) => Err(e)
    case Ok(idx) =>
      var centre := if idx < 1 then 1 else idx;
      Ok(Range(centre - radius, centre + radius + 1))
  }

  /** The window has 2 * radius + 1 consecutive ascending indices (none for a
      negative radius) centred on the first maximal chunk, never on chunk 0. */
  lemma ChunkWindowShape(probabilities: seq<real>, maxValue: real, radius: int)
    requires maxValue in probabilities
    ensures
      var idx := FirstIndex(probabilities, maxValue).value;
      var centre := if idx == 0 then 1 else idx;
      var w := ChunkWindow(probabilities, maxValue, radius).value;
      centre >= 1 &&
      |w| == (if radius >= 0 then 2 * radius + 1 else 0) &&
      (forall i :: 0 <= i < |w| ==> w[i] == centre - radius + i) &&
      (radius >= 0 ==> w[radius] == centre)
  {
  }

  /** The calibrated probabilities are used only when k, x0 and the anomaly
      prior are all truthy. */
  predicate UseCalibration(k: real, x0: real, anomalyPrior: real)
  {
    k != 0.0 && x0 != 0.0 && anomalyPrior != 0.0
  }

  /** The tail of `calculate_most_anomalous_chunks`, given the engine's
      probabilities with and without calibration and the maximal value
      found near the resampled peak. */
  function MostAnomalousChunks(calibrated: seq<real>, uncalibrated: seq<real>,
                               k: real, x0: real, anomalyPrior: real, maxValue: real, radius: int): (r: Result<seq<int>>)
    ensures UseCalibration(k, x0, anomalyPrior) ==> r == ChunkWindow(calibrated, maxValue, radius)
    ensures !UseCalibration(k, x0, anomalyPrior) ==> r == ChunkWindow(uncalibrated, maxValue, radius)
  {
    ChunkWindow(if UseCalibration(k, x0, anomalyPrior) then calibrated else uncalibrated, maxValue, radius)
  }

  /** `calculate_frequency_index`: one frequency per retained row, the i-th
      (from 1) being i * downsample / chunk length; ZeroDivisionError for a
      zero chunk length. */
  function FrequencyIndex(dataSize: int, chunkLength: real, downsample: real): (r: Result<seq<real>>)
    ensures r.Err? <==> chunkLength == 0.0
    ensures r.Ok? ==> |r.value| == (if dataSize > 0 then dataSize else 0)
    ensures r.Ok? ==> forall i :: 0 <= i < |r.value| ==> r.value[i] == (downsample / chunkLength) * ((i + 1) as real)
  {
    if chunkLength == 0.0 then Err(FloatDivisionByZero)
    else
      var n := if dataSize > 0 then dataSize else 0;
      Ok(seq(n, i requires 0 <= i < n => (downsample / chunkLength) * ((i + 1) as real)))
  }
}
