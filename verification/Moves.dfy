/** The search for one block of rows that moved, so that a scroll costs one copy instead of every row. */
module Moves {
  import opened Bytes
  import opened Grids

  datatype Move = Move(source: nat, destination: nat, count: nat)

  /** How many changed rows lie in [first, end). */
  function Covered(changed: seq<bool>, first: int, end: int): (n: nat)
    requires 0 <= first <= end <= |changed|
    decreases end - first
  {
    if first == end then 0
    else Covered(changed, first, end - 1) + (if changed[end - 1] then 1 else 0)
  }

  lemma {:induction false} CoveredShrinks(changed: seq<bool>, first: nat, later: nat, end: nat)
    requires first <= later <= end <= |changed|
    ensures Covered(changed, later, end) <= Covered(changed, first, end)
    decreases end - later
  {
    if later < end {
      CoveredShrinks(changed, first, later, end - 1);
    }
  }

  predicate InBounds(m: Move, rows: nat) {
    m.count > 0 && m.source + m.count <= rows && m.destination + m.count <= rows
  }

  /** A block whose hashes agree at another position. */
  predicate IsRun(was: seq<int>, now: seq<int>, m: Move)
    requires |was| == |now|
  {
    && InBounds(m, |now|)
    && m.source != m.destination
    && forall i | m.destination <= i < m.destination + m.count :: now[i] == was[m.source + (i - m.destination)]
  }

  function Score(changed: seq<bool>, m: Move): (n: nat)
    requires InBounds(m, |changed|)
  {
    Covered(changed, m.destination, m.destination + m.count)
  }

  /** At most as good: fewer changed rows covered, or as many by a run no longer. */
  predicate NoBetter(changed: seq<bool>, m: Move, best: Option<Move>, bestScore: nat)
    requires InBounds(m, |changed|)
  {
    || Score(changed, m) < bestScore
    || (Score(changed, m) == bestScore && (best.Some? ==> m.count <= best.value.count))
  }

  /** The best run covering at least two changed rows, by (changed rows covered, run length). */
  ghost predicate Chosen(was: seq<int>, now: seq<int>, changed: seq<bool>, best: Option<Move>)
    requires |was| == |now| == |changed|
  {
    match best
    case None => forall m | IsRun(was, now, m) :: Score(changed, m) <= 1
    case Some(b) =>
      && IsRun(was, now, b)
      && Score(changed, b) >= 2
      && forall m | IsRun(was, now, m) :: NoBetter(changed, m, best, Score(changed, b))
  }

  ghost predicate Leading(was: seq<int>, now: seq<int>, changed: seq<bool>, best: Option<Move>, bestScore: nat)
    requires |was| == |now| == |changed|
  {
    match best
    case None => bestScore == 1
    case Some(b) => IsRun(was, now, b) && Score(changed, b) == bestScore >= 2
  }

  /** The longest block ending before `row` that agrees under one shift. */
  ghost predicate Maximal(was: seq<int>, now: seq<int>, shift: int, row: nat, run: nat)
    requires |was| == |now|
  {
    && run <= row <= |now|
    && (forall k | row - run <= k < row :: 0 <= k + shift < |was| && now[k] == was[k + shift])
    && (run < row ==> var k := row - run - 1; !(0 <= k + shift < |was|) || now[k] != was[k + shift])
  }

  lemma EndsNoLonger(was: seq<int>, now: seq<int>, changed: seq<bool>, shift: int, row: nat, run: nat, m: Move)
    requires |was| == |now| == |changed|
    requires Maximal(was, now, shift, row, run)
    requires IsRun(was, now, m) && m.source - m.destination == shift && m.destination + m.count == row
    ensures m.count <= run
    ensures Score(changed, m) <= Covered(changed, row - run, row)
  {
    assert run < row ==> m.destination > row - run - 1;
    CoveredShrinks(changed, row - run, m.destination, row);
  }

  /** A later choice that is the same or better in the order of the search. */
  predicate Improves(best0: Option<Move>, score0: nat, best: Option<Move>, score: nat) {
    || (best == best0 && score == score0)
    || score > score0
    || (score == score0 && best0.Some? && best.Some? && best.value.count > best0.value.count)
  }

  /** No run of one shift that ends by `row` is better than the best so far. */
  ghost predicate Seen(was: seq<int>, now: seq<int>, changed: seq<bool>, shift: int, row: nat, best: Option<Move>, score: nat)
    requires |was| == |now| == |changed|
  {
    forall m | IsRun(was, now, m) && m.source - m.destination == shift && m.destination + m.count <= row ::
      NoBetter(changed, m, best, score)
  }

  lemma SeenNext(was: seq<int>, now: seq<int>, changed: seq<bool>, shift: int, row: nat, run: nat,
                 best0: Option<Move>, score0: nat, best: Option<Move>, score: nat)
    requires |was| == |now| == |changed| && row < |now|
    requires Seen(was, now, changed, shift, row, best0, score0)
    requires Improves(best0, score0, best, score)
    requires Maximal(was, now, shift, row + 1, run)
    requires var covered := Covered(changed, row + 1 - run, row + 1);
             covered < score || (covered == score && (best.Some? ==> run <= best.value.count))
    ensures Seen(was, now, changed, shift, row + 1, best, score)
  {
    forall m | IsRun(was, now, m) && m.source - m.destination == shift && m.destination + m.count <= row + 1
      ensures NoBetter(changed, m, best, score)
    {
      if m.destination + m.count == row + 1 {
        EndsNoLonger(was, now, changed, shift, row + 1, run, m);
      } else {
        assert NoBetter(changed, m, best0, score0);
      }
    }
  }

  method ChooseAtShift(was: seq<int>, now: seq<int>, changed: seq<bool>, shift: int, best0: Option<Move>, score0: nat)
    returns (best: Option<Move>, bestScore: nat)
    requires |was| == |now| == |changed| && shift != 0
    requires Leading(was, now, changed, best0, score0)
    ensures Leading(was, now, changed, best, bestScore)
    ensures Seen(was, now, changed, shift, |now|, best, bestScore)
    ensures Improves(best0, score0, best, bestScore)
  {
    hide Covered, NoBetter, Maximal, Seen;
    best, bestScore := best0, score0;
    var run: nat, score: nat := 0, 0;
    var row: nat := 0;
    NothingYet(was, now, changed, shift, best, bestScore);
    MaximalNothing(was, now, shift);
    while row < |now|
      invariant run <= row <= |now|
      invariant Maximal(was, now, shift, row, run) && score == Covered(changed, row - run, row)
      invariant Leading(was, now, changed, best, bestScore)
      invariant Seen(was, now, changed, shift, row, best, bestScore)
      invariant Improves(best0, score0, best, bestScore)
    {
      ghost var best1, score1 := best, bestScore;
      var from := row + shift;
      if from < 0 || from >= |now| || now[row] != was[from] {
        MaximalNext(was, now, shift, row, run);
        CoveredNext(changed, row + 1, row);
        run, score := 0, 0;
      } else {
        MaximalNext(was, now, shift, row, run);
        CoveredNext(changed, row - run, row);
        run := run + 1;
        score := score + (if changed[row] then 1 else 0);
        if score > bestScore || (score == bestScore && best.Some? && run > best.value.count) {
          bestScore := score;
          var destination := row + 1 - run;
          best := Some(Move(destination + shift, destination, run));
        }
      }
      SeenNext(was, now, changed, shift, row, run, best1, score1, best, bestScore);
      row := row + 1;
    }
  }

  lemma MaximalNothing(was: seq<int>, now: seq<int>, shift: int)
    requires |was| == |now|
    ensures Maximal(was, now, shift, 0, 0)
  {
  }

  /** One more row either extends the block that ends there, which is then a run, or starts afresh. */
  lemma MaximalNext(was: seq<int>, now: seq<int>, shift: int, row: nat, run: nat)
    requires |was| == |now| && row < |now| && shift != 0
    requires Maximal(was, now, shift, row, run)
    ensures run <= row
    ensures var from := row + shift;
            if from < 0 || from >= |now| || now[row] != was[from] then Maximal(was, now, shift, row + 1, 0)
            else Maximal(was, now, shift, row + 1, run + 1) && row - run + shift >= 0 &&
                 IsRun(was, now, Move(row - run + shift, row - run, run + 1))
  {
    var from := row + shift;
    if 0 <= from < |now| && now[row] == was[from] {
      var m := row - run;
      assert now[m] == now[row - run];
      assert 0 <= m + shift < |was|;
      assert now[m] == was[m + shift];
    }
  }

  lemma NothingYet(was: seq<int>, now: seq<int>, changed: seq<bool>, shift: int, best: Option<Move>, score: nat)
    requires |was| == |now| == |changed|
    ensures Seen(was, now, changed, shift, 0, best, score)
    ensures Covered(changed, 0, 0) == 0
  {
  }

  lemma CoveredNext(changed: seq<bool>, first: nat, row: nat)
    requires first <= row + 1 && row < |changed|
    ensures Covered(changed, row + 1, row + 1) == 0
    ensures first <= row ==>
      Covered(changed, first, row + 1) == Covered(changed, first, row) + (if changed[row] then 1 else 0)
  {
  }

  /** Every nonzero shift, every row: keep the best run seen. */
  method Choose(was: seq<int>, now: seq<int>, changed: seq<bool>) returns (best: Option<Move>)
    requires |was| == |now| == |changed|
    ensures Chosen(was, now, changed, best)
  {
    best := None;
    var bestScore: nat := 1;
    var rows := |now|;
    var shift := 1 - rows;
    while shift < rows
      invariant Leading(was, now, changed, best, bestScore)
      invariant forall s | 1 - rows <= s < shift && s != 0 :: Seen(was, now, changed, s, rows, best, bestScore)
    {
      if shift != 0 {
        ghost var best0, score0 := best, bestScore;
        best, bestScore := ChooseAtShift(was, now, changed, shift, best, bestScore);
        forall s | 1 - rows <= s < shift && s != 0
          ensures Seen(was, now, changed, s, rows, best, bestScore)
        {
          SeenImproves(was, now, changed, s, best0, score0, best, bestScore);
        }
      }
      shift := shift + 1;
    }
    forall m | IsRun(was, now, m)
      ensures NoBetter(changed, m, best, bestScore)
    {
      assert Seen(was, now, changed, m.source - m.destination, rows, best, bestScore);
    }
  }

  lemma SeenImproves(was: seq<int>, now: seq<int>, changed: seq<bool>, shift: int,
                     best0: Option<Move>, score0: nat, best: Option<Move>, score: nat)
    requires |was| == |now| == |changed|
    requires Seen(was, now, changed, shift, |now|, best0, score0) && Improves(best0, score0, best, score)
    ensures Seen(was, now, changed, shift, |now|, best, score)
  {
    hide Covered;
    forall m | IsRun(was, now, m) && m.source - m.destination == shift
      ensures NoBetter(changed, m, best, score)
    {
      assert NoBetter(changed, m, best0, score0);
    }
  }

  // ---- The search on the stored baseline ----

  /** Whether the rows a move names really are the rows it would copy. */
  predicate Exact<T(==)>(before: seq<T>, current: seq<T>, m: Move)
    requires |before| == |current|
  {
    && InBounds(m, |current|)
    && forall i | m.destination <= i < m.destination + m.count :: current[i] == before[m.source + (i - m.destination)]
  }

  predicate ExactChoice<T(==)>(before: seq<T>, current: seq<T>, m: Option<Move>)
    requires |before| == |current|
  {
    m.Some? ==> Exact(before, current, m.value)
  }

  function Hashes(rows: seq<seq<byte>>, hash: seq<byte> -> int): (h: seq<int>)
    ensures |h| == |rows|
  {
    seq(|rows|, i requires 0 <= i < |rows| => hash(rows[i]))
  }

  function ChangedRows(before: seq<seq<byte>>, current: seq<seq<byte>>): (c: seq<bool>)
    requires |before| == |current|
    ensures |c| == |current|
  {
    seq(|current|, i requires 0 <= i < |current| => before[i] != current[i])
  }

  method Summaries(before: seq<byte>, current: seq<Option<seq<byte>>>, width: nat, hash: seq<byte> -> int)
    returns (was: seq<int>, now: seq<int>, changed: seq<bool>)
    requires |before| == |current| * width
    requires forall r | 0 <= r < |current| :: current[r].Some? && |current[r].value| == width
    ensures var olds := Chunks(before, width, |current|);
            var nows := seq(|current|, r requires 0 <= r < |current| => current[r].value);
            was == Hashes(olds, hash) && now == Hashes(nows, hash) && changed == ChangedRows(olds, nows)
  {
    hide Chunks;
    ghost var olds := Chunks(before, width, |current|);
    was, now, changed := [], [], [];
    for r := 0 to |current|
      invariant |was| == |now| == |changed| == r
      invariant forall k | 0 <= k < r :: was[k] == hash(olds[k])
      invariant forall k | 0 <= k < r :: now[k] == hash(current[k].value)
      invariant forall k | 0 <= k < r :: changed[k] == (olds[k] != current[k].value)
    {
      ChunkAt(before, width, |current|, r);
      var row := before[r * width..(r + 1) * width];
      was := was + [hash(row)];
      now := now + [hash(current[r].value)];
      changed := changed + [row != current[r].value];
    }
  }

  /** Hashes only propose: a candidate is returned exactly when its bytes agree too, for any hash at all. */
  method FindMove(before: seq<byte>, current: seq<Option<seq<byte>>>, width: nat, hash: seq<byte> -> int)
    returns (m: Option<Move>, ghost candidate: Option<Move>)
    requires |before| == |current| * width
    requires forall r | 0 <= r < |current| :: current[r].Some? && |current[r].value| == width
    ensures var was := Chunks(before, width, |current|);
            var now := seq(|current|, r requires 0 <= r < |current| => current[r].value);
            && Chosen(Hashes(was, hash), Hashes(now, hash), ChangedRows(was, now), candidate)
            && m == (if candidate.Some? && Exact(was, now, candidate.value) then candidate else None)
  {
    hide Chunks;
    ghost var olds := Chunks(before, width, |current|);
    ghost var nows := seq(|current|, r requires 0 <= r < |current| => current[r].value);
    var was, now, changed := Summaries(before, current, width, hash);
    var best := Choose(was, now, changed);
    candidate := best;
    m := None;
    if best.Some? {
      var exact := Confirm(before, current, width, best.value);
      if exact {
        m := best;
      }
    }
  }

  /** The byte comparison that alone authorizes a move in the client's replica. */
  method Confirm(before: seq<byte>, current: seq<Option<seq<byte>>>, width: nat, m: Move) returns (exact: bool)
    requires |before| == |current| * width
    requires forall r | 0 <= r < |current| :: current[r].Some? && |current[r].value| == width
    requires InBounds(m, |current|)
    ensures exact <==> Exact(Chunks(before, width, |current|),
                             seq(|current|, r requires 0 <= r < |current| => current[r].value), m)
  {
    hide Chunks;
    ghost var olds := Chunks(before, width, |current|);
    ghost var nows := seq(|current|, r requires 0 <= r < |current| => current[r].value);
    for offset := 0 to m.count
      invariant forall i | m.destination <= i < m.destination + offset ::
          current[i].value == olds[m.source + (i - m.destination)]
    {
      var source := m.source + offset;
      ChunkAt(before, width, |current|, source);
      if before[source * width..(source + 1) * width] != current[m.destination + offset].value {
        assert nows[m.destination + offset] != olds[m.source + (m.destination + offset - m.destination)];
        return false;
      }
    }
    exact := true;
  }

  lemma {:induction false} ChunkAt(s: seq<byte>, width: nat, count: nat, r: nat)
    requires |s| == count * width && r < count
    ensures r * width <= (r + 1) * width <= |s|
    ensures Chunks(s, width, count)[r] == s[r * width..(r + 1) * width]
    decreases count
  {
    Distribute(1, count - 1, width);
    Distribute(r, 1, width);
    Distribute(r + 1, count - r - 1, width);
    if r > 0 {
      ChunkAt(s[width..], width, count - 1, r - 1);
      Distribute(r - 1, 1, width);
      assert s[width..][(r - 1) * width..r * width] == s[r * width..(r + 1) * width];
    }
  }
}
