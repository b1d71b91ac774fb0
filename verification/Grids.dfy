/** Row-structured storage: how one flat buffer holds a grid of equally long rows. */
module Grids {

  function Flat<T>(rows: seq<seq<T>>): (s: seq<T>) {
    if rows == [] then [] else rows[0] + Flat(rows[1..])
  }

  predicate Uniform<T>(rows: seq<seq<T>>, width: nat) {
    forall i | 0 <= i < |rows| :: |rows[i]| == width
  }

  /** A flat buffer of `count` rows cut at every `width`, as `chunks_exact` does. */
  function Chunks<T>(s: seq<T>, width: nat, count: nat): (rows: seq<seq<T>>)
    requires |s| == count * width
    ensures |rows| == count && Uniform(rows, width)
    decreases count
  {
    if count == 0 then []
    else
      assert count * width == width + (count - 1) * width;
      [s[..width]] + Chunks(s[width..], width, count - 1)
  }

  /** The memmove of one range of a buffer over another, as `copy_within` does. */
  function CopyWithin<T>(s: seq<T>, from: nat, to: nat, destination: nat): (r: seq<T>)
    requires from <= to <= |s|
    requires destination + (to - from) <= |s|
    ensures |r| == |s|
    ensures forall i | 0 <= i < |s| ::
      r[i] == if destination <= i < destination + (to - from) then s[from + (i - destination)] else s[i]
  {
    s[..destination] + s[from..to] + s[destination + (to - from)..]
  }

  lemma Distribute(a: nat, b: nat, width: nat)
    ensures (a + b) * width == a * width + b * width
    ensures 0 <= a * width && 0 <= b * width
  {
  }

  lemma {:induction false} FlatConcat<T>(a: seq<seq<T>>, b: seq<seq<T>>)
    ensures Flat(a + b) == Flat(a) + Flat(b)
  {
    if a == [] {
      assert a + b == b;
    } else {
      FlatConcat(a[1..], b);
      assert (a + b)[1..] == a[1..] + b;
      assert Flat(a + b) == a[0] + (Flat(a[1..]) + Flat(b));
    }
  }

  lemma {:induction false} FlatLength<T>(rows: seq<seq<T>>, width: nat)
    requires Uniform(rows, width)
    ensures |Flat(rows)| == |rows| * width
  {
    if rows != [] {
      FlatLength(rows[1..], width);
      assert |rows| * width == width + (|rows| - 1) * width;
    }
  }

  lemma {:induction false} FlatSlice<T>(rows: seq<seq<T>>, width: nat, a: nat, b: nat)
    requires Uniform(rows, width) && a <= b <= |rows|
    ensures a * width <= b * width <= |Flat(rows)|
    ensures Flat(rows)[a * width..b * width] == Flat(rows[a..b])
  {
    var x, y, z := rows[..a], rows[a..b], rows[b..];
    assert rows == x + (y + z);
    FlatConcat(x, y + z);
    FlatConcat(y, z);
    FlatLength(x, width);
    FlatLength(y, width);
    FlatLength(z, width);
    Distribute(a, b - a, width);
    Distribute(b, |rows| - b, width);
    assert Flat(rows) == Flat(x) + (Flat(y) + Flat(z));
  }

  lemma {:induction false} FlatOne<T>(row: seq<T>)
    ensures Flat([row]) == row
  {
    assert [row][1..] == [];
    assert Flat([row]) == row + [];
  }

  lemma {:induction false} FlatRow<T>(rows: seq<seq<T>>, width: nat, r: nat)
    requires Uniform(rows, width) && r < |rows|
    ensures r * width <= (r + 1) * width <= |Flat(rows)|
    ensures Flat(rows)[r * width..(r + 1) * width] == rows[r]
  {
    FlatSlice(rows, width, r, r + 1);
    assert rows[r..r + 1] == [rows[r]];
    FlatOne(rows[r]);
  }

  lemma {:induction false} ChunksFlat<T>(rows: seq<seq<T>>, width: nat)
    requires Uniform(rows, width)
    ensures |Flat(rows)| == |rows| * width
    ensures Chunks(Flat(rows), width, |rows|) == rows
  {
    FlatLength(rows, width);
    if rows != [] {
      ChunksFlat(rows[1..], width);
      var s := Flat(rows);
      assert s[..width] == rows[0] && s[width..] == Flat(rows[1..]);
    }
  }

  lemma {:induction false} FlatPrefix<T>(rows: seq<seq<T>>, width: nat, a: nat)
    requires Uniform(rows, width) && a <= |rows|
    ensures a * width <= |Flat(rows)|
    ensures Flat(rows[..a]) == Flat(rows)[..a * width]
    ensures Flat(rows[a..]) == Flat(rows)[a * width..]
  {
    assert rows == rows[..a] + rows[a..];
    FlatConcat(rows[..a], rows[a..]);
    FlatLength(rows[..a], width);
  }

  lemma {:induction false} FlatThree<T>(a: seq<seq<T>>, b: seq<seq<T>>, c: seq<seq<T>>)
    ensures Flat(a + b + c) == Flat(a) + Flat(b) + Flat(c)
  {
    FlatConcat(a + b, c);
    FlatConcat(a, b);
  }

  /** Moving whole rows of a grid is moving bytes of its buffer, overlap included. */
  lemma {:induction false} FlatCopy<T>(rows: seq<seq<T>>, width: nat, from: nat, to: nat, destination: nat)
    requires Uniform(rows, width) && from <= to <= |rows| && destination + (to - from) <= |rows|
    ensures from * width <= to * width <= |Flat(rows)|
    ensures destination * width + (to * width - from * width) <= |Flat(rows)|
    ensures Uniform(CopyWithin(rows, from, to, destination), width)
    ensures Flat(CopyWithin(rows, from, to, destination))
         == CopyWithin(Flat(rows), from * width, to * width, destination * width)
  {
    hide Flat;
    var after := destination + (to - from);
    Distribute(from, to - from, width);
    Distribute(destination, to - from, width);
    FlatSlice(rows, width, from, to);
    FlatPrefix(rows, width, destination);
    FlatPrefix(rows, width, after);
    FlatThree(rows[..destination], rows[from..to], rows[after..]);
  }

  lemma SpliceParts<T>(before: seq<T>, row: seq<T>, behind: seq<T>, column: nat, count: nat)
    requires column + count <= |row|
    ensures var whole := before + row + behind;
            |before| + column + count <= |whole| &&
            whole[..|before| + column] == before + row[..column] &&
            whole[|before| + column + count..] == row[column + count..] + behind
  {
  }

  /** Overwriting a segment of one row of the buffer. */
  lemma {:induction false} FlatSplice<T>(rows: seq<seq<T>>, width: nat, r: nat, column: nat, part: seq<T>)
    requires Uniform(rows, width) && r < |rows| && column + |part| <= width
    ensures r * width + column + |part| <= |Flat(rows)|
    ensures var row := rows[r][..column] + part + rows[r][column + |part|..];
            Uniform(rows[r := row], width) &&
            Flat(rows[r := row]) == Flat(rows)[..r * width + column] + part + Flat(rows)[r * width + column + |part|..]
  {
    hide Flat;
    var row := rows[r][..column] + part + rows[r][column + |part|..];
    var before, behind := Flat(rows[..r]), Flat(rows[r + 1..]);
    assert rows == rows[..r] + [rows[r]] + rows[r + 1..];
    assert rows[r := row] == rows[..r] + [row] + rows[r + 1..];
    FlatThree(rows[..r], [rows[r]], rows[r + 1..]);
    FlatThree(rows[..r], [row], rows[r + 1..]);
    FlatOne(row);
    FlatOne(rows[r]);
    FlatLength(rows[..r], width);
    SpliceParts(before, rows[r], behind, column, |part|);
  }

  /** Sizes of whole rows agree exactly when the row counts do. */
  lemma SameCount(a: nat, b: nat, width: nat)
    requires width > 0
    ensures a * width == b * width <==> a == b
  {
  }
}
