/** Edit distance between two rune sequences: the two-row dynamic-programming table of
    `apps/_davo/util/strings.go`, proved against shortest edit scripts.

    A script is any list of single-rune edits, each applied anywhere in what the previous edits
    left. `Dist` is the textbook recurrence, used only as the bridge between the table and scripts.
 */
module EditDistance {

  datatype Edit =
    | Insert(at: nat, c: char)
    | Delete(at: nat)
    | Substitute(at: nat, c: char)

  predicate Fits(e: Edit, s: string) {
    match e
    case Insert(at, _) => at <= |s|
    case Delete(at) => at < |s|
    case Substitute(at, _) => at < |s|
  }

  function Applied(e: Edit, s: string): string
    requires Fits(e, s)
  {
    match e
    case Insert(at, c) => s[..at] + [c] + s[at..]
    case Delete(at) => s[..at] + s[at + 1..]
    case Substitute(at, c) => s[..at] + [c] + s[at + 1..]
  }

  /** `script`, applied edit by edit to `a`, ends in `b`. */
  predicate Rewrites(script: seq<Edit>, a: string, b: string) {
    if script == [] then a == b
    else Fits(script[0], a) && Rewrites(script[1..], Applied(script[0], a), b)
  }

  /** `d` is the length of a shortest script: one of that length exists, none is shorter. */
  ghost predicate IsShortest(d: nat, a: string, b: string) {
    && (exists s :: |s| == d && Rewrites(s, a, b))
    && (forall s :: Rewrites(s, a, b) ==> d <= |s|)
  }

  function Min3(a: int, b: int, c: int): (m: int)
    ensures m <= a && m <= b && m <= c && (m == a || m == b || m == c)
  {
    var m := if b < a then b else a;
    if c < m then c else m
  }

  /** The cell (i, j) of the textbook table: the first `i` runes of `a` against the first `j` of `b`. */
  function Cell(a: string, b: string, i: nat, j: nat): nat
    requires i <= |a| && j <= |b|
  {
    if i == 0 then j
    else if j == 0 then i
    else Min3(Cell(a, b, i - 1, j) + 1, Cell(a, b, i, j - 1) + 1,
              Cell(a, b, i - 1, j - 1) + if a[i - 1] == b[j - 1] then 0 else 1)
  }

  function Dist(a: string, b: string): nat {
    Cell(a, b, |a|, |b|)
  }

  /** The first `n` entries of `row` are those of row `i` of the table. */
  ghost predicate IsRow(row: seq<nat>, n: nat, a: string, b: string, i: nat)
    requires i <= |a| && n <= |b| + 1
  {
    n <= |row| && forall j :: 0 <= j < n ==> row[j] == Cell(a, b, i, j)
  }

  lemma NextEntry(above: seq<nat>, row: seq<nat>, a: string, b: string, i: nat, j: nat)
    requires 1 <= i <= |a| && 1 <= j <= |b|
    requires IsRow(above, |b| + 1, a, b, i - 1) && IsRow(row, j, a, b, i)
    ensures Min3(above[j] + 1, row[j - 1] + 1, above[j - 1] + if a[i - 1] == b[j - 1] then 0 else 1)
         == Cell(a, b, i, j)
  {}

  /** The inner loop: one row of the table from the one above it. */
  method FillRow(a: string, b: string, i: nat, prev: array<nat>, curr: array<nat>)
    requires 1 <= i <= |a| && prev != curr && prev.Length == curr.Length == |b| + 1
    requires IsRow(prev[..], |b| + 1, a, b, i - 1)
    modifies curr
    ensures IsRow(curr[..], |b| + 1, a, b, i)
  {
    curr[0] := i;
    var j := 1;
    while j <= |b|
      invariant 1 <= j <= |b| + 1
      invariant IsRow(curr[..], j, a, b, i)
    {
      NextEntry(prev[..], curr[..], a, b, i, j);
      var cost := if a[i - 1] == b[j - 1] then 0 else 1;
      curr[j] := Min3(prev[j] + 1, curr[j - 1] + 1, prev[j - 1] + cost);
      j := j + 1;
    }
  }

  method FirstRow(a: string, b: string) returns (row: array<nat>)
    ensures fresh(row) && row.Length == |b| + 1 && IsRow(row[..], |b| + 1, a, b, 0)
  {
    row := new nat[|b| + 1](j => j);
  }

  /** The program: two rows, overwritten and swapped. */
  method Levenshtein(a: string, b: string) returns (d: nat)
    ensures d == Dist(a, b)
    ensures IsShortest(d, a, b)
  {
    var prev := FirstRow(a, b);
    var curr := new nat[|b| + 1](_ => 0);
    var i := 1;
    while i <= |a|
      invariant 1 <= i <= |a| + 1
      invariant prev.Length == curr.Length == |b| + 1 && prev != curr
      invariant fresh(prev) && fresh(curr)
      invariant IsRow(prev[..], |b| + 1, a, b, i - 1)
    {
      FillRow(a, b, i, prev, curr);
      prev, curr := curr, prev;
      i := i + 1;
    }
    CornerIsShortest(prev[..], a, b);
    d := prev[|b|];
  }

  lemma CornerIsShortest(row: seq<nat>, a: string, b: string)
    requires IsRow(row, |b| + 1, a, b, |a|)
    ensures row[|b|] == Dist(a, b) && IsShortest(row[|b|], a, b)
  {
    DistIsShortest(a, b);
  }

  // ----- scripts

  lemma {:induction false} Concatenated(s: seq<Edit>, t: seq<Edit>, a: string, b: string, c: string)
    requires Rewrites(s, a, b) && Rewrites(t, b, c)
    ensures Rewrites(s + t, a, c)
  {
    if s == [] {
      assert s + t == t;
    } else {
      Concatenated(s[1..], t, Applied(s[0], a), b, c);
      assert (s + t)[1..] == s[1..] + t;
    }
  }

  /** A script works unchanged in front of one more rune. */
  lemma {:induction false} Lifted(s: seq<Edit>, a: string, b: string, x: char)
    requires Rewrites(s, a, b)
    ensures Rewrites(s, a + [x], b + [x])
  {
    if s != [] {
      assert Applied(s[0], a + [x]) == Applied(s[0], a) + [x];
      Lifted(s[1..], Applied(s[0], a), b, x);
    }
  }

  /** `s` is a script of the length cell (i, j) says, for the prefixes it stands for. */
  ghost predicate Stands(s: seq<Edit>, a: string, b: string, i: nat, j: nat) {
    i <= |a| && j <= |b| && |s| == Cell(a, b, i, j) && Rewrites(s, a[..i], b[..j])
  }

  lemma InsertLast(s: seq<Edit>, a: string, b: string, i: nat, j: nat)
    requires 0 < j <= |b| && Stands(s, a, b, i, j - 1) && Cell(a, b, i, j) == Cell(a, b, i, j - 1) + 1
    ensures Stands(s + [Insert(j - 1, b[j - 1])], a, b, i, j)
  {
    var e := Insert(j - 1, b[j - 1]);
    assert Applied(e, b[..j - 1]) == b[..j];
    assert [e][1..] == [];
    Concatenated(s, [e], a[..i], b[..j - 1], b[..j]);
  }

  lemma DeleteLast(s: seq<Edit>, a: string, b: string, i: nat, j: nat)
    requires 0 < i <= |a| && Stands(s, a, b, i - 1, j) && Cell(a, b, i, j) == Cell(a, b, i - 1, j) + 1
    ensures Stands([Delete(i - 1)] + s, a, b, i, j)
  {
    assert Applied(Delete(i - 1), a[..i]) == a[..i - 1];
    assert ([Delete(i - 1)] + s)[1..] == s;
  }

  lemma Peel(s: string, i: nat)
    requires 0 < i <= |s|
    ensures s[..i] == s[..i - 1] + [s[i - 1]]
  {}

  lemma KeepLast(s: seq<Edit>, a: string, b: string, i: nat, j: nat)
    requires 0 < i <= |a| && 0 < j <= |b| && a[i - 1] == b[j - 1]
    requires Stands(s, a, b, i - 1, j - 1) && Cell(a, b, i, j) == Cell(a, b, i - 1, j - 1)
    ensures Stands(s, a, b, i, j)
  {
    Lifted(s, a[..i - 1], b[..j - 1], b[j - 1]);
    Peel(a, i);
    Peel(b, j);
  }

  lemma SubstituteLast(s: seq<Edit>, a: string, b: string, i: nat, j: nat)
    requires 0 < i <= |a| && 0 < j <= |b|
    requires Stands(s, a, b, i - 1, j - 1) && Cell(a, b, i, j) == Cell(a, b, i - 1, j - 1) + 1
    ensures Stands([Substitute(i - 1, b[j - 1])] + s, a, b, i, j)
  {
    var y := b[j - 1];
    Lifted(s, a[..i - 1], b[..j - 1], y);
    Peel(b, j);
    assert Applied(Substitute(i - 1, y), a[..i]) == a[..i - 1] + [y];
    assert ([Substitute(i - 1, y)] + s)[1..] == s;
  }

  datatype Move = Inserted | Deleted | Kept | Substituted

  /** Which of its neighbours a cell other than the corner (0, 0) comes from. */
  function MoveAt(a: string, b: string, i: nat, j: nat): Move
    requires i <= |a| && j <= |b| && i + j > 0
    ensures MoveAt(a, b, i, j).Inserted? ==> j > 0 && Cell(a, b, i, j) == Cell(a, b, i, j - 1) + 1
    ensures MoveAt(a, b, i, j).Deleted? ==> i > 0 && Cell(a, b, i, j) == Cell(a, b, i - 1, j) + 1
    ensures MoveAt(a, b, i, j).Kept? ==> i > 0 && j > 0 && a[i - 1] == b[j - 1] && Cell(a, b, i, j) == Cell(a, b, i - 1, j - 1)
    ensures MoveAt(a, b, i, j).Substituted? ==> i > 0 && j > 0 && Cell(a, b, i, j) == Cell(a, b, i - 1, j - 1) + 1
  {
    if i == 0 || (j != 0 && Cell(a, b, i, j) == Cell(a, b, i, j - 1) + 1) then Inserted
    else if j == 0 || Cell(a, b, i, j) == Cell(a, b, i - 1, j) + 1 then Deleted
    else if a[i - 1] == b[j - 1] then Kept
    else Substituted
  }

  /** A script the table stands for, read back from cell (i, j). */
  lemma {:induction false} ScriptFor(a: string, b: string, i: nat, j: nat) returns (s: seq<Edit>)
    requires i <= |a| && j <= |b|
    ensures Stands(s, a, b, i, j)
    decreases i + j
  {
    if i + j == 0 {
      return [];
    }
    match MoveAt(a, b, i, j)
    case Inserted =>
      s := ScriptFor(a, b, i, j - 1);
      InsertLast(s, a, b, i, j);
      s := s + [Insert(j - 1, b[j - 1])];
    case Deleted =>
      s := ScriptFor(a, b, i - 1, j);
      DeleteLast(s, a, b, i, j);
      s := [Delete(i - 1)] + s;
    case Kept =>
      s := ScriptFor(a, b, i - 1, j - 1);
      KeepLast(s, a, b, i, j);
    case Substituted =>
      s := ScriptFor(a, b, i - 1, j - 1);
      SubstituteLast(s, a, b, i, j);
      s := [Substitute(i - 1, b[j - 1])] + s;
  }

  lemma ScriptOf(a: string, b: string) returns (s: seq<Edit>)
    ensures |s| == Dist(a, b) && Rewrites(s, a, b)
  {
    s := ScriptFor(a, b, |a|, |b|);
    assert a[..|a|] == a && b[..|b|] == b;
  }

  // ----- one edit moves the table by at most one

  lemma {:induction false} SamePrefix(a: string, a': string, b: string, i: nat, j: nat)
    requires i <= |a| && i <= |a'| && j <= |b|
    requires forall k :: 0 <= k < i ==> a[k] == a'[k]
    ensures Cell(a, b, i, j) == Cell(a', b, i, j)
  {
    if i != 0 && j != 0 {
      SamePrefix(a, a', b, i - 1, j);
      SamePrefix(a, a', b, i, j - 1);
      SamePrefix(a, a', b, i - 1, j - 1);
    }
  }

  lemma {:induction false} AdjacentRows(a: string, b: string, i: nat, j: nat)
    requires i < |a| && j <= |b|
    ensures -1 <= Cell(a, b, i + 1, j) - Cell(a, b, i, j) <= 1
  {
    if j != 0 {
      AdjacentRows(a, b, i, j - 1);
      assert i != 0 ==> Cell(a, b, i, j) <= Cell(a, b, i, j - 1) + 1;
    }
  }

  /** Cell (i, j) of one table and cell (i', j) of another differ by at most one. */
  ghost predicate Near(a: string, i: nat, a': string, i': nat, b: string, j: nat) {
    i <= |a| && i' <= |a'| && j <= |b| && -1 <= Cell(a', b, i', j) - Cell(a, b, i, j) <= 1
  }

  lemma NearFromNeighbours(a: string, i: nat, a': string, i': nat, b: string, j: nat)
    requires 0 < i <= |a| && 0 < i' <= |a'| && 0 < j <= |b| && a[i - 1] == a'[i' - 1]
    requires Near(a, i - 1, a', i' - 1, b, j) && Near(a, i, a', i', b, j - 1) && Near(a, i - 1, a', i' - 1, b, j - 1)
    ensures Near(a, i, a', i', b, j)
  {}

  lemma NearAtInsertion(a: string, longer: string, p: nat, b: string, j: nat)
    requires p <= |a| && |longer| == |a| + 1 && j <= |b|
    requires forall k :: 0 <= k < p ==> longer[k] == a[k]
    ensures Near(a, p, longer, p + 1, b, j)
  {
    SamePrefix(a, longer, b, p, j);
    AdjacentRows(longer, b, p, j);
  }

  /** `longer` is `a` with one more rune at `p`. */
  lemma {:induction false} InsertMovesByOne(a: string, longer: string, p: nat, b: string, i: nat, j: nat)
    requires |longer| == |a| + 1 && p <= i <= |a| && j <= |b|
    requires forall k :: 0 <= k < p ==> longer[k] == a[k]
    requires forall k :: p <= k < |a| ==> longer[k + 1] == a[k]
    ensures Near(a, i, longer, i + 1, b, j)
    decreases i + j
  {
    if i == p {
      NearAtInsertion(a, longer, p, b, j);
    } else if j != 0 {
      InsertMovesByOne(a, longer, p, b, i - 1, j);
      InsertMovesByOne(a, longer, p, b, i, j - 1);
      InsertMovesByOne(a, longer, p, b, i - 1, j - 1);
      assert longer[i - 1 + 1] == a[i - 1];
      NearFromNeighbours(a, i, longer, i + 1, b, j);
    }
  }

  /** Cell (i, j) of one table is at most one over that of another. */
  ghost predicate Under(a: string, a': string, b: string, i: nat, j: nat) {
    i <= |a| && i <= |a'| && j <= |b| && Cell(a, b, i, j) <= Cell(a', b, i, j) + 1
  }

  lemma UnderFromNeighbours(a: string, a': string, b: string, i: nat, j: nat)
    requires 0 < i <= |a| && i <= |a'| && 0 < j <= |b| && a[i - 1] == a'[i - 1]
    requires Under(a, a', b, i - 1, j) && Under(a, a', b, i, j - 1) && Under(a, a', b, i - 1, j - 1)
    ensures Under(a, a', b, i, j)
  {}

  lemma UnderAtSubstitution(a: string, a': string, b: string, i: nat, j: nat)
    requires 0 < i <= |a| && i <= |a'| && 0 < j <= |b| && Under(a, a', b, i, j - 1)
    requires forall k :: 0 <= k < i - 1 ==> a[k] == a'[k]
    ensures Under(a, a', b, i, j)
  {
    SamePrefix(a, a', b, i - 1, j);
    SamePrefix(a, a', b, i - 1, j - 1);
  }

  lemma {:induction false} SubstituteMovesByOne(a: string, a': string, p: nat, b: string, i: nat, j: nat)
    requires |a| == |a'| && i <= |a| && j <= |b|
    requires forall k :: 0 <= k < |a| && k != p ==> a[k] == a'[k]
    ensures Under(a, a', b, i, j)
    decreases i + j
  {
    if i != 0 && j != 0 {
      SubstituteMovesByOne(a, a', p, b, i, j - 1);
      if i - 1 == p {
        UnderAtSubstitution(a, a', b, i, j);
      } else {
        SubstituteMovesByOne(a, a', p, b, i - 1, j);
        SubstituteMovesByOne(a, a', p, b, i - 1, j - 1);
        UnderFromNeighbours(a, a', b, i, j);
      }
    }
  }

  lemma EditMovesByOne(e: Edit, a: string, b: string)
    requires Fits(e, a)
    ensures Dist(a, b) <= Dist(Applied(e, a), b) + 1
  {
    var a' := Applied(e, a);
    match e
    case Insert(at, _) => InsertMovesByOne(a, a', at, b, |a|, |b|);
    case Delete(at) => InsertMovesByOne(a', a, at, b, |a'|, |b|);
    case Substitute(at, _) => SubstituteMovesByOne(a, a', at, b, |a|, |b|);
  }

  lemma {:induction false} Diagonal(a: string, i: nat)
    requires i <= |a|
    ensures Cell(a, a, i, i) == 0
  {
    if i != 0 {
      Diagonal(a, i - 1);
    }
  }

  lemma {:induction false} NoScriptIsShorter(s: seq<Edit>, a: string, b: string)
    requires Rewrites(s, a, b)
    ensures Dist(a, b) <= |s|
  {
    if s == [] {
      Diagonal(a, |a|);
    } else {
      NoScriptIsShorter(s[1..], Applied(s[0], a), b);
      EditMovesByOne(s[0], a, b);
    }
  }

  lemma DistIsShortest(a: string, b: string)
    ensures IsShortest(Dist(a, b), a, b)
  {
    var s := ScriptOf(a, b);
    forall t | Rewrites(t, a, b) ensures Dist(a, b) <= |t| {
      NoScriptIsShorter(t, a, b);
    }
  }

  // ----- hence a metric

  lemma SymmetricFromNeighbours(a: string, b: string, i: nat, j: nat)
    requires 0 < i <= |a| && 0 < j <= |b|
    requires Cell(a, b, i - 1, j) == Cell(b, a, j, i - 1) && Cell(a, b, i, j - 1) == Cell(b, a, j - 1, i)
    requires Cell(a, b, i - 1, j - 1) == Cell(b, a, j - 1, i - 1)
    ensures Cell(a, b, i, j) == Cell(b, a, j, i)
  {}

  lemma {:induction false} SymmetricCell(a: string, b: string, i: nat, j: nat)
    requires i <= |a| && j <= |b|
    ensures Cell(a, b, i, j) == Cell(b, a, j, i)
  {
    if i != 0 && j != 0 {
      SymmetricCell(a, b, i - 1, j);
      SymmetricCell(a, b, i, j - 1);
      SymmetricCell(a, b, i - 1, j - 1);
      SymmetricFromNeighbours(a, b, i, j);
    }
  }

  lemma Symmetric(a: string, b: string)
    ensures Dist(a, b) == Dist(b, a)
  {
    SymmetricCell(a, b, |a|, |b|);
  }

  lemma ZeroIffEqual(a: string, b: string)
    ensures Dist(a, b) == 0 <==> a == b
  {
    Diagonal(a, |a|);
    var s := ScriptOf(a, b);
  }

  lemma Triangle(a: string, b: string, c: string)
    ensures Dist(a, c) <= Dist(a, b) + Dist(b, c)
  {
    var s := ScriptOf(a, b);
    var t := ScriptOf(b, c);
    Concatenated(s, t, a, b, c);
    NoScriptIsShorter(s + t, a, c);
  }

  lemma {:induction false} BoundedCell(a: string, b: string, i: nat, j: nat)
    requires i <= |a| && j <= |b|
    ensures i - j <= Cell(a, b, i, j) && j - i <= Cell(a, b, i, j)
    ensures Cell(a, b, i, j) <= i || Cell(a, b, i, j) <= j
  {
    if i != 0 && j != 0 {
      BoundedCell(a, b, i - 1, j - 1);
      BoundedCell(a, b, i - 1, j);
      BoundedCell(a, b, i, j - 1);
    }
  }

  lemma Bounded(a: string, b: string)
    ensures |a| - |b| <= Dist(a, b) && |b| - |a| <= Dist(a, b)
    ensures Dist(a, b) <= if |a| < |b| then |b| else |a|
  {
    BoundedCell(a, b, |a|, |b|);
  }
}
