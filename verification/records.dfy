/** Plain optional-value and result datatypes used across the model. */
module Wrappers {
  datatype Option<+T> = None | Some(value: T)

  datatype Result<+T, +E> = Ok(value: T) | Err(error: E)
}

/**
 * A team's running record after one of its games, as the season ledger
 * stores it in data/collect-data.py: cumulative wins, the absolute
 * distance from an even (.500) record counted in games, and a label.
 */
module Records {

  type Team = string

  /** The labels 'winning', 'losing' and '500'. */
  datatype RecordKind = Winning | Losing | Even

  datatype Entry = Entry(wins: int, dist: int, kind: RecordKind)

  /** All teams' entries at one game number. */
  type Row = map<Team, Entry>

  /**
   * The entry for a record of `wins` and `losses`: the distance is
   * wins minus losses taken absolutely, and the label is its sign.
   */
  function Classify(wins: int, losses: int): (e: Entry)
    ensures e.wins == wins
    ensures e.dist >= 0 && (e.dist == wins - losses || e.dist == losses - wins)
    ensures e.kind == Winning <==> wins > losses
    ensures e.kind == Losing <==> wins < losses
    ensures e.kind == Even <==> e.dist == 0
  {
    var diff := wins - losses;
    var kind := if diff > 0 then Winning else if diff < 0 then Losing else Even;
    Entry(wins, if diff < 0 then -diff else diff, kind)
  }

  /**
   * An entry is well formed at game number `g` when its wins lie in 0..g
   * and it is the classification of those wins against g - wins losses.
   */
  ghost predicate WellFormed(e: Entry, g: int)
  {
    0 <= e.wins <= g && e == Classify(e.wins, g - e.wins)
  }

  lemma WellFormedBounds(e: Entry, g: int)
    requires WellFormed(e, g)
    ensures 0 <= e.dist <= g
    ensures e.kind == Losing ==> e.dist >= 1
    ensures 0 <= e.wins <= g
  {
  }

  /** Sum of the distances from .500 over a row. */
  ghost function TotalDist(row: Row): int
    decreases |row|
  {
    if row == map[] then 0
    else
      var t :| t in row;
      row[t].dist + TotalDist(row - {t})
  }

  /** The sum does not depend on which team is taken out first. */
  lemma {:induction false} TotalDistRemove(row: Row, k: Team)
    requires k in row
    ensures TotalDist(row) == row[k].dist + TotalDist(row - {k})
    decreases |row|
  {
    var t :| t in row && TotalDist(row) == row[t].dist + TotalDist(row - {t});
    if t != k {
      var rest := row - {t};
      TotalDistRemove(rest, k);
      TotalDistRemove(row - {k}, t);
      assert rest - {k} == (row - {k}) - {t};
    }
  }

  lemma TotalDistInsert(row: Row, k: Team, e: Entry)
    requires k !in row
    ensures TotalDist(row[k := e]) == TotalDist(row) + e.dist
  {
    TotalDistRemove(row[k := e], k);
    assert row[k := e] - {k} == row;
  }

  /** Every distance in [lo, hi] bounds the sum by the row size times lo and hi. */
  lemma {:induction false} TotalDistBounds(row: Row, lo: int, hi: int)
    requires forall t :: t in row ==> lo <= row[t].dist <= hi
    ensures |row| * lo <= TotalDist(row) <= |row| * hi
    decreases |row|
  {
    if row != map[] {
      var t :| t in row;
      TotalDistRemove(row, t);
      var rest := row - {t};
      assert |rest| == |row| - 1;
      TotalDistBounds(rest, lo, hi);
      MulSucc(|rest|, lo);
      MulSucc(|rest|, hi);
    }
  }

  lemma MulSucc(n: int, x: int)
    ensures (n + 1) * x == n * x + x
  {
  }

  /** A subset of teams is no larger than the set it is drawn from. */
  lemma {:induction false} SubsetCard(a: set<Team>, b: set<Team>)
    requires a <= b
    ensures |a| <= |b|
    decreases |a|
  {
    if a != {} {
      var x :| x in a;
      SubsetCard(a - {x}, b - {x});
    }
  }

  /** The mean distance from .500 over a non-empty row. */
  ghost function MeanDist(row: Row): real
    requires row != map[]
  {
    (TotalDist(row) as real) / (|row| as real)
  }

  /** If every distance in a non-empty row lies in lo..hi, so does their mean. */
  lemma MeanDistBounds(row: Row, lo: int, hi: int)
    requires row != map[]
    requires forall t :: t in row ==> lo <= row[t].dist <= hi
    ensures lo as real <= MeanDist(row) <= hi as real
  {
    TotalDistBounds(row, lo, hi);
    MeanOfBounded(TotalDist(row), |row|, lo, hi);
  }

  /** A total between n * lo and n * hi, shared out over n, lies between lo and hi. */
  lemma MeanOfBounded(total: int, n: int, lo: int, hi: int)
    requires n > 0 && n * lo <= total <= n * hi
    ensures lo as real <= (total as real) / (n as real) <= hi as real
  {
    RealMul(n, lo);
    RealMul(n, hi);
    MeanBetween(total as real, n as real, lo as real, hi as real);
  }

  lemma RealMul(a: int, b: int)
    ensures (a * b) as real == (a as real) * (b as real)
  {
  }

  lemma MeanBetween(x: real, n: real, lo: real, hi: real)
    requires n > 0.0 && n * lo <= x <= n * hi
    ensures lo <= x / n <= hi
  {
    assert x / n * n == x;
  }
}
