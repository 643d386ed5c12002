/** The prediction table the viewer reads from its CSV file, and the pandas
    operations it applies to it: boolean masks, unique(), iloc[0] and
    sort_values(by='new_norm_prob', ascending=False). */
module Table {
  import opened Wrappers

  /** The side a row or a ply belongs to. */
  datatype Colour = White | Black

  /** How column white_or_black spells a colour. */
  function Marker(c: Colour): string
  {
    if c == White then "." else "..."
  }

  /** One CSV row: columns movenumber, white_or_black, prediction, is_played,
      new_norm_prob and win_percentage. The two percentages are only ever
      compared or shown, so they are kept as reals. */
  datatype Row = Row(
    moveNumber: int,
    marker: string,
    prediction: string,
    isPlayed: int,
    normProb: real,
    winPercentage: real)

  /** df[mask]: the elements that satisfy keep, in their original order. */
  function Filter<T>(s: seq<T>, keep: T -> bool): (r: seq<T>)
    ensures |r| <= |s|
  {
    if s == [] then [] else (if keep(s[0]) then [s[0]] else []) + Filter(s[1..], keep)
  }

  /** A mask keeps every occurrence of an element it accepts and none of an
      element it rejects. */
  lemma {:induction false} FilterContents<T(!new)>(s: seq<T>, keep: T -> bool)
    ensures forall x :: multiset(Filter(s, keep))[x] == if keep(x) then multiset(s)[x] else 0
    ensures forall x :: x in Filter(s, keep) <==> x in s && keep(x)
  {
    if s != [] {
      FilterContents(s[1..], keep);
      assert s == [s[0]] + s[1..];
    }
  }

  predicate IsPlayed(r: Row) { r.isPlayed == 1 }

  function NumberIs(n: int): Row -> bool { (r: Row) => r.moveNumber == n }

  function MarkerIs(m: string): Row -> bool { (r: Row) => r.marker == m }

  /** The mask of show_move_details: this move number and this colour. */
  function IsCandidate(n: int, c: Colour): Row -> bool
  {
    (r: Row) => r.moveNumber == n && r.marker == Marker(c)
  }

  /** df[df['is_played'] == 1] */
  function Played(rows: seq<Row>): seq<Row>
  {
    Filter(rows, IsPlayed)
  }

  /** The column df['movenumber']. */
  function MoveNumbers(rows: seq<Row>): seq<int>
  {
    seq(|rows|, i requires 0 <= i < |rows| => rows[i].moveNumber)
  }

  /** Series.unique(): each value once, in order of first appearance. */
  function Distinct<T(==,!new)>(xs: seq<T>): (r: seq<T>)
    ensures forall x :: x in r <==> x in xs
    ensures forall i, j :: 0 <= i < j < |r| ==> r[i] != r[j]
  {
    if xs == [] then []
    else
      var d := Distinct(xs[..|xs| - 1]);
      assert xs == xs[..|xs| - 1] + [xs[|xs| - 1]];
      if xs[|xs| - 1] in d then d else d + [xs[|xs| - 1]]
  }

  /** The position of the first occurrence of x in xs. */
  function FirstIndex<T(==)>(xs: seq<T>, x: T): (k: nat)
    requires x in xs
    ensures k < |xs| && xs[k] == x
    ensures forall j :: 0 <= j < k ==> xs[j] != x
  {
    if xs[0] == x then 0 else 1 + FirstIndex(xs[1..], x)
  }

  /** unique() keeps the order in which values first appear: of two values
      it returns, the earlier one occurs first in the input. */
  lemma {:induction false} DistinctKeepsFirstAppearance<T(!new)>(xs: seq<T>)
    ensures forall i, j :: 0 <= i < j < |Distinct(xs)| ==>
      FirstIndex(xs, Distinct(xs)[i]) < FirstIndex(xs, Distinct(xs)[j])
  {
    if xs != [] {
      var init, last := xs[..|xs| - 1], xs[|xs| - 1];
      assert xs == init + [last];
      DistinctKeepsFirstAppearance(init);
      var d := Distinct(init);
      forall x | x in init
        ensures FirstIndex(xs, x) == FirstIndex(init, x)
      {
        var a, b := FirstIndex(xs, x), FirstIndex(init, x);
        assert xs[b] == x;
      }
      if last !in d {
        assert FirstIndex(xs, last) == |init|;
        forall i | 0 <= i < |d|
          ensures FirstIndex(xs, d[i]) < |init|
        {
          assert d[i] in init;
        }
      }
    }
  }

  /** Played as white (n, ".") or black (n, "...") in move n. */
  predicate PlayedAs(r: Row, n: int, m: string)
  {
    r.isPlayed == 1 && r.moveNumber == n && r.marker == m
  }

  /** The position of the first played row of move n with marker m, if any. */
  function FirstPlayedIndex(rows: seq<Row>, n: int, m: string): (r: Option<nat>)
    ensures r.Some? ==> r.value < |rows| && PlayedAs(rows[r.value], n, m)
    ensures r.Some? ==> forall j :: 0 <= j < r.value ==> !PlayedAs(rows[j], n, m)
    ensures r.None? ==> forall j :: 0 <= j < |rows| ==> !PlayedAs(rows[j], n, m)
  {
    if rows == [] then None
    else if PlayedAs(rows[0], n, m) then Some(0)
    else match FirstPlayedIndex(rows[1..], n, m)
      case Some(k) => Some(k + 1)
      case None => None
  }

  /** rows['prediction'].iloc[0] if not rows.empty else default */
  function FirstPredictionOr(rows: seq<Row>, default: string): string
  {
    if rows != [] then rows[0].prediction else default
  }

  /** A mask applied to a row in front of others keeps that row first or drops it. */
  lemma FilterCons<T(!new)>(x: T, s: seq<T>, keep: T -> bool)
    ensures Filter([x] + s, keep) == (if keep(x) then [x] else []) + Filter(s, keep)
  {
    assert ([x] + s)[1..] == s;
  }

  /** Taking the first row of the three chained masks of load_file (played,
      then this move number, then this marker) picks the first played row of
      that move and colour in the whole table. */
  lemma {:induction false} FirstOfMasksIsFirstPlayed(rows: seq<Row>, n: int, m: string, default: string)
    ensures FirstPredictionOr(Filter(Filter(Played(rows), NumberIs(n)), MarkerIs(m)), default)
      == match FirstPlayedIndex(rows, n, m)
         case Some(k) => rows[k].prediction
         case None => default
  {
    if rows != [] {
      var r, rest := rows[0], rows[1..];
      FirstOfMasksIsFirstPlayed(rest, n, m, default);
      assert rows == [r] + rest;
      var masked := Filter(Filter(Played(rest), NumberIs(n)), MarkerIs(m));
      FilterCons(r, rest, IsPlayed);
      if !IsPlayed(r) {
        assert Played(rows) == Played(rest);
      } else {
        assert Played(rows) == [r] + Played(rest);
        FilterCons(r, Played(rest), NumberIs(n));
        if r.moveNumber != n {
          assert !NumberIs(n)(r);
          assert Filter(Played(rows), NumberIs(n)) == Filter(Played(rest), NumberIs(n));
        } else {
          assert NumberIs(n)(r);
          assert Filter(Played(rows), NumberIs(n)) == [r] + Filter(Played(rest), NumberIs(n));
          FilterCons(r, Filter(Played(rest), NumberIs(n)), MarkerIs(m));
          if r.marker != m {
            assert !MarkerIs(m)(r);
          } else {
            assert MarkerIs(m)(r);
          }
        }
      }
      if !PlayedAs(r, n, m) {
        assert Filter(Filter(Played(rows), NumberIs(n)), MarkerIs(m)) == masked;
        match FirstPlayedIndex(rest, n, m)
        case Some(k) => assert rows[k + 1] == rest[k];
        case None =>
      }
    }
  }

  /** Every probability is at least the next one: descending order. */
  predicate NonIncreasing(rows: seq<Row>)
  {
    forall i, j :: 0 <= i < j < |rows| ==> rows[i].normProb >= rows[j].normProb
  }

  /** No row of rows has a probability above p. */
  predicate AtMost(p: real, rows: seq<Row>)
  {
    forall j :: 0 <= j < |rows| ==> rows[j].normProb <= p
  }

  /** A bound on the probabilities holds for any reordering of the rows. */
  lemma AtMostOfSameRows(p: real, s: seq<Row>, t: seq<Row>)
    requires AtMost(p, s) && multiset(t) == multiset(s)
    ensures AtMost(p, t)
  {
    forall j | 0 <= j < |t|
      ensures t[j].normProb <= p
    {
      assert t[j] in multiset(s);
      var i :| 0 <= i < |s| && s[i] == t[j];
    }
  }

  /** Puts r in front of the first row whose probability it reaches. */
  function InsertByProb(r: Row, rows: seq<Row>): seq<Row>
  {
    if rows == [] then [r]
    else if r.normProb >= rows[0].normProb then [r] + rows
    else [rows[0]] + InsertByProb(r, rows[1..])
  }

  /** Inserting a row adds exactly that row. */
  lemma {:induction false} InsertByProbAddsRow(r: Row, rows: seq<Row>)
    ensures multiset(InsertByProb(r, rows)) == multiset(rows) + multiset{r}
  {
    if rows != [] && r.normProb < rows[0].normProb {
      InsertByProbAddsRow(r, rows[1..]);
      assert rows == [rows[0]] + rows[1..];
    }
  }

  /** Inserting one row into a descending sequence keeps it descending. */
  lemma {:induction false} InsertByProbKeepsOrder(r: Row, rows: seq<Row>)
    requires NonIncreasing(rows)
    ensures NonIncreasing(InsertByProb(r, rows))
  {
    if rows == [] {
    } else if r.normProb >= rows[0].normProb {
      assert AtMost(r.normProb, rows);
      PrependKeepsOrder(r, rows);
    } else {
      var tail := InsertByProb(r, rows[1..]);
      InsertByProbKeepsOrder(r, rows[1..]);
      InsertByProbAddsRow(r, rows[1..]);
      assert multiset(tail) == multiset(rows[1..] + [r]);
      AtMostOfSameRows(rows[0].normProb, rows[1..] + [r], tail);
      PrependKeepsOrder(rows[0], tail);
    }
  }

  /** A row at least as likely as every row of a descending sequence can
      go in front of it. */
  lemma PrependKeepsOrder(x: Row, s: seq<Row>)
    requires AtMost(x.normProb, s) && NonIncreasing(s)
    ensures NonIncreasing([x] + s)
  {
    forall i, j | 0 <= i < j < |[x] + s|
      ensures ([x] + s)[i].normProb >= ([x] + s)[j].normProb
    {
      if i > 0 {
        assert ([x] + s)[i] == s[i - 1];
      }
      assert ([x] + s)[j] == s[j - 1];
    }
  }

  /** sort_values(by='new_norm_prob', ascending=False): the same rows, in
      descending order of probability. */
  function SortByProb(rows: seq<Row>): (s: seq<Row>)
    ensures multiset(s) == multiset(rows)
    ensures NonIncreasing(s)
  {
    if rows == [] then []
    else
      assert rows == [rows[0]] + rows[1..];
      InsertByProbAddsRow(rows[0], SortByProb(rows[1..]));
      InsertByProbKeepsOrder(rows[0], SortByProb(rows[1..]));
      InsertByProb(rows[0], SortByProb(rows[1..]))
  }
}
