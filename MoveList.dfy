/** The move list of the viewer: the played plies grouped by move number, the
    text of each list entry, and the index-to-colour dictionary beside it. */
module MoveList {
  import opened Wrappers
  import opened NumberText
  import opened Table

  /** One entry of the move list: a move number, a side and the move played. */
  datatype Ply = Ply(number: int, colour: Colour, move: string)

  /** The text load_file uses when a side has no played row, and the text
      that suppresses a black entry. */
  const Placeholder: string := "..."

  /** move is what load_file shows for side m of move n: the prediction of
      one of the played rows with that number and marker, or the placeholder
      when there is none. */
  predicate PickedFrom(played: seq<Row>, n: int, m: string, move: string)
  {
    if exists r :: r in played && r.moveNumber == n && r.marker == m
    then exists r :: r in played && r.moveNumber == n && r.marker == m && r.prediction == move
    else move == Placeholder
  }

  /** The prediction of the first row the number and marker masks keep, or
      the placeholder. */
  function MaskedMove(played: seq<Row>, n: int, m: string): (move: string)
    ensures PickedFrom(played, n, m, move)
  {
    MasksPick(played, n, m);
    FirstPredictionOr(Filter(Filter(played, NumberIs(n)), MarkerIs(m)), Placeholder)
  }

  lemma MasksPick(played: seq<Row>, n: int, m: string)
    ensures PickedFrom(played, n, m, FirstPredictionOr(Filter(Filter(played, NumberIs(n)), MarkerIs(m)), Placeholder))
  {
    var f := Filter(Filter(played, NumberIs(n)), MarkerIs(m));
    FilterContents(played, NumberIs(n));
    FilterContents(Filter(played, NumberIs(n)), MarkerIs(m));
    assert f != [] ==> f[0] in f;
  }

  /** The first played white prediction of move n, or the placeholder. */
  function WhiteMove(played: seq<Row>, n: int): (move: string)
    ensures PickedFrom(played, n, Marker(White), move)
  {
    MaskedMove(played, n, Marker(White))
  }

  /** The first played black prediction of move n, or the placeholder. */
  function BlackMove(played: seq<Row>, n: int): (move: string)
    ensures PickedFrom(played, n, Marker(Black), move)
  {
    MaskedMove(played, n, Marker(Black))
  }

  /** The entries one pass of load_file's loop adds for move n: always the
      white one, then the black one unless its move is the placeholder text. */
  function PliesOfNumber(played: seq<Row>, n: int): (g: seq<Ply>)
    ensures 1 <= |g| <= 2 && g[0] == Ply(n, White, WhiteMove(played, n))
    ensures |g| == 2 <==> BlackMove(played, n) != Placeholder
    ensures |g| == 2 ==> g[1] == Ply(n, Black, BlackMove(played, n))
  {
    [Ply(n, White, WhiteMove(played, n))]
      + (if BlackMove(played, n) != Placeholder then [Ply(n, Black, BlackMove(played, n))] else [])
  }

  /** The entries load_file has added after visiting the move numbers ns. */
  function PliesFor(played: seq<Row>, ns: seq<int>): seq<Ply>
  {
    if ns == [] then []
    else PliesFor(played, ns[..|ns| - 1]) + PliesOfNumber(played, ns[|ns| - 1])
  }

  /** The whole move list built from a table. It is empty exactly when no
      row is played. */
  function Plies(rows: seq<Row>): (ps: seq<Ply>)
    ensures ps == [] <==> forall r :: r in rows ==> r.isPlayed != 1
  {
    var played := Played(rows);
    FilterContents(rows, IsPlayed);
    assert played != [] ==> played[0] in played && MoveNumbers(played)[0] in MoveNumbers(played);
    WhiteEntriesFollowNumbers(played, Distinct(MoveNumbers(played)));
    PliesFor(played, Distinct(MoveNumbers(played)))
  }

  /** f"{movenumber}. {white_move}" and f"{movenumber}... {black_move}":
      the text before its first '.' is the number, and it ends with the move. */
  function EntryText(p: Ply): (t: string)
    ensures BeforeDot(t) == IntToString(p.number)
    ensures |t| >= |p.move| && t[|t| - |p.move|..] == p.move
  {
    var marker := if p.colour == White then ". " else "... ";
    BeforeDotOfHead(IntToString(p.number), marker + p.move);
    assert IntToString(p.number) + marker + p.move == IntToString(p.number) + (marker + p.move);
    IntToString(p.number) + marker + p.move
  }

  function EntryTexts(ps: seq<Ply>): seq<string>
  {
    seq(|ps|, i requires 0 <= i < |ps| => EntryText(ps[i]))
  }

  /** The move_types dictionary: list index to colour. */
  function ColourMap(ps: seq<Ply>): map<nat, Colour>
  {
    map i: nat | i < |ps| :: ps[i].colour
  }

  /** WhiteMove and BlackMove are the masks load_file chains, with the
      markers written out. */
  lemma MaskedMoves(played: seq<Row>, n: int)
    ensures WhiteMove(played, n) ==
      FirstPredictionOr(Filter(Filter(played, NumberIs(n)), MarkerIs(".")), Placeholder)
    ensures BlackMove(played, n) ==
      FirstPredictionOr(Filter(Filter(played, NumberIs(n)), MarkerIs("...")), Placeholder)
  {
    assert Marker(White) == "." && Marker(Black) == "...";
  }

  /** The entry texts and colours one pass of load_file's loop appends for
      move n after the entries built so far. */
  lemma GroupEntries(built: seq<Ply>, played: seq<Row>, n: int)
    ensures EntryTexts(built + PliesOfNumber(played, n)) ==
      EntryTexts(built) + [IntToString(n) + ". " + WhiteMove(played, n)] +
      (if BlackMove(played, n) != Placeholder then [IntToString(n) + "... " + BlackMove(played, n)] else [])
    ensures ColourMap(built + PliesOfNumber(played, n)) ==
      if BlackMove(played, n) != Placeholder then ColourMap(built)[|built| := White][|built| + 1 := Black]
      else ColourMap(built)[|built| := White]
  {
    GroupOfMoves(built, n, WhiteMove(played, n), BlackMove(played, n));
  }

  /** GroupEntries for given white and black moves w and b. */
  lemma GroupOfMoves(built: seq<Ply>, n: int, w: string, b: string)
    ensures var g := [Ply(n, White, w)] + (if b != Placeholder then [Ply(n, Black, b)] else []);
      EntryTexts(built + g) ==
        EntryTexts(built) + [IntToString(n) + ". " + w] +
        (if b != Placeholder then [IntToString(n) + "... " + b] else []) &&
      ColourMap(built + g) ==
        if b != Placeholder then ColourMap(built)[|built| := White][|built| + 1 := Black]
        else ColourMap(built)[|built| := White]
  {
    var pw := Ply(n, White, w);
    EntryTextsSnoc(built, pw);
    ColourMapSnoc(built, pw);
    if b != Placeholder {
      var pb := Ply(n, Black, b);
      EntryTextsSnoc(built + [pw], pb);
      ColourMapSnoc(built + [pw], pb);
      assert built + ([pw] + [pb]) == built + [pw] + [pb];
    } else {
      assert built + ([pw] + []) == built + [pw];
    }
  }

  /** The move numbers of the white entries, in list order. */
  function WhiteNumbers(ps: seq<Ply>): seq<int>
  {
    if ps == [] then []
    else WhiteNumbers(ps[..|ps| - 1]) + (if ps[|ps| - 1].colour == White then [ps[|ps| - 1].number] else [])
  }

  /** The prediction of the first played row of move n with marker m in the
      whole table, or the placeholder when there is none. */
  function FirstPlayedOr(rows: seq<Row>, n: int, m: string): string
  {
    match FirstPlayedIndex(rows, n, m)
    case Some(k) => rows[k].prediction
    case None => Placeholder
  }

  /** One more pass of the loop adds the entries of the next move number. */
  lemma PliesForStep(played: seq<Row>, ns: seq<int>, k: nat)
    requires k < |ns|
    ensures PliesFor(played, ns[..k + 1]) == PliesFor(played, ns[..k]) + PliesOfNumber(played, ns[k])
  {
    assert ns[..k + 1][..k] == ns[..k];
  }

  lemma EntryTextsSnoc(ps: seq<Ply>, p: Ply)
    ensures EntryTexts(ps + [p]) == EntryTexts(ps) + [EntryText(p)]
  {
  }

  lemma ColourMapSnoc(ps: seq<Ply>, p: Ply)
    ensures ColourMap(ps + [p]) == ColourMap(ps)[|ps| := p.colour]
  {
  }

  lemma {:induction false} WhiteNumbersAppend(a: seq<Ply>, b: seq<Ply>)
    ensures WhiteNumbers(a + b) == WhiteNumbers(a) + WhiteNumbers(b)
  {
    if b != [] {
      var front, last := b[..|b| - 1], b[|b| - 1];
      WhiteNumbersAppend(a, front);
      var tail := if last.colour == White then [last.number] else [];
      assert a + b == (a + front) + [last];
      assert WhiteNumbers(a + b) == WhiteNumbers(a + front) + tail;
      assert WhiteNumbers(b) == WhiteNumbers(front) + tail;
    } else {
      assert a + b == a;
    }
  }

  lemma WhiteNumbersOfGroup(played: seq<Row>, n: int)
    ensures WhiteNumbers(PliesOfNumber(played, n)) == [n]
  {
    var g := PliesOfNumber(played, n);
    assert g[..1] == [g[0]];
    assert WhiteNumbers([g[0]]) == WhiteNumbers([]) + [n];
  }

  /** The white entries of the list name the visited move numbers, each
      once, in the order they were visited. */
  lemma {:induction false} WhiteEntriesFollowNumbers(played: seq<Row>, ns: seq<int>)
    ensures WhiteNumbers(PliesFor(played, ns)) == ns
  {
    if ns != [] {
      var init, n := ns[..|ns| - 1], ns[|ns| - 1];
      WhiteEntriesFollowNumbers(played, init);
      WhiteNumbersOfNextGroup(PliesFor(played, init), played, n);
      assert ns == init + [n];
    }
  }

  /** The white numbers of the entries so far, followed by one more group. */
  lemma WhiteNumbersOfNextGroup(a: seq<Ply>, played: seq<Row>, n: int)
    ensures WhiteNumbers(a + PliesOfNumber(played, n)) == WhiteNumbers(a) + [n]
  {
    WhiteNumbersAppend(a, PliesOfNumber(played, n));
    WhiteNumbersOfGroup(played, n);
  }

  /** Every entry carries one of the visited move numbers. */
  lemma {:induction false} EntryNumbersAreVisited(played: seq<Row>, ns: seq<int>)
    ensures forall i :: 0 <= i < |PliesFor(played, ns)| ==> PliesFor(played, ns)[i].number in ns
  {
    if ns != [] {
      var init, n := ns[..|ns| - 1], ns[|ns| - 1];
      EntryNumbersAreVisited(played, init);
      assert forall x :: x in init ==> x in ns;
    }
  }

  /** Entry i is followed by a black entry. */
  predicate FollowedByBlack(ps: seq<Ply>, i: nat)
  {
    i + 1 < |ps| && ps[i + 1].colour == Black
  }

  /** Entry i of ps is shaped as load_file builds it, given the white move
      white and the black move black of its move number: a white entry holds
      the white move and is followed by a black entry exactly when the black
      move is not the placeholder; a black entry holds the black move, which
      is not the placeholder, and comes right after the white entry of its
      number. */
  predicate ShapedAt(ps: seq<Ply>, i: nat, white: string, black: string)
    requires i < |ps|
  {
    (ps[i].colour == White ==>
      ps[i].move == white && (FollowedByBlack(ps, i) <==> black != Placeholder)) &&
    (ps[i].colour == Black ==>
      ps[i].move == black && black != Placeholder &&
      0 < i && ps[i - 1].colour == White && ps[i - 1].number == ps[i].number)
  }

  /** Entry i of ps is shaped by the white and black moves the masks of
      load_file pick from the played rows. */
  predicate MaskedShapeAt(played: seq<Row>, ps: seq<Ply>, i: nat)
    requires i < |ps|
  {
    ShapedAt(ps, i, WhiteMove(played, ps[i].number), BlackMove(played, ps[i].number))
  }

  /** Every entry of the list load_file builds is shaped by the masked
      white and black moves. */
  lemma {:induction false} EntryShape(played: seq<Row>, ns: seq<int>)
    ensures forall i :: 0 <= i < |PliesFor(played, ns)| ==> MaskedShapeAt(played, PliesFor(played, ns), i)
  {
    if ns != [] {
      var init, n := ns[..|ns| - 1], ns[|ns| - 1];
      EntryShape(played, init);
      var a, g := PliesFor(played, init), PliesOfNumber(played, n);
      var ps := a + g;
      assert PliesFor(played, ns) == ps;
      forall i | 0 <= i < |ps|
        ensures MaskedShapeAt(played, ps, i)
      {
        if i < |a| {
          assert MaskedShapeAt(played, a, i);
          assert ps[i] == a[i];
          if i + 1 < |a| {
            assert ps[i + 1] == a[i + 1];
          } else {
            assert ps[i + 1] == g[0];
          }
          if 0 < i {
            assert ps[i - 1] == a[i - 1];
          }
        } else {
          assert ps[i] == g[i - |a|];
          if i + 1 < |ps| {
            assert ps[i + 1] == g[i + 1 - |a|];
          }
          if |a| < i {
            assert ps[i - 1] == g[0];
          }
        }
      }
    }
  }

  /** Entry i of ps is shaped as load_file builds it from the table rows,
      stated with no reference to the masks it chains. */
  predicate LoadedAt(rows: seq<Row>, ps: seq<Ply>, i: nat)
    requires i < |ps|
  {
    (exists r :: r in rows && r.isPlayed == 1 && r.moveNumber == ps[i].number) &&
    ShapedAt(ps, i, FirstPlayedOr(rows, ps[i].number, "."), FirstPlayedOr(rows, ps[i].number, "..."))
  }

  /** The move list a table yields: the white entries visit the distinct
      played move numbers in the order unique() returns them; every number
      shown is the move number of some played row; a white entry shows the
      first played white prediction of its number, or "..."; a black entry
      shows the first played black prediction and directly follows the white
      entry of its number; and a black entry follows a white one exactly when
      that prediction exists and is not "...". */
  lemma LoadedPlies(rows: seq<Row>)
    ensures WhiteNumbers(Plies(rows)) == Distinct(MoveNumbers(Played(rows)))
    ensures forall i :: 0 <= i < |Plies(rows)| ==> LoadedAt(rows, Plies(rows), i)
  {
    var played := Played(rows);
    var ns := Distinct(MoveNumbers(played));
    var ps := Plies(rows);
    WhiteEntriesFollowNumbers(played, ns);
    EntryNumbersAreVisited(played, ns);
    EntryShape(played, ns);
    forall i | 0 <= i < |ps|
      ensures LoadedAt(rows, ps, i)
    {
      LoadedAtFromMasks(rows, ps, i);
    }
  }

  /** An entry shaped by the masked moves of a visited number is shaped by
      the first played rows of the table. */
  lemma LoadedAtFromMasks(rows: seq<Row>, ps: seq<Ply>, i: nat)
    requires i < |ps| && MaskedShapeAt(Played(rows), ps, i)
    requires ps[i].number in Distinct(MoveNumbers(Played(rows)))
    ensures LoadedAt(rows, ps, i)
  {
    var played := Played(rows);
    var x := ps[i].number;
    assert x in MoveNumbers(played);
    var k :| 0 <= k < |played| && MoveNumbers(played)[k] == x;
    FilterContents(rows, IsPlayed);
    assert played[k] in played;
    FirstOfMasksIsFirstPlayed(rows, x, ".", Placeholder);
    FirstOfMasksIsFirstPlayed(rows, x, "...", Placeholder);
    assert WhiteMove(played, x) == FirstPlayedOr(rows, x, ".");
    assert BlackMove(played, x) == FirstPlayedOr(rows, x, "...");
  }

  /** Reading the move number back from an entry's text, as show_move_details
      does, gives the number the entry was built from, for either colour. */
  lemma EntryNumberRoundTrip(p: Ply)
    ensures ParseInt(BeforeDot(EntryText(p))) == Some(p.number)
  {
    var rest := (if p.colour == White then ". " else "... ") + p.move;
    assert EntryText(p) == IntToString(p.number) + rest;
    NumberOfEntryText(p.number, rest);
  }
}
