/** The state the chess move viewer keeps between two UI events: the loaded
    table, the move list, the index-to-colour dictionary and the lines of the
    details pane, with the two handlers that change them. */
module Viewer {
  import opened Wrappers
  import opened NumberText
  import opened Table
  import opened MoveList

  /** A line of the details pane. A row of the candidate table is kept as its
      four values: rank, move text, likelihood and evaluation. */
  datatype Line =
    | Text(text: string)
    | Candidate(rank: nat, move: string, likelihood: real, evaluation: real)

  function ColourName(c: Colour): string
  {
    if c == White then "White" else "Black"
  }

  /** The padded column headings of the candidate table. */
  const ColumnHeads: string := "#   Move            Likelihood   Evaluation  "

  /** The rule under the headings: 45 dashes. */
  const Rule: string := "---------------------------------------------"

  /** The start of the message the details pane shows for a caught exception. */
  const DetailsError: string := "Error showing move details: "

  /** "Move {n} White" or "Move {n} Black", a blank line, the headings, the
      rule: four text lines, the first naming the move number, and the rule
      as wide as the 45 columns of the headings. */
  function HeaderLines(n: int, c: Colour): (h: seq<Line>)
    ensures |h| == 4 && forall k :: 0 <= k < 4 ==> h[k].Text?
    ensures "Move " + IntToString(n) + " " <= h[0].text
    ensures |h[3].text| == |h[2].text| == 45
  {
    [Text("Move " + IntToString(n) + " " + ColourName(c)), Text(""), Text(ColumnHeads), Text(Rule)]
  }

  /** The move column: the prediction, with " *" after the move that was
      played. It starts with the prediction and is the bare prediction exactly
      when the row was not played. */
  function MoveText(r: Row): (t: string)
    ensures r.prediction <= t
    ensures t == r.prediction <==> r.isPlayed != 1
  {
    if r.isPlayed == 1 then r.prediction + " *" else r.prediction
  }

  function TableRow(rank: nat, r: Row): Line
  {
    Candidate(rank, MoveText(r), r.normProb, r.winPercentage)
  }

  /** The table rows for rows shown in this order, ranked from 1: one
      candidate line per row, carrying its move text, probability and win
      percentage. */
  function TableRows(shown: seq<Row>): (t: seq<Line>)
    ensures |t| == |shown|
    ensures forall k :: 0 <= k < |t| ==>
      t[k].Candidate? && t[k].rank == k + 1 && t[k].move == MoveText(shown[k]) &&
      t[k].likelihood == shown[k].normProb && t[k].evaluation == shown[k].winPercentage
  {
    seq(|shown|, k requires 0 <= k < |shown| => TableRow(k + 1, shown[k]))
  }

  /** Writing the row of shown[k] after the header and the rows before it
      gives the header and the rows up to and including it. */
  lemma TableRowsStep(header: seq<Line>, shown: seq<Row>, k: nat)
    requires k < |shown|
    ensures header + TableRows(shown[..k]) + [TableRow(k + 1, shown[k])] == header + TableRows(shown[..k + 1])
  {
    assert TableRows(shown[..k + 1]) == TableRows(shown[..k]) + [TableRow(k + 1, shown[k])];
  }

  /** The candidates of move n for colour c, in the order the table lists them. */
  function Ranked(data: seq<Row>, n: int, c: Colour): seq<Row>
  {
    SortByProb(Filter(data, IsCandidate(n, c)))
  }

  /** What the details pane holds after entry i is selected: the message of
      the KeyError or ValueError the handler catches, or the header and the
      table of candidates of the move and colour of the entry. */
  function Details(data: seq<Row>, entries: seq<string>, moveTypes: map<nat, Colour>, i: nat): (d: seq<Line>)
    requires i < |entries|
    ensures !(i in moveTypes && ParseInt(BeforeDot(entries[i])).Some?) ==>
      |d| == 1 && d[0].Text? && DetailsError <= d[0].text
    ensures i in moveTypes && ParseInt(BeforeDot(entries[i])).Some? ==>
      |d| == 4 + |Filter(data, IsCandidate(ParseInt(BeforeDot(entries[i])).value, moveTypes[i]))|
  {
    if i !in moveTypes then
      assert (DetailsError + NatToString(i))[..|DetailsError|] == DetailsError;
      [Text(DetailsError + NatToString(i))]
    else
      match ParseInt(BeforeDot(entries[i]))
      case None =>
        var message := "invalid literal for int() with base 10: '" + BeforeDot(entries[i]) + "'";
        assert (DetailsError + message)[..|DetailsError|] == DetailsError;
        [Text(DetailsError + message)]
      case Some(n) =>
        assert |multiset(Ranked(data, n, moveTypes[i]))| == |multiset(Filter(data, IsCandidate(n, moveTypes[i])))|;
        HeaderLines(n, moveTypes[i]) + TableRows(Ranked(data, n, moveTypes[i]))
  }

  /** The listed candidates are exactly the rows of the table with move
      number n and the marker of c, each as often as it occurs there, in
      non-increasing order of probability. */
  lemma RankedCandidates(data: seq<Row>, n: int, c: Colour)
    ensures NonIncreasing(Ranked(data, n, c))
    ensures forall x ::
              multiset(Ranked(data, n, c))[x] ==
              if x.moveNumber == n && x.marker == Marker(c) then multiset(data)[x] else 0
  {
    FilterContents(data, IsCandidate(n, c));
  }

  /** Entry i has been built with this move number: its text starts with
      the number and the marker of the colour move_types holds for it. */
  lemma {:induction false} MoveTypesIndexEntries(ps: seq<Ply>)
    ensures forall i: nat :: i in ColourMap(ps) <==> i < |EntryTexts(ps)|
    ensures forall i :: 0 <= i < |ps| ==>
      ParseInt(BeforeDot(EntryTexts(ps)[i])) == Some(ps[i].number) &&
      EntryTexts(ps)[i] ==
        IntToString(ps[i].number) + (if ColourMap(ps)[i] == White then ". " else "... ") + ps[i].move
  {
    forall i | 0 <= i < |ps|
      ensures ParseInt(BeforeDot(EntryTexts(ps)[i])) == Some(ps[i].number)
    {
      EntryNumberRoundTrip(ps[i]);
    }
  }

  /** The table rows are ranked 1, 2, ... and keep the order of the rows. */
  lemma TableRowsRanked(shown: seq<Row>)
    requires NonIncreasing(shown)
    ensures |TableRows(shown)| == |shown|
    ensures forall k :: 0 <= k < |shown| ==> TableRows(shown)[k].Candidate? && TableRows(shown)[k].rank == k + 1
    ensures forall k, l :: 0 <= k < l < |shown| ==> TableRows(shown)[k].likelihood >= TableRows(shown)[l].likelihood
  {
  }

  /** When the selected entry is in move_types and its text starts with the
      number n, the pane starts with "Move {n} White" or "Move {n} Black",
      the colour taken from move_types, and then lists the candidates of that
      move and colour, ranked 1, 2, ... in non-increasing likelihood. */
  lemma DetailsShowCandidates(data: seq<Row>, entries: seq<string>, moveTypes: map<nat, Colour>, i: nat, n: int)
    requires i < |entries| && i in moveTypes
    requires ParseInt(BeforeDot(entries[i])) == Some(n)
    ensures var d := Details(data, entries, moveTypes, i);
      && d == HeaderLines(n, moveTypes[i]) + TableRows(Ranked(data, n, moveTypes[i]))
      && d[0] == Text("Move " + IntToString(n) + " " + ColourName(moveTypes[i]))
      && (forall k :: 4 <= k < |d| ==> d[k].Candidate? && d[k].rank == k - 3)
      && (forall k, l :: 4 <= k < l < |d| ==> d[k].likelihood >= d[l].likelihood)
  {
    var c := moveTypes[i];
    var shown := Ranked(data, n, c);
    var d := Details(data, entries, moveTypes, i);
    var h, t := HeaderLines(n, c), TableRows(shown);
    assert d == h + t;
    forall k | 4 <= k < |d|
      ensures d[k] == t[k - 4] && d[k].likelihood == shown[k - 4].normProb
    {
    }
  }

  /** The text ends with the played marker " *". */
  predicate EndsWithMarker(t: string)
  {
    |t| >= 2 && t[|t| - 2..] == " *"
  }

  /** The move text ends with " *" exactly when the row was played, for a
      prediction that does not itself end with " *". */
  lemma PlayedMarker(r: Row)
    requires !EndsWithMarker(r.prediction)
    ensures EndsWithMarker(MoveText(r)) <==> r.isPlayed == 1
  {
    if r.isPlayed == 1 {
      assert MoveText(r)[|MoveText(r)| - 2..] == " *";
    }
  }

  /** Below a four-line header, the line at position k shows the move text
      of the k-th row; for a prediction that does not itself end in " *", it
      ends in " *" exactly when that row was played. */
  lemma PaneMarksPlayed(h: seq<Line>, shown: seq<Row>)
    requires |h| == 4
    ensures var d := h + TableRows(shown);
      |d| == 4 + |shown| && forall k :: 4 <= k < |d| ==> d[k].Candidate? && d[k].move == MoveText(shown[k - 4])
    ensures var d := h + TableRows(shown);
      forall k :: 4 <= k < |d| && !EndsWithMarker(shown[k - 4].prediction) ==>
        (EndsWithMarker(d[k].move) <==> shown[k - 4].isPlayed == 1)
  {
    var d, t := h + TableRows(shown), TableRows(shown);
    forall k | 4 <= k < |d|
      ensures d[k] == t[k - 4]
    {
    }
    forall k | 4 <= k < |d| && !EndsWithMarker(shown[k - 4].prediction)
      ensures EndsWithMarker(d[k].move) <==> shown[k - 4].isPlayed == 1
    {
      PlayedMarker(shown[k - 4]);
    }
  }

  /** In the pane, the line after the header at position k shows the move
      text of the k-th sorted candidate; for a prediction that does not itself
      end in " *", the line ends in " *" exactly when that candidate was played. */
  lemma DetailsMarkPlayed(data: seq<Row>, entries: seq<string>, moveTypes: map<nat, Colour>, i: nat, n: int)
    requires i < |entries| && i in moveTypes
    requires ParseInt(BeforeDot(entries[i])) == Some(n)
    ensures var d, shown := Details(data, entries, moveTypes, i), Ranked(data, n, moveTypes[i]);
      |d| == 4 + |shown| && forall k :: 4 <= k < |d| ==> d[k].Candidate? && d[k].move == MoveText(shown[k - 4])
    ensures var d, shown := Details(data, entries, moveTypes, i), Ranked(data, n, moveTypes[i]);
      forall k :: 4 <= k < |d| && !EndsWithMarker(shown[k - 4].prediction) ==>
        (EndsWithMarker(d[k].move) <==> shown[k - 4].isPlayed == 1)
  {
    DetailsShowCandidates(data, entries, moveTypes, i, n);
    PaneMarksPlayed(HeaderLines(n, moveTypes[i]), Ranked(data, n, moveTypes[i]));
  }

  /** Selecting an entry of a loaded list never fails: the pane shows the
      candidates of the move number and colour the entry was built from. */
  lemma DetailsOfLoadedEntry(data: seq<Row>, i: nat)
    requires i < |Plies(data)|
    ensures var p := Plies(data)[i];
      Details(data, EntryTexts(Plies(data)), ColourMap(Plies(data)), i)
        == HeaderLines(p.number, p.colour) + TableRows(Ranked(data, p.number, p.colour))
  {
    EntryNumberRoundTrip(Plies(data)[i]);
  }

  class ChessViewer {
    var data: seq<Row>
    var entries: seq<string>
    var moveTypes: map<nat, Colour>
    var details: seq<Line>

    /** The move list and move_types are the ones the loaded table yields. */
    ghost predicate Valid()
      reads this
    {
      entries == EntryTexts(Plies(data)) && moveTypes == ColourMap(Plies(data))
    }

    constructor()
      ensures Valid()
      ensures data == [] && entries == [] && moveTypes == map[] && details == []
    {
      data, entries, moveTypes, details := [], [], map[], [];
    }

    /** load_file: read is the table pd.read_csv returned, or the message of
        the exception it raised. */
    method LoadFile(read: Result<seq<Row>, string>)
      modifies this
      ensures read.Failure? ==>
        data == old(data) && entries == old(entries) && moveTypes == old(moveTypes) &&
        details == [Text("Error loading file: " + read.error)]
      ensures read.Success? ==>
        data == read.value && entries == EntryTexts(Plies(data)) &&
        moveTypes == ColourMap(Plies(data)) && details == old(details)
      ensures old(Valid()) || read.Success? ==> Valid()
    {
      if read.Failure? {
        details := [Text("Error loading file: " + read.error)];
        return;
      }
      data := read.value;
      ListPlayedMoves();
    }

    /** The part of load_file after the read: the move list and move_types
        are cleared and rebuilt from the played rows of the table. */
    method ListPlayedMoves()
      modifies this`entries, this`moveTypes
      ensures entries == EntryTexts(Plies(data)) && moveTypes == ColourMap(Plies(data))
    {
      entries := [];
      moveTypes := map[];
      var played := Played(data);
      var numbers := Distinct(MoveNumbers(played));
      var currentIndex := 0;
      for k := 0 to |numbers|
        invariant entries == EntryTexts(PliesFor(played, numbers[..k]))
        invariant moveTypes == ColourMap(PliesFor(played, numbers[..k]))
        invariant currentIndex == |PliesFor(played, numbers[..k])|
      {
        PliesForStep(played, numbers, k);
        currentIndex := ListMoveNumber(played, numbers[k], PliesFor(played, numbers[..k]), currentIndex);
      }
      assert numbers[..|numbers|] == numbers;
    }

    /** One pass of load_file's loop, for move number n: the white entry,
        then the black entry when black's move was found, each recorded in
        moveTypes at currentIndex. built is what the earlier passes added. */
    method ListMoveNumber(played: seq<Row>, n: int, ghost built: seq<Ply>, currentIndex: nat) returns (next: nat)
      requires entries == EntryTexts(built) && moveTypes == ColourMap(built) && currentIndex == |built|
      modifies this`entries, this`moveTypes
      ensures entries == EntryTexts(built + PliesOfNumber(played, n))
      ensures moveTypes == ColourMap(built + PliesOfNumber(played, n))
      ensures next == |built + PliesOfNumber(played, n)|
    {
      MaskedMoves(played, n);
      GroupEntries(built, played, n);
      var moves := Filter(played, NumberIs(n));
      var whiteMoves := Filter(moves, MarkerIs("."));
      var blackMoves := Filter(moves, MarkerIs("..."));
      var whiteMove := FirstPredictionOr(whiteMoves, Placeholder);
      var blackMove := FirstPredictionOr(blackMoves, Placeholder);

      var whiteText := IntToString(n) + ". " + whiteMove;
      entries := entries + [whiteText];
      moveTypes := moveTypes[currentIndex := White];
      next := currentIndex + 1;
      if blackMove != Placeholder {
        var blackText := IntToString(n) + "... " + blackMove;
        entries := entries + [blackText];
        moveTypes := moveTypes[next := Black];
        next := next + 1;
      }
    }

    /** show_move_details: selection is the Listbox's current selection,
        None when nothing is selected. On a viewer whose list was built by
        LoadFile, selecting an entry never reaches the error paths: the pane
        shows the candidates of that entry's own move number and colour. */
    method ShowMoveDetails(selection: Option<nat>)
      requires selection.Some? ==> selection.value < |entries|
      modifies this`details
      ensures selection.None? ==> details == old(details)
      ensures selection.Some? ==> details == Details(data, entries, moveTypes, selection.value)
      ensures old(Valid()) ==> Valid()
      ensures old(Valid()) && selection.Some? ==>
        var p := Plies(data)[selection.value];
        details == HeaderLines(p.number, p.colour) + TableRows(Ranked(data, p.number, p.colour))
    {
      if selection.None? {
        return;
      }
      ShowEntry(selection.value);
      if Valid() {
        DetailsOfLoadedEntry(data, selection.value);
      }
    }

    /** The try block of show_move_details for the selected index i: the
        pane gets the header and the ranked candidates, or the message of the
        KeyError or ValueError the block raises. */
    method ShowEntry(i: nat)
      requires i < |entries|
      modifies this`details
      ensures details == Details(data, entries, moveTypes, i)
    {
      var selectedText := entries[i];
      if i !in moveTypes {
        details := [Text(DetailsError + NatToString(i))];
        return;
      }
      var isBlack := moveTypes[i] == Black;
      var parsed := ParseInt(BeforeDot(selectedText));
      if parsed.None? {
        details := [Text(DetailsError + ("invalid literal for int() with base 10: '"
                                         + BeforeDot(selectedText) + "'"))];
        return;
      }
      var n := parsed.value;
      var colour := if isBlack then Black else White;
      WriteCandidates(n, colour);
      assert colour == moveTypes[i];
    }

    /** The part of the try block after the number is read: the header for
        move n and colour, then the candidates, sorted by probability and
        ranked from 1, with " *" after the played one. */
    method WriteCandidates(n: int, colour: Colour)
      modifies this`details
      ensures details == HeaderLines(n, colour) + TableRows(Ranked(data, n, colour))
    {
      details := [];
      var shown := SortByProb(Filter(data, IsCandidate(n, colour)));
      details := details + HeaderLines(n, colour);
      for rank := 1 to |shown| + 1
        invariant details == HeaderLines(n, colour) + TableRows(shown[..rank - 1])
      {
        var row := shown[rank - 1];
        var moveText := row.prediction;
        if row.isPlayed == 1 {
          moveText := moveText + " *";
        }
        assert Candidate(rank, moveText, row.normProb, row.winPercentage) == TableRow(rank, row);
        TableRowsStep(HeaderLines(n, colour), shown, rank - 1);
        details := details + [Candidate(rank, moveText, row.normProb, row.winPercentage)];
      }
      assert shown[..|shown|] == shown;
    }
  }
}
