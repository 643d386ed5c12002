# Chess move viewer: model of the move list and the details pane

The chess move analysis viewer reads a table of engine predictions, one row per candidate move of a
ply (columns `movenumber`, `white_or_black`, `prediction`, `is_played`, `new_norm_prob`,
`win_percentage`). It shows two things. The first is a move list with one entry per played ply:
`"{n}. {move}"` for White and `"{n}... {move}"` for Black. The second is a details pane that lists the
candidate moves of the selected ply, ranked by likelihood.

This project models the state `ChessViewer` keeps between two UI events and the two handlers that
change it:

- `data`: the loaded table (`seq<Row>`);
- `entries`: the texts of the move list (`seq<string>`);
- `moveTypes`: the `move_types` dictionary from list index to colour (`map<nat, Colour>`);
- `details`: the lines of the details pane (`seq<Line>`).

`LoadFile` (`load_file`) rebuilds the list. It walks the distinct played move numbers in order of
first appearance. For each one it emits a white entry, and a black entry unless the black move is the
placeholder `"..."`. It numbers the entries with a running counter and records each index's colour.
`ShowMoveDetails` (`show_move_details`) reads the move number back from the selected entry's text and
takes the colour from `move_types`. It then filters the table to that move and colour, sorts the rows
by probability in descending order, and writes a header followed by ranked rows. The played move is
marked with ` *`.

Files:

- `Wrappers.dfy`: `Option`, `Result`.
- `NumberText.dfy`: the decimal text an f-string writes for an integer, the part of `int()` that
  reads it back, and `split('.')[0]`.
- `Table.dfy`: rows, boolean masks, `unique()`, the first-played-row reference, and the descending sort.
- `MoveList.dfy`: how the played rows are grouped into the move list, the entry texts, and the
  index-to-colour map.
- `Viewer.dfy`: the `ChessViewer` class, the details pane, and the properties that link the two
  handlers. `LoadFile` hands the rebuilding of the list to `ListPlayedMoves`, whose loop body is
  `ListMoveNumber`; `ShowMoveDetails` hands its `try` block to `ShowEntry`, which writes the table
  with `WriteCandidates`.

The class invariant `Valid()` says that `entries` and `moveTypes` are exactly the list and the
dictionary the loaded table yields. The constructor establishes it. `LoadFile` re-establishes it on
success and keeps it on failure; `ShowMoveDetails` changes only the pane and keeps it too. On a
viewer satisfying it, `ShowMoveDetails` promises that selecting any entry never reaches the
handler's error path: the pane lists the candidates of the entry's own move number and colour
(`DetailsOfLoadedEntry` proves this for the pane function `Details`).

Three points where the code does something other than one might expect, stated as the code does them:

- Move numbers are visited in order of first appearance among played rows (`unique()`), not in
  ascending order.
- A failed read leaves the previous list, dictionary and table in place; it does not empty the list.
  Only the details pane changes, to the error message.
- Nothing in the code makes exactly one candidate row carry the played marker. The model states the
  marker row by row instead.

## Model

| member | source | states |
|---|---|---|
| NumberText.IntToString | chess_viewer.py:70 | the text `f"{movenumber}"` writes is nonempty and holds no `.`, so inside an entry it ends where the first `.` starts |
| NumberText.ParseInt | chess_viewer.py:97 | the modelled `int()` accepts only nonempty texts with no `.` and no space; a text of digits reads as a non-negative number; every text an f-string writes for an integer is accepted and reads as the integer that prints as that text |
| NumberText.DigitsCanonical | chess_viewer.py:97 | a run of digits without a leading zero is exactly what `f"{n}"` writes for its value |
| NumberText.BeforeDot | chess_viewer.py:97 | `split('.')[0]` gives a prefix of the text with no `.` in it, followed by a `.` or by the end of the text |
| NumberText.NatToStringRoundTrip | chess_viewer.py:70 | the digits the f-string writes for a non-negative move number have exactly that number as their decimal value |
| NumberText.ParseIntRoundTrip | chess_viewer.py:97 | `int()` applied to the f-string text of any integer, negative ones included, returns that integer |
| NumberText.NumberOfEntryText | chess_viewer.py:97 | for a text made of a number's f-string followed by anything that starts with `.`, `int(text.split('.')[0])` is that number |
| Table.Filter | chess_viewer.py:55-64 | a boolean mask (`df[df[col] == v]`) returns no more rows than it is given; which rows it keeps is stated by `Table.FilterContents` |
| Table.FilterContents | chess_viewer.py:55 | a boolean mask keeps every occurrence of each row it accepts and no row it rejects |
| Table.Distinct | chess_viewer.py:59 | `unique()` returns exactly the values of the column, each of them once |
| Table.DistinctKeepsFirstAppearance | chess_viewer.py:59 | of two values `unique()` returns, the earlier one first occurs earlier in the column |
| Table.FirstPlayedIndex | chess_viewer.py:66-67 | finds the first row that is played with the given move number and marker, or reports that no row matches |
| Table.FirstOfMasksIsFirstPlayed | chess_viewer.py:55-67 | the first row left by the chained played / move-number / marker masks is the first matching played row of the whole table; with none left, the placeholder is used |
| Table.InsertByProbAddsRow | chess_viewer.py:107 | one insertion step of the descending sort adds exactly the inserted row to the rows it is given |
| Table.InsertByProbKeepsOrder | chess_viewer.py:107 | inserting one row into a descending sequence keeps it descending |
| Table.SortByProb | chess_viewer.py:107 | `sort_values(by='new_norm_prob', ascending=False)` returns a permutation of its input in non-increasing probability order |
| MoveList.MaskedMove | chess_viewer.py:60-67 | `iloc[0]` of the number and marker masks, or `"..."` when they leave nothing: the prediction of a played row with that number and marker when one exists, the placeholder otherwise |
| MoveList.WhiteMove | chess_viewer.py:60-66 | `white_move` is the prediction of a played row of this number with marker `.` when one exists, and `"..."` otherwise |
| MoveList.BlackMove | chess_viewer.py:60-67 | `black_move` is the prediction of a played row of this number with marker `...` when one exists, and `"..."` otherwise |
| MoveList.PliesOfNumber | chess_viewer.py:69-80 | one pass of the loop adds a white entry of this number with `white_move`, then a black entry with `black_move` exactly when `black_move != "..."`, and nothing else |
| MoveList.MaskedMoves | chess_viewer.py:60-67 | `white_move` and `black_move` are the chained masks with the markers `.` and `...` written out, as the loop spells them |
| MoveList.Plies | chess_viewer.py:55-80 | the list built from a table is empty exactly when no row has `is_played == 1` |
| MoveList.EntryText | chess_viewer.py:70-77 | `split('.')[0]` of an entry text is exactly the f-string text of its move number, and the text ends with the move |
| MoveList.ColourMapSnoc | chess_viewer.py:72-79 | appending an entry to the list adds exactly the key `current_index` (the old length) to `move_types`, mapped to the entry's colour, and changes no other key |
| MoveList.GroupEntries | chess_viewer.py:69-80 | one pass of the loop appends the text `"{n}. {white_move}"` with colour White, then `"{n}... {black_move}"` with colour Black exactly when `black_move != "..."`, and the dictionary gets keys `current_index` and `current_index + 1` accordingly |
| MoveList.WhiteNumbersOfNextGroup | chess_viewer.py:69-73 | one pass of the loop adds exactly one white entry, carrying the visited number |
| MoveList.WhiteEntriesFollowNumbers | chess_viewer.py:59-73 | the white entries of the list carry the visited move numbers, one per number, in visiting order |
| MoveList.EntryNumbersAreVisited | chess_viewer.py:59-80 | every entry's number is one of the visited move numbers |
| MoveList.EntryShape | chess_viewer.py:63-80 | a white entry holds the masked white move, or `...` when there is none; a black entry holds the masked black move, which is not `...`, directly after the white entry of its number; a black entry follows a white one exactly when the black move is not `...` |
| MoveList.LoadedAtFromMasks | chess_viewer.py:55-67 | the masked white and black moves of a visited number are the first played white and black predictions of the whole table, and that number belongs to a played row |
| MoveList.LoadedPlies | chess_viewer.py:55-80 | the list is fully described by the table: white entries visit the distinct played numbers in first-appearance order; each number comes from a played row; white shows the first played white prediction or `...`; a black entry follows iff the first played black prediction exists and is not `...` |
| MoveList.EntryNumberRoundTrip | chess_viewer.py:97 | parsing the number back from an entry text, white or black, gives the number the entry was built from |
| Viewer.HeaderLines | chess_viewer.py:110-116 | the header is four text lines and no candidate row; the first starts with `Move {n} `; the rule under the headings is as wide as the 45 columns of the headings |
| Viewer.MoveText | chess_viewer.py:119-126 | the move column starts with the prediction, and is the bare prediction exactly when the row's `is_played` is not 1 |
| Viewer.TableRows | chess_viewer.py:119-128 | one candidate line per row in the given order, the k-th ranked k+1 (`enumerate(..., 1)`), showing that row's move text (the prediction, with ` *` when played), probability and win percentage |
| Viewer.Details | chess_viewer.py:94-136 | when the index is not in `move_types` or the number does not parse, the pane is one line starting `Error showing move details: `; otherwise it is the four header lines followed by exactly one line per table row with that move number and colour marker |
| Viewer.RankedCandidates | chess_viewer.py:103-107 | the candidates listed are exactly the table rows with the selected move number and colour marker, with multiplicities, in non-increasing probability order |
| Viewer.TableRowsRanked | chess_viewer.py:119-128 | the table rows are ranked 1..k consecutively and their likelihoods do not increase |
| Viewer.MoveTypesIndexEntries | chess_viewer.py:70-80 | the keys of `move_types` are exactly the list indices; each entry text starts with its ply's number, followed by `. ` or `... ` as `move_types` gives its colour; its number parses back |
| Viewer.DetailsShowCandidates | chess_viewer.py:96-128 | the pane opens with `Move {n} White/Black`, where n is parsed from the text and the colour comes from `move_types`; then come the candidate rows, ranked from 1, in non-increasing likelihood |
| Viewer.PaneMarksPlayed | chess_viewer.py:119-128 | below the four header lines, the k-th line shows the k-th row's move text, and ends in ` *` exactly when that row's `is_played` is 1, for predictions that do not themselves end in ` *` |
| Viewer.DetailsMarkPlayed | chess_viewer.py:103-128 | in the pane of a selected entry, the k-th candidate line shows the move text of the k-th sorted candidate, and ends in ` *` exactly when that candidate's `is_played` is 1, for predictions that do not themselves end in ` *` |
| Viewer.PlayedMarker | chess_viewer.py:125-126 | a row's move text ends with ` *` exactly when its `is_played` is 1 |
| Viewer.DetailsOfLoadedEntry | chess_viewer.py:96-107 | for any entry of a list built from the table, the error paths are unreachable; the pane lists the candidates of that entry's own number and colour |
| Viewer.ChessViewer.constructor | chess_viewer.py:44-46 | starts with no table, an empty list, an empty `move_types` and an empty pane, which satisfies the invariant |
| Viewer.ChessViewer.LoadFile | chess_viewer.py:48-85 | on a read failure only the pane changes, to the error message. On success the old list and dictionary are discarded; the list and `move_types` become exactly those the new table yields; the pane is untouched; the invariant holds afterwards |
| Viewer.ChessViewer.ListPlayedMoves | chess_viewer.py:51-80 | after clearing the list and `move_types` and walking the distinct played move numbers, the list and the dictionary are exactly those of the table; the loop invariant keeps the running counter `current_index` equal to the list length |
| Viewer.ChessViewer.ListMoveNumber | chess_viewer.py:60-80 | one pass for move number n appends that number's entries to the list and their colours to `move_types` under the next free indices, and returns the counter advanced past them |
| Viewer.ChessViewer.ShowMoveDetails | chess_viewer.py:87-136 | with no selection nothing changes; otherwise the pane is replaced by the KeyError or ValueError message, or by the header and the ranked candidate table. Only the pane changes, so the invariant is kept; on a viewer satisfying it, the selected entry never reaches the error paths and the pane shows the header and candidates of that entry's own move number and colour |
| Viewer.ChessViewer.ShowEntry | chess_viewer.py:94-136 | the `try` block for a selected index: the pane becomes exactly what `Details` gives for the table, the list and `move_types` |
| Viewer.ChessViewer.WriteCandidates | chess_viewer.py:103-129 | the pane becomes the header of that move and colour followed by one ranked line per candidate row in descending probability order; the loop invariant keeps the lines written so far equal to the table of the first rows |

## Left out

- Widget construction, layout, scrollbars, event binding and `mainloop` (chess_viewer.py:7-42, 138-144) are UI and are not modelled.
- `pd.read_csv` and CSV parsing are outside the model. `LoadFile` receives either the rows or the text of the exception.
- Failures after the read succeeded, such as a missing column, are not modelled. Their partial state depends on where pandas raises.
- `print` and `traceback` console output is not modelled.
- Two-decimal float formatting and the `:<N` padding of table rows are not modelled. A table row is kept as its rank, move text, likelihood and evaluation.
- The table starts as `[]` rather than `None`. With an empty list nothing can be selected, so the two cannot be told apart.
- The selection is the first index of `curselection()`, or none. The requirement that it is a valid list index is what the Listbox guarantees.
- pandas dtype effects are not modelled: NaN probabilities, a float `movenumber` column, and non-string predictions.
- `sort_values` is not stable. The pane contracts (`WriteCandidates`, `ShowEntry`, `ShowMoveDetails`) fix the model's own order among equal probabilities. `SortByProb` and `RankedCandidates`, the properties about the source's sort, say nothing about ties.
- NumberText.ParseInt: does not accept the surrounding whitespace, `+` sign, `_` separators or non-ASCII decimal digits (fullwidth, Arabic-Indic and the other Unicode `Nd` digits) that Python's `int()` also accepts. Entry texts are always written by `IntToString` and never contain them.
- Table.Filter: its own contract bounds only the number of rows kept. Which rows are kept, with their multiplicities, is stated by `Table.FilterContents`; stating it on `Filter` itself made the loop of `LoadFile` too costly to verify.
- Viewer.ChessViewer.ShowMoveDetails: the ValueError message quotes the text in single quotes without Python's `repr` escaping.
- Viewer.DetailsMarkPlayed: the marker equivalence holds only for predictions that do not themselves end in ` *`, as for `PlayedMarker`.
- Viewer.PaneMarksPlayed: the marker equivalence holds only for predictions that do not themselves end in ` *`, as for `PlayedMarker`.
- Viewer.PlayedMarker: holds only for predictions that do not themselves end in ` *`. The source appends ` *` without checking.
