# SnakeGame core in Dafny

A model of the data layer and the screen-building code of a terminal snake
game written in Java. The model covers these parts:

- the glyph board (`Grid`): a `yLength × xLength` table of strings, filled
  with "⬜", with a 1-indexed, bounds-checked write;
- the board cell (`Cell`): a mutable coordinate and glyph tied to one grid;
- the start of a game (`GameLogic`): the direction-to-arrow table, a
  one-segment snake heading right, the food cell, and the head painted on
  the board;
- the direction-to-character table (`Direction`);
- player accounts (`Account`): the name/password pattern, the validating
  constructor and setters, and the score set;
- the two menus (`GameMenu`, `Menu`): centring text on a console, drawing the
  board as text, mapping keys to directions, the automatic-login counter, the
  world leaderboard, a player's own score list, and one round of the older
  menu's play loop.

Each Java file becomes one Dafny module: `DalGrid`, `DalCell`,
`DalDirection`, `DalAccount`, `BlGameLogic`, `UiGameMenu` and `UiMenu`.
Some modules support them:

- `JavaInt`: Java `int` arithmetic. It covers the 32-bit range, `++` with
  wrap-around, the truncating `/` and `%`, the `(char)` cast and
  `Integer.toString`.
- `JavaStringOrder`: the lexicographic order of names, which is `String.compareTo` on the names accounts allow.
- `UiText`: `String.split("\n")` and the centring layout shared by both menus.
- `UiStage`: the board as text.
- `UiRecords`: the two score screens.
- `Wrappers`: `Option` and `Result`.

Java classes whose fields change in place are Dafny classes. The board is an
`array2<string>`, and setters and mutators are methods with `modifies`
clauses. A constructor that throws becomes a static `Create` method that
returns a `Result`. The `TreeSet<Integer>` of scores becomes a strictly
ascending `seq<int>`, which makes its iteration order explicit.

The terminal is replaced by parameters: the console width and height, the
key codes read, and whether a key was ready. The account store is a
parameter too, a sequence of `Account` objects. The game engine's answers in
the play loop are given as a trace of observations. Each observation says
whether the game is over and how long the snake is.

Three facts about the code shape the model:

- `Grid`'s constructor rejects only sizes that are not positive, with no
  upper bound (src/dal/Grid.java:11-12).
- `Menu`'s play loop stops when the counter reaches `yLength * xLength - 1`
  (src/ui/Menu.java:48).
- `Grid`'s sizes are `final` (src/dal/Grid.java:7-8), so a board is never
  resized; a new round builds a new board.

## Model

| member | source | states |
|---|---|---|
| DalGrid.Grid.Create | src/dal/Grid.java:10-19 | fails with "Lengths must be positive." exactly when a size is ≤ 0; otherwise a fresh grid with the given sizes, every tile "⬜" |
| DalGrid.Grid.constructor | src/dal/Grid.java:10-19 | for positive sizes: a `yLength × xLength` table whose every tile is the default glyph |
| DalGrid.Grid.TableInitialize | src/dal/Grid.java:35-44 | after the nested loops every tile of the table holds the grid's texture |
| DalGrid.Grid.SetTextureToGrid | src/dal/Grid.java:46-56 | in bounds, tile `[y-1][x-1]` becomes the glyph and every other tile is unchanged; out of bounds, the whole table is unchanged |
| DalGrid.Grid.GetTexture | src/dal/Grid.java:9-72 | the grid's texture is always "⬜"; the sizes are `const` |
| DalCell.Cell.constructor | src/dal/Cell.java:9-25 | a new cell is at (1,1), drawn "■", and belongs to the given grid |
| DalCell.Cell.SetX | src/dal/Cell.java:32-34 | sets x; y and the glyph are unchanged |
| DalCell.Cell.SetY | src/dal/Cell.java:41-43 | sets y; x and the glyph are unchanged |
| DalCell.Cell.SetTexture | src/dal/Cell.java:50-52 | sets the glyph; the coordinates are unchanged |
| DalCell.LastCoordinate | src/dal/Cell.java:32-43 | the coordinate after a sequence of setter calls is the value of the last call that sets it, or the default when none does |
| DalCell.LastTexture | src/dal/Cell.java:50-52 | the glyph after a sequence of setter calls is that of the last `setTexture`, or the default when there is none |
| DalCell.GettersAfterSetters | src/dal/Cell.java:9-78 | after any sequence of setter calls on a new cell, each getter returns the value of the last call that set it, or the default (1, 1, "■") when none did; the grid is the one given |
| DalDirection.DirectionChar | src/dal/Direction.java:8-24 | UP→210, DOWN→'s', RIGHT→'d', LEFT→'a'; never 0 |
| DalDirection.DirectionCharInjective | src/dal/Direction.java:8-24 | the four characters are pairwise distinct |
| DalAccount.WordRun | src/dal/Account.java:44 | the length of the longest prefix of `[a-zA-Z0-9_-]` characters |
| DalAccount.IsPassValid | src/dal/Account.java:50-56 | the password pattern is the same predicate as the username pattern |
| DalAccount.UsernameValidIff | src/dal/Account.java:43-49 | valid iff 3 ≤ length ≤ 31, the first character is an ASCII letter or digit, and every later one is a letter, digit, '_' or '-' |
| DalAccount.Insert | src/dal/Account.java:69-71 | `TreeSet.add`: the result is ascending, its elements are the old ones plus the new one, and adding a present score changes nothing |
| DalAccount.Account.constructor | src/dal/Account.java:17-26 | the field defaults: no scores, `runCount` 0, not remembered, count 0 |
| DalAccount.Account.Create | src/dal/Account.java:21-26 | the name is checked first, then the password, against the same pattern; the first failure gives its own message; success has the defaults and the given name |
| DalAccount.Account.SetPass | src/dal/Account.java:27-34 | fails with the password message exactly when the username pattern rejects the password; no field changes |
| DalAccount.Account.SetUsername | src/dal/Account.java:35-41 | fails with the username message exactly when the pattern rejects the name; otherwise the name is stored |
| DalAccount.Account.AddRecord | src/dal/Account.java:69-71 | the scores become the old ones plus the new one, still ascending; an existing score changes nothing |
| DalAccount.Account.GetRecords | src/dal/Account.java:73-75 | the scores are returned in ascending order |
| BlGameLogic.InitializeKeyTextures | src/bl/GameLogic.java:51-60 | the map covers all four directions: LEFT→"◀", RIGHT→"▶", UP→"▲", DOWN→"▼"; no two directions share an arrow |
| BlGameLogic.GameLogic.constructor | src/bl/GameLogic.java:13-44 | direction RIGHT; a one-segment snake that is the given head; the head is drawn "▶", the arrow for RIGHT; a fresh food cell of the same grid drawn "X"; the head's tile painted and no other tile changed |
| BlGameLogic.GameLogic.InitializeGameTable | src/bl/GameLogic.java:47-49 | the head's glyph is written at the head's tile when in bounds; no other tile changes |
| BlGameLogic.InitialBoard | src/bl/GameLogic.java:35-44 | up to `InitializeGameTable`, with a new head at (1,1): tile `[0][0]` is "▶" and every other tile is "⬜" |
| JavaInt.Inc | src/ui/GameMenu.java:94 | `++` on an `int` wraps: the result is the successor reduced into the 32-bit range |
| JavaInt.Div | src/ui/GameMenu.java:462-463 | Java's `/` truncates toward zero: what is left over is smaller than the divisor and has the dividend's sign |
| JavaInt.Rem | src/ui/GameMenu.java:89 | Java's `%`: the dividend is quotient × divisor + remainder, and the remainder takes the dividend's sign |
| JavaInt.IntToString | src/ui/GameMenu.java:289 | the decimal text is non-empty, has no newline, and starts with '-' exactly for negative numbers |
| JavaInt.NatToStringValue | src/ui/GameMenu.java:289 | the digits written for a natural number denote that number |
| JavaInt.IntToStringValue | src/ui/GameMenu.java:289 | the text of a negative number is '-' and the digits of its magnitude; otherwise the digits denote the number |
| JavaInt.IntToStringInjective | src/ui/GameMenu.java:289 | different numbers are written differently |
| UiText.JavaSplit | src/ui/GameMenu.java:455 | `split("\n")` with limit 0: no line contains a newline, and trailing empty lines are dropped |
| UiText.SplitJoin | src/ui/GameMenu.java:455 | `SplitAll`, the split that keeps every piece including trailing empty ones, gives back the newline-joined pieces |
| UiText.JoinSplit | src/ui/GameMenu.java:455 | joining the pieces of `SplitAll` (which keeps empty pieces) with newlines gives the text back |
| UiText.MaxLineLength | src/ui/GameMenu.java:456-460 | no line is longer than the result, and some line has exactly that length unless it is 0 |
| UiText.LongestLineLength | src/ui/GameMenu.java:455-460 | the loop's running maximum is the longest line length |
| UiText.GetCenteredText | src/ui/GameMenu.java:450-481 | the output is the top margin's newlines and then each line indented by the left margin and ended by "\n", as `CenteredText` of the split lines |
| UiText.TopMargin | src/ui/GameMenu.java:470-472 | the loop emits exactly `startY` newlines |
| UiText.AppendIndented | src/ui/GameMenu.java:474-478 | the loop appends every line, in order, indented and ended by "\n" |
| UiText.TruncationIrrelevant | src/ui/GameMenu.java:462-466 | because negative margins are clamped to 0, truncating and flooring division give the same margin |
| UiText.CenteringBalanced | src/ui/GameMenu.java:462-466 | when the text fits, the left margin is at most the right one, and at most one column smaller; the same holds for top and bottom |
| UiText.CenteredTextLines | src/ui/GameMenu.java:468-480 | the output's lines are `startY` empty lines, then each input line preceded by `startX` spaces, then a final empty piece |
| UiText.PrefixedLines | src/ui/GameMenu.java:432-441 | text built by prefixing each line with "\n" splits by `SplitAll` (which keeps empty pieces) into an empty first line and those lines |
| UiText.JavaSplitKeepsAll | src/ui/GameMenu.java:455 | for a text that is empty or does not end in a newline, Java's `split("\n")` equals `SplitAll` and drops nothing |
| UiStage.BoardText | src/ui/GameMenu.java:432-439 | the nested loops produce "\n" and then the row's glyphs, for every row in order |
| UiStage.GameMenuStageLines | src/ui/GameMenu.java:432-441 | the text `GameMenu` centres splits into an empty line, one line per board row, and the score |
| UiStage.MenuStageLines | src/ui/Menu.java:83-93 | the text `Menu` centres splits into an empty line, the board rows, one more empty line, and the score |
| UiGameMenu.GameMenu.constructor | src/ui/GameMenu.java:57-66 | the menu shares the logic's grid, starts heading RIGHT, not suspended, with nobody logged in and the counter at 1 |
| UiGameMenu.KeyDirectionIff | src/ui/GameMenu.java:491-503 | a key selects direction d exactly when it is d's steering key; Escape selects none |
| UiGameMenu.DirectionCharRoundTrip | src/ui/GameMenu.java:491-503 | `getDirectionByString`'s character maps back to DOWN, RIGHT and LEFT; UP's character 210 is no steering key |
| UiGameMenu.GameMenu.SetDirectionByKey | src/ui/GameMenu.java:487-508 | with a key ready and not end of input: 'w','s','a','d' set the direction, 27 suspends, other keys change nothing; nothing changes without a key |
| UiGameMenu.FirstDefault | src/ui/GameMenu.java:87-88 | the position of the first remembered account, with none before it; none when no account is remembered |
| UiGameMenu.GameMenu.HandleLoggedUser | src/ui/GameMenu.java:86-101 | on the first remembered account: a count with Java remainder 5 by 6 goes to 0 and nobody logs in; otherwise the count goes up by one and that account logs in; nothing else changes |
| UiGameMenu.EntersCycle | src/ui/GameMenu.java:89-95 | starting from 0, the count after n starts is n mod 6, and the player logs in automatically except on every sixth start |
| UiGameMenu.GameMenu.Logout | src/ui/GameMenu.java:242-247 | the logged-in account stops being remembered, its count goes to 0, and nobody is logged in |
| UiGameMenu.GameMenu.PrintCurrentGameStage | src/ui/GameMenu.java:428-443 | the screen is the centred board text followed by a line with the score |
| UiRecords.PutRecordsLastWins | src/ui/GameMenu.java:275-277 | of the repeated puts under one name, only the last survives |
| UiRecords.CollectRecordsMeaning | src/ui/GameMenu.java:272-278 | the map holds exactly the names that have a score; each maps to the largest score of the last account of that name that has a score |
| UiRecords.CollectUserRecords | src/ui/GameMenu.java:272-278 | the nested loops produce the map `CollectRecords` describes |
| UiRecords.InsertRanked | src/ui/GameMenu.java:280-284 | inserting a new name keeps the entries ranked, adds exactly that entry, and grows the list by one |
| UiRecords.SortByRecord | src/ui/GameMenu.java:280-284 | the map's entries, each exactly once, highest score first, with the larger name first on a tie |
| UiRecords.RankLines | src/ui/GameMenu.java:286-291 | line k is "k. score — name" for the k-th ranked entry, counting from 1 |
| UiRecords.NumberedRows | src/ui/GameMenu.java:286-291 | the loop appends "\n" and the numbered line for every ranked entry, in order |
| UiGameMenu.GameMenu.ShowAllRecords | src/ui/GameMenu.java:270-296 | the leaderboard is ranked, holds exactly the collected name/best-score pairs, lists each name once, and is shown numbered and centred |
| UiRecords.ReverseOfAscendingDescends | src/ui/GameMenu.java:307 | the reversed ascending scores are strictly descending |
| UiRecords.DropFinalComma | src/ui/GameMenu.java:307-310 | deleting the last character of the appended "\n"+score+"," items leaves the comma-separated list |
| UiRecords.ListRecords | src/ui/GameMenu.java:304-310 | the header and then the comma-separated scores; with no scores the deleted character is the header's ':' |
| UiGameMenu.GameMenu.ShowCurrentAccRecords | src/ui/GameMenu.java:302-313 | the logged-in player's scores, largest first, listed under the header and centred |
| JavaStringOrder.StrLessTransitive | src/ui/GameMenu.java:272 | the name order of the `TreeMap` is transitive |
| JavaStringOrder.StrLessTotal | src/ui/GameMenu.java:272 | any two different names are ordered one way or the other |
| JavaStringOrder.StrLessIrreflexive | src/ui/GameMenu.java:272 | no name comes before itself |
| JavaStringOrder.StrLessAsymmetric | src/ui/GameMenu.java:272 | two names are never ordered both ways |
| UiMenu.Menu.constructor | src/ui/Menu.java:23-31 | the menu shares the logic's grid and head, and the counter starts at 1 |
| UiMenu.Menu.PrintCurrentGameStage | src/ui/Menu.java:80-96 | the screen is the centred board text, an empty line, and the score |
| UiMenu.Target | src/ui/Menu.java:48 | `yLength * xLength - 1` in Java `int` arithmetic; it equals the exact value when the product fits |
| UiMenu.RoundEnd | src/ui/Menu.java:48-60 | the loop stops at the first check whose condition fails, returning that check's counter and game-over flag; a game not lost ends at the target; the trace runs out without a stop exactly when every check passed |
| UiMenu.RoundMessage | src/ui/Menu.java:58-65 | the loser text appears exactly when the game is over; the winner text only at the target |
| UiMenu.Menu.PlayRound | src/ui/Menu.java:47-67 | the loop and message give the outcome `RoundEnd` describes, and the counter holds the length the loop stopped with |
| UiMenu.Menu.Print | src/ui/Menu.java:33-79 | key '1' plays a round and any other key plays none; afterwards the board, head and logic are fresh buffers of the same size, a valid logic, a board with only the head painted (up to `InitializeGameTable`), and the counter is back to 1 |

## Left out

- The per-tick engine is not part of this model: `updateGameTable`, `UpdateGameTable`, `SpawnFood`, `isGameLose`, `isGameWon`, `IsGameOver` and `getSnakeCells` after a tick. Their bodies are not in the modelled files. `Menu`'s play loop takes the engine's answers as a trace instead.
- BlGameLogic.GameLogic.constructor: the closing `SpawnFood()` call is not modelled, so the food stays at its default (1,1).
- `Grid.getInstance` and `GameLogic.getInstance` are not modelled. They are double-checked-locking singletons, which is concurrency plumbing.
- `AccountService` is not part of this model. It covers JSON file storage, `getAccounts`, `addAccount`, `deleteAccount`, `isPassCorrectForCurrentUser` and `arrayListToJsonFile`. The account list is a parameter instead.
- DalAccount.Account.SetPass: the stored password hash (`String.hashCode`) and the account's `UUID` are not modelled. They are a library hash and randomness.
- All terminal input and output is left out. This covers jline, `Scanner`, `System.out`, `System.exit` and `clearScreen`. It also covers the login dialogue (`loginSystem`, `handleExistingUser`, `handleNewUser`) and `readIntegerFromUser`.
- The recursive menu navigation is left out: `displayMenu`, `printOptions`, `handleUserInput` (except its Enter branch, modelled as `Logout`), `deleteAccount`, `startGame`, `setPreference`, `gameLoop`, `printGameOverMessage`, and the call of `Print` to itself. Each is terminal-driven.
- `Thread.sleep` and the frame delay computed in `float` are left out. They are timing only.
- src/ui/Main.java is not part of this model. It only wires the objects together.
- `Grid.setxLength`/`setyLength` (called at src/ui/GameMenu.java:361-362) are not modelled. The sizes are `final` in the modelled `Grid`.
- `GameLogic` calls the board write `SetTextureToGrid`, while `Grid` declares it `setTextureToGrid`. Both are the one method `DalGrid.Grid.SetTextureToGrid`.
- Both copies of `getCenteredText` are modelled by `UiText.GetCenteredText`. They are the same code (src/ui/GameMenu.java:450-481 and src/ui/Menu.java:97-127), and their console size becomes the two parameters.
- Line lengths in `getCenteredText` count Dafny characters (code points), while Java counts UTF-16 units. The two agree on every glyph the game uses.
- JavaStringOrder.StrLess: compares Dafny characters (code points), while `String.compareTo` compares UTF-16 units. The two orders differ only when a character above U+FFFF meets one in U+E000..U+FFFF, which names passing the account pattern never contain.
- BlGameLogic.InitialBoard: "every other tile is ⬜" holds up to `InitializeGameTable`; the tile `SpawnFood()` paints at the end of the constructor (src/bl/GameLogic.java:45) is not modelled.
- UiMenu.Menu.Print: "only the head painted" on the new board holds up to `InitializeGameTable`; whatever `SpawnFood()` paints while `new GameLogic` runs (src/bl/GameLogic.java:45) is not modelled.
