/**
 * The menu and play screen of src/ui/GameMenu.java, reduced to what it
 * computes: the key-to-direction mapping, the automatic login counter, the
 * board text and the two score screens. The terminal is replaced by its
 * width, height and the key it delivers; the account list is a parameter.
 */
module UiGameMenu {
  import opened Wrappers
  import opened JavaInt
  import opened DalDirection
  import opened DalGrid
  import opened DalAccount
  import opened BlGameLogic
  import opened UiText
  import opened UiStage
  import opened UiRecords
  import opened JavaStringOrder

  /** The code of the Escape key. */
  const EscapeKey: int := 27

  /** The key the player presses to steer in each direction. */
  function KeyFor(d: Direction): char
  {
    match d
    case UP => 'w'
    case DOWN => 's'
    case LEFT => 'a'
    case RIGHT => 'd'
  }

  /** The direction a key selects, if any (the switch of `setDirectionByKey`). */
  function KeyDirection(key: int): Option<Direction>
  {
    if key == 'w' as int then Some(UP)
    else if key == 's' as int then Some(DOWN)
    else if key == 'a' as int then Some(LEFT)
    else if key == 'd' as int then Some(RIGHT)
    else None
  }

  /** Exactly one key selects each direction, and escape selects none. */
  lemma KeyDirectionIff(key: int, d: Direction)
    ensures KeyDirection(key) == Some(d) <==> key == KeyFor(d) as int
    ensures KeyDirection(EscapeKey) == None
  {
  }

  /**
   * `getDirectionByString` gives back the steering key for DOWN, RIGHT and
   * LEFT; for UP it gives character 210, which is no steering key.
   */
  lemma DirectionCharRoundTrip(d: Direction)
    ensures d != UP ==> KeyDirection(DirectionChar(d) as int) == Some(d)
    ensures d == UP ==> KeyDirection(DirectionChar(d) as int) == None
    ensures DirectionChar(d) == KeyFor(d) <==> d != UP
  {
  }

  /**
   * One automatic login of the remembered account: on a count whose Java
   * remainder by 6 is 5 the count goes back to 0 and nobody is logged in;
   * otherwise the count goes up by one and the account is logged in.
   */
  function NextEnters(count: Int32): (Int32, bool)
  {
    if Rem(count, 6) == 5 then (0, false) else (Inc(count), true)
  }

  /** The count after `n` starts of the program, beginning from a fresh account's 0. */
  function EntersAfter(n: nat): Int32
  {
    if n == 0 then 0 else NextEnters(EntersAfter(n - 1)).0
  }

  /**
   * The counter cycles through 0..5: of every six starts, five log the
   * remembered player in and the sixth asks for a login.
   */
  lemma {:induction false} EntersCycle(n: nat)
    ensures EntersAfter(n) == n % 6
    ensures NextEnters(EntersAfter(n)).1 <==> n % 6 != 5
  {
    if n > 0 {
      EntersCycle(n - 1);
      NextEntersInCycle((n - 1) % 6);
      ModSixStep(n);
    }
    NextEntersInCycle(n % 6);
  }

  lemma ModSixStep(n: nat)
    requires n > 0
    ensures n % 6 == (if (n - 1) % 6 == 5 then 0 else (n - 1) % 6 + 1)
  {
    var q, m := (n - 1) / 6, (n - 1) % 6;
    assert n == 6 * q + m + 1;
    if m == 5 {
      assert n == 6 * (q + 1) + 0;
    } else {
      assert n == 6 * q + (m + 1);
    }
  }

  /** One step of the counter from a value already in 0..5. */
  lemma NextEntersInCycle(m: int)
    requires 0 <= m < 6
    ensures NextEnters(m).0 == (if m == 5 then 0 else m + 1)
    ensures NextEnters(m).1 <==> m != 5
  {
    assert Rem(m, 6) == m;
  }

  /** The position of the first account marked as remembered, if any. */
  function FirstDefault(accounts: seq<Account>): (r: Option<nat>)
    reads accounts
    ensures r.Some? ==> r.value < |accounts| && accounts[r.value].isDefault
    ensures r.Some? ==> forall k :: 0 <= k < r.value ==> !accounts[k].isDefault
    ensures r.None? ==> forall k :: 0 <= k < |accounts| ==> !accounts[k].isDefault
  {
    if |accounts| == 0 then None
    else if accounts[0].isDefault then Some(0)
    else match FirstDefault(accounts[1..])
      case None => None
      case Some(k) => Some(k + 1)
  }

  class GameMenu {
    var grid: Grid
    var logic: GameLogic
    var currentDirection: Direction
    var isGameSuspended: bool
    var logedAccount: Account?
    var cellCounter: int

    /** `new GameMenu(logic)`, less the terminal it opens. */
    constructor (logic: GameLogic)
      ensures this.logic == logic && grid == logic.grid
      ensures currentDirection == RIGHT && !isGameSuspended && logedAccount == null
      ensures cellCounter == 1
    {
      this.grid := logic.grid;
      this.logic := logic;
      this.currentDirection := RIGHT;
      this.isGameSuspended := false;
      this.logedAccount := null;
      this.cellCounter := 1;
    }

    /**
     * `setDirectionByKey`: when a key is ready and is not end of input, 'w',
     * 's', 'a' and 'd' steer, Escape suspends the game, anything else is ignored.
     */
    method SetDirectionByKey(ready: bool, code: int)
      modifies this`currentDirection, this`isGameSuspended
      ensures ready && code != -1 && KeyDirection(CharOf(code)).Some? ==>
        currentDirection == KeyDirection(CharOf(code)).value && isGameSuspended == old(isGameSuspended)
      ensures ready && code != -1 && CharOf(code) == EscapeKey ==>
        isGameSuspended && currentDirection == old(currentDirection)
      ensures !(ready && code != -1) || (KeyDirection(CharOf(code)).None? && CharOf(code) != EscapeKey) ==>
        currentDirection == old(currentDirection) && isGameSuspended == old(isGameSuspended)
    {
      if ready {
        if code != -1 {
          var inputChar := CharOf(code);
          if inputChar == 'w' as int {
            currentDirection := UP;
          } else if inputChar == 's' as int {
            currentDirection := DOWN;
          } else if inputChar == 'a' as int {
            currentDirection := LEFT;
          } else if inputChar == 'd' as int {
            currentDirection := RIGHT;
          } else if inputChar == EscapeKey {
            isGameSuspended := true;
          }
        }
      }
    }

    /**
     * `handleLoggedUser`: applies the counter rule to the first remembered
     * account; no other account and no other field changes.
     */
    method HandleLoggedUser(accounts: seq<Account>)
      modifies this`logedAccount, accounts
      ensures forall a :: a in accounts ==>
        a.userName == old(a.userName) && a.records == old(a.records) &&
        a.isDefault == old(a.isDefault) && a.runCount == old(a.runCount)
      ensures old(FirstDefault(accounts)).None? ==>
        logedAccount == old(logedAccount) && forall a :: a in accounts ==> a.entersCount == old(a.entersCount)
      ensures old(FirstDefault(accounts)).Some? ==>
        var account := accounts[old(FirstDefault(accounts)).value];
        var (count, login) := NextEnters(old(account.entersCount));
        && account.entersCount == count
        && logedAccount == (if login then account else old(logedAccount))
        && forall a :: a in accounts && a != account ==> a.entersCount == old(a.entersCount)
    {
      for i := 0 to |accounts|
        invariant forall k :: 0 <= k < i ==> !accounts[k].isDefault
        invariant logedAccount == old(logedAccount)
        invariant forall a :: a in accounts ==> unchanged(a)
      {
        var account := accounts[i];
        if account.isDefault {
          if Rem(account.entersCount, 6) == 5 {
            account.entersCount := 0;
            return;
          } else {
            account.entersCount := Inc(account.entersCount);
            logedAccount := account;
            return;
          }
        }
      }
    }

    /**
     * The Enter branch of `handleUserInput`: the player stops being
     * remembered, their count restarts and nobody is logged in (the login
     * prompt that follows is terminal input and not modelled).
     */
    method Logout()
      requires logedAccount != null
      modifies this`logedAccount, logedAccount`isDefault, logedAccount`entersCount
      ensures logedAccount == null
      ensures !old(logedAccount).isDefault && old(logedAccount).entersCount == 0
    {
      logedAccount.isDefault := false;
      logedAccount.entersCount := 0;
      logedAccount := null;
    }

    /**
     * `printCurrentGameStage`: the board and the score, centred on a console
     * of the given size.
     */
    method PrintCurrentGameStage(consoleWidth: int, consoleHeight: int) returns (screen: string)
      requires grid.Valid()
      ensures screen == CenteredText(JavaSplit(GameMenuStageText(grid.Tiles(), cellCounter)),
                                     consoleWidth, consoleHeight)
    {
      var txt := BoardText(grid);
      txt := txt + "\n" + IntToString(cellCounter);
      screen := GetCenteredText(txt, consoleWidth, consoleHeight);
    }

    /**
     * `showAllRecords`: every player with a score once, with their best
     * score, highest first, numbered from 1, centred.
     */
    method ShowAllRecords(accounts: seq<Account>, consoleWidth: int, consoleHeight: int)
      returns (ranked: seq<Entry>, screen: string)
      ensures Ranked(ranked)
      ensures forall e :: e in ranked <==>
        e.0 in CollectRecords(Views(accounts)) && CollectRecords(Views(accounts))[e.0] == e.1
      ensures forall i, j :: 0 <= i < j < |ranked| ==> ranked[i].0 != ranked[j].0
      ensures screen == CenteredText(JavaSplit(Prefixed(RankLines(ranked))), consoleWidth, consoleHeight)
    {
      var userRecords := CollectUserRecords(accounts);
      ranked := SortByRecord(userRecords);
      forall i, j | 0 <= i < j < |ranked| ensures ranked[i].0 != ranked[j].0 {
        assert ranked[i] in ranked && ranked[j] in ranked;
        StrLessIrreflexive(ranked[i].0);
      }
      var sb := NumberedRows(ranked);
      screen := GetCenteredText(sb, consoleWidth, consoleHeight);
    }

    /**
     * `showCurrentAccRecords`: the logged-in player's scores, largest first,
     * comma-separated under a header, centred.
     */
    method ShowCurrentAccRecords(consoleWidth: int, consoleHeight: int) returns (screen: string)
      requires logedAccount != null && logedAccount.Valid()
      ensures screen == CenteredText(
        JavaSplit(RecordsListing(logedAccount.userName, Reverse(logedAccount.records))),
        consoleWidth, consoleHeight)
    {
      var listing := ListRecords(logedAccount.userName, Reverse(logedAccount.GetRecords()));
      screen := GetCenteredText(listing, consoleWidth, consoleHeight);
    }
  }
}
