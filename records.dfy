/**
 * The score screens of src/ui/GameMenu.java as functions of the accounts'
 * names and ascending score lists: the world leaderboard (`showAllRecords`)
 * and a player's own list (`showCurrentAccRecords`).
 */
module UiRecords {
  import opened JavaInt
  import opened JavaStringOrder
  import opened UiText
  import opened DalAccount

  /** What the screens read from one account: its name and its scores, ascending. */
  datatype AccountView = AccountView(name: string, records: seq<int>)

  /** The name and scores of each account, in list order. */
  function Views(accounts: seq<Account>): (views: seq<AccountView>)
    reads accounts
    ensures |views| == |accounts|
    ensures forall i :: 0 <= i < |accounts| ==>
      views[i] == AccountView(accounts[i].userName, accounts[i].records)
  {
    seq(|accounts|, i requires 0 <= i < |accounts| reads accounts =>
      AccountView(accounts[i].userName, accounts[i].records))
  }

  /** `userRecords.put(name, r)` for each score in turn. */
  function PutRecords(m: map<string, int>, name: string, records: seq<int>): map<string, int>
  {
    if |records| == 0 then m
    else PutRecords(m, name, records[..|records| - 1])[name := records[|records| - 1]]
  }

  /** The `TreeMap` after the nested loops over the accounts and their scores. */
  function CollectRecords(views: seq<AccountView>): map<string, int>
  {
    if |views| == 0 then map[]
    else
      var last := views[|views| - 1];
      PutRecords(CollectRecords(views[..|views| - 1]), last.name, last.records)
  }

  /** Every put but the last one is overwritten. */
  lemma {:induction false} PutRecordsLastWins(m: map<string, int>, name: string, records: seq<int>)
    ensures PutRecords(m, name, records) ==
      if |records| == 0 then m else m[name := records[|records| - 1]]
  {
    if |records| > 1 {
      PutRecordsLastWins(m, name, records[..|records| - 1]);
    }
  }

  /** No later account of the same name has any score. */
  ghost predicate LastWithRecords(views: seq<AccountView>, i: int)
    requires 0 <= i < |views|
  {
    forall k :: i < k < |views| && views[k].name == views[i].name ==> |views[k].records| == 0
  }

  /**
   * What the collected map holds: exactly the names of accounts that have a
   * score, each with the largest score of the last such account of that name
   * (with unique names: each player's best score).
   */
  lemma {:induction false} CollectRecordsMeaning(views: seq<AccountView>)
    requires forall i :: 0 <= i < |views| ==> Ascending(views[i].records)
    ensures forall name :: name in CollectRecords(views) <==>
      exists i :: 0 <= i < |views| && views[i].name == name && |views[i].records| > 0
    ensures forall i :: 0 <= i < |views| && |views[i].records| > 0 && LastWithRecords(views, i) ==>
      var best := CollectRecords(views)[views[i].name];
      best in views[i].records && forall r :: r in views[i].records ==> r <= best
  {
    if |views| > 0 {
      var init, last := views[..|views| - 1], views[|views| - 1];
      CollectRecordsMeaning(init);
      PutRecordsLastWins(CollectRecords(init), last.name, last.records);
      forall name ensures name in CollectRecords(views) <==>
        exists i :: 0 <= i < |views| && views[i].name == name && |views[i].records| > 0
      {
        if name in CollectRecords(init) {
          var i :| 0 <= i < |init| && init[i].name == name && |init[i].records| > 0;
          assert views[i] == init[i];
        }
        if exists i :: 0 <= i < |views| && views[i].name == name && |views[i].records| > 0 {
          var i :| 0 <= i < |views| && views[i].name == name && |views[i].records| > 0;
          if i < |init| {
            assert init[i] == views[i];
          }
        }
      }
      forall i | 0 <= i < |views| && |views[i].records| > 0 && LastWithRecords(views, i)
        ensures var best := CollectRecords(views)[views[i].name];
          best in views[i].records && forall r :: r in views[i].records ==> r <= best
      {
        var recs := views[i].records;
        if i == |views| - 1 {
          assert recs[|recs| - 1] in recs;
        } else {
          assert init[i] == views[i];
          assert LastWithRecords(init, i);
        }
      }
    }
  }

  /**
   * The nested loops of `showAllRecords` that fill the `TreeMap`: for every
   * account in list order, every score in ascending order is put under the
   * account's name.
   */
  method CollectUserRecords(accounts: seq<Account>) returns (userRecords: map<string, int>)
    ensures userRecords == CollectRecords(Views(accounts))
  {
    ghost var views := Views(accounts);
    userRecords := map[];
    for i := 0 to |accounts|
      invariant userRecords == CollectRecords(views[..i])
    {
      assert views[..i + 1][..i] == views[..i];
      ghost var before := userRecords;
      var account := accounts[i];
      var records := account.records;
      for j := 0 to |records|
        invariant userRecords == PutRecords(before, account.userName, records[..j])
      {
        assert records[..j + 1][..j] == records[..j];
        userRecords := userRecords[account.userName := records[j]];
      }
      assert records[..|records|] == records;
    }
    assert views[..|accounts|] == views;
  }

  /** An entry of the leaderboard: a player's name and best score. */
  type Entry = (string, int)

  /**
   * The leaderboard order: higher score first; on equal scores the `TreeMap`
   * order survives the stable sort, which with `reverseOrder()` puts the
   * larger name first.
   */
  predicate Before(a: Entry, b: Entry)
  {
    a.1 > b.1 || (a.1 == b.1 && StrLess(b.0, a.0))
  }

  predicate Ranked(entries: seq<Entry>)
  {
    forall i, j :: 0 <= i < j < |entries| ==> Before(entries[i], entries[j])
  }

  lemma BeforeTransitive(a: Entry, b: Entry, c: Entry)
    requires Before(a, b) && Before(b, c)
    ensures Before(a, c)
  {
    if a.1 == b.1 && b.1 == c.1 {
      StrLessTransitive(c.0, b.0, a.0);
    }
  }

  lemma BeforeTotal(a: Entry, b: Entry)
    requires a.0 != b.0
    ensures Before(a, b) || Before(b, a)
  {
    if a.1 == b.1 {
      StrLessTotal(a.0, b.0);
    }
  }

  /** Places a new entry among the ranked ones. */
  function InsertRanked(e: Entry, entries: seq<Entry>): (r: seq<Entry>)
    requires Ranked(entries)
    requires forall k :: 0 <= k < |entries| ==> entries[k].0 != e.0
    ensures Ranked(r)
    ensures |r| == |entries| + 1
    ensures forall x :: x in r <==> x in entries || x == e
  {
    if |entries| == 0 then [e]
    else if Before(e, entries[0]) then
      assert forall k :: 0 < k < |entries| ==> Before(entries[0], entries[k]);
      forall k | 0 < k < |entries| ensures Before(e, entries[k]) {
        BeforeTransitive(e, entries[0], entries[k]);
      }
      [e] + entries
    else
      BeforeTotal(e, entries[0]);
      var rest := InsertRanked(e, entries[1..]);
      assert forall k :: 0 <= k < |rest| ==> rest[k] in entries[1..] || rest[k] == e;
      [entries[0]] + rest
  }

  /**
   * The stream pipeline of `showAllRecords`: the map's entries sorted by score,
   * highest first (larger name first on a tie), each entry exactly once.
   */
  method SortByRecord(userRecords: map<string, int>) returns (ranked: seq<Entry>)
    ensures Ranked(ranked)
    ensures forall e :: e in ranked <==> e.0 in userRecords && userRecords[e.0] == e.1
    ensures |ranked| == |userRecords|
  {
    var keys := userRecords.Keys;
    ranked := [];
    while keys != {}
      invariant keys <= userRecords.Keys
      invariant Ranked(ranked)
      invariant |ranked| + |keys| == |userRecords|
      invariant forall e :: e in ranked <==>
        e.0 in userRecords && e.0 !in keys && userRecords[e.0] == e.1
      decreases keys
    {
      var name :| name in keys;
      assert forall k :: 0 <= k < |ranked| ==> ranked[k] in ranked;
      ranked := InsertRanked((name, userRecords[name]), ranked);
      keys := keys - {name};
    }
  }

  /** One leaderboard line: position, score, an em dash and the name. */
  function RankLine(position: int, e: Entry): string
  {
    IntToString(position) + ". " + IntToString(e.1) + " — " + e.0
  }

  /** The numbered lines, positions counting from 1 in ranking order. */
  function RankLines(ranked: seq<Entry>): (lines: seq<string>)
    ensures |lines| == |ranked|
    ensures forall k :: 0 <= k < |ranked| ==> lines[k] == RankLine(k + 1, ranked[k])
  {
    seq(|ranked|, k requires 0 <= k < |ranked| => RankLine(k + 1, ranked[k]))
  }

  /** The loop of `showAllRecords` that appends `"\n" + i + ". " + score + " — " + name`. */
  method NumberedRows(ranked: seq<Entry>) returns (sb: string)
    ensures sb == Prefixed(RankLines(ranked))
  {
    var i := 1;
    sb := "";
    for k := 0 to |ranked|
      invariant i == k + 1
      invariant sb == Prefixed(RankLines(ranked)[..k])
    {
      assert RankLines(ranked)[..k + 1][..k] == RankLines(ranked)[..k];
      var line := IntToString(i) + ". " + IntToString(ranked[k].1) + " — " + ranked[k].0;
      sb := sb + ("\n" + line);
      i := i + 1;
    }
    assert RankLines(ranked)[..|ranked|] == RankLines(ranked);
  }

  /** The scores largest first: `getRecords().reversed()`. */
  function Reverse(s: seq<int>): (r: seq<int>)
    ensures |r| == |s|
    ensures forall i :: 0 <= i < |s| ==> r[i] == s[|s| - 1 - i]
  {
    if |s| == 0 then [] else [s[|s| - 1]] + Reverse(s[..|s| - 1])
  }

  lemma ReverseOfAscendingDescends(s: seq<int>)
    requires Ascending(s)
    ensures forall i, j :: 0 <= i < j < |s| ==> Reverse(s)[i] > Reverse(s)[j]
  {
  }

  /** The scores separated by commas, each on its own line. */
  function CommaSeparated(records: seq<int>): string
    requires |records| > 0
  {
    if |records| == 1 then "\n" + IntToString(records[0])
    else "\n" + IntToString(records[0]) + "," + CommaSeparated(records[1..])
  }

  /**
   * What `showCurrentAccRecords` shows for `name` and the scores in display
   * order: the header, then the scores separated by commas; with no score the
   * header loses its colon.
   */
  function RecordsListing(name: string, records: seq<int>): string
  {
    if |records| == 0 then name + " records"
    else name + " records:" + CommaSeparated(records)
  }

  /** `"\n" + r + ","` for each score, as the loop appends them. */
  function WithCommas(records: seq<int>): (r: seq<string>)
    ensures |r| == |records|
    ensures forall i :: 0 <= i < |records| ==> r[i] == IntToString(records[i]) + ","
  {
    seq(|records|, i requires 0 <= i < |records| => IntToString(records[i]) + ",")
  }

  /** Dropping the final comma of the appended items leaves the comma-separated list. */
  lemma {:induction false} DropFinalComma(records: seq<int>)
    requires |records| > 0
    ensures var t := Prefixed(WithCommas(records)); |t| > 0 && t[..|t| - 1] == CommaSeparated(records)
  {
    var head := "\n" + IntToString(records[0]);
    var u := Prefixed(WithCommas(records[1..]));
    SplitFirstItem(records);
    if |records| > 1 {
      DropFinalComma(records[1..]);
      DropLast(head + ",", u);
    } else {
      assert u == "";
      DropLast(head, ",");
    }
  }

  lemma SplitFirstItem(records: seq<int>)
    requires |records| > 0
    ensures Prefixed(WithCommas(records)) ==
      "\n" + IntToString(records[0]) + "," + Prefixed(WithCommas(records[1..]))
  {
    var xs := WithCommas(records);
    PrefixedFront(xs);
    assert xs[1..] == WithCommas(records[1..]);
    AppendAssoc("\n" + IntToString(records[0]), ",", Prefixed(xs[1..]));
  }

  lemma DropLast(a: string, b: string)
    requires |b| > 0
    ensures (a + b)[..|a + b| - 1] == a + b[..|b| - 1]
  {
  }

  /** `Prefixed` unfolded at the front instead of the back. */
  lemma {:induction false} PrefixedFront(xs: seq<string>)
    requires |xs| > 0
    ensures Prefixed(xs) == "\n" + xs[0] + Prefixed(xs[1..])
  {
    if |xs| > 1 {
      var init := xs[..|xs| - 1];
      PrefixedFront(init);
      assert init[1..] == xs[1..][..|xs| - 2];
      assert init[0] == xs[0];
    } else {
      assert xs[..0] == [] && xs[1..] == [];
    }
  }

  /**
   * The loop of `showCurrentAccRecords`: the header `name records:`, then
   * `"\n" + r + ","` for each score in display order, then `deleteCharAt` on
   * the last character.
   */
  method ListRecords(name: string, records: seq<int>) returns (listing: string)
    ensures listing == RecordsListing(name, records)
  {
    var sb := name + " records:";
    ghost var header := sb;
    ghost var items := WithCommas(records);
    for k := 0 to |records|
      invariant sb == header + Prefixed(items[..k])
    {
      var line := IntToString(records[k]) + ",";
      assert items[..k + 1][..k] == items[..k];
      AppendAssoc(header, Prefixed(items[..k]), "\n" + line);
      sb := sb + ("\n" + line);
    }
    assert items[..|records|] == items;
    if |records| > 0 {
      DropFinalComma(records);
      DropLast(header, Prefixed(items));
    }
    listing := sb[..|sb| - 1];
  }
}
