/**
 * A player account (src/dal/Account.java): validated name and password, the
 * set of scores (a `TreeSet<Integer>`, so iterated in ascending order) and the
 * counters the menu keeps.
 */
module DalAccount {
  import opened Wrappers
  import opened JavaInt

  /** Java's `AccountValidException`, with its message. */
  datatype AccountValidException = AccountValidException(message: string)

  const BadUsername: string := "username is invalid. use noncyrilic or bigger than 2 length symbols"
  const BadPassword: string := "pass is invalid. use noncyrilic or bigger than 3 length symbols"

  /** The character class `[a-zA-Z0-9]`. */
  predicate IsAlnum(c: char)
  {
    ('a' <= c <= 'z') || ('A' <= c <= 'Z') || ('0' <= c <= '9')
  }

  /** The character class `[a-zA-Z0-9_-]`. */
  predicate IsWordChar(c: char)
  {
    IsAlnum(c) || c == '_' || c == '-'
  }

  /**
   * How many characters at the front of `s` belong to `[a-zA-Z0-9_-]`: the
   * greedy run that the quantifier `{2,30}` tries to consume.
   */
  function WordRun(s: string): (n: nat)
    ensures n <= |s|
    ensures forall i :: 0 <= i < n ==> IsWordChar(s[i])
    ensures n < |s| ==> !IsWordChar(s[n])
  {
    if |s| == 0 || !IsWordChar(s[0]) then 0 else 1 + WordRun(s[1..])
  }

  /**
   * `^[a-zA-Z0-9][a-zA-Z0-9_-]{2,30}$` matched against the whole of `s`: one
   * character of the first class, then a run of the second class of length 2
   * to 30 that reaches the end.
   */
  predicate MatchesAccountPattern(s: string)
  {
    && |s| >= 1
    && IsAlnum(s[0])
    && WordRun(s[1..]) == |s| - 1
    && 2 <= |s| - 1 <= 30
  }

  /** `Account.isUsernameValid`. */
  predicate IsUsernameValid(username: string)
  {
    MatchesAccountPattern(username)
  }

  /** `Account.isPassValid` compiles the same pattern, so it is the same predicate. */
  predicate IsPassValid(pass: string)
    ensures IsPassValid(pass) <==> IsUsernameValid(pass)
  {
    MatchesAccountPattern(pass)
  }

  /**
   * The accepted names, stated without the regex: 3 to 31 characters, the
   * first an ASCII letter or digit, the others ASCII letters, digits, '_' or '-'.
   */
  lemma {:induction false} UsernameValidIff(s: string)
    ensures IsUsernameValid(s) <==>
      && 3 <= |s| <= 31
      && IsAlnum(s[0])
      && forall i :: 1 <= i < |s| ==> IsWordChar(s[i])
  {
  }

  /** A strictly ascending sequence: the iteration order of a `TreeSet<Integer>`. */
  predicate Ascending(s: seq<int>)
  {
    forall i, j :: 0 <= i < j < |s| ==> s[i] < s[j]
  }

  /** `TreeSet.add(r)` on the ascending sequence of its elements. */
  function Insert(s: seq<int>, r: int): (t: seq<int>)
    requires Ascending(s)
    ensures Ascending(t)
    ensures forall v :: v in t <==> v in s || v == r
    ensures r in s ==> t == s
  {
    if |s| == 0 then [r]
    else if r < s[0] then [r] + s
    else if r == s[0] then s
    else
      var rest := Insert(s[1..], r);
      assert forall k :: 0 <= k < |rest| ==> s[0] < rest[k] by {
        forall k | 0 <= k < |rest| ensures s[0] < rest[k] {
          assert rest[k] in rest;
          if rest[k] != r {
            var m :| 0 <= m < |s[1..]| && s[1..][m] == rest[k];
            assert s[0] < s[m + 1];
          }
        }
      }
      [s[0]] + rest
  }

  class Account {
    var userName: string
    /** The scores, ascending without repeats. */
    var records: seq<int>
    var runCount: Int32
    var isDefault: bool
    var entersCount: Int32

    ghost predicate Valid()
      reads this
    {
      Ascending(records)
    }

    /** The field initialisers, before the validating setters run. */
    constructor ()
      ensures Valid()
      ensures userName == [] && records == [] && runCount == 0 && !isDefault && entersCount == 0
    {
      userName := [];
      records := [];
      runCount := 0;
      isDefault := false;
      entersCount := 0;
    }

    /**
     * `new Account(nickName, password)`: the name is checked first, then the
     * password, each against the same pattern; the first that fails is thrown.
     */
    static method Create(nickName: string, password: string)
      returns (r: Result<Account, AccountValidException>)
      ensures r.Failure? <==> !IsUsernameValid(nickName) || !IsPassValid(password)
      ensures !IsUsernameValid(nickName) ==> r == Failure(AccountValidException(BadUsername))
      ensures IsUsernameValid(nickName) && !IsPassValid(password) ==>
                r == Failure(AccountValidException(BadPassword))
      ensures r.Success? ==> fresh(r.value) && r.value.Valid()
      ensures r.Success? ==> r.value.userName == nickName && r.value.records == []
      ensures r.Success? ==> r.value.runCount == 0 && !r.value.isDefault && r.value.entersCount == 0
    {
      var a := new Account();
      var named := a.SetUsername(nickName);
      if named.Failure? {
        return Failure(named.error);
      }
      var passed := a.SetPass(password);
      if passed.Failure? {
        return Failure(passed.error);
      }
      a.runCount := 0;
      return Success(a);
    }

    /** `setPass`: validated with `isUsernameValid`; the stored hash is not modelled. */
    method SetPass(password: string) returns (r: Result<(), AccountValidException>)
      ensures r.Failure? <==> !IsUsernameValid(password)
      ensures r.Failure? ==> r.error == AccountValidException(BadPassword)
    {
      if !IsUsernameValid(password) {
        return Failure(AccountValidException(BadPassword));
      }
      return Success(());
    }

    /** `setUsername`: throws, leaving the name as it was, unless the name is valid. */
    method SetUsername(username: string) returns (r: Result<(), AccountValidException>)
      modifies this`userName
      ensures r.Failure? <==> !IsUsernameValid(username)
      ensures r.Failure? ==> r.error == AccountValidException(BadUsername) && userName == old(userName)
      ensures r.Success? ==> userName == username
    {
      if !IsUsernameValid(username) {
        return Failure(AccountValidException(BadUsername));
      }
      userName := username;
      return Success(());
    }

    /** `addRecord`: the score set gains `record`; adding one already there changes nothing. */
    method AddRecord(record: int)
      requires Valid()
      modifies this`records
      ensures Valid()
      ensures forall v :: v in records <==> v in old(records) || v == record
      ensures record in old(records) ==> records == old(records)
    {
      records := Insert(records, record);
    }

    /** `getRecords`: the scores in ascending order. */
    function GetRecords(): (rs: seq<int>)
      requires Valid()
      reads this
      ensures Ascending(rs)
    {
      records
    }
  }
}
