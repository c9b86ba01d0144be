/**
 * DummyDatabase.cs: the store that owns the line and user lists, seeds them from generated
 * data when nothing usable is stored, and normalises the default flag after loading.
 * Randomness is replaced by the draws `Random.Next` would have produced, passed in as values.
 */
module Database {
  import opened Models
  import opened Strings
  import opened LineRules

  /** The `List<LineInfo>` object: one mutable list that the store and every handler share. */
  class LineList {
    var items: seq<LineInfo>

    constructor (items: seq<LineInfo>)
      ensures this.items == items
    {
      this.items := items;
    }
  }

  /**
   * What `JsonSerializer.Deserialize` makes of a stored document: no file at all, the JSON
   * literal `null`, or a decoded value.
   */
  datatype Stored<T> = Missing | JsonNull | Decoded(value: T)

  // ---------------------------------------------------------------------------------------------
  // Seed lines
  // ---------------------------------------------------------------------------------------------

  /**
   * The draws `GenerateRandomLines` makes: the count `Next(4, 11)`, the default index
   * `Next(0, count)`, and per line the first four characters of a fresh GUID's text and
   * the port offset `Next(0, 9000)`.
   */
  datatype LineDraws = LineDraws(lineCount: int, defaultIdx: int, nameTags: seq<string>, portDraws: seq<int>)

  predicate ValidLineDraws(d: LineDraws) {
    4 <= d.lineCount < 11 && 0 <= d.defaultIdx < d.lineCount &&
    |d.nameTags| == d.lineCount && |d.portDraws| == d.lineCount &&
    (forall j :: 0 <= j < d.lineCount ==> |d.nameTags[j]| == 4) &&
    (forall j :: 0 <= j < d.lineCount ==> 0 <= d.portDraws[j] < 9000)
  }

  /** Seed line `j`: no id set, name `Line_{j+1}_{tag}`, address `192.168.1.{j+10}`. */
  function GeneratedLine(d: LineDraws, j: nat): LineInfo
    requires ValidLineDraws(d) && j < d.lineCount
  {
    LineInfo(
      EmptyGuid,
      "Line_" + NatToString(j + 1) + "_" + d.nameTags[j],
      "192.168.1." + NatToString(j + 10),
      1000 + d.portDraws[j],
      j == d.defaultIdx)
  }

  function GeneratedLines(d: LineDraws): seq<LineInfo>
    requires ValidLineDraws(d)
  {
    seq(d.lineCount, j requires 0 <= j < d.lineCount => GeneratedLine(d, j))
  }

  // ---------------------------------------------------------------------------------------------
  // Seed users
  // ---------------------------------------------------------------------------------------------

  const Names: seq<string> := ["Alice", "Bob", "Charlie", "Diana", "Eve", "Frank", "Grace", "Heidi"]

  /**
   * The draws `GenerateRandomUsers` makes: the count `Next(3, 8)`, and per user a fresh GUID,
   * a name index `Next(8)`, a suffix `Next(100, 999)`, the first eight characters of another
   * GUID's `N` text as password, and a level index `Next(9)`.
   */
  datatype UserDraws = UserDraws(
    userCount: int,
    userIds: seq<Guid>,
    nameIdx: seq<int>,
    suffixes: seq<int>,
    passwords: seq<string>,
    levelIdx: seq<int>)

  predicate ValidUserDraws(d: UserDraws) {
    3 <= d.userCount < 8 &&
    |d.userIds| == d.userCount && |d.nameIdx| == d.userCount && |d.suffixes| == d.userCount &&
    |d.passwords| == d.userCount && |d.levelIdx| == d.userCount &&
    (forall i :: 0 <= i < d.userCount ==> 0 <= d.nameIdx[i] < |Names|) &&
    (forall i :: 0 <= i < d.userCount ==> 100 <= d.suffixes[i] < 999) &&
    (forall i :: 0 <= i < d.userCount ==> |d.passwords[i]| == 8) &&
    (forall i :: 0 <= i < d.userCount ==> 0 <= d.levelIdx[i] < |AuthLevels|)
  }

  function GeneratedUser(d: UserDraws, i: nat): User
    requires ValidUserDraws(d) && i < d.userCount
  {
    User(d.userIds[i], Names[d.nameIdx[i]] + NatToString(d.suffixes[i]), d.passwords[i], AuthLevels[d.levelIdx[i]])
  }

  function GeneratedUsers(d: UserDraws): seq<User>
    requires ValidUserDraws(d)
  {
    seq(d.userCount, i requires 0 <= i < d.userCount => GeneratedUser(d, i))
  }

  // ---------------------------------------------------------------------------------------------
  // Load
  // ---------------------------------------------------------------------------------------------

  /**
   * The lines `Load` installs: generated lines when the file is missing; otherwise the decoded
   * list (generated lines when it holds `null`), normalised.
   */
  function LoadedLines(stored: Stored<seq<LineInfo>>, d: LineDraws): seq<LineInfo>
    requires ValidLineDraws(d)
  {
    match stored
    case Missing => GeneratedLines(d)
    case JsonNull => Normalized(GeneratedLines(d))
    case Decoded(s) => Normalized(s)
  }

  /** The users `Load` installs: the decoded list, or generated users when missing or `null`. */
  function LoadedUsers(stored: Stored<seq<User>>, d: UserDraws): seq<User>
    requires ValidUserDraws(d)
  {
    match stored
    case Decoded(s) => s
    case _ => GeneratedUsers(d)
  }

  /** Seed lines have exactly one default, at the drawn index. */
  lemma GeneratedLinesDefaultAtDraw(d: LineDraws)
    requires ValidLineDraws(d)
    ensures DefaultOnlyAt(GeneratedLines(d), d.defaultIdx)
  {
  }

  /** Seed lines have pairwise different addresses, although they all share `Guid.Empty`. */
  lemma GeneratedLinesDistinctAddresses(d: LineDraws)
    requires ValidLineDraws(d)
    ensures forall i, j :: 0 <= i < j < d.lineCount ==>
      GeneratedLines(d)[i].ipAddress != GeneratedLines(d)[j].ipAddress &&
      GeneratedLines(d)[i].id == GeneratedLines(d)[j].id
  {
    forall i, j | 0 <= i < j < d.lineCount
      ensures GeneratedLines(d)[i].ipAddress != GeneratedLines(d)[j].ipAddress
    {
      var p := "192.168.1.";
      if NatToString(i + 10) == NatToString(j + 10) {
        NatToStringInjective(i + 10, j + 10);
      }
      assert GeneratedLines(d)[i].ipAddress[|p|..] == NatToString(i + 10);
      assert GeneratedLines(d)[j].ipAddress[|p|..] == NatToString(j + 10);
    }
  }

  /**
   * The seed lines reach the two-default state: they all share `Guid.Empty`, so a default update
   * with that id replaces record 0 and clears no other record, and the drawn default survives.
   */
  lemma SeededDefaultUpdateLeavesTwoDefaults(d: LineDraws, u: LineInfo)
    requires ValidLineDraws(d) && d.defaultIdx != 0
    requires u.id == EmptyGuid && u.isDefault
    ensures var r := Updated(GeneratedLines(d), u);
      r[0] == u && r[d.defaultIdx].isDefault && !AtMostOneDefault(r)
  {
    var s := GeneratedLines(d);
    assert IndexOfId(s, u.id) == 0;
    var t := ClearOthers(s, u.id)[0 := u];
    assert t[d.defaultIdx] == s[d.defaultIdx];
    EnsureDefaultFacts(t);
  }

  /** Whatever is stored, the loaded lines satisfy the store's invariant. */
  lemma LoadedLinesSingleDefault(stored: Stored<seq<LineInfo>>, d: LineDraws)
    requires ValidLineDraws(d)
    ensures SingleDefault(LoadedLines(stored, d))
  {
    match stored
    case Missing =>
      GeneratedLinesDefaultAtDraw(d);
      ExactlyOneDefaultAt(GeneratedLines(d), d.defaultIdx);
    case JsonNull =>
      NormalizedSingleDefault(GeneratedLines(d));
    case Decoded(s) =>
      NormalizedSingleDefault(s);
  }

  /** Every generated user name is one of the eight names followed by three digits. */
  lemma GeneratedUserNames(d: UserDraws)
    requires ValidUserDraws(d)
    ensures forall i :: 0 <= i < d.userCount ==>
      var name := GeneratedUsers(d)[i].userName;
      |name| >= 3 && name[..|name| - 3] in Names && DigitsToNat(name[|name| - 3..]) == d.suffixes[i]
  {
    forall i | 0 <= i < d.userCount
      ensures var name := GeneratedUsers(d)[i].userName;
        |name| >= 3 && name[..|name| - 3] in Names && DigitsToNat(name[|name| - 3..]) == d.suffixes[i]
    {
      var base := Names[d.nameIdx[i]];
      var digits := NatToString(d.suffixes[i]);
      NatToStringThreeDigits(d.suffixes[i]);
      DigitsToNatOfNatToString(d.suffixes[i]);
      var name := base + digits;
      assert name[..|name| - 3] == base;
      assert name[|name| - 3..] == digits;
    }
  }

  // ---------------------------------------------------------------------------------------------
  // The store
  // ---------------------------------------------------------------------------------------------

  class DummyDatabase {
    var users: seq<User>
    var lines: LineList

    /** `GetData()` hands out the live list, not a copy: changes made through it change the store. */
    function GetData(): (data: LineList)
      reads this
      ensures data == lines
    {
      lines
    }

    /** The constructor runs `Load` on the stored documents (the final `Save` is not modelled). */
    constructor (storedLines: Stored<seq<LineInfo>>, storedUsers: Stored<seq<User>>, lineDraws: LineDraws, userDraws: UserDraws)
      requires ValidLineDraws(lineDraws) && ValidUserDraws(userDraws)
      ensures fresh(lines)
      ensures lines.items == LoadedLines(storedLines, lineDraws)
      ensures SingleDefault(lines.items)
      ensures users == LoadedUsers(storedUsers, userDraws)
    {
      var loaded: LineList;
      match storedLines {
        case Missing =>
          var generated := GenerateRandomLines(lineDraws);
          loaded := new LineList(generated);
        case JsonNull =>
          var generated := GenerateRandomLines(lineDraws);
          loaded := new LineList(generated);
          NormalizeDefault(loaded);
        case Decoded(s) =>
          loaded := new LineList(s);
          NormalizeDefault(loaded);
      }
      var loadedUsers: seq<User>;
      match storedUsers {
        case Decoded(s) =>
          loadedUsers := s;
        case _ =>
          loadedUsers := GenerateRandomUsers(userDraws);
      }
      lines := loaded;
      users := loadedUsers;
      LoadedLinesSingleDefault(storedLines, lineDraws);
    }

    /** `GenerateRandomUsers`, with the random draws given. */
    static method GenerateRandomUsers(d: UserDraws) returns (list: seq<User>)
      requires ValidUserDraws(d)
      ensures list == GeneratedUsers(d)
      ensures 3 <= |list| <= 7
      ensures forall i :: 0 <= i < |list| ==>
        list[i].userId == d.userIds[i] && list[i].password == d.passwords[i] &&
        list[i].authLevel == AuthLevels[d.levelIdx[i]] && list[i].userName == Names[d.nameIdx[i]] + NatToString(d.suffixes[i])
    {
      list := [];
      var i := 0;
      while i < d.userCount
        invariant 0 <= i <= d.userCount
        invariant |list| == i
        invariant forall k :: 0 <= k < i ==> list[k] == GeneratedUser(d, k)
      {
        var user := User(d.userIds[i], Names[d.nameIdx[i]] + NatToString(d.suffixes[i]), d.passwords[i], AuthLevels[d.levelIdx[i]]);
        list := list + [user];
        i := i + 1;
      }
    }

    /** `GenerateRandomLines`, with the random draws given. */
    static method GenerateRandomLines(d: LineDraws) returns (list: seq<LineInfo>)
      requires ValidLineDraws(d)
      ensures list == GeneratedLines(d)
      ensures 4 <= |list| <= 10
      ensures DefaultOnlyAt(list, d.defaultIdx)
      ensures forall j :: 0 <= j < |list| ==>
        list[j].id == EmptyGuid &&
        list[j].ipAddress == "192.168.1." + NatToString(j + 10) &&
        1000 <= list[j].portnumber <= 9999
    {
      list := [];
      var j := 0;
      while j < d.lineCount
        invariant 0 <= j <= d.lineCount
        invariant |list| == j
        invariant forall k :: 0 <= k < j ==> list[k] == GeneratedLine(d, k)
      {
        var line := LineInfo(
          EmptyGuid,
          "Line_" + NatToString(j + 1) + "_" + d.nameTags[j],
          "192.168.1." + NatToString(j + 10),
          1000 + d.portDraws[j],
          j == d.defaultIdx);
        list := list + [line];
        j := j + 1;
      }
    }

    /** `NormalizeDefault`: rewrites the flags of `lines` in place. */
    static method NormalizeDefault(lines: LineList)
      modifies lines
      ensures lines.items == Normalized(old(lines.items))
    {
      if |lines.items| == 0 {
        return;
      }
      var firstDefault := IndexOfDefault(lines.items);
      if firstDefault == -1 {
        lines.items := lines.items[0 := lines.items[0].(isDefault := true)];
        var i := 1;
        while i < |lines.items|
          invariant 1 <= i <= |lines.items| == |old(lines.items)|
          invariant forall k :: 0 <= k < i ==> lines.items[k] == old(lines.items)[k].(isDefault := k == 0)
          invariant forall k :: i <= k < |lines.items| ==> lines.items[k] == old(lines.items)[k]
        {
          lines.items := lines.items[i := lines.items[i].(isDefault := false)];
          i := i + 1;
        }
      } else {
        var i := 0;
        while i < |lines.items|
          invariant 0 <= i <= |lines.items| == |old(lines.items)|
          invariant forall k :: 0 <= k < i ==> lines.items[k] == old(lines.items)[k].(isDefault := k == firstDefault)
          invariant forall k :: i <= k < |lines.items| ==> lines.items[k] == old(lines.items)[k]
        {
          lines.items := lines.items[i := lines.items[i].(isDefault := i == firstDefault)];
          i := i + 1;
        }
      }
    }
  }
}
