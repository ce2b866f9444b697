/** The levelling state of js/gamification.js (GamificationManager): experience is
    carried over from level to level against a table of requirements. */
module Gamification {
  import opened Common

  datatype UserData = UserData(level: int, currentExp: int, title: string, avatar: string)

  const DefaultTitle: string := "見習い冒険者"

  /** The requirement for leaving `level`: `levelTable[level] || 999999`.  A slot the table
      never filled (index 0, or the whole table before it is generated) holds 0, which is
      falsy just like the missing entry. */
  function Requirement(table: seq<int>, level: int): (r: int)
    ensures r > 0 || (0 <= level < |table| && r == table[level])
    ensures (0 <= level < |table| && table[level] > 0) ==> r == table[level]
    ensures !(0 <= level < |table|) ==> r == 999999
  {
    if 0 <= level < |table| && table[level] != 0 then table[level] else 999999
  }

  predicate TableOk(table: seq<int>) {
    forall i :: 0 <= i < |table| ==> table[i] >= 0
  }

  /** The state checkLevelUp reaches: level up while the exp covers the requirement. */
  function Settle(table: seq<int>, level: int, exp: int): (r: (int, int))
    requires TableOk(table)
    ensures r.0 >= level && r.1 <= exp
    ensures r.1 < Requirement(table, r.0)
    decreases exp
  {
    var need := Requirement(table, level);
    if exp >= need then Settle(table, level + 1, exp - need) else (level, exp)
  }

  /** The experience needed to climb from `from` to `to`: the sum of the requirements of
      the levels left on the way. */
  function ExpBetween(table: seq<int>, from: int, to: int): int
    decreases to - from
  {
    if from >= to then 0 else Requirement(table, from) + ExpBetween(table, from + 1, to)
  }

  /** Settling consumes exactly the requirements of the levels it leaves: what remains plus
      what was consumed is what there was. */
  lemma {:induction false} SettleConserves(table: seq<int>, level: int, exp: int)
    requires TableOk(table)
    ensures var r := Settle(table, level, exp);
      r.1 + ExpBetween(table, level, r.0) == exp
    decreases exp
  {
    var need := Requirement(table, level);
    if exp >= need {
      SettleConserves(table, level + 1, exp - need);
    }
  }

  /** Settling an already settled state changes nothing. */
  lemma SettleIdempotent(table: seq<int>, level: int, exp: int)
    requires TableOk(table)
    ensures var r := Settle(table, level, exp); Settle(table, r.0, r.1) == r
  {
  }

  /** The table generateLevelTable fills: level i needs 100·i, for i in 1..100. */
  function GeneratedTable(): (t: seq<int>)
    ensures |t| == 101 && TableOk(t)
    ensures forall i :: 1 <= i <= 100 ==> t[i] == 100 * i
  {
    seq(101, i requires 0 <= i < 101 => 100 * i)
  }

  lemma GeneratedRequirement(level: int)
    ensures 1 <= level <= 100 ==> Requirement(GeneratedTable(), level) == 100 * level
    ensures !(1 <= level <= 100) ==> Requirement(GeneratedTable(), level) == 999999
  {
  }

  /** Gaining 250 from level 1 with no exp: level 1 needs 100, level 2 needs 200, so the
      state ends at level 2 with 150 exp. */
  lemma Gain250FromStart()
    ensures Settle(GeneratedTable(), 1, 250) == (2, 150)
  {
    GeneratedRequirement(1);
    GeneratedRequirement(2);
  }

  /** updateTitle: the title for a level. */
  function TitleFor(level: int): string {
    if level >= 50 then "伝説の勇者"
    else if level >= 30 then "マスター研究者"
    else if level >= 20 then "ベテラン冒険者"
    else if level >= 10 then "一人前の冒険者"
    else if level >= 5 then "駆け出し研究者"
    else DefaultTitle
  }

  /** The rank of a title on the ladder, 0 for the default title. */
  function TitleRank(level: int): (k: nat)
    ensures k <= 5
    ensures k == 0 <==> TitleFor(level) == DefaultTitle
  {
    if level >= 50 then 5 else if level >= 30 then 4 else if level >= 20 then 3
    else if level >= 10 then 2 else if level >= 5 then 1 else 0
  }

  /** The title never moves down the ladder as the level rises, and distinct ranks carry
      distinct titles. */
  lemma TitleMonotone(l1: int, l2: int)
    ensures l1 <= l2 ==> TitleRank(l1) <= TitleRank(l2)
    ensures TitleRank(l1) == TitleRank(l2) <==> TitleFor(l1) == TitleFor(l2)
  {
  }

  class GamificationManager {
    var level: int
    var currentExp: int
    var title: string
    var avatar: string
    var levelTable: array<int>
    /** localStorage['quest_board_user_data'] */
    var saved: Stored<UserData>

    ghost predicate Valid()
      reads this, levelTable
    {
      levelTable.Length == 101 && TableOk(levelTable[..])
    }

    /** The initial user data and an empty level table. */
    constructor (saved: Stored<UserData>)
      ensures Valid() && fresh(levelTable)
      ensures level == 1 && currentExp == 0 && title == DefaultTitle && avatar == "\U{1F42F}"
      ensures this.saved == saved
      ensures forall i :: 0 <= i < 101 ==> levelTable[i] == 0
    {
      level, currentExp, title, avatar := 1, 0, DefaultTitle, "\U{1F42F}";
      levelTable := new int[101](i => 0);
      this.saved := saved;
    }

    method GenerateLevelTable()
      requires Valid()
      modifies levelTable
      ensures Valid()
      ensures forall i :: 1 <= i <= 100 ==> levelTable[i] == 100 * i
      ensures levelTable[0] == old(levelTable[0])
    {
      var i := 1;
      while i <= 100
        invariant 1 <= i <= 101
        invariant forall k :: 1 <= k < i ==> levelTable[k] == 100 * k
        invariant forall k :: i <= k < 101 ==> levelTable[k] == old(levelTable[k])
        invariant levelTable[0] == old(levelTable[0])
      {
        levelTable[i] := i * 100;
        i := i + 1;
      }
    }

    /** loadData: stored data replaces the user data; unparsable data is ignored. */
    method LoadData()
      modifies this`level, this`currentExp, this`title, this`avatar
      ensures saved.Parsed? ==>
        ((level, currentExp, title, avatar)
         == (saved.value.level, saved.value.currentExp, saved.value.title, saved.value.avatar))
      ensures !saved.Parsed? ==>
        ((level, currentExp, title, avatar) == old((level, currentExp, title, avatar)))
    {
      if saved.Parsed? {
        var d := saved.value;
        level, currentExp, title, avatar := d.level, d.currentExp, d.title, d.avatar;
      }
    }

    function NextLevelExp(): (r: int)
      reads this, levelTable
      ensures r == Requirement(levelTable[..], level)
    {
      if 0 <= level < levelTable.Length && levelTable[level] != 0 then levelTable[level] else 999999
    }

    method CheckLevelUp()
      requires Valid()
      modifies this`level, this`currentExp, this`title
      ensures Valid()
      ensures (level, currentExp) == Settle(levelTable[..], old(level), old(currentExp))
      ensures title == if level == old(level) then old(title) else TitleFor(level)
      decreases currentExp
    {
      var next := NextLevelExp();
      if currentExp >= next {
        level := level + 1;
        currentExp := currentExp - next;
        title := TitleFor(level);
        CheckLevelUp();
      }
    }

    /** gainExp: add the amount, apply every level-up it pays for, save, and return the
        remaining exp. */
    method GainExp(amount: int) returns (r: int)
      requires Valid()
      modifies this`level, this`currentExp, this`title, this`saved
      ensures Valid()
      ensures (level, currentExp) == Settle(levelTable[..], old(level), old(currentExp) + amount)
      ensures r == currentExp && currentExp < NextLevelExp() && level >= old(level)
      ensures title == if level == old(level) then old(title) else TitleFor(level)
      ensures saved == Parsed(UserData(level, currentExp, title, avatar))
    {
      currentExp := currentExp + amount;
      CheckLevelUp();
      saved := Parsed(UserData(level, currentExp, title, avatar));
      r := currentExp;
    }
  }

  /** The worked case on a manager: a generated table, then 250 exp from the start. */
  method GainExpExample() returns (level: int, exp: int)
    ensures level == 2 && exp == 150
  {
    var g := new GamificationManager(Missing);
    g.GenerateLevelTable();
    assert g.levelTable[..] == GeneratedTable();
    exp := g.GainExp(250);
    Gain250FromStart();
    level := g.level;
  }
}
