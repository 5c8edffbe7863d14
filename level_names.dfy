/** The detective ranks of utils/database.py: the table stores a level
    number, the application shows a rank name, and the two conversions map
    between them with defaults for NULL and unknown values. */
module LevelNames {
  import opened Wrappers
  import GamificationStore

  /** The six ranks, level 1 first. */
  const Ranks: seq<string> := ["Rookie Detective", "Junior Detective", "Detective",
                               "Senior Detective", "Chief Detective", "Legendary Detective"]

  predicate IsRank(name: string) {
    name in Ranks
  }

  lemma RanksDistinct()
    ensures forall i, j :: 0 <= i < j < |Ranks| ==> Ranks[i] != Ranks[j]
  {
  }

  /** The read conversion: levels 1 to 6 name their rank, every other number the first. */
  function RankName(level: int): (name: string)
    ensures IsRank(name)
    ensures 1 <= level <= 6 ==> name == Ranks[level - 1]
    ensures !(1 <= level <= 6) ==> name == "Rookie Detective"
  {
    if 1 <= level <= 6 then Ranks[level - 1] else Ranks[0]
  }

  /** The index of the first occurrence of `name` in `names`, if any. */
  function IndexOf(names: seq<string>, name: string): (r: Option<nat>)
    ensures r.None? <==> name !in names
    ensures r.Some? ==> r.value < |names| && names[r.value] == name
                        && forall k :: 0 <= k < r.value ==> names[k] != name
  {
    if names == [] then None
    else if names[0] == name then Some(0)
    else
      var r := IndexOf(names[1..], name);
      assert forall k :: 1 <= k < |names| ==> names[k] == names[1..][k - 1];
      if r.Some? then Some(r.value + 1) else None
  }

  /** The write conversion of a rank name: its level, or 1 for an unknown name. */
  function RankLevel(name: string): (level: int)
    ensures 1 <= level <= 6
    ensures IsRank(name) ==> Ranks[level - 1] == name
    ensures !IsRank(name) ==> level == 1
  {
    match IndexOf(Ranks, name)
    case Some(i) => i + 1
    case None => 1
  }

  /** Reading back a written rank gives the same name. */
  lemma NameRoundTrip(name: string)
    requires IsRank(name)
    ensures RankName(RankLevel(name)) == name
  {
  }

  /** Writing back a read level 1 to 6 gives the same number. */
  lemma LevelRoundTrip(level: int)
    requires 1 <= level <= 6
    ensures RankLevel(RankName(level)) == level
  {
    RanksDistinct();
  }

  /** The `level` entry handed to `update_gamification`: a name or a number. */
  datatype LevelValue = Name(name: string) | Number(number: int)

  /** The level `update_gamification` writes: a missing entry is 1, a name
      is converted, a number passes through unchanged. */
  function StoredLevel(level: Option<LevelValue>): (n: int)
    ensures level.None? ==> n == 1
    ensures level.Some? && level.value.Name? ==> 1 <= n <= 6 && (IsRank(level.value.name) <==> Ranks[n - 1] == level.value.name)
    ensures level.Some? && level.value.Name? && !IsRank(level.value.name) ==> n == 1
    ensures level.Some? && level.value.Number? ==> n == level.value.number
  {
    match level
    case None => 1
    case Some(Name(name)) => RankLevel(name)
    case Some(Number(k)) => k
  }

  /** A row of the `gamification` table as utils/database.py reads it; None is NULL. */
  datatype Row = Row(
    userId: string,
    totalPoints: Option<int>,
    level: Option<int>,
    quizzesCompleted: Option<int>,
    perfectScores: Option<int>,
    streakDays: Option<int>,
    currentStreak: Option<int>,
    longestStreak: Option<int>,
    badges: Option<seq<string>>)

  /** The dictionary `get_gamification` returns. */
  datatype View = View(
    userId: string,
    totalPoints: int,
    level: string,
    quizzesCompleted: int,
    perfectScores: int,
    streakDays: int,
    currentStreak: int,
    longestStreak: int,
    badges: seq<string>)

  predicate NullAsZero(col: Option<int>, v: int) {
    (col.None? ==> v == 0) && (col.Some? ==> v == col.value)
  }

  /** `get_gamification`: None without a row; otherwise NULL counters read as
      0, NULL badges as [], and the stored level as its rank name with NULL
      and 0 read as level 1. */
  function GetGamification(row: Option<Row>): (v: Option<View>)
    ensures row.None? <==> v.None?
    ensures row.Some? ==>
              var r := row.value;
              var w := v.value;
              w.userId == r.userId
              && NullAsZero(r.totalPoints, w.totalPoints) && NullAsZero(r.quizzesCompleted, w.quizzesCompleted)
              && NullAsZero(r.perfectScores, w.perfectScores) && NullAsZero(r.streakDays, w.streakDays)
              && NullAsZero(r.currentStreak, w.currentStreak) && NullAsZero(r.longestStreak, w.longestStreak)
              && (r.badges.None? ==> w.badges == []) && (r.badges.Some? ==> w.badges == r.badges.value)
              && IsRank(w.level)
              && (r.level.None? || r.level.value == 0 ==> w.level == "Rookie Detective")
              && (r.level.Some? && 1 <= r.level.value <= 6 ==> w.level == Ranks[r.level.value - 1])
              && (r.level.Some? && !(1 <= r.level.value <= 6) ==> w.level == "Rookie Detective")
  {
    match row
    case None => None
    case Some(r) =>
      var orZero := (c: Option<int>) => GamificationStore.OrElse(c, 0);
      Some(View(r.userId, orZero(r.totalPoints), RankName(GamificationStore.OrElse(r.level, 1)),
                orZero(r.quizzesCompleted), orZero(r.perfectScores), orZero(r.streakDays),
                orZero(r.currentStreak), orZero(r.longestStreak),
                if r.badges.Some? then r.badges.value else []))
  }

  /** The dictionary handed to `update_gamification`; None is a missing key. */
  datatype UpdateData = UpdateData(
    totalPoints: Option<int>,
    level: Option<LevelValue>,
    quizzesCompleted: Option<int>,
    perfectScores: Option<int>,
    streakDays: Option<int>,
    currentStreak: Option<int>,
    longestStreak: Option<int>,
    badges: Option<seq<string>>)

  /** A counter column after the update: the key's value, or 0 when the key is missing. */
  predicate MissingAsZero(key: Option<int>, col: Option<int>) {
    (key.None? ==> col == Some(0)) && (key.Some? ==> col == key)
  }

  /** `update_gamification` on the user's row: every counter is written from
      the data, a missing key as 0; the level as `StoredLevel` converts it; the
      badges as given, a missing key as none. The UPDATE matches no row when
      the user has none, and then nothing is written. */
  function UpdateGamification(row: Option<Row>, data: UpdateData): (r: Option<Row>)
    ensures row.None? <==> r.None?
    ensures row.Some? ==>
              var w := r.value;
              w.userId == row.value.userId
              && MissingAsZero(data.totalPoints, w.totalPoints) && MissingAsZero(data.quizzesCompleted, w.quizzesCompleted)
              && MissingAsZero(data.perfectScores, w.perfectScores) && MissingAsZero(data.streakDays, w.streakDays)
              && MissingAsZero(data.currentStreak, w.currentStreak) && MissingAsZero(data.longestStreak, w.longestStreak)
              && w.level == Some(StoredLevel(data.level))
              && (data.badges.None? ==> w.badges == Some([])) && (data.badges.Some? ==> w.badges == data.badges)
  {
    match row
    case None => None
    case Some(r) =>
      var orZero := (k: Option<int>) => Some(if k.Some? then k.value else 0);
      Some(Row(r.userId, orZero(data.totalPoints), Some(StoredLevel(data.level)),
               orZero(data.quizzesCompleted), orZero(data.perfectScores), orZero(data.streakDays),
               orZero(data.currentStreak), orZero(data.longestStreak),
               Some(if data.badges.Some? then data.badges.value else [])))
  }

  /** The data a caller writes back after reading a view: every key present,
      the level as its rank name. */
  function AsUpdate(v: View): UpdateData {
    UpdateData(Some(v.totalPoints), Some(Name(v.level)), Some(v.quizzesCompleted), Some(v.perfectScores),
               Some(v.streakDays), Some(v.currentStreak), Some(v.longestStreak), Some(v.badges))
  }

  /** Reading a row, writing the view back and reading again gives the same
      view: counters, badges and the rank all survive the round trip. */
  lemma {:induction false} ReadWriteRead(row: Row)
    ensures var v := GetGamification(Some(row)).value;
            GetGamification(UpdateGamification(Some(row), AsUpdate(v))) == Some(v)
  {
    var v := GetGamification(Some(row)).value;
    NameRoundTrip(v.level);
  }
}
