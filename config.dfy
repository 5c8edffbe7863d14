/** The lookups of config/__init__.py over the loaded configuration. Loading
    the YAML file is not modelled: the three tables and the gamification
    settings are values. */
module Config {
  import opened Wrappers

  datatype AgeGroup = AgeGroup(name: string, minAge: int, maxAge: int)

  datatype ConceptEntry = ConceptEntry(id: string, name: string)

  datatype Level = Level(name: string, minPoints: int, maxPoints: int)

  /** A configured badge: its id and the criteria text evaluated against the player. */
  datatype BadgeDef = BadgeDef(id: string, name: string, criteria: string)

  datatype GamificationConfig = GamificationConfig(
    pointsPerCorrect: int,
    pointsPerQuiz: int,
    levels: seq<Level>,
    badges: seq<BadgeDef>)

  predicate InAgeGroup(g: AgeGroup, age: int) {
    g.minAge <= age <= g.maxAge
  }

  /** `get_age_group`: the first group whose inclusive range holds `age`. */
  function GetAgeGroup(groups: seq<AgeGroup>, age: int): (r: Option<AgeGroup>)
    ensures r.None? <==> forall i :: 0 <= i < |groups| ==> !InAgeGroup(groups[i], age)
    ensures r.Some? ==> exists i :: 0 <= i < |groups| && groups[i] == r.value
                                    && InAgeGroup(r.value, age)
                                    && forall j :: 0 <= j < i ==> !InAgeGroup(groups[j], age)
  {
    if groups == [] then None
    else if InAgeGroup(groups[0], age) then Some(groups[0])
    else
      var r := GetAgeGroup(groups[1..], age);
      assert forall i :: 1 <= i < |groups| ==> groups[i] == groups[1..][i - 1];
      if r.Some? then
        var i :| 0 <= i < |groups[1..]| && groups[1..][i] == r.value && InAgeGroup(r.value, age)
                 && forall j :: 0 <= j < i ==> !InAgeGroup(groups[1..][j], age);
        assert groups[i + 1] == r.value;
        assert forall j :: 0 <= j < i + 1 ==> !InAgeGroup(groups[j], age) by {
          forall j | 0 <= j < i + 1 ensures !InAgeGroup(groups[j], age) {
            if j > 0 {
              assert groups[j] == groups[1..][j - 1];
            }
          }
        }
        r
      else r
  }

  /** `get_concept`: the first concept with the given id. */
  function GetConcept(concepts: seq<ConceptEntry>, id: string): (r: Option<ConceptEntry>)
    ensures r.None? <==> forall i :: 0 <= i < |concepts| ==> concepts[i].id != id
    ensures r.Some? ==> r.value.id == id && exists i :: 0 <= i < |concepts| && concepts[i] == r.value
                                                     && forall j :: 0 <= j < i ==> concepts[j].id != id
  {
    if concepts == [] then None
    else if concepts[0].id == id then Some(concepts[0])
    else
      var r := GetConcept(concepts[1..], id);
      assert forall i :: 1 <= i < |concepts| ==> concepts[i] == concepts[1..][i - 1];
      if r.Some? then
        var i :| 0 <= i < |concepts[1..]| && concepts[1..][i] == r.value
                 && forall j :: 0 <= j < i ==> concepts[1..][j].id != id;
        assert concepts[i + 1] == r.value;
        assert forall j :: 0 <= j < i + 1 ==> concepts[j].id != id by {
          forall j | 0 <= j < i + 1 ensures concepts[j].id != id {
            if j > 0 {
              assert concepts[j] == concepts[1..][j - 1];
            }
          }
        }
        r
      else r
  }

  predicate InLevel(l: Level, points: int) {
    l.minPoints <= points <= l.maxPoints
  }

  /** The first level whose inclusive range holds `points`, if any. */
  function FirstLevel(levels: seq<Level>, points: int): (r: Option<nat>)
    ensures r.None? <==> forall i :: 0 <= i < |levels| ==> !InLevel(levels[i], points)
    ensures r.Some? ==> r.value < |levels| && InLevel(levels[r.value], points)
                        && forall j :: 0 <= j < r.value ==> !InLevel(levels[j], points)
  {
    if levels == [] then None
    else if InLevel(levels[0], points) then Some(0)
    else
      var r := FirstLevel(levels[1..], points);
      assert forall i :: 1 <= i < |levels| ==> levels[i] == levels[1..][i - 1];
      if r.Some? then Some(r.value + 1) else None
  }

  /** `get_level_for_points`: the first level holding `points`, otherwise the
      last level. The list must not be empty, as `levels[-1]` raises on an
      empty one. */
  function GetLevelForPoints(levels: seq<Level>, points: int): (l: Level)
    requires |levels| > 0
    ensures l in levels
    ensures (forall i :: 0 <= i < |levels| ==> !InLevel(levels[i], points)) ==> l == levels[|levels| - 1]
    ensures InLevel(l, points) || l == levels[|levels| - 1]
    ensures FirstLevel(levels, points).Some? ==> l == levels[FirstLevel(levels, points).value]
  {
    match FirstLevel(levels, points)
    case Some(i) => levels[i]
    case None => levels[|levels| - 1]
  }

  /** Points below every configured range still yield the last level. */
  lemma PointsBelowAllLevelsGiveLast(levels: seq<Level>, points: int)
    requires |levels| > 0
    requires forall i :: 0 <= i < |levels| ==> points < levels[i].minPoints
    ensures GetLevelForPoints(levels, points) == levels[|levels| - 1]
  {
  }

  /** With adjoining ranges in increasing order, more points never mean an
      earlier level. */
  lemma {:induction false} LevelIndexMonotone(levels: seq<Level>, a: int, b: int)
    requires forall i :: 0 <= i < |levels| ==> levels[i].minPoints <= levels[i].maxPoints
    requires forall i :: 0 <= i < |levels| - 1 ==> levels[i + 1].minPoints == levels[i].maxPoints + 1
    requires a <= b
    requires FirstLevel(levels, a).Some? && FirstLevel(levels, b).Some?
    ensures FirstLevel(levels, a).value <= FirstLevel(levels, b).value
  {
    var i, j := FirstLevel(levels, a).value, FirstLevel(levels, b).value;
    if j < i {
      AscendingRanges(levels, j, i);
      assert false;
    }
  }

  lemma {:induction false} AscendingRanges(levels: seq<Level>, j: nat, i: nat)
    requires forall k :: 0 <= k < |levels| ==> levels[k].minPoints <= levels[k].maxPoints
    requires forall k :: 0 <= k < |levels| - 1 ==> levels[k + 1].minPoints == levels[k].maxPoints + 1
    requires j < i < |levels|
    ensures levels[j].maxPoints < levels[i].minPoints
    decreases i - j
  {
    if j + 1 < i {
      AscendingRanges(levels, j + 1, i);
    }
  }
}
