/**
 * The competence aggregator of App.tsx (`updateCompetence`): one impact is
 * folded into a copy of the user's per-culture score map, the touched entry
 * is clamped to 0..100, and the overall score is recomputed as the rounded
 * mean of every entry, or 0 when there is none.
 */
module Competence {
  import opened Types

  const MinScore := 0
  const MaxScore := 100

  /** `Math.max(lo, Math.min(hi, x))`. */
  function Clamp(x: int, lo: int, hi: int): (r: int)
    requires lo <= hi
    ensures lo <= r <= hi
    ensures lo <= x <= hi ==> r == x
    ensures x < lo ==> r == lo
    ensures hi < x ==> r == hi
  {
    if x < lo then lo else if hi < x then hi else x
  }

  /**
   * `Math.round(s / n)` for an integer sum `s` and a positive count `n`:
   * JavaScript rounds to the nearest integer and breaks ties upwards, which
   * is the floor of `s / n + 1/2`; Dafny's `/` floors for a positive divisor.
   */
  function RoundHalfUp(s: int, n: int): (r: int)
    requires n > 0
    ensures 2 * n * r - n <= 2 * s < 2 * n * r + n
  {
    (2 * s + n) / (2 * n)
  }

  /** Multiplying by a positive factor keeps the order. */
  lemma MulMonotone(n: int, a: int, b: int)
    requires n > 0 && a <= b
    ensures n * a <= n * b
  {
    var d := b - a;
    assert n * b == n * a + n * d;
  }

  /** The rounding is unique: no other integer lies within half a unit of `s / n` that way. */
  lemma RoundHalfUpUnique(s: int, n: int, k: int)
    requires n > 0
    requires 2 * n * k - n <= 2 * s < 2 * n * k + n
    ensures RoundHalfUp(s, n) == k
  {
    var r := RoundHalfUp(s, n);
    if r < k {
      MulMonotone(2 * n, r + 1, k);
    } else if r > k {
      MulMonotone(2 * n, k + 1, r);
    }
  }

  /** The entry the source reads for a culture: `currentScores[cultureId] || 0`. */
  function ScoreOf(scores: map<string, int>, cultureId: string): (r: int)
    ensures cultureId in scores ==> r == scores[cultureId]
    ensures cultureId !in scores ==> r == 0
  {
    if cultureId in scores then scores[cultureId] else 0
  }

  /** The sum of every value in the map, the `reduce((a, b) => a + b, 0)` of the source. */
  ghost function Sum(scores: map<string, int>): int
    decreases |scores|
  {
    if scores == map[] then 0
    else
      var k :| k in scores;
      scores[k] + Sum(scores - {k})
  }

  /** The sum does not depend on the order in which the entries are visited. */
  lemma {:induction false} SumRemove(scores: map<string, int>, k: string)
    requires k in scores
    ensures Sum(scores) == scores[k] + Sum(scores - {k})
    decreases |scores|
  {
    var j :| j in scores && Sum(scores) == scores[j] + Sum(scores - {j});
    if j != k {
      assert scores - {j} - {k} == scores - {k} - {j};
      SumRemove(scores - {j}, k);
      SumRemove(scores - {k}, j);
    }
  }

  /** Every entry lies in `lo..hi`. */
  ghost predicate AllWithin(scores: map<string, int>, lo: int, hi: int)
  {
    forall k | k in scores :: lo <= scores[k] <= hi
  }

  /** With every entry in 0..100, the sum lies between 0 and 100 times the number of entries. */
  lemma {:induction false} SumBounds(scores: map<string, int>)
    requires AllWithin(scores, MinScore, MaxScore)
    ensures 0 <= Sum(scores) <= 100 * |scores|
    decreases |scores|
  {
    if scores != map[] {
      var k :| k in scores;
      var rest := scores - {k};
      SumRemove(scores, k);
      SumBounds(rest);
      assert |scores| == |rest| + 1 by {
        assert rest.Keys == scores.Keys - {k};
      }
    }
  }

  /** The overall score of a score map: the rounded mean of its values, or 0 for an empty map. */
  ghost function Overall(scores: map<string, int>): int
  {
    if |scores| == 0 then 0 else RoundHalfUp(Sum(scores), |scores|)
  }

  /** A profile whose overall score is the one its score map determines. */
  ghost predicate Consistent(p: UserCulturalProfile)
  {
    p.overallCompetence == Overall(p.culturalCompetenceScore)
  }

  /** The copied score map with the culture's entry replaced by the clamped new score. */
  function UpdatedScores(scores: map<string, int>, cultureId: string, impact: int): (r: map<string, int>)
    ensures r.Keys == scores.Keys + {cultureId}
    ensures r[cultureId] == Clamp(ScoreOf(scores, cultureId) + impact, MinScore, MaxScore)
    ensures forall k | k in scores && k != cultureId :: r[k] == scores[k]
  {
    scores[cultureId := Clamp(ScoreOf(scores, cultureId) + impact, MinScore, MaxScore)]
  }

  /** The profile `updateCompetence` hands back for `prev`, as a specification. */
  ghost function Updated(prev: UserCulturalProfile, cultureId: string, impact: int): UserCulturalProfile
  {
    var scores := UpdatedScores(prev.culturalCompetenceScore, cultureId, impact);
    prev.(culturalCompetenceScore := scores, overallCompetence := Overall(scores))
  }

  /** Sums the map's values one entry at a time. */
  method SumValues(scores: map<string, int>) returns (total: int)
    ensures total == Sum(scores)
  {
    total := 0;
    var rest := scores;
    while rest != map[]
      invariant total + Sum(rest) == Sum(scores)
      decreases |rest|
    {
      var k :| k in rest;
      SumRemove(rest, k);
      total := total + rest[k];
      rest := rest - {k};
    }
  }

  /** The updater passed to `setCurrentUser`: copy, clamp one entry, recompute the overall score. */
  method NextProfile(prev: UserCulturalProfile, cultureId: string, impact: int) returns (next: UserCulturalProfile)
    ensures next == Updated(prev, cultureId, impact)
  {
    var scores := UpdatedScores(prev.culturalCompetenceScore, cultureId, impact);
    var overall := 0;
    if |scores| > 0 {
      var total := SumValues(scores);
      overall := RoundHalfUp(total, |scores|);
    }
    next := prev.(culturalCompetenceScore := scores, overallCompetence := overall);
  }

  /** The application state that owns the logged-in user (`currentUser`, null when logged out). */
  class AppState {
    var currentUser: Option<UserCulturalProfile>

    constructor (user: Option<UserCulturalProfile>)
      ensures currentUser == user
    {
      currentUser := user;
    }

    /** `updateCompetence(impact, cultureId)`: a no-op when nobody is logged in. */
    method UpdateCompetence(impact: int, cultureId: string)
      modifies this
      ensures old(currentUser).None? ==> currentUser == None
      ensures old(currentUser).Some? ==> currentUser == Some(Updated(old(currentUser).value, cultureId, impact))
    {
      if currentUser.Some? {
        var next := NextProfile(currentUser.value, cultureId, impact);
        currentUser := Some(next);
      }
    }
  }

  // Properties of the aggregator.

  /** The touched entry is the clamped sum of its old value (0 if absent) and the impact; it is in 0..100. */
  lemma UpdatedEntry(prev: UserCulturalProfile, cultureId: string, impact: int)
    ensures var r := Updated(prev, cultureId, impact).culturalCompetenceScore;
      && cultureId in r
      && r[cultureId] == Clamp(ScoreOf(prev.culturalCompetenceScore, cultureId) + impact, 0, 100)
      && 0 <= r[cultureId] <= 100
  {
  }

  /** The key set grows by the culture at most, other entries and the identity fields are untouched. */
  lemma UpdatedFrame(prev: UserCulturalProfile, cultureId: string, impact: int)
    ensures var next := Updated(prev, cultureId, impact);
      && next.culturalCompetenceScore.Keys == prev.culturalCompetenceScore.Keys + {cultureId}
      && (forall k | k in prev.culturalCompetenceScore && k != cultureId ::
            next.culturalCompetenceScore[k] == prev.culturalCompetenceScore[k])
      && next.userId == prev.userId && next.username == prev.username
      && next.originCultureId == prev.originCultureId
  {
  }

  /** The overall score is the rounded mean: within half a point of sum/count, and 0 for no entries. */
  lemma OverallIsRoundedMean(scores: map<string, int>)
    ensures |scores| == 0 ==> Overall(scores) == 0
    ensures |scores| > 0 ==>
      2 * |scores| * Overall(scores) - |scores| <= 2 * Sum(scores) < 2 * |scores| * Overall(scores) + |scores|
  {
  }

  /** With every entry in 0..100 the overall score is in 0..100 too. */
  lemma OverallWithin(scores: map<string, int>)
    requires AllWithin(scores, MinScore, MaxScore)
    ensures MinScore <= Overall(scores) <= MaxScore
  {
    if |scores| > 0 {
      var n, r := |scores|, Overall(scores);
      SumBounds(scores);
      if r < MinScore {
        MulMonotone(2 * n, r, -1);
      } else if r > MaxScore {
        MulMonotone(2 * n, MaxScore + 1, r);
      }
    }
  }

  /** An update keeps every entry, and hence the overall score, in 0..100. */
  lemma UpdatedStaysWithin(prev: UserCulturalProfile, cultureId: string, impact: int)
    requires AllWithin(prev.culturalCompetenceScore, MinScore, MaxScore)
    ensures var next := Updated(prev, cultureId, impact);
      && AllWithin(next.culturalCompetenceScore, MinScore, MaxScore)
      && MinScore <= next.overallCompetence <= MaxScore
      && Consistent(next)
  {
    OverallWithin(Updated(prev, cultureId, impact).culturalCompetenceScore);
  }

  /** Impact 0 on an entry already in 0..100 of a consistent profile changes nothing at all. */
  lemma ZeroImpactOnTracked(prev: UserCulturalProfile, cultureId: string)
    requires Consistent(prev)
    requires cultureId in prev.culturalCompetenceScore
    requires MinScore <= prev.culturalCompetenceScore[cultureId] <= MaxScore
    ensures Updated(prev, cultureId, 0) == prev
  {
    assert UpdatedScores(prev.culturalCompetenceScore, cultureId, 0) == prev.culturalCompetenceScore;
  }

  /** Impact 0 on an untracked culture starts tracking it with score 0. */
  lemma ZeroImpactOnUntracked(prev: UserCulturalProfile, cultureId: string)
    requires cultureId !in prev.culturalCompetenceScore
    ensures Updated(prev, cultureId, 0).culturalCompetenceScore == prev.culturalCompetenceScore[cultureId := 0]
  {
  }

  /** The sum of a two-entry map. */
  lemma SumOfTwo(a: string, x: int, b: string, y: int)
    requires a != b
    ensures |map[a := x, b := y]| == 2
    ensures Sum(map[a := x, b := y]) == x + y
  {
    var m := map[a := x, b := y];
    SumRemove(m, a);
    assert m - {a} == map[b := y];
    SumRemove(map[b := y], b);
    assert map[b := y] - {b} == map[];
  }

  /** The first mock user: GERMANY 45 and JAPAN 30 give 38; +10 for GERMANY gives 55 and 43. */
  lemma MockUserAlice()
    ensures var alice := UserCulturalProfile("u1", "Alice Explorer", "USA", map["GERMANY" := 45, "JAPAN" := 30], 38);
      && Consistent(alice)
      && var next := Updated(alice, "GERMANY", 10);
      && next.culturalCompetenceScore == map["GERMANY" := 55, "JAPAN" := 30]
      && next.overallCompetence == 43
  {
    assert "GERMANY"[0] != "JAPAN"[0];
    var m := map["GERMANY" := 45, "JAPAN" := 30];
    SumOfTwo("GERMANY", 45, "JAPAN", 30);
    assert Overall(m) == RoundHalfUp(75, 2) == 38;
    var m' := map["GERMANY" := 55, "JAPAN" := 30];
    assert UpdatedScores(m, "GERMANY", 10) == m';
    SumOfTwo("GERMANY", 55, "JAPAN", 30);
    assert Overall(m') == RoundHalfUp(85, 2) == 43;
  }

  /** The second mock user: BRAZIL 60 and INDIA 55 give 57.5, rounded up to 58. */
  lemma MockUserBob()
    ensures Consistent(UserCulturalProfile("u2", "Bob Voyager", "GERMANY", map["BRAZIL" := 60, "INDIA" := 55], 58))
  {
    assert "BRAZIL"[0] != "INDIA"[0];
    SumOfTwo("BRAZIL", 60, "INDIA", 55);
    assert RoundHalfUp(115, 2) == 58;
  }

  /** An empty map and +5 for a new culture give that culture 5 and an overall score of 5. */
  lemma FirstCultureTracked(prev: UserCulturalProfile)
    requires prev.culturalCompetenceScore == map[]
    ensures Updated(prev, "USA", 5).culturalCompetenceScore == map["USA" := 5]
    ensures Updated(prev, "USA", 5).overallCompetence == 5
  {
    var m := map["USA" := 5];
    SumRemove(m, "USA");
    assert m - {"USA"} == map[];
    assert |m| == 1 && Sum(m) == 5;
    assert UpdatedScores(prev.culturalCompetenceScore, "USA", 5) == m;
  }
}
