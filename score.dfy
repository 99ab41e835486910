/** The engagement score of an orphanage profile (0 to 100), the refresh of
    stored scores, and the ranking of verified profiles by score. */
module Score {
  import opened Text
  import opened Seqs
  import opened Store
  import opened Http

  /** The inputs of the score; counts are whole numbers as the store keeps
      them, `daysSinceCreation` is a whole number of days. */
  datatype ScoreFactors = ScoreFactors(
    visitCount: int, actualVisits: int, events: int, needs: int,
    verificationStatus: string, daysSinceCreation: int)

  function RMin(a: real, b: real): real { if a <= b then a else b }
  function RMax(a: real, b: real): real { if a >= b then a else b }

  /** `Math.log10` is a parameter: all the model uses of it is that it is not
      negative from 1 on, which the profile-view term needs. */
  ghost predicate NonNegativeFromOne(log10: real -> real) {
    forall x :: x >= 1.0 ==> log10(x) >= 0.0
  }

  /** 20 points for a verified profile, 10 for a pending one, none for any
      other status. */
  function VerificationPoints(status: string): (r: real)
    ensures status == "VERIFIED" ==> r == 20.0
    ensures status == "PENDING" ==> r == 10.0
    ensures status != "VERIFIED" && status != "PENDING" ==> r == 0.0
  {
    match status
    case "VERIFIED" => 20.0
    case "PENDING" => 10.0
    case _ => 0.0
  }

  /** Profile views on a logarithmic scale, at most 25 points. */
  function ViewPoints(visitCount: int, log10: real -> real): (r: real)
    ensures r <= 25.0
    ensures visitCount <= 0 ==> r == 0.0
  {
    if visitCount > 0 then RMin(25.0, log10((visitCount + 1) as real) * 10.0) else 0.0
  }

  /** Three points per organization visit, at most 30. */
  function VisitPoints(actualVisits: int): (r: real)
    ensures 0.0 <= r <= 30.0
    ensures actualVisits >= 10 ==> r == 30.0
    ensures 0 <= actualVisits <= 10 ==> r == (3 * actualVisits) as real
  {
    if actualVisits > 0 then RMin(30.0, (actualVisits * 3) as real) else 0.0
  }

  /** Two points per event, at most 15. */
  function EventPoints(events: int): (r: real)
    ensures 0.0 <= r <= 15.0
    ensures events >= 8 ==> r == 15.0
    ensures 0 <= events <= 7 ==> r == (2 * events) as real
  {
    if events > 0 then RMin(15.0, (events * 2) as real) else 0.0
  }

  /** One and a half points per active need, at most 10. */
  function NeedPoints(needs: int): (r: real)
    ensures 0.0 <= r <= 10.0
    ensures needs >= 7 ==> r == 10.0
    ensures 0 <= needs <= 6 ==> r == needs as real * 1.5
  {
    if needs > 0 then RMin(10.0, needs as real * 1.5) else 0.0
  }

  /** A profile younger than 30 days gains 5 points; one older than 365 days
      that was never viewed loses 5; at most one of the two applies. */
  function RecencyPoints(daysSinceCreation: int, visitCount: int): (r: real)
    ensures r == 5.0 <==> daysSinceCreation < 30
    ensures r == -5.0 <==> daysSinceCreation > 365 && visitCount == 0
    ensures r == 0.0 <==> 30 <= daysSinceCreation && (daysSinceCreation <= 365 || visitCount != 0)
  {
    if daysSinceCreation < 30 then 5.0
    else if daysSinceCreation > 365 && visitCount == 0 then -5.0
    else 0.0
  }

  /** The score before rounding: the sum of the terms. */
  function RawScore(f: ScoreFactors, log10: real -> real): real {
    VerificationPoints(f.verificationStatus) + ViewPoints(f.visitCount, log10) +
    VisitPoints(f.actualVisits) + EventPoints(f.events) + NeedPoints(f.needs) +
    RecencyPoints(f.daysSinceCreation, f.visitCount)
  }

  /** `Math.round`: the nearest integer, halves rounded up. */
  function Round(x: real): (r: int)
    ensures r as real - 0.5 <= x < r as real + 0.5
  {
    (x + 0.5).Floor
  }

  /** `Math.round(x * 100) / 100`: x to two decimals. */
  function Round2(x: real): real {
    Round(x * 100.0) as real / 100.0
  }

  /** `Math.max(0, Math.min(100, x))`. */
  function Clamp(x: real): (r: real)
    ensures 0.0 <= r <= 100.0
    ensures 0.0 <= x <= 100.0 ==> r == x
  {
    RMax(0.0, RMin(100.0, x))
  }

  /** `calculateOrphanageScore`: the rounded, clamped sum of the terms. */
  function CalculateScore(f: ScoreFactors, log10: real -> real): (r: real)
    ensures 0.0 <= r <= 100.0
  {
    Clamp(Round2(RawScore(f, log10)))
  }

  lemma FloorMonotone(a: real, b: real)
    requires a <= b
    ensures a.Floor <= b.Floor
  {
    assert a.Floor as real <= b;
  }

  /** Rounding and clamping never reverse an order. */
  lemma FinishMonotone(a: real, b: real)
    requires a <= b
    ensures Clamp(Round2(a)) <= Clamp(Round2(b))
  {
    FloorMonotone(a * 100.0 + 0.5, b * 100.0 + 0.5);
  }

  /** The score never decreases when the organization visits, the events or
      the active needs grow, the other factors staying the same. */
  lemma ScoreMonotone(f: ScoreFactors, g: ScoreFactors, log10: real -> real)
    requires f.visitCount == g.visitCount && f.verificationStatus == g.verificationStatus
    requires f.daysSinceCreation == g.daysSinceCreation
    requires f.actualVisits <= g.actualVisits && f.events <= g.events && f.needs <= g.needs
    ensures CalculateScore(f, log10) <= CalculateScore(g, log10)
  {
    assert VisitPoints(f.actualVisits) <= VisitPoints(g.actualVisits);
    assert EventPoints(f.events) <= EventPoints(g.events);
    assert NeedPoints(f.needs) <= NeedPoints(g.needs);
    FinishMonotone(RawScore(f, log10), RawScore(g, log10));
  }

  /** Beyond ten organization visits, more visits change nothing. */
  lemma VisitsSaturate(f: ScoreFactors, log10: real -> real)
    requires f.actualVisits >= 10
    ensures CalculateScore(f, log10) == CalculateScore(f.(actualVisits := 10), log10)
  {
  }

  /** The raw score never leaves [-5, 105]: the clamp to [0, 100] only
      removes the old-profile penalty below zero and nothing above 100. */
  lemma RawScoreBounds(f: ScoreFactors, log10: real -> real)
    requires NonNegativeFromOne(log10)
    ensures -5.0 <= RawScore(f, log10) <= 105.0
    ensures f.visitCount > 0 ==> 0.0 <= RawScore(f, log10)
  {
    if f.visitCount > 0 {
      assert log10((f.visitCount + 1) as real) >= 0.0;
    }
  }

  lemma Round2OfWhole(n: int)
    ensures Round2(n as real) == n as real
  {
    assert (n as real * 100.0 + 0.5).Floor == n * 100;
  }

  /** A new profile with an unknown status and no activity scores 5. */
  lemma NewIdleProfileScoresFive(status: string, days: int, log10: real -> real)
    requires status != "VERIFIED" && status != "PENDING" && days < 30
    ensures CalculateScore(ScoreFactors(0, 0, 0, 0, status, days), log10) == 5.0
  {
    Round2OfWhole(5);
  }

  /** A verified profile older than a year with no activity scores 15. */
  lemma OldIdleVerifiedScoresFifteen(days: int, log10: real -> real)
    requires days > 365
    ensures CalculateScore(ScoreFactors(0, 0, 0, 0, "VERIFIED", days), log10) == 15.0
  {
    Round2OfWhole(15);
  }

  /** An unverified profile older than a year that was never viewed and has
      no activity would score -5; the clamp makes it 0. */
  lemma OldIdleUnverifiedScoresZero(days: int, log10: real -> real)
    requires days > 365
    ensures CalculateScore(ScoreFactors(0, 0, 0, 0, "REJECTED", days), log10) == 0.0
  {
    Round2OfWhole(-5);
  }

  /** A verified, week-old profile with ten organization visits, eight events
      and seven active needs reaches 80 with no profile views. */
  lemma BusyVerifiedProfile(log10: real -> real)
    ensures CalculateScore(ScoreFactors(0, 10, 8, 7, "VERIFIED", 7), log10) == 80.0
  {
    Round2OfWhole(80);
  }

  const MillisPerDay := 1000 * 60 * 60 * 24

  /** `Math.floor((now - createdAt) / 86400000)`: whole days elapsed, rounded
      down (negative for a date in the future). */
  function DaysSinceCreation(now: int, createdAt: int): (d: int)
    ensures d * MillisPerDay <= now - createdAt < (d + 1) * MillisPerDay
  {
    (now - createdAt) / MillisPerDay
  }

  // ---------------------------------------------------------------- refresh

  /** The factors of one profile as `updateOrphanageScore` gathers them:
      its views, the visits and events that reference it, its ACTIVE needs,
      its status, and the age of its user account. */
  function FactorsOf(p: OrphanageProfile, userCreatedAt: int, visits: map<string, Visit>,
                     events: map<string, Event>, needs: map<string, Need>, now: int): ScoreFactors
  {
    ScoreFactors(
      p.visitCount,
      |MatchingKeys(visits, (v: Visit) => v.orphanageId == p.id)|,
      |MatchingKeys(events, (e: Event) => e.orphanageId == p.id)|,
      |MatchingKeys(needs, (n: Need) => n.orphanageId == p.id && n.status == "ACTIVE")|,
      p.verificationStatus,
      DaysSinceCreation(now, userCreatedAt))
  }

  /** The score the profile stored under id gets on refresh; None when the
      profile or its user is missing (the source throws). */
  function FreshScoreIn(orphanages: map<string, OrphanageProfile>, users: map<string, User>,
                        visits: map<string, Visit>, events: map<string, Event>, needs: map<string, Need>,
                        id: string, now: int, log10: real -> real): Option<real>
  {
    if id in orphanages && orphanages[id].userId in users then
      var p := orphanages[id];
      Some(CalculateScore(FactorsOf(p, users[p.userId].createdAt, visits, events, needs, now), log10))
    else None
  }

  function FreshScore(db: Database, id: string, now: int, log10: real -> real): Option<real>
    reads db
  {
    FreshScoreIn(db.orphanages, db.users, db.visits, db.events, db.needs, id, now, log10)
  }

  /** `updateOrphanageScore`: stores and returns the profile's fresh score;
      nothing else changes. The foreign key of `Valid` gives every stored
      profile its user, so only a missing profile (where the update throws)
      answers None. */
  method UpdateOrphanageScore(db: Database, id: string, now: int, log10: real -> real)
    returns (r: Option<real>)
    requires db.Valid()
    modifies db`orphanages
    ensures db.Valid()
    ensures r == old(FreshScore(db, id, now, log10))
    ensures r.Some? <==> id in old(db.orphanages)
    ensures db.users == old(db.users) && db.visits == old(db.visits) && db.events == old(db.events) && db.needs == old(db.needs)
    ensures r.Some? ==> db.orphanages == old(db.orphanages)[id := old(db.orphanages)[id].(score := r.value)]
    ensures r.None? ==> db.orphanages == old(db.orphanages)
    ensures r.Some? ==> 0.0 <= r.value <= 100.0
  {
    r := FreshScore(db, id, now, log10);
    if r.Some? {
      db.orphanages := db.orphanages[id := db.orphanages[id].(score := r.value)];
    }
  }

  /** `incrementVisitCount`: one more profile view, then the refresh of the
      score from the bumped table; None with nothing changed exactly when the
      profile is missing (the update throws). */
  method IncrementVisitCount(db: Database, id: string, now: int, log10: real -> real)
    returns (r: Option<real>)
    requires db.Valid()
    modifies db`orphanages
    ensures db.Valid()
    ensures id !in old(db.orphanages) ==> r.None? && db.orphanages == old(db.orphanages)
    ensures r.Some? <==> id in old(db.orphanages)
    ensures id in old(db.orphanages) ==>
      var bumped := old(db.orphanages)[id := old(db.orphanages)[id].(visitCount := old(db.orphanages)[id].visitCount + 1)];
      r == FreshScoreIn(bumped, db.users, db.visits, db.events, db.needs, id, now, log10) &&
      db.orphanages == (if r.Some? then bumped[id := bumped[id].(score := r.value)] else bumped)
  {
    if id !in db.orphanages {
      return None;
    }
    db.orphanages := db.orphanages[id := db.orphanages[id].(visitCount := db.orphanages[id].visitCount + 1)];
    r := UpdateOrphanageScore(db, id, now, log10);
  }

  /** `Math.log10` grows: the one further fact about it a view needs. */
  ghost predicate MonotoneFromOne(log10: real -> real) {
    forall x, y :: 1.0 <= x <= y ==> log10(x) <= log10(y)
  }

  /** One more profile view never lowers the score: the view term grows with
      the logarithm, and a first view lifts the old-profile penalty. */
  lemma ViewNeverLowersScore(f: ScoreFactors, log10: real -> real)
    requires NonNegativeFromOne(log10) && MonotoneFromOne(log10)
    requires f.visitCount >= 0
    ensures CalculateScore(f, log10) <= CalculateScore(f.(visitCount := f.visitCount + 1), log10)
  {
    var g := f.(visitCount := f.visitCount + 1);
    if f.visitCount == 0 {
      assert log10(2.0) >= 0.0;
      assert ViewPoints(f.visitCount, log10) <= ViewPoints(g.visitCount, log10);
      assert RecencyPoints(f.daysSinceCreation, 0) <= RecencyPoints(g.daysSinceCreation, 1);
    } else {
      assert log10((f.visitCount + 1) as real) <= log10((g.visitCount + 1) as real);
      assert ViewPoints(f.visitCount, log10) <= ViewPoints(g.visitCount, log10);
    }
    FinishMonotone(RawScore(f, log10), RawScore(g, log10));
  }

  /** A score refresh changes nothing a fresh score depends on, so a second
      refresh stores the same value. */
  lemma RefreshIsStable(db: Database, id: string, now: int, log10: real -> real,
                        orphanages': map<string, OrphanageProfile>, r: real)
    requires FreshScore(db, id, now, log10) == Some(r)
    requires orphanages' == db.orphanages[id := db.orphanages[id].(score := r)]
    ensures id in orphanages' && orphanages'[id].userId in db.users
    ensures CalculateScore(FactorsOf(orphanages'[id], db.users[orphanages'[id].userId].createdAt,
                                     db.visits, db.events, db.needs, now), log10) == r
  {
  }

  /** Under the foreign key every stored profile has a fresh score. */
  lemma EveryFreshScoreDefined(db: Database, now: int, log10: real -> real)
    requires db.Valid()
    ensures forall k :: k in db.orphanages <==> FreshScore(db, k, now, log10).Some?
  {
  }

  /** `updateAllOrphanageScores`: every profile gets its fresh score, computed
      from tables the refresh does not touch. No refresh fails, because the
      foreign key of `Valid` gives every profile its user
      (`EveryFreshScoreDefined`), so the source's abort on the first failure
      cannot happen. */
  method UpdateAllOrphanageScores(db: Database, now: int, log10: real -> real)
    requires db.Valid()
    modifies db`orphanages
    ensures db.Valid()
    ensures db.orphanages.Keys == old(db.orphanages.Keys)
    ensures forall k :: k in db.orphanages ==>
      db.orphanages[k] == old(db.orphanages[k]).(score :=
        FreshScoreIn(old(db.orphanages), db.users, db.visits, db.events, db.needs, k, now, log10)
          .GetOr(old(db.orphanages[k].score)))
  {
    var ids := KeysOf(db.orphanages);
    ghost var before := db.orphanages;
    ghost var users, visits, events, needs := db.users, db.visits, db.events, db.needs;
    ghost var target := map k | k in before :: RefreshedRow(before, users, visits, events, needs, k, now, log10);
    var i := 0;
    while i < |ids|
      invariant 0 <= i <= |ids|
      invariant db.Valid()
      invariant db.users == users && db.visits == visits && db.events == events && db.needs == needs
      invariant RefreshedUpTo(db.orphanages, before, target, ids, i)
    {
      var id := ids[i];
      ghost var current := db.orphanages;
      var refreshed := UpdateOrphanageScore(db, id, now, log10);
      RefreshOne(current, before, users, visits, events, needs, id, now, log10, refreshed, db.orphanages);
      RefreshStep(current, before, target, ids, i);
      i := i + 1;
    }
    RefreshDone(db.orphanages, before, target, ids);
  }

  /** The row `updateAllOrphanageScores` leaves for the profile k. */
  ghost function RefreshedRow(before: map<string, OrphanageProfile>, users: map<string, User>,
                              visits: map<string, Visit>, events: map<string, Event>, needs: map<string, Need>,
                              k: string, now: int, log10: real -> real): OrphanageProfile
    requires k in before
  {
    before[k].(score := FreshScoreIn(before, users, visits, events, needs, k, now, log10).GetOr(before[k].score))
  }

  /** One refresh inside the loop stores the row the whole loop promises for
      that profile, since the profile itself is still untouched. */
  lemma RefreshOne(current: map<string, OrphanageProfile>, before: map<string, OrphanageProfile>,
                   users: map<string, User>, visits: map<string, Visit>, events: map<string, Event>,
                   needs: map<string, Need>, id: string, now: int, log10: real -> real,
                   r: Option<real>, after: map<string, OrphanageProfile>)
    requires id in current && id in before && current[id] == before[id]
    requires r == FreshScoreIn(current, users, visits, events, needs, id, now, log10)
    requires r.Some? ==> after == current[id := current[id].(score := r.value)]
    requires r.None? ==> after == current
    ensures after == current[id := RefreshedRow(before, users, visits, events, needs, id, now, log10)]
  {
    assert r == FreshScoreIn(before, users, visits, events, needs, id, now, log10);
    if r.None? {
      assert RefreshedRow(before, users, visits, events, needs, id, now, log10) == current[id];
    }
  }

  /** After i steps of the loop of `updateAllOrphanageScores`: the first i
      ids hold their target row, the others their original one. */
  ghost predicate RefreshedUpTo<V>(m: map<string, V>, before: map<string, V>, target: map<string, V>,
                                   ids: seq<string>, i: nat) {
    i <= |ids| && m.Keys == before.Keys && target.Keys == before.Keys && Distinct(ids) &&
    (forall k :: k in before <==> k in ids) &&
    (forall j :: 0 <= j < i ==> m[ids[j]] == target[ids[j]]) &&
    (forall j :: i <= j < |ids| ==> m[ids[j]] == before[ids[j]])
  }

  lemma RefreshStep<V>(m: map<string, V>, before: map<string, V>, target: map<string, V>, ids: seq<string>, i: nat)
    requires RefreshedUpTo(m, before, target, ids, i) && i < |ids|
    ensures RefreshedUpTo(m[ids[i] := target[ids[i]]], before, target, ids, i + 1)
  {
    var m' := m[ids[i] := target[ids[i]]];
    forall j | 0 <= j < |ids| && j != i ensures m'[ids[j]] == m[ids[j]] {
      assert ids[j] != ids[i];
    }
  }

  lemma RefreshDone<V>(m: map<string, V>, before: map<string, V>, target: map<string, V>, ids: seq<string>)
    requires RefreshedUpTo(m, before, target, ids, |ids|)
    ensures m == target
  {
    forall k | k in m ensures m[k] == target[k] {
      var j :| 0 <= j < |ids| && ids[j] == k;
    }
  }

  // ---------------------------------------------------------------- ranking

  /** The order of `getTopOrphanagesByScore`: score descending, then
      profile views descending, then name ascending. */
  predicate RankLe(a: OrphanageProfile, b: OrphanageProfile) {
    a.score > b.score ||
    (a.score == b.score && (a.visitCount > b.visitCount ||
      (a.visitCount == b.visitCount && StrLe(a.name, b.name))))
  }

  lemma RankLeTotalPreorder()
    ensures TotalPreorder(RankLe)
  {
    forall a, b ensures RankLe(a, b) || RankLe(b, a) {
      StrLeTotal(a.name, b.name);
    }
    forall a, b, c | RankLe(a, b) && RankLe(b, c) ensures RankLe(a, c) {
      if a.score == b.score == c.score && a.visitCount == b.visitCount == c.visitCount {
        StrLeTrans(a.name, b.name, c.name);
      }
    }
  }

  predicate IsVerified(p: OrphanageProfile) { p.verificationStatus == "VERIFIED" }

  /** `getTopOrphanagesByScore(limit)` over the profile table as the store
      reads it. */
  function TopOrphanages(rows: seq<OrphanageProfile>, limit: nat): seq<OrphanageProfile> {
    Take(SortBy(Filter(rows, IsVerified), RankLe), limit)
  }

  /** The ranking returns at most limit verified profiles, best first, and
      every verified profile it leaves out ranks no better than each one it
      returns; with fewer verified profiles than limit it returns them all. */
  lemma TopOrphanagesSpec(rows: seq<OrphanageProfile>, limit: nat)
    ensures var r := TopOrphanages(rows, limit);
      |r| <= limit &&
      (forall i :: 0 <= i < |r| ==> IsVerified(r[i]) && r[i] in rows) &&
      SortedBy(r, RankLe) &&
      (forall x, i :: x in rows && IsVerified(x) && x !in r && 0 <= i < |r| ==> RankLe(r[i], x)) &&
      (|Filter(rows, IsVerified)| <= limit ==> multiset(r) == multiset(Filter(rows, IsVerified)))
  {
    var f := Filter(rows, IsVerified);
    var s := SortBy(f, RankLe);
    var r := TopOrphanages(rows, limit);
    RankLeTotalPreorder();
    SortBySorted(f, RankLe);
    assert r == s[..|r|];
    forall i | 0 <= i < |r| ensures IsVerified(r[i]) && r[i] in rows {
      assert r[i] in multiset(s);
    }
    SortedSlice(s, RankLe, 0, |r|);
    forall x, i | x in rows && IsVerified(x) && x !in r && 0 <= i < |r| ensures RankLe(r[i], x) {
      var k :| 0 <= k < |rows| && rows[k] == x;
      assert x in f;
      assert x in multiset(s);
      var j :| 0 <= j < |s| && s[j] == x;
      assert j >= |r|;
    }
  }
}
