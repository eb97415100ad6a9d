/**
 * The "AI matching" ranking: the two comparators the matching routes hand to
 * `Array.prototype.sort`, a stable sort that reads a comparator only through the test
 * `cmp(x, y) < 0` ("x goes before y"), and the score given to each ranked student.
 */
module Ranking {
  import opened Wrappers
  import opened Seqs
  import opened Schema
  import opened Storage

  // ------------------------------------------------------------------ sorting by a comparator

  /** `x` goes strictly before `y`. */
  predicate Before<T>(cmp: (T, T) -> int, x: T, y: T) {
    cmp(x, y) < 0
  }

  /** Neither goes before the other: a stable sort keeps such elements in input order. */
  predicate Tied<T>(cmp: (T, T) -> int, x: T, y: T) {
    !Before(cmp, x, y) && !Before(cmp, y, x)
  }

  /** The elements tied with `e`. */
  function TiedWith<T>(cmp: (T, T) -> int, e: T): T -> bool {
    x => Tied(cmp, x, e)
  }

  /** `Before` is a strict weak order: asymmetric and negatively transitive. */
  ghost predicate RankingOrder<T(!new)>(cmp: (T, T) -> int) {
    && (forall x, y :: Before(cmp, x, y) ==> !Before(cmp, y, x))
    && (forall x, y, z :: Before(cmp, x, z) ==> Before(cmp, x, y) || Before(cmp, y, z))
  }

  /** No element is placed after one that goes before it. */
  ghost predicate Ranked<T>(r: seq<T>, cmp: (T, T) -> int) {
    forall i, j :: 0 <= i < j < |r| ==> !Before(cmp, r[j], r[i])
  }

  /** Insert `x` into `r`, passing leftwards over every element it goes before. */
  function Insert<T>(r: seq<T>, x: T, cmp: (T, T) -> int): seq<T>
    decreases |r|
  {
    if r == [] || !Before(cmp, x, r[|r| - 1]) then r + [x]
    else Insert(r[..|r| - 1], x, cmp) + [r[|r| - 1]]
  }

  /** The sorted order: insert the elements one at a time, in input order. */
  function SortBy<T>(s: seq<T>, cmp: (T, T) -> int): (r: seq<T>)
    ensures |r| == |s|
    decreases |s|
  {
    if s == [] then []
    else
      var sorted := SortBy(s[..|s| - 1], cmp);
      InsertPermutes(sorted, s[|s| - 1], cmp);
      assert |multiset(Insert(sorted, s[|s| - 1], cmp))| == |sorted| + 1;
      Insert(sorted, s[|s| - 1], cmp)
  }

  lemma {:induction false} InsertPermutes<T>(r: seq<T>, x: T, cmp: (T, T) -> int)
    ensures multiset(Insert(r, x, cmp)) == multiset(r) + multiset{x}
    decreases |r|
  {
    if r == [] || !Before(cmp, x, r[|r| - 1]) {
    } else {
      var init, last := r[..|r| - 1], r[|r| - 1];
      assert r == init + [last];
      InsertPermutes(init, x, cmp);
    }
  }

  /** Sorting only rearranges its input. */
  lemma {:induction false} SortPermutes<T>(s: seq<T>, cmp: (T, T) -> int)
    ensures multiset(SortBy(s, cmp)) == multiset(s)
    decreases |s|
  {
    if s != [] {
      var init, last := s[..|s| - 1], s[|s| - 1];
      assert s == init + [last];
      SortPermutes(init, cmp);
      InsertPermutes(SortBy(init, cmp), last, cmp);
    }
  }

  lemma {:induction false} InsertRanked<T(!new)>(r: seq<T>, x: T, cmp: (T, T) -> int)
    requires RankingOrder(cmp) && Ranked(r, cmp)
    ensures Ranked(Insert(r, x, cmp), cmp)
    decreases |r|
  {
    if r == [] {
    } else if !Before(cmp, x, r[|r| - 1]) {
      var last := r[|r| - 1];
      forall i | 0 <= i < |r|
        ensures !Before(cmp, x, r[i])
      {
        if i < |r| - 1 {
          assert !Before(cmp, last, r[i]);
        }
      }
    } else {
      var init, last := r[..|r| - 1], r[|r| - 1];
      assert Ranked(init, cmp);
      InsertRanked(init, x, cmp);
      var q := Insert(init, x, cmp);
      InsertPermutes(init, x, cmp);
      forall i | 0 <= i < |q|
        ensures !Before(cmp, last, q[i])
      {
        assert q[i] in multiset(q);
        if q[i] != x {
          assert q[i] in multiset(init);
          var k :| 0 <= k < |init| && init[k] == q[i];
          assert r[k] == q[i];
        }
      }
    }
  }

  /** Given a strict weak order, the sorted output is ranked. */
  lemma {:induction false} SortRanked<T(!new)>(s: seq<T>, cmp: (T, T) -> int)
    requires RankingOrder(cmp)
    ensures Ranked(SortBy(s, cmp), cmp)
    decreases |s|
  {
    if s != [] {
      SortRanked(s[..|s| - 1], cmp);
      InsertRanked(SortBy(s[..|s| - 1], cmp), s[|s| - 1], cmp);
    }
  }

  lemma {:induction false} InsertStable<T(!new)>(r: seq<T>, x: T, cmp: (T, T) -> int, e: T)
    requires RankingOrder(cmp)
    ensures Filter(Insert(r, x, cmp), TiedWith(cmp, e)) == Filter(r, TiedWith(cmp, e)) + Filter([x], TiedWith(cmp, e))
    decreases |r|
  {
    var p := TiedWith(cmp, e);
    if r == [] || !Before(cmp, x, r[|r| - 1]) {
      FilterConcat(r, [x], p);
    } else {
      var init, last := r[..|r| - 1], r[|r| - 1];
      assert r == init + [last];
      InsertStable(init, x, cmp, e);
      BeforeNotBothTied(cmp, e, x, last);
      InsertStableStep(init, last, x, cmp, p);
    }
  }

  /** The inductive step of `InsertStable`: `x` passes over a `last` that is not tied with it. */
  lemma InsertStableStep<T>(init: seq<T>, last: T, x: T, cmp: (T, T) -> int, p: T -> bool)
    requires Before(cmp, x, last) && !(p(x) && p(last))
    requires Filter(Insert(init, x, cmp), p) == Filter(init, p) + Filter([x], p)
    ensures Filter(Insert(init + [last], x, cmp), p) == Filter(init + [last], p) + Filter([x], p)
  {
    var r := init + [last];
    assert r[..|r| - 1] == init && r[|r| - 1] == last;
    InsertStep(r, x, cmp);
    FilterConcat(Insert(init, x, cmp), [last], p);
    FilterConcat(init, [last], p);
    if p(x) {
      assert Filter([last], p) == [];
      assert Filter(Insert(init, x, cmp), p) + [] == Filter(Insert(init, x, cmp), p);
      assert Filter(init, p) + [] == Filter(init, p);
    } else {
      assert Filter([x], p) == [];
      assert Filter(init, p) + [] == Filter(init, p);
      assert Filter(init + [last], p) + [] == Filter(init + [last], p);
    }
  }

  /** Two elements one of which goes before the other are never both tied with the same `e`. */
  lemma BeforeNotBothTied<T(!new)>(cmp: (T, T) -> int, e: T, x: T, y: T)
    requires RankingOrder(cmp) && Before(cmp, x, y)
    ensures !(Tied(cmp, x, e) && Tied(cmp, y, e))
  {
  }

  /**
   * Stability: the elements tied with any `e` come out in the order they went in.
   */
  lemma {:induction false} SortStable<T(!new)>(s: seq<T>, cmp: (T, T) -> int, e: T)
    requires RankingOrder(cmp)
    ensures Filter(SortBy(s, cmp), TiedWith(cmp, e)) == Filter(s, TiedWith(cmp, e))
    decreases |s|
  {
    if s != [] {
      var init, last := s[..|s| - 1], s[|s| - 1];
      assert s == init + [last];
      SortStable(init, cmp, e);
      InsertStable(SortBy(init, cmp), last, cmp, e);
      FilterConcat(init, [last], TiedWith(cmp, e));
    }
  }

  /** `x` goes before the last element of `h`, so it passes over it. */
  lemma InsertStep<T>(h: seq<T>, x: T, cmp: (T, T) -> int)
    requires h != [] && Before(cmp, x, h[|h| - 1])
    ensures Insert(h, x, cmp) == Insert(h[..|h| - 1], x, cmp) + [h[|h| - 1]]
  {
  }

  /** One step of the shift loop: `x` passes over the last element of `r[..j]`. */
  lemma InsertPasses<T>(r: seq<T>, j: nat, x: T, cmp: (T, T) -> int)
    requires 0 < j <= |r| && Before(cmp, x, r[j - 1])
    ensures Insert(r[..j], x, cmp) + r[j..] == Insert(r[..j - 1], x, cmp) + r[j - 1..]
  {
    var head := r[..j];
    assert head[|head| - 1] == r[j - 1];
    assert head[..|head| - 1] == r[..j - 1];
    InsertStep(head, x, cmp);
    var front := Insert(r[..j - 1], x, cmp);
    assert r[j - 1..] == [r[j - 1]] + r[j..];
    assert (front + [r[j - 1]]) + r[j..] == front + ([r[j - 1]] + r[j..]);
  }

  /** Where the shift loop stops, `x` drops into the hole at `j`. */
  lemma InsertStops<T>(r: seq<T>, j: nat, x: T, cmp: (T, T) -> int)
    requires j <= |r| && (j == 0 || !Before(cmp, x, r[j - 1]))
    ensures Insert(r[..j], x, cmp) + r[j..] == r[..j] + [x] + r[j..]
  {
  }

  /** The array after the shift: the prefix before the hole, `x` in the hole, the rest moved up one. */
  lemma ShiftedPrefix<T>(cur: seq<T>, sorted: seq<T>, j: nat, x: T)
    requires |cur| == |sorted| + 1 && j <= |sorted|
    requires forall k :: 0 <= k < j ==> cur[k] == sorted[k]
    requires cur[j] == x
    requires forall k :: j < k < |cur| ==> cur[k] == sorted[k - 1]
    ensures cur == sorted[..j] + [x] + sorted[j..]
  {
    var expected := sorted[..j] + [x] + sorted[j..];
    assert forall k :: 0 <= k < |cur| ==> cur[k] == expected[k];
  }

  /** Shift `a[i]` left into the sorted prefix `a[..i]`. */
  method InsertInto<T>(a: array<T>, i: nat, cmp: (T, T) -> int)
    requires i < a.Length
    modifies a
    ensures a[..i + 1] == Insert(old(a[..i]), old(a[i]), cmp)
    ensures forall k :: i < k < a.Length ==> a[k] == old(a[k])
  {
    ghost var sorted := a[..i];
    var x := a[i];
    var j := i;
    assert sorted[..j] == sorted && sorted[j..] == [];
    while j > 0 && Before(cmp, x, a[j - 1])
      invariant 0 <= j <= i
      invariant forall k :: 0 <= k < j ==> a[k] == sorted[k]
      invariant forall k :: j < k <= i ==> a[k] == sorted[k - 1]
      invariant forall k :: i < k < a.Length ==> a[k] == old(a[k])
      invariant Insert(sorted, x, cmp) == Insert(sorted[..j], x, cmp) + sorted[j..]
    {
      InsertPasses(sorted, j, x, cmp);
      a[j] := a[j - 1];
      j := j - 1;
    }
    a[j] := x;
    InsertStops(sorted, j, x, cmp);
    ShiftedPrefix(a[..i + 1], sorted, j, x);
  }

  /** `array.sort(cmp)`, in place: insertion sort over the whole array. */
  method SortInPlace<T>(a: array<T>, cmp: (T, T) -> int)
    modifies a
    ensures a[..] == SortBy(old(a[..]), cmp)
  {
    ghost var s := a[..];
    var i := 0;
    while i < a.Length
      invariant 0 <= i <= a.Length
      invariant a[..i] == SortBy(s[..i], cmp)
      invariant forall k :: i <= k < a.Length ==> a[k] == s[k]
    {
      InsertInto(a, i, cmp);
      assert s[..i + 1][..i] == s[..i];
      i := i + 1;
    }
    assert a[..] == a[..a.Length];
    assert s == s[..a.Length];
  }

  // ------------------------------------------------------------------ the two comparators

  /** The need comparator: a missing or zero need goes after, otherwise the larger need first. */
  function NeedCompare(a: Option<int>, b: Option<int>): (r: int)
    ensures r < 0 <==> NeedFirst(a, b)
    ensures r == 0 <==> TruthyInt(a) && TruthyInt(b) && a.value == b.value
    ensures !TruthyInt(a) ==> r == 1
  {
    if !TruthyInt(a) then 1 else if !TruthyInt(b) then -1 else b.value - a.value
  }

  /** The order `NeedCompare` stands for: `a` has a need, and `b` has none or a smaller one. */
  predicate NeedFirst(a: Option<int>, b: Option<int>) {
    TruthyInt(a) && (!TruthyInt(b) || b.value < a.value)
  }

  function StudentNeed(s: StudentWithUser): Option<int> {
    s.profile.data.financialNeed
  }

  function CandidateNeed(c: StudentCandidate): Option<int> {
    c.profile.data.financialNeed
  }

  /** `/api/ai/match-students`: by need alone. */
  function CompareStudents(a: StudentWithUser, b: StudentWithUser): (r: int)
    ensures r < 0 <==> NeedFirst(StudentNeed(a), StudentNeed(b))
    ensures r == 0 <==> TruthyInt(StudentNeed(a)) && StudentNeed(a) == StudentNeed(b)
  {
    NeedCompare(StudentNeed(a), StudentNeed(b))
  }

  /** `/api/ai/sponsor-recommendations`: a pending application first, then by need. */
  function CompareCandidates(a: StudentCandidate, b: StudentCandidate): (r: int)
    ensures r < 0 <==> (a.application.Some? && b.application.None?) ||
                       (a.application.Some? == b.application.Some? && NeedFirst(CandidateNeed(a), CandidateNeed(b)))
    ensures a.application.Some? != b.application.Some? ==> r != 0
  {
    if a.application.Some? && b.application.None? then -1
    else if a.application.None? && b.application.Some? then 1
    else NeedCompare(CandidateNeed(a), CandidateNeed(b))
  }

  /** Both comparators induce strict weak orders, so the sort's guarantees apply to them. */
  lemma ComparatorsAreRankingOrders()
    ensures RankingOrder(CompareStudents)
    ensures RankingOrder(CompareCandidates)
  {
    forall a: StudentWithUser, b: StudentWithUser
      ensures Before(CompareStudents, a, b) <==> NeedFirst(StudentNeed(a), StudentNeed(b))
    {
    }
    forall a: StudentCandidate, b: StudentCandidate
      ensures Before(CompareCandidates, a, b) <==>
        (a.application.Some? && b.application.None?) ||
        (a.application.Some? == b.application.Some? && NeedFirst(CandidateNeed(a), CandidateNeed(b)))
    {
    }
  }

  /**
   * Students tie exactly when neither has a need, or both have the same need; the ranking
   * keeps such students in store order.
   */
  lemma StudentTies(a: StudentWithUser, b: StudentWithUser)
    ensures Tied(CompareStudents, a, b) <==>
      (!TruthyInt(StudentNeed(a)) && !TruthyInt(StudentNeed(b))) ||
      (TruthyInt(StudentNeed(a)) && TruthyInt(StudentNeed(b)) && StudentNeed(a).value == StudentNeed(b).value)
  {
  }

  /** Candidates tie exactly when they agree on having an application and tie on need. */
  lemma CandidateTies(a: StudentCandidate, b: StudentCandidate)
    ensures Tied(CompareCandidates, a, b) <==>
      a.application.Some? == b.application.Some? &&
      ((!TruthyInt(CandidateNeed(a)) && !TruthyInt(CandidateNeed(b))) ||
       (TruthyInt(CandidateNeed(a)) && TruthyInt(CandidateNeed(b)) && CandidateNeed(a).value == CandidateNeed(b).value))
  {
  }

  /**
   * The match-students ranking rearranges the students so that everyone with a need comes
   * before everyone without, larger needs first.
   */
  lemma {:induction false} StudentRanking(s: seq<StudentWithUser>)
    ensures multiset(SortBy(s, CompareStudents)) == multiset(s)
    ensures var r := SortBy(s, CompareStudents);
      forall i, j :: 0 <= i < j < |r| && TruthyInt(StudentNeed(r[j])) ==>
        TruthyInt(StudentNeed(r[i])) && StudentNeed(r[i]).value >= StudentNeed(r[j]).value
  {
    ComparatorsAreRankingOrders();
    SortPermutes(s, CompareStudents);
    SortRanked(s, CompareStudents);
  }

  /**
   * The students tied with an `e` that has a need keep their store order through the
   * ranking. Two without a need compare `1` both ways, an inconsistent comparator whose
   * outcome the language leaves to the engine, so their order is not stated.
   */
  lemma {:induction false} StudentTiesKeepOrder(s: seq<StudentWithUser>, e: StudentWithUser)
    requires TruthyInt(StudentNeed(e))
    ensures Filter(SortBy(s, CompareStudents), TiedWith(CompareStudents, e)) == Filter(s, TiedWith(CompareStudents, e))
  {
    ComparatorsAreRankingOrders();
    SortStable(s, CompareStudents, e);
  }

  /**
   * The recommendation ranking puts every candidate with a pending application before
   * every candidate without; within each group, by need as above.
   */
  lemma {:induction false} CandidateRanking(s: seq<StudentCandidate>)
    ensures multiset(SortBy(s, CompareCandidates)) == multiset(s)
    ensures var r := SortBy(s, CompareCandidates);
      forall i, j :: 0 <= i < j < |r| ==>
        && (r[j].application.Some? ==> r[i].application.Some?)
        && (r[i].application.Some? == r[j].application.Some? && TruthyInt(CandidateNeed(r[j])) ==>
              TruthyInt(CandidateNeed(r[i])) && CandidateNeed(r[i]).value >= CandidateNeed(r[j]).value)
  {
    ComparatorsAreRankingOrders();
    SortPermutes(s, CompareCandidates);
    SortRanked(s, CompareCandidates);
  }

  /**
   * The candidates tied with an `e` that has a need keep their store order through the
   * ranking. Two without a need compare `1` both ways, an inconsistent comparator whose
   * outcome the language leaves to the engine, so their order is not stated.
   */
  lemma {:induction false} CandidateTiesKeepOrder(s: seq<StudentCandidate>, e: StudentCandidate)
    requires TruthyInt(CandidateNeed(e))
    ensures Filter(SortBy(s, CompareCandidates), TiedWith(CompareCandidates, e)) == Filter(s, TiedWith(CompareCandidates, e))
  {
    ComparatorsAreRankingOrders();
    SortStable(s, CompareCandidates, e);
  }

  // ------------------------------------------------------------------ what the routes return

  /** The score shown to sponsors: need / 1000, or 0.5 when there is no (non-zero) need. */
  function MatchScore(need: Option<int>): (r: real)
    ensures !TruthyInt(need) ==> r == 0.5
    ensures TruthyInt(need) ==> r * 1000.0 == need.value as real
  {
    if TruthyInt(need) then need.value as real / 1000.0 else 0.5
  }

  /** A match-students entry: the student's public face, never the password. */
  datatype MatchResult = MatchResult(id: int, displayName: string, profile: StudentProfile, matchScore: real)

  /** A sponsor-recommendations entry. */
  datatype Recommendation = Recommendation(
    id: int, displayName: string, profile: StudentProfile, application: Option<FundingApplication>,
    matchScore: real, hasPendingApplication: bool)

  /** The entry names the student's user and profile and scores the profile's need. */
  function ToMatchResult(s: StudentWithUser): (r: MatchResult)
    ensures r.id == s.user.id && r.displayName == s.user.data.displayName && r.profile == s.profile
    ensures r.matchScore == MatchScore(r.profile.data.financialNeed)
  {
    MatchResult(s.user.id, s.user.data.displayName, s.profile, MatchScore(StudentNeed(s)))
  }

  /** As `ToMatchResult`, plus the attached application and a flag saying whether there is one. */
  function ToRecommendation(c: StudentCandidate): (r: Recommendation)
    ensures r.id == c.user.id && r.displayName == c.user.data.displayName && r.profile == c.profile
    ensures r.matchScore == MatchScore(r.profile.data.financialNeed)
    ensures r.application == c.application && (r.hasPendingApplication <==> r.application.Some?)
  {
    Recommendation(c.user.id, c.user.data.displayName, c.profile, c.application,
                   MatchScore(CandidateNeed(c)), c.application.Some?)
  }

  function MatchResults(r: seq<StudentWithUser>): seq<MatchResult> {
    seq(|r|, k requires 0 <= k < |r| => ToMatchResult(r[k]))
  }

  function Recommendations(r: seq<StudentCandidate>): seq<Recommendation> {
    seq(|r|, k requires 0 <= k < |r| => ToRecommendation(r[k]))
  }

  /** Down the ranked list, the scores of students with a need never go up; the rest score 0.5. */
  lemma {:induction false} MatchScoresDescend(s: seq<StudentWithUser>)
    ensures var out := MatchResults(SortBy(s, CompareStudents));
      && |out| == |s|
      && (forall k :: 0 <= k < |out| && !TruthyInt(out[k].profile.data.financialNeed) ==> out[k].matchScore == 0.5)
      && (forall i, j :: 0 <= i < j < |out| && TruthyInt(out[j].profile.data.financialNeed) ==>
            out[i].matchScore >= out[j].matchScore)
  {
    var r := SortBy(s, CompareStudents);
    StudentRanking(s);
    assert |multiset(r)| == |multiset(s)|;
  }

  /** Every recommendation flags a pending application exactly when it carries one. */
  lemma RecommendationFlags(r: seq<StudentCandidate>)
    ensures var out := Recommendations(r);
      |out| == |r| &&
      forall k :: 0 <= k < |out| ==>
        out[k].hasPendingApplication == out[k].application.Some? && out[k].application == r[k].application
  {
  }
}
