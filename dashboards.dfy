/**
 * The figures the two dashboards derive from fetched data: the status filters, the
 * funding totals and progress bar, and the initials shown in a sponsor's avatar. Data
 * still being fetched is `None` (`undefined` in the page).
 */
module Dashboards {
  import opened Wrappers
  import opened Seqs
  import opened Text
  import opened Schema

  // ------------------------------------------------------------------ status filters

  function ApplicationStatusIs(status: string): FundingApplication -> bool {
    (a: FundingApplication) => a.status == status
  }

  function SponsorshipStatusIs(status: string): Sponsorship -> bool {
    (s: Sponsorship) => s.status == status
  }

  /** `data?.filter(x => x.status === status) || []` over fetched applications. */
  function ApplicationsWithStatus(data: Option<seq<FundingApplication>>, status: string): (r: seq<FundingApplication>)
    ensures data.None? ==> r == []
    ensures data.Some? ==>
      && IsSubsequence(r, data.value)
      && (forall k :: 0 <= k < |r| ==> r[k].status == status)
      && (forall k :: 0 <= k < |data.value| && data.value[k].status == status ==> data.value[k] in r)
  {
    if data.None? then [] else Filter(data.value, ApplicationStatusIs(status))
  }

  /** The student's `pendingApplications`: the fetched pending applications, in order. */
  function PendingApplications(data: Option<seq<FundingApplication>>): (r: seq<FundingApplication>)
    ensures data.None? ==> r == []
    ensures data.Some? ==> IsSubsequence(r, data.value)
    ensures forall k :: 0 <= k < |r| ==> r[k].status == "pending"
    ensures data.Some? ==> forall k :: 0 <= k < |data.value| && data.value[k].status == "pending" ==> data.value[k] in r
  {
    ApplicationsWithStatus(data, "pending")
  }

  /** The student's `approvedApplications`: the fetched approved applications, in order. */
  function ApprovedApplications(data: Option<seq<FundingApplication>>): (r: seq<FundingApplication>)
    ensures data.None? ==> r == []
    ensures data.Some? ==> IsSubsequence(r, data.value)
    ensures forall k :: 0 <= k < |r| ==> r[k].status == "approved"
    ensures data.Some? ==> forall k :: 0 <= k < |data.value| && data.value[k].status == "approved" ==> data.value[k] in r
  {
    ApplicationsWithStatus(data, "approved")
  }

  /** The student's `activeSponsors` and the sponsor's `activeSponshorships`: the same filter. */
  function ActiveSponsorships(data: Option<seq<Sponsorship>>): (r: seq<Sponsorship>)
    ensures data.None? ==> r == []
    ensures data.Some? ==>
      && IsSubsequence(r, data.value)
      && (forall k :: 0 <= k < |r| ==> r[k].status == "active")
      && (forall k :: 0 <= k < |data.value| && data.value[k].status == "active" ==> data.value[k] in r)
  {
    if data.None? then [] else Filter(data.value, SponsorshipStatusIs("active"))
  }

  /** No application is both pending and approved, so the two lists share nothing. */
  lemma PendingApprovedDisjoint(data: Option<seq<FundingApplication>>)
    ensures forall k :: 0 <= k < |PendingApplications(data)| ==> PendingApplications(data)[k] !in ApprovedApplications(data)
  {
    if data.Some? {
      FilterDisjoint(data.value, ApplicationStatusIs("pending"), ApplicationStatusIs("approved"));
    }
  }

  // ------------------------------------------------------------------ totals

  /** `list.reduce((sum, s) => sum + s.amount, 0)`, folding from the left. */
  function TotalAmount(s: seq<Sponsorship>): int
    decreases |s|
  {
    if s == [] then 0 else TotalAmount(s[..|s| - 1]) + s[|s| - 1].data.amount
  }

  /** The total of a concatenation is the sum of the totals. */
  lemma {:induction false} TotalAmountAppend(a: seq<Sponsorship>, b: seq<Sponsorship>)
    ensures TotalAmount(a + b) == TotalAmount(a) + TotalAmount(b)
    decreases |b|
  {
    if b == [] {
      assert a + b == a;
    } else {
      assert (a + b)[..|a + b| - 1] == a + b[..|b| - 1];
      assert (a + b)[|a + b| - 1] == b[|b| - 1];
      TotalAmountAppend(a, b[..|b| - 1]);
    }
  }

  /** With no negative amounts the total is never negative. */
  lemma {:induction false} TotalAmountNonNegative(s: seq<Sponsorship>)
    requires forall k :: 0 <= k < |s| ==> s[k].data.amount >= 0
    ensures TotalAmount(s) >= 0
    decreases |s|
  {
    if s != [] {
      TotalAmountNonNegative(s[..|s| - 1]);
    }
  }

  /** `totalFundsReceived` and `totalSponsored`: the amounts of the active sponsorships only. */
  function TotalReceived(data: Option<seq<Sponsorship>>): int {
    TotalAmount(ActiveSponsorships(data))
  }

  /**
   * One more fetched sponsorship adds its amount to the total when it is active and
   * nothing otherwise; with nothing fetched the total is 0.
   */
  lemma {:induction false} TotalReceivedCountsActiveOnly(s: seq<Sponsorship>, x: Sponsorship)
    ensures TotalReceived(None) == 0
    ensures TotalReceived(Some([])) == 0
    ensures TotalReceived(Some(s + [x])) == TotalReceived(Some(s)) + (if x.status == "active" then x.data.amount else 0)
  {
    FilterConcat(s, [x], SponsorshipStatusIs("active"));
    var tail := Filter([x], SponsorshipStatusIs("active"));
    TotalAmountAppend(Filter(s, SponsorshipStatusIs("active")), tail);
    assert TotalAmount(tail) == if x.status == "active" then x.data.amount else 0 by {
      if x.status == "active" {
        assert tail == [x];
        assert tail[..0] == [];
      } else {
        assert tail == [];
      }
    }
  }

  /** The "Students Sponsored" figure: how many active sponsorships there are. */
  function StudentsSponsored(data: Option<seq<Sponsorship>>): (r: nat)
    ensures data.None? ==> r == 0
    ensures data.Some? ==> r <= |data.value|
  {
    |ActiveSponsorships(data)|
  }

  /**
   * One more fetched sponsorship raises the figure by one when it is active and leaves it
   * alone otherwise; with nothing fetched the figure is 0.
   */
  lemma StudentsSponsoredCountsActiveOnly(s: seq<Sponsorship>, x: Sponsorship)
    ensures StudentsSponsored(Some([])) == 0
    ensures StudentsSponsored(Some(s + [x])) == StudentsSponsored(Some(s)) + (if x.status == "active" then 1 else 0)
  {
    FilterConcat(s, [x], SponsorshipStatusIs("active"));
    var tail := Filter([x], SponsorshipStatusIs("active"));
    assert |tail| == if x.status == "active" then 1 else 0 by {
      if x.status == "active" {
        assert x in tail;
      } else {
        assert tail == [];
      }
    }
  }

  /** `profile?.financialNeed || 0`. */
  function TotalFundsNeeded(profile: Option<StudentProfile>): (r: int)
    ensures r != 0 <==> profile.Some? && TruthyInt(profile.value.data.financialNeed)
    ensures r != 0 ==> r == profile.value.data.financialNeed.value
  {
    if profile.Some? && TruthyInt(profile.value.data.financialNeed) then profile.value.data.financialNeed.value else 0
  }

  /** A share of at least the whole is at least one. */
  lemma RatioAtLeastOne(x: real, y: real)
    requires y > 0.0
    ensures x >= y ==> x / y >= 1.0
  {
    assert (x / y) * y == x;
  }

  /** `Math.round(x)`: the nearest integer, halves upwards. */
  function Round(x: real): int {
    (x + 0.5).Floor
  }

  /**
   * `fundingProgress`, the percentage shown on the progress bar: 0 without a positive
   * need, otherwise the rounded percentage received, capped at 100.
   */
  function FundingProgress(received: int, needed: int): (r: int)
    ensures needed <= 0 ==> r == 0
    ensures r <= 100
    ensures received >= 0 ==> r >= 0
    ensures needed > 0 && received >= needed ==> r == 100
  {
    if needed > 0 then
      var percent := Round((received as real / needed as real) * 100.0);
      RatioAtLeastOne(received as real, needed as real);
      if percent < 100 then percent else 100
    else 0
  }

  /** The student dashboard's bar, from its fetched sponsorships and profile. */
  function StudentFundingProgress(sponsorships: Option<seq<Sponsorship>>, profile: Option<StudentProfile>): (r: int)
    ensures !TruthyInt(if profile.Some? then profile.value.data.financialNeed else None) ==> r == 0
    ensures r <= 100
  {
    FundingProgress(TotalReceived(sponsorships), TotalFundsNeeded(profile))
  }

  // ------------------------------------------------------------------ initials

  /** `parts.map(part => part[0]).join('')`: an empty part's `undefined` renders as nothing. */
  function Firsts(parts: seq<string>): string
    decreases |parts|
  {
    if parts == [] then "" else (if parts[0] == "" then "" else [parts[0][0]]) + Firsts(parts[1..])
  }

  /** The characters of `s` that start a word: not a space, and first or after a space. */
  function WordStartsFrom(s: string, atStart: bool): string
    decreases |s|
  {
    if s == [] then ""
    else if s[0] == ' ' then WordStartsFrom(s[1..], true)
    else (if atStart then [s[0]] else "") + WordStartsFrom(s[1..], false)
  }

  function WordStarts(s: string): string {
    WordStartsFrom(s, true)
  }

  /** The first characters of the space-separated parts are exactly the word starts. */
  lemma {:induction false} FirstsOfSplit(s: string)
    ensures Firsts(Split(s, ' ')) == WordStartsFrom(s, true)
    ensures Firsts(Split(s, ' ')[1..]) == WordStartsFrom(s, false)
    decreases |s|
  {
    if s != [] {
      var rest := Split(s[1..], ' ');
      FirstsOfSplit(s[1..]);
      var parts := Split(s, ' ');
      if s[0] == ' ' {
        assert parts == [""] + rest;
        assert parts[1..] == rest;
      } else {
        assert parts == [[s[0]] + rest[0]] + rest[1..];
        assert parts[1..] == rest[1..];
      }
    }
  }

  /** `getInitials(name)`: upper-case the parts' first characters, keep at most two. */
  function Initials(name: string): (r: string)
    ensures |r| <= 2
  {
    var all := ToUpper(Firsts(Split(name, ' ')));
    if |all| <= 2 then all else all[..2]
  }

  /** The initials are the upper-cased first one or two word starts of the name. */
  lemma {:induction false} InitialsAreWordStarts(name: string)
    ensures var starts := ToUpper(WordStarts(name));
      Initials(name) == if |starts| <= 2 then starts else starts[..2]
  {
    FirstsOfSplit(name);
  }

  /** "a  b c": the empty part between the two spaces adds nothing, and only two letters are kept. */
  lemma InitialsExample()
    ensures Initials("a  b c") == "AB"
  {
    InitialsAreWordStarts("a  b c");
    assert WordStarts("a  b c") == "abc";
  }
}
