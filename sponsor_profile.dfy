/**
 * The sponsor-profile form: its validation schema (with the comma-list transform of the
 * focus areas), how a stored profile is loaded back into the form, and the request a
 * submission sends. Whether a string is a URL is decided by the validation library and
 * is taken here as the parameter `isUrl`.
 */
module SponsorProfileForm {
  import opened Wrappers
  import opened Text
  import opened Schema

  /** The form fields as the user leaves them (`type` is `sponsorType` here). */
  datatype FormInput = FormInput(
    sponsorType: string, organization: Option<string>, website: string, focusAreas: string, bio: string)

  /** What the schema yields: the focus areas become a list. */
  datatype FormValues = FormValues(
    sponsorType: string, organization: Option<string>, website: string, focusAreas: seq<string>, bio: string)

  /** `z.string().min(10).max(500)`. */
  predicate BioAccepted(bio: string) {
    10 <= |bio| <= 500
  }

  /** `sponsorProfileSchema.safeParse`: the values when every rule holds, else nothing. */
  function Validate(f: FormInput, isUrl: string -> bool): (r: Option<FormValues>)
    ensures r.Some? <==> |f.sponsorType| >= 1 && (isUrl(f.website) || f.website == "") && BioAccepted(f.bio)
    ensures r.Some? ==>
      && r.value.focusAreas == ParseCommaList(f.focusAreas)
      && |r.value.focusAreas| == Count(f.focusAreas, ',') + 1
      && (forall k :: 0 <= k < |r.value.focusAreas| ==> IsTrimmed(r.value.focusAreas[k]))
  {
    if |f.sponsorType| >= 1 && (isUrl(f.website) || f.website == "") && BioAccepted(f.bio)
    then Some(FormValues(f.sponsorType, f.organization, f.website, ParseCommaList(f.focusAreas), f.bio))
    else None
  }

  /** `form.reset(...)`: missing text becomes `""`; the focus areas are joined only when stored as a list. */
  function Reset(p: SponsorProfile): (r: FormInput)
    ensures p.data.sponsorType.Some? ==> r.sponsorType == p.data.sponsorType.value
    ensures p.data.sponsorType.None? ==> r.sponsorType == ""
    ensures r.organization.Some? && (p.data.organization.Some? ==> r.organization == p.data.organization)
    ensures p.data.organization.None? ==> r.organization == Some("")
    ensures p.data.website.Some? ==> r.website == p.data.website.value
    ensures p.data.website.None? ==> r.website == ""
    ensures p.data.bio.Some? ==> r.bio == p.data.bio.value
    ensures p.data.bio.None? ==> r.bio == ""
    ensures p.data.focusAreas.None? || p.data.focusAreas == Some([]) ==> r.focusAreas == ""
  {
    var d := p.data;
    var focusAreas := if d.focusAreas.Some? then JoinCommaList(d.focusAreas.value) else "";
    FormInput(d.sponsorType.GetOr(""), Some(d.organization.GetOr("")), d.website.GetOr(""), focusAreas,
              d.bio.GetOr(""))
  }

  /**
   * Loading a profile and submitting it unchanged gives back its focus areas when they are
   * a non-empty list of trimmed, comma-free entries; no list or an empty one gives `[""]`.
   */
  lemma FocusAreasRoundTrip(p: SponsorProfile)
    ensures var areas := p.data.focusAreas;
      areas.Some? && |areas.value| > 0 &&
      (forall k :: 0 <= k < |areas.value| ==> IsTrimmed(areas.value[k]) && ',' !in areas.value[k]) ==>
        ParseCommaList(Reset(p).focusAreas) == areas.value
    ensures p.data.focusAreas.None? ==> Reset(p).focusAreas == "" && ParseCommaList(Reset(p).focusAreas) == [""]
    ensures p.data.focusAreas == Some([]) ==> ParseCommaList(Reset(p).focusAreas) == [""]
  {
    var areas := p.data.focusAreas;
    if areas.Some? && |areas.value| > 0 &&
       (forall k :: 0 <= k < |areas.value| ==> IsTrimmed(areas.value[k]) && ',' !in areas.value[k]) {
      CommaListRoundTrip(areas.value);
    }
    EmptyParsesToOneBlank();
    EmptyListRoundTrip();
  }

  // ------------------------------------------------------------------ submission

  /** The request a submission sends: its HTTP method, URL and JSON body. */
  datatype Request = Post(endpoint: string, body: SponsorProfileBody) | Put(endpoint: string, body: SponsorProfileBody)

  /** The validated values as a JSON body. */
  function ValuesBody(v: FormValues): SponsorProfileBody {
    SponsorProfileBody(None, None, Some(v.sponsorType), v.organization, Some(v.website), Some(v.focusAreas), Some(v.bio))
  }

  const CreateEndpoint := "/api/sponsors/profile"

  /** POST to create when there is no profile yet (adding `userId`), else PUT the values to the user's URL. */
  function Submit(existing: Option<SponsorProfile>, userId: nat, v: FormValues): (r: Request)
    ensures existing.None? ==> r.Post? && r.endpoint == CreateEndpoint
    ensures existing.Some? ==>
      && r.Put?
      && |r.endpoint| > |CreateEndpoint| + 1
      && r.endpoint[..|CreateEndpoint| + 1] == CreateEndpoint + "/"
      && (forall k :: |CreateEndpoint| + 1 <= k < |r.endpoint| ==> '0' <= r.endpoint[k] <= '9')
      && DecimalValue(r.endpoint[|CreateEndpoint| + 1..]) == userId
  {
    if existing.Some? then
      var endpoint := CreateEndpoint + "/" + DecimalString(userId);
      assert endpoint[|CreateEndpoint| + 1..] == DecimalString(userId);
      DecimalRoundTrip(userId);
      Put(endpoint, ValuesBody(v))
    else Post(CreateEndpoint, ValuesBody(v).(userId := Some(userId)))
  }

  /** How the PUT handler passes a body on as a partial update: each key present in it. */
  function BodyAsPatch(b: SponsorProfileBody): SponsorProfilePatch {
    SponsorProfilePatch(
      if b.userId.Some? then Present(b.userId.value) else Absent,
      if b.sponsorType.Some? then Present(b.sponsorType) else Absent,
      if b.organization.Some? then Present(b.organization) else Absent,
      if b.website.Some? then Present(b.website) else Absent,
      if b.focusAreas.Some? then Present(b.focusAreas) else Absent,
      if b.bio.Some? then Present(b.bio) else Absent)
  }

  /** A first submission is a body the server's insert schema accepts, owned by the user, with the form's values. */
  lemma CreateRequestIsAccepted(userId: nat, v: FormValues)
    ensures ParseInsertSponsorProfile(Submit(None, userId, v).body) ==
      Some(InsertSponsorProfile(userId, Some(v.sponsorType), v.organization, Some(v.website),
                                Some(v.focusAreas), Some(v.bio)))
  {
  }

  /** A later submission overwrites every form field of the stored profile and keeps its id and owner. */
  lemma UpdateRequestMerges(p: SponsorProfile, userId: nat, v: FormValues)
    ensures var r := MergeSponsorProfile(p, BodyAsPatch(Submit(Some(p), userId, v).body));
      && r.id == p.id && r.data.userId == p.data.userId
      && r.data.sponsorType == Some(v.sponsorType)
      && r.data.organization == (if v.organization.Some? then v.organization else p.data.organization)
      && r.data.website == Some(v.website) && r.data.focusAreas == Some(v.focusAreas) && r.data.bio == Some(v.bio)
  {
  }
}
