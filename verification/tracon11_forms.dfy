/**
 * The validation rules of the Tracon 11 signup forms: the certificate
 * address cross-field check, the afterparty coach-time choice filter, the
 * organizer form's admin precondition and the organizer form's defaults for
 * the fields it leaves out.
 */
module Tracon11Forms {
  import opened Wrappers
  import opened Choices

  datatype FormError =
    | MissingCertificateAddress   // forms.ValidationError in the certificate address clean hook
    | AdminNotAllowed             // the failed `assert not admin`

  // ---------------------------------------------------------------------
  // SignupExtraForm
  // ---------------------------------------------------------------------

  /** `clean_certificate_delivery_address`: a wanted certificate needs a delivery address. */
  function CleanCertificateDeliveryAddress(wantCertificate: bool, address: string): (r: Result<string, FormError>)
    ensures r.Err? <==> wantCertificate && address == ""
    ensures r.Err? ==> r.error == MissingCertificateAddress
    ensures r.Ok? ==> r.value == address
  {
    if wantCertificate && address == "" then Err(MissingCertificateAddress)
    else Ok(address)
  }

  // ---------------------------------------------------------------------
  // OrganizerSignupForm and OrganizerSignupExtraForm
  // ---------------------------------------------------------------------

  datatype OrganizerSignupForm = OrganizerSignupForm(fields: seq<string>)

  /** The constructor: only the non-admin variant of the form exists. */
  function NewOrganizerSignupForm(admin: bool): (r: Result<OrganizerSignupForm, FormError>)
    ensures r.Ok? <==> !admin
    ensures r.Err? ==> r.error == AdminNotAllowed
    ensures r.Ok? ==> r.value.fields == ["job_title"]
  {
    if admin then Err(AdminNotAllowed) else Ok(OrganizerSignupForm(["job_title"]))
  }

  /** The values stored for the signup-extra fields a form does not show. */
  datatype ExcludedDefaults = ExcludedDefaults(
    shiftType: string,
    totalWork: string,
    overseer: bool,
    wantCertificate: bool,
    certificateDeliveryAddress: string,
    priorExperience: string,
    freeText: string)

  /** `OrganizerSignupExtraForm.get_excluded_field_defaults`. */
  const OrganizerDefaults := ExcludedDefaults(
    "kaikkikay", "yli12h", false, false, "", "",
    "Syötetty käyttäen coniitin ilmoittautumislomaketta")

  /** The organizer defaults pass the certificate rule, leaving the address empty. */
  lemma OrganizerDefaultsPassCertificateCheck()
    ensures CleanCertificateDeliveryAddress(
              OrganizerDefaults.wantCertificate, OrganizerDefaults.certificateDeliveryAddress) == Ok("")
  {
  }

  // ---------------------------------------------------------------------
  // AfterpartyParticipationSurvey
  // ---------------------------------------------------------------------

  /** The most popular outward coach. */
  const PopularOutward := "16:00"
  /** The most popular return coach. */
  const PopularReturn := "01:00"

  /** The choices whose id is not `id`, in their original order. */
  function RemoveChoice(cs: seq<Choice>, id: string): (r: seq<Choice>)
    ensures forall c :: c in r <==> c in cs && c.id != id
    ensures |r| <= |cs|
    ensures (forall c :: c in cs ==> c.id != id) ==> r == cs
  {
    if cs == [] then []
    else if cs[0].id != id then [cs[0]] + RemoveChoice(cs[1..], id)
    else RemoveChoice(cs[1..], id)
  }

  /** The choice list offered to someone whose current pick is `held`: `slot` is kept only for its holder. */
  function OfferedChoices(held: string, slot: string, cs: seq<Choice>): (r: seq<Choice>)
    ensures forall c :: c in r <==> c in cs && (c.id != slot || held == slot)
  {
    if held != slot then RemoveChoice(cs, slot) else cs
  }

  /** The person's current coach picks (the form's instance). */
  datatype CoachTimes = CoachTimes(outward: string, inbound: string)

  /** The two coach fields' choice lists after the survey form's constructor ran. */
  datatype CoachChoices = CoachChoices(outward: seq<Choice>, inbound: seq<Choice>)

  function AfterpartySurveyChoices(instance: CoachTimes, fields: CoachChoices): (r: CoachChoices)
    ensures forall c :: c in r.outward <==>
      c in fields.outward && (c.id != PopularOutward || instance.outward == PopularOutward)
    ensures forall c :: c in r.inbound <==>
      c in fields.inbound && (c.id != PopularReturn || instance.inbound == PopularReturn)
  {
    CoachChoices(
      OfferedChoices(instance.outward, PopularOutward, fields.outward),
      OfferedChoices(instance.inbound, PopularReturn, fields.inbound))
  }

  /** Filtering distributes over concatenation, so the surviving choices keep their order. */
  lemma {:induction false} RemoveChoiceAppend(a: seq<Choice>, b: seq<Choice>, id: string)
    ensures RemoveChoice(a + b, id) == RemoveChoice(a, id) + RemoveChoice(b, id)
  {
    if a == [] {
      assert a + b == b;
    } else {
      assert (a + b)[0] == a[0];
      assert (a + b)[1..] == a[1..] + b;
      RemoveChoiceAppend(a[1..], b, id);
      if a[0].id != id {
        calc {
          RemoveChoice(a + b, id);
          [a[0]] + RemoveChoice(a[1..] + b, id);
          [a[0]] + (RemoveChoice(a[1..], id) + RemoveChoice(b, id));
          ([a[0]] + RemoveChoice(a[1..], id)) + RemoveChoice(b, id);
        }
      }
    }
  }

  /** Filtering twice is filtering once. */
  lemma {:induction false} RemoveChoiceIdempotent(cs: seq<Choice>, id: string)
    ensures RemoveChoice(RemoveChoice(cs, id), id) == RemoveChoice(cs, id)
  {
    if cs != [] {
      RemoveChoiceIdempotent(cs[1..], id);
      if cs[0].id != id {
        assert RemoveChoice(cs, id) == [cs[0]] + RemoveChoice(cs[1..], id);
        assert ([cs[0]] + RemoveChoice(cs[1..], id))[1..] == RemoveChoice(cs[1..], id);
      }
    }
  }

  /** A surviving choice lands right after the survivors that precede it, so the filter keeps their order. */
  lemma RemoveChoicePosition(cs: seq<Choice>, id: string, i: nat)
    requires i < |cs| && cs[i].id != id
    ensures |RemoveChoice(cs[..i], id)| < |RemoveChoice(cs, id)|
    ensures RemoveChoice(cs, id)[|RemoveChoice(cs[..i], id)|] == cs[i]
  {
    assert cs == cs[..i] + ([cs[i]] + cs[i + 1..]);
    RemoveChoiceAppend(cs[..i], [cs[i]] + cs[i + 1..], id);
    RemoveChoiceAppend([cs[i]], cs[i + 1..], id);
    assert RemoveChoice([cs[i]], id) == [cs[i]];
  }

  /** Survivors at positions i < j in the original appear in that order in the filtered list. */
  lemma RemoveChoiceKeepsOrder(cs: seq<Choice>, id: string, i: nat, j: nat)
    requires i < j < |cs| && cs[i].id != id && cs[j].id != id
    ensures |RemoveChoice(cs[..i], id)| < |RemoveChoice(cs[..j], id)|
  {
    assert cs[..j] == cs[..i] + ([cs[i]] + cs[i + 1..j]);
    RemoveChoiceAppend(cs[..i], [cs[i]] + cs[i + 1..j], id);
    RemoveChoiceAppend([cs[i]], cs[i + 1..j], id);
    assert RemoveChoice([cs[i]], id) == [cs[i]];
  }

  /** Each filter reads only its own field: the outward list ignores everything about the return coach. */
  lemma SurveyFieldsIndependent(a: CoachTimes, b: CoachTimes, f: CoachChoices, g: CoachChoices)
    ensures a.outward == b.outward && f.outward == g.outward ==>
      AfterpartySurveyChoices(a, f).outward == AfterpartySurveyChoices(b, g).outward
    ensures a.inbound == b.inbound && f.inbound == g.inbound ==>
      AfterpartySurveyChoices(a, f).inbound == AfterpartySurveyChoices(b, g).inbound
  {
  }

  /** A person who already holds the popular slot sees the list unchanged. */
  lemma HolderSeesAllChoices(instance: CoachTimes, fields: CoachChoices)
    requires instance.outward == PopularOutward && instance.inbound == PopularReturn
    ensures AfterpartySurveyChoices(instance, fields) == fields
  {
  }
}
