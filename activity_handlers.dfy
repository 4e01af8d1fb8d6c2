/** The 2.01 handlers of the direct children of `iati-activity` that stage
    records or set fields on the current activity, as functions from the
    staged records before to the staged records after. */
module ActivityHandlers {
  import opened Common
  import opened Records
  import opened Staging
  import opened Narratives

  /** `iati-identifier`: the text is required and set on the current
      activity. */
  function IatiIdentifierStep(m: Models, e: Element): (s: Step)
    requires Filed(m)
    ensures Filed(s.models)
    ensures e.text == "" ==> s == Step(Fail(RequiredFieldError("text")), m)
    ensures e.text != "" && Current(m, Of(ActivityClass)).None? ==>
              s == Step(Fail(Exception(AttributeError("Activity"))), m)
    ensures s.status.Ok? <==> e.text != "" && Current(m, Of(ActivityClass)).Some?
    ensures s.status.Ok? ==>
              Current(m, Of(ActivityClass)).value.Activity? &&
              ReplacedCurrent(m, s.models, Of(ActivityClass),
                              Current(m, Of(ActivityClass)).value.(iatiIdentifier := Some(e.text)))
  {
    var a := Current(m, Of(ActivityClass));
    if e.text == "" then Step(Fail(RequiredFieldError("text")), m)
    else if a.None? then Step(Fail(Exception(AttributeError("Activity"))), m)
    else
      CurrentHasClass(m, Of(ActivityClass));
      Step(Ok, Replace(m, a.value.(iatiIdentifier := Some(e.text))))
  }

  /** `title`: a second title of the same activity is rejected, so at most
      one `Title` is ever staged. */
  function TitleStep(m: Models): (s: Step)
    requires Filed(m)
    ensures Filed(s.models)
    ensures |ModelList(m, Of(TitleClass))| > 0 ==>
              s == Step(Fail(ValidationError("title", "Duplicate titles are not allowed")), m)
    ensures |ModelList(m, Of(TitleClass))| == 0 ==> s.status.Ok? && AppendedOne(m, s.models, Of(TitleClass), Title)
    ensures |ModelList(m, Of(TitleClass))| <= 1 ==> |ModelList(s.models, Of(TitleClass))| <= 1
  {
    if |ModelList(m, Of(TitleClass))| > 0 then
      Step(Fail(ValidationError("title", "Duplicate titles are not allowed")), m)
    else
      Step(Ok, Stage(m, Title))
  }

  /** The description type code: the `type` attribute, 1 when absent. */
  function DescriptionTypeCode(e: Element): (r: string)
    ensures "type" !in e.attrib ==> r == "1"
    ensures "type" in e.attrib ==> r == e.attrib["type"]
  {
    AttrOr(e, "type", "1")
  }

  /** `description`: always staged; its type is looked up in the Language
      codelist. */
  function DescriptionStep(env: Env, m: Models, e: Element): (s: Step)
    requires Filed(m)
    ensures Filed(s.models) && s.status.Ok?
    ensures AppendedOne(m, s.models, Of(DescriptionClass),
                        Description(Lookup(env, LanguageList, Some(DescriptionTypeCode(e)))))
  {
    Step(Ok, Stage(m, Description(Lookup(env, LanguageList, Some(DescriptionTypeCode(e))))))
  }

  /** `other-identifier`: the `ref` attribute is the identifier, and is
      required. */
  function OtherIdentifierStep(env: Env, m: Models, e: Element): (s: Step)
    requires Filed(m)
    ensures Filed(s.models)
    ensures s.status.Fail? <==> !Truthy(Attr(e, "ref"))
    ensures s.status.Fail? ==> s == Step(Fail(RequiredFieldError("identifier")), m)
    ensures s.status.Ok? ==>
              AppendedOne(m, s.models, Of(OtherIdentifierClass),
                          OtherIdentifier(e.attrib["ref"], Lookup(env, OtherIdentifierTypeList, Attr(e, "type")), None))
  {
    var identifier := Attr(e, "ref");
    if !Truthy(identifier) then Step(Fail(RequiredFieldError("identifier")), m)
    else Step(Ok, Stage(m, OtherIdentifier(identifier.value, Lookup(env, OtherIdentifierTypeList, Attr(e, "type")), None)))
  }

  /** `other-identifier/owner-org`: the reference is required (reported
      as a missing identifier) and set on the current other identifier. */
  function OwnerOrgStep(m: Models, e: Element): (s: Step)
    requires Filed(m)
    ensures Filed(s.models)
    ensures !Truthy(Attr(e, "ref")) ==> s == Step(Fail(RequiredFieldError("identifier")), m)
    ensures Truthy(Attr(e, "ref")) && Current(m, Of(OtherIdentifierClass)).None? ==>
              s == Step(Fail(Exception(AttributeError("OtherIdentifier"))), m)
    ensures s.status.Ok? <==> Truthy(Attr(e, "ref")) && Current(m, Of(OtherIdentifierClass)).Some?
    ensures s.status.Ok? ==>
              Current(m, Of(OtherIdentifierClass)).value.OtherIdentifier? &&
              ReplacedCurrent(m, s.models, Of(OtherIdentifierClass),
                              Current(m, Of(OtherIdentifierClass)).value.(ownerRef := Attr(e, "ref")))
  {
    var ref := Attr(e, "ref");
    var o := Current(m, Of(OtherIdentifierClass));
    if !Truthy(ref) then Step(Fail(RequiredFieldError("identifier")), m)
    else if o.None? then Step(Fail(Exception(AttributeError("OtherIdentifier"))), m)
    else
      CurrentHasClass(m, Of(OtherIdentifierClass));
      Step(Ok, Replace(m, o.value.(ownerRef := ref)))
  }

  /** The activity field an activity-date type code is copied onto. */
  function DateFieldOf(code: string): (r: Option<DateField>)
    ensures r.Some? <==> code in {"1", "2", "3", "4"}
    ensures code == "1" ==> r == Some(PlannedStart)
    ensures code == "2" ==> r == Some(ActualStart)
    ensures code == "3" ==> r == Some(PlannedEnd)
    ensures code == "4" ==> r == Some(ActualEnd)
  {
    if code == "1" then Some(PlannedStart)
    else if code == "2" then Some(ActualStart)
    else if code == "3" then Some(PlannedEnd)
    else if code == "4" then Some(ActualEnd)
    else None
  }

  /** `activity-date`: an invalid iso-date is rejected first, then an unknown
      type; a type of 1 to 4 copies the date onto the current activity, and
      one `ActivityDate` is staged. */
  function ActivityDateStep(env: Env, m: Models, e: Element): (s: Step)
    requires Filed(m)
    ensures Filed(s.models)
    ensures ValidateDate(env, Attr(e, "iso-date")).None? ==>
              s == Step(Fail(RequiredFieldError("iso-date")), m)
    ensures ValidateDate(env, Attr(e, "iso-date")).Some? &&
            Lookup(env, ActivityDateTypeList, Attr(e, "type")).None? ==>
              s == Step(Fail(RequiredFieldError("Type")), m)
    ensures s.status.Ok? <==>
              && ValidateDate(env, Attr(e, "iso-date")).Some?
              && Lookup(env, ActivityDateTypeList, Attr(e, "type")).Some?
              && (DateFieldOf(Attr(e, "type").value).Some? ==> Current(m, Of(ActivityClass)).Some?)
    ensures ValidateDate(env, Attr(e, "iso-date")).Some? &&
            Lookup(env, ActivityDateTypeList, Attr(e, "type")).Some? &&
            DateFieldOf(Attr(e, "type").value).Some? && Current(m, Of(ActivityClass)).None? ==>
              s == Step(Fail(Exception(AttributeError("Activity"))), m)
    ensures s.status.Fail? ==> s.models == m
    ensures s.status.Ok? ==>
              var d := ValidateDate(env, Attr(e, "iso-date")).value;
              var t := Lookup(env, ActivityDateTypeList, Attr(e, "type")).value;
              && ModelList(s.models, Of(ActivityDateClass)) == ModelList(m, Of(ActivityDateClass)) + [ActivityDate(d, t)]
              && (forall k :: k != Of(ActivityDateClass) && k != Of(ActivityClass) ==> ModelList(s.models, k) == ModelList(m, k))
              && (DateFieldOf(t).None? ==> ModelList(s.models, Of(ActivityClass)) == ModelList(m, Of(ActivityClass)))
              && (DateFieldOf(t).Some? ==>
                    Current(m, Of(ActivityClass)).Some? && Current(m, Of(ActivityClass)).value.Activity? &&
                    ReplacedLast(ModelList(m, Of(ActivityClass)), ModelList(s.models, Of(ActivityClass)),
                                 WithDate(Current(m, Of(ActivityClass)).value, DateFieldOf(t).value, d)))
  {
    var d := ValidateDate(env, Attr(e, "iso-date"));
    var t := Lookup(env, ActivityDateTypeList, Attr(e, "type"));
    if d.None? then Step(Fail(RequiredFieldError("iso-date")), m)
    else if t.None? then Step(Fail(RequiredFieldError("Type")), m)
    else
      var f := DateFieldOf(t.value);
      var a := Current(m, Of(ActivityClass));
      if f.Some? && a.None? then Step(Fail(Exception(AttributeError("Activity"))), m)
      else if f.Some? then Step(Ok, DatedActivity(m, f.value, d.value, t.value))
      else Step(Ok, Stage(m, ActivityDate(d.value, t.value)))
  }

  /** A date of a known type: copied onto the current activity, then one
      `ActivityDate` staged. */
  function DatedActivity(m: Models, f: DateField, d: Date, t: string): (m'': Models)
    requires Filed(m) && Current(m, Of(ActivityClass)).Some?
    ensures Filed(m'') && Current(m, Of(ActivityClass)).value.Activity?
    ensures ModelList(m'', Of(ActivityDateClass)) == ModelList(m, Of(ActivityDateClass)) + [ActivityDate(d, t)]
    ensures forall k :: k != Of(ActivityDateClass) && k != Of(ActivityClass) ==> ModelList(m'', k) == ModelList(m, k)
    ensures ReplacedLast(ModelList(m, Of(ActivityClass)), ModelList(m'', Of(ActivityClass)),
                         WithDate(Current(m, Of(ActivityClass)).value, f, d))
  {
    CurrentHasClass(m, Of(ActivityClass));
    var a := Current(m, Of(ActivityClass)).value;
    var m' := Replace(m, WithDate(a, f, d));
    var m'' := Stage(m', ActivityDate(d, t));
    ReplacedThenAppended(m, m', m'', Of(ActivityClass), WithDate(a, f, d), Of(ActivityDateClass), ActivityDate(d, t));
    m''
  }

  /** `participating-org`: the role (looked up by code) is required; the
      reference defaults to the empty string and need not name a stored
      organisation. */
  function ParticipatingOrgStep(env: Env, m: Models, e: Element): (s: Step)
    requires Filed(m)
    ensures Filed(s.models)
    ensures s.status.Fail? <==> Lookup(env, OrganisationRoleList, Attr(e, "role")).None?
    ensures s.status.Fail? ==> s == Step(Fail(RequiredFieldError("role")), m)
    ensures s.status.Ok? ==>
              var ref := AttrOr(e, "ref", "");
              AppendedOne(m, s.models, Of(ActivityParticipatingOrganisationClass),
                          ActivityParticipatingOrganisation(
                            ref, env.normalize(ref), Lookup(env, OrganisationTypeList, Attr(e, "type")),
                            StoredOrganisation(env, ref), e.attrib["role"], None))
  {
    var ref := AttrOr(e, "ref", "");
    var role := Lookup(env, OrganisationRoleList, Attr(e, "role"));
    if role.None? then Step(Fail(RequiredFieldError("role")), m)
    else
      Step(Ok, Stage(m, ActivityParticipatingOrganisation(
        ref, env.normalize(ref), Lookup(env, OrganisationTypeList, Attr(e, "type")),
        StoredOrganisation(env, ref), role.value, None)))
  }

  /** `default-flow-type`, `default-finance-type`, `default-aid-type` and
      `default-tied-status`: the code is required and written to the
      matching `default_*` field of the current activity. */
  function DefaultClassifierStep(env: Env, m: Models, e: Element, c: Classifier): (s: Step)
    requires Filed(m)
    ensures Filed(s.models)
    ensures Lookup(env, ClassifierList(c), Attr(e, "code")).None? ==>
              s == Step(Fail(RequiredFieldError("code")), m)
    ensures s.status.Ok? <==>
              Lookup(env, ClassifierList(c), Attr(e, "code")).Some? && Current(m, Of(ActivityClass)).Some?
    ensures s.status.Ok? ==>
              Current(m, Of(ActivityClass)).value.Activity? &&
              ReplacedCurrent(m, s.models, Of(ActivityClass),
                              WithDefaultClassifier(Current(m, Of(ActivityClass)).value, c, e.attrib["code"]))
    ensures s.status.Fail? ==> s.models == m
  {
    var code := Lookup(env, ClassifierList(c), Attr(e, "code"));
    var a := Current(m, Of(ActivityClass));
    if code.None? then Step(Fail(RequiredFieldError("code")), m)
    else if a.None? then Step(Fail(Exception(AttributeError("Activity"))), m)
    else
      CurrentHasClass(m, Of(ActivityClass));
      Step(Ok, Replace(m, WithDefaultClassifier(a.value, c, code.value)))
  }

  /** `sector`: the sector code is required; the vocabulary defaults to
      '1' (OECD DAC) and must then be known. */
  function SectorStep(env: Env, m: Models, e: Element): (s: Step)
    requires Filed(m)
    ensures Filed(s.models)
    ensures Lookup(env, SectorList, Attr(e, "code")).None? ==> s == Step(Fail(RequiredFieldError("code")), m)
    ensures Lookup(env, SectorList, Attr(e, "code")).Some? &&
            Lookup(env, SectorVocabularyList, Some(AttrOr(e, "vocabulary", "1"))).None? ==>
              s == Step(Fail(RequiredFieldError("vocabulary")), m)
    ensures s.status.Ok? <==>
              Lookup(env, SectorList, Attr(e, "code")).Some? &&
              Lookup(env, SectorVocabularyList, Some(AttrOr(e, "vocabulary", "1"))).Some?
    ensures s.status.Fail? ==> s.models == m
    ensures s.status.Ok? ==>
              AppendedOne(m, s.models, Of(ActivitySectorClass),
                          ActivitySector(e.attrib["code"], AttrOr(e, "vocabulary", "1"), Attr(e, "percentage")))
  {
    var sector := Lookup(env, SectorList, Attr(e, "code"));
    var vocabulary := Lookup(env, SectorVocabularyList, Some(AttrOr(e, "vocabulary", "1")));
    if sector.None? then Step(Fail(RequiredFieldError("code")), m)
    else if vocabulary.None? then Step(Fail(RequiredFieldError("vocabulary")), m)
    else Step(Ok, Stage(m, ActivitySector(sector.value, vocabulary.value, Attr(e, "percentage"))))
  }

  /** `recipient-region`: as a sector, with the region vocabulary
      defaulting to '1'. */
  function RecipientRegionStep(env: Env, m: Models, e: Element): (s: Step)
    requires Filed(m)
    ensures Filed(s.models)
    ensures Lookup(env, RegionList, Attr(e, "code")).None? ==> s == Step(Fail(RequiredFieldError("code")), m)
    ensures Lookup(env, RegionList, Attr(e, "code")).Some? &&
            Lookup(env, RegionVocabularyList, Some(AttrOr(e, "vocabulary", "1"))).None? ==>
              s == Step(Fail(RequiredFieldError("vocabulary")), m)
    ensures s.status.Ok? <==>
              Lookup(env, RegionList, Attr(e, "code")).Some? &&
              Lookup(env, RegionVocabularyList, Some(AttrOr(e, "vocabulary", "1"))).Some?
    ensures s.status.Fail? ==> s.models == m
    ensures s.status.Ok? ==>
              AppendedOne(m, s.models, Of(ActivityRecipientRegionClass),
                          ActivityRecipientRegion(e.attrib["code"], AttrOr(e, "vocabulary", "1"), Attr(e, "percentage")))
  {
    var region := Lookup(env, RegionList, Attr(e, "code"));
    var vocabulary := Lookup(env, RegionVocabularyList, Some(AttrOr(e, "vocabulary", "1")));
    if region.None? then Step(Fail(RequiredFieldError("code")), m)
    else if vocabulary.None? then Step(Fail(RequiredFieldError("vocabulary")), m)
    else Step(Ok, Stage(m, ActivityRecipientRegion(region.value, vocabulary.value, Attr(e, "percentage"))))
  }

  /** `recipient-country`: the country code is required. */
  function RecipientCountryStep(env: Env, m: Models, e: Element): (s: Step)
    requires Filed(m)
    ensures Filed(s.models)
    ensures s.status.Fail? <==> Lookup(env, CountryList, Attr(e, "code")).None?
    ensures s.status.Fail? ==> s == Step(Fail(RequiredFieldError("code")), m)
    ensures s.status.Ok? ==>
              AppendedOne(m, s.models, Of(ActivityRecipientCountryClass),
                          ActivityRecipientCountry(e.attrib["code"], Attr(e, "percentage")))
  {
    var country := Lookup(env, CountryList, Attr(e, "code"));
    if country.None? then Step(Fail(RequiredFieldError("code")), m)
    else Step(Ok, Stage(m, ActivityRecipientCountry(country.value, Attr(e, "percentage"))))
  }

  /** A `narrative` child whose handler passes the current record of `kind`
      to `add_narrative` (the narratives of title, description,
      reporting-org, activity-date and other-identifier's owner-org). */
  function NarrativeStep(env: Env, m: Models, defaultLang: Option<string>, e: Element, kind: Kind): (s: Step)
    requires Filed(m)
    ensures Filed(s.models)
    ensures s == AddNarrativeStep(env, m, defaultLang, e, Current(m, kind),
                                  if |ModelList(m, kind)| > 0 then |ModelList(m, kind)| - 1 else 0)
  {
    var l := ModelList(m, kind);
    AddNarrativeStep(env, m, defaultLang, e, Current(m, kind), if |l| > 0 then |l| - 1 else 0)
  }

  /** The narratives of participating-org, provider-org and receiver-org:
      staged like any narrative, and the party's primary name updated with
      `get_primary_name`. */
  function PartyNarrativeStep(env: Env, m: Models, defaultLang: Option<string>, e: Element, p: NamedParty): (s: Step)
    requires Filed(m)
    ensures Filed(s.models)
    ensures s.status == NarrativeStep(env, m, defaultLang, e, PartyKind(p)).status
    ensures s.status.Fail? ==> s.models == m
    ensures s.status.Ok? ==>
              var party := Current(m, PartyKind(p)).value;
              IsParty(party) &&
              ReplacedCurrent(NarrativeStep(env, m, defaultLang, e, PartyKind(p)).models, s.models, PartyKind(p),
                              WithPartyName(party, env.primaryName(e, PartyName(party))))
  {
    var n := NarrativeStep(env, m, defaultLang, e, PartyKind(p));
    if n.status.Fail? then n
    else Step(Ok, Renamed(env, m, n.models, e, p))
  }

  /** The primary-name update after a party's narrative was staged in `n`. */
  function Renamed(env: Env, m: Models, n: Models, e: Element, p: NamedParty): (n': Models)
    requires Filed(m) && Filed(n) && Current(m, PartyKind(p)).Some?
    requires forall k: Kind :: k.Of? ==> ModelList(n, k) == ModelList(m, k)
    ensures Filed(n')
    ensures var party := Current(m, PartyKind(p)).value;
            IsParty(party) && ReplacedCurrent(n, n', PartyKind(p), WithPartyName(party, env.primaryName(e, PartyName(party))))
  {
    var kind := PartyKind(p);
    var party := Current(m, kind).value;
    PartyIsParty(m, p);
    assert ModelList(n, kind) == ModelList(m, kind);
    Replace(n, WithPartyName(party, env.primaryName(e, PartyName(party))))
  }

  /** The current record of a party type is a party of that type. */
  lemma PartyIsParty(m: Models, p: NamedParty)
    requires Filed(m) && Current(m, PartyKind(p)).Some?
    ensures PartyKind(p).Of? && ClassOf(Current(m, PartyKind(p)).value) == PartyKind(p).cls
    ensures IsParty(Current(m, PartyKind(p)).value)
  {
    CurrentHasClass(m, PartyKind(p));
  }

  /** The organisation the reporting-org handler creates for a reference
      that is not stored yet: identified by the reference, version 2.01,
      not reported in IATI, with the given primary name. */
  function NewOrganisation(ref: string, now: Date, name: Option<string>): (r: Record)
    ensures r.Organisation? && r.primaryName == name
  {
    Organisation(ref, ref, now, "2.01", false, name)
  }

  /** The reporting organisation of the current activity. */
  function ReportingOrganisation(env: Env, e: Element, ref: string): Record
  {
    ActivityReportingOrganisation(ref, env.normalize(ref), Lookup(env, OrganisationTypeList, Attr(e, "type")),
                                  ref, env.makeBool(Attr(e, "secondary-reporter")))
  }

  /** The primary name a created organisation ends up with: the reference
      when there are no narratives, else `get_primary_name` folded over them. */
  function CreatedPrimaryName(env: Env, ns: seq<Element>, ref: string): Option<string>
  {
    if ns == [] then Some(ref) else PrimaryNameAfter(env, ns, None)
  }

  /** `reporting-org`: the reference is required. An organisation that is
      not stored is created lazily, with an organisation name and the
      narratives; a failing narrative aborts before the reporting
      organisation is staged. */
  function ReportingOrgStep(env: Env, m: Models, defaultLang: Option<string>, e: Element, now: Date): (s: Step)
    requires Filed(m)
    ensures Filed(s.models)
    ensures !Truthy(Attr(e, "ref")) ==> s == Step(Fail(RequiredFieldError("ref")), m)
    ensures Truthy(Attr(e, "ref")) && e.attrib["ref"] in env.organisations ==>
              s.status.Ok? &&
              AppendedOne(m, s.models, Of(ActivityReportingOrganisationClass),
                          ReportingOrganisation(env, e, e.attrib["ref"]))
    ensures Truthy(Attr(e, "ref")) && e.attrib["ref"] !in env.organisations ==>
              CreatedAndReported(env, m, defaultLang, s, e, e.attrib["ref"], now)
  {
    var ref := Attr(e, "ref");
    if !Truthy(ref) then Step(Fail(RequiredFieldError("ref")), m)
    else if ref.value in env.organisations then
      Step(Ok, StageReporting(env, m, e, ref.value))
    else
      CreateThenReport(env, m, defaultLang, e, ref.value, now)
  }

  /** What the reporting-org handler leaves when it creates the
      organisation: one more organisation and one more organisation name
      whatever happens; on success the organisation carries its primary
      name, every narrative is staged and the reporting organisation is
      registered; on failure it is not. */
  ghost predicate CreatedAndReported(env: Env, m: Models, defaultLang: Option<string>, s: Step, e: Element, ref: string, now: Date)
  {
    && |ModelList(s.models, Of(OrganisationClass))| == |ModelList(m, Of(OrganisationClass))| + 1
    && ModelList(s.models, Of(OrganisationNameClass)) == ModelList(m, Of(OrganisationNameClass)) + [OrganisationName]
    && (s.status.Ok? <==> forall n :: n in ChildrenTagged(e, "narrative") ==> Accepted(env, defaultLang, n))
    && (s.status.Ok? ==>
          && Current(s.models, Of(OrganisationClass)) ==
               Some(NewOrganisation(ref, now, CreatedPrimaryName(env, ChildrenTagged(e, "narrative"), ref)))
          && ModelList(s.models, NarrativesOf(OrganisationNameClass)) ==
               ModelList(m, NarrativesOf(OrganisationNameClass)) +
               NameNarratives(defaultLang, ChildrenTagged(e, "narrative"), |ModelList(m, Of(OrganisationNameClass))|)
          && ModelList(s.models, Of(ActivityReportingOrganisationClass)) ==
               ModelList(m, Of(ActivityReportingOrganisationClass)) + [ReportingOrganisation(env, e, ref)])
    && (s.status.Fail? ==>
          ModelList(s.models, Of(ActivityReportingOrganisationClass)) == ModelList(m, Of(ActivityReportingOrganisationClass)))
  }

  /** The branch of the reporting-org handler for an organisation that is
      not stored. */
  function CreateThenReport(env: Env, m: Models, defaultLang: Option<string>, e: Element,
                            ref: string, now: Date): (s: Step)
    requires Filed(m)
    ensures Filed(s.models)
    ensures CreatedAndReported(env, m, defaultLang, s, e, ref, now)
  {
    var c := CreateOrganisation(env, m, defaultLang, ChildrenTagged(e, "narrative"), ref, now);
    if c.status.Fail? then c
    else
      var m' := StageReporting(env, c.models, e, ref);
      ReportedAfterCreated(env, m, defaultLang, c.models, m', e, ref, now);
      Step(Ok, m')
  }

  /** The reporting organisation registered after an organisation was
      created with its narratives. */
  lemma ReportedAfterCreated(env: Env, m: Models, defaultLang: Option<string>, c: Models, m': Models, e: Element, ref: string, now: Date)
    requires |ModelList(c, Of(OrganisationClass))| == |ModelList(m, Of(OrganisationClass))| + 1
    requires ModelList(c, Of(OrganisationNameClass)) == ModelList(m, Of(OrganisationNameClass)) + [OrganisationName]
    requires ModelList(c, Of(ActivityReportingOrganisationClass)) == ModelList(m, Of(ActivityReportingOrganisationClass))
    requires Current(c, Of(OrganisationClass)) ==
               Some(NewOrganisation(ref, now, CreatedPrimaryName(env, ChildrenTagged(e, "narrative"), ref)))
    requires forall n :: n in ChildrenTagged(e, "narrative") ==> Accepted(env, defaultLang, n)
    requires ModelList(c, NarrativesOf(OrganisationNameClass)) ==
               ModelList(m, NarrativesOf(OrganisationNameClass)) +
               NameNarratives(defaultLang, ChildrenTagged(e, "narrative"), |ModelList(m, Of(OrganisationNameClass))|)
    requires AppendedOne(c, m', Of(ActivityReportingOrganisationClass), ReportingOrganisation(env, e, ref))
    ensures CreatedAndReported(env, m, defaultLang, Step(Ok, m'), e, ref, now)
  {
    ReportingKeepsOrganisation(c, m', ReportingOrganisation(env, e, ref));
    assert Current(m', Of(OrganisationClass)) == Current(c, Of(OrganisationClass));
  }

  /** Registering the reporting organisation leaves the organisation, its
      names and their narratives alone. */
  lemma ReportingKeepsOrganisation(m: Models, m': Models, r: Record)
    requires AppendedOne(m, m', Of(ActivityReportingOrganisationClass), r)
    ensures ModelList(m', Of(OrganisationClass)) == ModelList(m, Of(OrganisationClass))
    ensures ModelList(m', Of(OrganisationNameClass)) == ModelList(m, Of(OrganisationNameClass))
    ensures ModelList(m', NarrativesOf(OrganisationNameClass)) == ModelList(m, NarrativesOf(OrganisationNameClass))
  {
  }

  /** The reporting organisation registered after the organisation exists. */
  function StageReporting(env: Env, m: Models, e: Element, ref: string): (m': Models)
    requires Filed(m)
    ensures Filed(m')
    ensures AppendedOne(m, m', Of(ActivityReportingOrganisationClass), ReportingOrganisation(env, e, ref))
  {
    assert RegisterName(ReportingOrganisation(env, e, ref)) == Of(ActivityReportingOrganisationClass);
    Stage(m, ReportingOrganisation(env, e, ref))
  }

  /** The lazy creation of the reporting organisation: the organisation and
      its name are staged, then each of the element's narratives `ns`,
      updating the primary name. */
  function CreateOrganisation(env: Env, m: Models, defaultLang: Option<string>, ns: seq<Element>,
                              ref: string, now: Date): (s: Step)
    requires Filed(m)
    ensures Filed(s.models)
    ensures |ModelList(s.models, Of(OrganisationClass))| == |ModelList(m, Of(OrganisationClass))| + 1
    ensures ModelList(s.models, Of(OrganisationNameClass)) == ModelList(m, Of(OrganisationNameClass)) + [OrganisationName]
    ensures ModelList(s.models, Of(ActivityReportingOrganisationClass)) == ModelList(m, Of(ActivityReportingOrganisationClass))
    ensures s.status.Ok? <==> forall n :: n in ns ==> Accepted(env, defaultLang, n)
    ensures s.status.Ok? ==>
              && Current(s.models, Of(OrganisationClass)) == Some(NewOrganisation(ref, now, CreatedPrimaryName(env, ns, ref)))
              && ModelList(s.models, NarrativesOf(OrganisationNameClass)) ==
                   ModelList(m, NarrativesOf(OrganisationNameClass)) +
                   NameNarratives(defaultLang, ns, |ModelList(m, Of(OrganisationNameClass))|)
  {
    if ns == [] then
      var m2 := CreateUnnamed(m, ref, now);
      var named := NameNarratives(defaultLang, ns, |ModelList(m, Of(OrganisationNameClass))|);
      assert named == [];
      assert ModelList(m, NarrativesOf(OrganisationNameClass)) + named == ModelList(m, NarrativesOf(OrganisationNameClass));
      Step(Ok, m2)
    else CreateNamed(env, m, defaultLang, ns, ref, now)
  }

  /** An organisation created without narratives. */
  function CreateUnnamed(m: Models, ref: string, now: Date): (m2: Models)
    requires Filed(m)
    ensures Filed(m2)
    ensures |ModelList(m2, Of(OrganisationClass))| == |ModelList(m, Of(OrganisationClass))| + 1
    ensures ModelList(m2, Of(OrganisationNameClass)) == ModelList(m, Of(OrganisationNameClass)) + [OrganisationName]
    ensures ModelList(m2, Of(ActivityReportingOrganisationClass)) == ModelList(m, Of(ActivityReportingOrganisationClass))
    ensures Current(m2, Of(OrganisationClass)) == Some(NewOrganisation(ref, now, Some(ref)))
    ensures ModelList(m2, NarrativesOf(OrganisationNameClass)) == ModelList(m, NarrativesOf(OrganisationNameClass))
  {
    var m1 := StageOrganisation(m, NewOrganisation(ref, now, None));
    assert ModelList(m1, Of(ActivityReportingOrganisationClass)) == ModelList(m, Of(ActivityReportingOrganisationClass));
    assert ModelList(m1, NarrativesOf(OrganisationNameClass)) == ModelList(m, NarrativesOf(OrganisationNameClass));
    UnnamedOrganisation(m1, ref, now)
  }

  /** An organisation created with the narratives `ns`. */
  function CreateNamed(env: Env, m: Models, defaultLang: Option<string>, ns: seq<Element>,
                       ref: string, now: Date): (s: Step)
    requires Filed(m)
    ensures Filed(s.models)
    ensures |ModelList(s.models, Of(OrganisationClass))| == |ModelList(m, Of(OrganisationClass))| + 1
    ensures ModelList(s.models, Of(OrganisationNameClass)) == ModelList(m, Of(OrganisationNameClass)) + [OrganisationName]
    ensures ModelList(s.models, Of(ActivityReportingOrganisationClass)) == ModelList(m, Of(ActivityReportingOrganisationClass))
    ensures s.status.Ok? <==> forall n :: n in ns ==> Accepted(env, defaultLang, n)
    ensures s.status.Ok? ==>
              && Current(s.models, Of(OrganisationClass)) == Some(NewOrganisation(ref, now, PrimaryNameAfter(env, ns, None)))
              && ModelList(s.models, NarrativesOf(OrganisationNameClass)) ==
                   ModelList(m, NarrativesOf(OrganisationNameClass)) +
                   NameNarratives(defaultLang, ns, |ModelList(m, Of(OrganisationNameClass))|)
  {
    var m1 := StageOrganisation(m, NewOrganisation(ref, now, None));
    assert ModelList(m1, Of(ActivityReportingOrganisationClass)) == ModelList(m, Of(ActivityReportingOrganisationClass));
    assert ModelList(m1, NarrativesOf(OrganisationNameClass)) == ModelList(m, NarrativesOf(OrganisationNameClass));
    NamedOrganisations(env, m1, defaultLang, ns, |ModelList(m, Of(OrganisationNameClass))|, ref, now)
  }

  /** The two ways an organisation is created, by whether it has narratives. */
  lemma CreateOrganisationCases(env: Env, m: Models, defaultLang: Option<string>, ns: seq<Element>, ref: string, now: Date)
    requires Filed(m)
    ensures var m1 := StageOrganisation(m, NewOrganisation(ref, now, None));
            CreateOrganisation(env, m, defaultLang, ns, ref, now) ==
              if ns == [] then Step(Ok, UnnamedOrganisation(m1, ref, now))
              else NamedOrganisations(env, m1, defaultLang, ns, |ModelList(m, Of(OrganisationNameClass))|, ref, now)
  {
  }

  /** No narratives: the primary name is the reference. */
  function UnnamedOrganisation(m1: Models, ref: string, now: Date): (m2: Models)
    requires Filed(m1) && Current(m1, Of(OrganisationClass)) == Some(NewOrganisation(ref, now, None))
    ensures Filed(m2) && Current(m2, Of(OrganisationClass)) == Some(NewOrganisation(ref, now, Some(ref)))
    ensures |ModelList(m2, Of(OrganisationClass))| == |ModelList(m1, Of(OrganisationClass))|
    ensures forall k :: k != Of(OrganisationClass) ==> ModelList(m2, k) == ModelList(m1, k)
  {
    FiledSetLast(m1, Of(OrganisationClass), NewOrganisation(ref, now, Some(ref)));
    SetLast(m1, Of(OrganisationClass), NewOrganisation(ref, now, Some(ref)))
  }

  /** Some narratives: each is staged and folded into the primary name,
      which is the organisation name at position `nameIndex`. */
  function NamedOrganisations(env: Env, m1: Models, defaultLang: Option<string>, ns: seq<Element>,
                              nameIndex: nat, ref: string, now: Date): (s: Step)
    requires Filed(m1) && Current(m1, Of(OrganisationClass)) == Some(NewOrganisation(ref, now, None))
    requires nameIndex + 1 == |ModelList(m1, Of(OrganisationNameClass))|
    ensures Filed(s.models)
    ensures |ModelList(s.models, Of(OrganisationClass))| == |ModelList(m1, Of(OrganisationClass))|
    ensures forall k :: k != Of(OrganisationClass) && k != NarrativesOf(OrganisationNameClass) ==>
              ModelList(s.models, k) == ModelList(m1, k)
    ensures s.status.Ok? <==> forall n :: n in ns ==> Accepted(env, defaultLang, n)
    ensures s.status.Ok? ==>
              && Current(s.models, Of(OrganisationClass)) == Some(NewOrganisation(ref, now, PrimaryNameAfter(env, ns, None)))
              && ModelList(s.models, NarrativesOf(OrganisationNameClass)) ==
                   ModelList(m1, NarrativesOf(OrganisationNameClass)) +
                   NameNarratives(defaultLang, ns, nameIndex)
  {
    var org := NewOrganisation(ref, now, None);
    var r := OrganisationNames(env, m1, defaultLang, ns, org, nameIndex);
    assert r.0.status.Ok? ==> r.1 == NewOrganisation(ref, now, PrimaryNameAfter(env, ns, None)) by {
      if r.0.status.Ok? {
        NamedAfter(r.1, org, PrimaryNameAfter(env, ns, None));
      }
    }
    r.0
  }

  /** The organisation and its (single) name registered, in that order. */
  function StageOrganisation(m: Models, org: Record): (m1: Models)
    requires Filed(m) && org.Organisation?
    ensures Filed(m1) && Current(m1, Of(OrganisationClass)) == Some(org)
    ensures |ModelList(m1, Of(OrganisationClass))| == |ModelList(m, Of(OrganisationClass))| + 1
    ensures ModelList(m1, Of(OrganisationNameClass)) == ModelList(m, Of(OrganisationNameClass)) + [OrganisationName]
    ensures forall k :: k != Of(OrganisationClass) && k != Of(OrganisationNameClass) ==> ModelList(m1, k) == ModelList(m, k)
  {
    Stage(Stage(m, org), OrganisationName)
  }

  /** An organisation that differs from `org` only in its primary name,
      and has primary name `name`, is `org` renamed to `name`. */
  lemma NamedAfter(o: Record, org: Record, name: Option<string>)
    requires o.Organisation? && org.Organisation?
    requires o.(primaryName := org.primaryName) == org && o.primaryName == name
    ensures o == Organisation(org.orgId, org.organisationIdentifier, org.orgLastUpdated,
                              org.orgVersion, org.reportedInIati, name)
  {
  }
}
