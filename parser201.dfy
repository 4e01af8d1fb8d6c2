/** The 2.01 parser object: the staging context, the stored activities and
    the default language, changed in place by one method per handler. Each
    method is proved to do what the corresponding step function says. */
module Parser201 {
  import opened Common
  import opened Records
  import opened Staging
  import opened Store
  import opened Narratives
  import opened ActivityHandlers
  import opened TransactionHandlers
  import opened ResultHandlers
  import opened ActivityRoot
  import opened Dispatch
  import Supersession

  class Parser {
    const cfg: Config
    const parseStart: Date
    const ctx: StagingContext
    const store: ActivityStore
    var defaultLang: Option<string>

    ghost function State(): State
      reads this, ctx, store
    {
      ActivityRoot.State(ctx.models, defaultLang, store.activities)
    }

    ghost predicate Valid()
      reads this, ctx
    {
      ctx.Valid()
    }

    constructor (cfg: Config, parseStart: Date, stored: seq<StoredActivity>)
      ensures Valid() && this.cfg == cfg && this.parseStart == parseStart
      ensures State() == ActivityRoot.State(map[], None, stored)
      ensures fresh(ctx) && fresh(store)
    {
      this.cfg := cfg;
      this.parseStart := parseStart;
      ctx := new StagingContext();
      store := new ActivityStore(stored);
      defaultLang := None;
    }

    /** `register_model(ClassOf(r), r)` */
    method Register(r: Record)
      requires Valid()
      modifies ctx
      ensures Valid() && ctx.models == Stage(old(ctx.models), r)
    {
      ctx.RegisterModel(RegisterName(r), r);
    }

    /** A field assignment on the current record of the type of `r`. */
    method Assign(r: Record)
      requires Valid() && |ModelList(ctx.models, RegisterName(r))| > 0
      modifies ctx
      ensures Valid() && ctx.models == Replace(old(ctx.models), r)
    {
      ctx.UpdateCurrent(RegisterName(r), r);
    }

    /** `add_narrative`: the language is lower-cased twice, which is the
        same as once. */
    method AddNarrative(e: Element, parent: Option<Record>, parentIndex: nat) returns (st: Status)
      requires Valid()
      modifies ctx
      ensures Valid()
      ensures Step(st, ctx.models) == AddNarrativeStep(cfg.env, old(ctx.models), defaultLang, e, parent, parentIndex)
    {
      var raw := if XmlLang in e.attrib then Some(e.attrib[XmlLang]) else defaultLang;
      if raw.None? {
        return Fail(Exception(AttributeError("lower")));
      }
      var lang := Lower(raw.value);
      if lang != "" {
        LowerIdempotent(raw.value);
        lang := Lower(lang);
      }
      if parent.None? {
        return Fail(RequiredFieldError("parent"));
      }
      if Lookup(cfg.env, LanguageList, Some(lang)).None? {
        return Fail(RequiredFieldError("language"));
      }
      if e.text == "" {
        return Fail(RequiredFieldError("text"));
      }
      Register(Narrative(lang, e.text, ClassOf(parent.value), parentIndex));
      st := Ok;
    }

    /** `iati_activities__iati_activity` */
    method IatiActivity(e: Element, now: Date) returns (st: Status)
      requires Valid()
      modifies this, ctx, store
      ensures Valid()
      ensures (st, State()) == ActivityStep(cfg, old(State()), e, now)
    {
      var hdr := ReadHeader(cfg.env, e);
      if hdr.Failure? {
        return Fail(hdr.error);
      }
      var h := hdr.value;
      var stored := Find(store.activities, h.id);
      var d := Supersession.Decide(StoredTimestamp(store.activities, h.id), h.lastUpdated, cfg.forceReparse);
      if stored.Some? && !cfg.forceReparse {
        store.Save(h.id, now);
        if d.Reject? {
          return Fail(d.error);
        }
      }
      if stored.Some? {
        store.Delete(h.id);
      }
      defaultLang := Some(h.defaultLang);
      Register(NewActivity(h, cfg.sourceRef, cfg.version));
      st := Ok;
    }

    method IatiIdentifier(e: Element) returns (st: Status)
      requires Valid()
      modifies ctx
      ensures Valid() && Step(st, ctx.models) == IatiIdentifierStep(old(ctx.models), e)
    {
      if e.text == "" {
        return Fail(RequiredFieldError("text"));
      }
      var a := ctx.GetModel(Of(ActivityClass));
      if a.None? {
        return Fail(Exception(AttributeError("Activity")));
      }
      CurrentHasClass(ctx.models, Of(ActivityClass));
      Assign(a.value.(iatiIdentifier := Some(e.text)));
      st := Ok;
    }

    /** `reporting-org`: the reference is required; an organisation that
        is not stored is created, with its name and narratives, before the
        reporting organisation is registered. */
    method ReportingOrg(e: Element, now: Date) returns (st: Status)
      requires Valid()
      modifies ctx
      ensures Valid() && Step(st, ctx.models) == ReportingOrgStep(cfg.env, old(ctx.models), defaultLang, e, now)
    {
      var ref := Attr(e, "ref");
      if !Truthy(ref) {
        return Fail(RequiredFieldError("ref"));
      }
      if ref.value !in cfg.env.organisations {
        st := CreateOrganisation(e, ref.value, now);
        if st.Fail? {
          return;
        }
      }
      Register(ReportingOrganisation(cfg.env, e, ref.value));
      st := Ok;
    }

    /** The organisation created for a reference that is not stored. */
    method CreateOrganisation(e: Element, ref: string, now: Date) returns (st: Status)
      requires Valid()
      modifies ctx
      ensures Valid() && Step(st, ctx.models) ==
                         ActivityHandlers.CreateOrganisation(cfg.env, old(ctx.models), defaultLang, ChildrenTagged(e, "narrative"), ref, now)
    {
      ghost var m0 := ctx.models;
      var org := NewOrganisation(ref, now, None);
      RegisterOrganisation(org);
      ghost var m1 := ctx.models;
      var ns := ChildrenTagged(e, "narrative");
      CreateOrganisationCases(cfg.env, m0, defaultLang, ns, ref, now);
      if |ns| > 0 {
        var nameIndex := |ctx.GetModelList(Of(OrganisationNameClass))| - 1;
        assert nameIndex == |ModelList(m1, Of(OrganisationNameClass))| - 1;
        var named;
        st, named := NameOrganisation(ns, org, nameIndex);
        assert (Step(st, ctx.models), named) == OrganisationNames(cfg.env, m1, defaultLang, ns, org, nameIndex);
      } else {
        Assign(NewOrganisation(ref, now, Some(ref)));
        st := Ok;
        assert ctx.models == UnnamedOrganisation(m1, ref, now);
      }
    }

    /** The organisation and then its name registered. */
    method RegisterOrganisation(org: Record)
      requires Valid() && org.Organisation?
      modifies ctx
      ensures Valid() && ctx.models == StageOrganisation(old(ctx.models), org)
    {
      Register(org);
      Register(OrganisationName);
    }

    /** The loop over the narratives of a created organisation: each one is
        staged, then folded into the organisation's primary name. */
    method NameOrganisation(ns: seq<Element>, org: Record, nameIndex: nat) returns (st: Status, named: Record)
      requires Valid() && org.Organisation? && Current(ctx.models, Of(OrganisationClass)) == Some(org)
      modifies ctx
      ensures Valid()
      ensures (Step(st, ctx.models), named) == OrganisationNames(cfg.env, old(ctx.models), defaultLang, ns, org, nameIndex)
    {
      ghost var m0 := ctx.models;
      named := org;
      st := Ok;
      var i := 0;
      while i < |ns|
        invariant 0 <= i <= |ns|
        invariant Valid() && named.Organisation? && Current(ctx.models, Of(OrganisationClass)) == Some(named) && st == Ok
        invariant OrganisationNames(cfg.env, m0, defaultLang, ns, org, nameIndex) ==
                  OrganisationNames(cfg.env, ctx.models, defaultLang, ns[i..], named, nameIndex)
      {
        assert ns[i..][0] == ns[i] && ns[i..][1..] == ns[i + 1..];
        ghost var m := ctx.models;
        st := AddNarrative(ns[i], Some(OrganisationName), nameIndex);
        if st.Fail? {
          OrganisationNamesStops(cfg.env, m, defaultLang, ns[i..], named, nameIndex);
          return;
        }
        OrganisationNamesGoesOn(cfg.env, m, defaultLang, ns[i..], named, nameIndex);
        named := named.(primaryName := Some(cfg.env.primaryName(ns[i], named.primaryName)));
        ctx.UpdateCurrent(Of(OrganisationClass), named);
        i := i + 1;
      }
      assert ns[i..] == [];
    }

    method ParticipatingOrg(e: Element) returns (st: Status)
      requires Valid()
      modifies ctx
      ensures Valid() && Step(st, ctx.models) == ParticipatingOrgStep(cfg.env, old(ctx.models), e)
    {
      var ref := AttrOr(e, "ref", "");
      var role := Lookup(cfg.env, OrganisationRoleList, Attr(e, "role"));
      if role.None? {
        return Fail(RequiredFieldError("role"));
      }
      Register(ActivityParticipatingOrganisation(
        ref, cfg.env.normalize(ref), Lookup(cfg.env, OrganisationTypeList, Attr(e, "type")),
        StoredOrganisation(cfg.env, ref), role.value, None));
      st := Ok;
    }

    method Title(e: Element) returns (st: Status)
      requires Valid()
      modifies ctx
      ensures Valid() && Step(st, ctx.models) == TitleStep(old(ctx.models))
    {
      var titles := ctx.GetModelList(Of(TitleClass));
      if |titles| > 0 {
        return Fail(ValidationError("title", "Duplicate titles are not allowed"));
      }
      Register(Records.Title);
      st := Ok;
    }

    method Description(e: Element) returns (st: Status)
      requires Valid()
      modifies ctx
      ensures Valid() && Step(st, ctx.models) == DescriptionStep(cfg.env, old(ctx.models), e)
    {
      var code := AttrOr(e, "type", "1");
      Register(Records.Description(Lookup(cfg.env, LanguageList, Some(code))));
      st := Ok;
    }

    method OtherIdentifier(e: Element) returns (st: Status)
      requires Valid()
      modifies ctx
      ensures Valid() && Step(st, ctx.models) == OtherIdentifierStep(cfg.env, old(ctx.models), e)
    {
      var identifier := Attr(e, "ref");
      if !Truthy(identifier) {
        return Fail(RequiredFieldError("identifier"));
      }
      Register(Records.OtherIdentifier(identifier.value, Lookup(cfg.env, OtherIdentifierTypeList, Attr(e, "type")), None));
      st := Ok;
    }

    method OwnerOrg(e: Element) returns (st: Status)
      requires Valid()
      modifies ctx
      ensures Valid() && Step(st, ctx.models) == OwnerOrgStep(old(ctx.models), e)
    {
      var ref := Attr(e, "ref");
      if !Truthy(ref) {
        return Fail(RequiredFieldError("identifier"));
      }
      var o := ctx.GetModel(Of(OtherIdentifierClass));
      if o.None? {
        return Fail(Exception(AttributeError("OtherIdentifier")));
      }
      CurrentHasClass(ctx.models, Of(OtherIdentifierClass));
      Assign(o.value.(ownerRef := ref));
      st := Ok;
    }

    method ActivityDate(e: Element) returns (st: Status)
      requires Valid()
      modifies ctx
      ensures Valid() && Step(st, ctx.models) == ActivityDateStep(cfg.env, old(ctx.models), e)
    {
      var d := ValidateDate(cfg.env, Attr(e, "iso-date"));
      var t := Lookup(cfg.env, ActivityDateTypeList, Attr(e, "type"));
      if d.None? {
        return Fail(RequiredFieldError("iso-date"));
      }
      if t.None? {
        return Fail(RequiredFieldError("Type"));
      }
      var f := DateFieldOf(t.value);
      if f.Some? {
        var a := ctx.GetModel(Of(ActivityClass));
        if a.None? {
          return Fail(Exception(AttributeError("Activity")));
        }
        CurrentHasClass(ctx.models, Of(ActivityClass));
        Assign(WithDate(a.value, f.value, d.value));
      }
      Register(Records.ActivityDate(d.value, t.value));
      st := Ok;
    }

    method DefaultClassifier(e: Element, c: Classifier) returns (st: Status)
      requires Valid()
      modifies ctx
      ensures Valid() && Step(st, ctx.models) == DefaultClassifierStep(cfg.env, old(ctx.models), e, c)
    {
      var code := Lookup(cfg.env, ClassifierList(c), Attr(e, "code"));
      if code.None? {
        return Fail(RequiredFieldError("code"));
      }
      var a := ctx.GetModel(Of(ActivityClass));
      if a.None? {
        return Fail(Exception(AttributeError("Activity")));
      }
      CurrentHasClass(ctx.models, Of(ActivityClass));
      Assign(WithDefaultClassifier(a.value, c, code.value));
      st := Ok;
    }

    method Sector(e: Element) returns (st: Status)
      requires Valid()
      modifies ctx
      ensures Valid() && Step(st, ctx.models) == SectorStep(cfg.env, old(ctx.models), e)
    {
      var sector := Lookup(cfg.env, SectorList, Attr(e, "code"));
      var vocabulary := Lookup(cfg.env, SectorVocabularyList, Some(AttrOr(e, "vocabulary", "1")));
      if sector.None? {
        return Fail(RequiredFieldError("code"));
      }
      if vocabulary.None? {
        return Fail(RequiredFieldError("vocabulary"));
      }
      Register(ActivitySector(sector.value, vocabulary.value, Attr(e, "percentage")));
      st := Ok;
    }

    method RecipientRegion(e: Element) returns (st: Status)
      requires Valid()
      modifies ctx
      ensures Valid() && Step(st, ctx.models) == RecipientRegionStep(cfg.env, old(ctx.models), e)
    {
      var region := Lookup(cfg.env, RegionList, Attr(e, "code"));
      var vocabulary := Lookup(cfg.env, RegionVocabularyList, Some(AttrOr(e, "vocabulary", "1")));
      if region.None? {
        return Fail(RequiredFieldError("code"));
      }
      if vocabulary.None? {
        return Fail(RequiredFieldError("vocabulary"));
      }
      Register(ActivityRecipientRegion(region.value, vocabulary.value, Attr(e, "percentage")));
      st := Ok;
    }

    method RecipientCountry(e: Element) returns (st: Status)
      requires Valid()
      modifies ctx
      ensures Valid() && Step(st, ctx.models) == RecipientCountryStep(cfg.env, old(ctx.models), e)
    {
      var country := Lookup(cfg.env, CountryList, Attr(e, "code"));
      if country.None? {
        return Fail(RequiredFieldError("code"));
      }
      Register(ActivityRecipientCountry(country.value, Attr(e, "percentage")));
      st := Ok;
    }

    /** A narrative whose parent is the current record of `kind`. */
    method NarrativeOf(e: Element, kind: Kind) returns (st: Status)
      requires Valid()
      modifies ctx
      ensures Valid() && Step(st, ctx.models) == NarrativeStep(cfg.env, old(ctx.models), defaultLang, e, kind)
    {
      var parent := ctx.GetModel(kind);
      var l := ctx.GetModelList(kind);
      st := AddNarrative(e, parent, if |l| > 0 then |l| - 1 else 0);
    }

    /** A narrative of a party, which also updates the party's primary name. */
    method PartyNarrative(e: Element, p: NamedParty) returns (st: Status)
      requires Valid()
      modifies ctx
      ensures Valid() && Step(st, ctx.models) == PartyNarrativeStep(cfg.env, old(ctx.models), defaultLang, e, p)
    {
      ghost var m := ctx.models;
      var kind := PartyKind(p);
      var party := ctx.GetModel(kind);
      st := NarrativeOf(e, kind);
      if st.Fail? {
        return;
      }
      PartyIsParty(m, p);
      Assign(WithPartyName(party.value, cfg.env.primaryName(e, PartyName(party.value))));
    }

    method Transaction(e: Element) returns (st: Status)
      requires Valid()
      modifies ctx
      ensures Valid() && Step(st, ctx.models) == TransactionStep(old(ctx.models), e)
    {
      Register(Records.Transaction(Attr(e, "ref"), None, None, None, None, None));
      st := Ok;
    }

    /** `value` of a transaction, budget or planned disbursement. */
    method Value(e: Element, v: Valued) returns (st: Status)
      requires Valid()
      modifies ctx
      ensures Valid() && Step(st, ctx.models) == ValueStep(cfg.env, old(ctx.models), e, v)
    {
      var amount := cfg.env.guessNumber(e.text);
      if amount.None? {
        return Fail(RequiredFieldError("value"));
      }
      var date := ValidateDate(cfg.env, Attr(e, "value-date"));
      if date.None? {
        return Fail(RequiredFieldError("value_date"));
      }
      var currency := cfg.env.currencyOrRaise(Lookup(cfg.env, CurrencyList, Attr(e, "currency")));
      if currency.None? {
        return Fail(CurrencyNotResolved);
      }
      var kind := ValuedKind(v);
      var r := ctx.GetModel(kind);
      if r.None? {
        return Fail(Exception(AttributeError(KindName(kind))));
      }
      ghost var replaced := ReplaceValue(ctx.models, v, Money(e.text, amount.value, date.value, currency.value));
      Assign(WithValue(r.value, Money(e.text, amount.value, date.value, currency.value)));
      st := Ok;
    }

    /** `flow-type`, `finance-type`, `aid-type` and `tied-status` of a
        transaction. */
    method TransactionClassifier(e: Element, c: Classifier) returns (st: Status)
      requires Valid()
      modifies ctx
      ensures Valid() && Step(st, ctx.models) == ClassifierStep(cfg.env, old(ctx.models), e, c)
    {
      var code := Lookup(cfg.env, ClassifierList(c), Attr(e, "code"));
      var a := ctx.GetModel(Of(ActivityClass));
      if code.None? && a.None? {
        return Fail(Exception(AttributeError("Activity")));
      }
      var value := code;
      if code.None? {
        CurrentHasClass(ctx.models, Of(ActivityClass));
        value := ActivityClassifier(a.value, c);
      }
      if value.None? {
        return Fail(RequiredFieldError("code"));
      }
      var t := ctx.GetModel(Of(TransactionClass));
      if t.None? {
        return Fail(Exception(AttributeError("Transaction")));
      }
      ghost var replaced := ReplaceClassifier(ctx.models, c, value.value);
      Assign(WithTransactionClassifier(t.value, c, value.value));
      st := Ok;
    }

    method TransactionSector(e: Element) returns (st: Status)
      requires Valid()
      modifies ctx
      ensures Valid() && Step(st, ctx.models) == TransactionSectorStep(cfg.env, old(ctx.models), e)
    {
      var sector := Lookup(cfg.env, SectorList, Attr(e, "code"));
      var vocabulary := Lookup(cfg.env, SectorVocabularyList, Some(AttrOr(e, "vocabulary", "1")));
      if sector.None? {
        return Fail(RequiredFieldError("code"));
      }
      if vocabulary.None? {
        return Fail(RequiredFieldError("vocabulary"));
      }
      Register(Records.TransactionSector(sector.value, vocabulary.value, 100, true));
      st := Ok;
    }

    method TransactionCountry(e: Element) returns (st: Status)
      requires Valid()
      modifies ctx
      ensures Valid() && Step(st, ctx.models) == TransactionCountryStep(cfg.env, old(ctx.models), e)
    {
      var country := Lookup(cfg.env, CountryList, Attr(e, "code"));
      if country.None? {
        return Fail(RequiredFieldError("code"));
      }
      Register(TransactionRecipientCountry(country.value, 100, true));
      st := Ok;
    }

    method TransactionRegion(e: Element) returns (st: Status)
      requires Valid()
      modifies ctx
      ensures Valid() && Step(st, ctx.models) == TransactionRegionStep(cfg.env, old(ctx.models), e)
    {
      var region := Lookup(cfg.env, RegionList, Attr(e, "code"));
      var vocabulary := Lookup(cfg.env, RegionVocabularyList, Some(AttrOr(e, "vocabulary", "1")));
      if region.None? {
        return Fail(RequiredFieldError("code"));
      }
      if vocabulary.None? {
        return Fail(RequiredFieldError("vocabulary"));
      }
      Register(TransactionRecipientRegion(region.value, vocabulary.value, 100, true));
      st := Ok;
    }

    /** `provider-org` and `receiver-org` of a transaction. */
    method Party(e: Element, end: End) returns (st: Status)
      requires Valid()
      modifies ctx
      ensures Valid() && Step(st, ctx.models) == PartyStep(cfg.env, old(ctx.models), store.activities, e, end)
    {
      var ref := AttrOr(e, "ref", "");
      var activityRef := Attr(e, ActivityIdAttr(end));
      var link := ByIatiIdentifier(store.activities, activityRef);
      match end {
        case ProviderEnd =>
          Register(TransactionProvider(ref, cfg.env.normalize(ref), StoredOrganisation(cfg.env, ref), activityRef, link, None));
        case ReceiverEnd =>
          Register(TransactionReceiver(ref, cfg.env.normalize(ref), StoredOrganisation(cfg.env, ref), activityRef, link, None));
      }
      st := Ok;
    }

    method RelatedActivity(e: Element) returns (st: Status)
      requires Valid()
      modifies ctx
      ensures Valid() && Step(st, ctx.models) == RelatedActivityStep(cfg.env, old(ctx.models), store.activities, e)
    {
      var relationType := Lookup(cfg.env, RelatedActivityTypeList, Attr(e, "type"));
      var ref := Attr(e, "ref");
      if relationType.None? {
        return Fail(RequiredFieldError("type"));
      }
      if !Truthy(ref) {
        return Fail(RequiredFieldError("ref"));
      }
      Register(Records.RelatedActivity(ref.value, ByIatiIdentifier(store.activities, ref), relationType.value));
      st := Ok;
    }

    method Budget(e: Element) returns (st: Status)
      requires Valid()
      modifies ctx
      ensures Valid() && Step(st, ctx.models) == BudgetStep(cfg.env, old(ctx.models), e)
    {
      Register(Records.Budget(Lookup(cfg.env, BudgetTypeList, Attr(e, "type")), None));
      st := Ok;
    }

    method PlannedDisbursement(e: Element) returns (st: Status)
      requires Valid()
      modifies ctx
      ensures Valid() && Step(st, ctx.models) == PlannedDisbursementStep(cfg.env, old(ctx.models), e)
    {
      Register(Records.PlannedDisbursement(Lookup(cfg.env, BudgetTypeList, Attr(e, "type")), None));
      st := Ok;
    }

    method Result(e: Element) returns (st: Status)
      requires Valid()
      modifies ctx
      ensures Valid() && Step(st, ctx.models) == ResultStep(cfg.env, old(ctx.models), e)
    {
      var resultType := Lookup(cfg.env, ResultTypeList, Attr(e, "type"));
      if resultType.None? {
        return Fail(RequiredFieldError("result_type"));
      }
      Register(Records.Result(resultType.value, cfg.env.makeBool(Attr(e, "aggregation-status"))));
      st := Ok;
    }

    method Indicator(e: Element) returns (st: Status)
      requires Valid()
      modifies ctx
      ensures Valid() && Step(st, ctx.models) == IndicatorStep(cfg.env, old(ctx.models), e)
    {
      var measure := Lookup(cfg.env, IndicatorMeasureList, Attr(e, "measure"));
      if measure.None? {
        return Fail(RequiredFieldError("measure"));
      }
      Register(ResultIndicator(measure.value, cfg.env.makeBool(Some(AttrOr(e, "ascending", "1"))), None, None));
      st := Ok;
    }

    /** The title, description and comment holders of results, indicators
        and periods. */
    method ResultPart(p: ResultPart) returns (st: Status)
      requires Valid()
      modifies ctx
      ensures Valid() && Step(st, ctx.models) == ResultPartStep(old(ctx.models), p)
    {
      Register(PartRecord(p));
      st := Ok;
    }

    /** `baseline`: pops the current indicator, converts the year, then sets
        the baseline on the popped indicator and registers it again. */
    method Baseline(e: Element) returns (st: Status)
      requires Valid()
      modifies ctx
      ensures Valid() && Step(st, ctx.models) == BaselineStep(cfg.env, old(ctx.models), e)
    {
      var year := Attr(e, "year");
      var value := Attr(e, "value");
      if !Truthy(year) {
        return Fail(RequiredFieldError("year"));
      }
      if !Truthy(value) {
        return Fail(RequiredFieldError("value"));
      }
      st := PopBaseline(year.value, value.value);
    }

    /** The pop, conversion and update of a baseline with year and value. */
    method PopBaseline(year: string, value: string) returns (st: Status)
      requires Valid()
      modifies ctx
      ensures Valid() && Step(st, ctx.models) == BaselinePopped(cfg.env, old(ctx.models), year, value)
    {
      if ctx.GetModel(Of(ResultIndicatorClass)).Some? {
        CurrentHasClass(ctx.models, Of(ResultIndicatorClass));
      }
      var r := ctx.PopModel(Of(ResultIndicatorClass));
      var y := cfg.env.toInt(year);
      if r.None? {
        // int(year) is evaluated before the assignment on None
        if y.None? {
          return Fail(Exception(ValueError("year")));
        }
        return Fail(Exception(AttributeError("ResultIndicator")));
      }
      if y.None? {
        return Fail(Exception(ValueError("year")));
      }
      Register(r.value.(baselineYear := y, baselineValue := Some(value)));
      st := Ok;
    }

    method Period() returns (st: Status)
      requires Valid()
      modifies ctx
      ensures Valid() && Step(st, ctx.models) == PeriodStep(old(ctx.models))
    {
      Register(ResultIndicatorPeriod(None, None, None, None));
      st := Ok;
    }

    /** `period-start` (when `start`) and `period-end`. */
    method PeriodDate(e: Element, start: bool) returns (st: Status)
      requires Valid()
      modifies ctx
      ensures Valid() && Step(st, ctx.models) == PeriodDateStep(cfg.env, old(ctx.models), e, start)
    {
      var d := ValidateDate(cfg.env, Attr(e, "iso-date"));
      if d.None? {
        return Fail(RequiredFieldError("iso-date"));
      }
      if ctx.GetModel(Of(ResultIndicatorPeriodClass)).None? {
        return Fail(Exception(AttributeError("ResultIndicatorPeriod")));
      }
      CurrentHasClass(ctx.models, Of(ResultIndicatorPeriodClass));
      var p := ctx.PopModel(Of(ResultIndicatorPeriodClass));
      Register(if start then p.value.(periodStart := d) else p.value.(periodEnd := d));
      st := Ok;
    }

    /** `target` (when `target`) and `actual`. */
    method PeriodValue(e: Element, target: bool) returns (st: Status)
      requires Valid()
      modifies ctx
      ensures Valid() && Step(st, ctx.models) == PeriodValueStep(old(ctx.models), e, target)
    {
      var v := Attr(e, "value");
      if !Truthy(v) {
        return Fail(RequiredFieldError("value"));
      }
      if ctx.GetModel(Of(ResultIndicatorPeriodClass)).None? {
        return Fail(Exception(AttributeError("ResultIndicatorPeriod")));
      }
      CurrentHasClass(ctx.models, Of(ResultIndicatorPeriodClass));
      var p := ctx.PopModel(Of(ResultIndicatorPeriodClass));
      Register(if target then p.value.(target := v) else p.value.(actual := v));
      st := Ok;
    }

    /** The parser on one element at tag path `path`: the method of that
        name, or nothing for a path the parser has no method for. */
    method Handle(path: string, e: Element, now: Date) returns (st: Status)
      requires Valid()
      modifies this, ctx, store
      ensures Valid()
      ensures (st, State()) == Handle201(cfg, path, old(State()), e, now)
    {
      if path !in Table201 {
        return Ok;
      }
      st := RunHandler(Table201[path], e, now);
    }

    method RunHandler(h: Handler, e: Element, now: Date) returns (st: Status)
      requires Valid()
      modifies this, ctx, store
      ensures Valid()
      ensures (st, State()) == Run(cfg, h, old(State()), e, now)
    {
      if h.OnActivity? {
        st := IatiActivity(e, now);
      } else if IsActivityPart(h) {
        st := RunActivityPart(h, e, now);
      } else if IsTransactionPart(h) {
        st := RunTransactionPart(h, e);
      } else {
        st := RunResultPart(h, e);
      }
    }

    /** The handlers of the direct children of an activity. */
    method RunActivityPart(h: Handler, e: Element, now: Date) returns (st: Status)
      requires Valid() && IsActivityPart(h)
      modifies ctx
      ensures Valid()
      ensures Step(st, ctx.models) == ActivityChildStep(cfg.env, h, old(ctx.models), defaultLang, e, now)
    {
      match h {
        case OnIatiIdentifier => st := IatiIdentifier(e);
        case OnReportingOrg => st := ReportingOrg(e, now);
        case OnParticipatingOrg => st := ParticipatingOrg(e);
        case OnTitle => st := Title(e);
        case OnDescription => st := Description(e);
        case OnOtherIdentifier => st := OtherIdentifier(e);
        case OnOwnerOrg => st := OwnerOrg(e);
        case OnActivityDate => st := ActivityDate(e);
        case OnDefaultClassifier(c) => st := DefaultClassifier(e, c);
        case OnSector => st := Sector(e);
        case OnRecipientRegion => st := RecipientRegion(e);
        case OnRecipientCountry => st := RecipientCountry(e);
        case OnNarrative(kind) => st := NarrativeOf(e, kind);
        case OnPartyNarrative(p) => st := PartyNarrative(e, p);
      }
    }

    /** The handlers of transactions, budgets, planned disbursements and
        related activities. */
    method RunTransactionPart(h: Handler, e: Element) returns (st: Status)
      requires Valid() && IsTransactionPart(h)
      modifies ctx
      ensures Valid()
      ensures Step(st, ctx.models) == TransactionChildStep(cfg.env, h, old(ctx.models), store.activities, e)
    {
      match h {
        case OnTransaction => st := Transaction(e);
        case OnValue(v) => st := Value(e, v);
        case OnTransactionClassifier(c) => st := TransactionClassifier(e, c);
        case OnTransactionSector => st := TransactionSector(e);
        case OnTransactionCountry => st := TransactionCountry(e);
        case OnTransactionRegion => st := TransactionRegion(e);
        case OnParty(end) => st := Party(e, end);
        case OnRelatedActivity => st := RelatedActivity(e);
        case OnBudget => st := Budget(e);
        case OnPlannedDisbursement => st := PlannedDisbursement(e);
      }
    }

    /** The handlers of results, indicators and periods. */
    method RunResultPart(h: Handler, e: Element) returns (st: Status)
      requires Valid() && !h.OnActivity? && !IsActivityPart(h) && !IsTransactionPart(h)
      modifies ctx
      ensures Valid()
      ensures Step(st, ctx.models) == ResultChildStep(cfg.env, h, old(ctx.models), e)
    {
      match h {
        case OnResult => st := Result(e);
        case OnIndicator => st := Indicator(e);
        case OnResultPart(p) => st := ResultPart(p);
        case OnBaseline => st := Baseline(e);
        case OnPeriod => st := Period();
        case OnPeriodDate(start) => st := PeriodDate(e, start);
        case OnPeriodValue(target) => st := PeriodValue(e, target);
      }
    }

    /** `post_save_models`: the passes run, in order, after an activity has
        been saved; none when no activity is staged. */
    method PostSave() returns (passes: seq<PostSavePass>)
      ensures passes == PostSaveModels(ctx.models)
    {
      passes := PostSaveModels(ctx.models);
    }

    /** `delete_removed_activities`: the end-of-source sweep. */
    method DeleteRemovedActivities(sourceRef: string)
      modifies store
      ensures store.activities == Retained(old(store.activities), sourceRef, parseStart)
      ensures forall a :: a in store.activities ==> !Stale(a, sourceRef, parseStart)
      ensures forall a :: a in old(store.activities) && !Stale(a, sourceRef, parseStart) ==> a in store.activities
    {
      store.DeleteStale(sourceRef, parseStart);
    }
  }
}
