/** The 2.01 handler table: which handler the parser calls for each tag
    path (the handler's method name, the path with `__` between the tags
    and `_` for `-`), and what each handler does to the parser's state. */
module Dispatch {
  import opened Common
  import opened Records
  import opened Staging
  import opened Store
  import opened Narratives
  import opened ActivityHandlers
  import opened TransactionHandlers
  import opened ResultHandlers
  import opened ActivityRoot

  datatype Handler =
    | OnActivity
    | OnIatiIdentifier
    | OnReportingOrg
    | OnParticipatingOrg
    | OnTitle
    | OnDescription
    | OnOtherIdentifier
    | OnOwnerOrg
    | OnActivityDate
    | OnDefaultClassifier(classifier: Classifier)
    | OnSector
    | OnRecipientRegion
    | OnRecipientCountry
    | OnNarrative(parentKind: Kind)         // add_narrative on the current record of this type
    | OnPartyNarrative(party: NamedParty)   // ... and the party's primary name updated
    | OnTransaction
    | OnValue(valued: Valued)
    | OnTransactionClassifier(txClassifier: Classifier)
    | OnTransactionSector
    | OnTransactionCountry
    | OnTransactionRegion
    | OnParty(end: End)
    | OnRelatedActivity
    | OnBudget
    | OnPlannedDisbursement
    | OnResult
    | OnIndicator
    | OnResultPart(part: ResultPart)
    | OnBaseline
    | OnPeriod
    | OnPeriodDate(start: bool)
    | OnPeriodValue(target: bool)

  /** The handlers of the direct children of an activity. */
  predicate IsActivityPart(h: Handler)
  {
    || h.OnIatiIdentifier? || h.OnReportingOrg? || h.OnParticipatingOrg? || h.OnTitle?
    || h.OnDescription? || h.OnOtherIdentifier? || h.OnOwnerOrg? || h.OnActivityDate?
    || h.OnDefaultClassifier? || h.OnSector? || h.OnRecipientRegion? || h.OnRecipientCountry?
    || h.OnNarrative? || h.OnPartyNarrative?
  }

  /** The handlers of transactions, budgets, planned disbursements and
      related activities. */
  predicate IsTransactionPart(h: Handler)
  {
    || h.OnTransaction? || h.OnValue? || h.OnTransactionClassifier? || h.OnTransactionSector?
    || h.OnTransactionCountry? || h.OnTransactionRegion? || h.OnParty? || h.OnRelatedActivity?
    || h.OnBudget? || h.OnPlannedDisbursement?
  }

  const Table201: map<string, Handler> := map[
    "iati_activities__iati_activity" := OnActivity,
    "iati_activities__iati_activity__iati_identifier" := OnIatiIdentifier,
    "iati_activities__iati_activity__reporting_org" := OnReportingOrg,
    "iati_activities__iati_activity__reporting_org__narrative" := OnNarrative(Of(ActivityReportingOrganisationClass)),
    "iati_activities__iati_activity__participating_org" := OnParticipatingOrg,
    "iati_activities__iati_activity__participating_org__narrative" := OnPartyNarrative(Participant),
    "iati_activities__iati_activity__title" := OnTitle,
    "iati_activities__iati_activity__title__narrative" := OnNarrative(Of(TitleClass)),
    "iati_activities__iati_activity__description" := OnDescription,
    "iati_activities__iati_activity__description__narrative" := OnNarrative(Of(DescriptionClass)),
    "iati_activities__iati_activity__other_identifier" := OnOtherIdentifier,
    "iati_activities__iati_activity__other_identifier__owner_org" := OnOwnerOrg,
    "iati_activities__iati_activity__other_identifier__owner_org__narrative" := OnNarrative(Of(OtherIdentifierClass)),
    "iati_activities__iati_activity__activity_date" := OnActivityDate,
    "iati_activities__iati_activity__activity_date__narrative" := OnNarrative(Of(ActivityDateClass)),
    "iati_activities__iati_activity__recipient_country" := OnRecipientCountry,
    "iati_activities__iati_activity__recipient_region" := OnRecipientRegion,
    "iati_activities__iati_activity__sector" := OnSector,
    "iati_activities__iati_activity__default_flow_type" := OnDefaultClassifier(Flow),
    "iati_activities__iati_activity__default_finance_type" := OnDefaultClassifier(Finance),
    "iati_activities__iati_activity__default_aid_type" := OnDefaultClassifier(Aid),
    "iati_activities__iati_activity__default_tied_status" := OnDefaultClassifier(Tied),
    "iati_activities__iati_activity__budget" := OnBudget,
    "iati_activities__iati_activity__budget__value" := OnValue(BudgetValued),
    "iati_activities__iati_activity__planned_disbursement" := OnPlannedDisbursement,
    "iati_activities__iati_activity__planned_disbursement__value" := OnValue(DisbursementValued),
    "iati_activities__iati_activity__transaction" := OnTransaction,
    "iati_activities__iati_activity__transaction__value" := OnValue(TransactionValued),
    "iati_activities__iati_activity__transaction__provider_org" := OnParty(ProviderEnd),
    "iati_activities__iati_activity__transaction__provider_org__narrative" := OnPartyNarrative(Provider),
    "iati_activities__iati_activity__transaction__receiver_org" := OnParty(ReceiverEnd),
    "iati_activities__iati_activity__transaction__receiver_org__narrative" := OnPartyNarrative(Receiver),
    "iati_activities__iati_activity__transaction__sector" := OnTransactionSector,
    "iati_activities__iati_activity__transaction__recipient_country" := OnTransactionCountry,
    "iati_activities__iati_activity__transaction__recipient_region" := OnTransactionRegion,
    "iati_activities__iati_activity__transaction__flow_type" := OnTransactionClassifier(Flow),
    "iati_activities__iati_activity__transaction__finance_type" := OnTransactionClassifier(Finance),
    "iati_activities__iati_activity__transaction__aid_type" := OnTransactionClassifier(Aid),
    "iati_activities__iati_activity__transaction__tied_status" := OnTransactionClassifier(Tied),
    "iati_activities__iati_activity__related_activity" := OnRelatedActivity,
    "iati_activities__iati_activity__result" := OnResult,
    "iati_activities__iati_activity__result__title" := OnResultPart(ResultTitlePart),
    "iati_activities__iati_activity__result__title__narrative" := OnNarrative(Of(ResultTitleClass)),
    "iati_activities__iati_activity__result__description" := OnResultPart(ResultDescriptionPart),
    "iati_activities__iati_activity__result__description__narrative" := OnNarrative(Of(ResultDescriptionClass)),
    "iati_activities__iati_activity__result__indicator" := OnIndicator,
    "iati_activities__iati_activity__result__indicator__title" := OnResultPart(IndicatorTitlePart),
    "iati_activities__iati_activity__result__indicator__title__narrative" := OnNarrative(Of(ResultIndicatorTitleClass)),
    "iati_activities__iati_activity__result__indicator__description" := OnResultPart(IndicatorDescriptionPart),
    "iati_activities__iati_activity__result__indicator__description__narrative" := OnNarrative(Of(ResultIndicatorDescriptionClass)),
    "iati_activities__iati_activity__result__indicator__baseline" := OnBaseline,
    "iati_activities__iati_activity__result__indicator__baseline__comment" := OnResultPart(BaselineCommentPart),
    "iati_activities__iati_activity__result__indicator__baseline__comment__narrative" := OnNarrative(Of(ResultIndicatorBaselineCommentClass)),
    "iati_activities__iati_activity__result__indicator__period" := OnPeriod,
    "iati_activities__iati_activity__result__indicator__period__period_start" := OnPeriodDate(true),
    "iati_activities__iati_activity__result__indicator__period__period_end" := OnPeriodDate(false),
    "iati_activities__iati_activity__result__indicator__period__target" := OnPeriodValue(true),
    "iati_activities__iati_activity__result__indicator__period__target__comment" := OnResultPart(TargetCommentPart),
    "iati_activities__iati_activity__result__indicator__period__target__comment__narrative" := OnNarrative(Of(ResultIndicatorPeriodTargetCommentClass)),
    "iati_activities__iati_activity__result__indicator__period__actual" := OnPeriodValue(false),
    "iati_activities__iati_activity__result__indicator__period__actual__comment" := OnResultPart(ActualCommentPart),
    "iati_activities__iati_activity__result__indicator__period__actual__comment__narrative" := OnNarrative(Of(ResultIndicatorPeriodActualCommentClass))
  ]

  /** A handler that only changes the staged records. */
  function Staged(st: State, s: Step): (Status, State)
  {
    (s.status, st.(models := s.models))
  }

  /** What handler `h` does with element `e` to the parser's state. Only
      the `iati-activity` handler touches the stored activities and the
      default language. */
  function Run(cfg: Config, h: Handler, st: State, e: Element, now: Date): (r: (Status, State))
    requires Filed(st.models)
    ensures Filed(r.1.models)
    ensures !h.OnActivity? ==> r.1.activities == st.activities && r.1.defaultLang == st.defaultLang
  {
    if h.OnActivity? then ActivityStep(cfg, st, e, now)
    else if IsActivityPart(h) then Staged(st, ActivityChildStep(cfg.env, h, st.models, st.defaultLang, e, now))
    else if IsTransactionPart(h) then Staged(st, TransactionChildStep(cfg.env, h, st.models, st.activities, e))
    else Staged(st, ResultChildStep(cfg.env, h, st.models, e))
  }

  function ActivityChildStep(env: Env, h: Handler, m: Models, dl: Option<string>, e: Element, now: Date): (s: Step)
    requires Filed(m) && IsActivityPart(h)
    ensures Filed(s.models)
  {
    match h
    case OnIatiIdentifier => IatiIdentifierStep(m, e)
    case OnReportingOrg => ReportingOrgStep(env, m, dl, e, now)
    case OnParticipatingOrg => ParticipatingOrgStep(env, m, e)
    case OnTitle => TitleStep(m)
    case OnDescription => DescriptionStep(env, m, e)
    case OnOtherIdentifier => OtherIdentifierStep(env, m, e)
    case OnOwnerOrg => OwnerOrgStep(m, e)
    case OnActivityDate => ActivityDateStep(env, m, e)
    case OnDefaultClassifier(c) => DefaultClassifierStep(env, m, e, c)
    case OnSector => SectorStep(env, m, e)
    case OnRecipientRegion => RecipientRegionStep(env, m, e)
    case OnRecipientCountry => RecipientCountryStep(env, m, e)
    case OnNarrative(kind) => NarrativeStep(env, m, dl, e, kind)
    case OnPartyNarrative(p) => PartyNarrativeStep(env, m, dl, e, p)
  }

  function TransactionChildStep(env: Env, h: Handler, m: Models, acts: seq<StoredActivity>, e: Element): (s: Step)
    requires Filed(m) && IsTransactionPart(h)
    ensures Filed(s.models)
  {
    match h
    case OnTransaction => TransactionStep(m, e)
    case OnValue(v) => ValueStep(env, m, e, v)
    case OnTransactionClassifier(c) => ClassifierStep(env, m, e, c)
    case OnTransactionSector => TransactionSectorStep(env, m, e)
    case OnTransactionCountry => TransactionCountryStep(env, m, e)
    case OnTransactionRegion => TransactionRegionStep(env, m, e)
    case OnParty(end) => PartyStep(env, m, acts, e, end)
    case OnRelatedActivity => RelatedActivityStep(env, m, acts, e)
    case OnBudget => BudgetStep(env, m, e)
    case OnPlannedDisbursement => PlannedDisbursementStep(env, m, e)
  }

  function ResultChildStep(env: Env, h: Handler, m: Models, e: Element): (s: Step)
    requires Filed(m) && !h.OnActivity? && !IsActivityPart(h) && !IsTransactionPart(h)
    ensures Filed(s.models)
  {
    match h
    case OnResult => ResultStep(env, m, e)
    case OnIndicator => IndicatorStep(env, m, e)
    case OnResultPart(p) => ResultHandlers.ResultPartStep(m, p)
    case OnBaseline => BaselineStep(env, m, e)
    case OnPeriod => PeriodStep(m)
    case OnPeriodDate(start) => PeriodDateStep(env, m, e, start)
    case OnPeriodValue(target) => PeriodValueStep(m, e, target)
  }

  /** The 2.01 parser on one element at tag path `path`: the handler of
      that path, or nothing at all for a path without one. */
  function Handle201(cfg: Config, path: string, st: State, e: Element, now: Date): (r: (Status, State))
    requires Filed(st.models)
    ensures Filed(r.1.models)
    ensures path !in Table201 ==> r == (Ok, st)
    ensures path in Table201 && !Table201[path].OnActivity? ==>
              r.1.activities == st.activities && r.1.defaultLang == st.defaultLang
  {
    if path in Table201 then Run(cfg, Table201[path], st, e, now) else (Ok, st)
  }
}
