/** The records a parse stages for one activity: one constructor per Django
    model the 2.01 handlers create. Links to other staged records are not
    kept (they are object references in the source); a narrative keeps the
    class name and position of its parent. */
module Records {
  import opened Common

  /** A monetary value as the value handlers stage it. */
  datatype Money = Money(valueString: string, amount: real, valueDate: Date, currency: string)

  /** The activity fields that an activity date is copied onto. */
  datatype DateField = PlannedStart | ActualStart | PlannedEnd | ActualEnd

  /** The four transaction classifiers. */
  datatype Classifier = Flow | Finance | Aid | Tied

  datatype Record =
    | Activity(
        id: string, iatiIdentifier: Option<string>, defaultLang: string,
        hierarchy: Option<string>, xmlSourceRef: string,
        lastUpdatedDatetime: Option<Date>, linkedDataUri: Option<string>,
        defaultCurrency: Option<string>, standardVersion: string,
        plannedStart: Option<Date>, actualStart: Option<Date>,
        plannedEnd: Option<Date>, actualEnd: Option<Date>,
        // read by the transaction classifier fallback
        flowType: Option<string>, financeType: Option<string>,
        aidType: Option<string>, tiedStatus: Option<string>,
        // written by the default-* handlers
        defaultFlowType: Option<string>, defaultFinanceType: Option<string>,
        defaultAidType: Option<string>, defaultTiedStatus: Option<string>)
    | Title
    | Description(descriptionType: Option<string>)
    | Narrative(language: string, content: string, parentClass: Class, parentIndex: nat)
    | ActivityDate(isoDate: Date, dateType: string)
    | Organisation(
        orgId: string, organisationIdentifier: string, orgLastUpdated: Date,
        orgVersion: string, reportedInIati: bool, primaryName: Option<string>)
    | OrganisationName
    | ActivityReportingOrganisation(
        ref: string, normalizedRef: string, orgType: Option<string>,
        organisation: string, secondaryReporter: bool)
    | ActivityParticipatingOrganisation(
        ref: string, normalizedRef: string, orgType: Option<string>,
        linkedOrganisation: Option<string>, role: string, participantName: Option<string>)
    | OtherIdentifier(identifier: string, identifierType: Option<string>, ownerRef: Option<string>)
    | ActivitySector(sector: string, vocabulary: string, percentageText: Option<string>)
    | ActivityRecipientRegion(region: string, vocabulary: string, percentageText: Option<string>)
    | ActivityRecipientCountry(country: string, percentageText: Option<string>)
    | Transaction(
        transactionRef: Option<string>, transactionValue: Option<Money>,
        txFlowType: Option<string>, txFinanceType: Option<string>,
        txAidType: Option<string>, txTiedStatus: Option<string>)
    | TransactionSector(sector: string, vocabulary: string, percentage: int, reportedOnTransaction: bool)
    | TransactionRecipientCountry(country: string, percentage: int, reportedOnTransaction: bool)
    | TransactionRecipientRegion(region: string, vocabulary: string, percentage: int, reportedOnTransaction: bool)
    | TransactionProvider(
        ref: string, normalizedRef: string, linkedOrganisation: Option<string>,
        activityRef: Option<string>, linkedActivity: Option<string>, providerName: Option<string>)
    | TransactionReceiver(
        ref: string, normalizedRef: string, linkedOrganisation: Option<string>,
        activityRef: Option<string>, linkedActivity: Option<string>, receiverName: Option<string>)
    | RelatedActivity(ref: string, linkedActivity: Option<string>, relationType: string)
    | Budget(budgetType: Option<string>, budgetValue: Option<Money>)
    | PlannedDisbursement(disbursementType: Option<string>, disbursementValue: Option<Money>)
    | Result(resultType: string, aggregationStatus: bool)
    | ResultIndicator(measure: string, ascending: bool, baselineYear: Option<int>, baselineValue: Option<string>)
    | ResultIndicatorPeriod(periodStart: Option<Date>, periodEnd: Option<Date>, target: Option<string>, actual: Option<string>)
    // the holders of the narratives of results, indicators and periods
    | ResultTitle
    | ResultDescription
    | ResultIndicatorTitle
    | ResultIndicatorDescription
    | ResultIndicatorBaselineComment
    | ResultIndicatorPeriodTargetComment
    | ResultIndicatorPeriodActualComment

  /** The Django model classes of the staged records. */
  datatype Class =
    | ActivityClass
    | TitleClass
    | DescriptionClass
    | NarrativeClass
    | ActivityDateClass
    | OrganisationClass
    | OrganisationNameClass
    | ActivityReportingOrganisationClass
    | ActivityParticipatingOrganisationClass
    | OtherIdentifierClass
    | ActivitySectorClass
    | ActivityRecipientRegionClass
    | ActivityRecipientCountryClass
    | TransactionClass
    | TransactionSectorClass
    | TransactionRecipientCountryClass
    | TransactionRecipientRegionClass
    | TransactionProviderClass
    | TransactionReceiverClass
    | RelatedActivityClass
    | BudgetClass
    | PlannedDisbursementClass
    | ResultClass
    | ResultIndicatorClass
    | ResultIndicatorPeriodClass
    | ResultTitleClass
    | ResultDescriptionClass
    | ResultIndicatorTitleClass
    | ResultIndicatorDescriptionClass
    | ResultIndicatorBaselineCommentClass
    | ResultIndicatorPeriodTargetCommentClass
    | ResultIndicatorPeriodActualCommentClass

  /** The class of a record (`obj.__class__`). */
  function ClassOf(r: Record): Class
  {
    match r
    case Activity(_, _, _, _, _, _, _, _, _, _, _, _, _, _, _, _, _, _, _, _, _) => ActivityClass
    case Title => TitleClass
    case Description(_) => DescriptionClass
    case Narrative(_, _, _, _) => NarrativeClass
    case ActivityDate(_, _) => ActivityDateClass
    case Organisation(_, _, _, _, _, _) => OrganisationClass
    case OrganisationName => OrganisationNameClass
    case ActivityReportingOrganisation(_, _, _, _, _) => ActivityReportingOrganisationClass
    case ActivityParticipatingOrganisation(_, _, _, _, _, _) => ActivityParticipatingOrganisationClass
    case OtherIdentifier(_, _, _) => OtherIdentifierClass
    case ActivitySector(_, _, _) => ActivitySectorClass
    case ActivityRecipientRegion(_, _, _) => ActivityRecipientRegionClass
    case ActivityRecipientCountry(_, _) => ActivityRecipientCountryClass
    case Transaction(_, _, _, _, _, _) => TransactionClass
    case TransactionSector(_, _, _, _) => TransactionSectorClass
    case TransactionRecipientCountry(_, _, _) => TransactionRecipientCountryClass
    case TransactionRecipientRegion(_, _, _, _) => TransactionRecipientRegionClass
    case TransactionProvider(_, _, _, _, _, _) => TransactionProviderClass
    case TransactionReceiver(_, _, _, _, _, _) => TransactionReceiverClass
    case RelatedActivity(_, _, _) => RelatedActivityClass
    case Budget(_, _) => BudgetClass
    case PlannedDisbursement(_, _) => PlannedDisbursementClass
    case Result(_, _) => ResultClass
    case ResultIndicator(_, _, _, _) => ResultIndicatorClass
    case ResultIndicatorPeriod(_, _, _, _) => ResultIndicatorPeriodClass
    case ResultTitle => ResultTitleClass
    case ResultDescription => ResultDescriptionClass
    case ResultIndicatorTitle => ResultIndicatorTitleClass
    case ResultIndicatorDescription => ResultIndicatorDescriptionClass
    case ResultIndicatorBaselineComment => ResultIndicatorBaselineCommentClass
    case ResultIndicatorPeriodTargetComment => ResultIndicatorPeriodTargetCommentClass
    case ResultIndicatorPeriodActualComment => ResultIndicatorPeriodActualCommentClass
  }

  /** The Python name of a class (`__name__`). */
  function ClassName(c: Class): string
  {
    match c
    case ActivityClass => "Activity"
    case TitleClass => "Title"
    case DescriptionClass => "Description"
    case NarrativeClass => "Narrative"
    case ActivityDateClass => "ActivityDate"
    case OrganisationClass => "Organisation"
    case OrganisationNameClass => "OrganisationName"
    case ActivityReportingOrganisationClass => "ActivityReportingOrganisation"
    case ActivityParticipatingOrganisationClass => "ActivityParticipatingOrganisation"
    case OtherIdentifierClass => "OtherIdentifier"
    case ActivitySectorClass => "ActivitySector"
    case ActivityRecipientRegionClass => "ActivityRecipientRegion"
    case ActivityRecipientCountryClass => "ActivityRecipientCountry"
    case TransactionClass => "Transaction"
    case TransactionSectorClass => "TransactionSector"
    case TransactionRecipientCountryClass => "TransactionRecipientCountry"
    case TransactionRecipientRegionClass => "TransactionRecipientRegion"
    case TransactionProviderClass => "TransactionProvider"
    case TransactionReceiverClass => "TransactionReceiver"
    case RelatedActivityClass => "RelatedActivity"
    case BudgetClass => "Budget"
    case PlannedDisbursementClass => "PlannedDisbursement"
    case ResultClass => "Result"
    case ResultIndicatorClass => "ResultIndicator"
    case ResultIndicatorPeriodClass => "ResultIndicatorPeriod"
    case ResultTitleClass => "ResultTitle"
    case ResultDescriptionClass => "ResultDescription"
    case ResultIndicatorTitleClass => "ResultIndicatorTitle"
    case ResultIndicatorDescriptionClass => "ResultIndicatorDescription"
    case ResultIndicatorBaselineCommentClass => "ResultIndicatorBaselineComment"
    case ResultIndicatorPeriodTargetCommentClass => "ResultIndicatorPeriodTargetComment"
    case ResultIndicatorPeriodActualCommentClass => "ResultIndicatorPeriodActualComment"
  }

  /** The type names records are registered under: a class name, or the
      name of a parent class followed by "Narrative". */
  datatype Kind = Of(cls: Class) | NarrativesOf(parent: Class)

  /** The type name as a string. */
  function KindName(k: Kind): string
  {
    match k
    case Of(c) => ClassName(c)
    case NarrativesOf(c) => ClassName(c) + "Narrative"
  }

  /** The type name a handler registers a record under: its class name,
      except that a narrative goes under its parent's class name followed
      by "Narrative". */
  function RegisterName(r: Record): Kind
  {
    if r.Narrative? then NarrativesOf(r.parentClass) else Of(ClassOf(r))
  }

  /** `setattr(activity, field, date)`: one date field replaced, every other
      field kept. */
  function WithDate(a: Record, f: DateField, d: Date): (r: Record)
    requires a.Activity?
    ensures r.Activity?
    ensures r.plannedStart == (if f == PlannedStart then Some(d) else a.plannedStart)
    ensures r.actualStart == (if f == ActualStart then Some(d) else a.actualStart)
    ensures r.plannedEnd == (if f == PlannedEnd then Some(d) else a.plannedEnd)
    ensures r.actualEnd == (if f == ActualEnd then Some(d) else a.actualEnd)
    ensures r.(plannedStart := a.plannedStart, actualStart := a.actualStart,
               plannedEnd := a.plannedEnd, actualEnd := a.actualEnd) == a
  {
    match f
    case PlannedStart => a.(plannedStart := Some(d))
    case ActualStart => a.(actualStart := Some(d))
    case PlannedEnd => a.(plannedEnd := Some(d))
    case ActualEnd => a.(actualEnd := Some(d))
  }

  /** The activity field the transaction handler for classifier `c` falls
      back on: `flow_type`, `finance_type`, `aid_type`, `tied_status`, not
      the `default_*` fields. */
  function ActivityClassifier(a: Record, c: Classifier): Option<string>
    requires a.Activity?
  {
    match c
    case Flow => a.flowType
    case Finance => a.financeType
    case Aid => a.aidType
    case Tied => a.tiedStatus
  }

  /** The `default_*` field of the activity that the default handler for
      classifier `c` writes. */
  function WithDefaultClassifier(a: Record, c: Classifier, code: string): (r: Record)
    requires a.Activity?
    ensures r.Activity?
    ensures r.defaultFlowType == (if c == Flow then Some(code) else a.defaultFlowType)
    ensures r.defaultFinanceType == (if c == Finance then Some(code) else a.defaultFinanceType)
    ensures r.defaultAidType == (if c == Aid then Some(code) else a.defaultAidType)
    ensures r.defaultTiedStatus == (if c == Tied then Some(code) else a.defaultTiedStatus)
    ensures r.(defaultFlowType := a.defaultFlowType, defaultFinanceType := a.defaultFinanceType,
               defaultAidType := a.defaultAidType, defaultTiedStatus := a.defaultTiedStatus) == a
  {
    match c
    case Flow => a.(defaultFlowType := Some(code))
    case Finance => a.(defaultFinanceType := Some(code))
    case Aid => a.(defaultAidType := Some(code))
    case Tied => a.(defaultTiedStatus := Some(code))
  }

  /** `transaction.<classifier> = code` on a staged transaction. */
  function WithTransactionClassifier(t: Record, c: Classifier, code: string): (r: Record)
    requires t.Transaction?
    ensures r.Transaction? && r.transactionRef == t.transactionRef && r.transactionValue == t.transactionValue
    ensures r.txFlowType == (if c == Flow then Some(code) else t.txFlowType)
    ensures r.txFinanceType == (if c == Finance then Some(code) else t.txFinanceType)
    ensures r.txAidType == (if c == Aid then Some(code) else t.txAidType)
    ensures r.txTiedStatus == (if c == Tied then Some(code) else t.txTiedStatus)
  {
    match c
    case Flow => t.(txFlowType := Some(code))
    case Finance => t.(txFinanceType := Some(code))
    case Aid => t.(txAidType := Some(code))
    case Tied => t.(txTiedStatus := Some(code))
  }

  /** The codelist each classifier code is looked up in. */
  function ClassifierList(c: Classifier): Codelist
  {
    match c
    case Flow => FlowTypeList
    case Finance => FinanceTypeList
    case Aid => AidTypeList
    case Tied => TiedStatusList
  }
}
