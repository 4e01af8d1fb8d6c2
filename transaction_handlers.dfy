/** The 2.01 handlers of `transaction`, `budget`, `planned-disbursement`
    and `related-activity` and of their children. */
module TransactionHandlers {
  import opened Common
  import opened Records
  import opened Staging
  import opened Store

  /** `transaction`: a new transaction with its optional `ref`. */
  function TransactionStep(m: Models, e: Element): (s: Step)
    requires Filed(m)
    ensures Filed(s.models) && s.status.Ok?
    ensures AppendedOne(m, s.models, Of(TransactionClass), Transaction(Attr(e, "ref"), None, None, None, None, None))
  {
    Step(Ok, Stage(m, Transaction(Attr(e, "ref"), None, None, None, None, None)))
  }

  /** The records that carry a monetary value. */
  datatype Valued = TransactionValued | BudgetValued | DisbursementValued

  function ValuedKind(v: Valued): Kind
  {
    match v
    case TransactionValued => Of(TransactionClass)
    case BudgetValued => Of(BudgetClass)
    case DisbursementValued => Of(PlannedDisbursementClass)
  }

  /** The monetary value of a transaction, budget or planned disbursement. */
  function ValueOf(r: Record): Option<Money>
  {
    match r
    case Transaction(_, value, _, _, _, _) => value
    case Budget(_, value) => value
    case PlannedDisbursement(_, value) => value
    case _ => None
  }

  predicate IsValued(r: Record)
  {
    r.Transaction? || r.Budget? || r.PlannedDisbursement?
  }

  /** The value fields of a transaction, budget or planned disbursement set;
      every other field kept. */
  function WithValue(r: Record, money: Money): (r': Record)
    requires IsValued(r)
    ensures ClassOf(r') == ClassOf(r) && ValueOf(r') == Some(money)
    ensures r.Transaction? ==> r' == r.(transactionValue := Some(money))
    ensures r.Budget? ==> r' == r.(budgetValue := Some(money))
    ensures r.PlannedDisbursement? ==> r' == r.(disbursementValue := Some(money))
  {
    match r
    case Transaction(_, _, _, _, _, _) => r.(transactionValue := Some(money))
    case Budget(_, _) => r.(budgetValue := Some(money))
    case PlannedDisbursement(_, _) => r.(disbursementValue := Some(money))
  }

  /** The money a `value` element denotes, when its number, date and
      currency all resolve. */
  function MoneyOf(env: Env, e: Element): Option<Money>
  {
    var amount := env.guessNumber(e.text);
    var date := ValidateDate(env, Attr(e, "value-date"));
    var currency := env.currencyOrRaise(Lookup(env, CurrencyList, Attr(e, "currency")));
    if amount.Some? && date.Some? && currency.Some? then
      Some(Money(e.text, amount.value, date.value, currency.value))
    else None
  }

  /** `value` of a transaction, budget or planned disbursement: a number is
      required first, then a valid value-date, then a currency (the
      element's, else whatever the currency helper resolves); the value is
      set on the current record. */
  function ValueStep(env: Env, m: Models, e: Element, v: Valued): (s: Step)
    requires Filed(m)
    ensures Filed(s.models)
    ensures s.status.Fail? ==> s.models == m
    ensures env.guessNumber(e.text).None? ==> s.status == Fail(RequiredFieldError("value"))
    ensures env.guessNumber(e.text).Some? && ValidateDate(env, Attr(e, "value-date")).None? ==>
              s.status == Fail(RequiredFieldError("value_date"))
    ensures env.guessNumber(e.text).Some? && ValidateDate(env, Attr(e, "value-date")).Some? &&
            env.currencyOrRaise(Lookup(env, CurrencyList, Attr(e, "currency"))).None? ==>
              s.status == Fail(CurrencyNotResolved)
    ensures s.status.Ok? <==> MoneyOf(env, e).Some? && Current(m, ValuedKind(v)).Some?
    ensures s.status.Ok? ==>
              var r := Current(m, ValuedKind(v)).value;
              IsValued(r) && ReplacedCurrent(m, s.models, ValuedKind(v), WithValue(r, MoneyOf(env, e).value))
  {
    var amount := env.guessNumber(e.text);
    var date := ValidateDate(env, Attr(e, "value-date"));
    var kind := ValuedKind(v);
    if amount.None? then Step(Fail(RequiredFieldError("value")), m)
    else if date.None? then Step(Fail(RequiredFieldError("value_date")), m)
    else if env.currencyOrRaise(Lookup(env, CurrencyList, Attr(e, "currency"))).None? then
      Step(Fail(CurrencyNotResolved), m)
    else if Current(m, kind).None? then Step(Fail(Exception(AttributeError(KindName(kind)))), m)
    else Step(Ok, ReplaceValue(m, v, MoneyOf(env, e).value))
  }

  /** The current transaction, budget or planned disbursement given a value. */
  function ReplaceValue(m: Models, v: Valued, money: Money): (m': Models)
    requires Filed(m) && Current(m, ValuedKind(v)).Some?
    ensures Filed(m')
    ensures IsValued(Current(m, ValuedKind(v)).value)
    ensures ReplacedCurrent(m, m', ValuedKind(v), WithValue(Current(m, ValuedKind(v)).value, money))
  {
    CurrentHasClass(m, ValuedKind(v));
    Replace(m, WithValue(Current(m, ValuedKind(v)).value, money))
  }

  /** The classifier of a staged transaction. */
  function TransactionClassifier(t: Record, c: Classifier): Option<string>
    requires t.Transaction?
  {
    match c
    case Flow => t.txFlowType
    case Finance => t.txFinanceType
    case Aid => t.txAidType
    case Tied => t.txTiedStatus
  }

  /** `flow-type`, `finance-type`, `aid-type` and `tied-status` of a
      transaction: a known code is used; otherwise the current activity's
      own field of that classifier (not its `default_*` field); when both
      are missing the code is required and the transaction is unchanged. */
  function ClassifierStep(env: Env, m: Models, e: Element, c: Classifier): (s: Step)
    requires Filed(m)
    ensures Filed(s.models)
    ensures s.status.Fail? ==> s.models == m
    ensures s.status.Ok? ==>
              && Current(m, Of(TransactionClass)).Some? && Current(m, Of(TransactionClass)).value.Transaction?
              && Current(s.models, Of(TransactionClass)).Some? && Current(s.models, Of(TransactionClass)).value.Transaction?
              && var t := Current(m, Of(TransactionClass)).value;
                 var t' := Current(s.models, Of(TransactionClass)).value;
                 && ReplacedCurrent(m, s.models, Of(TransactionClass), t')
                 && TransactionClassifier(t', c).Some?
                 && t' == WithTransactionClassifier(t, c, TransactionClassifier(t', c).value)
    ensures Lookup(env, ClassifierList(c), Attr(e, "code")).Some? && Current(m, Of(TransactionClass)).Some? ==>
              s.status.Ok? &&
              TransactionClassifier(Current(s.models, Of(TransactionClass)).value, c) == Attr(e, "code")
    ensures Lookup(env, ClassifierList(c), Attr(e, "code")).None? && Current(m, Of(ActivityClass)).Some? ==>
              Current(m, Of(ActivityClass)).value.Activity? &&
              (ActivityClassifier(Current(m, Of(ActivityClass)).value, c).None? ==>
                 s == Step(Fail(RequiredFieldError("code")), m)) &&
              (ActivityClassifier(Current(m, Of(ActivityClass)).value, c).Some? && Current(m, Of(TransactionClass)).Some? ==>
                 s.status.Ok? &&
                 TransactionClassifier(Current(s.models, Of(TransactionClass)).value, c) ==
                   ActivityClassifier(Current(m, Of(ActivityClass)).value, c))
  {
    var code := Lookup(env, ClassifierList(c), Attr(e, "code"));
    var a := Current(m, Of(ActivityClass));
    if code.None? && a.None? then Step(Fail(Exception(AttributeError("Activity"))), m)
    else
      var value := if code.Some? then code else (CurrentHasClass(m, Of(ActivityClass)); ActivityClassifier(a.value, c));
      if value.None? then Step(Fail(RequiredFieldError("code")), m)
      else if Current(m, Of(TransactionClass)).None? then Step(Fail(Exception(AttributeError("Transaction"))), m)
      else Step(Ok, ReplaceClassifier(m, c, value.value))
  }

  /** The current transaction given a classifier code. */
  function ReplaceClassifier(m: Models, c: Classifier, code: string): (m': Models)
    requires Filed(m) && Current(m, Of(TransactionClass)).Some?
    ensures Filed(m')
    ensures Current(m, Of(TransactionClass)).value.Transaction?
    ensures Current(m', Of(TransactionClass)) == Some(WithTransactionClassifier(Current(m, Of(TransactionClass)).value, c, code))
    ensures ReplacedCurrent(m, m', Of(TransactionClass), WithTransactionClassifier(Current(m, Of(TransactionClass)).value, c, code))
  {
    CurrentHasClass(m, Of(TransactionClass));
    Replace(m, WithTransactionClassifier(Current(m, Of(TransactionClass)).value, c, code))
  }

  /** The transaction classifier handlers never read the `default_*`
      fields: two activities that differ only there give the same outcome
      and the same transactions. */
  lemma DefaultsNotConsulted(env: Env, m: Models, e: Element, c: Classifier, c': Classifier, code: string)
    requires Filed(m) && Current(m, Of(ActivityClass)).Some?
    ensures Current(m, Of(ActivityClass)).value.Activity?
    ensures var m' := SetLast(m, Of(ActivityClass), WithDefaultClassifier(Current(m, Of(ActivityClass)).value, c', code));
            Filed(m') &&
            ClassifierStep(env, m', e, c).status == ClassifierStep(env, m, e, c).status &&
            ModelList(ClassifierStep(env, m', e, c).models, Of(TransactionClass)) ==
              ModelList(ClassifierStep(env, m, e, c).models, Of(TransactionClass))
  {
    CurrentHasClass(m, Of(ActivityClass));
    var a := Current(m, Of(ActivityClass)).value;
    var m' := SetLast(m, Of(ActivityClass), WithDefaultClassifier(a, c', code));
    FiledSetLast(m, Of(ActivityClass), WithDefaultClassifier(a, c', code));
    SameClassifierInputs(env, m, m', e, c);
  }

  /** The classifier handler depends only on the current activity's own
      classifier field and on the staged transactions. */
  lemma SameClassifierInputs(env: Env, m: Models, m': Models, e: Element, c: Classifier)
    requires Filed(m) && Filed(m')
    requires Current(m, Of(ActivityClass)).Some? && Current(m', Of(ActivityClass)).Some?
    requires Current(m, Of(ActivityClass)).value.Activity? && Current(m', Of(ActivityClass)).value.Activity?
    requires ActivityClassifier(Current(m', Of(ActivityClass)).value, c) == ActivityClassifier(Current(m, Of(ActivityClass)).value, c)
    requires ModelList(m', Of(TransactionClass)) == ModelList(m, Of(TransactionClass))
    ensures ClassifierStep(env, m', e, c).status == ClassifierStep(env, m, e, c).status
    ensures ModelList(ClassifierStep(env, m', e, c).models, Of(TransactionClass)) ==
              ModelList(ClassifierStep(env, m, e, c).models, Of(TransactionClass))
  {
    var s := ClassifierStep(env, m, e, c);
    var s' := ClassifierStep(env, m', e, c);
    if s.status.Ok? {
      assert ModelList(s.models, Of(TransactionClass)) == ModelList(m, Of(TransactionClass))[..|ModelList(m, Of(TransactionClass))| - 1] + [Current(s.models, Of(TransactionClass)).value];
    }
    if s'.status.Ok? {
      assert ModelList(s'.models, Of(TransactionClass)) == ModelList(m', Of(TransactionClass))[..|ModelList(m', Of(TransactionClass))| - 1] + [Current(s'.models, Of(TransactionClass)).value];
    }
  }

  /** `sector` of a transaction: as the activity's sector, but always 100
      percent and marked as reported on the transaction. */
  function TransactionSectorStep(env: Env, m: Models, e: Element): (s: Step)
    requires Filed(m)
    ensures Filed(s.models)
    ensures Lookup(env, SectorList, Attr(e, "code")).None? ==> s == Step(Fail(RequiredFieldError("code")), m)
    ensures Lookup(env, SectorList, Attr(e, "code")).Some? &&
            Lookup(env, SectorVocabularyList, Some(AttrOr(e, "vocabulary", "1"))).None? ==>
              s == Step(Fail(RequiredFieldError("vocabulary")), m)
    ensures s.status.Ok? <==>
              Lookup(env, SectorList, Attr(e, "code")).Some? &&
              Lookup(env, SectorVocabularyList, Some(AttrOr(e, "vocabulary", "1"))).Some?
    ensures s.status.Fail? ==> s.models == m
    ensures s.status.Ok? ==>
              AppendedOne(m, s.models, Of(TransactionSectorClass),
                          TransactionSector(e.attrib["code"], AttrOr(e, "vocabulary", "1"), 100, true))
  {
    var sector := Lookup(env, SectorList, Attr(e, "code"));
    var vocabulary := Lookup(env, SectorVocabularyList, Some(AttrOr(e, "vocabulary", "1")));
    if sector.None? then Step(Fail(RequiredFieldError("code")), m)
    else if vocabulary.None? then Step(Fail(RequiredFieldError("vocabulary")), m)
    else Step(Ok, Stage(m, TransactionSector(sector.value, vocabulary.value, 100, true)))
  }

  /** `recipient-country` of a transaction: 100 percent, reported on the
      transaction. */
  function TransactionCountryStep(env: Env, m: Models, e: Element): (s: Step)
    requires Filed(m)
    ensures Filed(s.models)
    ensures s.status.Fail? <==> Lookup(env, CountryList, Attr(e, "code")).None?
    ensures s.status.Fail? ==> s == Step(Fail(RequiredFieldError("code")), m)
    ensures s.status.Ok? ==>
              AppendedOne(m, s.models, Of(TransactionRecipientCountryClass),
                          TransactionRecipientCountry(e.attrib["code"], 100, true))
  {
    var country := Lookup(env, CountryList, Attr(e, "code"));
    if country.None? then Step(Fail(RequiredFieldError("code")), m)
    else Step(Ok, Stage(m, TransactionRecipientCountry(country.value, 100, true)))
  }

  /** `recipient-region` of a transaction: vocabulary '1' by default, 100
      percent, reported on the transaction. */
  function TransactionRegionStep(env: Env, m: Models, e: Element): (s: Step)
    requires Filed(m)
    ensures Filed(s.models)
    ensures Lookup(env, RegionList, Attr(e, "code")).None? ==> s == Step(Fail(RequiredFieldError("code")), m)
    ensures Lookup(env, RegionList, Attr(e, "code")).Some? &&
            Lookup(env, RegionVocabularyList, Some(AttrOr(e, "vocabulary", "1"))).None? ==>
              s == Step(Fail(RequiredFieldError("vocabulary")), m)
    ensures s.status.Ok? <==>
              Lookup(env, RegionList, Attr(e, "code")).Some? &&
              Lookup(env, RegionVocabularyList, Some(AttrOr(e, "vocabulary", "1"))).Some?
    ensures s.status.Fail? ==> s.models == m
    ensures s.status.Ok? ==>
              AppendedOne(m, s.models, Of(TransactionRecipientRegionClass),
                          TransactionRecipientRegion(e.attrib["code"], AttrOr(e, "vocabulary", "1"), 100, true))
  {
    var region := Lookup(env, RegionList, Attr(e, "code"));
    var vocabulary := Lookup(env, RegionVocabularyList, Some(AttrOr(e, "vocabulary", "1")));
    if region.None? then Step(Fail(RequiredFieldError("code")), m)
    else if vocabulary.None? then Step(Fail(RequiredFieldError("vocabulary")), m)
    else Step(Ok, Stage(m, TransactionRecipientRegion(region.value, vocabulary.value, 100, true)))
  }

  /** The two ends of a transaction. */
  datatype End = ProviderEnd | ReceiverEnd

  function ActivityIdAttr(end: End): string
  {
    match end
    case ProviderEnd => "provider-activity-id"
    case ReceiverEnd => "receiver-activity-id"
  }

  /** `provider-org` and `receiver-org`: never rejected. The reference
      defaults to the empty string; the organisation and the activity it
      names are linked when already stored, and the activity reference is
      kept as text either way, so that it can be resolved later. */
  function PartyStep(env: Env, m: Models, acts: seq<StoredActivity>, e: Element, end: End): (s: Step)
    requires Filed(m)
    ensures Filed(s.models) && s.status.Ok?
    ensures var ref := AttrOr(e, "ref", "");
            var activityRef := Attr(e, ActivityIdAttr(end));
            var link := ByIatiIdentifier(acts, activityRef);
            match end
            case ProviderEnd =>
              AppendedOne(m, s.models, Of(TransactionProviderClass),
                          TransactionProvider(ref, env.normalize(ref), StoredOrganisation(env, ref), activityRef, link, None))
            case ReceiverEnd =>
              AppendedOne(m, s.models, Of(TransactionReceiverClass),
                          TransactionReceiver(ref, env.normalize(ref), StoredOrganisation(env, ref), activityRef, link, None))
  {
    var ref := AttrOr(e, "ref", "");
    var activityRef := Attr(e, ActivityIdAttr(end));
    var link := ByIatiIdentifier(acts, activityRef);
    match end
    case ProviderEnd =>
      Step(Ok, Stage(m, TransactionProvider(ref, env.normalize(ref), StoredOrganisation(env, ref), activityRef, link, None)))
    case ReceiverEnd =>
      Step(Ok, Stage(m, TransactionReceiver(ref, env.normalize(ref), StoredOrganisation(env, ref), activityRef, link, None)))
  }

  /** `related-activity`: type then ref are required; the reference is kept
      as text and linked only when an activity with that IATI identifier
      is already stored. */
  function RelatedActivityStep(env: Env, m: Models, acts: seq<StoredActivity>, e: Element): (s: Step)
    requires Filed(m)
    ensures Filed(s.models)
    ensures Lookup(env, RelatedActivityTypeList, Attr(e, "type")).None? ==>
              s == Step(Fail(RequiredFieldError("type")), m)
    ensures Lookup(env, RelatedActivityTypeList, Attr(e, "type")).Some? && !Truthy(Attr(e, "ref")) ==>
              s == Step(Fail(RequiredFieldError("ref")), m)
    ensures s.status.Ok? <==>
              Lookup(env, RelatedActivityTypeList, Attr(e, "type")).Some? && Truthy(Attr(e, "ref"))
    ensures s.status.Fail? ==> s.models == m
    ensures s.status.Ok? ==>
              var ref := e.attrib["ref"];
              AppendedOne(m, s.models, Of(RelatedActivityClass),
                          RelatedActivity(ref, ByIatiIdentifier(acts, Some(ref)), e.attrib["type"]))
    ensures s.status.Ok? ==>
              var link := ByIatiIdentifier(acts, Attr(e, "ref"));
              link.None? <==> forall a :: a in acts ==> a.iatiIdentifier != Attr(e, "ref")
  {
    var relationType := Lookup(env, RelatedActivityTypeList, Attr(e, "type"));
    var ref := Attr(e, "ref");
    if relationType.None? then Step(Fail(RequiredFieldError("type")), m)
    else if !Truthy(ref) then Step(Fail(RequiredFieldError("ref")), m)
    else
      var related := RelatedActivity(ref.value, ByIatiIdentifier(acts, ref), relationType.value);
      Step(Ok, Stage(m, related))
  }

  /** `budget`: staged with its type, which may be unknown. */
  function BudgetStep(env: Env, m: Models, e: Element): (s: Step)
    requires Filed(m)
    ensures Filed(s.models) && s.status.Ok?
    ensures AppendedOne(m, s.models, Of(BudgetClass), Budget(Lookup(env, BudgetTypeList, Attr(e, "type")), None))
  {
    Step(Ok, Stage(m, Budget(Lookup(env, BudgetTypeList, Attr(e, "type")), None)))
  }

  /** `planned-disbursement`: staged with its type, which may be unknown. */
  function PlannedDisbursementStep(env: Env, m: Models, e: Element): (s: Step)
    requires Filed(m)
    ensures Filed(s.models) && s.status.Ok?
    ensures AppendedOne(m, s.models, Of(PlannedDisbursementClass),
                        PlannedDisbursement(Lookup(env, BudgetTypeList, Attr(e, "type")), None))
  {
    Step(Ok, Stage(m, PlannedDisbursement(Lookup(env, BudgetTypeList, Attr(e, "type")), None)))
  }
}
