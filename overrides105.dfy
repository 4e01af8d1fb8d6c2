/** The handlers the 1.05 parser overrides. Each runs its own guards,
    translates 1.05 vocabulary into 2.01 codes by rewriting the element's
    attributes, and then delegates to the 2.01 handler. Most of them go on
    to `add_narrative_105`, whose first use of `element` (not defined there)
    raises a `NameError`, or read a misspelled local name: those overrides
    end in that error once their guards pass. */
module Overrides105 {
  import opened Common
  import opened Records
  import opened Staging
  import opened ActivityHandlers
  import opened ActivityRoot
  import opened Dispatch
  import opened Tables105

  datatype Override =
    | DateOverride          // activity-date: type name translated, then narrative
    | ParticipantOverride   // participating-org: role name translated
    | ReporterOverride      // reporting-org: base handler, then a misspelled name
    | OtherIdentifierOverride
    | TitleOverride
    | DescriptionOverride
    | ParentModelOverride   // starts with `get_func_parent_model`, not part of this model
    | BaselineCommentOverride  // the same, then a model class spelled differently from its definition

  /** The 1.05 overrides of tag paths the 2.01 table handles. */
  const OverrideTable: map<string, Override> := map[
    "iati_activities__iati_activity__reporting_org" := ReporterOverride,
    "iati_activities__iati_activity__participating_org" := ParticipantOverride,
    "iati_activities__iati_activity__other_identifier" := OtherIdentifierOverride,
    "iati_activities__iati_activity__title" := TitleOverride,
    "iati_activities__iati_activity__description" := DescriptionOverride,
    "iati_activities__iati_activity__activity_date" := DateOverride,
    "iati_activities__iati_activity__transaction__provider_org" := ParentModelOverride,
    "iati_activities__iati_activity__transaction__receiver_org" := ParentModelOverride,
    "iati_activities__iati_activity__result__title" := ParentModelOverride,
    "iati_activities__iati_activity__result__description" := ParentModelOverride,
    "iati_activities__iati_activity__result__indicator__title" := ParentModelOverride,
    "iati_activities__iati_activity__result__indicator__description" := ParentModelOverride,
    "iati_activities__iati_activity__result__indicator__baseline__comment" := BaselineCommentOverride,
    "iati_activities__iati_activity__result__indicator__period__target__comment" := ParentModelOverride,
    "iati_activities__iati_activity__result__indicator__period__actual__comment" := ParentModelOverride
  ]

  /** The raise of `add_narrative_105` at its first use of `element`. */
  const UndefinedElement := Fail(Exception(NameError("element")))

  /** The raise of the baseline-comment override: the models module defines
      `ResultIndicatorBaselineComment`, and the override asks it for
      `ResultIndicatorBaseLineComment`. */
  const MisspelledBaselineComment := Fail(Exception(AttributeError("ResultIndicatorBaseLineComment")))

  /** The element with one attribute set (`element.attrib[key] = value`). */
  function WithAttr(e: Element, key: string, value: string): (e': Element)
    ensures Attr(e', key) == Some(value)
    ensures forall k :: k != key ==> Attr(e', k) == Attr(e, k)
    ensures e'.text == e.text && e'.children == e.children
  {
    e.(attrib := e.attrib[key := value])
  }

  /** `activity-date` in 1.05: the type name is translated before anything
      else, so an unknown name is rejected before the date is read; the 2.01
      handler then runs on the rewritten element, and the element's own text
      becomes a narrative of the staged date. */
  function ActivityDateStep105(env: Env, m: Models, defaultLang: Option<string>, e: Element): (s: Step)
    requires Filed(m)
    ensures Filed(s.models)
    ensures DateTypeCode(Attr(e, "type")).None? ==> s == Step(Fail(RequiredFieldError("type")), m)
    ensures DateTypeCode(Attr(e, "type")).Some? ==>
              var e' := WithAttr(e, "type", DateTypeCode(Attr(e, "type")).value);
              var base := ActivityDateStep(env, m, e');
              && (base.status.Fail? ==> s == base)
              && (base.status.Ok? ==> s == NarrativeStep(env, base.models, defaultLang, e', Of(ActivityDateClass)))
  {
    var code := DateTypeCode(Attr(e, "type"));
    if code.None? then Step(Fail(RequiredFieldError("type")), m)
    else
      var e' := WithAttr(e, "type", code.value);
      var base := ActivityDateStep(env, m, e');
      if base.status.Fail? then base
      else NarrativeStep(env, base.models, defaultLang, e', Of(ActivityDateClass))
  }

  /** The date a 1.05 activity-date carries lands on the activity field its
      type name describes, and one date and one narrative are staged. */
  lemma DateNameSetsItsField(env: Env, m: Models, defaultLang: Option<string>, e: Element)
    requires Filed(m)
    ensures var s := ActivityDateStep105(env, m, defaultLang, e);
            s.status.Ok? ==>
              && Attr(e, "type").Some?
              && var name := e.attrib["type"];
                 var d := ValidateDate(env, Attr(e, "iso-date")).value;
                 && NameField(name).Some?
                 && Current(s.models, Of(ActivityClass)).Some? && Current(s.models, Of(ActivityClass)).value.Activity?
                 && DateOf(Current(s.models, Of(ActivityClass)).value, NameField(name).value) == Some(d)
                 && ModelList(s.models, Of(ActivityDateClass)) ==
                      ModelList(m, Of(ActivityDateClass)) + [ActivityDate(d, ActivityDateTypeMapping[name])]
                 && |ModelList(s.models, NarrativesOf(ActivityDateClass))| == |ModelList(m, NarrativesOf(ActivityDateClass))| + 1
  {
    var s := ActivityDateStep105(env, m, defaultLang, e);
    if s.status.Ok? {
      var name := e.attrib["type"];
      var code := ActivityDateTypeMapping[name];
      DateNamesReachTheirFields(name);
      var e' := WithAttr(e, "type", code);
      var base := ActivityDateStep(env, m, e');
      BaseDateSetsField(env, m, e', code, NameField(name).value);
      DateNarrativeKeepsDates(env, base.models, defaultLang, e', ActivityDate(ValidateDate(env, Attr(e', "iso-date")).value, code));
    }
  }

  /** The 2.01 activity-date handler with a type code of a date field puts
      the date on that field and makes the staged date current. */
  lemma BaseDateSetsField(env: Env, m: Models, e: Element, code: string, f: DateField)
    requires Filed(m) && Attr(e, "type") == Some(code) && DateFieldOf(code) == Some(f)
    ensures var base := ActivityDateStep(env, m, e);
            base.status.Ok? ==>
              var d := ValidateDate(env, Attr(e, "iso-date")).value;
              && Current(base.models, Of(ActivityClass)).Some? && Current(base.models, Of(ActivityClass)).value.Activity?
              && DateOf(Current(base.models, Of(ActivityClass)).value, f) == Some(d)
              && ModelList(base.models, Of(ActivityDateClass)) == ModelList(m, Of(ActivityDateClass)) + [ActivityDate(d, code)]
              && Current(base.models, Of(ActivityDateClass)) == Some(ActivityDate(d, code))
  {
    var base := ActivityDateStep(env, m, e);
    if base.status.Ok? {
      var d := ValidateDate(env, Attr(e, "iso-date")).value;
      WithDateSets(Current(m, Of(ActivityClass)).value, f, d);
    }
  }

  /** The narrative of a staged date leaves the activity and the dates as
      they are and stages one narrative. */
  lemma DateNarrativeKeepsDates(env: Env, m: Models, defaultLang: Option<string>, e: Element, date: Record)
    requires Filed(m) && date.ActivityDate? && Current(m, Of(ActivityDateClass)) == Some(date)
    ensures var s := NarrativeStep(env, m, defaultLang, e, Of(ActivityDateClass));
            s.status.Ok? ==>
              && ModelList(s.models, Of(ActivityClass)) == ModelList(m, Of(ActivityClass))
              && ModelList(s.models, Of(ActivityDateClass)) == ModelList(m, Of(ActivityDateClass))
              && |ModelList(s.models, NarrativesOf(ActivityDateClass))| == |ModelList(m, NarrativesOf(ActivityDateClass))| + 1
  {
    NarrativeKeepsOthers(env, m, defaultLang, e, Of(ActivityDateClass));
  }

  /** `getattr(activity, field)` for the four date fields. */
  function DateOf(a: Record, f: DateField): Option<Date>
    requires a.Activity?
  {
    match f
    case PlannedStart => a.plannedStart
    case ActualStart => a.actualStart
    case PlannedEnd => a.plannedEnd
    case ActualEnd => a.actualEnd
  }

  lemma WithDateSets(a: Record, f: DateField, d: Date)
    requires a.Activity?
    ensures DateOf(WithDate(a, f, d), f) == Some(d)
  {
  }

  /** A narrative on the current record of `kind` stages one narrative
      under the narratives of its class and leaves every other list alone. */
  lemma NarrativeKeepsOthers(env: Env, m: Models, defaultLang: Option<string>, e: Element, kind: Kind)
    requires Filed(m)
    ensures var s := NarrativeStep(env, m, defaultLang, e, kind);
            s.status.Ok? ==>
              && Current(m, kind).Some?
              && var k := NarrativesOf(ClassOf(Current(m, kind).value));
                 && |ModelList(s.models, k)| == |ModelList(m, k)| + 1
                 && forall k' :: k' != k ==> ModelList(s.models, k') == ModelList(m, k')
  {
  }

  /** The OrganisationRole code of a 1.05 role name
      (`get_or_none(OrganisationRole, name=role_name)`). */
  function RoleCode(env: Env, name: Option<string>): (r: Option<string>)
    ensures r.Some? <==> name.Some? && name.value in env.roleNames
    ensures r.Some? ==> r.value == env.roleNames[name.value]
  {
    if name.Some? && name.value in env.roleNames then Some(env.roleNames[name.value]) else None
  }

  /** `participating-org` in 1.05: an unknown role name is rejected with
      nothing staged; otherwise the role attribute is rewritten to the
      role's code and the 2.01 handler runs. When that stages the
      participating organisation, the override then reads a misspelled
      name: it never completes. */
  function ParticipatingOrgStep105(env: Env, m: Models, e: Element): (s: Step)
    requires Filed(m)
    ensures Filed(s.models) && s.status.Fail?
    ensures RoleCode(env, Attr(e, "role")).None? ==> s == Step(Fail(RequiredFieldError("role")), m)
    ensures RoleCode(env, Attr(e, "role")).Some? ==>
              var code := RoleCode(env, Attr(e, "role")).value;
              var ref := AttrOr(e, "ref", "");
              && (Lookup(env, OrganisationRoleList, Some(code)).None? ==>
                    s == Step(Fail(RequiredFieldError("role")), m))
              && (Lookup(env, OrganisationRoleList, Some(code)).Some? ==>
                    && s.status == Fail(Exception(NameError("activityParticipatingOrganisation")))
                    && AppendedOne(m, s.models, Of(ActivityParticipatingOrganisationClass),
                                   ActivityParticipatingOrganisation(
                                     ref, env.normalize(ref), Lookup(env, OrganisationTypeList, Attr(e, "type")),
                                     StoredOrganisation(env, ref), code, None)))
  {
    var code := RoleCode(env, Attr(e, "role"));
    if code.None? then Step(Fail(RequiredFieldError("role")), m)
    else
      var e' := WithAttr(e, "role", code.value);
      var base := ParticipatingOrgStep(env, m, e');
      if base.status.Fail? then base
      else Step(Fail(Exception(NameError("activityParticipatingOrganisation"))), base.models)
  }

  /** `reporting-org` in 1.05: the 2.01 handler, after which the override
      reads a misspelled name; what the base handler staged stays staged. */
  function ReportingOrgStep105(env: Env, m: Models, defaultLang: Option<string>, e: Element, now: Date): (s: Step)
    requires Filed(m)
    ensures Filed(s.models) && s.status.Fail?
    ensures s.models == ReportingOrgStep(env, m, defaultLang, e, now).models
    ensures ReportingOrgStep(env, m, defaultLang, e, now).status.Fail? ==>
              s.status == ReportingOrgStep(env, m, defaultLang, e, now).status
    ensures ReportingOrgStep(env, m, defaultLang, e, now).status.Ok? ==>
              s.status == Fail(Exception(NameError("activityReportingOrganisation")))
  {
    var base := ReportingOrgStep(env, m, defaultLang, e, now);
    if base.status.Fail? then base
    else Step(Fail(Exception(NameError("activityReportingOrganisation"))), base.models)
  }

  /** `other-identifier` in 1.05: the identifier is the element's text and
      is required first; then an owner reference or an owner name is
      required. Nothing is ever staged. */
  function OtherIdentifierStep105(m: Models, e: Element): (s: Step)
    ensures s.models == m && s.status.Fail?
    ensures e.text == "" <==> s.status == Fail(RequiredFieldError("identifier"))
    ensures e.text != "" && !Truthy(Attr(e, "owner-ref")) && !Truthy(Attr(e, "owner-name")) <==>
              s.status == Fail(RequiredFieldError("owner_ref"))
  {
    if e.text == "" then Step(Fail(RequiredFieldError("identifier")), m)
    else if !(Truthy(Attr(e, "owner-ref")) || Truthy(Attr(e, "owner-name"))) then
      Step(Fail(RequiredFieldError("owner_ref")), m)
    else Step(UndefinedElement, m)
  }

  /** `title` and `description` in 1.05: the element's text is required,
      and then `add_narrative_105` raises before the `Title` or the
      `Description` is staged. */
  function TextRequired105(m: Models, e: Element): (s: Step)
    ensures s.models == m && s.status.Fail?
    ensures e.text == "" <==> s.status == Fail(RequiredFieldError("text"))
  {
    if e.text == "" then Step(Fail(RequiredFieldError("text")), m)
    else Step(UndefinedElement, m)
  }

  /** The description type 1.05 looks up: the `type` attribute, 1 when
      absent. */
  function DescriptionType105(env: Env, e: Element): (r: Option<string>)
    ensures "type" !in e.attrib ==> r == Lookup(env, DescriptionTypeList, Some("1"))
    ensures "type" in e.attrib ==> r == Lookup(env, DescriptionTypeList, Some(e.attrib["type"]))
  {
    Lookup(env, DescriptionTypeList, Some(AttrOr(e, "type", "1")))
  }

  /** The overrides that start with `get_func_parent_model`: whatever it
      (or `add_organisation`) raises, else the raise in `add_narrative_105`. */
  function ParentModelStep(parentError: Option<ParseError>, m: Models): (s: Step)
    ensures s.models == m && s.status.Fail?
    ensures parentError.Some? ==> s.status == Fail(parentError.value)
    ensures parentError.None? ==> s.status == UndefinedElement
  {
    if parentError.Some? then Step(Fail(parentError.value), m) else Step(UndefinedElement, m)
  }

  /** The baseline-comment override: whatever `get_func_parent_model`
      raises, else the misspelled model class raises before
      `add_narrative_105` is reached, so its `NameError` never occurs. */
  function BaselineCommentStep105(parentError: Option<ParseError>, m: Models): (s: Step)
    ensures s.models == m && s.status.Fail?
    ensures parentError.Some? ==> s.status == Fail(parentError.value)
    ensures parentError.None? ==> s.status == MisspelledBaselineComment
  {
    if parentError.Some? then Step(Fail(parentError.value), m) else Step(MisspelledBaselineComment, m)
  }

  /** What 1.05 override `o` does with element `e`. */
  function Run105(cfg: Config, parentError: Option<ParseError>, o: Override, st: State, e: Element, now: Date): (r: (Status, State))
    requires Filed(st.models)
    ensures Filed(r.1.models)
    ensures r.1.activities == st.activities && r.1.defaultLang == st.defaultLang
    ensures o != DateOverride ==> r.0.Fail?
  {
    var env, m, dl := cfg.env, st.models, st.defaultLang;
    match o
    case DateOverride => Staged(st, ActivityDateStep105(env, m, dl, e))
    case ParticipantOverride => Staged(st, ParticipatingOrgStep105(env, m, e))
    case ReporterOverride => Staged(st, ReportingOrgStep105(env, m, dl, e, now))
    case OtherIdentifierOverride => Staged(st, OtherIdentifierStep105(m, e))
    case TitleOverride => Staged(st, TextRequired105(m, e))
    case DescriptionOverride => Staged(st, TextRequired105(m, e))
    case ParentModelOverride => Staged(st, ParentModelStep(parentError, m))
    case BaselineCommentOverride => Staged(st, BaselineCommentStep105(parentError, m))
  }

  /** The 1.05 parser on one element: its override when it has one for the
      path, and the inherited 2.01 handler otherwise. */
  function Handle105(cfg: Config, parentError: string -> Option<ParseError>, path: string,
                     st: State, e: Element, now: Date): (r: (Status, State))
    requires Filed(st.models)
    ensures Filed(r.1.models)
    ensures path in OverrideTable && OverrideTable[path] != DateOverride ==> r.0.Fail?
    ensures path == "iati_activities__iati_activity__result__indicator__baseline__comment" && parentError(path).None? ==>
              r.0 == MisspelledBaselineComment
  {
    if path in OverrideTable then Run105(cfg, parentError(path), OverrideTable[path], st, e, now)
    else Handle201(cfg, path, st, e, now)
  }
}
