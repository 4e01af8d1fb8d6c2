/** The 2.01 handlers of `result` and of its indicators and periods. The
    handlers of baseline, period-start, period-end, target and actual pop
    the current record, set one field and register it again. */
module ResultHandlers {
  import opened Common
  import opened Records
  import opened Staging

  /** `result`: the result type is required. */
  function ResultStep(env: Env, m: Models, e: Element): (s: Step)
    requires Filed(m)
    ensures Filed(s.models)
    ensures s.status.Fail? <==> Lookup(env, ResultTypeList, Attr(e, "type")).None?
    ensures s.status.Fail? ==> s == Step(Fail(RequiredFieldError("result_type")), m)
    ensures s.status.Ok? ==>
              AppendedOne(m, s.models, Of(ResultClass),
                          Result(e.attrib["type"], env.makeBool(Attr(e, "aggregation-status"))))
  {
    var resultType := Lookup(env, ResultTypeList, Attr(e, "type"));
    if resultType.None? then Step(Fail(RequiredFieldError("result_type")), m)
    else Step(Ok, Stage(m, Result(resultType.value, env.makeBool(Attr(e, "aggregation-status")))))
  }

  /** `indicator`: the measure is required; `ascending` defaults to '1'. */
  function IndicatorStep(env: Env, m: Models, e: Element): (s: Step)
    requires Filed(m)
    ensures Filed(s.models)
    ensures s.status.Fail? <==> Lookup(env, IndicatorMeasureList, Attr(e, "measure")).None?
    ensures s.status.Fail? ==> s == Step(Fail(RequiredFieldError("measure")), m)
    ensures s.status.Ok? ==>
              AppendedOne(m, s.models, Of(ResultIndicatorClass),
                          ResultIndicator(e.attrib["measure"], env.makeBool(Some(AttrOr(e, "ascending", "1"))), None, None))
  {
    var measure := Lookup(env, IndicatorMeasureList, Attr(e, "measure"));
    if measure.None? then Step(Fail(RequiredFieldError("measure")), m)
    else Step(Ok, Stage(m, ResultIndicator(measure.value, env.makeBool(Some(AttrOr(e, "ascending", "1"))), None, None)))
  }

  /** The records that only hold narratives: titles, descriptions and
      comments of results, indicators and periods. */
  datatype ResultPart =
    | ResultTitlePart | ResultDescriptionPart | IndicatorTitlePart | IndicatorDescriptionPart
    | BaselineCommentPart | TargetCommentPart | ActualCommentPart

  function PartRecord(p: ResultPart): Record
  {
    match p
    case ResultTitlePart => ResultTitle
    case ResultDescriptionPart => ResultDescription
    case IndicatorTitlePart => ResultIndicatorTitle
    case IndicatorDescriptionPart => ResultIndicatorDescription
    case BaselineCommentPart => ResultIndicatorBaselineComment
    case TargetCommentPart => ResultIndicatorPeriodTargetComment
    case ActualCommentPart => ResultIndicatorPeriodActualComment
  }

  /** `result/title`, `result/description`, `indicator/title`,
      `indicator/description` and the three `comment` handlers: never
      rejected; one holder record staged under its class name, which is
      where the narratives below it look for their parent. */
  function ResultPartStep(m: Models, p: ResultPart): (s: Step)
    requires Filed(m)
    ensures Filed(s.models) && s.status.Ok?
    ensures AppendedOne(m, s.models, RegisterName(PartRecord(p)), PartRecord(p))
    ensures Current(s.models, RegisterName(PartRecord(p))) == Some(PartRecord(p))
  {
    Step(Ok, Stage(m, PartRecord(p)))
  }

  /** `period`: an empty period of the current indicator. */
  function PeriodStep(m: Models): (s: Step)
    requires Filed(m)
    ensures Filed(s.models) && s.status.Ok?
    ensures AppendedOne(m, s.models, Of(ResultIndicatorPeriodClass), ResultIndicatorPeriod(None, None, None, None))
  {
    Step(Ok, Stage(m, ResultIndicatorPeriod(None, None, None, None)))
  }

  /** `baseline`: year and value are required before anything is popped;
      the year is converted with `int()` after the pop, so a year that is
      not a number loses the popped indicator. On success the current
      indicator is replaced in place. */
  function BaselineStep(env: Env, m: Models, e: Element): (s: Step)
    requires Filed(m)
    ensures Filed(s.models)
    ensures !Truthy(Attr(e, "year")) ==> s == Step(Fail(RequiredFieldError("year")), m)
    ensures Truthy(Attr(e, "year")) && !Truthy(Attr(e, "value")) ==> s == Step(Fail(RequiredFieldError("value")), m)
    ensures Truthy(Attr(e, "year")) && Truthy(Attr(e, "value")) && env.toInt(e.attrib["year"]).None? ==>
              s.status == Fail(Exception(ValueError("year"))) &&
              (|ModelList(m, Of(ResultIndicatorClass))| > 0 ==> s.models == DropLast(m, Of(ResultIndicatorClass)))
    ensures s.status.Ok? <==>
              Truthy(Attr(e, "year")) && Truthy(Attr(e, "value")) && env.toInt(e.attrib["year"]).Some? &&
              |ModelList(m, Of(ResultIndicatorClass))| > 0
    ensures s.status.Ok? ==>
              var r := Current(m, Of(ResultIndicatorClass)).value;
              && r.ResultIndicator?
              && ReplacedCurrent(m, s.models, Of(ResultIndicatorClass),
                                 r.(baselineYear := env.toInt(e.attrib["year"]),
                                    baselineValue := Some(e.attrib["value"])))
  {
    var year := Attr(e, "year");
    var value := Attr(e, "value");
    if !Truthy(year) then Step(Fail(RequiredFieldError("year")), m)
    else if !Truthy(value) then Step(Fail(RequiredFieldError("value")), m)
    else BaselinePopped(env, m, year.value, value.value)
  }

  /** The baseline once year and value are present: the current indicator
      is popped, then the year is converted, then the indicator is updated
      and registered again. */
  function BaselinePopped(env: Env, m: Models, year: string, value: string): (s: Step)
    requires Filed(m)
    ensures Filed(s.models)
    ensures env.toInt(year).None? ==>
              s.status == Fail(Exception(ValueError("year"))) &&
              (|ModelList(m, Of(ResultIndicatorClass))| > 0 ==> s.models == DropLast(m, Of(ResultIndicatorClass)))
    ensures s.status.Ok? <==> env.toInt(year).Some? && |ModelList(m, Of(ResultIndicatorClass))| > 0
    ensures s.status.Ok? ==>
              var r := Current(m, Of(ResultIndicatorClass)).value;
              && r.ResultIndicator?
              && ReplacedCurrent(m, s.models, Of(ResultIndicatorClass),
                                 r.(baselineYear := env.toInt(year), baselineValue := Some(value)))
  {
    if |ModelList(m, Of(ResultIndicatorClass))| == 0 then
      // pop_model found nothing: int(year) is evaluated, then assigned on None
      if env.toInt(year).None? then Step(Fail(Exception(ValueError("year"))), m)
      else Step(Fail(Exception(AttributeError("ResultIndicator"))), m)
    else
      var r := Current(m, Of(ResultIndicatorClass)).value;
      FiledDropLast(m, Of(ResultIndicatorClass));
      if env.toInt(year).None? then Step(Fail(Exception(ValueError("year"))), DropLast(m, Of(ResultIndicatorClass)))
      else
        CurrentHasClass(m, Of(ResultIndicatorClass));
        Step(Ok, PopRegister(m, r.(baselineYear := env.toInt(year), baselineValue := Some(value))))
  }

  /** `period-start` and `period-end` of an indicator period: a valid
      iso-date is required before anything is popped; the current period
      is then replaced in place. */
  function PeriodDateStep(env: Env, m: Models, e: Element, start: bool): (s: Step)
    requires Filed(m)
    ensures Filed(s.models)
    ensures s.status.Fail? ==> s.models == m
    ensures ValidateDate(env, Attr(e, "iso-date")).None? ==> s.status == Fail(RequiredFieldError("iso-date"))
    ensures s.status.Ok? <==>
              ValidateDate(env, Attr(e, "iso-date")).Some? && |ModelList(m, Of(ResultIndicatorPeriodClass))| > 0
    ensures s.status.Ok? ==>
              var p := Current(m, Of(ResultIndicatorPeriodClass)).value;
              var d := ValidateDate(env, Attr(e, "iso-date"));
              && p.ResultIndicatorPeriod?
              && ReplacedCurrent(m, s.models, Of(ResultIndicatorPeriodClass),
                                 if start then p.(periodStart := d) else p.(periodEnd := d))
  {
    var d := ValidateDate(env, Attr(e, "iso-date"));
    if d.None? then Step(Fail(RequiredFieldError("iso-date")), m)
    else if |ModelList(m, Of(ResultIndicatorPeriodClass))| == 0 then
      Step(Fail(Exception(AttributeError("ResultIndicatorPeriod"))), m)
    else
      var p := Current(m, Of(ResultIndicatorPeriodClass)).value;
      CurrentHasClass(m, Of(ResultIndicatorPeriodClass));
      var p' := if start then p.(periodStart := d) else p.(periodEnd := d);
      Step(Ok, PopRegister(m, p'))
  }

  /** `target` and `actual` of an indicator period: the value is required
      before anything is popped; it then overwrites the single slot of the
      current period, so a repeated target or actual keeps only the last. */
  function PeriodValueStep(m: Models, e: Element, target: bool): (s: Step)
    requires Filed(m)
    ensures Filed(s.models)
    ensures s.status.Fail? ==> s.models == m
    ensures !Truthy(Attr(e, "value")) ==> s.status == Fail(RequiredFieldError("value"))
    ensures s.status.Ok? <==> Truthy(Attr(e, "value")) && |ModelList(m, Of(ResultIndicatorPeriodClass))| > 0
    ensures s.status.Ok? ==>
              var p := Current(m, Of(ResultIndicatorPeriodClass)).value;
              var v := Attr(e, "value");
              && p.ResultIndicatorPeriod?
              && ReplacedCurrent(m, s.models, Of(ResultIndicatorPeriodClass),
                                 if target then p.(target := v) else p.(actual := v))
  {
    var v := Attr(e, "value");
    if !Truthy(v) then Step(Fail(RequiredFieldError("value")), m)
    else if |ModelList(m, Of(ResultIndicatorPeriodClass))| == 0 then
      Step(Fail(Exception(AttributeError("ResultIndicatorPeriod"))), m)
    else
      var p := Current(m, Of(ResultIndicatorPeriodClass)).value;
      CurrentHasClass(m, Of(ResultIndicatorPeriodClass));
      var p' := if target then p.(target := v) else p.(actual := v);
      Step(Ok, PopRegister(m, p'))
  }

  /** Two targets in a row leave one period holding the second value: the
      count of staged periods does not change. */
  lemma {:induction false} RepeatedTargetOverwrites(m: Models, e1: Element, e2: Element)
    requires Filed(m) && |ModelList(m, Of(ResultIndicatorPeriodClass))| > 0
    requires Truthy(Attr(e1, "value")) && Truthy(Attr(e2, "value"))
    ensures var s1 := PeriodValueStep(m, e1, true);
            var s2 := PeriodValueStep(s1.models, e2, true);
            && s2.status.Ok?
            && |ModelList(s2.models, Of(ResultIndicatorPeriodClass))| == |ModelList(m, Of(ResultIndicatorPeriodClass))|
            && Current(s2.models, Of(ResultIndicatorPeriodClass)).value.target == Attr(e2, "value")
  {
    var s1 := PeriodValueStep(m, e1, true);
    assert |ModelList(s1.models, Of(ResultIndicatorPeriodClass))| == |ModelList(m, Of(ResultIndicatorPeriodClass))|;
    var s2 := PeriodValueStep(s1.models, e2, true);
    assert s2.status.Ok?;
  }
}
