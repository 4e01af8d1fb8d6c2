/** The 1.05 parser: a subclass of the 2.01 parser with the version set to
    1.05 and some handlers overridden. It is modelled as a wrapper around a
    2.01 parser object, whose state it changes through that object's own
    methods. */
module Parser105 {
  import opened Common
  import opened Records
  import opened Staging
  import opened Store
  import opened ActivityHandlers
  import opened ActivityRoot
  import opened Dispatch
  import opened Tables105
  import opened Overrides105
  import opened Parser201

  class Parser105 {
    const base: Parser
    /** What `get_func_parent_model` (and, for provider-org and
        receiver-org, `add_organisation`) raises on each path, if anything. */
    const parentError: string -> Option<ParseError>

    ghost function State(): State
      reads base, base.ctx, base.store
    {
      base.State()
    }

    ghost predicate Valid()
      reads base, base.ctx
    {
      base.Valid()
    }

    constructor (env: Env, sourceRef: string, forceReparse: bool, parseStart: Date,
                 stored: seq<StoredActivity>, parentError: string -> Option<ParseError>)
      ensures Valid() && base.cfg == Config(env, "1.05", sourceRef, forceReparse)
      ensures State() == ActivityRoot.State(map[], None, stored)
      ensures fresh(base) && fresh(base.ctx) && fresh(base.store)
    {
      base := new Parser(Config(env, "1.05", sourceRef, forceReparse), parseStart, stored);
      this.parentError := parentError;
    }

    /** `activity-date`: the type name is translated and written back into
        the element before the 2.01 handler runs. */
    method ActivityDate(e: Element) returns (st: Status)
      requires Valid()
      modifies base.ctx
      ensures Valid()
      ensures Step(st, base.ctx.models) == ActivityDateStep105(base.cfg.env, old(base.ctx.models), base.defaultLang, e)
    {
      var code := DateTypeCode(Attr(e, "type"));
      if code.None? {
        return Fail(RequiredFieldError("type"));
      }
      var e' := WithAttr(e, "type", code.value);
      st := base.ActivityDate(e');
      if st.Fail? {
        return;
      }
      st := base.NarrativeOf(e', Of(ActivityDateClass));
    }

    /** `participating-org`: the role name is translated and written back
        into the element before the 2.01 handler runs. */
    method ParticipatingOrg(e: Element) returns (st: Status)
      requires Valid()
      modifies base.ctx
      ensures Valid()
      ensures Step(st, base.ctx.models) == ParticipatingOrgStep105(base.cfg.env, old(base.ctx.models), e)
    {
      var code := RoleCode(base.cfg.env, Attr(e, "role"));
      if code.None? {
        return Fail(RequiredFieldError("role"));
      }
      st := base.ParticipatingOrg(WithAttr(e, "role", code.value));
      if st.Fail? {
        return;
      }
      st := Fail(Exception(NameError("activityParticipatingOrganisation")));
    }

    method ReportingOrg(e: Element, now: Date) returns (st: Status)
      requires Valid()
      modifies base.ctx
      ensures Valid()
      ensures Step(st, base.ctx.models) == ReportingOrgStep105(base.cfg.env, old(base.ctx.models), base.defaultLang, e, now)
    {
      st := base.ReportingOrg(e, now);
      if st.Fail? {
        return;
      }
      st := Fail(Exception(NameError("activityReportingOrganisation")));
    }

    /** The 1.05 parser on one element at tag path `path`. */
    method Handle(path: string, e: Element, now: Date) returns (st: Status)
      requires Valid()
      modifies base, base.ctx, base.store
      ensures Valid()
      ensures (st, State()) == Handle105(base.cfg, parentError, path, old(State()), e, now)
      ensures path !in OverrideTable ==> (st, State()) == Handle201(base.cfg, path, old(State()), e, now)
    {
      if path !in OverrideTable {
        st := base.Handle(path, e, now);
      } else {
        st := Override(OverrideTable[path], parentError(path), e, now);
      }
    }

    /** The override `o` on element `e`; `pe` is what looking up the parent
        model raises on this path, if anything. */
    method Override(o: Override, pe: Option<ParseError>, e: Element, now: Date) returns (st: Status)
      requires Valid()
      modifies base.ctx
      ensures Valid()
      ensures (st, State()) == Run105(base.cfg, pe, o, old(State()), e, now)
    {
      match o {
        case DateOverride => st := ActivityDate(e);
        case ParticipantOverride => st := ParticipatingOrg(e);
        case ReporterOverride => st := ReportingOrg(e, now);
        case OtherIdentifierOverride => st := OtherIdentifierStep105(base.ctx.models, e).status;
        case TitleOverride => st := TextRequired105(base.ctx.models, e).status;
        case DescriptionOverride => st := TextRequired105(base.ctx.models, e).status;
        case ParentModelOverride => st := ParentModelStep(pe, base.ctx.models).status;
        case BaselineCommentOverride => st := BaselineCommentStep105(pe, base.ctx.models).status;
      }
    }
  }
}
