/** The handler of `iati-activity` itself: the activity header is read,
    a stored activity with the same id is superseded or the incoming one
    rejected, and a fresh `Activity` is staged. Also the passes run after
    an activity is saved, and the end-of-source sweep. */
module ActivityRoot {
  import opened Common
  import opened Records
  import opened Staging
  import opened Store
  import Supersession

  /** The attributes of `iati-activity` the handler reads. */
  datatype Header = Header(
    id: string,
    defaultLang: string,
    hierarchy: Option<string>,
    lastUpdated: Option<Date>,
    linkedDataUri: Option<string>,
    defaultCurrency: Option<string>)

  /** The text nodes of the `iati-identifier` children, in document order
      (`xpath('iati-identifier/text()')`): an empty element has none. */
  function IdentifierTexts(cs: seq<Element>): (r: seq<string>)
    ensures forall t :: t in r ==> t != "" && exists c :: c in cs && c.tag == "iati-identifier" && c.text == t
    ensures (exists c :: c in cs && c.tag == "iati-identifier" && c.text != "") ==> r != []
  {
    if cs == [] then []
    else if cs[0].tag == "iati-identifier" && cs[0].text != "" then [cs[0].text] + IdentifierTexts(cs[1..])
    else
      assert forall c :: c in cs[1..] ==> c in cs;
      assert forall c :: c in cs && c != cs[0] ==> c in cs[1..];
      IdentifierTexts(cs[1..])
  }

  /** The id comes from the first `iati-identifier` child, in document
      order, that has a text: `IdentifierTexts(cs)[0]` is its text. */
  lemma {:induction false} FirstIdentifierText(cs: seq<Element>)
    ensures IdentifierTexts(cs) != [] ==>
              exists k :: 0 <= k < |cs| && cs[k].tag == "iati-identifier" && cs[k].text == IdentifierTexts(cs)[0] &&
                forall j :: 0 <= j < k ==> !(cs[j].tag == "iati-identifier" && cs[j].text != "")
  {
    if cs != [] && IdentifierTexts(cs) != [] {
      if cs[0].tag == "iati-identifier" && cs[0].text != "" {
        assert IdentifierTexts(cs)[0] == cs[0].text;
      } else {
        assert IdentifierTexts(cs) == IdentifierTexts(cs[1..]);
        FirstIdentifierText(cs[1..]);
        var k :| 0 <= k < |cs[1..]| && cs[1..][k].tag == "iati-identifier" && cs[1..][k].text == IdentifierTexts(cs)[0] &&
                 forall j :: 0 <= j < k ==> !(cs[1..][j].tag == "iati-identifier" && cs[1..][j].text != "");
        assert cs[k + 1] == cs[1..][k];
        forall j | 0 <= j < k + 1
          ensures !(cs[j].tag == "iati-identifier" && cs[j].text != "")
        {
          if j > 0 {
            assert cs[j] == cs[1..][j - 1];
          }
        }
      }
    }
  }

  /** The header of an activity element. The first identifier text is taken
      (an IndexError when there is none) and normalised; xml:lang is
      lower-cased (an AttributeError when it is absent); an id that
      normalises to nothing is rejected after the other attributes are read. */
  function ReadHeader(env: Env, e: Element): (r: Result<Header>)
    ensures IdentifierTexts(e.children) == [] ==>
              r == Failure(Exception(IndexError("iati-identifier/text()")))
    ensures IdentifierTexts(e.children) != [] && XmlLang !in e.attrib ==>
              r == Failure(Exception(AttributeError("lower")))
    ensures IdentifierTexts(e.children) != [] && XmlLang in e.attrib &&
            env.normalize(IdentifierTexts(e.children)[0]) == "" ==>
              r == Failure(RequiredFieldError("id"))
    ensures r.Success? <==>
              IdentifierTexts(e.children) != [] && XmlLang in e.attrib &&
              env.normalize(IdentifierTexts(e.children)[0]) != ""
    ensures r.Success? ==>
              && r.value.id == env.normalize(IdentifierTexts(e.children)[0])
              && r.value.defaultLang == Lower(e.attrib[XmlLang])
              && r.value.hierarchy == Attr(e, "hierarchy")
              && r.value.lastUpdated == ValidateDate(env, Attr(e, "last-updated-datetime"))
              && r.value.linkedDataUri == Attr(e, "linked-data-uri")
              && r.value.defaultCurrency == Lookup(env, CurrencyList, Attr(e, "default-currency"))
  {
    var texts := IdentifierTexts(e.children);
    if texts == [] then Failure(Exception(IndexError("iati-identifier/text()")))
    else
      var id := env.normalize(texts[0]);
      if XmlLang !in e.attrib then Failure(Exception(AttributeError("lower")))
      else if id == "" then Failure(RequiredFieldError("id"))
      else Success(Header(id, Lower(e.attrib[XmlLang]), Attr(e, "hierarchy"),
                          ValidateDate(env, Attr(e, "last-updated-datetime")),
                          Attr(e, "linked-data-uri"), Lookup(env, CurrencyList, Attr(e, "default-currency"))))
  }

  /** The activity staged for a header: the hierarchy is kept only when it
      is a non-empty text, the source reference and the standard version
      come from the parser, and every field set by a child handler is
      still empty. */
  function NewActivity(h: Header, sourceRef: string, version: string): (a: Record)
    ensures a.Activity? && a.id == h.id && a.defaultLang == h.defaultLang
    ensures a.hierarchy == (if Truthy(h.hierarchy) then h.hierarchy else None)
    ensures a.xmlSourceRef == sourceRef && a.standardVersion == version
    ensures a.lastUpdatedDatetime == h.lastUpdated && a.linkedDataUri == h.linkedDataUri
    ensures a.defaultCurrency == h.defaultCurrency && a.iatiIdentifier.None?
    ensures a.plannedStart.None? && a.actualStart.None? && a.plannedEnd.None? && a.actualEnd.None?
  {
    Activity(h.id, None, h.defaultLang, if Truthy(h.hierarchy) then h.hierarchy else None, sourceRef,
             h.lastUpdated, h.linkedDataUri, h.defaultCurrency, version,
             None, None, None, None, None, None, None, None, None, None, None, None)
  }

  /** What the parser is configured with for one source. */
  datatype Config = Config(env: Env, version: string, sourceRef: string, forceReparse: bool)

  /** The state the handlers work on: the staged records, the default
      language of the current activity, and the stored activities. */
  datatype State = State(models: Models, defaultLang: Option<string>, activities: seq<StoredActivity>)

  /** `last_updated_datetime` of the stored activity with this id, if one
      is stored. */
  function StoredTimestamp(acts: seq<StoredActivity>, id: string): (r: Option<Option<Date>>)
    ensures r.Some? <==> Find(acts, id).Some?
    ensures r.Some? ==> r.value == Find(acts, id).value.lastUpdatedDatetime
  {
    var stored := Find(acts, id);
    if stored.Some? then Some(stored.value.lastUpdatedDatetime) else None
  }

  /** The stored activities after the save that precedes the timestamp
      checks: only without `force_reparse`, and only when one is stored. */
  function SavedBeforeChecks(cfg: Config, acts: seq<StoredActivity>, id: string, now: Date): seq<StoredActivity>
  {
    if Find(acts, id).Some? && !cfg.forceReparse then Touch(acts, id, now) else acts
  }

  /** `iati_activities__iati_activity`. A header error leaves everything as
      it was. Otherwise a stored activity of the same id is saved (unless
      reparsing is forced) before the decision; a rejection keeps that save
      and nothing else; an acceptance deletes the stored activity, stages
      the new one and makes its language the default of the narratives. */
  function ActivityStep(cfg: Config, st: State, e: Element, now: Date): (r: (Status, State))
    requires Filed(st.models)
    ensures Filed(r.1.models)
    ensures ReadHeader(cfg.env, e).Failure? ==> r == (Fail(ReadHeader(cfg.env, e).error), st)
    ensures ReadHeader(cfg.env, e).Success? ==>
              var h := ReadHeader(cfg.env, e).value;
              var d := Supersession.Decide(StoredTimestamp(st.activities, h.id), h.lastUpdated, cfg.forceReparse);
              && (d.Reject? ==> r == (Fail(d.error), st.(activities := SavedBeforeChecks(cfg, st.activities, h.id, now))))
              && (!d.Reject? ==>
                    && r.0.Ok?
                    && r.1.defaultLang == Some(h.defaultLang)
                    && r.1.activities == Without(st.activities, h.id)
                    && AppendedOne(st.models, r.1.models, Of(ActivityClass), NewActivity(h, cfg.sourceRef, cfg.version)))
  {
    var hdr := ReadHeader(cfg.env, e);
    if hdr.Failure? then (Fail(hdr.error), st)
    else
      var h := hdr.value;
      var saved := SavedBeforeChecks(cfg, st.activities, h.id, now);
      var d := Supersession.Decide(StoredTimestamp(st.activities, h.id), h.lastUpdated, cfg.forceReparse);
      if d.Reject? then (Fail(d.error), st.(activities := saved))
      else
        var deleted := if Find(st.activities, h.id).Some? then Without(saved, h.id) else saved;
        RestageDeletes(cfg, st.activities, h.id, now);
        (Ok, State(Stage(st.models, NewActivity(h, cfg.sourceRef, cfg.version)), Some(h.defaultLang), deleted))
  }

  /** Whatever the save before the checks did, an accepted activity leaves
      the store as a plain delete of its id does. */
  lemma RestageDeletes(cfg: Config, acts: seq<StoredActivity>, id: string, now: Date)
    ensures (if Find(acts, id).Some? then Without(SavedBeforeChecks(cfg, acts, id, now), id)
             else SavedBeforeChecks(cfg, acts, id, now)) == Without(acts, id)
  {
    if Find(acts, id).Some? {
      if !cfg.forceReparse {
        TouchThenDelete(acts, id, now);
      }
    } else {
      NothingToDelete(acts, id);
    }
  }

  /** Deleting an id that is not stored changes nothing. */
  lemma {:induction false} NothingToDelete(acts: seq<StoredActivity>, id: string)
    requires forall a :: a in acts ==> a.id != id
    ensures Without(acts, id) == acts
  {
    if acts != [] {
      assert forall a :: a in acts[1..] ==> a in acts;
      NothingToDelete(acts[1..], id);
      assert acts == [acts[0]] + acts[1..];
    }
  }

  /** After an accepted activity no stored activity carries its id: the
      new one is only staged, and replaces the old one when saved. */
  lemma AcceptedLeavesNoStoredCopy(cfg: Config, st: State, e: Element, now: Date)
    requires Filed(st.models)
    requires ActivityStep(cfg, st, e, now).0.Ok?
    ensures forall a :: a in ActivityStep(cfg, st, e, now).1.activities ==> a.id != ReadHeader(cfg.env, e).value.id
  {
  }

  /** An activity rejected as a duplicate (same or older timestamp, or no
      timestamp) was saved first, so the sweep at the end of its source
      does not delete the stored copy, whatever source it came from. */
  lemma {:induction false} RejectedDuplicateSurvivesSweep(cfg: Config, st: State, e: Element, now: Date, start: Date)
    requires Filed(st.models) && !cfg.forceReparse && start <= now
    requires ReadHeader(cfg.env, e).Success?
    requires Find(st.activities, ReadHeader(cfg.env, e).value.id).Some?
    requires ActivityStep(cfg, st, e, now).0.Fail?
    ensures var id := ReadHeader(cfg.env, e).value.id;
            var after := ActivityStep(cfg, st, e, now).1.activities;
            exists a :: a in Retained(after, cfg.sourceRef, start) && a.id == id
  {
    var id := ReadHeader(cfg.env, e).value.id;
    var acts := st.activities;
    var t := Touch(acts, id, now);
    var found := Find(acts, id).value;
    var i :| 0 <= i < |acts| && acts[i] == found;
    assert t[i] == found.(lastUpdatedModel := now);
    SavedSurvivesSweep(acts, id, now, cfg.sourceRef, start);
    assert t[i] in Retained(t, cfg.sourceRef, start);
  }

  /** The passes `post_save_models` runs once an activity is saved. */
  datatype PostSavePass =
    | SetRelatedActivities
    | SetTransactionProviderReceiverActivity
    | SetDerivedActivityDates
    | SetActivityAggregations
    | UpdateActivitySearchIndex
    | SetCountryRegionTransaction
    | SetSectorTransaction

  const PostSaveOrder: seq<PostSavePass> := [
    SetRelatedActivities, SetTransactionProviderReceiverActivity, SetDerivedActivityDates,
    SetActivityAggregations, UpdateActivitySearchIndex, SetCountryRegionTransaction,
    SetSectorTransaction]

  /** Where each pass is called in `post_save_models`, counting from 0. */
  function PassRank(p: PostSavePass): nat
  {
    match p
    case SetRelatedActivities => 0
    case SetTransactionProviderReceiverActivity => 1
    case SetDerivedActivityDates => 2
    case SetActivityAggregations => 3
    case UpdateActivitySearchIndex => 4
    case SetCountryRegionTransaction => 5
    case SetSectorTransaction => 6
  }

  /** The passes run after an activity: none when no activity is staged,
      otherwise all seven, each once, with the related activities resolved
      first and the search index updated before the transaction-level
      country, region and sector allocations are derived; every pass runs
      before every pass called after it. */
  function PostSaveModels(m: Models): (r: seq<PostSavePass>)
    ensures Current(m, Of(ActivityClass)).None? ==> r == []
    ensures Current(m, Of(ActivityClass)).Some? ==>
              && |r| == 7
              && (forall p: PostSavePass :: p in r)
              && (forall i, j :: 0 <= i < j < |r| ==> r[i] != r[j])
              // The next three clauses follow from the rank clause below; they
              // spell out the orderings the later passes rely on.
              && r[0] == SetRelatedActivities
              && r[1] == SetTransactionProviderReceiverActivity
              && (forall i, j | 0 <= i < |r| && 0 <= j < |r| && r[i] == UpdateActivitySearchIndex ::
                    r[j] == SetCountryRegionTransaction || r[j] == SetSectorTransaction ==> i < j)
              && (forall i, j :: 0 <= i < j < |r| ==> PassRank(r[i]) < PassRank(r[j]))
  {
    if Current(m, Of(ActivityClass)).None? then []
    else
      EveryPassListed();
      PostSaveOrder
  }

  lemma EveryPassListed()
    ensures forall p: PostSavePass :: p in PostSaveOrder
  {
    forall p: PostSavePass ensures p in PostSaveOrder {
      match p
      case SetRelatedActivities => assert PostSaveOrder[0] == p;
      case SetTransactionProviderReceiverActivity => assert PostSaveOrder[1] == p;
      case SetDerivedActivityDates => assert PostSaveOrder[2] == p;
      case SetActivityAggregations => assert PostSaveOrder[3] == p;
      case UpdateActivitySearchIndex => assert PostSaveOrder[4] == p;
      case SetCountryRegionTransaction => assert PostSaveOrder[5] == p;
      case SetSectorTransaction => assert PostSaveOrder[6] == p;
    }
  }
}
