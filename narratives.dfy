/** `add_narrative`: the free-text children of an element, staged as
    `Narrative` records under the parent's class name followed by
    "Narrative". */
module Narratives {
  import opened Common
  import opened Records
  import opened Staging

  /** The language code of a narrative: its own xml:lang, else the
      activity's default language, lower-cased. None when neither is set,
      where `.lower()` is applied to None. */
  function NarrativeLanguage(e: Element, defaultLang: Option<string>): Option<string>
  {
    if XmlLang in e.attrib then Some(Lower(e.attrib[XmlLang]))
    else if defaultLang.Some? then Some(Lower(defaultLang.value))
    else None
  }

  /** The narrative that `add_narrative(e, parent)` stages. */
  function NarrativeRecord(e: Element, lang: string, parent: Record, parentIndex: nat): Record
  {
    Narrative(lang, e.text, ClassOf(parent), parentIndex)
  }

  /** `add_narrative(e, parent)`, where `parent` is the record (or None)
      found at position `parentIndex` of its type's list. The language is
      computed first; then a missing parent, an unknown language and an
      empty text are rejected, in that order. */
  function AddNarrativeStep(env: Env, m: Models, defaultLang: Option<string>, e: Element,
                            parent: Option<Record>, parentIndex: nat): (s: Step)
    ensures NarrativeLanguage(e, defaultLang).None? ==>
              s == Step(Fail(Exception(AttributeError("lower"))), m)
    ensures NarrativeLanguage(e, defaultLang).Some? && parent.None? ==>
              s == Step(Fail(RequiredFieldError("parent")), m)
    ensures NarrativeLanguage(e, defaultLang).Some? && parent.Some? &&
            Lookup(env, LanguageList, NarrativeLanguage(e, defaultLang)).None? ==>
              s == Step(Fail(RequiredFieldError("language")), m)
    ensures NarrativeLanguage(e, defaultLang).Some? && parent.Some? &&
            Lookup(env, LanguageList, NarrativeLanguage(e, defaultLang)).Some? && e.text == "" ==>
              s == Step(Fail(RequiredFieldError("text")), m)
    ensures s.status.Ok? <==>
              parent.Some? && e.text != "" && Lookup(env, LanguageList, NarrativeLanguage(e, defaultLang)).Some?
    ensures s.status.Ok? ==>
              s.models == Append(m, NarrativesOf(ClassOf(parent.value)),
                                 Narrative(NarrativeLanguage(e, defaultLang).value, e.text,
                                           ClassOf(parent.value), parentIndex))
    ensures Filed(m) ==> Filed(s.models)
  {
    var lang := NarrativeLanguage(e, defaultLang);
    if lang.None? then Step(Fail(Exception(AttributeError("lower"))), m)
    else if parent.None? then Step(Fail(RequiredFieldError("parent")), m)
    else if Lookup(env, LanguageList, lang).None? then Step(Fail(RequiredFieldError("language")), m)
    else if e.text == "" then Step(Fail(RequiredFieldError("text")), m)
    else
      var n := NarrativeRecord(e, lang.value, parent.value, parentIndex);
      FiledAppendIf(m, RegisterName(n), n);
      Step(Ok, Append(m, RegisterName(n), n))
  }

  /** Filing is kept by an append under the record's own name. */
  lemma FiledAppendIf(m: Models, kind: Kind, r: Record)
    requires RegisterName(r) == kind
    ensures Filed(m) ==> Filed(Append(m, kind, r))
  {
    if Filed(m) {
      FiledAppend(m, kind, r);
    }
  }

  /** A narrative that `add_narrative` accepts once its parent exists: a
      known language and a non-empty text. */
  predicate Accepted(env: Env, defaultLang: Option<string>, n: Element)
  {
    n.text != "" && Lookup(env, LanguageList, NarrativeLanguage(n, defaultLang)).Some?
  }

  /** The narrative staged for `n` under the organisation name at
      `nameIndex` (the language is only read when `n` is accepted). */
  function NameNarrative(defaultLang: Option<string>, n: Element, nameIndex: nat): Record
  {
    var lang := NarrativeLanguage(n, defaultLang);
    Narrative(if lang.Some? then lang.value else "", n.text, OrganisationNameClass, nameIndex)
  }

  /** The narratives staged for `ns`, one per element, in document order. */
  function NameNarratives(defaultLang: Option<string>, ns: seq<Element>, nameIndex: nat): (r: seq<Record>)
    ensures |r| == |ns|
    ensures forall i :: 0 <= i < |ns| ==> r[i] == NameNarrative(defaultLang, ns[i], nameIndex)
  {
    if ns == [] then [] else [NameNarrative(defaultLang, ns[0], nameIndex)] + NameNarratives(defaultLang, ns[1..], nameIndex)
  }

  /** Every narrative of a non-empty run is accepted iff the first one is
      and every later one is. */
  lemma AcceptedCons(env: Env, defaultLang: Option<string>, ns: seq<Element>)
    requires ns != []
    ensures (forall n :: n in ns ==> Accepted(env, defaultLang, n)) <==>
              Accepted(env, defaultLang, ns[0]) && forall n :: n in ns[1..] ==> Accepted(env, defaultLang, n)
  {
    assert ns == [ns[0]] + ns[1..];
  }

  /** Staging the narratives of a non-empty run: the first one, then the
      rest. */
  lemma NameNarrativesCons(defaultLang: Option<string>, ns: seq<Element>, nameIndex: nat, before: seq<Record>)
    requires ns != []
    ensures before + NameNarratives(defaultLang, ns, nameIndex) ==
              (before + [NameNarrative(defaultLang, ns[0], nameIndex)]) + NameNarratives(defaultLang, ns[1..], nameIndex)
  {
    var x, y := [NameNarrative(defaultLang, ns[0], nameIndex)], NameNarratives(defaultLang, ns[1..], nameIndex);
    assert NameNarratives(defaultLang, ns, nameIndex) == x + y;
    assert before + (x + y) == (before + x) + y;
  }

  /** `get_primary_name` folded over the narratives in document order. */
  function PrimaryNameAfter(env: Env, ns: seq<Element>, name: Option<string>): Option<string>
  {
    if ns == [] then name else PrimaryNameAfter(env, ns[1..], Some(env.primaryName(ns[0], name)))
  }

  /** The loop of the reporting-org handler over the narratives of a newly
      created organisation: each narrative is staged under the organisation
      name, then the organisation's primary name is updated; the first
      failing narrative stops the loop. `org` is the current staged
      `Organisation`, `nameIndex` the position of its `OrganisationName`. */
  function OrganisationNames(env: Env, m: Models, defaultLang: Option<string>, ns: seq<Element>,
                             org: Record, nameIndex: nat): (r: (Step, Record))
    requires org.Organisation? && Filed(m) && Current(m, Of(OrganisationClass)) == Some(org)
    ensures r.1.Organisation? && r.1.(primaryName := org.primaryName) == org
    ensures Filed(r.0.models) && Current(r.0.models, Of(OrganisationClass)) == Some(r.1)
    ensures |ModelList(r.0.models, Of(OrganisationClass))| == |ModelList(m, Of(OrganisationClass))|
    ensures r.0.status.Ok? <==> forall n :: n in ns ==> Accepted(env, defaultLang, n)
    ensures r.0.status.Ok? ==> r.1.primaryName == PrimaryNameAfter(env, ns, org.primaryName)
    ensures r.0.status.Ok? ==>
              ModelList(r.0.models, NarrativesOf(OrganisationNameClass)) ==
              ModelList(m, NarrativesOf(OrganisationNameClass)) + NameNarratives(defaultLang, ns, nameIndex)
    ensures forall k :: k != Of(OrganisationClass) && k != NarrativesOf(OrganisationNameClass) ==>
              ModelList(r.0.models, k) == ModelList(m, k)
    decreases |ns|
  {
    if ns == [] then (Step(Ok, m), org)
    else
      var s := AddNarrativeStep(env, m, defaultLang, ns[0], Some(OrganisationName), nameIndex);
      AcceptedCons(env, defaultLang, ns);
      if s.status.Fail? then (s, org)
      else
        var org' := org.(primaryName := Some(env.primaryName(ns[0], org.primaryName)));
        var m' := NamedOrganisation(env, m, defaultLang, ns[0], org, org', nameIndex);
        NameNarrativesCons(defaultLang, ns, nameIndex, ModelList(m, NarrativesOf(OrganisationNameClass)));
        OrganisationNames(env, m', defaultLang, ns[1..], org', nameIndex)
  }

  /** One pass of the narrative loop that succeeds: the narrative is staged
      and the current organisation replaced by `org'`. */
  function NamedOrganisation(env: Env, m: Models, defaultLang: Option<string>, n: Element,
                             org: Record, org': Record, nameIndex: nat): (m': Models)
    requires org.Organisation? && org'.Organisation? && Filed(m) && Current(m, Of(OrganisationClass)) == Some(org)
    requires AddNarrativeStep(env, m, defaultLang, n, Some(OrganisationName), nameIndex).status.Ok?
    ensures Filed(m') && Current(m', Of(OrganisationClass)) == Some(org')
    ensures |ModelList(m', Of(OrganisationClass))| == |ModelList(m, Of(OrganisationClass))|
    ensures ModelList(m', NarrativesOf(OrganisationNameClass)) ==
              ModelList(m, NarrativesOf(OrganisationNameClass)) + [NameNarrative(defaultLang, n, nameIndex)]
    ensures forall k :: k != Of(OrganisationClass) && k != NarrativesOf(OrganisationNameClass) ==>
              ModelList(m', k) == ModelList(m, k)
  {
    var s := AddNarrativeStep(env, m, defaultLang, n, Some(OrganisationName), nameIndex);
    assert ModelList(s.models, Of(OrganisationClass)) == ModelList(m, Of(OrganisationClass));
    FiledSetLast(s.models, Of(OrganisationClass), org');
    SetLast(s.models, Of(OrganisationClass), org')
  }

  /** One turn of the narrative loop that fails: the loop stops there. */
  lemma OrganisationNamesStops(env: Env, m: Models, defaultLang: Option<string>, ns: seq<Element>,
                               org: Record, nameIndex: nat)
    requires org.Organisation? && Filed(m) && Current(m, Of(OrganisationClass)) == Some(org) && ns != []
    requires AddNarrativeStep(env, m, defaultLang, ns[0], Some(OrganisationName), nameIndex).status.Fail?
    ensures OrganisationNames(env, m, defaultLang, ns, org, nameIndex) ==
              (AddNarrativeStep(env, m, defaultLang, ns[0], Some(OrganisationName), nameIndex), org)
  {
  }

  /** One turn of the narrative loop that succeeds: the narrative is staged
      and the current organisation renamed, and the loop goes on with the
      remaining narratives. */
  lemma OrganisationNamesGoesOn(env: Env, m: Models, defaultLang: Option<string>, ns: seq<Element>,
                                org: Record, nameIndex: nat)
    requires org.Organisation? && Filed(m) && Current(m, Of(OrganisationClass)) == Some(org) && ns != []
    requires AddNarrativeStep(env, m, defaultLang, ns[0], Some(OrganisationName), nameIndex).status.Ok?
    ensures var s := AddNarrativeStep(env, m, defaultLang, ns[0], Some(OrganisationName), nameIndex);
            var org' := org.(primaryName := Some(env.primaryName(ns[0], org.primaryName)));
            && |ModelList(s.models, Of(OrganisationClass))| > 0
            && Filed(SetLast(s.models, Of(OrganisationClass), org'))
            && OrganisationNames(env, m, defaultLang, ns, org, nameIndex) ==
               OrganisationNames(env, SetLast(s.models, Of(OrganisationClass), org'), defaultLang, ns[1..], org', nameIndex)
  {
    var s := AddNarrativeStep(env, m, defaultLang, ns[0], Some(OrganisationName), nameIndex);
    var org' := org.(primaryName := Some(env.primaryName(ns[0], org.primaryName)));
    assert NamedOrganisation(env, m, defaultLang, ns[0], org, org', nameIndex) == SetLast(s.models, Of(OrganisationClass), org');
  }

  /** The parties whose narratives also update their primary name. */
  datatype NamedParty = Participant | Provider | Receiver

  function PartyKind(p: NamedParty): Kind
  {
    match p
    case Participant => Of(ActivityParticipatingOrganisationClass)
    case Provider => Of(TransactionProviderClass)
    case Receiver => Of(TransactionReceiverClass)
  }

  function PartyName(r: Record): Option<string>
  {
    match r
    case ActivityParticipatingOrganisation(_, _, _, _, _, name) => name
    case TransactionProvider(_, _, _, _, _, name) => name
    case TransactionReceiver(_, _, _, _, _, name) => name
    case _ => None
  }

  /** `model.primary_name = name` on a participating organisation, a
      transaction provider or a transaction receiver. */
  predicate IsParty(r: Record)
  {
    r.ActivityParticipatingOrganisation? || r.TransactionProvider? || r.TransactionReceiver?
  }

  function WithPartyName(r: Record, name: string): (r': Record)
    requires IsParty(r)
    ensures ClassOf(r') == ClassOf(r) && PartyName(r') == Some(name)
    ensures r.ActivityParticipatingOrganisation? ==> r' == r.(participantName := Some(name))
    ensures r.TransactionProvider? ==> r' == r.(providerName := Some(name))
    ensures r.TransactionReceiver? ==> r' == r.(receiverName := Some(name))
  {
    match r
    case ActivityParticipatingOrganisation(_, _, _, _, _, _) => r.(participantName := Some(name))
    case TransactionProvider(_, _, _, _, _, _) => r.(providerName := Some(name))
    case TransactionReceiver(_, _, _, _, _, _) => r.(receiverName := Some(name))
  }
}
