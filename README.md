# IATI activity parser: a Dafny model

This project models the parsing and staging engine of OIPA. OIPA imports
IATI activity XML into a database. The engine is the version 2.01 parser,
`Parse` in `OIPA/iati/parser/IATI_2_01.py`, together with its version 1.05
subclass in `OIPA/iati/IATI_1_05.py`.

The parser walks an activity document element by element. For each tag path
(`iati_activities__iati_activity__transaction__value`, ...) it calls the
handler of that name. A handler does one of two things:

- it raises a typed error: `RequiredFieldError`, `ValidationError`, or an
  accidental Python exception;
- it changes the per-activity staging context.

The staging context maps a type name to the records registered under it. The
last record of each list is the "current" record that later handlers look up
and change. When an activity is parsed, stored activities of the same id are
superseded or the incoming one is rejected. At the end of a source, every
stored activity of that source that was not saved during the parse is swept
away.

The model has the following layers:

- `Common` holds the error taxonomy and the XML element. It also holds the
  collaborators the parser consults but which are not part of this model: the
  codelist tables, `validate_date`, `guess_number`, `_normalize`, `makeBool`,
  `get_primary_name`, the currency helper and Python's `int`. They are kept
  abstract as an `Env` of maps and function values.
- `Records` has one constructor per Django model the handlers stage, and the
  model classes. The type names records are registered under are the values
  of `Kind`: a class (`Of(cls)`), or the narratives of a class
  (`NarrativesOf(cls)`, the string `<class name>Narrative`). `KindName` gives
  the string the parser uses.
- `Staging` holds the staged records as `map<Kind, seq<Record>>`, with
  `register_model`, `get_model`, `get_model_list` and `pop_model`. The
  `StagingContext` class changes them in place. `Filed` is the invariant that
  every record sits under its own type name.
- `Store` covers the stored activities: lookup by id and by IATI identifier,
  save, delete and the end-of-source sweep. The `ActivityStore` class changes
  them in place.
- `Supersession` is the timestamp decision for an activity whose id is
  already stored.
- The step functions say what each handler does to the staged records:
  - `ActivityRoot` covers the `iati-activity` handler and the post-save
    passes.
  - `Narratives` covers `add_narrative` and the organisation-name loop.
  - `ActivityHandlers`, `TransactionHandlers` and `ResultHandlers` cover the
    remaining handlers.
  - `Dispatch` is the 2.01 handler table.
- `Parser201.Parser` is the parser object, with one method per handler. The
  methods update the staging context, the stored activities and the default
  language in place. Each method is proved to leave exactly the state its step
  function describes.
- `Tables105`, `Overrides105` and `Parser105.Parser105` are the 1.05 parser:
  - the translation tables;
  - the overriding handlers, which translate 1.05 vocabulary by rewriting the
    element's attributes and then delegate to the 2.01 handler;
  - the parser object, which wraps a 2.01 parser and reaches its state only
    through that parser's methods.

Some behaviour of the code is not what its own messages, comments or
sibling code suggest. The model follows the code:

- **Stored activity without a timestamp, incoming activity with one.** The
  three rejections at `IATI_2_01.py:83-94` name the cases "already exists",
  "newer version exists" and "duplicate activity". No rejection is written
  for a stored activity without a timestamp, which suggests that case means
  "replace". But the test at line 87 then compares `incoming < None`. That
  comparison raises a `TypeError` for a Python 2 datetime, so `Decide`
  rejects with that exception.
- **Transaction classifier fallback.** When a transaction's flow type,
  finance type, aid type or tied status is missing or unknown, the code falls
  back to the activity's `flow_type`, `finance_type`, `aid_type` and
  `tied_status` (`IATI_2_01.py:1456, 1471, 1487, 1503`). It does not fall back
  to the `default_*` fields that the `default-*` handlers write
  (`IATI_2_01.py:968-1022`). `DefaultsNotConsulted` proves that those fields
  are never read.
- **Description type.** The 2.01 handler looks the type up in the Language
  codelist (`IATI_2_01.py:295`). The 1.05 override looks it up in the
  DescriptionType codelist (`IATI_1_05.py:147`).
- **Post-save passes.** They run in the order of the calls at
  `IATI_2_01.py:2092-2098`. The search index is updated before the
  transaction-level country, region and sector allocations are derived.
- **Baseline-comment model class in 1.05.** The 1.05 override asks the
  models module for `ResultIndicatorBaseLineComment` (`IATI_1_05.py:443`).
  The 2.01 parser spells the class `ResultIndicatorBaselineComment`
  (`IATI_2_01.py:1796`). `BaselineCommentStep105` therefore fails with an
  `AttributeError` before `add_narrative_105` is reached.
- **Tag paths without a handler.** The handler dispatch belongs to the base
  parser, which is not part of this model. A path without a handler is
  modelled as leaving the state unchanged (`Handle201`).

## Model

| member | source | states |
|---|---|---|
| Common.AttrOr | OIPA/iati/parser/IATI_2_01.py:216 | the default is used exactly when the attribute is absent, not when it is empty |
| Common.ChildrenTagged | OIPA/iati/parser/IATI_2_01.py:174 | a child is in the result iff it is a child of the element and has the given tag; multiplicity and document order are stated by `ChildrenTaggedCount` and `ChildrenTaggedConcat` |
| Common.ChildrenTaggedCons | OIPA/iati/parser/IATI_2_01.py:174 | the selection of a non-empty list is the head's own selection followed by the selection of the tail |
| Common.ChildrenTaggedCount | OIPA/iati/parser/IATI_2_01.py:174 | every child with the tag occurs in the result exactly as often as among the children; a child with another tag never occurs |
| Common.ChildrenTaggedConcat | OIPA/iati/parser/IATI_2_01.py:174 | selecting from a concatenation is the concatenation of the selections, so the result keeps document order |
| Common.ChildrenTaggedFrom | OIPA/iati/parser/IATI_2_01.py:174 | the same, for a list of children: membership both ways (multiplicity and order in the two lemmas above) |
| Common.Lookup | OIPA/iati/parser/IATI_2_01.py:151 | a codelist lookup succeeds iff the code is present and listed, and then yields the code itself |
| Common.LowerChar | OIPA/iati/parser/IATI_2_01.py:26 | a capital `A`-`Z` becomes the small letter at the same alphabet position; every other character is kept |
| Common.Lower | OIPA/iati/parser/IATI_2_01.py:26 | lower-casing keeps the length and maps each character by `LowerChar` |
| Common.LowerIdempotent | OIPA/iati/parser/IATI_2_01.py:26-30 | lower-casing twice, as `add_narrative` does, equals lower-casing once |
| Records.WithDate | OIPA/iati/parser/IATI_2_01.py:393-401 | exactly the chosen date field of the activity is set; every other field is kept |
| Records.WithDefaultClassifier | OIPA/iati/parser/IATI_2_01.py:968-1022 | exactly the `default_*` field of the classifier is set; every other field is kept |
| Records.WithTransactionClassifier | OIPA/iati/parser/IATI_2_01.py:1448-1508 | exactly the transaction's field for the classifier is set; reference and value are kept |
| Staging.Current | OIPA/iati/parser/IATI_2_01.py:133 | `get_model` yields a record iff the type's list is non-empty, and then its last record |
| Staging.Append | OIPA/iati/parser/IATI_2_01.py:119 | `register_model` appends to that type's list only, and the record becomes current |
| Staging.DropLast | OIPA/iati/parser/IATI_2_01.py:1784 | `pop_model` removes the last record of that type only |
| Staging.SetLast | OIPA/iati/parser/IATI_2_01.py:134 | assigning a field of the current record replaces the last slot only; the count and the earlier records are kept |
| Staging.FiledAppend | OIPA/iati/parser/IATI_2_01.py:119 | registering a record under its own type name keeps every record filed under its own name |
| Staging.FiledSetLast | OIPA/iati/parser/IATI_2_01.py:134 | replacing the current record by one of the same type keeps the staging filed |
| Staging.FiledDropLast | OIPA/iati/parser/IATI_2_01.py:1784 | popping keeps the staging filed |
| Staging.FiledCurrent | OIPA/iati/parser/IATI_2_01.py:133 | in a filed staging, the current record of a type is registered under that type |
| Staging.CurrentHasClass | OIPA/iati/parser/IATI_2_01.py:133 | in a filed staging, `get_model(<class name>)` returns an instance of that class |
| Staging.ReplacedThenAppended | OIPA/iati/parser/IATI_2_01.py:385-403 | a replacement of one type's current record survives a later append to another type |
| Staging.Stage | OIPA/iati/parser/IATI_2_01.py:119 | registering a record appends it under its own name and changes nothing else; filing is kept |
| Staging.FiledAppendWhen | OIPA/iati/parser/IATI_2_01.py:119 | filing is kept by a register under the record's own name |
| Staging.Replace | OIPA/iati/parser/IATI_2_01.py:134 | a field assignment replaces the current record in place and changes nothing else; filing is kept |
| Staging.FiledSetLastWhen | OIPA/iati/parser/IATI_2_01.py:134 | filing is kept by a replacement of the same type |
| Staging.PopThenRegister | OIPA/iati/parser/IATI_2_01.py:1784-1788 | a pop followed by a register under the same name equals replacing the last slot; the count is unchanged |
| Staging.PopRegisterReplaces | OIPA/iati/parser/IATI_2_01.py:1784-1788 | a pop followed by a re-register replaces the current record in place |
| Staging.PopRegister | OIPA/iati/parser/IATI_2_01.py:1784-1788 | pop, update and re-register replaces the current record in place, keeps everything else and keeps filing |
| Staging.PopRegisterFiled | OIPA/iati/parser/IATI_2_01.py:1784-1788 | a pop followed by a re-register under the record's own name keeps filing |
| Staging.StagingContext.constructor | OIPA/iati/parser/IATI_2_01.py:20-21 | a new context is empty and filed |
| Staging.StagingContext.RegisterModel | OIPA/iati/parser/IATI_2_01.py:119 | the new state is `Append` of the old one; filing is kept when the name is the record's own |
| Staging.StagingContext.PopModel | OIPA/iati/parser/IATI_2_01.py:1784 | returns the old current record (None when there is none, with nothing changed) and drops it; filing is kept |
| Staging.StagingContext.UpdateCurrent | OIPA/iati/parser/IATI_2_01.py:134 | the new state is the old one with the last slot of that type replaced; filing is kept |
| Store.Find | OIPA/iati/parser/IATI_2_01.py:76 | finds a stored activity with the id iff one exists |
| Store.ByIatiIdentifier | OIPA/iati/parser/IATI_2_01.py:1600 | the link is the id of a stored activity with that IATI identifier; it is absent iff no stored activity has that identifier |
| Store.Touch | OIPA/iati/parser/IATI_2_01.py:78-81 | a save sets `last_updated_model` of that activity to now and leaves every other field and activity alone |
| Store.Without | OIPA/iati/parser/IATI_2_01.py:100-101 | a delete removes exactly the activities with that id |
| Store.Retained | OIPA/iati/parser/IATI_2_01.py:2118-2120 | the sweep keeps exactly the activities that are not stale (of another source, or saved at or after the parse start) |
| Store.SavedSurvivesSweep | OIPA/iati/parser/IATI_2_01.py:2108-2120 | an activity saved (lines 78-81) at or after the parse start survives the sweep |
| Store.TouchThenDelete | OIPA/iati/parser/IATI_2_01.py:78-101 | save then delete equals delete alone |
| Store.ActivityStore.constructor | OIPA/iati/parser/IATI_2_01.py:76 | the store holds the given activities |
| Store.ActivityStore.Save | OIPA/iati/parser/IATI_2_01.py:81 | the new store is `Touch` of the old one |
| Store.ActivityStore.Delete | OIPA/iati/parser/IATI_2_01.py:101 | the new store is `Without` of the old one |
| Store.ActivityStore.DeleteStale | OIPA/iati/parser/IATI_2_01.py:2108-2120 | the loop leaves `Retained` of the old store: no stale activity remains, and every other activity is kept |
| Supersession.Decide | OIPA/iati/parser/IATI_2_01.py:76-101 | nothing stored: stage. Forced: replace. Equal timestamps: "no need to update". Older incoming: "newer version exists". Incoming absent while stored present: "duplicate activity". Stored absent while incoming present: TypeError. Every rejection is one of these |
| Supersession.ReplaceExactlyWhenNewer | OIPA/iati/parser/IATI_2_01.py:83-96 | without force, a stored activity is replaced iff the incoming timestamp is strictly newer, or neither has one |
| Supersession.ForceIgnoresTimestamps | OIPA/iati/parser/IATI_2_01.py:78-101 | with force the decision does not depend on the timestamps and never rejects |
| ActivityRoot.IdentifierTexts | OIPA/iati/parser/IATI_2_01.py:65 | the non-empty texts of the `iati-identifier` children; non-empty iff such a child exists |
| ActivityRoot.FirstIdentifierText | OIPA/iati/parser/IATI_2_01.py:65 | the first text taken is that of the first `iati-identifier` child with a non-empty text, in document order |
| ActivityRoot.ReadHeader | OIPA/iati/parser/IATI_2_01.py:65-74 | no identifier text gives IndexError. Then no xml:lang gives AttributeError. Then an id that normalises to nothing gives `RequiredFieldError("id")`. Otherwise the header has the normalised id, the lower-cased language and the validated attributes |
| ActivityRoot.NewActivity | OIPA/iati/parser/IATI_2_01.py:105-116 | the staged activity carries the header, the source reference and the version; the hierarchy is kept only when non-empty; every field a child handler sets is empty |
| ActivityRoot.StoredTimestamp | OIPA/iati/parser/IATI_2_01.py:76-96 | the stored timestamp is present iff an activity with the id is stored |
| ActivityRoot.ActivityStep | OIPA/iati/parser/IATI_2_01.py:55-120 | a header error changes nothing. A rejection keeps only the save made before the checks. An acceptance leaves the store as a plain delete of the id, stages one new `Activity` and sets the default language |
| ActivityRoot.RestageDeletes | OIPA/iati/parser/IATI_2_01.py:78-101 | whatever the save before the checks did, an accepted activity leaves the store as deleting its id does |
| ActivityRoot.NothingToDelete | OIPA/iati/parser/IATI_2_01.py:100-101 | deleting an id that is not stored changes nothing |
| ActivityRoot.AcceptedLeavesNoStoredCopy | OIPA/iati/parser/IATI_2_01.py:100-119 | after an accepted activity no stored activity carries its id |
| ActivityRoot.RejectedDuplicateSurvivesSweep | OIPA/iati/parser/IATI_2_01.py:78-96 | a stored activity whose incoming duplicate was rejected survives the end-of-source sweep of lines 2118-2120 |
| ActivityRoot.PostSaveModels | OIPA/iati/parser/IATI_2_01.py:2086-2098 | no passes without a staged activity. Otherwise all seven passes, each once, in the call order of the source (strictly increasing `PassRank`): `set_related_activities`, `set_transaction_provider_receiver_activity`, `set_derived_activity_dates`, `set_activity_aggregations`, `update_activity_search_index`, `set_country_region_transaction`, `set_sector_transaction` |
| ActivityRoot.EveryPassListed | OIPA/iati/parser/IATI_2_01.py:2092-2098 | every post-save pass is in the list |
| Narratives.AddNarrativeStep | OIPA/iati/parser/IATI_2_01.py:23-53 | no language at all gives AttributeError. Then a missing parent, an unknown language and an empty text raise, in that order. Success iff parent, language and text are all present, and then exactly one `Narrative` with that content is appended under `<parent class>Narrative` |
| Narratives.FiledAppendIf | OIPA/iati/parser/IATI_2_01.py:53 | a narrative registered under its parent's narrative name keeps filing |
| Narratives.OrganisationNames | OIPA/iati/parser/IATI_2_01.py:177-180 | the narrative loop keeps the organisation count. It succeeds iff every narrative element is accepted (non-empty text, known language). On success the staged narratives are the old ones followed by exactly `NameNarratives` of the elements, in order, and the primary name is `get_primary_name` folded over them. It touches no other type |
| Narratives.NameNarratives | OIPA/iati/parser/IATI_2_01.py:177-179 | one narrative record per element, in order, each with the element's text and effective language, attached to the given organisation name |
| Narratives.AcceptedCons | OIPA/iati/parser/IATI_2_01.py:177-179 | every element of a non-empty list is accepted iff the head is and every element of the tail is |
| Narratives.NameNarrativesCons | OIPA/iati/parser/IATI_2_01.py:177-179 | appending the records of a non-empty list is appending the head's record, then the tail's records |
| Narratives.NamedOrganisation | OIPA/iati/parser/IATI_2_01.py:178-180 | one turn of the loop stages exactly the element's narrative record after the old ones and replaces the current organisation |
| Narratives.OrganisationNamesStops | OIPA/iati/parser/IATI_2_01.py:177-179 | the first failing narrative ends the loop with its error |
| Narratives.OrganisationNamesGoesOn | OIPA/iati/parser/IATI_2_01.py:177-180 | a succeeding narrative renames the organisation and the loop goes on with the rest |
| Narratives.WithPartyName | OIPA/iati/parser/IATI_2_01.py:251 | `primary_name` of a participant, provider or receiver is set and its class kept |
| ActivityHandlers.IatiIdentifierStep | OIPA/iati/parser/IATI_2_01.py:123-136 | empty text raises. With no activity there is an AttributeError. Otherwise the identifier is set on the current activity in place |
| ActivityHandlers.TitleStep | OIPA/iati/parser/IATI_2_01.py:255-274 | a staged title makes a second one a ValidationError, so at most one `Title` is ever staged |
| ActivityHandlers.DescriptionTypeCode | OIPA/iati/parser/IATI_2_01.py:294 | the type attribute, "1" when absent |
| ActivityHandlers.DescriptionStep | OIPA/iati/parser/IATI_2_01.py:288-303 | always stages one `Description`, with its type looked up in the Language codelist |
| ActivityHandlers.OtherIdentifierStep | OIPA/iati/parser/IATI_2_01.py:314-332 | fails iff `ref` is missing or empty; otherwise appends one `OtherIdentifier` |
| ActivityHandlers.OwnerOrgStep | OIPA/iati/parser/IATI_2_01.py:334-346 | a missing ref raises. With no other identifier there is an AttributeError. Otherwise `owner_ref` is set on the current other identifier in place |
| ActivityHandlers.DateFieldOf | OIPA/iati/parser/IATI_2_01.py:393-401 | codes 1, 2, 3 and 4 go to planned start, actual start, planned end and actual end; any other code goes to no field |
| ActivityHandlers.ActivityDateStep | OIPA/iati/parser/IATI_2_01.py:372-404 | an invalid iso-date raises first, then an unknown type. On success exactly one `ActivityDate` is appended. Codes 1 to 4 replace the current activity by one with that date field set; any other code leaves the activities alone. It succeeds iff the date is valid, the type is known and, for codes 1 to 4, an activity is current; a failure changes nothing |
| ActivityHandlers.DatedActivity | OIPA/iati/parser/IATI_2_01.py:393-403 | the date is copied onto the current activity in place and one date is appended; nothing else changes |
| ActivityHandlers.ParticipatingOrgStep | OIPA/iati/parser/IATI_2_01.py:209-240 | fails iff the role is unknown; otherwise one participating organisation is appended with ref defaulting to "" and an optional organisation link |
| ActivityHandlers.DefaultClassifierStep | OIPA/iati/parser/IATI_2_01.py:968-1022 | an unknown code raises. Succeeds iff the code is known and an activity is staged, and then only the `default_*` field is set |
| ActivityHandlers.SectorStep | OIPA/iati/parser/IATI_2_01.py:837-859 | unknown sector, then unknown vocabulary (default "1"), raise; it succeeds iff both codes are known, and then one sector is appended; a failure changes nothing |
| ActivityHandlers.RecipientRegionStep | OIPA/iati/parser/IATI_2_01.py:600-622 | unknown region, then unknown vocabulary (default "1"), raise; it succeeds iff both codes are known, and then one region is appended; a failure changes nothing |
| ActivityHandlers.RecipientCountryStep | OIPA/iati/parser/IATI_2_01.py:578-598 | fails iff the country is unknown; otherwise one country is appended |
| ActivityHandlers.NarrativeStep | OIPA/iati/parser/IATI_2_01.py:199-207 | (and likewise the title, description, owner-org and activity-date narratives) a narrative handler is `add_narrative` on the current record of its parent type, at that record's position |
| ActivityHandlers.PartyNarrativeStep | OIPA/iati/parser/IATI_2_01.py:243-253 | (likewise the provider and receiver narratives) fails as the narrative does and then changes nothing. On success the narrative is staged and the party's primary name is updated in place |
| ActivityHandlers.Renamed | OIPA/iati/parser/IATI_2_01.py:251 | the party's primary name is replaced in place after its narrative |
| ActivityHandlers.PartyIsParty | OIPA/iati/parser/IATI_2_01.py:247 | the current record of a party type is a participant, provider or receiver |
| ActivityHandlers.NewOrganisation | OIPA/iati/parser/IATI_2_01.py:161-166 | the created organisation carries the given primary name |
| ActivityHandlers.ReportingOrgStep | OIPA/iati/parser/IATI_2_01.py:138-196 | a missing ref raises. A stored organisation gets only the reporting organisation appended. Otherwise an organisation, its name and its narratives are created first, and the step succeeds iff every narrative is accepted; then exactly the narratives' records are staged, in order, followed by the reporting organisation |
| ActivityHandlers.CreateThenReport | OIPA/iati/parser/IATI_2_01.py:156-194 | the creation branch: one organisation and one name whatever happens; success iff every narrative is accepted, and then the primary name, exactly the narratives' records in order, and the reporting organisation |
| ActivityHandlers.ReportedAfterCreated | OIPA/iati/parser/IATI_2_01.py:184-194 | registering the reporting organisation after the creation keeps what the creation did |
| ActivityHandlers.ReportingKeepsOrganisation | OIPA/iati/parser/IATI_2_01.py:194 | registering the reporting organisation leaves organisations, names and their narratives alone |
| ActivityHandlers.StageReporting | OIPA/iati/parser/IATI_2_01.py:185-194 | exactly one reporting organisation is appended |
| ActivityHandlers.CreateOrganisation | OIPA/iati/parser/IATI_2_01.py:159-182 | one organisation and one organisation name are added. No reporting organisation is added. It succeeds iff every narrative is accepted. On success the primary name is the ref when there are no narratives, else the folded name, and exactly the narratives' records are staged, in order |
| ActivityHandlers.CreateUnnamed | OIPA/iati/parser/IATI_2_01.py:159-182 | without narratives the primary name is the ref and no narrative is staged |
| ActivityHandlers.CreateNamed | OIPA/iati/parser/IATI_2_01.py:159-180 | with narratives, success iff every one is accepted; then the primary name is `get_primary_name` folded over them and exactly their records are staged, in order |
| ActivityHandlers.CreateOrganisationCases | OIPA/iati/parser/IATI_2_01.py:176-182 | the creation splits on whether the element has narratives |
| ActivityHandlers.UnnamedOrganisation | OIPA/iati/parser/IATI_2_01.py:181-182 | the primary name becomes the ref, in place |
| ActivityHandlers.NamedOrganisations | OIPA/iati/parser/IATI_2_01.py:176-180 | the narrative loop from a fresh organisation succeeds iff every narrative is accepted, stages exactly their records for the new name, and ends in the organisation named by the fold |
| ActivityHandlers.StageOrganisation | OIPA/iati/parser/IATI_2_01.py:171-172 | the organisation and then one organisation name are registered; nothing else changes |
| ActivityHandlers.NamedAfter | OIPA/iati/parser/IATI_2_01.py:180 | an organisation that differs only in its primary name is the renamed organisation |
| TransactionHandlers.TransactionStep | OIPA/iati/parser/IATI_2_01.py:1188-1201 | always appends one transaction carrying its `ref` |
| TransactionHandlers.WithValue | OIPA/iati/parser/IATI_2_01.py:1251-1255 | (likewise lines 1084-1088 and 1166-1170) exactly the value of a transaction, budget or planned disbursement is set |
| TransactionHandlers.ValueStep | OIPA/iati/parser/IATI_2_01.py:1232-1264 | (likewise the budget and planned-disbursement values) missing number, then invalid value-date, then unresolved currency raise, with nothing changed. Succeeds iff all resolve and a record is current, and then that record's value is set in place |
| TransactionHandlers.ReplaceValue | OIPA/iati/parser/IATI_2_01.py:1251-1255 | the current valued record is replaced by its valued copy |
| TransactionHandlers.ClassifierStep | OIPA/iati/parser/IATI_2_01.py:1448-1508 | a known code is used. On a miss, the activity's own field is used. When both are missing, `RequiredFieldError("code")` with nothing changed. On success only that classifier of the current transaction changes, in place |
| TransactionHandlers.ReplaceClassifier | OIPA/iati/parser/IATI_2_01.py:1459-1461 | the current transaction gets the classifier code, in place |
| TransactionHandlers.DefaultsNotConsulted | OIPA/iati/parser/IATI_2_01.py:1448-1508 | changing a `default_*` field of the activity changes neither the outcome nor the transactions |
| TransactionHandlers.SameClassifierInputs | OIPA/iati/parser/IATI_2_01.py:1448-1508 | the outcome depends only on the activity's own classifier field and the staged transactions |
| TransactionHandlers.TransactionSectorStep | OIPA/iati/parser/IATI_2_01.py:1381-1402 | vocabulary defaults to "1"; success iff sector and vocabulary are known, and then the allocation is 100 percent and reported on the transaction; a failure changes nothing |
| TransactionHandlers.TransactionCountryStep | OIPA/iati/parser/IATI_2_01.py:1404-1421 | fails iff the country is unknown; 100 percent, reported on the transaction |
| TransactionHandlers.TransactionRegionStep | OIPA/iati/parser/IATI_2_01.py:1423-1446 | vocabulary defaults to "1"; success iff region and vocabulary are known, and then 100 percent, reported on the transaction; a failure changes nothing |
| TransactionHandlers.PartyStep | OIPA/iati/parser/IATI_2_01.py:1287-1350 | never fails. Appends one provider or receiver whose activity reference is kept as text, with an optional link to a stored activity |
| TransactionHandlers.RelatedActivityStep | OIPA/iati/parser/IATI_2_01.py:1585-1607 | unknown type, then missing ref, raise; success iff the type is known and the ref is given, and a failure changes nothing. The reference is kept as text, and the link is absent iff no stored activity has that identifier |
| TransactionHandlers.BudgetStep | OIPA/iati/parser/IATI_2_01.py:1024-1039 | always appends one budget, with its type possibly unknown |
| TransactionHandlers.PlannedDisbursementStep | OIPA/iati/parser/IATI_2_01.py:1101-1117 | always appends one planned disbursement, with its type possibly unknown |
| ResultHandlers.ResultStep | OIPA/iati/parser/IATI_2_01.py:1660-1673 | fails iff the result type is unknown; otherwise appends one result |
| ResultHandlers.IndicatorStep | OIPA/iati/parser/IATI_2_01.py:1717-1730 | fails iff the measure is unknown; `ascending` defaults to "1" |
| ResultHandlers.ResultPartStep | OIPA/iati/parser/IATI_2_01.py:1678-1684 | (likewise the other result, indicator and period holders) always appends one holder record, which becomes the current parent of the narratives below it |
| ResultHandlers.PeriodStep | OIPA/iati/parser/IATI_2_01.py:1814-1820 | always appends one empty period |
| ResultHandlers.BaselineStep | OIPA/iati/parser/IATI_2_01.py:1777-1789 | missing year, then missing value, raise before the pop. A year that is not a number loses the popped indicator. On success the current indicator is replaced in place and the count is unchanged |
| ResultHandlers.BaselinePopped | OIPA/iati/parser/IATI_2_01.py:1784-1788 | the pop, conversion and re-register. ValueError leaves the indicator popped. Success iff the year converts and an indicator is staged |
| ResultHandlers.PeriodDateStep | OIPA/iati/parser/IATI_2_01.py:1826-1850 | a missing date raises before the pop, with nothing changed. On success the current period's start or end is set in place |
| ResultHandlers.PeriodValueStep | OIPA/iati/parser/IATI_2_01.py:1856-1900 | a missing value raises before the pop. On success the target or actual of the current period is overwritten in place |
| ResultHandlers.RepeatedTargetOverwrites | OIPA/iati/parser/IATI_2_01.py:1856-1865 | two targets leave the period count unchanged and keep only the second value |
| Dispatch.Run | OIPA/iati/parser/IATI_2_01.py:55-1920 | each handler keeps filing; only the activity handler touches the store and the default language |
| Dispatch.ActivityChildStep | OIPA/iati/parser/IATI_2_01.py:123-859 | the handlers of the children of an activity keep filing |
| Dispatch.TransactionChildStep | OIPA/iati/parser/IATI_2_01.py:1024-1607 | the handlers of transactions, budgets and related activities keep filing |
| Dispatch.ResultChildStep | OIPA/iati/parser/IATI_2_01.py:1660-1900 | the handlers of results, indicators and periods keep filing |
| Dispatch.Handle201 | OIPA/iati/parser/IATI_2_01.py:55-1920 | a path without a handler changes nothing; a child path changes neither the store nor the default language |
| Parser201.Parser.constructor | OIPA/iati/parser/IATI_2_01.py:20-21 | nothing is staged, there is no default language, and the store is as given |
| Parser201.Parser.Register | OIPA/iati/parser/IATI_2_01.py:119 | the context becomes `Stage` of the old one and stays filed |
| Parser201.Parser.Assign | OIPA/iati/parser/IATI_2_01.py:134 | the context becomes `Replace` of the old one and stays filed |
| Parser201.Parser.AddNarrative | OIPA/iati/parser/IATI_2_01.py:23-53 | leaves exactly what `AddNarrativeStep` says, using `LowerIdempotent` for the second lower-casing |
| Parser201.Parser.IatiActivity | OIPA/iati/parser/IATI_2_01.py:55-120 | saves, deletes and stages in place, leaving the state `ActivityStep` gives |
| Parser201.Parser.IatiIdentifier | OIPA/iati/parser/IATI_2_01.py:123-136 | leaves the state `IatiIdentifierStep` gives |
| Parser201.Parser.ReportingOrg | OIPA/iati/parser/IATI_2_01.py:138-196 | leaves the state `ReportingOrgStep` gives |
| Parser201.Parser.CreateOrganisation | OIPA/iati/parser/IATI_2_01.py:159-182 | leaves the state the function `CreateOrganisation` gives |
| Parser201.Parser.RegisterOrganisation | OIPA/iati/parser/IATI_2_01.py:171-172 | leaves the state `StageOrganisation` gives |
| Parser201.Parser.NameOrganisation | OIPA/iati/parser/IATI_2_01.py:176-180 | the loop over the narratives leaves the state and name `OrganisationNames` gives |
| Parser201.Parser.ParticipatingOrg | OIPA/iati/parser/IATI_2_01.py:209-240 | leaves the state `ParticipatingOrgStep` gives |
| Parser201.Parser.Title | OIPA/iati/parser/IATI_2_01.py:255-274 | leaves the state `TitleStep` gives |
| Parser201.Parser.Description | OIPA/iati/parser/IATI_2_01.py:288-303 | leaves the state `DescriptionStep` gives |
| Parser201.Parser.OtherIdentifier | OIPA/iati/parser/IATI_2_01.py:314-332 | leaves the state `OtherIdentifierStep` gives |
| Parser201.Parser.OwnerOrg | OIPA/iati/parser/IATI_2_01.py:334-346 | leaves the state `OwnerOrgStep` gives |
| Parser201.Parser.ActivityDate | OIPA/iati/parser/IATI_2_01.py:372-404 | leaves the state `ActivityDateStep` gives |
| Parser201.Parser.DefaultClassifier | OIPA/iati/parser/IATI_2_01.py:968-1022 | leaves the state `DefaultClassifierStep` gives |
| Parser201.Parser.Sector | OIPA/iati/parser/IATI_2_01.py:837-859 | leaves the state `SectorStep` gives |
| Parser201.Parser.RecipientRegion | OIPA/iati/parser/IATI_2_01.py:600-622 | leaves the state `RecipientRegionStep` gives |
| Parser201.Parser.RecipientCountry | OIPA/iati/parser/IATI_2_01.py:578-598 | leaves the state `RecipientCountryStep` gives |
| Parser201.Parser.NarrativeOf | OIPA/iati/parser/IATI_2_01.py:199-207 | leaves the state `NarrativeStep` gives |
| Parser201.Parser.PartyNarrative | OIPA/iati/parser/IATI_2_01.py:243-253 | leaves the state `PartyNarrativeStep` gives |
| Parser201.Parser.Transaction | OIPA/iati/parser/IATI_2_01.py:1188-1201 | leaves the state `TransactionStep` gives |
| Parser201.Parser.Value | OIPA/iati/parser/IATI_2_01.py:1232-1264 | leaves the state `ValueStep` gives |
| Parser201.Parser.TransactionClassifier | OIPA/iati/parser/IATI_2_01.py:1448-1508 | leaves the state `ClassifierStep` gives |
| Parser201.Parser.TransactionSector | OIPA/iati/parser/IATI_2_01.py:1381-1402 | leaves the state `TransactionSectorStep` gives |
| Parser201.Parser.TransactionCountry | OIPA/iati/parser/IATI_2_01.py:1404-1421 | leaves the state `TransactionCountryStep` gives |
| Parser201.Parser.TransactionRegion | OIPA/iati/parser/IATI_2_01.py:1423-1446 | leaves the state `TransactionRegionStep` gives |
| Parser201.Parser.Party | OIPA/iati/parser/IATI_2_01.py:1287-1350 | leaves the state `PartyStep` gives |
| Parser201.Parser.RelatedActivity | OIPA/iati/parser/IATI_2_01.py:1585-1607 | leaves the state `RelatedActivityStep` gives |
| Parser201.Parser.Budget | OIPA/iati/parser/IATI_2_01.py:1024-1039 | leaves the state `BudgetStep` gives |
| Parser201.Parser.PlannedDisbursement | OIPA/iati/parser/IATI_2_01.py:1101-1117 | leaves the state `PlannedDisbursementStep` gives |
| Parser201.Parser.Result | OIPA/iati/parser/IATI_2_01.py:1660-1673 | leaves the state `ResultStep` gives |
| Parser201.Parser.Indicator | OIPA/iati/parser/IATI_2_01.py:1717-1730 | leaves the state `IndicatorStep` gives |
| Parser201.Parser.ResultPart | OIPA/iati/parser/IATI_2_01.py:1678-1684 | leaves the state `ResultPartStep` gives |
| Parser201.Parser.Baseline | OIPA/iati/parser/IATI_2_01.py:1777-1789 | leaves the state `BaselineStep` gives |
| Parser201.Parser.PopBaseline | OIPA/iati/parser/IATI_2_01.py:1784-1788 | the pop, `int(year)` and re-register leave the state `BaselinePopped` gives |
| Parser201.Parser.Period | OIPA/iati/parser/IATI_2_01.py:1814-1820 | leaves the state `PeriodStep` gives |
| Parser201.Parser.PeriodDate | OIPA/iati/parser/IATI_2_01.py:1826-1850 | pop and re-register leave the state `PeriodDateStep` gives |
| Parser201.Parser.PeriodValue | OIPA/iati/parser/IATI_2_01.py:1856-1900 | pop and re-register leave the state `PeriodValueStep` gives |
| Parser201.Parser.Handle | OIPA/iati/parser/IATI_2_01.py:55-1920 | calling the handler of a tag path leaves the state `Handle201` gives |
| Parser201.Parser.RunHandler | OIPA/iati/parser/IATI_2_01.py:55-1920 | leaves the state `Run` gives |
| Parser201.Parser.RunActivityPart | OIPA/iati/parser/IATI_2_01.py:123-859 | leaves the state `ActivityChildStep` gives |
| Parser201.Parser.RunTransactionPart | OIPA/iati/parser/IATI_2_01.py:1024-1607 | leaves the state `TransactionChildStep` gives |
| Parser201.Parser.RunResultPart | OIPA/iati/parser/IATI_2_01.py:1660-1900 | leaves the state `ResultChildStep` gives |
| Parser201.Parser.PostSave | OIPA/iati/parser/IATI_2_01.py:2086-2098 | returns the passes `PostSaveModels` lists, in order |
| Parser201.Parser.DeleteRemovedActivities | OIPA/iati/parser/IATI_2_01.py:2108-2120 | afterwards no stale activity of the source remains, and every other activity is kept |
| Tables105.DateTypeCode | OIPA/iati/IATI_1_05.py:164-169 | a code exists iff the name is one of the four; it is then one of "1" to "4" |
| Tables105.DateNamesReachTheirFields | OIPA/iati/IATI_1_05.py:164-173 | translating a name and reading the 2.01 code reaches the field the name describes; exactly the four names have a field |
| Tables105.TransactionTypesOneToOne | OIPA/iati/IATI_1_05.py:30-41 | ten letters go one-to-one onto 1 to 10 |
| Tables105.TransactionLettersCount | OIPA/iati/IATI_1_05.py:30-41 | the table has ten entries |
| Tables105.TransactionLettersInverse | OIPA/iati/IATI_1_05.py:30-41 | each letter is recovered from its code |
| Tables105.TransactionCodes | OIPA/iati/IATI_1_05.py:30-41 | the codes are exactly 1 to 10 |
| Tables105.SectorVocabulariesDistinct | OIPA/iati/IATI_1_05.py:18-28 | distinct vocabulary names have distinct codes |
| Overrides105.WithAttr | OIPA/iati/IATI_1_05.py:171 | rewriting one attribute keeps every other attribute, the text and the children |
| Overrides105.ActivityDateStep105 | OIPA/iati/IATI_1_05.py:164-178 | an unknown type name raises `RequiredFieldError("type")` before the date is read. Otherwise the 2.01 handler runs on the translated element, then a narrative of the staged date |
| Overrides105.DateNameSetsItsField | OIPA/iati/IATI_1_05.py:164-178 | on success the date lands on the activity field the type name describes, and one date and one narrative are staged |
| Overrides105.BaseDateSetsField | OIPA/iati/parser/IATI_2_01.py:393-403 | the 2.01 handler with a code of a field sets that field and makes the staged date current |
| Overrides105.DateNarrativeKeepsDates | OIPA/iati/IATI_1_05.py:175-176 | the narrative of the date leaves activities and dates alone and stages one narrative |
| Overrides105.WithDateSets | OIPA/iati/parser/IATI_2_01.py:393-401 | setting a date field and reading it back yields the date |
| Overrides105.NarrativeKeepsOthers | OIPA/iati/parser/IATI_2_01.py:23-53 | a narrative stages one record under its parent's narrative name and nothing else |
| Overrides105.RoleCode | OIPA/iati/IATI_1_05.py:82-83 | the role code exists iff the role name is known |
| Overrides105.ParticipatingOrgStep105 | OIPA/iati/IATI_1_05.py:80-94 | an unknown role name raises with nothing staged. Otherwise the role is rewritten to its code and the 2.01 handler runs. When that stages the participant, the misspelled name raises NameError |
| Overrides105.ReportingOrgStep105 | OIPA/iati/IATI_1_05.py:66-72 | the 2.01 handler runs and its staging stays; its error, else NameError |
| Overrides105.OtherIdentifierStep105 | OIPA/iati/IATI_1_05.py:100-118 | missing text raises first, then neither owner-ref nor owner-name; nothing is ever staged |
| Overrides105.TextRequired105 | OIPA/iati/IATI_1_05.py:123-157 | the title and description overrides: empty text raises `RequiredFieldError("text")`; otherwise the NameError; no title or description is ever staged |
| Overrides105.DescriptionType105 | OIPA/iati/IATI_1_05.py:143-147 | the type attribute, 1 when absent, is looked up in the description types |
| Overrides105.ParentModelStep | OIPA/iati/IATI_1_05.py:398-468 | (likewise provider-org and receiver-org at lines 329-356; the baseline comment has its own row) the overrides starting with `get_func_parent_model` fail with what it raises when it does, and otherwise with the `NameError` of `add_narrative_105`; they change nothing in the staged models (the assignments to the parent model are listed under Left out) |
| Overrides105.BaselineCommentStep105 | OIPA/iati/IATI_1_05.py:441-446 | the baseline-comment override fails with what `get_func_parent_model` raises when it does; otherwise with an `AttributeError` for `ResultIndicatorBaseLineComment`, which the models module spells `ResultIndicatorBaselineComment` (`IATI_2_01.py:1796`), so `add_narrative_105` is never reached; nothing is staged |
| Overrides105.Run105 | OIPA/iati/IATI_1_05.py:66-178 | overrides touch neither the store nor the default language; all but activity-date fail |
| Overrides105.Handle105 | OIPA/iati/IATI_1_05.py:1-6 | keeps filing; every overridden path other than activity-date ends in an error, and the baseline-comment path, when the parent lookup raises nothing, ends in the `AttributeError` of the misspelled model class |
| Parser105.Parser105.constructor | OIPA/iati/IATI_1_05.py:6-9 | a 2.01 parser configured with version 1.05 and an empty staging |
| Parser105.Parser105.ActivityDate | OIPA/iati/IATI_1_05.py:164-178 | the element is rewritten and the 2.01 methods are called, leaving the state `ActivityDateStep105` gives |
| Parser105.Parser105.ParticipatingOrg | OIPA/iati/IATI_1_05.py:80-94 | leaves the state `ParticipatingOrgStep105` gives |
| Parser105.Parser105.ReportingOrg | OIPA/iati/IATI_1_05.py:66-72 | leaves the state `ReportingOrgStep105` gives |
| Parser105.Parser105.Handle | OIPA/iati/IATI_1_05.py:1-6 | leaves the state `Handle105` gives; on a path that is not overridden, exactly what the 2.01 parser's `Handle201` gives |
| Parser105.Parser105.Override | OIPA/iati/IATI_1_05.py:66-178 | leaves the state `Run105` gives |

## Left out

- The handlers not listed in the 2.01 handler table are not modelled: activity status, contact info, activity scope, location, country budget items, policy marker, collaboration type, the period start and end of budgets and planned disbursements, capital spend, transaction type, transaction date, transaction description, disbursement channel and document link. Each has the same shape as a modelled handler: guards on codelist lookups, then a register or an assignment. A tag path of theirs is treated as a path without a handler.
- Currency conversion of values into six currencies (`IATI_2_01.py:1092-1097, 1257-1262`) is a foreign, rate-based decimal computation and is not modelled; `ValueStep` stages the value as given.
- Point geometry and the float parsing of coordinates are not modelled: they need a geometry library and floating point.
- The base parser class (`register_model`, `get_model`, `pop_model`, `get_or_none`, `validate_date`, `guess_number`, `_normalize`, `makeBool`, `get_primary_name`, `_get_currency_or_raise`) is not part of this model. The staging operations are modelled from their uses, and the other helpers are the abstract `Env` parameters.
- The post-save passes are modelled only by their order. What each pass does, and the Django ORM save and delete, are not modelled; a save is the refresh of `last_updated_model` and a delete removes the row.
- Links between staged records are not kept. They are object references in the source. A narrative keeps only its parent's class and position.
- The clock is a parameter (`now`); the parse start is a field of the parser.
- The 1.05 overrides are modelled up to the point where they break: `add_narrative_105` first reads `element`, which is not defined there (`IATI_1_05.py:46`), and the reporting-org and participating-org overrides read misspelled names (`IATI_1_05.py:70, 92`). Their success paths are not reachable in the code as written and are not modelled.
- The 1.05 overrides that begin with `get_func_parent_model`, `add_organisation` or `cached_db_call` call helpers that are not part of this model. What those raise is the parameter `parentError`. Otherwise they end in the `add_narrative_105` error, except the baseline-comment override, which first raises on its misspelled model class (`IATI_1_05.py:443`). The overrides for contact info, location, budget items, policy markers, activity website, conditions, CRS and FSS are on paths the 2.01 table does not handle and are not modelled.
- `sector_vocabulary_trans` and `transaction_type_trans` are used by no override in the code (the sector override is commented out); the model states their shapes only.
- Overrides105.DescriptionType105: the code looks the type up, but nothing uses the result before the override fails, so it does not appear in `TextRequired105`.
- The "current" record is always the last registered one. The source's `get_model` may also hold records that handlers mutate after registering them, through aliasing. The model replaces the record in place instead.
- Overrides105.ParentModelStep: the provider-org and receiver-org overrides (`IATI_1_05.py:331-332, 348-349`) also set `provider_activity_id` or `receiver_activity_id` on the parent model and call `add_organisation`. These assignments are not modelled, because `get_func_parent_model` and `add_organisation` are not part of this model, and both overrides then raise in `add_narrative_105` (lines 336 and 353).
- Common.Lower: only the ASCII capitals `A`-`Z` are lowered. Python's `str.lower` also lowers non-ASCII letters, and those are kept as they are.
- ActivityRoot.NewActivity: an empty or absent hierarchy is staged as None. The source does not assign the field then, so the model's database default applies; that default is not part of this model.
- Common.Env: `currencyOrRaise` sees only the looked-up currency of the element. The base parser's `_get_currency_or_raise` may fall back to the activity's default currency; that fallback is inside the parameter and is not stated.
- Store.ByIatiIdentifier: takes the first stored activity with the identifier. The base parser's `get_or_none` may raise when the identifier is not unique; that case is not modelled.
- `KindName` turning a `Kind` into its string is not proved one-to-one. Different kinds could in principle share a type name, and the model keeps them apart.
