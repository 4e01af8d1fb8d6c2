/** Values shared by every part of the activity parser: the error taxonomy,
    the XML elements handlers receive, and the collaborators the parser
    consults (codelists, date and number parsing, reference normalisation),
    which are kept abstract as maps and function values. */
module Common {

  datatype Option<+T> = None | Some(value: T)

  /** Dates and datetimes, by their position on the time line: the parser
      only stores them and compares them. */
  type Date = int

  /** Python exceptions that the handlers raise without meaning to:
      they abort the current activity like the typed errors do. */
  datatype PyException =
    | AttributeError(what: string)     // a field read or written on None (what was None), or a class the models module lacks
    | NameError(name: string)          // a name that is not defined
    | IndexError(what: string)         // indexing an empty list
    | TypeError(what: string)          // comparing a datetime with None
    | ValueError(what: string)         // int() of a text that is not a number

  datatype ParseError =
    | RequiredFieldError(field: string)
    | ValidationError(field: string, message: string)
    | CurrencyNotResolved              // whatever the currency helper of the base parser raises
    | Exception(exc: PyException)

  /** What a handler does to the current activity: carries on, or aborts it. */
  datatype Status = Ok | Fail(error: ParseError)

  datatype Result<+T> = Success(value: T) | Failure(error: ParseError)

  /** An XML element as the handlers see it. A missing text and an empty
      text are both the empty string: every handler tests the text for
      truth only. */
  datatype Element = Element(tag: string, attrib: map<string, string>, text: string, children: seq<Element>)

  const XmlLang := "{http://www.w3.org/XML/1998/namespace}lang"

  /** `element.attrib.get(key)` */
  function Attr(e: Element, key: string): Option<string>
  {
    if key in e.attrib then Some(e.attrib[key]) else None
  }

  /** `element.attrib.get(key, default)`: the default applies only when the
      attribute is absent, not when it is empty. */
  function AttrOr(e: Element, key: string, default: string): (r: string)
    ensures key !in e.attrib ==> r == default
    ensures key in e.attrib ==> r == e.attrib[key]
  {
    if key in e.attrib then e.attrib[key] else default
  }

  /** Python truth of an optional text: present and not empty. */
  predicate Truthy(o: Option<string>)
  {
    o.Some? && o.value != ""
  }

  /** The children of `e` with the given tag, in document order
      (`element.findall(tag)`). */
  function ChildrenTagged(e: Element, tag: string): (r: seq<Element>)
    ensures forall c :: c in r ==> c in e.children && c.tag == tag
    ensures forall c :: c in e.children && c.tag == tag ==> c in r
  {
    ChildrenTaggedFrom(e.children, tag)
  }

  /** The children with the given tag; each occurs as often as in the
      document (`ChildrenTaggedCount`) and in document order
      (`ChildrenTaggedConcat`). */
  function ChildrenTaggedFrom(cs: seq<Element>, tag: string): (r: seq<Element>)
    ensures forall c :: c in r ==> c in cs && c.tag == tag
    ensures forall c :: c in cs && c.tag == tag ==> c in r
  {
    if cs == [] then []
    else if cs[0].tag == tag then [cs[0]] + ChildrenTaggedFrom(cs[1..], tag)
    else ChildrenTaggedFrom(cs[1..], tag)
  }

  /** The tagged children of a non-empty run: its first child (when it has
      the tag), then the tagged children of the rest. */
  function TaggedHead(c: Element, tag: string): seq<Element>
  {
    if c.tag == tag then [c] else []
  }

  lemma ChildrenTaggedCons(cs: seq<Element>, tag: string)
    requires cs != []
    ensures ChildrenTaggedFrom(cs, tag) == TaggedHead(cs[0], tag) + ChildrenTaggedFrom(cs[1..], tag)
  {
  }

  /** `findall` keeps every matching child as often as it occurs, and no
      other child. */
  lemma {:induction false} ChildrenTaggedCount(cs: seq<Element>, tag: string, c: Element)
    ensures multiset(ChildrenTaggedFrom(cs, tag))[c] == if c.tag == tag then multiset(cs)[c] else 0
  {
    if cs != [] {
      ChildrenTaggedCons(cs, tag);
      ChildrenTaggedCount(cs[1..], tag, c);
      CountAppend(TaggedHead(cs[0], tag), ChildrenTaggedFrom(cs[1..], tag), c);
      TaggedHeadCount(cs, tag, c);
    }
  }

  lemma CountAppend(x: seq<Element>, y: seq<Element>, c: Element)
    ensures multiset(x + y)[c] == multiset(x)[c] + multiset(y)[c]
  {
  }

  /** The head's share of the count of `c` among the tagged children. */
  lemma TaggedHeadCount(cs: seq<Element>, tag: string, c: Element)
    requires cs != []
    ensures multiset(TaggedHead(cs[0], tag))[c] + (if c.tag == tag then multiset(cs[1..])[c] else 0)
            == if c.tag == tag then multiset(cs)[c] else 0
  {
    assert cs == [cs[0]] + cs[1..];
  }

  /** `findall` keeps document order: filtering two consecutive runs of
      children is filtering each run, in turn. */
  lemma {:induction false} ChildrenTaggedConcat(a: seq<Element>, b: seq<Element>, tag: string)
    ensures ChildrenTaggedFrom(a + b, tag) == ChildrenTaggedFrom(a, tag) + ChildrenTaggedFrom(b, tag)
  {
    if a == [] {
      assert a + b == b;
    } else {
      AppendHead(a, b);
      ChildrenTaggedCons(a + b, tag);
      ChildrenTaggedCons(a, tag);
      ChildrenTaggedConcat(a[1..], b, tag);
      AppendAssoc(TaggedHead(a[0], tag), ChildrenTaggedFrom(a[1..], tag), ChildrenTaggedFrom(b, tag));
    }
  }

  lemma AppendHead(a: seq<Element>, b: seq<Element>)
    requires a != []
    ensures a + b != [] && (a + b)[0] == a[0] && (a + b)[1..] == a[1..] + b
  {
  }

  lemma AppendAssoc(x: seq<Element>, y: seq<Element>, z: seq<Element>)
    ensures x + (y + z) == (x + y) + z
  {
  }

  /** The codelists (controlled vocabularies) and other tables the handlers
      look codes up in. */
  datatype Codelist =
    | LanguageList | CurrencyList | ActivityDateTypeList | OrganisationTypeList
    | OrganisationRoleList | SectorList | SectorVocabularyList | RegionList
    | RegionVocabularyList | CountryList | FlowTypeList | FinanceTypeList
    | AidTypeList | TiedStatusList | RelatedActivityTypeList | ResultTypeList
    | IndicatorMeasureList | BudgetTypeList | OtherIdentifierTypeList
    | DescriptionTypeList

  /** The collaborators of the parser that are not part of this model:
      the codelist tables, the stored organisations, the base parser's
      `validate_date`, `guess_number`, `_normalize`, `makeBool`,
      `get_primary_name` and `_get_currency_or_raise`, and Python's `int`. */
  datatype Env = Env(
    codelists: map<Codelist, set<string>>,
    roleNames: map<string, string>,        // OrganisationRole by name, giving its code
    organisations: set<string>,            // primary keys of stored organisations
    validateDate: string -> Option<Date>,
    guessNumber: string -> Option<real>,
    toInt: string -> Option<int>,
    normalize: string -> string,
    makeBool: Option<string> -> bool,      // None stands for the Python default False
    currencyOrRaise: Option<string> -> Option<string>,
    primaryName: (Element, Option<string>) -> string)

  /** `get_or_none(Model, code=code)` on a codelist: the code itself when it
      is listed; None for an absent attribute or an unknown code. */
  function Lookup(env: Env, list: Codelist, code: Option<string>): (r: Option<string>)
    ensures r.Some? <==> code.Some? && list in env.codelists && code.value in env.codelists[list]
    ensures r.Some? ==> r == code
  {
    if code.Some? && list in env.codelists && code.value in env.codelists[list] then code else None
  }

  /** `validate_date` of an optional attribute: an absent attribute is no date. */
  function ValidateDate(env: Env, s: Option<string>): Option<Date>
  {
    if s.Some? then env.validateDate(s.value) else None
  }

  /** `get_or_none(Organisation, pk=ref)`. */
  function StoredOrganisation(env: Env, ref: string): Option<string>
  {
    if ref in env.organisations then Some(ref) else None
  }

  /** One character lower-cased: an ASCII capital becomes its small
      letter, every other character is kept. */
  function LowerChar(c: char): (r: char)
    ensures 'A' <= c <= 'Z' ==> 'a' <= r <= 'z' && r as int - 'a' as int == c as int - 'A' as int
    ensures !('A' <= c <= 'Z') ==> r == c
  {
    if 'A' <= c <= 'Z' then (c as int + 32) as char else c
  }

  /** `str.lower()`, on the ASCII letters: character by character. */
  function Lower(s: string): (r: string)
    ensures |r| == |s|
    ensures forall i :: 0 <= i < |s| ==> r[i] == LowerChar(s[i])
  {
    if s == [] then [] else [LowerChar(s[0])] + Lower(s[1..])
  }

  /** Lowering is idempotent, so the second `lower()` that `add_narrative`
      applies to an already lowered language changes nothing. */
  lemma {:induction false} LowerIdempotent(s: string)
    ensures Lower(Lower(s)) == Lower(s)
  {
    if s != [] {
      LowerIdempotent(s[1..]);
      assert Lower(s) == [LowerChar(s[0])] + Lower(s[1..]);
      assert Lower(s)[1..] == Lower(s[1..]);
    }
  }
}
