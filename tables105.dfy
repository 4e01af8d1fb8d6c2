/** The translation tables of the 1.05 parser: 1.05 spelled some codes as
    names or letters where 2.01 uses numeric codes. */
module Tables105 {
  import opened Common
  import opened Records
  import ActivityHandlers

  /** `activity_date_type_mapping`: 1.05 activity-date type names to the
      2.01 activity-date type codes. */
  const ActivityDateTypeMapping: map<string, string> := map[
    "start-planned" := "1",
    "start-actual" := "2",
    "end-planned" := "3",
    "end-actual" := "4"
  ]

  /** `sector_vocabulary_trans`: 1.05 sector vocabulary names to codes. */
  const SectorVocabularyTrans: map<string, int> := map[
    "ADT" := 1,
    "COFOG" := 2,
    "DAC" := 3,
    "DAC-3" := 4,
    "ISO" := 5,
    "NACE" := 6,
    "NTEE" := 7,
    "WB" := 8,
    "RO" := 99
  ]

  /** `transaction_type_trans`: 1.05 transaction type letters to codes. */
  const TransactionTypeTrans: map<string, int> := map[
    "IF" := 1,
    "C" := 2,
    "D" := 3,
    "E" := 4,
    "IR" := 5,
    "LR" := 6,
    "R" := 7,
    "QP" := 8,
    "Q3" := 9,
    "CG" := 10
  ]

  /** `activity_date_type_mapping.get(type_name)`: an absent attribute and
      an unknown name both give nothing. */
  function DateTypeCode(name: Option<string>): (r: Option<string>)
    ensures r.Some? <==> name.Some? && name.value in ActivityDateTypeMapping
    ensures r.Some? ==> r.value in {"1", "2", "3", "4"} && r.value != ""
  {
    if name.Some? && name.value in ActivityDateTypeMapping then Some(ActivityDateTypeMapping[name.value]) else None
  }

  /** The activity field each 1.05 date-type name is meant for, by its
      name: whether the date is a start or an end, planned or actual. */
  function NameField(name: string): Option<DateField>
  {
    match name
    case "start-planned" => Some(PlannedStart)
    case "start-actual" => Some(ActualStart)
    case "end-planned" => Some(PlannedEnd)
    case "end-actual" => Some(ActualEnd)
    case _ => None
  }

  /** Translating a 1.05 name and then reading the 2.01 code picks the
      activity field the name describes; the names without a meaning are
      exactly those the mapping does not know. */
  lemma DateNamesReachTheirFields(name: string)
    ensures name in ActivityDateTypeMapping <==> NameField(name).Some?
    ensures name in ActivityDateTypeMapping ==>
              ActivityHandlers.DateFieldOf(ActivityDateTypeMapping[name]) == NameField(name)
  {
    if name in ActivityDateTypeMapping {
      assert name == "start-planned" || name == "start-actual" || name == "end-planned" || name == "end-actual";
    }
  }

  /** The ten transaction type letters go one-to-one onto the codes 1 to 10. */
  lemma TransactionTypesOneToOne()
    ensures |TransactionTypeTrans| == 10
    ensures TransactionTypeTrans.Values == {1, 2, 3, 4, 5, 6, 7, 8, 9, 10}
    ensures forall a, b :: a in TransactionTypeTrans && b in TransactionTypeTrans && a != b ==>
              TransactionTypeTrans[a] != TransactionTypeTrans[b]
  {
    TransactionLettersCount();
    TransactionCodes();
    TransactionLettersInverse();
  }

  lemma TransactionLettersCount()
    ensures |TransactionTypeTrans| == 10
  {
    var m1 := map["IF" := 1, "C" := 2, "D" := 3, "E" := 4, "IR" := 5];
    var m2 := m1["LR" := 6];
    var m3 := m2["R" := 7];
    var m4 := m3["QP" := 8];
    var m5 := m4["Q3" := 9];
    assert |m1| == 5;
    assert |m2| == 6;
    assert |m3| == 7;
    assert |m4| == 8;
    assert |m5| == 9;
    assert TransactionTypeTrans == m5["CG" := 10];
  }

  /** Each letter is the letter of its code. */
  lemma TransactionLettersInverse()
    ensures forall k :: k in TransactionTypeTrans ==> TransactionLetter(TransactionTypeTrans[k]) == k
  {
    forall k | k in TransactionTypeTrans ensures TransactionLetter(TransactionTypeTrans[k]) == k { }
  }

  lemma TransactionCodes()
    ensures TransactionTypeTrans.Values == {1, 2, 3, 4, 5, 6, 7, 8, 9, 10}
  {
    var m := TransactionTypeTrans;
    forall v | v in m.Values ensures v in {1, 2, 3, 4, 5, 6, 7, 8, 9, 10} {
      var k :| k in m && m[k] == v;
    }
    forall v | v in {1, 2, 3, 4, 5, 6, 7, 8, 9, 10} ensures v in m.Values {
      assert TransactionLetter(v) in m && m[TransactionLetter(v)] == v;
    }
  }

  /** The letter of each transaction type code. */
  function TransactionLetter(code: int): string
  {
    match code
    case 1 => "IF"
    case 2 => "C"
    case 3 => "D"
    case 4 => "E"
    case 5 => "IR"
    case 6 => "LR"
    case 7 => "R"
    case 8 => "QP"
    case 9 => "Q3"
    case _ => "CG"
  }

  /** Distinct sector vocabulary names translate to distinct codes. */
  lemma SectorVocabulariesDistinct()
    ensures forall a, b :: a in SectorVocabularyTrans && b in SectorVocabularyTrans && a != b ==>
              SectorVocabularyTrans[a] != SectorVocabularyTrans[b]
  {
  }
}
