/** Field types and the index mapping each of them is given (pkg/search/field.go). */
module Fields {
  import opened Results

  /** The field type tag. In the source it is a plain integer, so values outside the
      seven named constants can occur and must be handled. */
  newtype FType = int

  const UNKNOWN: FType := 0
  const TEXT: FType := 1
  const KEYWORD: FType := 2
  const KEYWORD_LIST: FType := 3
  const NUMBER: FType := 4
  const DATE: FType := 5
  const BOOLEAN: FType := 6

  /** Types whose values are matched as text (text, keyword and keyword list). */
  predicate IsTextLike(t: FType) {
    t == TEXT || t == KEYWORD || t == KEYWORD_LIST
  }

  /** The six types that have an index mapping. */
  predicate IsKnown(t: FType) {
    TEXT <= t <= BOOLEAN
  }

  datatype Tokenizer = Whitespace
  datatype TokenFilter = Lowercase

  /** An analyzer assembled from a tokenizer and a chain of token filters. */
  datatype CustomAnalyzer = CustomAnalyzer(name: string, tokenizer: Tokenizer, tokenFilters: seq<TokenFilter>)

  /** The analyzer registered for keyword-list fields: split on whitespace, then lower-case. */
  const KeywordListAnalyzer := CustomAnalyzer("keywordList", Whitespace, [Lowercase])

  /** The analyzer a text mapping refers to: the built-in English or keyword analyzer, or a
      custom analyzer by name. */
  datatype Analyzer = English | KeywordAnalyzer | Custom(name: string)

  /** The mapping descriptor of one field: only the settings the source assigns are recorded. */
  datatype FieldMapping =
    | TextMapping(analyzer: Analyzer, includeInAll: bool, includeTermVectors: bool, store: bool)
    | NumericMapping(store: bool)
    | DateTimeMapping(store: bool)
    | BooleanMapping(store: bool)

  const EnglishTextMapping := TextMapping(English, false, false, false)
  const KeywordMapping := TextMapping(KeywordAnalyzer, false, false, false)
  const KeywordListMapping := TextMapping(Custom(KeywordListAnalyzer.name), false, false, false)
  const NumberMapping := NumericMapping(false)
  const DateMapping := DateTimeMapping(false)
  const BoolMapping := BooleanMapping(false)

  /** The switch of toBleveMapping: the mapping of a field type, or an error (a panic in the
      source) for UNKNOWN and every value outside the named constants. */
  function MappingFor(t: FType): (r: Result<FieldMapping>)
    ensures r.Success? <==> IsKnown(t)
    ensures r.Failure? ==> r.error == UnrecognizedFieldType(t as int)
    ensures r.Success? ==> !r.value.store
    ensures r.Success? ==> (r.value.TextMapping? <==> IsTextLike(t))
    ensures r.Success? && r.value.TextMapping? ==> !r.value.includeInAll && !r.value.includeTermVectors
    ensures t == NUMBER ==> r == Success(NumericMapping(false))
    ensures t == DATE ==> r == Success(DateTimeMapping(false))
    ensures t == BOOLEAN ==> r == Success(BooleanMapping(false))
  {
    if t == TEXT then Success(EnglishTextMapping)
    else if t == KEYWORD then Success(KeywordMapping)
    else if t == NUMBER then Success(NumberMapping)
    else if t == DATE then Success(DateMapping)
    else if t == BOOLEAN then Success(BoolMapping)
    else if t == KEYWORD_LIST then Success(KeywordListMapping)
    else Failure(UnrecognizedFieldType(t as int))
  }

  /** Which analyzer each text-like type is given, and that the keyword-list mapping refers
      to the custom analyzer that splits on whitespace and lower-cases. */
  lemma TextAnalyzers()
    ensures MappingFor(TEXT) == Success(TextMapping(English, false, false, false))
    ensures MappingFor(KEYWORD) == Success(TextMapping(KeywordAnalyzer, false, false, false))
    ensures MappingFor(KEYWORD_LIST).value.analyzer == Custom(KeywordListAnalyzer.name)
    ensures KeywordListAnalyzer.tokenizer == Whitespace && KeywordListAnalyzer.tokenFilters == [Lowercase]
  {
  }

  /** The package-level mapping variables, filled in once on first use (the sync.Once). */
  class MappingTable {
    var initialized: bool
    var englishText: Option<FieldMapping>
    var keyword: Option<FieldMapping>
    var keywordList: Option<FieldMapping>
    var num: Option<FieldMapping>
    var date: Option<FieldMapping>
    var boolean: Option<FieldMapping>

    ghost predicate Valid()
      reads this
    {
      if initialized then
        && englishText == Some(EnglishTextMapping) && keyword == Some(KeywordMapping)
        && keywordList == Some(KeywordListMapping) && num == Some(NumberMapping)
        && date == Some(DateMapping) && boolean == Some(BoolMapping)
      else
        && englishText.None? && keyword.None? && keywordList.None?
        && num.None? && date.None? && boolean.None?
    }

    constructor ()
      ensures Valid() && !initialized
    {
      initialized := false;
      englishText, keyword, keywordList := None, None, None;
      num, date, boolean := None, None, None;
    }

    /** initializeMappings: assigns every mapping variable. */
    method InitializeMappings()
      modifies this
      ensures Valid() && initialized
    {
      englishText := Some(EnglishTextMapping);
      keyword := Some(KeywordMapping);
      keywordList := Some(KeywordListMapping);
      num := Some(NumberMapping);
      date := Some(DateMapping);
      boolean := Some(BoolMapping);
      initialized := true;
    }

    /** toBleveMapping: initialises the table on the first call only, then answers from it.
        Later calls change nothing, so every call for one type yields the same mapping. */
    method ToBleveMapping(t: FType) returns (r: Result<FieldMapping>)
      requires Valid()
      modifies this
      ensures Valid() && initialized
      ensures old(initialized) ==> unchanged(this)
      ensures r == MappingFor(t)
    {
      if !initialized {
        InitializeMappings();
      }
      if t == TEXT {
        r := Success(englishText.value);
      } else if t == KEYWORD {
        r := Success(keyword.value);
      } else if t == NUMBER {
        r := Success(num.value);
      } else if t == DATE {
        r := Success(date.value);
      } else if t == BOOLEAN {
        r := Success(boolean.value);
      } else if t == KEYWORD_LIST {
        r := Success(keywordList.value);
      } else {
        r := Failure(UnrecognizedFieldType(t as int));
      }
    }
  }
}
