/** The sort compiler (pkg/search/sort.go): turns a list of "field:<" / "field:>" entries into
    a bleve sort order, resolving each field's type through the index. */
module Sorting {
  import opened Results
  import opened Fields
  import opened Strings
  import opened Indexes

  /** The request's sort: entries of the form "<field>:<direction>". */
  datatype Sort = Sort(fields: seq<string>)

  /** bleve's SortFieldType values the compiler produces. */
  datatype SortKind = AsString | AsNumber | AsDate

  /** The numeric value bleve gives each kind (SortFieldAsString = 1, ...AsNumber = 2,
      ...AsDate = 3). */
  function KindCode(k: SortKind): int
  {
    match k
    case AsString => 1
    case AsNumber => 2
    case AsDate => 3
  }

  /** A bleve search.SortField as the compiler fills it in. */
  datatype SortField = SortField(field: string, desc: bool, kind: SortKind)

  /** convertFType: text-like fields sort as strings, numbers as numbers, dates as dates;
      any other type is refused. */
  function ConvertFType(t: FType): (r: Result<SortKind>)
    ensures r == Success(AsString) <==> IsTextLike(t)
    ensures r == Success(AsNumber) <==> t == NUMBER
    ensures r == Success(AsDate) <==> t == DATE
    ensures r.Failure? <==> !IsTextLike(t) && t != NUMBER && t != DATE
    ensures r.Failure? ==> r.error == UnhandledType(t as int)
  {
    if t == TEXT || t == KEYWORD || t == KEYWORD_LIST then Success(AsString)
    else if t == NUMBER then Success(AsNumber)
    else if t == DATE then Success(AsDate)
    else Failure(UnhandledType(t as int))
  }

  /** convertOrder: ">" is descending, "<" ascending; nothing else is accepted. */
  function ConvertOrder(suffix: string): (r: Result<bool>)
    ensures r == Success(true) <==> suffix == ">"
    ensures r == Success(false) <==> suffix == "<"
    ensures r.Failure? <==> suffix != ">" && suffix != "<"
    ensures r.Failure? ==> r.error == UnrecognizedSortSuffix(suffix)
  {
    if suffix == ">" then Success(true)
    else if suffix == "<" then Success(false)
    else Failure(UnrecognizedSortSuffix(suffix))
  }

  /** The direction text convertOrder reads back as the given direction. */
  function DirectionText(desc: bool): (s: string)
    ensures ConvertOrder(s) == Success(desc)
  {
    if desc then ">" else "<"
  }

  /** The sort entry that asks for a sort field. */
  function Render(sf: SortField): string
  {
    sf.field + [':'] + DirectionText(sf.desc)
  }

  /** ParseSortField: the entry must split on ':' into exactly two parts; the field resolves
      through the first document having it; its type is checked before the direction. */
  function CompileSortField(entry: string, tables: FieldTables): Result<SortField>
  {
    var fixes := Split(entry, ':');
    if |fixes| != 2 then Failure(MissingSeparator(entry))
    else
      match Lookup(tables, fixes[0])
      case None => Failure(UnknownField(fixes[0]))
      case Some(t) =>
        match ConvertFType(t)
        case Failure(e) => Failure(e)
        case Success(kind) =>
          match ConvertOrder(fixes[1])
          case Failure(e) => Failure(e)
          case Success(desc) => Success(SortField(fixes[0], desc, kind))
  }

  /** The loop of ParseSort: entries compiled in order, the first error aborting. */
  function CompileSortFields(entries: seq<string>, tables: FieldTables): Result<seq<SortField>>
  {
    if |entries| == 0 then Success([])
    else
      match CompileSortFields(entries[..|entries| - 1], tables)
      case Failure(e) => Failure(e)
      case Success(sfs) =>
        match CompileSortField(entries[|entries| - 1], tables)
        case Failure(e) => Failure(e)
        case Success(sf) => Success(sfs + [sf])
  }

  /** ParseSort: no sort gives no sort order. Go's nil order (for a nil sort, or a sort with
      no entries) is the empty sequence here. */
  function CompileSort(s: Option<Sort>, tables: FieldTables): Result<seq<SortField>>
  {
    match s
    case None => Success([])
    case Some(sort) => CompileSortFields(sort.fields, tables)
  }

  /** ParseSortField, scanning the index's documents for the field. */
  method ParseSortField(entry: string, index: Index) returns (r: Result<SortField>)
    ensures r == CompileSortField(entry, index.Schema())
  {
    var fixes := Split(entry, ':');
    if |fixes| != 2 {
      return Failure(MissingSeparator(entry));
    }
    for i := 0 to |index.documents|
      invariant forall j :: 0 <= j < i ==> fixes[0] !in index.Schema()[j]
    {
      var doc := index.documents[i];
      if fixes[0] in doc.fields {
        LookupFindsFirst(index.Schema(), fixes[0], i);
        var kind := ConvertFType(doc.fields[fixes[0]]);
        if kind.Failure? {
          return Failure(kind.error);
        }
        var desc := ConvertOrder(fixes[1]);
        if desc.Failure? {
          return Failure(desc.error);
        }
        return Success(SortField(fixes[0], desc.value, kind.value));
      }
    }
    LookupMisses(index.Schema(), fixes[0]);
    return Failure(UnknownField(fixes[0]));
  }

  /** ParseSort: compiles each entry in turn, appending its sort field, and returns the first
      error met. */
  method ParseSort(s: Option<Sort>, index: Index) returns (r: Result<seq<SortField>>)
    ensures r == CompileSort(s, index.Schema())
  {
    if s.None? {
      return Success([]);
    }
    var entries := s.value.fields;
    var order: seq<SortField> := [];
    for i := 0 to |entries|
      invariant CompileSortFields(entries[..i], index.Schema()) == Success(order)
    {
      assert entries[..i + 1][..i] == entries[..i];
      var sf := ParseSortField(entries[i], index);
      if sf.Failure? {
        CompileSortFieldsStopsAtFailure(entries, i + 1, index.Schema());
        return Failure(sf.error);
      }
      order := order + [sf.value];
    }
    assert entries[..|entries|] == entries;
    return Success(order);
  }

  /** Once a prefix of the entries fails, compiling all of them fails with the same error. */
  lemma {:induction false} CompileSortFieldsStopsAtFailure(entries: seq<string>, k: nat, tables: FieldTables)
    requires k <= |entries| && CompileSortFields(entries[..k], tables).Failure?
    ensures CompileSortFields(entries, tables) == CompileSortFields(entries[..k], tables)
    decreases |entries|
  {
    if k < |entries| {
      assert entries[..|entries| - 1][..k] == entries[..k];
      CompileSortFieldsStopsAtFailure(entries[..|entries| - 1], k, tables);
    } else {
      assert entries[..k] == entries;
    }
  }

  // ---------------------------------------------------------------------------------------
  // Properties

  /** The sort order has one field per entry, in entry order, and exists exactly when every
      entry compiles. */
  lemma {:induction false} CompileSortFieldsInOrder(entries: seq<string>, tables: FieldTables)
    ensures CompileSortFields(entries, tables).Success? <==>
      forall i :: 0 <= i < |entries| ==> CompileSortField(entries[i], tables).Success?
    ensures CompileSortFields(entries, tables).Success? ==>
      && |CompileSortFields(entries, tables).value| == |entries|
      && forall i :: 0 <= i < |entries| ==>
           CompileSortField(entries[i], tables) == Success(CompileSortFields(entries, tables).value[i])
  {
    if |entries| > 0 {
      var init := entries[..|entries| - 1];
      CompileSortFieldsInOrder(init, tables);
      assert forall i :: 0 <= i < |init| ==> init[i] == entries[i];
    }
  }

  /** When compiling fails, the error is that of the first entry that fails. */
  lemma {:induction false} CompileSortFieldsFailsAtFirst(entries: seq<string>, k: nat, tables: FieldTables)
    requires k < |entries| && CompileSortField(entries[k], tables).Failure?
    requires forall j :: 0 <= j < k ==> CompileSortField(entries[j], tables).Success?
    ensures CompileSortFields(entries, tables) == Failure(CompileSortField(entries[k], tables).error)
  {
    var prefix := entries[..k + 1];
    assert prefix[..k] == entries[..k];
    CompileSortFieldsInOrder(entries[..k], tables);
    assert forall j :: 0 <= j < k ==> entries[..k][j] == entries[j];
    CompileSortFieldsStopsAtFailure(entries, k + 1, tables);
  }

  /** An entry is refused as lacking its separator exactly when it does not hold exactly one
      ':' (none, or two and more: the direction may not contain ':'). */
  lemma SeparatorRule(entry: string, tables: FieldTables)
    ensures CompileSortField(entry, tables) == Failure(MissingSeparator(entry)) <==> Count(entry, ':') != 1
    ensures ':' !in entry ==> CompileSortField(entry, tables) == Failure(MissingSeparator(entry))
  {
    CountZeroIffAbsent(entry, ':');
  }

  /** What a well-separated entry compiles to: an unknown field is reported as such; a field
      of a type that cannot be sorted is refused whatever the direction; otherwise the
      direction must be "<" or ">". */
  lemma SortFieldShape(field: string, dir: string, tables: FieldTables)
    requires ':' !in field && ':' !in dir
    ensures Lookup(tables, field).None? ==>
      CompileSortField(field + [':'] + dir, tables) == Failure(UnknownField(field))
    ensures Lookup(tables, field).Some? && ConvertFType(Lookup(tables, field).value).Failure? ==>
      CompileSortField(field + [':'] + dir, tables) == Failure(UnhandledType(Lookup(tables, field).value as int))
    ensures Lookup(tables, field).Some? && ConvertFType(Lookup(tables, field).value).Success? ==>
      CompileSortField(field + [':'] + dir, tables) ==
        if dir == ">" || dir == "<" then
          Success(SortField(field, dir == ">", ConvertFType(Lookup(tables, field).value).value))
        else Failure(UnrecognizedSortSuffix(dir))
  {
    SplitOfJoinedPair(field, dir, ':');
  }

  /** A sort field the index can sort by, in terms of what the compiler checks. */
  predicate Sortable(sf: SortField, tables: FieldTables)
  {
    && ':' !in sf.field
    && Lookup(tables, sf.field).Some?
    && ConvertFType(Lookup(tables, sf.field).value) == Success(sf.kind)
  }

  /** Every compiled sort field renders back to the entry it came from and is sortable;
      every sortable field is recovered from its rendering. */
  lemma SortFieldRoundTrip(entry: string, sf: SortField, tables: FieldTables)
    ensures CompileSortField(entry, tables) == Success(sf) ==> Render(sf) == entry && Sortable(sf, tables)
    ensures Sortable(sf, tables) ==> CompileSortField(Render(sf), tables) == Success(sf)
  {
    if CompileSortField(entry, tables) == Success(sf) {
      var fixes := Split(entry, ':');
      assert Join(fixes[1..], ':') == fixes[1];
    }
    if Sortable(sf, tables) {
      SortFieldShape(sf.field, DirectionText(sf.desc), tables);
    }
  }

  /** The renderings of sortable fields compile back to those fields, in order. */
  lemma {:induction false} SortRoundTrip(sfs: seq<SortField>, tables: FieldTables)
    requires forall i :: 0 <= i < |sfs| ==> Sortable(sfs[i], tables)
    ensures CompileSortFields(seq(|sfs|, i requires 0 <= i < |sfs| => Render(sfs[i])), tables) == Success(sfs)
  {
    var entries := seq(|sfs|, i requires 0 <= i < |sfs| => Render(sfs[i]));
    if |sfs| > 0 {
      var init := sfs[..|sfs| - 1];
      SortRoundTrip(init, tables);
      assert entries[..|entries| - 1] == seq(|init|, i requires 0 <= i < |init| => Render(init[i]));
      SortFieldRoundTrip(entries[|entries| - 1], sfs[|sfs| - 1], tables);
      assert init + [sfs[|sfs| - 1]] == sfs;
    }
  }

  /** The example of webserver/pkg/search/sort_test.go on the "predicate" index: two number
      fields (ascending, then descending) and a keyword field. */
  lemma SortConversionExample()
    ensures CompileSort(Some(Sort(["createdTimestamp:<", "updatedTimestamp:>", "userId:<"])), PredicateTables)
         == Success([SortField("createdTimestamp", false, AsNumber),
                     SortField("updatedTimestamp", true, AsNumber),
                     SortField("userId", false, AsString)])
    ensures KindCode(AsNumber) == 2 && KindCode(AsString) == 1
  {
    ExampleEntries();
    RenderedSortCompiles(["createdTimestamp:<", "updatedTimestamp:>", "userId:<"],
                         [SortField("createdTimestamp", false, AsNumber),
                          SortField("updatedTimestamp", true, AsNumber),
                          SortField("userId", false, AsString)], PredicateTables);
  }

  /** A sort whose entries are the renderings of sortable fields compiles to those fields. */
  lemma RenderedSortCompiles(entries: seq<string>, sfs: seq<SortField>, tables: FieldTables)
    requires |entries| == |sfs|
    requires forall i :: 0 <= i < |sfs| ==> entries[i] == Render(sfs[i]) && Sortable(sfs[i], tables)
    ensures CompileSort(Some(Sort(entries)), tables) == Success(sfs)
  {
    SortRoundTrip(sfs, tables);
    assert entries == seq(|sfs|, i requires 0 <= i < |sfs| => Render(sfs[i]));
  }

  lemma ExampleEntries()
    ensures Sortable(SortField("createdTimestamp", false, AsNumber), PredicateTables)
    ensures Sortable(SortField("updatedTimestamp", true, AsNumber), PredicateTables)
    ensures Sortable(SortField("userId", false, AsString), PredicateTables)
    ensures Render(SortField("createdTimestamp", false, AsNumber)) == "createdTimestamp:<"
    ensures Render(SortField("updatedTimestamp", true, AsNumber)) == "updatedTimestamp:>"
    ensures Render(SortField("userId", false, AsString)) == "userId:<"
  {
  }
}
