/** The filter compiler (webserver/pkg/search/filter.go): a wire-format boolean filter tree is
    checked, its field names are resolved against the index, and it is translated into a
    query tree. */
module Filters {
  import opened Results
  import opened Fields
  import opened Strings
  import opened Indexes

  /** A filter node as it arrives on the wire. `and` and `or` are slices of pointers, so both
      the slice and each child may be nil. */
  datatype Filter = Filter(base: string, and: Slice, or: Slice)
  datatype Slice = NilSlice | Slice(elems: seq<Option<Filter>>)

  function Len(s: Slice): nat
  {
    if s.NilSlice? then 0 else |s.elems|
  }

  /** A point in time, counted in nanoseconds from Go's zero time (year 1, January 1, UTC). */
  datatype Time = Time(nanos: int)

  /** The zero time, which a date range reads as "no bound". */
  const ZeroTime := Time(0)

  /** The compiled query. Range queries carry no field name: the source never sets one. */
  datatype Query =
    | MatchAll
    | Match(field: string, text: string)
    | NumericRange(min: Option<real>, max: Option<real>, minInclusive: Option<bool>, maxInclusive: Option<bool>)
    | DateRange(start: Time, end: Time, startInclusive: Option<bool>, endInclusive: Option<bool>)
    | Conjunction(conjuncts: seq<Query>)
    | Disjunction(disjuncts: seq<Query>)

  /** The float and timestamp literal parsers, which the model does not open up: each either
      yields a value or rejects the literal. */
  datatype LiteralParsers = LiteralParsers(parseNum: string -> Option<real>, parseDate: string -> Option<Time>)

  /** The six comparison prefixes of a range filter. */
  datatype Op = Eq | Ne | Le | Ge | Lt | Gt

  function OpText(op: Op): string
  {
    match op
    case Eq => "==" case Ne => "!=" case Le => "<=" case Ge => ">=" case Lt => "<" case Gt => ">"
  }

  /** The position of each prefix in the order the source tests them. */
  function Rank(op: Op): nat
  {
    match op
    case Eq => 0 case Ne => 1 case Le => 2 case Ge => 3 case Lt => 4 case Gt => 5
  }

  /** The reading of a comparison: what a value x must satisfy against the literal v. */
  predicate Compare(op: Op, x: real, v: real)
  {
    match op
    case Eq => x == v case Ne => x != v case Le => x <= v
    case Ge => x >= v case Lt => x < v case Gt => x > v
  }

  /** The chain of HasPrefix tests: the operator is the first prefix, in the tested order, that
      the suffix starts with, and the literal is what follows it. */
  function RangeOperator(suffix: string): (r: Option<(Op, string)>)
    ensures r.Some? ==> suffix == OpText(r.value.0) + r.value.1
    ensures r.Some? ==> forall op :: Rank(op) < Rank(r.value.0) ==> !HasPrefix(suffix, OpText(op))
    ensures r.None? <==> forall op :: !HasPrefix(suffix, OpText(op))
  {
    if HasPrefix(suffix, "==") then Some((Eq, suffix[2..]))
    else if HasPrefix(suffix, "!=") then Some((Ne, suffix[2..]))
    else if HasPrefix(suffix, "<=") then Some((Le, suffix[2..]))
    else if HasPrefix(suffix, ">=") then Some((Ge, suffix[2..]))
    else if HasPrefix(suffix, "<") then Some((Lt, suffix[1..]))
    else if HasPrefix(suffix, ">") then Some((Gt, suffix[1..]))
    else None
  }

  /** The numeric range each operator builds around the literal v. */
  function NumberRange(op: Op, v: real): Query
  {
    match op
    case Eq => NumericRange(Some(v), Some(v), Some(true), Some(true))
    case Ne => Conjunction([NumericRange(Some(v), None, Some(false), None),
                            NumericRange(None, Some(v), None, Some(false))])
    case Le => NumericRange(None, Some(v), None, Some(true))
    case Ge => NumericRange(Some(v), None, Some(true), None)
    case Lt => NumericRange(None, Some(v), None, Some(false))
    case Gt => NumericRange(Some(v), None, Some(false), None)
  }

  /** The date range each operator builds around the literal t; the zero time fills an end
      that has no bound. */
  function DateRangeFor(op: Op, t: Time): Query
  {
    match op
    case Eq => DateRange(t, t, Some(true), Some(true))
    case Ne => Conjunction([DateRange(t, ZeroTime, Some(false), None),
                            DateRange(ZeroTime, t, None, Some(false))])
    case Le => DateRange(ZeroTime, t, None, Some(true))
    case Ge => DateRange(t, ZeroTime, Some(true), None)
    case Lt => DateRange(ZeroTime, t, None, Some(false))
    case Gt => DateRange(t, ZeroTime, Some(false), None)
  }

  /** parseNumberFilter. */
  function NumberFilter(suffix: string, parseNum: string -> Option<real>): Result<Query>
  {
    match RangeOperator(suffix)
    case None => Failure(MalformedRange(suffix))
    case Some((op, literal)) =>
      match parseNum(literal)
      case None => Failure(MalformedNumber(literal))
      case Some(v) => Success(NumberRange(op, v))
  }

  /** parseDateFilter: the same grammar as parseNumberFilter over timestamps (its error for an
      unknown prefix is the number filter's message). */
  function DateFilter(suffix: string, parseDate: string -> Option<Time>): Result<Query>
  {
    match RangeOperator(suffix)
    case None => Failure(MalformedRange(suffix))
    case Some((op, literal)) =>
      match parseDate(literal)
      case None => Failure(MalformedDate(literal))
      case Some(t) => Success(DateRangeFor(op, t))
  }

  /** parseTextFilter and parseKeywordFilter, which are identical: a match of the whole suffix
      on the field. */
  function MatchFilter(field: string, suffix: string): Result<Query>
  {
    Success(Match(field, suffix))
  }

  /** parseFilterOfType: the comparator grammar is chosen by the field's type. */
  function FilterOfType(field: string, suffix: string, t: FType, parsers: LiteralParsers): (r: Result<Query>)
    ensures IsTextLike(t) ==> r == Success(Match(field, suffix))
    ensures t == NUMBER ==> r == NumberFilter(suffix, parsers.parseNum)
    ensures t == DATE ==> r == DateFilter(suffix, parsers.parseDate)
    ensures !IsTextLike(t) && t != NUMBER && t != DATE ==> r == Failure(UnhandledType(t as int))
  {
    if t == TEXT then MatchFilter(field, suffix)
    else if t == KEYWORD then MatchFilter(field, suffix)
    else if t == KEYWORD_LIST then MatchFilter(field, suffix)
    else if t == NUMBER then NumberFilter(suffix, parsers.parseNum)
    else if t == DATE then DateFilter(suffix, parsers.parseDate)
    else Failure(UnhandledType(t as int))
  }

  /** ParseBaseFilter: split at the first ':', resolve the field, compile the rest. */
  function CompileBase(base: string, tables: FieldTables, parsers: LiteralParsers): Result<Query>
  {
    var fixes := SplitFirst(base, ':');
    if |fixes| != 2 then Failure(MissingSeparator(base))
    else
      match Lookup(tables, fixes[0])
      case None => Failure(UnknownField(fixes[0]))
      case Some(t) => FilterOfType(fixes[0], fixes[1], t, parsers)
  }

  /** ParseFilter: a nil filter matches everything; otherwise exactly one of base, and, or
      must be given. An `and` beside a non-nil (even empty) `or` is refused. */
  function CompileFilter(f: Option<Filter>, tables: FieldTables, parsers: LiteralParsers): Result<Query>
    decreases f
  {
    match f
    case None => Success(MatchAll)
    case Some(g) =>
      if g.base != "" then
        if Len(g.and) != 0 || Len(g.or) != 0 then Failure(NotSingleType)
        else CompileBase(g.base, tables, parsers)
      else if Len(g.and) != 0 then
        if g.or != NilSlice then Failure(NotSingleType)
        else CompileAnd(g.and.elems, tables, parsers)
      else if Len(g.or) != 0 then CompileOr(g.or.elems, tables, parsers)
      else Failure(EmptyFilter)
  }

  /** Compiles the children left to right, stopping at the first failure. */
  function CompileAll(cs: seq<Option<Filter>>, tables: FieldTables, parsers: LiteralParsers): Result<seq<Query>>
    decreases cs, 0
  {
    if |cs| == 0 then Success([])
    else
      match CompileAll(cs[..|cs| - 1], tables, parsers)
      case Failure(e) => Failure(e)
      case Success(qs) =>
        match CompileFilter(cs[|cs| - 1], tables, parsers)
        case Failure(e) => Failure(e)
        case Success(q) => Success(qs + [q])
  }

  /** ParseAndFilter. */
  function CompileAnd(cs: seq<Option<Filter>>, tables: FieldTables, parsers: LiteralParsers): Result<Query>
    decreases cs, 1
  {
    match CompileAll(cs, tables, parsers)
    case Failure(e) => Failure(e)
    case Success(qs) => if |qs| == 1 then Success(qs[0]) else Success(Conjunction(qs))
  }

  /** ParseOrFilter. */
  function CompileOr(cs: seq<Option<Filter>>, tables: FieldTables, parsers: LiteralParsers): Result<Query>
    decreases cs, 1
  {
    match CompileAll(cs, tables, parsers)
    case Failure(e) => Failure(e)
    case Success(qs) => if |qs| == 1 then Success(qs[0]) else Success(Disjunction(qs))
  }

  // ---------------------------------------------------------------------------------------
  // The compiler as the source runs it: loops that append and return early.

  /** ParseFilter. */
  method ParseFilter(f: Option<Filter>, index: Index, parsers: LiteralParsers) returns (r: Result<Query>)
    ensures r == CompileFilter(f, index.Schema(), parsers)
    decreases f
  {
    if f.None? {
      return Success(MatchAll);
    }
    var g := f.value;
    if g.base != "" {
      if Len(g.and) != 0 || Len(g.or) != 0 {
        return Failure(NotSingleType);
      }
      r := ParseBaseFilter(g.base, index, parsers);
    } else if Len(g.and) != 0 {
      if g.or != NilSlice {
        return Failure(NotSingleType);
      }
      r := ParseAndFilter(g.and.elems, index, parsers);
    } else if Len(g.or) != 0 {
      r := ParseOrFilter(g.or.elems, index, parsers);
    } else {
      r := Failure(EmptyFilter);
    }
  }

  /** ParseAndFilter: compiles each child in turn, appending its query, and returns the first
      error met; one child stands for itself, several are conjoined in order. */
  method ParseAndFilter(cs: seq<Option<Filter>>, index: Index, parsers: LiteralParsers) returns (r: Result<Query>)
    ensures r == CompileAnd(cs, index.Schema(), parsers)
    decreases cs, 1
  {
    var ands: seq<Query> := [];
    for i := 0 to |cs|
      invariant CompileAll(cs[..i], index.Schema(), parsers) == Success(ands)
    {
      assert cs[..i + 1][..i] == cs[..i];
      var q := ParseFilter(cs[i], index, parsers);
      if q.Failure? {
        CompileAllStopsAtFailure(cs, i + 1, index.Schema(), parsers);
        return Failure(q.error);
      }
      ands := ands + [q.value];
    }
    assert cs[..|cs|] == cs;
    if |ands| == 1 {
      return Success(ands[0]);
    }
    return Success(Conjunction(ands));
  }

  /** ParseOrFilter: as ParseAndFilter, with a disjunction. */
  method ParseOrFilter(cs: seq<Option<Filter>>, index: Index, parsers: LiteralParsers) returns (r: Result<Query>)
    ensures r == CompileOr(cs, index.Schema(), parsers)
    decreases cs, 1
  {
    var ors: seq<Query> := [];
    for i := 0 to |cs|
      invariant CompileAll(cs[..i], index.Schema(), parsers) == Success(ors)
    {
      assert cs[..i + 1][..i] == cs[..i];
      var q := ParseFilter(cs[i], index, parsers);
      if q.Failure? {
        CompileAllStopsAtFailure(cs, i + 1, index.Schema(), parsers);
        return Failure(q.error);
      }
      ors := ors + [q.value];
    }
    assert cs[..|cs|] == cs;
    if |ors| == 1 {
      return Success(ors[0]);
    }
    return Success(Disjunction(ors));
  }

  /** ParseBaseFilter: scans the documents in order and compiles against the first one that
      has the field. */
  method ParseBaseFilter(base: string, index: Index, parsers: LiteralParsers) returns (r: Result<Query>)
    ensures r == CompileBase(base, index.Schema(), parsers)
  {
    var fixes := SplitFirst(base, ':');
    if |fixes| != 2 {
      return Failure(MissingSeparator(base));
    }
    for i := 0 to |index.documents|
      invariant forall j :: 0 <= j < i ==> fixes[0] !in index.Schema()[j]
    {
      var doc := index.documents[i];
      if fixes[0] in doc.fields {
        LookupFindsFirst(index.Schema(), fixes[0], i);
        return FilterOfType(fixes[0], fixes[1], doc.fields[fixes[0]], parsers);
      }
    }
    LookupMisses(index.Schema(), fixes[0]);
    return Failure(UnknownField(fixes[0]));
  }

  /** Once a prefix of the children fails, compiling all of them fails with the same error. */
  lemma {:induction false} CompileAllStopsAtFailure(cs: seq<Option<Filter>>, k: nat, tables: FieldTables, parsers: LiteralParsers)
    requires k <= |cs| && CompileAll(cs[..k], tables, parsers).Failure?
    ensures CompileAll(cs, tables, parsers) == CompileAll(cs[..k], tables, parsers)
    decreases |cs|
  {
    if k < |cs| {
      assert cs[..|cs| - 1][..k] == cs[..k];
      CompileAllStopsAtFailure(cs[..|cs| - 1], k, tables, parsers);
    } else {
      assert cs[..k] == cs;
    }
  }
}
