/** What the filter compiler guarantees (webserver/pkg/search/filter.go). */
module FilterLemmas {
  import opened Results
  import opened Fields
  import opened Strings
  import opened Indexes
  import opened Filters

  // ---------------------------------------------------------------------------------------
  // Node shape

  /** Exactly one of base, and, or is given; an `and` further requires a nil `or`. */
  predicate SingleVariant(g: Filter)
  {
    || (g.base != "" && Len(g.and) == 0 && Len(g.or) == 0)
    || (g.base == "" && Len(g.and) != 0 && g.or.NilSlice?)
    || (g.base == "" && Len(g.and) == 0 && Len(g.or) != 0)
  }

  /** A nil filter matches everything whatever the index; a node that is not of a single kind
      is refused before anything is resolved, as empty when nothing is set and as mixed
      otherwise; a node of a single kind is compiled as that kind. */
  lemma NodeShapeRule(g: Filter, tables: FieldTables, parsers: LiteralParsers)
    ensures CompileFilter(None, tables, parsers) == Success(MatchAll)
    ensures !SingleVariant(g) ==>
      CompileFilter(Some(g), tables, parsers) ==
        Failure(if g.base == "" && Len(g.and) == 0 && Len(g.or) == 0 then EmptyFilter else NotSingleType)
    ensures SingleVariant(g) && g.base != "" ==> CompileFilter(Some(g), tables, parsers) == CompileBase(g.base, tables, parsers)
    ensures SingleVariant(g) && Len(g.and) != 0 ==> CompileFilter(Some(g), tables, parsers) == CompileAnd(g.and.elems, tables, parsers)
    ensures SingleVariant(g) && Len(g.or) != 0 ==> CompileFilter(Some(g), tables, parsers) == CompileOr(g.or.elems, tables, parsers)
  {
  }

  // ---------------------------------------------------------------------------------------
  // And / Or combination

  /** Child i is the first child that fails to compile. */
  predicate FirstFailureAt(cs: seq<Option<Filter>>, i: int, tables: FieldTables, parsers: LiteralParsers)
  {
    && 0 <= i < |cs|
    && CompileFilter(cs[i], tables, parsers).Failure?
    && forall j :: 0 <= j < i ==> CompileFilter(cs[j], tables, parsers).Success?
  }

  /** All children compile exactly when each one does, and then the queries are the
      children's, one per child, in input order. */
  lemma {:induction false} CompileAllSucceeds(cs: seq<Option<Filter>>, tables: FieldTables, parsers: LiteralParsers)
    ensures CompileAll(cs, tables, parsers).Success? <==>
      forall i :: 0 <= i < |cs| ==> CompileFilter(cs[i], tables, parsers).Success?
    ensures CompileAll(cs, tables, parsers).Success? ==>
      && |CompileAll(cs, tables, parsers).value| == |cs|
      && forall i :: 0 <= i < |cs| ==> CompileFilter(cs[i], tables, parsers) == Success(CompileAll(cs, tables, parsers).value[i])
  {
    if |cs| > 0 {
      var init := cs[..|cs| - 1];
      CompileAllSucceeds(init, tables, parsers);
      assert forall i :: 0 <= i < |init| ==> init[i] == cs[i];
    }
  }

  /** When compiling the children fails, the error is that of the first failing child. */
  lemma {:induction false} CompileAllFailsAtFirst(cs: seq<Option<Filter>>, tables: FieldTables, parsers: LiteralParsers)
    requires CompileAll(cs, tables, parsers).Failure?
    ensures exists i :: FirstFailureAt(cs, i, tables, parsers)
    ensures forall i :: FirstFailureAt(cs, i, tables, parsers) ==>
      CompileAll(cs, tables, parsers) == Failure(CompileFilter(cs[i], tables, parsers).error)
  {
    var init := cs[..|cs| - 1];
    assert forall i :: 0 <= i < |init| ==> init[i] == cs[i];
    if CompileAll(init, tables, parsers).Failure? {
      CompileAllFailsAtFirst(init, tables, parsers);
      var k :| FirstFailureAt(init, k, tables, parsers);
      assert FirstFailureAt(cs, k, tables, parsers);
    } else {
      CompileAllSucceeds(init, tables, parsers);
      assert FirstFailureAt(cs, |cs| - 1, tables, parsers);
    }
  }

  function AndNode(cs: seq<Option<Filter>>): Option<Filter>
  {
    Some(Filter("", Slice(cs), NilSlice))
  }

  function OrNode(cs: seq<Option<Filter>>, and: Slice): Option<Filter>
  {
    Some(Filter("", and, Slice(cs)))
  }

  /** An `and` node: it fails with its first failing child's error; a single child compiles to
      that child's query unchanged; two or more give the conjunction of the children's queries
      in input order. */
  lemma AndNodeCombines(cs: seq<Option<Filter>>, tables: FieldTables, parsers: LiteralParsers)
    requires |cs| >= 1
    ensures forall i :: FirstFailureAt(cs, i, tables, parsers) ==>
      CompileFilter(AndNode(cs), tables, parsers) == CompileFilter(cs[i], tables, parsers)
    ensures |cs| == 1 ==> CompileFilter(AndNode(cs), tables, parsers) == CompileFilter(cs[0], tables, parsers)
    ensures |cs| >= 2 && (forall i :: 0 <= i < |cs| ==> CompileFilter(cs[i], tables, parsers).Success?) ==>
      var r := CompileFilter(AndNode(cs), tables, parsers);
      && r.Success? && r.value.Conjunction? && |r.value.conjuncts| == |cs|
      && forall i :: 0 <= i < |cs| ==> CompileFilter(cs[i], tables, parsers) == Success(r.value.conjuncts[i])
  {
    CompileAllSucceeds(cs, tables, parsers);
    if CompileAll(cs, tables, parsers).Failure? {
      CompileAllFailsAtFirst(cs, tables, parsers);
    }
    if |cs| == 1 {
      assert cs[..0] == [];
    }
  }

  /** An `or` node (beside an empty or nil `and`): as an `and` node, with a disjunction. */
  lemma OrNodeCombines(cs: seq<Option<Filter>>, and: Slice, tables: FieldTables, parsers: LiteralParsers)
    requires |cs| >= 1 && Len(and) == 0
    ensures forall i :: FirstFailureAt(cs, i, tables, parsers) ==>
      CompileFilter(OrNode(cs, and), tables, parsers) == CompileFilter(cs[i], tables, parsers)
    ensures |cs| == 1 ==> CompileFilter(OrNode(cs, and), tables, parsers) == CompileFilter(cs[0], tables, parsers)
    ensures |cs| >= 2 && (forall i :: 0 <= i < |cs| ==> CompileFilter(cs[i], tables, parsers).Success?) ==>
      var r := CompileFilter(OrNode(cs, and), tables, parsers);
      && r.Success? && r.value.Disjunction? && |r.value.disjuncts| == |cs|
      && forall i :: 0 <= i < |cs| ==> CompileFilter(cs[i], tables, parsers) == Success(r.value.disjuncts[i])
  {
    CompileAllSucceeds(cs, tables, parsers);
    if CompileAll(cs, tables, parsers).Failure? {
      CompileAllFailsAtFirst(cs, tables, parsers);
    }
    if |cs| == 1 {
      assert cs[..0] == [];
    }
  }

  /** A singleton `and` and a singleton `or` both compile to what their only child does. */
  lemma SingletonCollapses(c: Option<Filter>, tables: FieldTables, parsers: LiteralParsers)
    ensures CompileFilter(AndNode([c]), tables, parsers) == CompileFilter(c, tables, parsers)
    ensures CompileFilter(OrNode([c], NilSlice), tables, parsers) == CompileFilter(c, tables, parsers)
  {
    AndNodeCombines([c], tables, parsers);
    OrNodeCombines([c], NilSlice, tables, parsers);
  }

  // ---------------------------------------------------------------------------------------
  // Base filters

  /** A base filter without ':' is refused; otherwise it splits at the first ':' only, so the
      value keeps any further ':' (as in timestamps), and the field is resolved in the index. */
  lemma BaseFilterSplitsAtFirstColon(field: string, rest: string, tables: FieldTables, parsers: LiteralParsers)
    requires ':' !in field
    ensures CompileBase(field, tables, parsers) == Failure(MissingSeparator(field))
    ensures CompileBase(field + ":" + rest, tables, parsers) ==
      match Lookup(tables, field)
      case None => Failure(UnknownField(field))
      case Some(t) => FilterOfType(field, rest, t, parsers)
  {
    SplitFirstOfJoined(field, rest, ':');
  }

  /** The first document, in index order, that has the field decides how its value is read;
      when no document has it the filter fails with an unknown-field error. */
  lemma BaseFilterUsesFirstDocument(field: string, rest: string, tables: FieldTables, parsers: LiteralParsers)
    requires ':' !in field
    ensures forall i :: 0 <= i < |tables| && field in tables[i] && (forall j :: 0 <= j < i ==> field !in tables[j]) ==>
      CompileBase(field + ":" + rest, tables, parsers) == FilterOfType(field, rest, tables[i][field], parsers)
    ensures (forall j :: 0 <= j < |tables| ==> field !in tables[j]) ==>
      CompileBase(field + ":" + rest, tables, parsers) == Failure(UnknownField(field))
  {
    BaseFilterSplitsAtFirstColon(field, rest, tables, parsers);
    forall i | 0 <= i < |tables| && field in tables[i] && (forall j :: 0 <= j < i ==> field !in tables[j])
      ensures Lookup(tables, field) == Some(tables[i][field])
    {
      LookupFindsFirst(tables, field, i);
    }
    LookupMisses(tables, field);
  }

  // ---------------------------------------------------------------------------------------
  // Ranges

  /** How a numeric range bounds a value: an absent bound admits everything; a present one is
      inclusive when its flag says true. */
  predicate AdmitsNumber(q: Query, x: real)
  {
    match q
    case NumericRange(min, max, minInc, maxInc) =>
      && (min.None? || (if minInc == Some(true) then min.value <= x else min.value < x))
      && (max.None? || (if maxInc == Some(true) then x <= max.value else x < max.value))
    case Conjunction(qs) => forall i :: 0 <= i < |qs| ==> AdmitsNumber(qs[i], x)
    case Disjunction(qs) => exists i :: 0 <= i < |qs| && AdmitsNumber(qs[i], x)
    case MatchAll => true
    case _ => false
  }

  /** How a date range bounds a time: the zero time at either end stands for no bound. */
  predicate AdmitsDate(q: Query, x: Time)
  {
    match q
    case DateRange(start, end, startInc, endInc) =>
      && (start == ZeroTime || (if startInc == Some(true) then start.nanos <= x.nanos else start.nanos < x.nanos))
      && (end == ZeroTime || (if endInc == Some(true) then x.nanos <= end.nanos else x.nanos < end.nanos))
    case Conjunction(qs) => forall i :: 0 <= i < |qs| ==> AdmitsDate(qs[i], x)
    case Disjunction(qs) => exists i :: 0 <= i < |qs| && AdmitsDate(qs[i], x)
    case MatchAll => true
    case _ => false
  }

  /** The number grammar: an unknown prefix and an unparsable literal are errors; otherwise
      `==`, `<=`, `>=`, `<`, `>` admit exactly the values that compare so with the literal,
      and `!=`, as written, admits no value at all. */
  lemma NumberFilterMeaning(suffix: string, parseNum: string -> Option<real>, x: real)
    ensures RangeOperator(suffix).None? ==> NumberFilter(suffix, parseNum) == Failure(MalformedRange(suffix))
    ensures RangeOperator(suffix).Some? && parseNum(RangeOperator(suffix).value.1).None? ==>
      NumberFilter(suffix, parseNum) == Failure(MalformedNumber(RangeOperator(suffix).value.1))
    ensures RangeOperator(suffix).Some? && parseNum(RangeOperator(suffix).value.1).Some? ==>
      var (op, literal) := RangeOperator(suffix).value;
      var v := parseNum(literal).value;
      && NumberFilter(suffix, parseNum).Success?
      && (op != Ne ==> (AdmitsNumber(NumberFilter(suffix, parseNum).value, x) <==> Compare(op, x, v)))
      && (op == Ne ==> !AdmitsNumber(NumberFilter(suffix, parseNum).value, x))
  {
    if RangeOperator(suffix).Some? && parseNum(RangeOperator(suffix).value.1).Some? {
      NotEqualAsWrittenAdmitsNothing(parseNum(RangeOperator(suffix).value.1).value, x);
    }
  }

  /** The date grammar: as the number grammar, for any literal that is not the zero time. */
  lemma DateFilterMeaning(suffix: string, parseDate: string -> Option<Time>, x: Time)
    ensures RangeOperator(suffix).None? ==> DateFilter(suffix, parseDate) == Failure(MalformedRange(suffix))
    ensures RangeOperator(suffix).Some? && parseDate(RangeOperator(suffix).value.1).None? ==>
      DateFilter(suffix, parseDate) == Failure(MalformedDate(RangeOperator(suffix).value.1))
    ensures RangeOperator(suffix).Some? && parseDate(RangeOperator(suffix).value.1).Some? ==>
      var (op, literal) := RangeOperator(suffix).value;
      var t := parseDate(literal).value;
      && DateFilter(suffix, parseDate).Success?
      && (op != Ne && t != ZeroTime ==>
            (AdmitsDate(DateFilter(suffix, parseDate).value, x) <==> Compare(op, x.nanos as real, t.nanos as real)))
      && (op == Ne && t != ZeroTime ==> !AdmitsDate(DateFilter(suffix, parseDate).value, x))
  {
    if RangeOperator(suffix).Some? && parseDate(RangeOperator(suffix).value.1).Some?
       && parseDate(RangeOperator(suffix).value.1).value != ZeroTime {
      var q := DateRangeFor(Ne, parseDate(RangeOperator(suffix).value.1).value);
      assert !AdmitsDate(q.conjuncts[0], x) || !AdmitsDate(q.conjuncts[1], x);
    }
  }

  /** A literal that parses to the zero time yields ranges whose every end is the zero time,
      that is unbounded: whatever the operator, `!=` included, every time is admitted. */
  lemma ZeroTimeLiteralIsUnbounded(op: Op, x: Time)
    ensures AdmitsDate(DateRangeFor(op, ZeroTime), x)
  {
  }

  /** Reading back a printed operator recovers it and the literal, provided a one-character
      operator is not followed by '=' (which would make it a two-character one). */
  lemma RangeOperatorRoundTrip(op: Op, literal: string)
    requires (op == Lt || op == Gt) ==> |literal| == 0 || literal[0] != '='
    ensures RangeOperator(OpText(op) + literal) == Some((op, literal))
  {
    var s := OpText(op) + literal;
    assert s[|OpText(op)|..] == literal;
    assert s[..|OpText(op)|] == OpText(op);
    if |s| >= 2 {
      assert s[..2] == [s[0], s[1]];
    }
  }

  /** The boundary cases: `==v`, `<=v` and `>=v` admit v itself, `<v` and `>v` do not. */
  lemma NumberBoundaries(op: Op, literal: string, v: real, parseNum: string -> Option<real>)
    requires op != Ne
    requires parseNum(literal) == Some(v) && (|literal| == 0 || literal[0] != '=')
    ensures NumberFilter(OpText(op) + literal, parseNum).Success?
    ensures AdmitsNumber(NumberFilter(OpText(op) + literal, parseNum).value, v) <==> op == Eq || op == Le || op == Ge
  {
    RangeOperatorRoundTrip(op, literal);
  }

  /** What `!=` evidently means: the disjunction of the two exclusive half-ranges. */
  function NotEqualIntended(v: real): Query
  {
    Disjunction([NumericRange(Some(v), None, Some(false), None), NumericRange(None, Some(v), None, Some(false))])
  }

  /** The intended `!=v` admits exactly the values other than v. */
  lemma NotEqualIntendedAdmitsOthers(v: real, x: real)
    ensures AdmitsNumber(NotEqualIntended(v), x) <==> x != v
  {
    var q := NotEqualIntended(v);
    if x > v {
      assert AdmitsNumber(q.disjuncts[0], x);
    } else if x < v {
      assert AdmitsNumber(q.disjuncts[1], x);
    }
  }

  /** As written, `!=` conjoins "above v" with "below v", which no value satisfies. */
  lemma NotEqualAsWrittenAdmitsNothing(v: real, x: real)
    ensures NumberRange(Ne, v).Conjunction?
    ensures !AdmitsNumber(NumberRange(Ne, v), x)
  {
    var q := NumberRange(Ne, v);
    assert !AdmitsNumber(q.conjuncts[0], x) || !AdmitsNumber(q.conjuncts[1], x);
  }

  /** With the intended reading, `==v` and `!=v` partition the values. */
  lemma EqualAndNotEqualPartition(v: real, x: real)
    ensures AdmitsNumber(NumberRange(Eq, v), x) != AdmitsNumber(NotEqualIntended(v), x)
  {
    NotEqualIntendedAdmitsOthers(v, x);
  }
  /** What `!=` evidently means for dates: the disjunction of the two exclusive half-ranges. */
  function DateNotEqualIntended(t: Time): Query
  {
    Disjunction([DateRange(t, ZeroTime, Some(false), None), DateRange(ZeroTime, t, None, Some(false))])
  }

  /** The intended `!=t` admits exactly the times other than t, for a literal that is not the
      zero time. */
  lemma DateNotEqualIntendedAdmitsOthers(t: Time, x: Time)
    requires t != ZeroTime
    ensures AdmitsDate(DateNotEqualIntended(t), x) <==> x != t
  {
    var q := DateNotEqualIntended(t);
    if x.nanos > t.nanos {
      assert AdmitsDate(q.disjuncts[0], x);
    } else if x.nanos < t.nanos {
      assert AdmitsDate(q.disjuncts[1], x);
    }
  }

  /** As written, the date `!=` conjoins "after t" with "before t", which no time satisfies
      unless t is the zero time. */
  lemma DateNotEqualAsWrittenAdmitsNothing(t: Time, x: Time)
    requires t != ZeroTime
    ensures DateRangeFor(Ne, t).Conjunction?
    ensures !AdmitsDate(DateRangeFor(Ne, t), x)
  {
    var q := DateRangeFor(Ne, t);
    assert !AdmitsDate(q.conjuncts[0], x) || !AdmitsDate(q.conjuncts[1], x);
  }


  // ---------------------------------------------------------------------------------------
  // Shape of every compiled query

  /** Every match names a field the index resolves to a text-like type; every bound carries its
      inclusiveness flag and every range has at least one; no combination has a single child. */
  predicate WellFormed(q: Query, tables: FieldTables)
  {
    match q
    case MatchAll => true
    case Match(field, _) => Lookup(tables, field).Some? && IsTextLike(Lookup(tables, field).value)
    case NumericRange(min, max, minInc, maxInc) =>
      min.Some? == minInc.Some? && max.Some? == maxInc.Some? && (min.Some? || max.Some?)
    case DateRange(start, end, startInc, endInc) =>
      (startInc.Some? || endInc.Some?) && (startInc.None? ==> start == ZeroTime) && (endInc.None? ==> end == ZeroTime)
    case Conjunction(qs) => |qs| >= 2 && forall i :: 0 <= i < |qs| ==> WellFormed(qs[i], tables)
    case Disjunction(qs) => |qs| >= 2 && forall i :: 0 <= i < |qs| ==> WellFormed(qs[i], tables)
  }

  /** Every query the compiler produces is well formed. */
  lemma {:induction false} CompiledQueryWellFormed(f: Option<Filter>, tables: FieldTables, parsers: LiteralParsers)
    requires CompileFilter(f, tables, parsers).Success?
    ensures WellFormed(CompileFilter(f, tables, parsers).value, tables)
    decreases f
  {
    match f
    case None =>
    case Some(g) =>
      if g.base != "" {
        BaseQueryWellFormed(g.base, tables, parsers);
      } else if Len(g.and) != 0 {
        CompiledChildrenWellFormed(g.and.elems, tables, parsers);
        CompileAllSucceeds(g.and.elems, tables, parsers);
      } else {
        CompiledChildrenWellFormed(g.or.elems, tables, parsers);
        CompileAllSucceeds(g.or.elems, tables, parsers);
      }
  }

  lemma {:induction false} CompiledChildrenWellFormed(cs: seq<Option<Filter>>, tables: FieldTables, parsers: LiteralParsers)
    requires CompileAll(cs, tables, parsers).Success?
    ensures forall i :: 0 <= i < |CompileAll(cs, tables, parsers).value| ==>
      WellFormed(CompileAll(cs, tables, parsers).value[i], tables)
    decreases cs, 0
  {
    if |cs| > 0 {
      CompiledChildrenWellFormed(cs[..|cs| - 1], tables, parsers);
      CompiledQueryWellFormed(cs[|cs| - 1], tables, parsers);
    }
  }

  lemma BaseQueryWellFormed(base: string, tables: FieldTables, parsers: LiteralParsers)
    requires CompileBase(base, tables, parsers).Success?
    ensures WellFormed(CompileBase(base, tables, parsers).value, tables)
  {
    var fixes := SplitFirst(base, ':');
    var t := Lookup(tables, fixes[0]).value;
    if t == NUMBER {
      var (op, literal) := RangeOperator(fixes[1]).value;
      RangeWellFormed(op, parsers.parseNum(literal).value, ZeroTime, tables);
    } else if t == DATE {
      var (op, literal) := RangeOperator(fixes[1]).value;
      RangeWellFormed(op, 0.0, parsers.parseDate(literal).value, tables);
    }
  }

  lemma RangeWellFormed(op: Op, v: real, t: Time, tables: FieldTables)
    ensures WellFormed(NumberRange(op, v), tables)
    ensures WellFormed(DateRangeFor(op, t), tables)
  {
  }

  // ---------------------------------------------------------------------------------------
  // The example of webserver/pkg/search/filter_test.go

  function BaseNode(s: string): Option<Filter>
  {
    Some(Filter(s, NilSlice, NilSlice))
  }

  /** userId:Rob AND (createdTimestamp:<1 OR createdTimestamp:>=5) compiles to a match on
      field userId with text Rob, conjoined with the disjunction of (-inf, 1) and [5, +inf). */
  lemma FilterConversionExample(parsers: LiteralParsers)
    requires parsers.parseNum("1") == Some(1.0) && parsers.parseNum("5") == Some(5.0)
    ensures CompileFilter(
              AndNode([BaseNode("userId:Rob"),
                       OrNode([BaseNode("createdTimestamp:<1"), BaseNode("createdTimestamp:>=5")], NilSlice)]),
              PredicateTables, parsers)
         == Success(Conjunction([
              Match("userId", "Rob"),
              Disjunction([NumericRange(None, Some(1.0), None, Some(false)),
                           NumericRange(Some(5.0), None, Some(true), None)])]))
  {
    ExampleMatchLeaf(parsers);
    ExampleBelowOne(parsers);
    ExampleFromFive(parsers);
    AndOfOrExample(BaseNode("userId:Rob"), BaseNode("createdTimestamp:<1"), BaseNode("createdTimestamp:>=5"),
                   Match("userId", "Rob"), NumericRange(None, Some(1.0), None, Some(false)),
                   NumericRange(Some(5.0), None, Some(true), None), parsers);
  }

  /** The shape of the example: a two-child `and` whose second child is a two-child `or`. */
  lemma AndOfOrExample(a: Option<Filter>, b: Option<Filter>, c: Option<Filter>, qa: Query, qb: Query, qc: Query,
                       parsers: LiteralParsers)
    requires CompileFilter(a, PredicateTables, parsers) == Success(qa)
    requires CompileFilter(b, PredicateTables, parsers) == Success(qb)
    requires CompileFilter(c, PredicateTables, parsers) == Success(qc)
    ensures CompileFilter(AndNode([a, OrNode([b, c], NilSlice)]), PredicateTables, parsers)
         == Success(Conjunction([qa, Disjunction([qb, qc])]))
  {
    var ors := [b, c];
    OrNodeCombines(ors, NilSlice, PredicateTables, parsers);
    var or := OrNode(ors, NilSlice);
    var d := CompileFilter(or, PredicateTables, parsers).value.disjuncts;
    assert d[0] == qb && d[1] == qc;
    assert d == [qb, qc];
    var ands := [a, or];
    AndNodeCombines(ands, PredicateTables, parsers);
    var k := CompileFilter(AndNode(ands), PredicateTables, parsers).value.conjuncts;
    assert k[0] == qa && k[1] == Disjunction([qb, qc]);
    assert k == [qa, Disjunction([qb, qc])];
  }

  lemma ExampleBelowOne(parsers: LiteralParsers)
    requires parsers.parseNum("1") == Some(1.0)
    ensures CompileFilter(BaseNode("createdTimestamp:<1"), PredicateTables, parsers)
         == Success(NumericRange(None, Some(1.0), None, Some(false)))
  {
    ExampleRangeLeaf(Lt, "1", 1.0, parsers);
    assert "createdTimestamp" + [':'] + (OpText(Lt) + "1") == "createdTimestamp:<1";
  }

  lemma ExampleFromFive(parsers: LiteralParsers)
    requires parsers.parseNum("5") == Some(5.0)
    ensures CompileFilter(BaseNode("createdTimestamp:>=5"), PredicateTables, parsers)
         == Success(NumericRange(Some(5.0), None, Some(true), None))
  {
    ExampleRangeLeaf(Ge, "5", 5.0, parsers);
    assert "createdTimestamp" + [':'] + (OpText(Ge) + "5") == "createdTimestamp:>=5";
  }

  lemma ExampleMatchLeaf(parsers: LiteralParsers)
    ensures CompileFilter(BaseNode("userId:Rob"), PredicateTables, parsers) == Success(Match("userId", "Rob"))
  {
    LookupFindsFirst(PredicateTables, "userId", 0);
    SplitFirstOfJoined("userId", "Rob", ':');
    assert "userId" + [':'] + "Rob" == "userId:Rob";
  }

  lemma ExampleRangeLeaf(op: Op, literal: string, v: real, parsers: LiteralParsers)
    requires parsers.parseNum(literal) == Some(v) && |literal| > 0 && literal[0] != '='
    ensures CompileFilter(BaseNode("createdTimestamp" + [':'] + (OpText(op) + literal)), PredicateTables, parsers)
         == Success(NumberRange(op, v))
  {
    var suffix := OpText(op) + literal;
    LookupFindsFirst(PredicateTables, "createdTimestamp", 0);
    SplitFirstOfJoined("createdTimestamp", suffix, ':');
    RangeOperatorRoundTrip(op, literal);
    assert FilterOfType("createdTimestamp", suffix, NUMBER, parsers) == Success(NumberRange(op, v));
    assert CompileBase("createdTimestamp" + [':'] + suffix, PredicateTables, parsers) == Success(NumberRange(op, v));
  }
}
