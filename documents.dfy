/** Document schemas built from a sequence of field and sub-document options
    (pkg/search/document.go). */
module Documents {
  import opened Results
  import opened Fields

  /** WithField(name, fType) and WithSubDocument(subDoc): the two kinds of option. */
  datatype DocumentOption =
    | WithField(name: string, fType: FType)
    | WithSubDocument(subDoc: Document)

  /** The name an option declares in the document it is applied to. */
  function DeclaredName(opt: DocumentOption): string
  {
    match opt
    case WithField(name, _) => name
    case WithSubDocument(d) => d.name
  }

  /** The two name tables of a document. */
  datatype Layout = Layout(fields: map<string, FType>, subDocs: map<string, Document>)

  const EmptyLayout := Layout(map[], map[])

  /** Field names and sub-document names never overlap. */
  predicate Disjoint(l: Layout)
  {
    l.fields.Keys !! l.subDocs.Keys
  }

  /** What applying one option does to a layout: the checks of each option's closure,
      in their order, then the insertion. */
  function Apply(l: Layout, opt: DocumentOption): (r: Result<Layout>)
    ensures r.Success? <==> DeclaredName(opt) !in l.fields && DeclaredName(opt) !in l.subDocs
    ensures r.Success? && opt.WithField? ==>
      r.value == Layout(l.fields[opt.name := opt.fType], l.subDocs)
    ensures r.Success? && opt.WithSubDocument? ==>
      r.value == Layout(l.fields, l.subDocs[opt.subDoc.name := opt.subDoc])
  {
    match opt
    case WithField(name, fType) =>
      if name in l.fields then Failure(DuplicateField(name))
      else if name in l.subDocs then Failure(FieldOverlapsSubDocument(name))
      else Success(Layout(l.fields[name := fType], l.subDocs))
    case WithSubDocument(d) =>
      if d.name in l.fields then Failure(SubDocumentOverlapsField(d.name))
      else if d.name in l.subDocs then Failure(DuplicateSubDocument(d.name))
      else Success(Layout(l.fields, l.subDocs[d.name := d]))
  }

  /** Applying the options in order from the empty layout; the first failing option
      aborts the whole construction. */
  function Build(opts: seq<DocumentOption>): Result<Layout>
  {
    if |opts| == 0 then Success(EmptyLayout)
    else
      match Build(opts[..|opts| - 1])
      case Failure(e) => Failure(e)
      case Success(l) => Apply(l, opts[|opts| - 1])
  }

  /** The names declared by a sequence of options. */
  function DeclaredNames(opts: seq<DocumentOption>): set<string>
  {
    set i | 0 <= i < |opts| :: DeclaredName(opts[i])
  }

  /** No two options declare the same name. */
  predicate NamesDistinct(opts: seq<DocumentOption>)
  {
    forall i, j :: 0 <= i < j < |opts| ==> DeclaredName(opts[i]) != DeclaredName(opts[j])
  }

  /** A document can be built exactly when its options declare pairwise distinct names; the
      result then holds every declared name once, as a field or as a sub-document but
      never both. */
  lemma {:induction false} BuildSucceedsIffNamesDistinct(opts: seq<DocumentOption>)
    ensures Build(opts).Success? <==> NamesDistinct(opts)
    ensures Build(opts).Success? ==>
      && Disjoint(Build(opts).value)
      && Build(opts).value.fields.Keys + Build(opts).value.subDocs.Keys == DeclaredNames(opts)
  {
    if |opts| > 0 {
      BuildSucceedsIffNamesDistinct(opts[..|opts| - 1]);
      DeclaredNamesSnoc(opts);
      NamesDistinctSnoc(opts);
    }
  }

  lemma DeclaredNamesSnoc(opts: seq<DocumentOption>)
    requires |opts| > 0
    ensures DeclaredNames(opts) == DeclaredNames(opts[..|opts| - 1]) + {DeclaredName(opts[|opts| - 1])}
  {
    var init := opts[..|opts| - 1];
    forall n | n in DeclaredNames(opts) ensures n in DeclaredNames(init) + {DeclaredName(opts[|opts| - 1])} {
      var i :| 0 <= i < |opts| && DeclaredName(opts[i]) == n;
      if i < |opts| - 1 { assert init[i] == opts[i]; }
    }
    forall n | n in DeclaredNames(init) ensures n in DeclaredNames(opts) {
      var i :| 0 <= i < |init| && DeclaredName(init[i]) == n;
      assert opts[i] == init[i];
    }
  }

  lemma NamesDistinctSnoc(opts: seq<DocumentOption>)
    requires |opts| > 0
    ensures NamesDistinct(opts) <==>
      NamesDistinct(opts[..|opts| - 1]) && DeclaredName(opts[|opts| - 1]) !in DeclaredNames(opts[..|opts| - 1])
  {
    var init := opts[..|opts| - 1];
    var last := opts[|opts| - 1];
    if NamesDistinct(opts) {
      forall i, j | 0 <= i < j < |init| ensures DeclaredName(init[i]) != DeclaredName(init[j]) {
        assert init[i] == opts[i] && init[j] == opts[j];
      }
      forall i | 0 <= i < |init| ensures DeclaredName(init[i]) != DeclaredName(last) {
        assert init[i] == opts[i];
      }
    }
    if NamesDistinct(init) && DeclaredName(last) !in DeclaredNames(init) {
      forall i, j | 0 <= i < j < |opts| ensures DeclaredName(opts[i]) != DeclaredName(opts[j]) {
        assert init[i] == opts[i];
        if j < |opts| - 1 {
          assert init[j] == opts[j];
        }
      }
    }
  }

  /** Every field option of a successful build is in the field table with its type, and
      every sub-document option is in the sub-document table under its name. */
  lemma {:induction false} BuildRecordsEveryOption(opts: seq<DocumentOption>, i: nat)
    requires Build(opts).Success? && i < |opts|
    ensures opts[i].WithField? ==>
      opts[i].name in Build(opts).value.fields && Build(opts).value.fields[opts[i].name] == opts[i].fType
    ensures opts[i].WithSubDocument? ==>
      opts[i].subDoc.name in Build(opts).value.subDocs && Build(opts).value.subDocs[opts[i].subDoc.name] == opts[i].subDoc
  {
    var init := opts[..|opts| - 1];
    if i < |opts| - 1 {
      BuildRecordsEveryOption(init, i);
      assert init[i] == opts[i];
      BuildSucceedsIffNamesDistinct(opts);
    }
  }

  /** A document schema: a name, its typed fields and its named sub-documents. */
  class Document {
    const name: string
    var fields: map<string, FType>
    var subDocs: map<string, Document>

    function View(): Layout
      reads this
    {
      Layout(fields, subDocs)
    }

    ghost predicate Valid()
      reads this
    {
      Disjoint(View())
    }

    constructor (name: string)
      ensures this.name == name && fields == map[] && subDocs == map[]
    {
      this.name := name;
      fields := map[];
      subDocs := map[];
    }

    /** Runs one option's closure on this document: on success exactly the declared entry is
        added, on failure nothing changes, because every check precedes the insertion. */
    method ApplyOption(opt: DocumentOption) returns (err: Option<Error>)
      modifies this
      ensures Apply(old(View()), opt).Success? ==> err.None? && View() == Apply(old(View()), opt).value
      ensures Apply(old(View()), opt).Failure? ==> err == Some(Apply(old(View()), opt).error) && unchanged(this)
      ensures old(Valid()) && err.None? ==> Valid()
    {
      match opt
      case WithField(n, fType) =>
        if n in fields {
          return Some(DuplicateField(n));
        }
        if n in subDocs {
          return Some(FieldOverlapsSubDocument(n));
        }
        fields := fields[n := fType];
        err := None;
      case WithSubDocument(d) =>
        if d.name in fields {
          return Some(SubDocumentOverlapsField(d.name));
        }
        if d.name in subDocs {
          return Some(DuplicateSubDocument(d.name));
        }
        subDocs := subDocs[d.name := d];
        err := None;
    }
  }

  /** BuildDocument: a fresh document to which the options are applied in order; the first
      failing option aborts construction (a panic in the source). */
  method BuildDocument(name: string, opts: seq<DocumentOption>) returns (r: Result<Document>)
    ensures r.Failure? <==> Build(opts).Failure?
    ensures r.Failure? ==> r.error == Build(opts).error
    ensures r.Success? ==>
      && fresh(r.value) && r.value.name == name
      && r.value.View() == Build(opts).value && r.value.Valid()
  {
    var doc := new Document(name);
    for i := 0 to |opts|
      invariant Build(opts[..i]).Success?
      invariant doc.View() == Build(opts[..i]).value && doc.Valid()
    {
      assert opts[..i + 1][..i] == opts[..i];
      var err := doc.ApplyOption(opts[i]);
      if err.Some? {
        PrefixFailurePersists(opts, i + 1);
        return Failure(err.value);
      }
    }
    assert opts[..|opts|] == opts;
    return Success(doc);
  }

  /** Once a prefix of the options fails, the whole sequence fails with the same error. */
  lemma {:induction false} PrefixFailurePersists(opts: seq<DocumentOption>, k: nat)
    requires k <= |opts| && Build(opts[..k]).Failure?
    ensures Build(opts) == Build(opts[..k])
  {
    if k < |opts| {
      assert opts[..|opts| - 1][..k] == opts[..k];
      PrefixFailurePersists(opts[..|opts| - 1], k);
    } else {
      assert opts[..k] == opts;
    }
  }
}
