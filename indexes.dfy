/** An index: a named, ordered list of document schemas (webserver/pkg/search/index.go), and
    the field resolution the filter and sort compilers perform over it. */
module Indexes {
  import opened Results
  import opened Fields
  import opened Documents

  /** WithDocument(doc), the one kind of index option. */
  datatype IndexOption = WithDocument(doc: Document)

  class Index {
    const name: string
    var documents: seq<Document>

    constructor (name: string)
      ensures this.name == name && documents == []
    {
      this.name := name;
      documents := [];
    }

    /** Runs an option's closure: the document is appended, and the option never fails. */
    method ApplyOption(opt: IndexOption) returns (err: Option<Error>)
      modifies this
      ensures err.None?
      ensures documents == old(documents) + [opt.doc]
    {
      documents := documents + [opt.doc];
      err := None;
    }

    /** The field tables of the documents, in index order: all that field resolution reads. */
    function Schema(): (s: FieldTables)
      reads this, documents
      ensures |s| == |documents|
      ensures forall i :: 0 <= i < |s| ==> s[i] == documents[i].fields
    {
      seq(|documents|, i reads this, documents requires 0 <= i < |documents| => documents[i].fields)
    }
  }

  /** The documents the options carry, in option order. */
  function DocumentsOf(opts: seq<IndexOption>): (docs: seq<Document>)
    ensures |docs| == |opts|
    ensures forall i :: 0 <= i < |opts| ==> docs[i] == opts[i].doc
  {
    if |opts| == 0 then [] else DocumentsOf(opts[..|opts| - 1]) + [opts[|opts| - 1].doc]
  }

  /** BuildIndex: a fresh index holding the options' documents in order. No check is made
      across documents, so repeated documents and repeated field names are all kept. */
  method BuildIndex(name: string, opts: seq<IndexOption>) returns (index: Index)
    ensures fresh(index) && index.name == name
    ensures index.documents == DocumentsOf(opts)
  {
    index := new Index(name);
    for i := 0 to |opts|
      invariant index.documents == DocumentsOf(opts[..i])
    {
      assert opts[..i + 1][..i] == opts[..i];
      var _ := index.ApplyOption(opts[i]);
    }
    assert opts[..|opts|] == opts;
  }

  /** The field tables of an index's documents, in document order. */
  type FieldTables = seq<map<string, FType>>

  /** Field resolution: the type the first document (in index order) that has the field gives
      it. Sub-documents are not searched. */
  function Lookup(tables: FieldTables, field: string): Option<FType>
  {
    if |tables| == 0 then None
    else if field in tables[0] then Some(tables[0][field])
    else Lookup(tables[1..], field)
  }

  /** The first document that has the field decides its type. */
  lemma {:induction false} LookupFindsFirst(tables: FieldTables, field: string, i: nat)
    requires i < |tables| && field in tables[i]
    requires forall j :: 0 <= j < i ==> field !in tables[j]
    ensures Lookup(tables, field) == Some(tables[i][field])
  {
    if i > 0 {
      LookupFindsFirst(tables[1..], field, i - 1);
    }
  }

  /** Resolution fails only when no document has the field. */
  lemma {:induction false} LookupMisses(tables: FieldTables, field: string)
    ensures Lookup(tables, field).None? <==> forall j :: 0 <= j < |tables| ==> field !in tables[j]
  {
    if |tables| > 0 {
      LookupMisses(tables[1..], field);
      if field !in tables[0] {
        assert forall j :: 1 <= j < |tables| ==> tables[j] == tables[1..][j - 1];
      }
    }
  }

  /** A resolved type always comes from the first document having the field. */
  lemma {:induction false} LookupSound(tables: FieldTables, field: string)
    requires Lookup(tables, field).Some?
    ensures exists i :: (0 <= i < |tables| && field in tables[i] && Lookup(tables, field) == Some(tables[i][field])
                         && forall j :: 0 <= j < i ==> field !in tables[j])
  {
    if field !in tables[0] {
      LookupSound(tables[1..], field);
      var i :| 0 <= i < |tables[1..]| && field in tables[1..][i] && Lookup(tables[1..], field) == Some(tables[1..][i][field])
        && forall j :: 0 <= j < i ==> field !in tables[1..][j];
      assert forall j :: 0 <= j < i + 1 ==> field !in tables[j] by {
        forall j | 0 <= j < i + 1 ensures field !in tables[j] {
          if j > 0 { assert tables[j] == tables[1..][j - 1]; }
        }
      }
    } else {
      assert field in tables[0];
    }
  }

  /** The schema of the "predicate" index the package's tests build: one document with two
      keyword fields and two number fields. */
  const PredicateTables: FieldTables :=
    [map["userId" := KEYWORD, "tags" := KEYWORD, "createdTimestamp" := NUMBER, "updatedTimestamp" := NUMBER]]
}
