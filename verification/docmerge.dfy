/** Combining the curated resource documents with the filtered tool
    documents: the curated list first, then every tool document whose name
    no curated document already carries. */
module DocMerge {
  import opened Wrappers
  import opened Seqs
  import opened Documents

  /** Indexing the `name` key of a document that lacks it raises `KeyError`. */
  datatype MergeError = MissingName

  /** The set of names the documents carry. */
  function NamesOf(docs: seq<Document>): (names: set<string>)
    ensures forall i :: 0 <= i < |docs| && docs[i].name.Some? ==> docs[i].name.value in names
    ensures forall n :: n in names ==> exists i :: 0 <= i < |docs| && docs[i].name == Some(n)
  {
    set d | d in docs && d.name.Some? :: d.name.value
  }

  /** The document's name is one of `names`; exact, case-sensitive comparison. */
  predicate NameAmong(names: set<string>, doc: Document) {
    doc.name.Some? && doc.name.value in names
  }

  /** The curated list followed by the tool documents whose name is new.
      Fails when any curated or tool document lacks a name; otherwise the
      result starts with the curated list unchanged, duplicates included, and
      continues with exactly the tool documents carrying a new name, in order. */
  function Merge(curated: seq<Document>, tools: seq<Document>): (r: Result<seq<Document>, MergeError>)
    ensures r.Failure? <==> !AllNamed(curated) || !AllNamed(tools)
    ensures r.Success? ==> |curated| <= |r.value| <= |curated| + |tools|
    ensures r.Success? ==> r.value[..|curated|] == curated
    ensures r.Success? ==> IsSubsequence(r.value[|curated|..], tools)
    ensures r.Success? ==> forall i :: |curated| <= i < |r.value| ==> !NameAmong(NamesOf(curated), r.value[i])
    ensures r.Success? ==> forall d :: multiset(r.value[|curated|..])[d] ==
                                      if NameAmong(NamesOf(curated), d) then 0 else multiset(tools)[d]
  {
    if !AllNamed(curated) || !AllNamed(tools) then Failure(MissingName)
    else
      var existing := NamesOf(curated);
      var additional := Filter(tools, d => !NameAmong(existing, d));
      assert (curated + additional)[|curated|..] == additional;
      Success(curated + additional)
  }

  /** With no tool documents the curated list comes back as it is. */
  lemma MergeWithNothing(curated: seq<Document>)
    requires AllNamed(curated)
    ensures Merge(curated, []) == Success(curated)
  {
    var r := Merge(curated, []).value;
    assert r == r[..|curated|];
  }

  /** Merging a list with itself adds nothing: every entry is a duplicate. */
  lemma MergeWithItself(curated: seq<Document>)
    requires AllNamed(curated)
    ensures Merge(curated, curated) == Success(curated)
  {
    var r := Merge(curated, curated).value;
    var added := r[|curated|..];
    assert multiset(added) == multiset{} by {
      forall d
        ensures multiset(added)[d] == 0
      {
        if d in curated {
          assert NameAmong(NamesOf(curated), d);
        }
      }
    }
    assert |added| == |multiset(added)| == 0;
    assert r == r[..|curated|] + added;
    assert r == curated;
    assert Merge(curated, curated).Success?;
  }

  /** No name is lost and none is invented: the names of the merged list are
      the curated names together with the tool names. */
  lemma MergeKeepsAllNames(curated: seq<Document>, tools: seq<Document>)
    requires AllNamed(curated) && AllNamed(tools)
    ensures NamesOf(Merge(curated, tools).value) == NamesOf(curated) + NamesOf(tools)
  {
    var r := Merge(curated, tools).value;
    var existing := NamesOf(curated);
    var added := r[|curated|..];
    assert r == curated + added;
    forall n | n in NamesOf(r)
      ensures n in existing + NamesOf(tools)
    {
      var i :| 0 <= i < |r| && r[i].name == Some(n);
      if i >= |curated| {
        assert added[i - |curated|] == r[i];
        assert r[i] in multiset(added);
        assert r[i] in multiset(tools);
        var j :| 0 <= j < |tools| && tools[j] == r[i];
      }
    }
    forall n | n in NamesOf(tools)
      ensures n in NamesOf(r)
    {
      var j :| 0 <= j < |tools| && tools[j].name == Some(n);
      if n !in existing {
        assert tools[j] in multiset(tools);
        assert tools[j] in multiset(added);
        var k :| 0 <= k < |added| && added[k] == tools[j];
        assert r[|curated| + k] == tools[j];
      }
    }
  }

  /** Curated `A` and tools `A`, `B` merge into `A`, `B`. */
  lemma MergeExample()
    ensures Merge([Named("A")], [Named("A"), Named("B")]) == Success([Named("A"), Named("B")])
  {
    var a := Named("A");
    var b := Named("B");
    assert NamesOf([a]) == {"A"};
    assert AllNamed([a]) && AllNamed([a, b]);
    assert Merge([a], [a, b]).Success?;
    var r := Merge([a], [a, b]).value;
    var added := r[1..];
    assert NameAmong(NamesOf([a]), a) && !NameAmong(NamesOf([a]), b);
    assert multiset(added) == multiset{b} by {
      forall d
        ensures multiset(added)[d] == multiset{b}[d]
      {
      }
    }
    assert |added| == |multiset(added)| == 1;
    assert b in multiset(added);
    assert added == [b];
    assert r == [a] + added == [a, b];
    assert Merge([a], [a, b]) == Success(r);
  }
}
