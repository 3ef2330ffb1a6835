/** Resource locations of the query fuzz target, which owns its dictionary and
    corpus and finds them under a directory named after itself. */
module FuzzTestFIRQuery {
  import opened PathText
  import opened FuzzTargets
  import opened FuzzTestCollectionReference

  /** The dictionary file: the query target's own, under any root. */
  function GetFIRQueryDictionaryLocation(resourcesLocation: string): (r: string)
    ensures r == DictionaryLocation(resourcesLocation, FIRQuery)
    ensures |r| == |resourcesLocation| + 29 && r[..|resourcesLocation|] == resourcesLocation
  {
    LayoutOfOwners();
    resourcesLocation + "/FIRQuery/firquery.dictionary"
  }

  /** The corpus directory: the query target's own, under any root. */
  function GetFIRQueryCorpusLocation(resourcesLocation: string): (r: string)
    ensures r == CorpusLocation(resourcesLocation, FIRQuery)
    ensures |r| == |resourcesLocation| + 16 && r[..|resourcesLocation|] == resourcesLocation
  {
    LayoutOfOwners();
    resourcesLocation + "/FIRQuery/Corpus"
  }

  /** Both locations sit in the directory `<root>/FIRQuery/`, and the
      dictionary's file name is that directory's name lower-cased. */
  lemma FIRQuerySharesOwnDirectory(root: string)
    ensures GetFIRQueryDictionaryLocation(root)[..|root| + 10] == root + "/FIRQuery/"
    ensures GetFIRQueryCorpusLocation(root)[..|root| + 10] == root + "/FIRQuery/"
    ensures GetFIRQueryDictionaryLocation(root)[|root| + 10..] == ToLowerAscii("FIRQuery") + ".dictionary"
    ensures GetFIRQueryCorpusLocation(root)[|root| + 10..] == "Corpus"
  {
    FIRQueryLayout();
    // Without the two asserts below, the first ensures fails on some solver seeds.
    var d, c := GetFIRQueryDictionaryLocation(root), GetFIRQueryCorpusLocation(root);
    assert d == (root + "/FIRQuery/") + "firquery.dictionary";
    assert c == (root + "/FIRQuery/") + "Corpus";
  }

  /** Different roots give different dictionaries and different corpora. */
  lemma FIRQueryLocationsInjective(root1: string, root2: string)
    ensures GetFIRQueryDictionaryLocation(root1) == GetFIRQueryDictionaryLocation(root2) <==> root1 == root2
    ensures GetFIRQueryCorpusLocation(root1) == GetFIRQueryCorpusLocation(root2) <==> root1 == root2
  {
  }

  /** The query target does not alias: its locations differ from the
      collection-reference (that is, field-path) locations, under the same
      root and under any two roots. */
  lemma FIRQueryDoesNotAlias(root1: string, root2: string)
    ensures GetFIRQueryDictionaryLocation(root1) != GetCollectionReferenceDictionaryLocation(root2)
    ensures GetFIRQueryCorpusLocation(root1) != GetCollectionReferenceCorpusLocation(root2)
  {
    DistinctOwnersNeverCollide(root1, root2, FIRQuery, CollectionReference);
  }
}
