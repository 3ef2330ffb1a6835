/** Resource locations of the collection-reference fuzz target. This target
    has no resources of its own: it uses the same dictionary and corpus as the
    field path. The header does not say why. */
module FuzzTestCollectionReference {
  import opened PathText
  import opened FuzzTargets

  /** The dictionary file: the field path's, under any root. */
  function GetCollectionReferenceDictionaryLocation(resourcesLocation: string): (r: string)
    ensures r == DictionaryLocation(resourcesLocation, FieldPath)
    ensures r == DictionaryLocation(resourcesLocation, CollectionReference)
    ensures |r| == |resourcesLocation| + 31 && r[..|resourcesLocation|] == resourcesLocation
  {
    LayoutOfOwners();
    resourcesLocation + "/FieldPath/fieldpath.dictionary"
  }

  /** The corpus directory: the field path's, under any root. */
  function GetCollectionReferenceCorpusLocation(resourcesLocation: string): (r: string)
    ensures r == CorpusLocation(resourcesLocation, FieldPath)
    ensures r == CorpusLocation(resourcesLocation, CollectionReference)
    ensures |r| == |resourcesLocation| + 17 && r[..|resourcesLocation|] == resourcesLocation
  {
    LayoutOfOwners();
    resourcesLocation + "/FieldPath/Corpus"
  }

  /** Both locations sit in the directory `<root>/FieldPath/`, and the
      dictionary's file name is that directory's name lower-cased. */
  lemma CollectionReferenceSharesFieldPathDirectory(root: string)
    ensures GetCollectionReferenceDictionaryLocation(root)[..|root| + 11] == root + "/FieldPath/"
    ensures GetCollectionReferenceCorpusLocation(root)[..|root| + 11] == root + "/FieldPath/"
    ensures GetCollectionReferenceDictionaryLocation(root)[|root| + 11..]
         == ToLowerAscii("FieldPath") + ".dictionary"
    ensures GetCollectionReferenceCorpusLocation(root)[|root| + 11..] == "Corpus"
  {
    FieldPathLayout();
    // Without the two asserts below, the first ensures fails on some solver seeds.
    var d, c := GetCollectionReferenceDictionaryLocation(root), GetCollectionReferenceCorpusLocation(root);
    assert d == (root + "/FieldPath/") + "fieldpath.dictionary";
    assert c == (root + "/FieldPath/") + "Corpus";
  }

  /** Neither location spells "CollectionReference" outside the root. */
  lemma CollectionReferencePathsOmitOwnName(root: string, i: int)
    ensures OccursAt("CollectionReference", GetCollectionReferenceDictionaryLocation(root), i)
        ==> i + 19 <= |root|
    ensures OccursAt("CollectionReference", GetCollectionReferenceCorpusLocation(root), i)
        ==> i + 19 <= |root|
  {
    BorrowedPathsOmitOwnName(root, CollectionReference, i);
  }

  /** Different roots give different dictionaries and different corpora. */
  lemma CollectionReferenceLocationsInjective(root1: string, root2: string)
    ensures GetCollectionReferenceDictionaryLocation(root1) == GetCollectionReferenceDictionaryLocation(root2)
        <==> root1 == root2
    ensures GetCollectionReferenceCorpusLocation(root1) == GetCollectionReferenceCorpusLocation(root2)
        <==> root1 == root2
  {
  }

  /** The root is used verbatim: a trailing separator is not stripped, so
      `<p>/` yields a doubled separator and a different path than `<p>`. */
  lemma CollectionReferenceKeepsTrailingSeparator(p: string)
    ensures OccursAt("//", GetCollectionReferenceDictionaryLocation(p + "/"), |p|)
    ensures OccursAt("//", GetCollectionReferenceCorpusLocation(p + "/"), |p|)
    ensures GetCollectionReferenceDictionaryLocation(p + "/") != GetCollectionReferenceDictionaryLocation(p)
    ensures GetCollectionReferenceCorpusLocation(p + "/") != GetCollectionReferenceCorpusLocation(p)
  {
  }
}
