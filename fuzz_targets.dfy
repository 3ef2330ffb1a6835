/** The resource layout shared by all fuzz targets: every target either owns a
    dictionary and a corpus, found under a directory named after it, or
    borrows those of the target that owns them.

      <root>/<Owner>/<owner, ASCII lower-cased>.dictionary
      <root>/<Owner>/Corpus

    This is the reference definition that the per-target locators are proved
    against. */
module FuzzTargets {
  import opened PathText

  /** The parsing surfaces under fuzzing. */
  datatype Target = FieldPath | CollectionReference | FIRQuery

  /** The directory name of a target's resources. */
  function Name(t: Target): (n: string)
  {
    match t
    case FieldPath => "FieldPath"
    case CollectionReference => "CollectionReference"
    case FIRQuery => "FIRQuery"
  }

  /** The target whose dictionary and corpus `t` uses. The collection
      reference uses the same dictionary and corpus as the field path (the
      headers do not say why); an owner never borrows in turn. */
  function Owner(t: Target): (o: Target)
    ensures o != CollectionReference
    ensures o == t <==> t != CollectionReference
    ensures t == CollectionReference ==> o == FieldPath
  {
    match t
    case CollectionReference => FieldPath
    case _ => t
  }

  /** `/<Owner>/`, the directory below the root that holds both resources. */
  function OwnerDirectory(t: Target): (d: string)
  {
    "/" + Name(Owner(t)) + "/"
  }

  /** The dictionary's path relative to the root. */
  function DictionaryPath(t: Target): (p: string)
  {
    OwnerDirectory(t) + ToLowerAscii(Name(Owner(t))) + ".dictionary"
  }

  /** The corpus directory's path relative to the root. */
  function CorpusPath(t: Target): (p: string)
  {
    OwnerDirectory(t) + "Corpus"
  }

  function DictionaryLocation(root: string, t: Target): (r: string)
  {
    root + DictionaryPath(t)
  }

  function CorpusLocation(root: string, t: Target): (r: string)
  {
    root + CorpusPath(t)
  }

  /** The relative paths written out for each owner, with its lower-cased file
      name. */
  lemma LayoutOfOwners()
    ensures DictionaryPath(FieldPath) == "/FieldPath/fieldpath.dictionary"
    ensures CorpusPath(FieldPath) == "/FieldPath/Corpus"
    ensures DictionaryPath(FIRQuery) == "/FIRQuery/firquery.dictionary"
    ensures CorpusPath(FIRQuery) == "/FIRQuery/Corpus"
  {
    FieldPathLayout();
    FIRQueryLayout();
  }

  /** FieldPath's relative paths and dictionary file name. */
  lemma FieldPathLayout()
    ensures ToLowerAscii("FieldPath") == "fieldpath"
    ensures DictionaryPath(FieldPath) == "/FieldPath/fieldpath.dictionary"
    ensures CorpusPath(FieldPath) == "/FieldPath/Corpus"
  {
    FieldPathFileName();
    assert OwnerDirectory(FieldPath) == "/FieldPath/";
  }

  lemma FieldPathFileName()
    ensures ToLowerAscii("FieldPath") == "fieldpath"
  {
  }

  /** FIRQuery's relative paths and dictionary file name. */
  lemma FIRQueryLayout()
    ensures ToLowerAscii("FIRQuery") == "firquery"
    ensures DictionaryPath(FIRQuery) == "/FIRQuery/firquery.dictionary"
    ensures CorpusPath(FIRQuery) == "/FIRQuery/Corpus"
  {
    FIRQueryFileName();
    assert OwnerDirectory(FIRQuery) == "/FIRQuery/";
  }

  lemma FIRQueryFileName()
    ensures ToLowerAscii("FIRQuery") == "firquery"
  {
  }

  /** Two targets whose owners differ never resolve to the same dictionary or
      the same corpus, whatever roots they are given: the character just
      before ".dictionary" (and just before "/Corpus") tells the owners
      apart. */
  lemma {:induction false} DistinctOwnersNeverCollide(root1: string, root2: string, t1: Target, t2: Target)
    requires Owner(t1) != Owner(t2)
    ensures DictionaryLocation(root1, t1) != DictionaryLocation(root2, t2)
    ensures CorpusLocation(root1, t1) != CorpusLocation(root2, t2)
  {
    LayoutOfOwners();
    var p1, p2 := DictionaryPath(Owner(t1)), DictionaryPath(Owner(t2));
    var q1, q2 := CorpusPath(Owner(t1)), CorpusPath(Owner(t2));
    assert p1 == DictionaryPath(t1) && p2 == DictionaryPath(t2);
    assert q1 == CorpusPath(t1) && q2 == CorpusPath(t2);
    assert p1[|p1| - 12] != p2[|p2| - 12];
    assert q1[|q1| - 8] != q2[|q2| - 8];
    CharFromEnd(root1, p1, 12);
    CharFromEnd(root2, p2, 12);
    CharFromEnd(root1, q1, 8);
    CharFromEnd(root2, q2, 8);
  }

  /** Under one root, two targets share a dictionary, and likewise a corpus,
      exactly when they have the same owner. */
  lemma SharedResourcesIffSameOwner(root: string, t1: Target, t2: Target)
    ensures DictionaryLocation(root, t1) == DictionaryLocation(root, t2) <==> Owner(t1) == Owner(t2)
    ensures CorpusLocation(root, t1) == CorpusLocation(root, t2) <==> Owner(t1) == Owner(t2)
  {
  }

  /** A borrowing target's paths never spell its own name outside the root:
      any occurrence of the name lies wholly inside the root. */
  lemma {:induction false} BorrowedPathsOmitOwnName(root: string, t: Target, i: int)
    requires Owner(t) != t
    ensures OccursAt(Name(t), DictionaryLocation(root, t), i) ==> i + |Name(t)| <= |root|
    ensures OccursAt(Name(t), CorpusLocation(root, t), i) ==> i + |Name(t)| <= |root|
  {
    LayoutOfOwners();
    assert Name(t) == "CollectionReference";
    OccurrenceInsidePrefix(Name(t), root, DictionaryPath(t), i);
    OccurrenceInsidePrefix(Name(t), root, CorpusPath(t), i);
  }
}
