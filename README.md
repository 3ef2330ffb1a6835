# Firestore fuzz-resource locator

Firestore's fuzz tests feed fuzzer-generated bytes to several parsing
surfaces (field paths, collection references, queries). Each surface reads a
token dictionary and a seed corpus from a resources root. The headers
`FSTFuzzTestCollectionReference.h` and `FSTFuzzTestFIRQuery.h` give, for
their targets, the functions that turn the root into those two paths:

    <root>/<Owner>/<owner lower-cased>.dictionary
    <root>/<Owner>/Corpus

The query target owns its resources (`FIRQuery`). The collection-reference
target has none of its own: the comments at
`FSTFuzzTestCollectionReference.h:27` and `:32` say it uses the same
dictionary and corpus as the field path (`FieldPath`). The headers do not say
why.

The project has four modules:

- `PathText` (`path_text.dfy`) holds string helpers: ASCII lower-casing
  and substring occurrence.
- `FuzzTargets` (`fuzz_targets.dfy`) is the layout convention written once.
  It has the `Target` datatype, each target's directory `Name`, the `Owner`
  lookup (which target's resources a target uses), and the generic
  `DictionaryLocation` and `CorpusLocation`. Every path function of the
  headers is proved equal to this reference definition.
- `FuzzTestCollectionReference` (`collection_reference.dfy`) models
  `FSTFuzzTestCollectionReference.h`.
- `FuzzTestFIRQuery` (`fir_query.dfy`) models `FSTFuzzTestFIRQuery.h`.

C++ `std::string` is modelled as `string` (`seq<char>`). Every literal in these
headers is ASCII, so characters and bytes coincide.

The functions put no condition on the root. An empty root, or one ending in
`/`, is joined to the literal as it is. The model has no precondition either,
and a lemma shows that a trailing `/` produces a doubled separator.

## Model

| member | source | states |
|---|---|---|
| `FuzzTestCollectionReference.GetCollectionReferenceDictionaryLocation` | Firestore/Example/FuzzTests/FuzzingTargets/FSTFuzzTestCollectionReference.h:27-30 | For every root, including the empty string, the result is the FieldPath target's dictionary under the layout convention. It is also what the convention resolves for CollectionReference through its owner. It extends the root by exactly 31 characters. |
| `FuzzTestCollectionReference.GetCollectionReferenceCorpusLocation` | Firestore/Example/FuzzTests/FuzzingTargets/FSTFuzzTestCollectionReference.h:32-35 | For every root, the result is the FieldPath target's corpus under the convention, and so CollectionReference's through its owner. It extends the root by exactly 17 characters. |
| `FuzzTestCollectionReference.CollectionReferenceSharesFieldPathDirectory` | Firestore/Example/FuzzTests/FuzzingTargets/FSTFuzzTestCollectionReference.h:28-35 | Both locations begin with `root + "/FieldPath/"`. The rest is the ASCII lower-casing of "FieldPath" plus ".dictionary" for the dictionary, and "Corpus" for the corpus. |
| `FuzzTestCollectionReference.CollectionReferencePathsOmitOwnName` | Firestore/Example/FuzzTests/FuzzingTargets/FSTFuzzTestCollectionReference.h:27-35 | Any occurrence of "CollectionReference" in either location lies wholly inside the root, so the target never resolves to its own name. |
| `FuzzTestCollectionReference.CollectionReferenceLocationsInjective` | Firestore/Example/FuzzTests/FuzzingTargets/FSTFuzzTestCollectionReference.h:28-35 | Two roots give the same dictionary exactly when they are equal, and the same holds for the corpus. |
| `FuzzTestCollectionReference.CollectionReferenceKeepsTrailingSeparator` | Firestore/Example/FuzzTests/FuzzingTargets/FSTFuzzTestCollectionReference.h:29-34 | For a root `p + "/"`, both locations contain "//" at the join, and both differ from the locations for `p`. No normalisation takes place. |
| `FuzzTestFIRQuery.GetFIRQueryDictionaryLocation` | Firestore/Example/FuzzTests/FuzzingTargets/FSTFuzzTestFIRQuery.h:27-29 | For every root, the result is the FIRQuery target's own dictionary under the layout convention. The root is a prefix and the result is 29 characters longer. |
| `FuzzTestFIRQuery.GetFIRQueryCorpusLocation` | Firestore/Example/FuzzTests/FuzzingTargets/FSTFuzzTestFIRQuery.h:31-33 | For every root, the result is the FIRQuery target's own corpus under the convention. The root is a prefix and the result is 16 characters longer. |
| `FuzzTestFIRQuery.FIRQuerySharesOwnDirectory` | Firestore/Example/FuzzTests/FuzzingTargets/FSTFuzzTestFIRQuery.h:27-33 | Both locations begin with `root + "/FIRQuery/"`. The dictionary's file name is the ASCII lower-casing of "FIRQuery" plus ".dictionary", and the corpus is "Corpus". |
| `FuzzTestFIRQuery.FIRQueryLocationsInjective` | Firestore/Example/FuzzTests/FuzzingTargets/FSTFuzzTestFIRQuery.h:27-33 | Two roots give the same dictionary exactly when they are equal, and the same holds for the corpus. |
| `FuzzTestFIRQuery.FIRQueryDoesNotAlias` | Firestore/Example/FuzzTests/FuzzingTargets/FSTFuzzTestFIRQuery.h:27-33 | The query locations never equal the collection-reference (field-path) locations, under the same root or under any two roots. |
| `FuzzTargets.Owner` | Firestore/Example/FuzzTests/FuzzingTargets/FSTFuzzTestCollectionReference.h:27-32 | The owner of a target never borrows in turn. A target is its own owner exactly when it is not CollectionReference, which uses FieldPath's resources. |
| `FuzzTargets.LayoutOfOwners` | Firestore/Example/FuzzTests/FuzzingTargets/FSTFuzzTestFIRQuery.h:27-33 | For each owner, the convention's relative paths are exactly the literals the headers spell, lower-cased file name included: the FIRQuery ones here, and the FieldPath ones at FSTFuzzTestCollectionReference.h:29 and :34. |
| `FuzzTargets.DistinctOwnersNeverCollide` | Firestore/Example/FuzzTests/FuzzingTargets/FSTFuzzTestFIRQuery.h:27-33 | Targets with different owners never share a dictionary or a corpus, for any two roots; in particular the FIRQuery paths here never equal the FieldPath paths of FSTFuzzTestCollectionReference.h:28-35. |
| `FuzzTargets.SharedResourcesIffSameOwner` | Firestore/Example/FuzzTests/FuzzingTargets/FSTFuzzTestCollectionReference.h:27-35 | Under one root, two targets resolve to the same dictionary exactly when they have the same owner. The same holds for the corpus. |
| `FuzzTargets.BorrowedPathsOmitOwnName` | Firestore/Example/FuzzTests/FuzzingTargets/FSTFuzzTestCollectionReference.h:27-35 | A borrowing target's own name occurs in its dictionary or corpus path only inside the root. |

## Left out

- `FuzzTestCollectionReference` and `FuzzTestFIRQuery`, the fuzz entry points: only their declarations appear in these headers. Their bodies call the Objective-C reference and query constructors, which are not part of this model, and their purpose is to surface crashes, which is not a contract.
- The FieldPath target's own header is not part of this model. Its paths appear only through the layout convention in `FuzzTargets`.
- Filesystem access, reading dictionaries and corpora, and the fuzzing engine's loop: the headers only build path strings.
- The `Foundation` import, `#include`s and C++ namespaces: they have no behaviour.
- Lower-casing beyond ASCII: the only names lower-cased are "FieldPath" and "FIRQuery".
- String concatenation never fails in the model; in C++ `operator+` on `std::string` can throw `std::bad_alloc` or `std::length_error`, which the model does not represent.
- Determinism (same root, same result) is not stated as a lemma: Dafny functions are deterministic by construction.
