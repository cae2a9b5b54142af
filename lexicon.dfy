/**
 * The idiom record the screens list (`models/Modismo.kt`) and what a lookup in the
 * `palabras` collection hands to its callbacks.
 */
module Lexicon {
  import opened Wrappers

  /** An idiom entry; `isExpanded` is the list's display flag, false when created. */
  datatype Modismo = Modismo(
    palabra: string,
    tipo: string,
    definiciones: seq<string>,
    sinonimos: seq<string>,
    isExpanded: bool)

  /**
   * A document of the `palabras` collection.  Each field is `None` when it is absent or not
   * of the expected type (the source reads them with `as? List<String>` and `getString`).
   */
  datatype LexiconDoc = LexiconDoc(
    tipo: Option<string>,
    region: Option<string>,
    significados: Option<seq<string>>,
    sinonimos: Option<seq<string>>)

  /**
   * The outcome of one query limited to one result: its success callback with a document,
   * its success callback with no document, or its failure callback.
   */
  datatype Lookup = Found(doc: LexiconDoc) | NotFound | Failed

  /**
   * A set of distinct indices below `n` has at most `n` elements: the counter of a join that
   * counts each of `n` callbacks once never passes `n`.
   */
  lemma {:induction false} IndexSetBound(s: set<nat>, n: nat)
    requires forall i :: i in s ==> i < n
    ensures |s| <= n
  {
    if n > 0 {
      IndexSetBound(s - {n - 1}, n - 1);
    }
  }
}
