/**
 * AnalysisActivity: reading the analysis response, merging each detected word with its
 * lexicon record once every lookup has answered, and adding the new words to the user's
 * history.  Highlighting the words in the text is in module Highlighting.
 */
module AnalysisActivity {
  import opened Wrappers
  import opened Text
  import opened Lexicon

  // ----- The analysis response, as far as parseApiResponse reads it -----

  /** An element of `modismos_detallados`; `NotAnObject` makes `getJSONObject(i)` throw. */
  datatype DetailedEntry =
    | DetailedEntry(palabra: Option<string>, significado: Option<string>)
    | NotAnObject

  /** The `modismos_detallados` field: absent, an array, or present with another type (throws). */
  datatype DetailedField = NoDetailed | DetailedArray(entries: seq<DetailedEntry>) | DetailedNotArray

  /** The `modismos_detected` field: absent, an object (keys in order), or another type (throws). */
  datatype DetectedField = NoDetected | DetectedObject(pairs: seq<(string, string)>) | DetectedNotObject

  datatype AnalysisJson = AnalysisJson(
    fraseNeutral: Option<string>,
    detallados: DetailedField,
    detected: DetectedField)

  /** The detected words in order (`palabrasDetectadas`) and the meaning table keyed by lowercased word (`betoDefinitions`). */
  datatype Detection = Detection(words: seq<string>, meanings: map<string, string>)

  const NoDetection := Detection([], map[])

  /** One step of either parsing loop: a non-empty word is listed and its meaning recorded. */
  function Add(cs: CharServices, d: Detection, pair: (string, string)): Detection {
    if pair.0 == [] then d
    else Detection(d.words + [pair.0], d.meanings[Lower(cs, pair.0) := pair.1])
  }

  /** The parsing loop run over `ps` from the left. */
  function Collect(cs: CharServices, ps: seq<(string, string)>): Detection
    decreases |ps|
  {
    if ps == [] then NoDetection else Add(cs, Collect(cs, ps[..|ps| - 1]), ps[|ps| - 1])
  }

  /** The index of the first element that is not an object, or `|es|`. */
  function FirstNonObject(es: seq<DetailedEntry>): (k: nat)
    ensures k <= |es|
    ensures forall j :: 0 <= j < k ==> es[j].DetailedEntry?
    ensures k < |es| ==> es[k].NotAnObject?
  {
    if es == [] || es[0].NotAnObject? then 0 else 1 + FirstNonObject(es[1..])
  }

  /** `optString("palabra", "")` and `optString("significado_detectado", "")` of an element. */
  function PairOf(e: DetailedEntry): (string, string)
    requires e.DetailedEntry?
  {
    (e.palabra.GetOr(""), e.significado.GetOr(""))
  }

  function PairsOf(es: seq<DetailedEntry>): (ps: seq<(string, string)>)
    requires forall j :: 0 <= j < |es| ==> es[j].DetailedEntry?
    ensures |ps| == |es| && forall j :: 0 <= j < |es| ==> ps[j] == PairOf(es[j])
  {
    seq(|es|, j requires 0 <= j < |es| && es[j].DetailedEntry? => PairOf(es[j]))
  }

  /** What parseApiResponse has gathered when it finishes; `completed` is false when it threw. */
  datatype Parsed = Parsed(detection: Detection, completed: bool)

  /**
   * The detections of a response: `modismos_detallados` whenever it is present, and
   * `modismos_detected` only when it is absent; a field of the wrong type, or an element
   * of the array that is not an object, stops the parse with what was gathered so far.
   */
  function ParseDetections(cs: CharServices, j: AnalysisJson): (p: Parsed)
    ensures j.detallados == NoDetailed && j.detected == NoDetected ==> p == Parsed(NoDetection, true)
    ensures (j.detallados == DetailedNotArray || (j.detallados == NoDetailed && j.detected == DetectedNotObject))
              ==> p == Parsed(NoDetection, false)
    ensures j.detallados.DetailedArray? ==>
              (p.completed <==> forall k :: 0 <= k < |j.detallados.entries| ==> j.detallados.entries[k].DetailedEntry?)
  {
    match j.detallados
    case DetailedArray(es) =>
      var k := FirstNonObject(es);
      Parsed(Collect(cs, PairsOf(es[..k])), k == |es|)
    case DetailedNotArray => Parsed(NoDetection, false)
    case NoDetailed =>
      match j.detected
      case DetectedObject(ps) => Parsed(Collect(cs, ps), true)
      case DetectedNotObject => Parsed(NoDetection, false)
      case NoDetected => Parsed(NoDetection, true)
  }

  /** When `modismos_detallados` is present, `modismos_detected` is never consulted. */
  lemma DetailedTakesPriority(cs: CharServices, j: AnalysisJson, other: DetectedField)
    requires j.detallados != NoDetailed
    ensures ParseDetections(cs, j) == ParseDetections(cs, j.(detected := other))
  {
  }

  /** Reference definition of the word list: the non-empty words of `ps`, in order. */
  function NonEmptyWords(ps: seq<(string, string)>): seq<string>
  {
    if ps == [] then []
    else (if ps[0].0 == [] then [] else [ps[0].0]) + NonEmptyWords(ps[1..])
  }

  lemma {:induction false} NonEmptyWordsAppend(ps: seq<(string, string)>, p: (string, string))
    ensures NonEmptyWords(ps + [p]) == NonEmptyWords(ps) + NonEmptyWords([p])
  {
    if ps != [] {
      assert (ps + [p])[1..] == ps[1..] + [p];
      NonEmptyWordsAppend(ps[1..], p);
    } else {
      assert ps + [p] == [p];
    }
  }

  /**
   * The word list keeps every non-empty word in order, duplicates included, and never an
   * empty one; the meaning table has exactly the lowercased words as keys.
   */
  lemma {:induction false} CollectWords(cs: CharServices, ps: seq<(string, string)>)
    ensures Collect(cs, ps).words == NonEmptyWords(ps)
    ensures forall k :: 0 <= k < |Collect(cs, ps).words| ==> Collect(cs, ps).words[k] != []
    ensures Collect(cs, ps).meanings.Keys == set w | w in Collect(cs, ps).words :: Lower(cs, w)
  {
    if ps != [] {
      var init := ps[..|ps| - 1];
      CollectWords(cs, init);
      NonEmptyWordsAppend(init, ps[|ps| - 1]);
      assert init + [ps[|ps| - 1]] == ps;
    }
  }

  /**
   * Later entries overwrite earlier ones: the table holds, for each word, the meaning of the
   * last entry whose word has the same lowercase form.
   */
  lemma {:induction false} CollectLastWins(cs: CharServices, ps: seq<(string, string)>, i: nat)
    requires i < |ps| && ps[i].0 != []
    requires forall j :: i < j < |ps| && ps[j].0 != [] ==> Lower(cs, ps[j].0) != Lower(cs, ps[i].0)
    ensures Lower(cs, ps[i].0) in Collect(cs, ps).meanings
    ensures Collect(cs, ps).meanings[Lower(cs, ps[i].0)] == ps[i].1
  {
    if i < |ps| - 1 {
      CollectLastWins(cs, ps[..|ps| - 1], i);
    }
  }

  // ----- capitalizeFirstLetter and the lexicon merge -----

  /** `capitalizeFirstLetter`: only the first character is upper-cased. */
  function Capitalize(cs: CharServices, s: string): (r: string)
    ensures s == [] ==> r == []
    ensures |r| == |s|
    ensures s != [] ==> r[0] == cs.upper(s[0]) && r[1..] == s[1..]
  {
    if s != [] then [cs.upper(s[0])] + s[1..] else s
  }

  /** The meaning the analysis gave a word: `betoDefinitions[palabra.lowercase()] ?: ""`. */
  function BetoMeaning(cs: CharServices, beto: map<string, string>, palabra: string): string {
    var key := Lower(cs, palabra);
    if key in beto then beto[key] else ""
  }

  /** The list of an optional entry: empty when there is none, the entry alone otherwise. */
  function AsList<T>(o: Option<T>): (r: seq<T>)
    ensures |r| <= 1
    ensures o.None? ==> r == []
    ensures o.Some? ==> r == [o.value]
  {
    if o.Some? then [o.value] else []
  }

  /**
   * The entry one lookup callback contributes for `palabra`.  A found document supplies the
   * category and the synonyms but never its own meanings: the single meaning is always the
   * analysis's.  Without a document (not found, or the query failed) the word is listed only
   * when the analysis gave it a non-empty meaning.
   */
  function Merge(cs: CharServices, beto: map<string, string>, palabra: string, outcome: Lookup): (r: Option<Modismo>)
    ensures r.Some? <==> outcome.Found? || BetoMeaning(cs, beto, palabra) != ""
    ensures r.Some? ==>
              r.value.palabra == palabra && !r.value.isExpanded && r.value.definiciones == [BetoMeaning(cs, beto, palabra)]
    ensures r.Some? && outcome.Found? ==>
              r.value.tipo == outcome.doc.tipo.GetOr("Modismo") && r.value.sinonimos == outcome.doc.sinonimos.GetOr([])
    ensures r.Some? && !outcome.Found? ==> r.value.tipo == "Modismo" && r.value.sinonimos == []
  {
    var definicionBeto := BetoMeaning(cs, beto, palabra);
    match outcome
    case Found(doc) =>
      Some(Modismo(palabra, doc.tipo.GetOr("Modismo"), [definicionBeto], doc.sinonimos.GetOr([]), false))
    case _ =>
      if definicionBeto != "" then Some(Modismo(palabra, "Modismo", [definicionBeto], [], false)) else None
  }

  /** The lexicon query issued for each word: its capitalized form, one query per word. */
  function LexiconQueries(cs: CharServices, palabras: seq<string>): (qs: seq<string>)
    ensures |qs| == |palabras|
    ensures forall k :: 0 <= k < |palabras| ==> qs[k] == Capitalize(cs, palabras[k])
  {
    seq(|palabras|, k requires 0 <= k < |palabras| => Capitalize(cs, palabras[k]))
  }

  /**
   * The state the lookup callbacks of one loadModismosFromFirestore call share: the list
   * being built and the completion counter.  Callbacks arrive in any order; each word's
   * query answers exactly once.
   */
  class ModismoLoad {
    const cs: CharServices
    const palabras: seq<string>
    const queries: seq<string>
    var modismosFinales: seq<Modismo>
    var loadedCount: nat
    var published: bool
    ghost var answered: set<nat>

    ghost predicate Valid()
      reads this
    {
      && |queries| == |palabras|
      && (forall i :: i in answered ==> i < |palabras|)
      && loadedCount == |answered|
      && |modismosFinales| <= loadedCount
      && (forall k :: 0 <= k < |modismosFinales| ==> modismosFinales[k].palabra in palabras)
      && (published <==> loadedCount == |palabras|)
    }

    constructor (cs: CharServices, palabras: seq<string>)
      ensures Valid()
      ensures this.cs == cs && this.palabras == palabras && queries == LexiconQueries(cs, palabras)
      ensures modismosFinales == [] && loadedCount == 0 && answered == {}
      ensures published <==> palabras == []
    {
      this.cs := cs;
      this.palabras := palabras;
      queries := LexiconQueries(cs, palabras);
      modismosFinales := [];
      loadedCount := 0;
      published := palabras == [];
      answered := {};
    }

    /**
     * The success or failure callback of word `i`'s query: appends the merged entry, if any,
     * counts the answer, and publishes the list when the count reaches the number of words.
     */
    method Deliver(i: nat, outcome: Lookup, beto: map<string, string>) returns (done: bool)
      requires Valid() && i < |palabras| && i !in answered
      modifies this
      ensures Valid()
      ensures answered == old(answered) + {i} && loadedCount == old(loadedCount) + 1
      ensures modismosFinales == old(modismosFinales) + AsList(Merge(cs, beto, palabras[i], outcome))
      ensures !old(published) && done == published
      ensures done <==> loadedCount == |palabras|
      ensures |modismosFinales| <= loadedCount <= |palabras|
    {
      IndexSetBound(answered + {i}, |palabras|);
      var merged := Merge(cs, beto, palabras[i], outcome);
      if merged.Some? {
        modismosFinales := modismosFinales + [merged.value];
      }
      answered := answered + {i};
      loadedCount := loadedCount + 1;
      done := loadedCount == |palabras|;
      published := done;
    }
  }

  // ----- The screen's own state -----

  /** The fields of the analysis screen that the parsing and the lookups update. */
  /**
   * The loop over `modismos_detallados`: each element read as an object, until one is not
   * (where `getJSONObject` throws and `completed` is false).
   */
  method ScanDetailed(cs: CharServices, es: seq<DetailedEntry>)
    returns (found: seq<string>, meanings: map<string, string>, completed: bool)
    ensures completed <==> FirstNonObject(es) == |es|
    ensures Detection(found, meanings) == Collect(cs, PairsOf(es[..FirstNonObject(es)]))
  {
    found, meanings, completed := [], map[], true;
    var i := 0;
    while i < |es| && completed
      invariant 0 <= i <= |es|
      invariant forall k :: 0 <= k < i ==> es[k].DetailedEntry?
      invariant !completed ==> i < |es| && es[i].NotAnObject?
      invariant Detection(found, meanings) == Collect(cs, PairsOf(es[..i]))
      decreases |es| - i, completed
    {
      match es[i] {
        case NotAnObject =>
          completed := false;
        case DetailedEntry(p, m) =>
          var palabra, significado := p.GetOr(""), m.GetOr("");
          if palabra != [] {
            found := found + [palabra];
            meanings := meanings[Lower(cs, palabra) := significado];
          }
          assert PairsOf(es[..i + 1])[..i] == PairsOf(es[..i]);
          i := i + 1;
      }
    }
    assert i == FirstNonObject(es);
  }

  /** The loop over the `modismos_detected` object's keys, in order. */
  method ScanDetected(cs: CharServices, ps: seq<(string, string)>)
    returns (found: seq<string>, meanings: map<string, string>)
    ensures Detection(found, meanings) == Collect(cs, ps)
  {
    found, meanings := [], map[];
    var i := 0;
    while i < |ps|
      invariant 0 <= i <= |ps|
      invariant Detection(found, meanings) == Collect(cs, ps[..i])
    {
      var (palabra, significado) := ps[i];
      if palabra != [] {
        found := found + [palabra];
        meanings := meanings[Lower(cs, palabra) := significado];
      }
      assert ps[..i + 1][..i] == ps[..i];
      i := i + 1;
    }
    assert ps[..i] == ps;
  }

  class AnalysisScreen {
    const cs: CharServices
    var neutralizedSentence: string
    var betoDefinitions: map<string, string>
    var detectedModismos: seq<Modismo>
    /** The list the idiom list view shows (`updateRecyclerViewWithModismos`). */
    var listedModismos: seq<Modismo>

    constructor (cs: CharServices)
      ensures this.cs == cs && neutralizedSentence == "" && betoDefinitions == map[]
      ensures detectedModismos == [] && listedModismos == []
    {
      this.cs := cs;
      neutralizedSentence := "";
      betoDefinitions := map[];
      detectedModismos := [];
      listedModismos := [];
    }

    /**
     * parseApiResponse.  `json` is None when the text is not a JSON object.  Returns the
     * words handed on to the lexicon lookups and to the history store, or [] when the
     * list view is emptied instead (no words, or the parse threw).
     */
    method ParseApiResponse(json: Option<AnalysisJson>) returns (palabras: seq<string>)
      modifies this
      ensures json.None? ==> neutralizedSentence == old(neutralizedSentence) && betoDefinitions == old(betoDefinitions)
      ensures json.Some? ==> neutralizedSentence == json.value.fraseNeutral.GetOr("")
      ensures json.Some? ==> betoDefinitions == ParseDetections(cs, json.value).detection.meanings
      ensures palabras == if json.Some? && ParseDetections(cs, json.value).completed
                          then ParseDetections(cs, json.value).detection.words else []
      ensures palabras == [] ==> listedModismos == []
      ensures palabras != [] ==> listedModismos == old(listedModismos)
      ensures detectedModismos == old(detectedModismos)
    {
      if json.None? {
        palabras := [];
        listedModismos := [];
        return;
      }
      var j := json.value;
      neutralizedSentence := j.fraseNeutral.GetOr("");
      var meanings: map<string, string> := map[];
      var found: seq<string> := [];
      var completed := true;
      match j.detallados {
        case DetailedArray(es) =>
          found, meanings, completed := ScanDetailed(cs, es);
        case DetailedNotArray =>
          completed := false;
        case NoDetailed =>
          match j.detected {
            case DetectedObject(ps) =>
              found, meanings := ScanDetected(cs, ps);
            case DetectedNotObject =>
              completed := false;
            case NoDetected =>
          }
      }
      betoDefinitions := meanings;
      if completed && found != [] {
        palabras := found;
      } else {
        palabras := [];
        listedModismos := [];
      }
    }

    /** loadModismosFromFirestore: one query per word, sharing one fresh join state. */
    method LoadModismos(palabras: seq<string>) returns (load: ModismoLoad)
      modifies this
      ensures fresh(load) && load.Valid() && load.cs == cs && load.palabras == palabras
      ensures load.queries == LexiconQueries(cs, palabras)
      ensures load.modismosFinales == [] && load.loadedCount == 0 && load.answered == {}
      ensures palabras == [] ==> listedModismos == [] && load.published
      ensures palabras != [] ==> listedModismos == old(listedModismos) && !load.published
      ensures detectedModismos == old(detectedModismos) && betoDefinitions == old(betoDefinitions)
      ensures neutralizedSentence == old(neutralizedSentence)
    {
      load := new ModismoLoad(cs, palabras);
      if palabras == [] {
        listedModismos := [];
      }
    }

    /**
     * A lookup callback of `load`: the merge reads the screen's current meaning table, and
     * the completed list becomes the screen's detected idioms and its list view.
     */
    method OnLookupResult(load: ModismoLoad, i: nat, outcome: Lookup)
      requires load.Valid() && i < |load.palabras| && i !in load.answered && load.cs == cs
      modifies this, load
      ensures load.Valid()
      ensures load.answered == old(load.answered) + {i}
      ensures load.modismosFinales == old(load.modismosFinales) + AsList(Merge(cs, betoDefinitions, load.palabras[i], outcome))
      ensures load.published ==> detectedModismos == load.modismosFinales && listedModismos == load.modismosFinales
      ensures !load.published ==> detectedModismos == old(detectedModismos) && listedModismos == old(listedModismos)
      ensures betoDefinitions == old(betoDefinitions) && neutralizedSentence == old(neutralizedSentence)
    {
      var done := load.Deliver(i, outcome, betoDefinitions);
      if done {
        detectedModismos := load.modismosFinales;
        listedModismos := load.modismosFinales;
      }
    }
  }

  // ----- saveDetectedWordsToFirestore -----

  datatype User = User(uid: string, email: Option<string>)

  /** The user's record as the transaction reads it; `palabras` is None when absent or not a list. */
  datatype UserRecord = NoRecord | StoredRecord(palabras: Option<seq<string>>)

  /** The write the transaction makes. */
  datatype HistoryWrite =
    | NoWrite
    | AddWords(words: seq<string>)
    | CreateRecord(uid: string, email: string, words: seq<string>)

  /** Whether a transaction runs at all, its write, and the count it reports. */
  datatype HistorySave = NotSaved | Saved(write: HistoryWrite, added: nat)

  /** The lowercase forms of the stored words. */
  function KnownForms(cs: CharServices, stored: seq<string>): set<string> {
    set w | w in stored :: Lower(cs, w)
  }

  /** The words whose lowercase form is not known yet, in their order. */
  function NewWords(cs: CharServices, words: seq<string>, known: set<string>): (r: seq<string>)
    ensures |r| <= |words|
    ensures forall w :: w in r <==> w in words && Lower(cs, w) !in known
  {
    if words == [] then []
    else (if Lower(cs, words[0]) in known then [] else [words[0]]) + NewWords(cs, words[1..], known)
  }

  /** The filter keeps order: filtering a concatenation filters each part. */
  lemma {:induction false} NewWordsAppend(cs: CharServices, a: seq<string>, b: seq<string>, known: set<string>)
    ensures NewWords(cs, a + b, known) == NewWords(cs, a, known) + NewWords(cs, b, known)
  {
    if a != [] {
      assert (a + b)[1..] == a[1..] + b;
      NewWordsAppend(cs, a[1..], b, known);
    } else {
      assert a + b == b;
    }
  }

  /**
   * saveDetectedWordsToFirestore: without a signed-in user or with no words nothing runs.
   * Otherwise the capitalized words are compared, lowercased, with the stored ones: an
   * existing record gets exactly the new ones (no write when there are none), and a missing
   * record is created with all of them; the count reported is the number of words written.
   */
  function SaveDetectedWords(cs: CharServices, user: Option<User>, palabras: seq<string>, record: UserRecord): (r: HistorySave)
    ensures r.Saved? <==> user.Some? && palabras != []
    ensures r.Saved? && record.NoRecord? ==>
              r.write == CreateRecord(user.value.uid, user.value.email.GetOr(""), LexiconQueries(cs, palabras))
              && r.added == |palabras|
    ensures r.Saved? && record.StoredRecord? ==>
              var news := NewWords(cs, LexiconQueries(cs, palabras), KnownForms(cs, record.palabras.GetOr([])));
              r.added == |news| && r.write == (if news == [] then NoWrite else AddWords(news))
    ensures r.Saved? && r.write.AddWords? ==>
              forall w :: w in r.write.words ==> Lower(cs, w) !in KnownForms(cs, record.palabras.GetOr([]))
  {
    if user.None? || palabras == [] then NotSaved
    else
      var capitalized := LexiconQueries(cs, palabras);
      match record
      case StoredRecord(stored) =>
        var news := NewWords(cs, capitalized, KnownForms(cs, stored.GetOr([])));
        Saved(if news == [] then NoWrite else AddWords(news), |news|)
      case NoRecord =>
        Saved(CreateRecord(user.value.uid, user.value.email.GetOr(""), capitalized), |capitalized|)
  }
}
