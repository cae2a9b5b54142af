/**
 * DictionaryFragment: the user's own dictionary.  It reads the user's list of discovered
 * words, looks each one up in the `palabras` collection, and once every lookup has answered
 * shows the entries found, in alphabetical order, or an empty-state message.  Firestore and
 * FirebaseAuth are outside the model: their answers are inputs of the callbacks.
 */
module DictionaryFragment {
  import opened Wrappers
  import opened Lexicon

  const LoginPrompt: string := "Por favor inicia sesión para ver tu diccionario"
  const EmptyDictionary: string := "¡Descubre palabras jugando para llenar tu diccionario!"
  const LoadError: string := "Error al cargar el diccionario"

  // ----- Alphabetical order -----

  /**
   * `a.compareTo(b) <= 0` on strings: the first differing character decides, and a proper
   * prefix comes first.
   */
  predicate LexLe(a: string, b: string)
    decreases |a|
  {
    a == [] || (b != [] && (a[0] < b[0] || (a[0] == b[0] && LexLe(a[1..], b[1..]))))
  }

  /** Any two words can be compared. */
  lemma {:induction false} LexLeTotal(a: string, b: string)
    ensures LexLe(a, b) || LexLe(b, a)
    decreases |a|
  {
    if a != [] && b != [] && a[0] == b[0] {
      LexLeTotal(a[1..], b[1..]);
    }
  }

  /** The order is transitive. */
  lemma {:induction false} LexLeTrans(a: string, b: string, c: string)
    requires LexLe(a, b) && LexLe(b, c)
    ensures LexLe(a, c)
    decreases |a|
  {
    if a != [] && a[0] == b[0] && b[0] == c[0] {
      LexLeTrans(a[1..], b[1..], c[1..]);
    }
  }

  /** Every entry comes no later in the alphabet than every entry after it. */
  ghost predicate Sorted(s: seq<Modismo>) {
    forall i, j :: 0 <= i < j < |s| ==> LexLe(s[i].palabra, s[j].palabra)
  }

  /** `m` put in front of the first entry of `s` it does not follow. */
  function Insert(m: Modismo, s: seq<Modismo>): (r: seq<Modismo>)
    ensures multiset(r) == multiset(s) + multiset{m}
    ensures r != [] && (r[0] == m || (s != [] && r[0] == s[0]))
  {
    if s == [] then [m]
    else if LexLe(m.palabra, s[0].palabra) then [m] + s
    else
      assert s == [s[0]] + s[1..];
      [s[0]] + Insert(m, s[1..])
  }

  /**
   * `sortBy { it.palabra }`: an insertion sort that puts each entry before the entries equal
   * to it, so equal words keep their order.
   */
  function SortByPalabra(s: seq<Modismo>): (r: seq<Modismo>)
    ensures multiset(r) == multiset(s)
    ensures |r| == |s|
  {
    if s == [] then []
    else
      assert s == [s[0]] + s[1..];
      Insert(s[0], SortByPalabra(s[1..]))
  }

  /** `x` comes no later in the alphabet than any entry of `s`. */
  predicate LowerBound(x: string, s: seq<Modismo>) {
    forall j :: 0 <= j < |s| ==> LexLe(x, s[j].palabra)
  }

  lemma LowerBoundCons(x: string, e: Modismo, t: seq<Modismo>)
    requires LexLe(x, e.palabra) && LowerBound(x, t)
    ensures LowerBound(x, [e] + t)
  {
    var r := [e] + t;
    forall j | 0 <= j < |r| ensures LexLe(x, r[j].palabra) {
      if j > 0 {
        assert r[j] == t[j - 1];
      }
    }
  }

  lemma LowerBoundTail(x: string, s: seq<Modismo>)
    requires s != [] && LowerBound(x, s)
    ensures LowerBound(x, s[1..])
  {
    forall j | 0 <= j < |s[1..]| ensures LexLe(x, s[1..][j].palabra) {
      assert s[1..][j] == s[j + 1];
    }
  }

  /** A word no later than every entry of a sorted list can go in front of it. */
  lemma ConsSorted(x: Modismo, t: seq<Modismo>)
    requires Sorted(t) && LowerBound(x.palabra, t)
    ensures Sorted([x] + t)
  {
    var r := [x] + t;
    forall i, j | 0 <= i < j < |r| ensures LexLe(r[i].palabra, r[j].palabra) {
      if i > 0 {
        assert r[i] == t[i - 1] && r[j] == t[j - 1];
      } else {
        assert r[j] == t[j - 1];
      }
    }
  }

  /** A lower bound of `m` and of every entry of `s` is a lower bound of every entry of `Insert(m, s)`. */
  lemma {:induction false} InsertLowerBound(x: string, m: Modismo, s: seq<Modismo>)
    requires LexLe(x, m.palabra) && LowerBound(x, s)
    ensures LowerBound(x, Insert(m, s))
  {
    if s == [] {
      LowerBoundCons(x, m, []);
      assert [m] + [] == [m];
    } else if LexLe(m.palabra, s[0].palabra) {
      LowerBoundCons(x, m, s);
    } else {
      LowerBoundTail(x, s);
      InsertLowerBound(x, m, s[1..]);
      LowerBoundCons(x, s[0], Insert(m, s[1..]));
    }
  }

  /** Inserting into a sorted list keeps it sorted. */
  lemma {:induction false} InsertSorted(m: Modismo, s: seq<Modismo>)
    requires Sorted(s)
    ensures Sorted(Insert(m, s))
  {
    if s == [] {
    } else if LexLe(m.palabra, s[0].palabra) {
      forall j | 0 <= j < |s| ensures LexLe(m.palabra, s[j].palabra) {
        if j > 0 {
          LexLeTrans(m.palabra, s[0].palabra, s[j].palabra);
        }
      }
      ConsSorted(m, s);
    } else {
      LexLeTotal(m.palabra, s[0].palabra);
      var rest := s[1..];
      InsertSorted(m, rest);
      forall j | 0 <= j < |rest| ensures LexLe(s[0].palabra, rest[j].palabra) {
        assert rest[j] == s[j + 1];
      }
      InsertLowerBound(s[0].palabra, m, rest);
      ConsSorted(s[0], Insert(m, rest));
    }
  }

  /** The sorted list is in alphabetical order. */
  lemma {:induction false} SortByPalabraSorted(s: seq<Modismo>)
    ensures Sorted(SortByPalabra(s))
  {
    if s != [] {
      SortByPalabraSorted(s[1..]);
      InsertSorted(s[0], SortByPalabra(s[1..]));
    }
  }

  /** A list already in alphabetical order is left as it is. */
  lemma {:induction false} SortByPalabraOfSorted(s: seq<Modismo>)
    requires forall i, j :: 0 <= i < j < |s| ==> LexLe(s[i].palabra, s[j].palabra)
    ensures SortByPalabra(s) == s
  {
    if s != [] {
      assert s == [s[0]] + s[1..];
      SortByPalabraOfSorted(s[1..]);
      var t := s[1..];
      if t != [] {
        assert LexLe(s[0].palabra, t[0].palabra);
      }
    }
  }

  // ----- The lookups -----

  /** The user document: missing, or present with its `palabras` field (None when absent or not a list). */
  datatype UserRead = NoDocument | UserDocument(palabras: Option<seq<string>>) | ReadFailed

  /**
   * The entry one lookup contributes: a found document becomes an idiom of type "Modismo"
   * under the word as it was stored for the user, with the document's meanings and synonyms
   * (empty when absent); no document or a failed query contributes nothing.
   */
  function DictionaryEntry(wordName: string, outcome: Lookup): (e: Option<Modismo>)
    ensures e.Some? <==> outcome.Found?
    ensures e.Some? ==> e.value == Modismo(wordName, "Modismo", outcome.doc.significados.GetOr([]),
                                           outcome.doc.sinonimos.GetOr([]), false)
  {
    match outcome
    case Found(doc) => Some(Modismo(wordName, "Modismo", doc.significados.GetOr([]), doc.sinonimos.GetOr([]), false))
    case NotFound => None
    case Failed => None
  }

  /** The fragment's list and the views `showLoading` and `showEmptyState` switch. */
  class DictionaryScreen {
    var discoveredWords: seq<Modismo>
    var wordNames: seq<string>
    var loadedCount: nat
    var totalWords: nat
    var progressVisible: bool
    var listVisible: bool
    var emptyStateVisible: bool
    var emptyStateMessage: string
    /** The lookups that have answered, and the entries they added, in the order they answered. */
    ghost var answered: set<nat>
    ghost var arrived: seq<Modismo>

    /**
     * The join: each answer is counted once, the counter never passes the number of words,
     * and the list holds what arrived until the last answer, then the same entries sorted.
     */
    ghost predicate Valid()
      reads this
    {
      && Joining()
      && (loadedCount < totalWords ==> discoveredWords == arrived)
      && (loadedCount == totalWords ==> discoveredWords == SortByPalabra(arrived))
    }

    /** The counter and the arrivals, whatever the list holds. */
    ghost predicate Joining()
      reads this
    {
      && totalWords == |wordNames|
      && (forall i :: i in answered ==> i < |wordNames|)
      && loadedCount == |answered|
      && |arrived| <= loadedCount
      && (forall k :: 0 <= k < |arrived| ==> arrived[k].palabra in wordNames && arrived[k].tipo == "Modismo")
    }

    constructor ()
      ensures Valid()
      ensures discoveredWords == [] && wordNames == [] && loadedCount == 0 && totalWords == 0
      ensures !progressVisible && listVisible && !emptyStateVisible && emptyStateMessage == ""
    {
      discoveredWords := [];
      wordNames := [];
      loadedCount := 0;
      totalWords := 0;
      progressVisible := false;
      listVisible := true;
      emptyStateVisible := false;
      emptyStateMessage := "";
      answered := {};
      arrived := [];
    }

    /** `showLoading(show)`: the progress bar and the list swap; the empty state is hidden. */
    method ShowLoading(show: bool)
      modifies this`progressVisible, this`listVisible, this`emptyStateVisible
      ensures progressVisible == show && listVisible == !show && !emptyStateVisible
    {
      progressVisible := show;
      listVisible := !show;
      emptyStateVisible := false;
    }

    /** `showEmptyState(message)`: only the empty state is shown, with `message`. */
    method ShowEmptyState(message: string)
      modifies this`progressVisible, this`listVisible, this`emptyStateVisible, this`emptyStateMessage
      ensures !progressVisible && !listVisible && emptyStateVisible && emptyStateMessage == message
    {
      progressVisible := false;
      listVisible := false;
      emptyStateVisible := true;
      emptyStateMessage := message;
    }

    /**
     * `loadDiscoveredWords()`, up to the read of the user document: with no signed-in user the
     * login prompt is shown and nothing is read; otherwise the loading state is shown and
     * `requested` says the document of `uid` is read.
     */
    method LoadDiscoveredWords(uid: Option<string>) returns (requested: Option<string>)
      modifies this
      ensures requested == uid
      ensures uid.None? ==> emptyStateVisible && emptyStateMessage == LoginPrompt && !listVisible
      ensures uid.Some? ==> progressVisible && !listVisible && !emptyStateVisible
      ensures discoveredWords == old(discoveredWords) && wordNames == old(wordNames)
      ensures loadedCount == old(loadedCount) && totalWords == old(totalWords)
      ensures answered == old(answered) && arrived == old(arrived)
    {
      if uid.None? {
        ShowEmptyState(LoginPrompt);
        return None;
      }
      ShowLoading(true);
      requested := uid;
    }

    /**
     * The callbacks of the user-document read: a failed read or a document without words
     * ends in an empty state; otherwise every word is looked up (`loadWordDetails`).
     * Returns the words whose lookups are issued.
     */
    method OnUserDocument(read: UserRead) returns (lookups: seq<string>)
      requires Valid()
      modifies this
      ensures Valid()
      ensures read.ReadFailed? ==> lookups == [] && emptyStateVisible && emptyStateMessage == LoadError
      ensures (read.NoDocument? || (read.UserDocument? && read.palabras.GetOr([]) == [])) ==>
                lookups == [] && emptyStateVisible && emptyStateMessage == EmptyDictionary
      ensures lookups == [] ==> discoveredWords == old(discoveredWords) && wordNames == old(wordNames)
      ensures lookups != [] <==> read.UserDocument? && read.palabras.GetOr([]) != []
      ensures lookups != [] ==> lookups == read.palabras.value && wordNames == lookups
                                && discoveredWords == [] && loadedCount == 0 && totalWords == |lookups|
                                && answered == {} && arrived == []
    {
      match read
      case ReadFailed =>
        ShowLoading(false);
        ShowEmptyState(LoadError);
        lookups := [];
      case NoDocument =>
        ShowLoading(false);
        ShowEmptyState(EmptyDictionary);
        lookups := [];
      case UserDocument(palabras) =>
        var names := palabras.GetOr([]);
        if names == [] {
          ShowLoading(false);
          ShowEmptyState(EmptyDictionary);
          lookups := [];
        } else {
          LoadWordDetails(names);
          lookups := names;
        }
    }

    /** `loadWordDetails(wordNames)`: the list is emptied and the counter starts at zero. */
    method LoadWordDetails(names: seq<string>)
      requires names != []
      modifies this
      ensures Valid()
      ensures wordNames == names && discoveredWords == [] && loadedCount == 0 && totalWords == |names|
      ensures answered == {} && arrived == []
      ensures progressVisible == old(progressVisible) && listVisible == old(listVisible)
      ensures emptyStateVisible == old(emptyStateVisible) && emptyStateMessage == old(emptyStateMessage)
    {
      discoveredWords := [];
      wordNames := names;
      loadedCount := 0;
      totalWords := |names|;
      answered := {};
      arrived := [];
    }

    /**
     * `updateUI()`: an empty list shows the empty state; otherwise the list is sorted by word
     * and shown.
     */
    method UpdateUI()
      modifies this`discoveredWords, this`progressVisible, this`listVisible, this`emptyStateVisible,
               this`emptyStateMessage
      ensures discoveredWords == SortByPalabra(old(discoveredWords))
      ensures old(discoveredWords) == [] ==>
                emptyStateVisible && emptyStateMessage == EmptyDictionary && !listVisible && !progressVisible
      ensures old(discoveredWords) != [] ==>
                listVisible && !emptyStateVisible && progressVisible == old(progressVisible)
                && emptyStateMessage == old(emptyStateMessage)
    {
      if discoveredWords == [] {
        assert SortByPalabra([]) == [];
        ShowEmptyState(EmptyDictionary);
      } else {
        discoveredWords := SortByPalabra(discoveredWords);
        listVisible := true;
        emptyStateVisible := false;
      }
    }


    /** The last answer of the join: `showLoading(false)`, then `updateUI()`. */
    method FinishLoading()
      requires Joining() && loadedCount == totalWords && discoveredWords == arrived
      modifies this
      ensures Valid()
      ensures discoveredWords == SortByPalabra(arrived) && Sorted(discoveredWords)
      ensures !progressVisible && (emptyStateVisible <==> arrived == [])
      ensures wordNames == old(wordNames) && loadedCount == old(loadedCount) && totalWords == old(totalWords)
      ensures answered == old(answered) && arrived == old(arrived)
    {
      ShowLoading(false);
      UpdateUI();
      SortByPalabraSorted(arrived);
    }

    /**
     * The success or failure callback of the lookup of word `i`: a found entry is appended,
     * the answer is counted, and the last answer hides the progress bar and updates the list.
     */
    method OnWordLookup(i: nat, outcome: Lookup) returns (done: bool)
      requires Valid() && i < |wordNames| && i !in answered
      modifies this
      ensures Valid()
      ensures answered == old(answered) + {i} && loadedCount == old(loadedCount) + 1
      ensures var e := DictionaryEntry(wordNames[i], outcome);
              arrived == old(arrived) + (if e.Some? then [e.value] else [])
      ensures done <==> loadedCount == totalWords
      ensures !done ==> discoveredWords == arrived
      ensures done ==> discoveredWords == SortByPalabra(arrived) && Sorted(discoveredWords)
                       && !progressVisible && (emptyStateVisible <==> arrived == [])
      ensures wordNames == old(wordNames) && totalWords == old(totalWords)
    {
      IndexSetBound(answered + {i}, |wordNames|);
      assert |answered + {i}| == |answered| + 1;
      assert discoveredWords == arrived;
      var entry := DictionaryEntry(wordNames[i], outcome);
      var added := if entry.Some? then [entry.value] else [];
      assert forall k :: 0 <= k < |added| ==> added[k].palabra in wordNames && added[k].tipo == "Modismo";
      discoveredWords := discoveredWords + added;
      arrived := arrived + added;
      answered := answered + {i};
      loadedCount := loadedCount + 1;
      done := loadedCount == totalWords;
      if done {
        FinishLoading();
      }
    }
  }
}
