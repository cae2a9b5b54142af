/**
 * HomeFragment: the checks before an analysis is sent, the character counter, the audio
 * duration limit, the audio label and file-name rules, and the audio fields (`recordedAudioPath`,
 * `isPlaying`) that the launchers and buttons update.  MediaPlayer, the file system and the
 * date formatter are parameters.
 */
module HomeFragment {
  import opened Wrappers
  import opened Text
  import opened ClockFormat

  const MaxAudioDurationMs: int := 50000
  const MaxTextLength: int := 400

  /** Android's `Activity.RESULT_OK`. */
  const ResultOk: int := -1

  // ----- analizarTexto / analizarAudio -----

  /** What `analizarTexto()` does with the typed text. */
  datatype TextRequest = TextRejected(message: string) | SendText(texto: string)

  function AnalizarTexto(cs: CharServices, typed: string): (r: TextRequest)
    ensures r.SendText? <==> 0 < |Trim(cs, typed)| <= MaxTextLength
    ensures r.SendText? ==> r.texto == Trim(cs, typed)
    ensures r == TextRejected("Por favor ingresa un texto para analizar") <==> IsBlank(cs, typed)
    ensures r == TextRejected("El texto no puede superar los 400 caracteres") <==> |Trim(cs, typed)| > MaxTextLength
  {
    var texto := Trim(cs, typed);
    if texto == [] then TextRejected("Por favor ingresa un texto para analizar")
    else if |texto| > MaxTextLength then TextRejected("El texto no puede superar los 400 caracteres")
    else SendText(texto)
  }

  /** Exactly 400 characters may be sent; 401 may not. */
  lemma TextLimitBoundary(cs: CharServices, typed: string)
    requires !IsBlank(cs, typed)
    ensures |Trim(cs, typed)| == 400 ==> AnalizarTexto(cs, typed).SendText?
    ensures |Trim(cs, typed)| == 401 ==> AnalizarTexto(cs, typed).TextRejected?
  {
  }

  /** What `analizarAudio()` does: refuse without a recorded path, otherwise send that path. */
  datatype AudioRequest = AudioRejected(message: string) | SendAudio(path: string)

  function AnalizarAudio(recordedAudioPath: Option<string>): (r: AudioRequest)
    ensures r.SendAudio? <==> recordedAudioPath.Some? && recordedAudioPath.value != []
    ensures r.SendAudio? ==> r.path == recordedAudioPath.value
    ensures r.AudioRejected? ==> r.message == "Por favor graba o sube un audio primero"
  {
    if recordedAudioPath.None? || recordedAudioPath.value == [] then
      AudioRejected("Por favor graba o sube un audio primero")
    else
      SendAudio(recordedAudioPath.value)
  }

  // ----- The character counter -----

  datatype CounterColor = Red | Orange | Gray

  /**
   * The colour `updateCharacterCount` picks.  The source compares with the float `400 * 0.9`;
   * for an integer count that is the integer test `count * 10 >= 3600`.
   */
  function CounterColorFor(count: int): (c: CounterColor)
    ensures c == Red <==> count > 400
    ensures c == Orange <==> 360 <= count <= 400
    ensures c == Gray <==> count < 360
  {
    if count > MaxTextLength then Red
    else if count * 10 >= MaxTextLength * 9 then Orange
    else Gray
  }

  // ----- The audio duration limit -----

  /**
   * `validateAudioDuration(path)`: `probe` is the duration MediaPlayer reports, or `None`
   * when setting the source or preparing throws.
   */
  function ValidateAudioDuration(probe: Option<int>): (ok: bool)
    ensures ok <==> probe.Some? && probe.value <= MaxAudioDurationMs
  {
    match probe
    case None => false
    case Some(duration) => duration <= MaxAudioDurationMs
  }

  // ----- Audio names -----

  /**
   * `formatTimestamp(timestamp)`: the number read with `toLong()` and shown through the date
   * format; "Audio" when it is not a number.
   */
  function FormatTimestamp(dateFormat: int -> string, timestamp: string): (r: string)
    ensures ParseLong(timestamp).None? ==> r == "Audio"
    ensures ParseLong(timestamp).Some? ==> r == dateFormat(ParseLong(timestamp).value)
  {
    match ParseLong(timestamp)
    case None => "Audio"
    case Some(time) => dateFormat(time)
  }

  predicate StartsWith(s: string, prefix: string) {
    |prefix| <= |s| && s[..|prefix|] == prefix
  }

  const RecordingPrefix: string := "recording_"
  const UploadedPrefix: string := "uploaded_"

  /** The file name shown for `path`: after the last '/', without the extension. */
  function BaseName(path: string): (name: string)
    ensures '/' !in name
  {
    SubstringBeforeLast(SubstringAfterLast(path, '/', path), '.')
  }

  /**
   * The label the prepared listener of `showAudioPlayer` puts on the player card, in three
   * shapes: a recording's or an upload's start time (or "Audio"), and any other name as it is.
   */
  function AudioLabel(dateFormat: int -> string, path: string): (shown: string)
    ensures var name := BaseName(path);
            && (StartsWith(name, RecordingPrefix) ==>
                  shown == "Grabación - " + FormatTimestamp(dateFormat, name[|RecordingPrefix|..]))
            && (!StartsWith(name, RecordingPrefix) && StartsWith(name, UploadedPrefix) ==>
                  shown == "Audio subido - " + FormatTimestamp(dateFormat, name[|UploadedPrefix|..]))
            && (!StartsWith(name, RecordingPrefix) && !StartsWith(name, UploadedPrefix) ==> shown == name)
  {
    var fileName := BaseName(path);
    if StartsWith(fileName, RecordingPrefix) then
      "Grabación - " + FormatTimestamp(dateFormat, fileName[|RecordingPrefix|..])
    else if StartsWith(fileName, UploadedPrefix) then
      "Audio subido - " + FormatTimestamp(dateFormat, fileName[|UploadedPrefix|..])
    else fileName
  }

  /**
   * A file the recorder screen wrote is labelled with the time it was started: the path
   * `dir/recording_<now>.m4a` reads back as "Grabación - " and `now` formatted.
   */
  lemma {:induction false} RecordingLabel(dateFormat: int -> string, dir: string, now: int)
    requires MinLong <= now <= MaxLong
    ensures AudioLabel(dateFormat, dir + "/" + RecordingPrefix + Numeral(now) + ".m4a")
            == "Grabación - " + dateFormat(now)
  {
    var digits := Numeral(now);
    NumeralHasNoSeparator(now);
    var stem := RecordingPrefix + digits;
    assert dir + "/" + RecordingPrefix + digits + ".m4a" == dir + ['/'] + (stem + ['.'] + "m4a");
    assert '/' !in "m4a" && '.' !in "m4a";
    FileBaseName(dir, stem, "m4a");
    assert stem[..|RecordingPrefix|] == RecordingPrefix;
    assert stem[|RecordingPrefix|..] == digits;
    ParseLongNumeral(now);
  }

  /** A number's decimal text holds neither a '/' nor a '.'. */
  lemma NumeralHasNoSeparator(n: int)
    ensures '/' !in Numeral(n) && '.' !in Numeral(n)
  {
    var s := Numeral(n);
    NumeralRoundTrip(n);
    if n >= 0 {
      assert forall k :: 0 <= k < |s| ==> '0' <= s[k] <= '9';
    } else {
      assert forall k :: 1 <= k < |s| ==> s[1..][k - 1] == s[k];
    }
  }

  /**
   * The base name of `dir/<stem>.<ext>` is the stem, when neither the stem nor the extension
   * holds a '/' or a '.'.
   */
  lemma FileBaseName(dir: string, stem: string, ext: string)
    requires '/' !in stem && '.' !in stem && '/' !in ext && '.' !in ext
    ensures BaseName(dir + ['/'] + (stem + ['.'] + ext)) == stem
  {
    var file := stem + ['.'] + ext;
    assert '/' !in file by {
      assert forall k :: 0 <= k < |file| ==> file[k] == '.' || file[k] in stem || file[k] in ext;
    }
    AfterLastSplit(dir, '/', file, dir + ['/'] + file);
    BeforeLastSplit(stem, '.', ext);
  }

  /**
   * `getFileExtension(uri)`: the display name's text after its last '.', "m4a" when it has
   * none; `displayName` is `None` when the query returns no row or no cursor.
   */
  function FileExtension(displayName: Option<string>): (ext: string)
    ensures '.' !in ext
    ensures displayName.None? ==> ext == "m4a"
    ensures displayName.Some? && '.' !in displayName.value ==> ext == "m4a"
    ensures displayName.Some? && '.' in displayName.value ==>
              '.' !in ext && exists k :: 0 <= k < |displayName.value| && displayName.value[k] == '.'
                                          && ext == displayName.value[k + 1..]
  {
    match displayName
    case None => "m4a"
    case Some(name) => SubstringAfterLast(name, '.', "m4a")
  }

  /** The name `handleUploadedAudio` gives to a copied file: `uploaded_<now>.<ext>`. */
  function UploadedFileName(now: int, displayName: Option<string>): (name: string)
    ensures StartsWith(name, UploadedPrefix)
    ensures name == UploadedPrefix + Numeral(now) + "." + FileExtension(displayName)
  {
    var rest := Numeral(now) + "." + FileExtension(displayName);
    assert (UploadedPrefix + rest)[..|UploadedPrefix|] == UploadedPrefix;
    UploadedPrefix + rest
  }

  /**
   * An uploaded file is labelled with the time it was copied: the path
   * `dir/uploaded_<now>.<ext>` reads back as "Audio subido - " and `now` formatted, provided
   * the extension taken from the display name holds no '/'.
   */
  lemma {:induction false} UploadedLabel(dateFormat: int -> string, dir: string, now: int, displayName: Option<string>)
    requires MinLong <= now <= MaxLong && '/' !in FileExtension(displayName)
    ensures AudioLabel(dateFormat, dir + "/" + UploadedFileName(now, displayName))
            == "Audio subido - " + dateFormat(now)
  {
    var digits := Numeral(now);
    var stem := UploadedPrefix + digits;
    var path := dir + "/" + UploadedFileName(now, displayName);
    UploadedBaseName(dir, now, displayName);
    assert StartsWith(stem, UploadedPrefix) && stem[|UploadedPrefix|..] == digits;
    assert !StartsWith(stem, RecordingPrefix) by {
      assert stem[0] == UploadedPrefix[0] == 'u';
      if |RecordingPrefix| <= |stem| {
        assert stem[..|RecordingPrefix|][0] == 'u' != RecordingPrefix[0];
      }
    }
    ParseLongNumeral(now);
    assert AudioLabel(dateFormat, path) == "Audio subido - " + FormatTimestamp(dateFormat, digits);
  }

  /** The base name of an uploaded file's path is `uploaded_<now>`. */
  lemma UploadedBaseName(dir: string, now: int, displayName: Option<string>)
    requires '/' !in FileExtension(displayName)
    ensures BaseName(dir + "/" + UploadedFileName(now, displayName)) == UploadedPrefix + Numeral(now)
  {
    var digits := Numeral(now);
    var ext := FileExtension(displayName);
    NumeralHasNoSeparator(now);
    var stem := UploadedPrefix + digits;
    assert '/' !in stem && '.' !in stem by {
      assert forall k :: 0 <= k < |stem| ==> stem[k] in UploadedPrefix || stem[k] in digits;
    }
    assert dir + "/" + UploadedFileName(now, displayName) == dir + ['/'] + (stem + ['.'] + ext);
    FileBaseName(dir, stem, ext);
  }

  // ----- The audio fields -----

  class HomeScreen {
    var recordedAudioPath: Option<string>
    /** `mediaPlayer != null`. */
    var hasPlayer: bool
    var isPlaying: bool
    var playerCardVisible: bool
    var audioName: string
    var clearButtonVisible: bool
    var counterText: string
    var counterColor: CounterColor
    /** Paths of the files the fragment deletes, oldest first (a file that does not exist is listed too). */
    var deletedFiles: seq<string>
    /** The duration-error dialog has been shown. */
    var durationErrorShown: bool

    /** Playback only happens with a player. */
    predicate Valid()
      reads this
    {
      isPlaying ==> hasPlayer
    }

    /** The player and its card are as they were before the current operation. */
    twostate predicate PlayerKept()
      reads this
    {
      hasPlayer == old(hasPlayer) && isPlaying == old(isPlaying)
      && audioName == old(audioName) && playerCardVisible == old(playerCardVisible)
    }

    constructor ()
      ensures Valid()
      ensures recordedAudioPath == None && !hasPlayer && !isPlaying && !playerCardVisible
      ensures deletedFiles == [] && !durationErrorShown
    {
      recordedAudioPath := None;
      hasPlayer := false;
      isPlaying := false;
      playerCardVisible := false;
      audioName := [];
      clearButtonVisible := false;
      counterText := [];
      counterColor := Gray;
      deletedFiles := [];
      durationErrorShown := false;
    }

    /** `onTextChanged`: the counter text and colour, and the clear button only for a non-empty text. */
    method OnTextChanged(currentLength: nat)
      modifies this`counterText, this`counterColor, this`clearButtonVisible
      ensures counterText == Numeral(currentLength) + "/" + Numeral(MaxTextLength)
      ensures counterColor == CounterColorFor(currentLength)
      ensures clearButtonVisible <==> currentLength > 0
    {
      counterText := Numeral(currentLength) + "/" + Numeral(MaxTextLength);
      var count := currentLength;
      if count > MaxTextLength {
        counterColor := Red;
      } else if count * 10 >= MaxTextLength * 9 {
        counterColor := Orange;
      } else {
        counterColor := Gray;
      }
      clearButtonVisible := currentLength > 0;
    }

    /** `releaseMediaPlayer()`. */
    method ReleaseMediaPlayer()
      modifies this`hasPlayer, this`isPlaying
      ensures Valid()
      ensures !hasPlayer && !isPlaying
    {
      hasPlayer := false;
      isPlaying := false;
    }

    /**
     * `showAudioPlayer(path)`: the old player is released; when `prepared` (no exception
     * from MediaPlayer) a new, paused one is shown with the path's label.
     */
    method ShowAudioPlayer(dateFormat: int -> string, path: string, prepared: bool)
      modifies this`hasPlayer, this`isPlaying, this`audioName, this`playerCardVisible
      ensures Valid()
      ensures !isPlaying
      ensures prepared ==> hasPlayer && playerCardVisible && audioName == AudioLabel(dateFormat, path)
      ensures !prepared ==> !hasPlayer && playerCardVisible == old(playerCardVisible) && audioName == old(audioName)
    {
      ReleaseMediaPlayer();
      if prepared {
        hasPlayer := true;
        audioName := AudioLabel(dateFormat, path);
        playerCardVisible := true;
        isPlaying := false;
      }
    }

    /**
     * The recorder's result: on RESULT_OK the returned path replaces `recordedAudioPath`
     * (with `None` when the intent carries none); a path over the duration limit is deleted
     * and forgotten.  Neither of those two branches touches the player, so a card shown for
     * an earlier audio stays on screen while `recordedAudioPath` is `None`.
     */
    method OnRecorderResult(dateFormat: int -> string, resultCode: int, path: Option<string>,
                            probe: Option<int>, prepared: bool)
      requires Valid()
      modifies this`recordedAudioPath, this`hasPlayer, this`isPlaying, this`audioName, this`playerCardVisible,
               this`deletedFiles, this`durationErrorShown
      ensures Valid()
      ensures resultCode != ResultOk ==>
                recordedAudioPath == old(recordedAudioPath) && deletedFiles == old(deletedFiles)
                && durationErrorShown == old(durationErrorShown) && PlayerKept()
      ensures resultCode == ResultOk && path.None? ==>
                recordedAudioPath == None && deletedFiles == old(deletedFiles)
                && durationErrorShown == old(durationErrorShown) && PlayerKept()
      ensures resultCode == ResultOk && path.Some? && ValidateAudioDuration(probe) ==>
                recordedAudioPath == path && deletedFiles == old(deletedFiles)
                && durationErrorShown == old(durationErrorShown) && !isPlaying
                && (prepared ==> hasPlayer && playerCardVisible && audioName == AudioLabel(dateFormat, path.value))
                && (!prepared ==> !hasPlayer && playerCardVisible == old(playerCardVisible) && audioName == old(audioName))
      ensures resultCode == ResultOk && path.Some? && !ValidateAudioDuration(probe) ==>
                recordedAudioPath == None && deletedFiles == old(deletedFiles) + [path.value] && durationErrorShown
                && PlayerKept()
    {
      if resultCode == ResultOk {
        recordedAudioPath := path;
        if path.Some? {
          if ValidateAudioDuration(probe) {
            ShowAudioPlayer(dateFormat, path.value, prepared);
          } else {
            deletedFiles := deletedFiles + [path.value];
            recordedAudioPath := None;
            durationErrorShown := true;
          }
        }
      }
    }

    /**
     * `handleUploadedAudio(uri)`: the picked audio is copied to `dir/uploaded_<now>.<ext>`;
     * it becomes the recorded path only within the duration limit, and is deleted otherwise.
     * `copied` is false when opening or copying the stream throws; then only the error toast
     * is shown.
     */
    method HandleUploadedAudio(dateFormat: int -> string, dir: string, now: int, displayName: Option<string>,
                               copied: bool, probe: Option<int>, prepared: bool)
      requires Valid()
      modifies this`recordedAudioPath, this`hasPlayer, this`isPlaying, this`audioName, this`playerCardVisible,
               this`deletedFiles, this`durationErrorShown
      ensures Valid()
      ensures var path := dir + "/" + UploadedFileName(now, displayName);
              && (copied && ValidateAudioDuration(probe) ==>
                    recordedAudioPath == Some(path) && deletedFiles == old(deletedFiles)
                    && durationErrorShown == old(durationErrorShown) && !isPlaying
                    && (prepared ==> hasPlayer && playerCardVisible && audioName == AudioLabel(dateFormat, path))
                    && (!prepared ==> !hasPlayer && playerCardVisible == old(playerCardVisible) && audioName == old(audioName)))
              && (copied && !ValidateAudioDuration(probe) ==>
                    recordedAudioPath == old(recordedAudioPath) && deletedFiles == old(deletedFiles) + [path]
                    && durationErrorShown && PlayerKept())
      ensures !copied ==> recordedAudioPath == old(recordedAudioPath) && deletedFiles == old(deletedFiles)
                          && durationErrorShown == old(durationErrorShown) && PlayerKept()
    {
      if copied {
        var path := dir + "/" + UploadedFileName(now, displayName);
        if ValidateAudioDuration(probe) {
          recordedAudioPath := Some(path);
          ShowAudioPlayer(dateFormat, path, prepared);
        } else {
          deletedFiles := deletedFiles + [path];
          durationErrorShown := true;
        }
      }
    }

    /** `togglePlayPause()`: with a player, playback flips; without one nothing happens. */
    method TogglePlayPause()
      requires Valid()
      modifies this`isPlaying
      ensures Valid()
      ensures hasPlayer ==> isPlaying == !old(isPlaying)
      ensures !hasPlayer ==> isPlaying == old(isPlaying)
    {
      if hasPlayer {
        isPlaying := !isPlaying;
      }
    }

    /** `onPause()`: playback is paused, never started. */
    method OnPause()
      requires Valid()
      modifies this`isPlaying
      ensures Valid()
      ensures !isPlaying
    {
      if isPlaying {
        TogglePlayPause();
      }
    }

    /** `deleteAudio()`: the file is deleted, the player released and hidden, the path forgotten. */
    method DeleteAudio()
      requires Valid()
      modifies this`deletedFiles, this`hasPlayer, this`isPlaying, this`playerCardVisible, this`recordedAudioPath
      ensures Valid()
      ensures recordedAudioPath == None && !hasPlayer && !isPlaying && !playerCardVisible
      ensures old(recordedAudioPath).Some? ==> deletedFiles == old(deletedFiles) + [old(recordedAudioPath).value]
      ensures old(recordedAudioPath).None? ==> deletedFiles == old(deletedFiles)
      ensures AnalizarAudio(recordedAudioPath).AudioRejected?
    {
      if recordedAudioPath.Some? {
        deletedFiles := deletedFiles + [recordedAudioPath.value];
      }
      ReleaseMediaPlayer();
      playerCardVisible := false;
      recordedAudioPath := None;
    }
  }
}
