/**
 * AudioRecorderActivity: the recording flags and clock bookkeeping of the recorder screen.
 * The clock (`System.currentTimeMillis()`), the outcome of the MediaRecorder calls and the
 * state of the output file are parameters; the recorder, the timer and the animations
 * themselves are not modelled.
 */
module AudioRecorderActivity {
  import opened Wrappers
  import ClockFormat

  /** `MAX_RECORDING_TIME`, one minute in milliseconds. */
  const MaxRecordingTime: int := 60000

  /** What the activity hands back to its caller through `setResult`. */
  datatype ActivityResult = NoResult | ResultCanceled | ResultOk(audioPath: string)

  /** The recording file as the file system reports it at the end: absent, or its length. */
  datatype FileState = Missing | Present(length: int)

  /** The time shown on each tick: the elapsed part of the minute, as `mm:ss`. */
  function TickText(millisUntilFinished: int): (t: string)
    requires 0 <= millisUntilFinished <= MaxRecordingTime
    ensures var elapsed := MaxRecordingTime - millisUntilFinished;
            ClockFormat.ParseClock(t) == Some((elapsed / 60000, (elapsed / 1000) % 60))
    ensures ClockFormat.ParseClock(t).value.0 <= 1
  {
    var elapsed := MaxRecordingTime - millisUntilFinished;
    MinuteAtMostOne(elapsed);
    ClockFormat.FormatTime(elapsed)
  }

  /** Within the one-minute limit the minute count is 0 or 1. */
  lemma MinuteAtMostOne(elapsed: int)
    requires 0 <= elapsed <= MaxRecordingTime
    ensures elapsed / 60000 <= 1
  {
  }

  /** The file `startRecording()` records into: `filesDir/audio_recordings/recording_<now>.m4a`. */
  function RecordingPath(filesDir: string, now: int): string
  {
    filesDir + "/audio_recordings/recording_" + ClockFormat.Numeral(now) + ".m4a"
  }

  class AudioRecorder {
    /** `Build.VERSION.SDK_INT >= Build.VERSION_CODES.N`: pausing needs API level 24. */
    const canPause: bool
    /** The app's private `filesDir`. */
    const filesDir: string

    var audioFile: Option<string>
    /** `mediaRecorder != null`. */
    var hasRecorder: bool
    var isRecording: bool
    var isPaused: bool
    var startTime: int
    var pausedTime: int
    var wasCancelled: bool
    /** The length given to the running CountDownTimer; `None` once it is cancelled. */
    var timer: Option<int>
    var result: ActivityResult
    var finished: bool

    /** A pause only ever happens during a recording. */
    predicate Valid()
      reads this
    {
      (isPaused ==> isRecording) && (isRecording ==> hasRecorder && audioFile.Some?)
    }

    /** The recorded time at `now`: frozen at `pausedTime` while paused. */
    function Elapsed(now: int): int
      reads this
    {
      if isPaused then pausedTime - startTime else now - startTime
    }

    constructor (canPause: bool, filesDir: string)
      ensures Valid()
      ensures this.canPause == canPause && this.filesDir == filesDir
      ensures audioFile == None && !hasRecorder && !isRecording && !isPaused
      ensures startTime == 0 && pausedTime == 0 && !wasCancelled
      ensures timer == None && result == NoResult && !finished
    {
      this.canPause := canPause;
      this.filesDir := filesDir;
      audioFile := None;
      hasRecorder := false;
      isRecording := false;
      isPaused := false;
      startTime := 0;
      pausedTime := 0;
      wasCancelled := false;
      timer := None;
      result := NoResult;
      finished := false;
    }

    /** `startTimer()`: the countdown covers what is left of the minute. */
    method StartTimer(now: int)
      modifies this`timer
      ensures timer == Some(MaxRecordingTime - (now - startTime))
    {
      var remainingTime := MaxRecordingTime - (now - startTime);
      timer := Some(remainingTime);
    }

    /**
     * `startRecording()`: the file is named after the clock; when `prepare()` or `start()`
     * throws, the activity finishes without recording.  The source reads the clock twice, once
     * for the file name and once for `startTime`; the model reads it once, as `now`, for both.
     */
    method StartRecording(now: int, started: bool)
      requires Valid()
      modifies this`audioFile, this`hasRecorder, this`isRecording, this`startTime, this`timer, this`finished
      ensures Valid()
      ensures audioFile == Some(RecordingPath(filesDir, now))
      ensures started ==> hasRecorder && isRecording && startTime == now && timer == Some(MaxRecordingTime)
      ensures started ==> finished == old(finished)
      ensures !started ==> finished && hasRecorder == old(hasRecorder) && isRecording == old(isRecording)
      ensures !started ==> startTime == old(startTime) && timer == old(timer)
    {
      var path := RecordingPath(filesDir, now);
      audioFile := Some(path);
      if started {
        hasRecorder := true;
        isRecording := true;
        startTime := now;
        StartTimer(now);
        assert timer == Some(MaxRecordingTime);
      } else {
        finished := true;
      }
    }

    /** `pauseRecording()`: takes effect only while recording and not paused, on API 24 and above. */
    method PauseRecording(now: int, paused: bool)
      requires Valid()
      modifies this
      ensures Valid()
      ensures var applies := old(isRecording && !isPaused) && canPause && paused;
              if applies then isPaused && pausedTime == now && timer == None
              else isPaused == old(isPaused) && pausedTime == old(pausedTime) && timer == old(timer)
      ensures Elapsed(now) == old(Elapsed(now))
      ensures isRecording == old(isRecording) && startTime == old(startTime) && hasRecorder == old(hasRecorder)
      ensures audioFile == old(audioFile) && wasCancelled == old(wasCancelled)
      ensures result == old(result) && finished == old(finished)
    {
      if isRecording && !isPaused && canPause {
        if paused {
          isPaused := true;
          pausedTime := now;
          timer := None;
        }
      }
    }

    /**
     * `resumeRecording()`: takes effect only while recording and paused; the start time moves
     * forward by the time spent paused, so the clock resumes from where it stopped.
     */
    method ResumeRecording(now: int, resumed: bool)
      requires Valid()
      modifies this
      ensures Valid()
      ensures var applies := old(isRecording && isPaused) && canPause && resumed;
              if applies then !isPaused && startTime == old(startTime) + (now - old(pausedTime))
                              && now - startTime == old(pausedTime - startTime)
                              && timer == Some(MaxRecordingTime - old(pausedTime - startTime))
              else isPaused == old(isPaused) && startTime == old(startTime) && timer == old(timer)
      ensures Elapsed(now) == old(Elapsed(now))
      ensures isRecording == old(isRecording) && pausedTime == old(pausedTime) && hasRecorder == old(hasRecorder)
      ensures audioFile == old(audioFile) && wasCancelled == old(wasCancelled)
      ensures result == old(result) && finished == old(finished)
    {
      if isRecording && isPaused && canPause {
        if resumed {
          isPaused := false;
          startTime := startTime + (now - pausedTime);
          StartTimer(now);
        }
      }
    }

    /** `stopRecording()`: whatever the state, nothing is recording or paused afterwards. */
    method StopRecording()
      requires Valid()
      modifies this
      ensures Valid()
      ensures !isRecording && !isPaused && !hasRecorder && timer == None
      ensures audioFile == old(audioFile) && startTime == old(startTime) && pausedTime == old(pausedTime)
      ensures wasCancelled == old(wasCancelled) && result == old(result) && finished == old(finished)
    {
      timer := None;
      hasRecorder := false;
      isRecording := false;
      isPaused := false;
    }

    /**
     * `stopRecordingAndFinish()`: a cancelled screen answers RESULT_CANCELED; otherwise the
     * path is returned only for a file that exists and is not empty, and no result is set
     * when it is missing or empty.
     */
    method StopRecordingAndFinish(file: FileState)
      requires Valid()
      modifies this
      ensures Valid()
      ensures !isRecording && !isPaused && finished
      ensures old(wasCancelled) ==> result == ResultCanceled
      ensures !old(wasCancelled) && audioFile.Some? && file.Present? && file.length > 0
              ==> result == ResultOk(audioFile.value)
      ensures !old(wasCancelled) && (audioFile.None? || file.Missing? || file.length <= 0)
              ==> result == old(result)
      ensures old(result) == NoResult ==>
                (result.ResultOk? <==> !wasCancelled && audioFile.Some? && file.Present? && file.length > 0)
      ensures audioFile == old(audioFile) && wasCancelled == old(wasCancelled)
    {
      StopRecording();
      if wasCancelled {
        result := ResultCanceled;
      } else if audioFile.Some? {
        if file.Present? && file.length > 0 {
          result := ResultOk(audioFile.value);
        }
      }
      finished := true;
    }

    /** The close button: the screen is cancelled, then stopped and finished. */
    method OnCloseClicked(file: FileState)
      requires Valid()
      modifies this
      ensures Valid()
      ensures wasCancelled && finished && !isRecording && !isPaused
      ensures result == ResultCanceled
    {
      wasCancelled := true;
      StopRecordingAndFinish(file);
    }

    /** The pause button toggles between pausing and resuming. */
    method OnPauseClicked(now: int, succeeded: bool)
      requires Valid()
      modifies this
      ensures Valid()
      ensures old(isPaused) && canPause && succeeded ==> !isPaused
      ensures !old(isPaused) && old(isRecording) && canPause && succeeded ==> isPaused && pausedTime == now
      ensures Elapsed(now) == old(Elapsed(now))
      ensures isRecording == old(isRecording) && result == old(result) && finished == old(finished)
    {
      if isPaused {
        ResumeRecording(now, succeeded);
      } else {
        PauseRecording(now, succeeded);
      }
    }
  }
}
