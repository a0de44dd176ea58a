/** A therapy session as stored: its status, its recording and the progress of the
    transcription and of the AI analysis, with the duration shown to the user. */
module Sessions {
  import opened Wrappers
  import opened Text
  import opened Numbers
  import opened AiExtraction

  datatype SessionStatus = Scheduled | Completed | Cancelled | NoShow

  /** The status as stored in the database. */
  function StatusValue(s: SessionStatus): (v: string)
    ensures v != []
  {
    match s
    case Scheduled => "scheduled"
    case Completed => "completed"
    case Cancelled => "cancelled"
    case NoShow => "no_show"
  }

  /** The stored values tell the statuses apart. */
  lemma StatusValueInjective(a: SessionStatus, b: SessionStatus)
    ensures StatusValue(a) == StatusValue(b) <==> a == b
  {
  }

  // ---------------------------------------------------------------------------------
  // get_duration_display
  // ---------------------------------------------------------------------------------

  /** The duration in minutes as "{h}h{mm}" from one hour on, else "{m} min". Python's
      // and % with the divisor 60 floor, as Dafny's do, so a negative duration shows
      its remainder modulo 60 in minutes. */
  function DurationDisplay(minutes: int): string
  {
    var hours := minutes / 60;
    var rest := minutes % 60;
    if hours > 0 then NatToString(hours) + "h" + TwoDigits(rest)
    else NatToString(rest) + " min"
  }

  /** From one hour on the hours come first and the minutes within the hour are the two
      digits after the 'h'; below an hour the minutes come first, followed by " min". */
  lemma DurationDisplayReadsBack(minutes: int)
    ensures minutes >= 60 ==>
      DigitPrefix(DurationDisplay(minutes)) == NatToString(minutes / 60) &&
      TwoDigitsAt(DurationDisplay(minutes), |NatToString(minutes / 60)| + 1) == Some(minutes % 60) &&
      |DurationDisplay(minutes)| == |NatToString(minutes / 60)| + 3
    ensures 0 <= minutes < 60 ==> DurationDisplay(minutes) == NatToString(minutes) + " min"
  {
    if minutes >= 60 {
      ClockReadsBack(minutes / 60, "h", minutes % 60, "");
      assert DurationDisplay(minutes) == NatToString(minutes / 60) + "h" + TwoDigits(minutes % 60) + "";
    }
  }

  /** A negative duration is shown as the minutes it lacks to the next hour below it:
      -15 is shown as "45 min". */
  lemma NegativeDurationShowsRemainder(minutes: int)
    requires -60 <= minutes < 0
    ensures DurationDisplay(minutes) == NatToString(minutes + 60) + " min"
  {
    assert minutes / 60 == -1 && minutes % 60 == minutes + 60;
  }

  // ---------------------------------------------------------------------------------
  // The processing state of a session
  // ---------------------------------------------------------------------------------

  /** The four processing states, in the order they are checked. */
  datatype ProcessingStatus = NoRecording | Transcribing | Analysing | Done

  /** The words shown for each processing state. */
  function ProcessingLabel(p: ProcessingStatus): string
  {
    match p
    case NoRecording => "Aucun enregistrement"
    case Transcribing => "Transcription en cours..."
    case Analysing => "Analyse IA en cours..."
    case Done => "Traitement terminé"
  }

  /** A path is present when it is set and not empty (Python truthiness). */
  predicate Present(path: Option<string>)
  {
    path.Some? && path.value != []
  }

  class Session {
    var status: SessionStatus
    var audioFilePath: Option<string>
    var audioProcessed: bool
    var transcription: Option<string>
    var transcriptionCompleted: bool
    var aiSummary: Option<string>
    var keyMoments: seq<Moment>
    var aiAnalysisCompleted: bool
    /** The clock reading of the last change, given by the caller. */
    var updatedAt: int

    /** A new session: scheduled, without recording, nothing processed. */
    constructor (now: int)
      ensures status == Scheduled && audioFilePath == None && !audioProcessed
      ensures transcription == None && !transcriptionCompleted
      ensures aiSummary == None && keyMoments == [] && !aiAnalysisCompleted
      ensures updatedAt == now
    {
      status := Scheduled;
      audioFilePath := None;
      audioProcessed := false;
      transcription := None;
      transcriptionCompleted := false;
      aiSummary := None;
      keyMoments := [];
      aiAnalysisCompleted := false;
      updatedAt := now;
    }

    /** `is_ready_for_ai_processing`: a completed session with a recording whose
        analysis is not done yet; the transcription need not be finished. */
    predicate IsReadyForAiProcessing()
      reads this
      ensures IsReadyForAiProcessing() <==> status == Completed && Present(audioFilePath) && !aiAnalysisCompleted
    {
      status == Completed && Present(audioFilePath) && !aiAnalysisCompleted
    }

    /** `get_processing_status`: the first missing step, in the order recording,
        transcription, analysis. */
    function GetProcessingStatus(): (p: ProcessingStatus)
      reads this
      ensures p == NoRecording <==> !Present(audioFilePath)
      ensures p == Transcribing <==> Present(audioFilePath) && !transcriptionCompleted
      ensures p == Analysing <==> Present(audioFilePath) && transcriptionCompleted && !aiAnalysisCompleted
      ensures p == Done <==> Present(audioFilePath) && transcriptionCompleted && aiAnalysisCompleted
    {
      if !Present(audioFilePath) then NoRecording
      else if !transcriptionCompleted then Transcribing
      else if !aiAnalysisCompleted then Analysing
      else Done
    }

    /** `mark_audio_processed`. */
    method MarkAudioProcessed(now: int)
      modifies this
      ensures audioProcessed && updatedAt == now
      ensures status == old(status) && audioFilePath == old(audioFilePath)
      ensures transcription == old(transcription) && transcriptionCompleted == old(transcriptionCompleted)
      ensures aiSummary == old(aiSummary) && keyMoments == old(keyMoments) && aiAnalysisCompleted == old(aiAnalysisCompleted)
    {
      audioProcessed := true;
      updatedAt := now;
    }

    /** `mark_transcription_completed`: the text is stored and the step is done; the
        status of the session is left as it was. */
    method MarkTranscriptionCompleted(text: string, now: int)
      modifies this
      ensures transcription == Some(text) && transcriptionCompleted && updatedAt == now
      ensures status == old(status) && audioFilePath == old(audioFilePath) && audioProcessed == old(audioProcessed)
      ensures aiSummary == old(aiSummary) && keyMoments == old(keyMoments) && aiAnalysisCompleted == old(aiAnalysisCompleted)
      ensures IsReadyForAiProcessing() == old(IsReadyForAiProcessing())
      ensures Present(audioFilePath) ==> GetProcessingStatus() != Transcribing
    {
      transcription := Some(text);
      transcriptionCompleted := true;
      updatedAt := now;
    }

    /** `mark_ai_analysis_completed`: the summary and the moments are stored and the
        step is done, so the session is no longer ready for processing. */
    method MarkAiAnalysisCompleted(summary: string, moments: seq<Moment>, now: int)
      modifies this
      ensures aiSummary == Some(summary) && keyMoments == moments && aiAnalysisCompleted && updatedAt == now
      ensures status == old(status) && audioFilePath == old(audioFilePath) && audioProcessed == old(audioProcessed)
      ensures transcription == old(transcription) && transcriptionCompleted == old(transcriptionCompleted)
      ensures !IsReadyForAiProcessing()
      ensures GetProcessingStatus() == Done <==> Present(audioFilePath) && transcriptionCompleted
    {
      aiSummary := Some(summary);
      keyMoments := moments;
      aiAnalysisCompleted := true;
      updatedAt := now;
    }
  }

  /** A recorded session goes through the steps in order: marking the transcription
      and then the analysis leaves it done, and no longer ready for processing. */
  method ProcessRecordedSession(s: Session, text: string, summary: string, moments: seq<Moment>, now: int)
    requires Present(s.audioFilePath)
    modifies s
    ensures s.GetProcessingStatus() == Done && !s.IsReadyForAiProcessing()
    ensures s.transcription == Some(text) && s.aiSummary == Some(summary) && s.keyMoments == moments
  {
    s.MarkTranscriptionCompleted(text, now);
    s.MarkAiAnalysisCompleted(summary, moments, now);
  }
}
