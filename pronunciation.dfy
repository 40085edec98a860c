/** The pronunciation lab of pages/Pronunciation.tsx: an optional target
    sentence, the last analysis and the analysing flag. Finished captures
    longer than five characters are analysed on their own, and every
    analysis records its fluency score in the app store. */
module PronunciationPage {
  import opened Wrappers
  import opened Types
  import GeminiService
  import UseSpeech
  import AppContext
  import JsText

  /** The auto-analysis effect fires once capture is over and the
      transcript is longer than five UTF-16 code units, as JavaScript's
      `length` counts them. */
  function ShouldAutoAnalyze(isListening: bool, transcript: string): (fire: bool)
    ensures fire <==> !isListening && JsText.Utf16Length(transcript) > 5
    ensures fire ==> transcript != ""
    ensures !isListening && |transcript| > 5 ==> fire
  {
    !isListening && JsText.Utf16Length(transcript) > 5
  }

  /** Three emoji are six code units in JavaScript, so a finished capture
      of them is analysed although it holds only three characters. */
  lemma ThreeEmojiTrigger()
    ensures |"\U{1F600}\U{1F600}\U{1F600}"| == 3
    ensures ShouldAutoAnalyze(false, "\U{1F600}\U{1F600}\U{1F600}")
  {
    var s := "\U{1F600}\U{1F600}\U{1F600}";
    assert s[..2][..1] == s[..1] && s[..3][..2] == s[..2] && s[..1][..0] == [];
    assert JsText.Utf16Length(s[..1]) == 2;
    assert JsText.Utf16Length(s[..2]) == 4;
    assert s[..3] == s;
  }

  /** `targetText || undefined`: an empty target is no target. */
  function TargetArgument(targetText: string): (arg: Option<string>)
    ensures arg.None? <==> targetText == ""
    ensures arg.Some? ==> arg.value == targetText
  {
    if targetText == "" then None else Some(targetText)
  }

  const Green: string := "text-green-500"
  const Yellow: string := "text-yellow-500"
  const Red: string := "text-red-500"

  /** `getScoreColor`: green from 80 up, yellow from 60 up, red below. */
  function ScoreColor(score: int): (color: string)
    ensures color == Green <==> score >= 80
    ensures color == Yellow <==> 60 <= score < 80
    ensures color == Red <==> score < 60
  {
    if score >= 80 then Green else if score >= 60 then Yellow else Red
  }

  /** The order of the three bands, worst first. */
  function Band(color: string): nat {
    if color == Green then 2 else if color == Yellow then 1 else 0
  }

  /** A higher score never gets a worse colour. */
  lemma ScoreColorMonotone(a: int, b: int)
    requires a <= b
    ensures Band(ScoreColor(a)) <= Band(ScoreColor(b))
  {
  }

  class PronunciationLab {
    var targetText: string
    var result: Option<PronunciationResult>
    var isAnalyzing: bool

    constructor ()
      ensures targetText == "" && result == None && !isAnalyzing
    {
      targetText, result, isAnalyzing := "", None, false;
    }

    /** The target sentence input. */
    method SetTargetText(t: string)
      modifies this
      ensures targetText == t && result == old(result) && isAnalyzing == old(isAnalyzing)
    {
      targetText := t;
    }

    /** `handleAnalyze` once its call resolved. An empty transcript changes
        nothing. Otherwise the transcript and the target (if any) go out in
        the prompt, the reply's result (or the fallback) is shown, and its
        fluency score, zero for the fallback, joins the fluency history. */
    method HandleAnalyze(transcript: string, store: AppContext.AppStore, reply: GeminiService.ModelReply,
                         parse: string -> Option<PronunciationResult>, today: string)
      returns (prompt: Option<string>)
      modifies this, store
      ensures transcript == "" ==> prompt == None && result == old(result) && isAnalyzing == old(isAnalyzing)
                                   && store.stats == old(store.stats)
      ensures transcript != "" ==>
                && prompt == Some(GeminiService.AnalysisPrompt(transcript, TargetArgument(targetText)))
                && result == Some(GeminiService.AnalysisResult(reply, parse))
                && !isAnalyzing
                && store.stats == old(store.stats).(fluencyHistory :=
                     AppContext.RecordScore(old(store.stats.fluencyHistory), FluencyPoint(today, result.value.fluencyScore)))
      ensures transcript != "" && reply.Threw? ==>
                store.stats.fluencyHistory[|store.stats.fluencyHistory| - 1] == FluencyPoint(today, 0)
      ensures targetText == old(targetText) && store.settings == old(store.settings)
    {
      if transcript == "" {
        return None;
      }
      isAnalyzing := true;
      prompt := Some(GeminiService.AnalysisPrompt(transcript, TargetArgument(targetText)));
      var res := GeminiService.AnalysisResult(reply, parse);
      result := Some(res);
      store.SaveConversationScore(res.fluencyScore, today);
      isAnalyzing := false;
    }

    /** One run of the auto-analysis effect, which React runs only after
        `isListening` or `transcript` changed: analyses exactly when
        `ShouldAutoAnalyze`. */
    method OnSpeechUpdate(speech: UseSpeech.SpeechAdapter, store: AppContext.AppStore, reply: GeminiService.ModelReply,
                          parse: string -> Option<PronunciationResult>, today: string)
      returns (prompt: Option<string>)
      modifies this, store
      ensures prompt.Some? <==> ShouldAutoAnalyze(speech.isListening, speech.transcript)
      ensures prompt.Some? ==> prompt.value == GeminiService.AnalysisPrompt(speech.transcript, TargetArgument(targetText))
      ensures isAnalyzing == if ShouldAutoAnalyze(speech.isListening, speech.transcript) then false else old(isAnalyzing)
      ensures !ShouldAutoAnalyze(speech.isListening, speech.transcript) ==>
                result == old(result) && store.stats == old(store.stats)
      ensures ShouldAutoAnalyze(speech.isListening, speech.transcript) ==>
                && result == Some(GeminiService.AnalysisResult(reply, parse))
                && store.stats == old(store.stats).(fluencyHistory :=
                     AppContext.RecordScore(old(store.stats.fluencyHistory), FluencyPoint(today, result.value.fluencyScore)))
      ensures targetText == old(targetText) && store.settings == old(store.settings)
    {
      if ShouldAutoAnalyze(speech.isListening, speech.transcript) {
        prompt := HandleAnalyze(speech.transcript, store, reply, parse, today);
      } else {
        prompt := None;
      }
    }

    /** "Try Another": the result is cleared and so is the transcript. */
    method TryAnother(speech: UseSpeech.SpeechAdapter)
      requires speech.Valid()
      modifies this, speech
      ensures speech.Valid() && speech.State() == old(speech.State()).(transcript := "")
      ensures result == None && targetText == old(targetText) && isAnalyzing == old(isAnalyzing)
    {
      result := None;
      speech.SetTranscript("");
    }
  }
}
