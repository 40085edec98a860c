/** The speech adapter of hooks/useSpeech.ts. The browser's recognizer and
    synthesizer are platform objects: their events are method calls on the
    adapter, and what the adapter asks of them is recorded, in order, in
    `recognitionCalls` and `synthesisCalls`. Whether a platform object exists
    is fixed when the adapter is made. */
module UseSpeech {

  /** One entry of `event.results`: whether it is final, and the transcript
      of its first alternative (`results[i][0].transcript`). */
  datatype SpeechResult = SpeechResult(isFinal: bool, transcript: string)

  /** What the adapter asks of the recognizer, refused calls included;
      `StartAfterDelay` is the restart scheduled with a 100 ms timer. */
  datatype RecognitionCall = Start | Stop | StartAfterDelay

  datatype Utterance = Utterance(text: string, lang: string, rate: real)

  /** What the adapter asks of the synthesizer. */
  datatype SynthesisCall = Cancel | SpeakUtterance(utterance: Utterance)

  const NotSupportedAlert: string := "Speech Recognition not supported in this browser."

  // ------------------------------------------------- result accumulation

  /** The in-order concatenation of the transcripts of the final results. */
  function Finalized(rs: seq<SpeechResult>): (s: string)
    ensures |s| <= TotalLength(rs)
  {
    if rs == [] then ""
    else Finalized(rs[..|rs| - 1]) + (if rs[|rs| - 1].isFinal then rs[|rs| - 1].transcript else "")
  }

  /** The in-order concatenation of the transcripts of the other results. */
  function Interim(rs: seq<SpeechResult>): (s: string)
    ensures |s| <= TotalLength(rs)
  {
    if rs == [] then ""
    else Interim(rs[..|rs| - 1]) + (if rs[|rs| - 1].isFinal then "" else rs[|rs| - 1].transcript)
  }

  /** The results a `result` event reports as new: from `resultIndex` to the
      end (none when the index is past the end). */
  function Pending(results: seq<SpeechResult>, resultIndex: nat): (rs: seq<SpeechResult>)
    ensures resultIndex <= |results| ==> rs == results[resultIndex..]
    ensures resultIndex > |results| ==> rs == []
  {
    if resultIndex <= |results| then results[resultIndex..] else []
  }

  /** Accumulation distributes over concatenation, so it is "in order". */
  lemma {:induction false} FinalizedAppend(a: seq<SpeechResult>, b: seq<SpeechResult>)
    ensures Finalized(a + b) == Finalized(a) + Finalized(b)
    ensures Interim(a + b) == Interim(a) + Interim(b)
  {
    FinalizedOnly(a, b);
    InterimOnly(a, b);
  }

  lemma {:induction false} FinalizedOnly(a: seq<SpeechResult>, b: seq<SpeechResult>)
    ensures Finalized(a + b) == Finalized(a) + Finalized(b)
    decreases |b|
  {
    if b == [] {
      assert a + b == a;
    } else {
      var ab, init, last := a + b, b[..|b| - 1], b[|b| - 1];
      assert ab[..|ab| - 1] == a + init && ab[|ab| - 1] == last;
      assert Finalized(ab) == Finalized(a + init) + (if last.isFinal then last.transcript else "");
      assert Finalized(b) == Finalized(init) + (if last.isFinal then last.transcript else "");
      FinalizedOnly(a, init);
    }
  }

  lemma {:induction false} InterimOnly(a: seq<SpeechResult>, b: seq<SpeechResult>)
    ensures Interim(a + b) == Interim(a) + Interim(b)
    decreases |b|
  {
    if b == [] {
      assert a + b == a;
    } else {
      var ab, init, last := a + b, b[..|b| - 1], b[|b| - 1];
      assert ab[..|ab| - 1] == a + init && ab[|ab| - 1] == last;
      assert Interim(ab) == Interim(a + init) + (if last.isFinal then "" else last.transcript);
      assert Interim(b) == Interim(init) + (if last.isFinal then "" else last.transcript);
      InterimOnly(a, init);
    }
  }

  /** The final text is empty iff every final result has an empty transcript,
      so interim results alone never produce one. */
  lemma {:induction false} FinalizedEmpty(rs: seq<SpeechResult>)
    ensures Finalized(rs) == "" <==> forall k :: 0 <= k < |rs| && rs[k].isFinal ==> rs[k].transcript == ""
  {
    if rs != [] {
      var init := rs[..|rs| - 1];
      FinalizedEmpty(init);
      assert forall k :: 0 <= k < |init| ==> init[k] == rs[k];
    }
  }

  /** Every character of a result lands in exactly one of the two texts. */
  lemma {:induction false} AccumulationSplitsAll(rs: seq<SpeechResult>)
    ensures |Finalized(rs)| + |Interim(rs)| == TotalLength(rs)
  {
    if rs != [] {
      AccumulationSplitsAll(rs[..|rs| - 1]);
    }
  }

  /** The number of characters in all transcripts together. */
  function TotalLength(rs: seq<SpeechResult>): nat {
    if rs == [] then 0 else TotalLength(rs[..|rs| - 1]) + |rs[|rs| - 1].transcript|
  }

  /** The loop of the `onresult` handler: from `resultIndex` on, final
      transcripts go to `final`, the others to `interim`. */
  method Accumulate(results: seq<SpeechResult>, resultIndex: nat) returns (interim: string, final: string)
    ensures final == Finalized(Pending(results, resultIndex))
    ensures interim == Interim(Pending(results, resultIndex))
  {
    interim, final := "", "";
    if resultIndex > |results| {
      // the loop's guard fails at once
      return;
    }
    var i := resultIndex;
    while i < |results|
      invariant resultIndex <= i <= |results|
      invariant final == Finalized(results[resultIndex..i])
      invariant interim == Interim(results[resultIndex..i])
    {
      assert results[resultIndex..i + 1] == results[resultIndex..i] + [results[i]];
      FinalizedAppend(results[resultIndex..i], [results[i]]);
      assert [results[i]][..0] == [];
      if results[i].isFinal {
        final := final + results[i].transcript;
      } else {
        interim := interim + results[i].transcript;
      }
      i := i + 1;
    }
    assert results[resultIndex..i] == results[resultIndex..];
  }


  /** Every utterance is queued right after a cancel. */
  ghost predicate CancelsBeforeSpeaking(calls: seq<SynthesisCall>) {
    forall k :: 0 <= k < |calls| && calls[k].SpeakUtterance? ==> 0 < k && calls[k - 1] == Cancel
  }

  /** The observable state of the hook. */
  datatype SpeechState = SpeechState(
    isListening: bool,
    transcript: string,
    isSpeaking: bool,
    recognitionCalls: seq<RecognitionCall>,
    synthesisCalls: seq<SynthesisCall>,
    alerts: seq<string>)

  class SpeechAdapter {
    const language: string
    const rate: real
    /** `recognitionRef.current` is set: the browser has a recognizer. */
    const recognitionAvailable: bool
    /** `synthesisRef.current` is set: the browser has a synthesizer. */
    const synthesisAvailable: bool

    var isListening: bool
    var transcript: string
    var isSpeaking: bool
    var recognitionCalls: seq<RecognitionCall>
    var synthesisCalls: seq<SynthesisCall>
    var alerts: seq<string>

    function State(): SpeechState
      reads this
    {
      SpeechState(isListening, transcript, isSpeaking, recognitionCalls, synthesisCalls, alerts)
    }

    /** Nothing is ever asked of a missing platform object, and every
        utterance is preceded by a cancel. */
    ghost predicate Valid()
      reads this
    {
      && (!recognitionAvailable ==> recognitionCalls == [])
      && (!synthesisAvailable ==> synthesisCalls == [])
      && CancelsBeforeSpeaking(synthesisCalls)
    }

    constructor (language: string, rate: real, recognitionAvailable: bool, synthesisAvailable: bool)
      ensures Valid()
      ensures this.language == language && this.rate == rate
      ensures this.recognitionAvailable == recognitionAvailable
      ensures this.synthesisAvailable == synthesisAvailable
      ensures State() == SpeechState(false, "", false, [], [], [])
    {
      this.language := language;
      this.rate := rate;
      this.recognitionAvailable := recognitionAvailable;
      this.synthesisAvailable := synthesisAvailable;
      isListening, transcript, isSpeaking := false, "", false;
      recognitionCalls, synthesisCalls, alerts := [], [], [];
    }

    /** `onstart`: capture began. */
    method OnStart()
      requires Valid()
      modifies this
      ensures Valid() && State() == old(State()).(isListening := true)
    {
      isListening := true;
    }

    /** `onend`: capture ended. */
    method OnEnd()
      requires Valid()
      modifies this
      ensures Valid() && State() == old(State()).(isListening := false)
    {
      isListening := false;
    }

    /** `onerror`: capture failed; the error itself is only logged. */
    method OnError()
      requires Valid()
      modifies this
      ensures Valid() && State() == old(State()).(isListening := false)
    {
      isListening := false;
    }

    /** `onresult`: the transcript becomes the new final text, and stays as
        it was when there is none. */
    method OnResult(results: seq<SpeechResult>, resultIndex: nat)
      requires Valid()
      modifies this
      ensures Valid()
      ensures var final := Finalized(Pending(results, resultIndex));
              State() == old(State()).(transcript := if final != "" then final else old(transcript))
    {
      var interim, final := Accumulate(results, resultIndex);
      if final != "" {
        transcript := final;
      }
    }

    /** `startListening`: clears the transcript and calls `start`; when the
        recognizer refuses that call (it throws because it is already
        running), stops it and schedules a restart. Without a recognizer it
        only alerts. */
    method StartListening(startRejected: bool)
      requires Valid()
      modifies this
      ensures Valid()
      ensures recognitionAvailable ==>
                State() == old(State()).(transcript := "",
                  recognitionCalls := old(recognitionCalls) + [Start] + (if startRejected then [Stop, StartAfterDelay] else []))
      ensures !recognitionAvailable ==>
                State() == old(State()).(alerts := old(alerts) + [NotSupportedAlert])
    {
      if recognitionAvailable {
        transcript := "";
        recognitionCalls := recognitionCalls + [Start];
        if startRejected {
          recognitionCalls := recognitionCalls + [Stop];
          recognitionCalls := recognitionCalls + [StartAfterDelay];
        }
      } else {
        alerts := alerts + [NotSupportedAlert];
      }
    }

    /** `stopListening`: stops the recognizer if there is one. */
    method StopListening()
      requires Valid()
      modifies this
      ensures Valid()
      ensures State() == if recognitionAvailable then old(State()).(recognitionCalls := old(recognitionCalls) + [Stop])
                         else old(State())
    {
      if recognitionAvailable {
        recognitionCalls := recognitionCalls + [Stop];
      }
    }

    /** `speak`: cancels whatever is being said, then queues `text` in the
        configured language and rate. Without a synthesizer it does nothing. */
    method Speak(text: string)
      requires Valid()
      modifies this
      ensures Valid()
      ensures State() == if synthesisAvailable
                         then old(State()).(synthesisCalls := old(synthesisCalls) + [Cancel, SpeakUtterance(Utterance(text, language, rate))])
                         else old(State())
    {
      if !synthesisAvailable {
        return;
      }
      synthesisCalls := synthesisCalls + [Cancel];
      synthesisCalls := synthesisCalls + [SpeakUtterance(Utterance(text, language, rate))];
    }

    /** The utterance's `onstart`. */
    method OnSpeechStart()
      requires Valid()
      modifies this
      ensures Valid() && State() == old(State()).(isSpeaking := true)
    {
      isSpeaking := true;
    }

    /** The utterance's `onend`. */
    method OnSpeechEnd()
      requires Valid()
      modifies this
      ensures Valid() && State() == old(State()).(isSpeaking := false)
    {
      isSpeaking := false;
    }

    /** The utterance's `onerror`. */
    method OnSpeechError()
      requires Valid()
      modifies this
      ensures Valid() && State() == old(State()).(isSpeaking := false)
    {
      isSpeaking := false;
    }

    /** `cancelSpeech`: cancels the synthesizer if there is one, and clears
        the speaking flag in any case. */
    method CancelSpeech()
      requires Valid()
      modifies this
      ensures Valid()
      ensures State() == old(State()).(isSpeaking := false,
                synthesisCalls := old(synthesisCalls) + (if synthesisAvailable then [Cancel] else []))
    {
      if synthesisAvailable {
        synthesisCalls := synthesisCalls + [Cancel];
      }
      isSpeaking := false;
    }

    /** `setTranscript`, which the hook hands to its callers. */
    method SetTranscript(t: string)
      requires Valid()
      modifies this
      ensures Valid() && State() == old(State()).(transcript := t)
    {
      transcript := t;
    }
  }
}
