/** The daily-challenge controller of pages/DailyChallenge.tsx. The two
    local-storage keys are the fields `storedChallenges` (the list last
    written, None when the key is absent) and `storedDate`; the clock is the
    `today` parameter (`new Date().toDateString()`); the generation call is
    its `ModelReply` and parse oracle. */
module DailyChallengePage {
  import opened Wrappers
  import opened Types
  import JsText
  import GeminiService
  import UseSpeech

  /** The cached list is used iff one is stored and it was stored today. */
  function UseStoredChallenges(stored: Option<seq<DailyChallenge>>, storedDate: Option<string>, today: string): (use: bool)
    ensures use ==> stored.Some? && storedDate == Some(today)
    ensures stored.Some? && storedDate == Some(today) ==> use
  {
    stored.Some? && storedDate.Some? && storedDate.value == today
  }

  /** The completion test `text.split(' ').length > 3`: since splitting
      yields one piece more than there are spaces, it holds iff the text
      contains at least three spaces (spaces are counted, not words). */
  function SpokeEnough(text: string): (done: bool)
    ensures done <==> JsText.Count(text, ' ') >= 3
  {
    JsText.SplitLength(text, ' ');
    |JsText.Split(text, ' ')| > 3
  }

  /** Three spaces between two words pass the test; four words on four
      lines, with no space between them, do not. */
  lemma SpacesNotWords()
    ensures SpokeEnough("go   on")
    ensures !SpokeEnough("I\nam\nhere\nnow")
  {
    assert JsText.Count("go   on", ' ') == 3;
    assert JsText.Count("I\nam\nhere\nnow", ' ') == 0;
  }

  /** `challenges.map(c => c.id === id ? { ...c, completed: true } : c)`. */
  function MarkCompleted(cs: seq<DailyChallenge>, id: string): (r: seq<DailyChallenge>)
    ensures |r| == |cs|
    ensures forall k :: 0 <= k < |cs| ==> r[k] == if cs[k].id == id then cs[k].(completed := true) else cs[k]
  {
    if cs == [] then []
    else [if cs[0].id == id then cs[0].(completed := true) else cs[0]] + MarkCompleted(cs[1..], id)
  }

  /** Marking is idempotent, sets exactly the matching challenges' flags
      (the others keep theirs), and leaves a list without the id as it was. */
  lemma MarkCompletedProperties(cs: seq<DailyChallenge>, id: string)
    ensures MarkCompleted(MarkCompleted(cs, id), id) == MarkCompleted(cs, id)
    ensures forall k :: 0 <= k < |cs| ==>
              MarkCompleted(cs, id)[k].completed == (cs[k].completed || cs[k].id == id)
    ensures (forall k :: 0 <= k < |cs| ==> cs[k].id != id) ==> MarkCompleted(cs, id) == cs
  {
  }

  /** Whether a click asked the recognizer to start or to stop. */
  datatype CaptureRequest = StartCapture | StopCapture

  class ChallengeBoard {
    var challenges: seq<DailyChallenge>
    var loading: bool
    var activeChallengeId: Option<string>
    var storedChallenges: Option<seq<DailyChallenge>>
    var storedDate: Option<string>

    /** The page before its mount effect ran. */
    constructor (storedChallenges: Option<seq<DailyChallenge>>, storedDate: Option<string>)
      ensures challenges == [] && loading && activeChallengeId == None
      ensures this.storedChallenges == storedChallenges && this.storedDate == storedDate
    {
      challenges, loading, activeChallengeId := [], true, None;
      this.storedChallenges, this.storedDate := storedChallenges, storedDate;
    }

    /** `fetchNewChallenges` once its call resolved: the list is replaced
        wholesale and stored together with today's date. */
    method FetchNewChallenges(today: string, reply: GeminiService.ModelReply,
                              parse: string -> Option<seq<DailyChallenge>>)
      modifies this
      ensures challenges == GeminiService.ChallengeList(reply, parse)
      ensures storedChallenges == Some(challenges) && storedDate == Some(today)
      ensures !loading && activeChallengeId == old(activeChallengeId)
    {
      loading := true;
      var newChallenges := GeminiService.ChallengeList(reply, parse);
      challenges := newChallenges;
      storedChallenges := Some(newChallenges);
      storedDate := Some(today);
      loading := false;
    }

    /** The mount effect: today's stored list is taken as it is; otherwise
        new challenges are fetched. `fetched` tells whether the generation
        call was made. */
    method Mount(today: string, reply: GeminiService.ModelReply,
                 parse: string -> Option<seq<DailyChallenge>>) returns (fetched: bool)
      modifies this
      ensures fetched == !UseStoredChallenges(old(storedChallenges), old(storedDate), today)
      ensures !fetched ==> challenges == old(storedChallenges).value && !loading
                             && storedChallenges == old(storedChallenges) && storedDate == old(storedDate)
      ensures fetched ==> challenges == GeminiService.ChallengeList(reply, parse) && !loading
                            && storedChallenges == Some(challenges) && storedDate == Some(today)
      ensures activeChallengeId == old(activeChallengeId)
    {
      if UseStoredChallenges(storedChallenges, storedDate, today) {
        challenges := storedChallenges.value;
        loading := false;
        fetched := false;
      } else {
        FetchNewChallenges(today, reply, parse);
        fetched := true;
      }
    }

    /** `verifyChallenge`: when the text passes the test, the challenge with
        that id is completed, the list is stored and capture is no longer
        active; otherwise nothing changes. */
    method VerifyChallenge(id: string, text: string) returns (completed: bool)
      modifies this
      ensures completed == SpokeEnough(text)
      ensures completed ==> challenges == MarkCompleted(old(challenges), id)
                              && storedChallenges == Some(challenges) && activeChallengeId == None
      ensures !completed ==> challenges == old(challenges) && storedChallenges == old(storedChallenges)
                               && activeChallengeId == old(activeChallengeId)
      ensures loading == old(loading) && storedDate == old(storedDate)
    {
      completed := SpokeEnough(text);
      if completed {
        var updated := MarkCompleted(challenges, id);
        challenges := updated;
        storedChallenges := Some(updated);
        activeChallengeId := None;
      }
    }

    /** One run of the effect that follows a change of `isListening` or
        `transcript`: a capture that ended with a transcript while a
        challenge is active verifies that challenge. The active id is tested
        for truthiness, so an active id "" counts as none. */
    method OnSpeechUpdate(speech: UseSpeech.SpeechAdapter) returns (verified: bool)
      modifies this
      ensures verified == (!speech.isListening && speech.transcript != ""
                           && old(activeChallengeId).Some? && old(activeChallengeId).value != "")
      ensures verified && SpokeEnough(speech.transcript) ==>
                challenges == MarkCompleted(old(challenges), old(activeChallengeId).value)
                && storedChallenges == Some(challenges) && activeChallengeId == None
      ensures !(verified && SpokeEnough(speech.transcript)) ==>
                challenges == old(challenges) && storedChallenges == old(storedChallenges)
                && activeChallengeId == old(activeChallengeId)
      ensures loading == old(loading) && storedDate == old(storedDate)
    {
      verified := !speech.isListening && speech.transcript != ""
                  && activeChallengeId.Some? && activeChallengeId.value != "";
      if verified {
        var _ := VerifyChallenge(activeChallengeId.value, speech.transcript);
      }
    }

    /** The Start/Stop button of a challenge: clicking the active one stops
        capture and clears the active id; clicking another makes it the one
        active challenge and starts capture. */
    method ToggleChallenge(id: string, speech: UseSpeech.SpeechAdapter, startRejected: bool)
      returns (request: CaptureRequest)
      requires speech.Valid()
      modifies this, speech
      ensures speech.Valid()
      ensures old(activeChallengeId) == Some(id) ==> activeChallengeId == None && request == StopCapture
      ensures old(activeChallengeId) != Some(id) ==> activeChallengeId == Some(id) && request == StartCapture
      ensures request == StopCapture ==>
                speech.State() == if speech.recognitionAvailable
                                  then old(speech.State()).(recognitionCalls := old(speech.recognitionCalls) + [UseSpeech.Stop])
                                  else old(speech.State())
      ensures request == StartCapture && speech.recognitionAvailable ==>
                speech.State() == old(speech.State()).(transcript := "",
                  recognitionCalls := old(speech.recognitionCalls)
                                      + [UseSpeech.Start] + (if startRejected then [UseSpeech.Stop, UseSpeech.StartAfterDelay] else []))
      ensures request == StartCapture && !speech.recognitionAvailable ==>
                speech.State() == old(speech.State()).(alerts := old(speech.alerts) + [UseSpeech.NotSupportedAlert])
      ensures challenges == old(challenges) && loading == old(loading)
      ensures storedChallenges == old(storedChallenges) && storedDate == old(storedDate)
    {
      if activeChallengeId == Some(id) {
        speech.StopListening();
        activeChallengeId := None;
        request := StopCapture;
      } else {
        activeChallengeId := Some(id);
        speech.StartListening(startRejected);
        request := StartCapture;
      }
    }
  }
}
