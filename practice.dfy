/** The conversation session of pages/Practice.tsx: the message log, the
    input box, the loading flag and the one-second session timer. The chat
    call is its `ModelReply`, the clock (`Date.now()`) the `sentAt` and
    `repliedAt` parameters, and the page's speech hook a `SpeechAdapter`. */
module PracticePage {
  import opened Wrappers
  import opened Types
  import JsText
  import GeminiService
  import UseSpeech
  import AppContext

  const DefaultTopic: string := "General Chat"

  /** `searchParams.get('topic') || 'General Chat'`. */
  function TopicOf(param: Option<string>): (topic: string)
    ensures param.Some? && param.value != "" ==> topic == param.value
    ensures param.None? || param.value == "" ==> topic == DefaultTopic
  {
    if param.Some? && param.value != "" then param.value else DefaultTopic
  }

  /** The instruction the greeting request sends. */
  function OpeningMessage(topic: string): (m: string)
    ensures JsText.Includes(m, topic)
  {
    GeminiService.IncludesMiddle("Start a conversation about ", topic, ".");
    "Start a conversation about " + topic + "."
  }

  /** The send button is disabled only when the trimmed input is empty
      and no capture is running: while listening it stays enabled, and it
      does not look at the loading flag. */
  function SendDisabled(inputText: string, isListening: bool): (disabled: bool)
    ensures disabled <==> JsText.AllWhitespace(inputText) && !isListening
  {
    JsText.Trim(inputText) == "" && !isListening
  }

  // ------------------------------------------------------------ history

  /** Only the user's own messages are user turns; AI and system messages
      are model turns. */
  function RoleOf(sender: Sender): (role: GeminiService.Role)
    ensures role == GeminiService.UserRole <==> sender == User
    ensures GeminiService.RoleName(role) == (if sender == User then "user" else "model")
  {
    if sender == User then GeminiService.UserRole else GeminiService.ModelRole
  }

  /** `messages.map(m => ({ role, parts: [{ text: m.text }] }))`: the log in
      order, each message as a turn of its sender's role. */
  function History(ms: seq<Message>): (h: seq<GeminiService.Content>)
    ensures |h| == |ms|
    ensures forall k :: 0 <= k < |ms| ==> h[k] == GeminiService.Content(RoleOf(ms[k].sender), ms[k].text)
  {
    if ms == [] then [] else [GeminiService.Content(RoleOf(ms[0].sender), ms[0].text)] + History(ms[1..])
  }

  /** Mapping a longer log extends the mapped history. */
  lemma {:induction false} HistoryAppend(a: seq<Message>, b: seq<Message>)
    ensures History(a + b) == History(a) + History(b)
  {
    if a != [] {
      assert (a + b)[1..] == a[1..] + b;
      HistoryAppend(a[1..], b);
    } else {
      assert a + b == b;
    }
  }

  // -------------------------------------------------------------- shape

  /** The log of a session that greeted first and then exchanged turns:
      one AI greeting, then user/AI pairs. */
  ghost predicate ConversationShape(ms: seq<Message>) {
    && |ms| % 2 == 1
    && forall k :: 0 <= k < |ms| ==> (ms[k].sender == User <==> k % 2 == 1)
  }

  function UserTurns(ms: seq<Message>): nat {
    if ms == [] then 0 else UserTurns(ms[..|ms| - 1]) + (if ms[|ms| - 1].sender == User then 1 else 0)
  }

  /** A session with N user messages holds exactly 2N + 1 messages. */
  lemma {:induction false} ShapeLength(ms: seq<Message>)
    requires ConversationShape(ms)
    ensures |ms| == 2 * UserTurns(ms) + 1
    decreases |ms|
  {
    if |ms| > 1 {
      var init := ms[..|ms| - 2];
      assert forall k :: 0 <= k < |init| ==> init[k] == ms[k];
      ShapeLength(init);
      assert ms[..|ms| - 1][..|ms| - 2] == init;
    }
  }

  // ------------------------------------------------------------- timer

  /** `formatTime` (m:ss): the minutes, a colon, and the seconds padded to
      two digits. Read back, the two fields give the time again, and the
      seconds field is below 60. */
  function FormatClock(seconds: nat): (r: string)
    ensures |r| >= 4 && r[|r| - 3] == ':'
    ensures forall k :: 0 <= k < |r| && k != |r| - 3 ==> JsText.IsDigit(r[k])
    ensures JsText.DecimalValue(r[|r| - 2..]) < 60
    ensures JsText.DecimalValue(r[..|r| - 3]) * 60 + JsText.DecimalValue(r[|r| - 2..]) == seconds
  {
    var mins, secs := JsText.Decimal(seconds / 60), JsText.PadStart(JsText.Decimal(seconds % 60), 2, '0');
    SecondsField(seconds % 60);
    JsText.DecimalRoundTrip(seconds / 60);
    ClockFields(mins, secs);
    mins + ":" + secs
  }

  /** The seconds field: two digits whose value is the seconds. */
  lemma SecondsField(s: nat)
    requires s < 60
    ensures var p := JsText.PadStart(JsText.Decimal(s), 2, '0');
            && |p| == 2
            && (forall k :: 0 <= k < 2 ==> JsText.IsDigit(p[k]))
            && JsText.DecimalValue(p) == s
  {
    var d := JsText.Decimal(s);
    var p := JsText.PadStart(d, 2, '0');
    TwoDigitsAtMost(s);
    JsText.DecimalRoundTrip(s);
    var z := p[..|p| - |d|];
    assert p == z + d;
    JsText.LeadingZerosValue(z, d);
  }

  /** Where the two fields sit in `mins + ":" + secs`. */
  lemma ClockFields(mins: string, secs: string)
    requires |mins| >= 1 && |secs| == 2
    ensures var r := mins + ":" + secs;
            && r[|r| - 3] == ':' && r[..|r| - 3] == mins && r[|r| - 2..] == secs
            && (forall k :: 0 <= k < |mins| ==> r[k] == mins[k])
            && (forall k :: |r| - 2 <= k < |r| ==> r[k] == secs[k - |r| + 2])
  {
  }

  /** Numbers below 100 have at most two digits. */
  lemma TwoDigitsAtMost(n: nat)
    requires n < 100
    ensures |JsText.Decimal(n)| <= 2
  {
    if n >= 10 {
      assert JsText.Decimal(n) == JsText.Decimal(n / 10) + [JsText.DigitChar(n % 10)];
    }
  }

  /** A user turn answered by the AI keeps the shape. */
  lemma ShapeExtend(ms: seq<Message>, u: Message, a: Message)
    requires u.sender == User && a.sender == Ai
    ensures ConversationShape(ms) ==> ConversationShape(ms + [u, a])
  {
    if ConversationShape(ms) {
      var ms' := ms + [u, a];
      forall k | 0 <= k < |ms'|
        ensures ms'[k].sender == User <==> k % 2 == 1
      {
        if k < |ms| { assert ms'[k] == ms[k]; }
      }
    }
  }

  /** The speech state after `cancelSpeech`, `setTranscript('')` and `speak`. */
  lemma SpeechAfterSend(s0: UseSpeech.SpeechState, s3: UseSpeech.SpeechState, synth: bool, u: UseSpeech.Utterance)
    requires s3 == (var s1 := s0.(isSpeaking := false, synthesisCalls := s0.synthesisCalls + (if synth then [UseSpeech.Cancel] else []));
                    var s2 := s1.(transcript := "");
                    if synth then s2.(synthesisCalls := s2.synthesisCalls + [UseSpeech.Cancel, UseSpeech.SpeakUtterance(u)]) else s2)
    ensures s3 == s0.(transcript := "", isSpeaking := false,
                      synthesisCalls := s0.synthesisCalls + (if synth then [UseSpeech.Cancel, UseSpeech.Cancel, UseSpeech.SpeakUtterance(u)] else []))
  {
    if synth {
      assert s0.synthesisCalls + [UseSpeech.Cancel] + [UseSpeech.Cancel, UseSpeech.SpeakUtterance(u)]
          == s0.synthesisCalls + [UseSpeech.Cancel, UseSpeech.Cancel, UseSpeech.SpeakUtterance(u)];
    } else {
      assert s0.synthesisCalls + [] == s0.synthesisCalls;
    }
  }

  // ----------------------------------------------------------- session

  class PracticeSession {
    const topic: string
    var messages: seq<Message>
    var isLoading: bool
    var inputText: string
    var sessionTime: nat
    /** The timer effect runs once, on mount, so its cleanup closure holds
        the `sessionTime` of the first render. */
    const timerClosureTime: nat := 0

    constructor (topicParam: Option<string>)
      ensures topic == TopicOf(topicParam)
      ensures messages == [] && !isLoading && inputText == "" && sessionTime == 0
    {
      topic := TopicOf(topicParam);
      messages, isLoading, inputText, sessionTime := [], false, "", 0;
    }

    /** The greeting effect once its call resolved: the log becomes the one
        AI greeting, which is also spoken. `request` is what was sent. */
    method Greet(reply: GeminiService.ModelReply, now: nat, speech: UseSpeech.SpeechAdapter)
      returns (request: seq<GeminiService.Content>)
      requires speech.Valid()
      modifies this, speech
      ensures speech.Valid()
      ensures request == GeminiService.ChatContents([], OpeningMessage(topic))
      ensures messages == [Message(JsText.Decimal(now), GeminiService.ChatReply(reply), Ai, now)]
      ensures ConversationShape(messages)
      ensures !isLoading && inputText == old(inputText) && sessionTime == old(sessionTime)
      ensures speech.State() == if speech.synthesisAvailable
                                then old(speech.State()).(synthesisCalls := old(speech.synthesisCalls)
                                       + [UseSpeech.Cancel, UseSpeech.SpeakUtterance(UseSpeech.Utterance(GeminiService.ChatReply(reply), speech.language, speech.rate))])
                                else old(speech.State())
    {
      isLoading := true;
      request := GeminiService.ChatContents([], OpeningMessage(topic));
      var greeting := GeminiService.ChatReply(reply);
      messages := [Message(JsText.Decimal(now), greeting, Ai, now)];
      speech.Speak(greeting);
      isLoading := false;
    }

    /** `handleSend`. Input that trims to nothing changes nothing. Otherwise
        speech is cancelled, the trimmed text is appended as a user message,
        input and transcript are cleared, the log as it was before this send
        goes out as history, and the reply is appended as an AI message and
        spoken. */
    method HandleSend(reply: GeminiService.ModelReply, sentAt: nat, repliedAt: nat, speech: UseSpeech.SpeechAdapter)
      returns (sent: bool, request: seq<GeminiService.Content>)
      requires speech.Valid()
      modifies this, speech
      ensures speech.Valid()
      ensures sent == (JsText.Trim(old(inputText)) != "")
      ensures !sent ==> messages == old(messages) && inputText == old(inputText) && isLoading == old(isLoading)
                        && speech.State() == old(speech.State()) && request == []
      ensures sent ==>
                var text := JsText.Trim(old(inputText));
                && messages == old(messages) + [Message(JsText.Decimal(sentAt), text, User, sentAt),
                                                Message(JsText.Decimal(repliedAt + 1), GeminiService.ChatReply(reply), Ai, repliedAt)]
                && request == GeminiService.ChatContents(History(old(messages)), text)
                && inputText == "" && !isLoading
                && speech.State() == old(speech.State()).(transcript := "", isSpeaking := false,
                     synthesisCalls := old(speech.synthesisCalls)
                       + (if speech.synthesisAvailable
                          then [UseSpeech.Cancel, UseSpeech.Cancel,
                                UseSpeech.SpeakUtterance(UseSpeech.Utterance(GeminiService.ChatReply(reply), speech.language, speech.rate))]
                          else []))
      ensures old(ConversationShape(messages)) ==> ConversationShape(messages)
      ensures sessionTime == old(sessionTime)
    {
      var textToSend := JsText.Trim(inputText);
      if textToSend == "" {
        return false, [];
      }
      ghost var s0 := speech.State();
      speech.CancelSpeech();
      var userMsg := Message(JsText.Decimal(sentAt), textToSend, User, sentAt);
      var before := messages;
      messages := messages + [userMsg];
      inputText := "";
      speech.SetTranscript("");
      isLoading := true;
      var history := History(before);
      request := GeminiService.ChatContents(history, textToSend);
      var responseText := GeminiService.ChatReply(reply);
      var aiMsg := Message(JsText.Decimal(repliedAt + 1), responseText, Ai, repliedAt);
      messages := messages + [aiMsg];
      isLoading := false;
      speech.Speak(responseText);
      sent := true;
      ShapeExtend(before, userMsg, aiMsg);
      assert messages == before + [userMsg, aiMsg];
      SpeechAfterSend(s0, speech.State(), speech.synthesisAvailable,
                      UseSpeech.Utterance(responseText, speech.language, speech.rate));
    }

    /** The replay button of an AI message: speaks it again, log untouched. */
    method Replay(k: nat, speech: UseSpeech.SpeechAdapter)
      requires k < |messages| && messages[k].sender == Ai
      requires speech.Valid()
      modifies speech
      ensures speech.Valid()
      ensures speech.State() == if speech.synthesisAvailable
                                then old(speech.State()).(synthesisCalls := old(speech.synthesisCalls)
                                       + [UseSpeech.Cancel, UseSpeech.SpeakUtterance(UseSpeech.Utterance(messages[k].text, speech.language, speech.rate))])
                                else old(speech.State())
    {
      speech.Speak(messages[k].text);
    }

    /** One run of the transcript effect, which React runs only after
        `isListening` or `transcript` changed: once capture is over, a
        non-empty transcript replaces the input text. */
    method OnSpeechUpdate(speech: UseSpeech.SpeechAdapter)
      modifies this
      ensures inputText == if !speech.isListening && speech.transcript != "" then speech.transcript else old(inputText)
      ensures messages == old(messages) && isLoading == old(isLoading) && sessionTime == old(sessionTime)
    {
      if !speech.isListening && speech.transcript != "" {
        inputText := speech.transcript;
      }
    }

    /** The input box. */
    method SetInputText(t: string)
      modifies this
      ensures inputText == t && messages == old(messages) && isLoading == old(isLoading)
      ensures sessionTime == old(sessionTime)
    {
      inputText := t;
    }

    /** The microphone button: stops a running capture, starts one otherwise. */
    method ToggleMic(speech: UseSpeech.SpeechAdapter, startRejected: bool)
      requires speech.Valid()
      modifies speech
      ensures speech.Valid()
      ensures old(speech.isListening) ==>
                speech.State() == if speech.recognitionAvailable
                                  then old(speech.State()).(recognitionCalls := old(speech.recognitionCalls) + [UseSpeech.Stop])
                                  else old(speech.State())
      ensures !old(speech.isListening) && speech.recognitionAvailable ==>
                speech.State() == old(speech.State()).(transcript := "",
                  recognitionCalls := old(speech.recognitionCalls)
                                      + [UseSpeech.Start] + (if startRejected then [UseSpeech.Stop, UseSpeech.StartAfterDelay] else []))
      ensures !old(speech.isListening) && !speech.recognitionAvailable ==>
                speech.State() == old(speech.State()).(alerts := old(speech.alerts) + [UseSpeech.NotSupportedAlert])
    {
      if speech.isListening {
        speech.StopListening();
      } else {
        speech.StartListening(startRejected);
      }
    }

    /** One tick of the one-second interval. */
    method Tick()
      modifies this
      ensures sessionTime == old(sessionTime) + 1
      ensures messages == old(messages) && isLoading == old(isLoading) && inputText == old(inputText)
    {
      sessionTime := sessionTime + 1;
    }

    /** The timer cleanup as written: it adds the captured first-render
        value, so the stored total does not change however long the session ran. */
    method Unmount(store: AppContext.AppStore)
      modifies store
      ensures store.stats == old(store.stats) && store.settings == old(store.settings)
    {
      store.AddPracticeTime(timerClosureTime);
    }

    /** The cleanup its comment intends: the elapsed seconds are added once. */
    method UnmountIntended(store: AppContext.AppStore)
      modifies store
      ensures store.stats == old(store.stats).(totalTimePracticed := old(store.stats.totalTimePracticed) + sessionTime)
      ensures store.settings == old(store.settings)
    {
      store.AddPracticeTime(sessionTime);
    }
  }

  /** Five seconds into a session, leaving it as written stores nothing,
      where the intended cleanup stores the five seconds. */
  method StaleTimerExample(store: AppContext.AppStore) returns (asWritten: nat, intended: nat)
    modifies store
    ensures asWritten == old(store.stats.totalTimePracticed)
    ensures intended == old(store.stats.totalTimePracticed) + 5
  {
    var session := new PracticeSession(None);
    var i := 0;
    while i < 5
      invariant 0 <= i <= 5 && session.sessionTime == i
      invariant store.stats == old(store.stats)
    {
      session.Tick();
      i := i + 1;
    }
    session.Unmount(store);
    asWritten := store.stats.totalTimePracticed;
    session.UnmountIntended(store);
    intended := store.stats.totalTimePracticed;
  }
}
