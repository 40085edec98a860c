/** The records of types.ts. Numbers that are whole in every use of the core
    (seconds, counts, scores) are `int`/`nat`; the voice speed is `real`. */
module Types {
  import opened Wrappers

  /** Who wrote a message (the `Sender` enum). */
  datatype Sender = User | Ai | System

  /** One entry of a conversation log. */
  datatype Message = Message(id: string, text: string, sender: Sender, timestamp: int)

  datatype Difficulty = Beginner | Intermediate | Advanced

  /** A conversation topic of the catalogue. */
  datatype Topic = Topic(
    id: string,
    title: string,
    description: string,
    icon: string,
    difficulty: Difficulty,
    color: string)

  /** The `type` field of a daily challenge (`type` is a Dafny keyword,
      so the field is called `kind`). */
  datatype ChallengeKind = Speak | Translate | Pronounce | Explain | Quiz

  datatype DailyChallenge = DailyChallenge(
    id: string,
    kind: ChallengeKind,
    question: string,
    targetAnswer: Option<string>,
    completed: bool)

  /** The structured answer of the pronunciation/grammar analysis. */
  datatype PronunciationResult = PronunciationResult(
    score: int,
    fluencyScore: int,
    pronunciationScore: int,
    mistakes: seq<string>,
    correctedVersion: string,
    feedback: string)

  /** One point `{date, score}` of the fluency history. */
  datatype FluencyPoint = FluencyPoint(date: string, score: int)

  datatype UserStats = UserStats(
    totalTimePracticed: nat,
    topicsCompleted: nat,
    currentStreak: nat,
    fluencyHistory: seq<FluencyPoint>,
    lastPracticeDate: string)

  datatype Settings = Settings(darkMode: bool, voiceSpeed: real, voiceAccent: string)
}
