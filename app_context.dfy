/** The application-wide stats/settings store of context/AppContext.tsx:
    a provider object whose `stats` and `settings` every operation replaces.
    The clock is the `now`/`today` parameter, the saved JSON documents arrive
    already read, and parsing them is the `parse` oracle. */
module AppContext {
  import opened Wrappers
  import opened Types

  /** Only the 30 most recent fluency points are kept. */
  const MaxHistory: nat := 30

  /** The stats a first visit starts from; `now` is the ISO time of loading. */
  function DefaultStats(now: string): (s: UserStats)
    ensures s.totalTimePracticed == 0 && s.topicsCompleted == 0 && s.currentStreak == 1
    ensures s.fluencyHistory == [] && s.lastPracticeDate == now
  {
    UserStats(0, 0, 1, [], now)
  }

  /** The settings a first visit starts from. */
  function DefaultSettings(): (s: Settings)
    ensures !s.darkMode && s.voiceSpeed == 1.0 && s.voiceAccent == "en-US"
  {
    Settings(false, 1.0, "en-US")
  }

  /** `saved ? JSON.parse(saved) : default`: a stored document that is
      present and non-empty is parsed, anything else gives the default. */
  function LoadStats(saved: Option<string>, parse: string -> UserStats, now: string): (s: UserStats)
    ensures saved.Some? && saved.value != "" ==> s == parse(saved.value)
    ensures saved.None? || saved.value == "" ==> s == DefaultStats(now)
  {
    if saved.Some? && saved.value != "" then parse(saved.value) else DefaultStats(now)
  }

  function LoadSettings(saved: Option<string>, parse: string -> Settings): (s: Settings)
    ensures saved.Some? && saved.value != "" ==> s == parse(saved.value)
    ensures saved.None? || saved.value == "" ==> s == DefaultSettings()
  {
    if saved.Some? && saved.value != "" then parse(saved.value) else DefaultSettings()
  }

  // ------------------------------------------------------ partial records

  /** A `Partial<UserStats>`: None marks a field the caller did not supply. */
  datatype StatsPatch = StatsPatch(
    totalTimePracticed: Option<nat>,
    topicsCompleted: Option<nat>,
    currentStreak: Option<nat>,
    fluencyHistory: Option<seq<FluencyPoint>>,
    lastPracticeDate: Option<string>)

  /** A `Partial<Settings>`. */
  datatype SettingsPatch = SettingsPatch(
    darkMode: Option<bool>,
    voiceSpeed: Option<real>,
    voiceAccent: Option<string>)

  const NoStatsChange: StatsPatch := StatsPatch(None, None, None, None, None)

  /** `{ ...prev, ...patch }` for stats: every supplied field is taken from
      the patch, every other field from `prev`. */
  function MergeStats(prev: UserStats, patch: StatsPatch): (s: UserStats)
    ensures s.totalTimePracticed == patch.totalTimePracticed.GetOr(prev.totalTimePracticed)
    ensures s.topicsCompleted == patch.topicsCompleted.GetOr(prev.topicsCompleted)
    ensures s.currentStreak == patch.currentStreak.GetOr(prev.currentStreak)
    ensures s.fluencyHistory == patch.fluencyHistory.GetOr(prev.fluencyHistory)
    ensures s.lastPracticeDate == patch.lastPracticeDate.GetOr(prev.lastPracticeDate)
  {
    UserStats(
      patch.totalTimePracticed.GetOr(prev.totalTimePracticed),
      patch.topicsCompleted.GetOr(prev.topicsCompleted),
      patch.currentStreak.GetOr(prev.currentStreak),
      patch.fluencyHistory.GetOr(prev.fluencyHistory),
      patch.lastPracticeDate.GetOr(prev.lastPracticeDate))
  }

  /** `{ ...prev, ...patch }` for settings. */
  function MergeSettings(prev: Settings, patch: SettingsPatch): (s: Settings)
    ensures s.darkMode == patch.darkMode.GetOr(prev.darkMode)
    ensures s.voiceSpeed == patch.voiceSpeed.GetOr(prev.voiceSpeed)
    ensures s.voiceAccent == patch.voiceAccent.GetOr(prev.voiceAccent)
  {
    Settings(
      patch.darkMode.GetOr(prev.darkMode),
      patch.voiceSpeed.GetOr(prev.voiceSpeed),
      patch.voiceAccent.GetOr(prev.voiceAccent))
  }

  /** Two patches applied one after the other: the later one wins field by field. */
  function ThenStats(p: StatsPatch, q: StatsPatch): StatsPatch {
    StatsPatch(
      if q.totalTimePracticed.Some? then q.totalTimePracticed else p.totalTimePracticed,
      if q.topicsCompleted.Some? then q.topicsCompleted else p.topicsCompleted,
      if q.currentStreak.Some? then q.currentStreak else p.currentStreak,
      if q.fluencyHistory.Some? then q.fluencyHistory else p.fluencyHistory,
      if q.lastPracticeDate.Some? then q.lastPracticeDate else p.lastPracticeDate)
  }

  /** Merging is a last-write-wins overlay: an empty patch changes nothing,
      a patch applied twice acts once, and two merges are one merge of the
      combined patch. */
  lemma MergeStatsOverlay(s: UserStats, p: StatsPatch, q: StatsPatch)
    ensures MergeStats(s, NoStatsChange) == s
    ensures MergeStats(MergeStats(s, p), p) == MergeStats(s, p)
    ensures MergeStats(MergeStats(s, p), q) == MergeStats(s, ThenStats(p, q))
  {
  }

  // ------------------------------------------------------ fluency history

  /** The history after `saveConversationScore`: the new point is appended
      and, when that makes the list longer than 30, the oldest is shifted off. */
  function RecordScore(history: seq<FluencyPoint>, point: FluencyPoint): (h: seq<FluencyPoint>)
    ensures |h| == if |history| < MaxHistory then |history| + 1 else |history|
    ensures h[|h| - 1] == point
  {
    var appended := history + [point];
    if |appended| > MaxHistory then appended[1..] else appended
  }

  /** What `RecordScore` promises about one call. */
  lemma RecordScoreSpec(history: seq<FluencyPoint>, point: FluencyPoint)
    ensures RecordScore(history, point)[|RecordScore(history, point)| - 1] == point
    ensures |history| < MaxHistory ==> RecordScore(history, point) == history + [point]
    ensures |history| >= MaxHistory ==> RecordScore(history, point) == history[1..] + [point]
    ensures |history| <= MaxHistory ==> |RecordScore(history, point)| <= MaxHistory
  {
    if |history| >= MaxHistory {
      assert (history + [point])[1..] == history[1..] + [point];
    }
  }

  /** The last `n` elements of `s` (all of them when there are fewer). */
  function LastN<T>(s: seq<T>, n: nat): (r: seq<T>)
    ensures |r| == if |s| <= n then |s| else n
  {
    if |s| <= n then s else s[|s| - n..]
  }

  /** Recording several points one after the other. */
  function RecordAll(history: seq<FluencyPoint>, points: seq<FluencyPoint>): seq<FluencyPoint>
    decreases |points|
  {
    if points == [] then history else RecordAll(RecordScore(history, points[0]), points[1..])
  }

  /** Starting from at most 30 points, the history is always the 30 most
      recent points of everything recorded: a sliding window, oldest evicted first. */
  lemma {:induction false} RecordAllWindow(history: seq<FluencyPoint>, points: seq<FluencyPoint>)
    requires |history| <= MaxHistory
    ensures RecordAll(history, points) == LastN(history + points, MaxHistory)
    decreases |points|
  {
    if points != [] {
      var next := RecordScore(history, points[0]);
      WindowStep(history, points[0], points[1..]);
      RecordAllWindow(next, points[1..]);
      assert history + [points[0]] + points[1..] == history + points;
    } else {
      assert history + points == history;
    }
  }

  /** One recorded point: the window after it, followed by what comes
      next, has the same last 30 points as the unbounded list. */
  lemma WindowStep(history: seq<FluencyPoint>, point: FluencyPoint, rest: seq<FluencyPoint>)
    requires |history| <= MaxHistory
    ensures |RecordScore(history, point)| <= MaxHistory
    ensures LastN(RecordScore(history, point) + rest, MaxHistory) == LastN(history + [point] + rest, MaxHistory)
  {
    RecordScoreSpec(history, point);
    if |history| == MaxHistory {
      var all := history + [point] + rest;
      assert RecordScore(history, point) + rest == all[1..];
    }
  }

  // ---------------------------------------------------------- the store

  /** The provider's state: the current stats and settings. Persisting them
      to local storage after every change is I/O and not part of this model. */
  class AppStore {
    var stats: UserStats
    var settings: Settings

    /** Lazy initial state: the saved documents, or the defaults. */
    constructor (savedStats: Option<string>, parseStats: string -> UserStats,
                 savedSettings: Option<string>, parseSettings: string -> Settings, now: string)
      ensures stats == LoadStats(savedStats, parseStats, now)
      ensures settings == LoadSettings(savedSettings, parseSettings)
    {
      stats := LoadStats(savedStats, parseStats, now);
      settings := LoadSettings(savedSettings, parseSettings);
    }

    method UpdateStats(patch: StatsPatch)
      modifies this
      ensures stats == MergeStats(old(stats), patch)
      ensures settings == old(settings)
    {
      stats := MergeStats(stats, patch);
    }

    method UpdateSettings(patch: SettingsPatch)
      modifies this
      ensures settings == MergeSettings(old(settings), patch)
      ensures stats == old(stats)
    {
      settings := MergeSettings(settings, patch);
    }

    /** Adds `seconds` to the total practice time and changes nothing else. */
    method AddPracticeTime(seconds: nat)
      modifies this
      ensures stats == old(stats).(totalTimePracticed := old(stats.totalTimePracticed) + seconds)
      ensures settings == old(settings)
    {
      stats := stats.(totalTimePracticed := stats.totalTimePracticed + seconds);
    }

    /** Copies the history, pushes `{today, score}`, shifts once if the copy
      outgrew 30, and stores it; no other field changes. */
    method SaveConversationScore(score: int, today: string)
      modifies this
      ensures stats == old(stats).(fluencyHistory := RecordScore(old(stats.fluencyHistory), FluencyPoint(today, score)))
      ensures settings == old(settings)
      ensures |old(stats.fluencyHistory)| <= MaxHistory ==> |stats.fluencyHistory| <= MaxHistory
      ensures stats.fluencyHistory[|stats.fluencyHistory| - 1] == FluencyPoint(today, score)
    {
      var newHistory := stats.fluencyHistory + [FluencyPoint(today, score)];
      if |newHistory| > MaxHistory {
        newHistory := newHistory[1..];
      }
      RecordScoreSpec(stats.fluencyHistory, FluencyPoint(today, score));
      stats := stats.(fluencyHistory := newHistory);
    }
  }
}
