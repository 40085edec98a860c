/** The topic catalogue of pages/TopicSelection.tsx, its title search and
    the practice link each card opens. */
module TopicSelectionPage {
  import opened Wrappers
  import opened Types
  import JsText
  import PracticePage

  // The descriptions shown on the cards.
  const DailyConversationAbout: string := "Casual chat about life, hobbies, and interests."
  const JobInterviewAbout: string := "Practice answering common interview questions."
  const TravelAbout: string := "Asking for directions, booking hotels, airports."
  const RestaurantAbout: string := "Ordering food, asking for bill, dietary needs."
  const OfficeWorkAbout: string := "Meetings, emails, and professional etiquette."
  const MoviesAbout: string := "Discussing entertainment and pop culture."
  const DebateAbout: string := "Argue a point of view on a specific subject."
  const ShoppingAbout: string := "Buying clothes, bargaining, returning items."

  /** The eight scenarios, in display order. */
  function Topics(): (ts: seq<Topic>)
    ensures |ts| == 8
    ensures forall i :: 0 <= i < |ts| ==> ts[i].id == [JsText.DigitChar(i + 1)] && ts[i].title != ""
  {
    [ Topic("1", "Daily Conversation", DailyConversationAbout, "\U{1F44B}", Beginner, "bg-blue-500"),
      Topic("2", "Job Interview", JobInterviewAbout, "\U{1F4BC}", Advanced, "bg-indigo-500"),
      Topic("3", "Travel & Directions", TravelAbout, "\U{2708}\U{FE0F}", Intermediate, "bg-green-500"),
      Topic("4", "Restaurant", RestaurantAbout, "\U{1F354}", Beginner, "bg-orange-500"),
      Topic("5", "Office Work", OfficeWorkAbout, "\U{1F3E2}", Intermediate, "bg-slate-500"),
      Topic("6", "Movies & TV", MoviesAbout, "\U{1F3AC}", Intermediate, "bg-red-500"),
      Topic("7", "Debate", DebateAbout, "\U{2696}\U{FE0F}", Advanced, "bg-purple-500"),
      Topic("8", "Shopping", ShoppingAbout, "\U{1F6CD}\U{FE0F}", Beginner, "bg-pink-500") ]
  }

  /** The catalogue's ids are pairwise distinct. */
  lemma TopicIdsDistinct()
    ensures forall i, j :: 0 <= i < j < |Topics()| ==> Topics()[i].id != Topics()[j].id
  {
    var ts := Topics();
    forall i, j | 0 <= i < j < |ts| ensures ts[i].id != ts[j].id {
      assert ts[i].id[0] == JsText.DigitChar(i + 1) && ts[j].id[0] == JsText.DigitChar(j + 1);
    }
  }

  /** A topic matches a search term when its title contains the term,
      both lower-cased. */
  predicate Matches(t: Topic, term: string): (m: bool)
    ensures term == "" ==> m
    ensures m ==> |term| <= |t.title|
  {
    JsText.IncludesEmpty(JsText.ToLower(t.title));
    JsText.Includes(JsText.ToLower(t.title), JsText.ToLower(term))
  }

  /** `topics.filter(...)`: the matching topics, and only those. */
  function FilterTopics(ts: seq<Topic>, term: string): (r: seq<Topic>)
    ensures |r| <= |ts|
    ensures forall t :: t in r ==> t in ts && Matches(t, term)
    ensures forall t :: t in ts && Matches(t, term) ==> t in r
  {
    if ts == [] then []
    else
      var rest := FilterTopics(ts[1..], term);
      assert forall t :: t in ts ==> t == ts[0] || t in ts[1..];
      if Matches(ts[0], term) then [ts[0]] + rest else rest
  }

  /** `a` is `b` with some elements left out, the rest in order. */
  predicate IsSubsequence<T(==)>(a: seq<T>, b: seq<T>)
    decreases |b|
  {
    a == [] || (b != [] && ((a[0] == b[0] && IsSubsequence(a[1..], b[1..])) || IsSubsequence(a, b[1..])))
  }

  /** Filtering keeps the catalogue order. */
  lemma {:induction false} FilterKeepsOrder(ts: seq<Topic>, term: string)
    ensures IsSubsequence(FilterTopics(ts, term), ts)
    decreases |ts|
  {
    if ts != [] {
      FilterKeepsOrder(ts[1..], term);
      var rest := FilterTopics(ts[1..], term);
      if Matches(ts[0], term) {
        assert ([ts[0]] + rest)[1..] == rest;
      }
    }
  }

  /** An empty search shows every topic. */
  lemma {:induction false} FilterEmptyTerm(ts: seq<Topic>)
    ensures FilterTopics(ts, "") == ts
    decreases |ts|
  {
    if ts != [] {
      JsText.IncludesEmpty(JsText.ToLower(ts[0].title));
      assert JsText.ToLower("") == "";
      FilterEmptyTerm(ts[1..]);
      assert [ts[0]] + ts[1..] == ts;
    }
  }

  /** The `topic` query parameter a card's link carries. The round trip of
      the title through `encodeURIComponent` and the page's query parsing is
      taken to be the identity; it is not modelled. */
  function CardTopicParam(t: Topic): Option<string> {
    Some(t.title)
  }

  /** The "Random Topic" card. */
  const RandomTopicParam: Option<string> := Some("Random")

  /** Given that parameter, opening a catalogue card starts a session about
      exactly that title, never the default topic: no catalogue title is
      empty. */
  lemma CardOpensItsTopic(i: nat)
    requires i < |Topics()|
    ensures PracticePage.TopicOf(CardTopicParam(Topics()[i])) == Topics()[i].title
    ensures PracticePage.TopicOf(RandomTopicParam) == "Random"
  {
  }
}
