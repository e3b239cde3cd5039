/** The trend source: static niche tables, keyword echoing, de-duplication,
    relevance scoring and hashtag building. */
module Trending {
  import opened Wrappers
  import Text
  import Sorting
  import opened Seqs

  const TechTopics: seq<string> := [
    "AI and Machine Learning", "Web3 and Blockchain", "Cloud Computing", "Cybersecurity",
    "DevOps", "Artificial Intelligence", "Software Development"]
  const BusinessTopics: seq<string> := [
    "Entrepreneurship", "Business Growth", "Leadership", "Marketing Strategy",
    "Sales Techniques", "Business Analytics", "Corporate Culture"]
  const LifestyleTopics: seq<string> := [
    "Wellness", "Fitness Trends", "Mental Health", "Self-improvement",
    "Work-life Balance", "Productivity", "Personal Development"]
  const MarketingTopics: seq<string> := [
    "Digital Marketing", "Social Media Marketing", "Content Marketing", "SEO",
    "Email Marketing", "Influencer Marketing", "Marketing Automation"]
  const GeneralTopics: seq<string> := [
    "Trending Now", "Viral Content", "Current Events", "Popular Culture",
    "Entertainment", "News", "Social Trends"]

  const TechKeywords: seq<string> := ["ai", "code", "software", "development", "tech", "programming", "data"]
  const BusinessKeywords: seq<string> := ["business", "growth", "sales", "marketing", "leadership", "strategy"]
  const LifestyleKeywords: seq<string> := ["health", "wellness", "fitness", "life", "personal", "mindfulness"]
  const MarketingKeywords: seq<string> := ["marketing", "social", "content", "brand", "audience", "engagement"]

  const MaxTopics: nat := 10
  const MaxKeywordTopics: nat := 5

  /** Property names every JavaScript object literal inherits from
      `Object.prototype`: looking one of them up in a table yields a
      function or an object, never a list. */
  const InheritedKeys: seq<string> := [
    "constructor", "__proto__", "hasOwnProperty", "isPrototypeOf", "propertyIsEnumerable",
    "toLocaleString", "toString", "valueOf",
    "__defineGetter__", "__defineSetter__", "__lookupGetter__", "__lookupSetter__"]

  /** The outcome of `table[key]` on an object literal. */
  datatype Lookup = Found(entries: seq<string>) | Missing | Inherited

  function TopicTable(key: string): Lookup {
    if key == "tech" then Found(TechTopics)
    else if key == "business" then Found(BusinessTopics)
    else if key == "lifestyle" then Found(LifestyleTopics)
    else if key == "marketing" then Found(MarketingTopics)
    else if key == "general" then Found(GeneralTopics)
    else if key in InheritedKeys then Inherited
    else Missing
  }

  function KeywordTable(key: string): Lookup {
    if key == "tech" then Found(TechKeywords)
    else if key == "business" then Found(BusinessKeywords)
    else if key == "lifestyle" then Found(LifestyleKeywords)
    else if key == "marketing" then Found(MarketingKeywords)
    else if key in InheritedKeys then Inherited
    else Missing
  }

  /** Every topic table holds seven distinct entries. */
  lemma TablesDistinct()
    ensures |TechTopics| == |BusinessTopics| == |LifestyleTopics| == |MarketingTopics| == |GeneralTopics| == 7
    ensures Distinct(TechTopics) && Distinct(BusinessTopics) && Distinct(LifestyleTopics)
    ensures Distinct(MarketingTopics) && Distinct(GeneralTopics)
  {
  }

  /** `_getNicheBasedTopics`: the table of the lower-cased niche, the
      general table for an unknown niche; `None` when the key is an
      inherited property, whose value cannot be spread into a list. */
  function NicheTopics(niche: string): (r: Option<seq<string>>)
    ensures r.None? <==> TopicTable(Text.ToLower(niche)).Inherited?
    ensures TopicTable(Text.ToLower(niche)).Missing? ==> r == Some(GeneralTopics)
  {
    match TopicTable(Text.ToLower(niche))
    case Found(t) => Some(t)
    case Missing => Some(GeneralTopics)
    case Inherited => None
  }

  /** A niche found in the tables gets exactly its own table. */
  lemma NicheTopicsFound(niche: string)
    ensures TopicTable(Text.ToLower(niche)).Found? ==>
      NicheTopics(niche) == Some(TopicTable(Text.ToLower(niche)).entries)
  {
  }

  /** The lookup ignores case: a niche and its lower-cased form have the
      same topics. */
  lemma NicheTopicsIgnoresCase(niche: string)
    ensures NicheTopics(niche) == NicheTopics(Text.ToLower(niche))
  {
    Text.ToLowerIdempotent(niche);
  }

  /** "Tech" and "TECH" both find the tech table. */
  lemma TechInAnyCase()
    ensures NicheTopics("Tech") == Some(TechTopics)
    ensures NicheTopics("TECH") == Some(TechTopics)
  {
    assert Text.ToLower("Tech") == "tech";
    assert Text.ToLower("TECH") == "tech";
  }

  /** A niche's topics are seven distinct entries. */
  lemma NicheTopicsShape(niche: string)
    ensures NicheTopics(niche).Some? ==> |NicheTopics(niche).value| == 7 && Distinct(NicheTopics(niche).value)
  {
    TablesDistinct();
  }

  /** A niche has no topics exactly when, lower-cased, it names an
      inherited property. */
  lemma NoTopicsIffInherited(niche: string)
    ensures NicheTopics(niche).None? <==> Text.ToLower(niche) in InheritedKeys
  {
    var key := Text.ToLower(niche);
    if key in InheritedKeys {
      assert key != "tech" && key != "business" && key != "lifestyle" && key != "marketing" && key != "general";
    }
  }

  function Suffixed(keywords: seq<string>): (r: seq<string>)
    ensures |r| == |keywords|
    ensures forall i :: 0 <= i < |r| ==> r[i] == keywords[i] + " trends"
  {
    if keywords == [] then [] else [keywords[0] + " trends"] + Suffixed(keywords[1..])
  }

  /** `_getKeywordBasedTopics`: the first five keywords, each suffixed,
      in order; none for an empty list. */
  function KeywordTopics(keywords: seq<string>): (r: seq<string>)
    ensures |r| == if |keywords| < MaxKeywordTopics then |keywords| else MaxKeywordTopics
    ensures forall i :: 0 <= i < |r| ==> r[i] == keywords[i] + " trends"
  {
    if keywords == [] then []
    else Suffixed(keywords[..if |keywords| < MaxKeywordTopics then |keywords| else MaxKeywordTopics])
  }

  /** `[...new Set(s)]`: the first occurrence of each element, in order. */
  function Dedup<T(==,!new)>(s: seq<T>): (r: seq<T>)
    ensures Distinct(r)
    ensures forall x :: x in r <==> x in s
    ensures |r| <= |s|
  {
    if s == [] then []
    else
      var d := Dedup(s[..|s| - 1]);
      if s[|s| - 1] in d then d else d + [s[|s| - 1]]
  }

  /** De-duplicating a list without repeats changes nothing. */
  lemma {:induction false} DedupOfDistinct<T(!new)>(s: seq<T>)
    requires Distinct(s)
    ensures Dedup(s) == s
  {
    if s != [] {
      var init := s[..|s| - 1];
      assert Distinct(init);
      DedupOfDistinct(init);
      assert s[|s| - 1] !in init;
      assert init + [s[|s| - 1]] == s;
    }
  }

  /** De-duplication keeps first occurrences: what `a` contributes to
      `Dedup(a + b)` is exactly `Dedup(a)`, at the front. */
  lemma {:induction false} DedupPrefix<T(!new)>(a: seq<T>, b: seq<T>)
    ensures |Dedup(a)| <= |Dedup(a + b)| && Dedup(a + b)[..|Dedup(a)|] == Dedup(a)
  {
    if b != [] {
      var b' := b[..|b| - 1];
      assert (a + b)[..|a + b| - 1] == a + b';
      DedupPrefix(a, b');
    } else {
      assert a + b == a;
    }
  }

  /** The topics `getTrendingTopics` chooses from: the niche table, then
      the keyword topics. */
  function Candidates(nicheTopics: seq<string>, keywords: seq<string>): seq<string> {
    nicheTopics + KeywordTopics(keywords)
  }

  /** What `getTrendingTopics(niche = 'general', keywords = [])` returns. A null niche
      makes `toLowerCase` throw, and an inherited table entry makes the
      spread throw; both are caught and yield no topics. Otherwise the
      niche topics then the keyword topics, de-duplicated, at most ten. */
  function TrendingTopics(niche: Arg<string>, keywords: seq<string>): (r: seq<string>)
    ensures Distinct(r)
    ensures |r| <= MaxTopics
    ensures niche.Null? ==> r == []
  {
    match niche.Defaulted("general")
    case None => []
    case Some(n) =>
      match NicheTopics(n)
      case None => []
      case Some(t) =>
        var unique := Dedup(Candidates(t, keywords));
        if |unique| <= MaxTopics then unique else unique[..MaxTopics]
  }

  /** `getTrendingTopics`: the niche topics and then the keyword topics are
      pushed onto a fresh list, which is de-duplicated and cut to ten. */
  method GetTrendingTopics(niche: Arg<string>, keywords: seq<string>) returns (r: seq<string>)
    ensures r == TrendingTopics(niche, keywords)
  {
    match niche.Defaulted("general") {
      case None =>
        r := [];
      case Some(n) =>
        match NicheTopics(n) {
          case None =>
            r := [];
          case Some(nicheTopics) =>
            var topics: seq<string> := [];
            var keywordTopics := KeywordTopics(keywords);
            topics := topics + nicheTopics;
            topics := topics + keywordTopics;
            assert topics == Candidates(nicheTopics, keywords);
            var unique := Dedup(topics);
            r := if |unique| <= MaxTopics then unique else unique[..MaxTopics];
            TrendingTopicsOfTable(niche, keywords, n, nicheTopics);
        }
    }
  }

  /** The topics of a niche whose table was found: its de-duplicated
      candidates, cut to ten. */
  lemma TrendingTopicsOfTable(niche: Arg<string>, keywords: seq<string>, n: string, t: seq<string>)
    requires niche.Defaulted("general") == Some(n) && NicheTopics(n) == Some(t)
    ensures var unique := Dedup(Candidates(t, keywords));
      TrendingTopics(niche, keywords) == if |unique| <= MaxTopics then unique else unique[..MaxTopics]
  {
  }

  /** Every topic returned is a candidate, and when the distinct
      candidates fit in ten, every candidate is returned. */
  lemma TrendingTopicsMembers(niche: Arg<string>, keywords: seq<string>)
    requires niche.Defaulted("general").Some? && NicheTopics(niche.Defaulted("general").value).Some?
    ensures var candidates := Candidates(NicheTopics(niche.Defaulted("general").value).value, keywords);
      var r := TrendingTopics(niche, keywords);
      && (forall t :: t in r ==> t in candidates)
      && (|Dedup(candidates)| <= MaxTopics ==> forall t :: t in candidates ==> t in r)
  {
    var n := niche.Defaulted("general").value;
    var candidates := Candidates(NicheTopics(n).value, keywords);
    var unique := Dedup(candidates);
    TrendingTopicsOfTable(niche, keywords, n, NicheTopics(n).value);
    if |unique| > MaxTopics {
      assert forall t :: t in unique[..MaxTopics] ==> t in unique;
    }
  }

  /** For a non-null niche whose table is a list, the result begins with
      that niche's full table (or the general one), and a known niche
      with N keywords yields at most 7 + N topics. */
  lemma NicheTableFirst(niche: string, keywords: seq<string>)
    requires NicheTopics(niche).Some?
    ensures |TrendingTopics(Given(niche), keywords)| >= 7
    ensures TrendingTopics(Given(niche), keywords)[..7] == NicheTopics(niche).value
    ensures |TrendingTopics(Given(niche), keywords)| <= 7 + |KeywordTopics(keywords)|
  {
    NicheTopicsShape(niche);
    var t := NicheTopics(niche).value;
    var k := KeywordTopics(keywords);
    DedupOfDistinct(t);
    DedupPrefix(t, k);
    var unique := Dedup(t + k);
    assert |unique| <= |t + k|;
    assert unique[..7] == t;
    if |unique| > MaxTopics {
      assert unique[..MaxTopics][..7] == unique[..7];
    }
  }

  /** An unknown niche behaves exactly as the niche "general". */
  lemma UnknownNicheIsGeneral(niche: string, keywords: seq<string>)
    requires TopicTable(Text.ToLower(niche)).Missing?
    ensures TrendingTopics(Given(niche), keywords) == TrendingTopics(Given("general"), keywords)
  {
    GeneralTopicsOfGeneral();
  }

  lemma GeneralTopicsOfGeneral()
    ensures NicheTopics("general") == Some(GeneralTopics)
  {
    assert Text.ToLower("general") == "general";
  }

  // ---------------------------------------------------------- relevance

  /** `_getNicheKeywords`: `keywordsMap[niche.toLowerCase()] || []`;
      `None` when the entry is an inherited property, which has no
      `forEach`. */
  function NicheKeywords(niche: string): Option<seq<string>> {
    match KeywordTable(Text.ToLower(niche))
    case Found(k) => Some(k)
    case Missing => Some([])
    case Inherited => None
  }

  /** How many of `keywords` occur in `topicLower`, each lower-cased. */
  function Matches(topicLower: string, keywords: seq<string>): (k: nat)
    ensures k <= |keywords|
  {
    if keywords == [] then 0
    else
      Matches(topicLower, keywords[..|keywords| - 1])
      + (if Text.Contains(topicLower, Text.ToLower(keywords[|keywords| - 1])) then 1 else 0)
  }

  /** Relevance in tenths: 3 plus 5 per matching keyword, capped at 10. */
  function ScoreOf(topic: string, keywords: seq<string>): (s: nat)
    ensures 3 <= s <= 10
    ensures s == 3 <==> Matches(Text.ToLower(topic), keywords) == 0
  {
    var k := Matches(Text.ToLower(topic), keywords);
    if 3 + 5 * k < 10 then 3 + 5 * k else 10
  }

  /** `_calculateRelevanceScore`, in tenths: the running `score` of the
      source's keyword loop. `None` when the keyword lookup throws. */
  method CalculateRelevanceScore(topic: string, niche: string) returns (r: Option<nat>)
    ensures r.None? <==> NicheKeywords(niche).None?
    ensures r.Some? ==> r.value == ScoreOf(topic, NicheKeywords(niche).value)
    ensures r.Some? ==> 3 <= r.value <= 10
    ensures NicheKeywords(niche) == Some([]) ==> r == Some(3)
  {
    var keywords := NicheKeywords(niche);
    if keywords.None? {
      return None;
    }
    var nicheKeywords := keywords.value;
    var topicLower := Text.ToLower(topic);
    var score := 0;
    var i := 0;
    while i < |nicheKeywords|
      invariant 0 <= i <= |nicheKeywords|
      invariant score == 5 * Matches(topicLower, nicheKeywords[..i])
    {
      assert nicheKeywords[..i + 1][..i] == nicheKeywords[..i];
      if Text.Contains(topicLower, Text.ToLower(nicheKeywords[i])) {
        score := score + 5;
      }
      i := i + 1;
    }
    assert nicheKeywords[..i] == nicheKeywords;
    score := score + 3;
    return Some(if score < 10 then score else 10);
  }

  /** The score for an unknown niche is the base score. */
  lemma UnknownNicheBaseScore(topic: string, niche: string)
    requires KeywordTable(Text.ToLower(niche)).Missing?
    ensures NicheKeywords(niche) == Some([]) && ScoreOf(topic, []) == 3
  {
  }

  datatype ScoredTopic = ScoredTopic(topic: string, relevanceScore: nat)

  function Score(s: ScoredTopic): int { s.relevanceScore }

  function ScoreAll(topics: seq<string>, keywords: seq<string>): (r: seq<ScoredTopic>)
    ensures |r| == |topics|
    ensures forall i :: 0 <= i < |r| ==> r[i] == ScoredTopic(topics[i], ScoreOf(topics[i], keywords))
  {
    if topics == [] then [] else [ScoredTopic(topics[0], ScoreOf(topics[0], keywords))] + ScoreAll(topics[1..], keywords)
  }

  /** `analyzeRelevance`: each topic with its score, stably sorted by
      non-increasing score. A null niche or an inherited keyword entry
      makes the scoring throw; the error is caught and the result is empty. */
  function AnalyzeRelevance(topics: seq<string>, niche: Option<string>): (r: seq<ScoredTopic>)
    ensures niche.None? || NicheKeywords(niche.value).None? ==> r == []
    ensures niche.Some? && NicheKeywords(niche.value).Some? ==>
      && |r| == |topics|
      && multiset(r) == multiset(ScoreAll(topics, NicheKeywords(niche.value).value))
    ensures Sorting.NonIncreasing(r, Score)
  {
    if niche.None? || NicheKeywords(niche.value).None? then []
    else
      var scored := ScoreAll(topics, NicheKeywords(niche.value).value);
      Sorting.SortDescOrdered(scored, Score);
      var r := Sorting.SortDesc(scored, Score);
      assert |multiset(r)| == |multiset(scored)|;
      r
  }

  /** For a usable niche the result is a permutation of the scored input,
      ordered by non-increasing score, with equal scores in input order. */
  lemma AnalyzeRelevanceSorted(topics: seq<string>, niche: string)
    requires NicheKeywords(niche).Some?
    ensures var r := AnalyzeRelevance(topics, Some(niche));
      var scored := ScoreAll(topics, NicheKeywords(niche).value);
      && multiset(r) == multiset(scored)
      && |r| == |topics|
      && Sorting.NonIncreasing(r, Score)
      && forall v :: Sorting.WithKey(r, Score, v) == Sorting.WithKey(scored, Score, v)
  {
    var scored := ScoreAll(topics, NicheKeywords(niche).value);
    var r := AnalyzeRelevance(topics, Some(niche));
    Sorting.SortDescOrdered(scored, Score);
    forall v ensures Sorting.WithKey(r, Score, v) == Sorting.WithKey(scored, Score, v) {
      Sorting.SortDescStable(scored, Score, v);
    }
    assert |multiset(r)| == |multiset(scored)|;
  }

  // ----------------------------------------------------------- hashtags

  /** `tags.filter((tag) => tag.length > 2)`, where `length` counts UTF-16
      code units. */
  function LongerThanTwo(tags: seq<string>): seq<string> {
    if tags == [] then []
    else (if Text.Utf16Length(tags[0]) > 2 then [tags[0]] else []) + LongerThanTwo(tags[1..])
  }

  /** `getTrendingHashtags`: the topic with whitespace removed, its first
      space-separated word, "#trending" and "#viral", each prefixed with
      "#" and kept only when longer than two UTF-16 code units. So the two
      fixed tags are always present and last, the two derived tags are
      present exactly when what follows their "#" is two or more code
      units long, and every tag starts with "#". */
  function GetTrendingHashtags(topic: string): (r: seq<string>)
    ensures var whole := Text.RemoveSpaces(topic);
      var first := Text.FirstWord(topic);
      && r == (if Text.Utf16Length(whole) > 1 then ["#" + whole] else [])
            + (if Text.Utf16Length(first) > 1 then ["#" + first] else [])
            + ["#trending", "#viral"]
      && |r| <= 4
      && forall t :: t in r ==> IsTag(t)
  {
    var whole, first := Text.RemoveSpaces(topic), Text.FirstWord(topic);
    var a, b := "#" + whole, "#" + first;
    var c, d := "#trending", "#viral";
    FixedTagsAreTags();
    HashLength(whole);
    HashLength(first);
    FilterFour(a, b, c, d);
    TagsHashed(whole, first);
    LongerThanTwo([a, b, c, d])
  }

  /** A hashtag as the filter leaves it: "#" and more than two code units. */
  predicate IsTag(t: string) {
    |t| > 0 && t[0] == '#' && Text.Utf16Length(t) > 2
  }

  /** The filter on four tags, the last two of which are long enough. */
  lemma FilterFour(a: string, b: string, c: string, d: string)
    requires Text.Utf16Length(c) > 2 && Text.Utf16Length(d) > 2
    ensures LongerThanTwo([a, b, c, d])
      == (if Text.Utf16Length(a) > 2 then [a] else []) + (if Text.Utf16Length(b) > 2 then [b] else []) + [c, d]
  {
    assert [a, b, c, d] == [a] + [b, c, d];
    LongerThanTwoCons(a, [b, c, d]);
    assert [b, c, d] == [b] + [c, d];
    LongerThanTwoCons(b, [c, d]);
    assert [c, d] == [c] + [d];
    LongerThanTwoCons(c, [d]);
    assert [d] == [d] + [];
    LongerThanTwoCons(d, []);
  }

  /** Whatever the filter keeps of strings starting with "#" is a tag. */
  lemma {:induction false} HashedKept(tags: seq<string>)
    requires forall i :: 0 <= i < |tags| ==> |tags[i]| > 0 && tags[i][0] == '#'
    ensures forall t :: t in LongerThanTwo(tags) ==> IsTag(t)
  {
    if tags != [] {
      assert tags == [tags[0]] + tags[1..];
      LongerThanTwoCons(tags[0], tags[1..]);
      HashedKept(tags[1..]);
    }
  }

  /** Every tag `getTrendingHashtags` keeps starts with "#". */
  lemma TagsHashed(whole: string, first: string)
    ensures forall t :: t in LongerThanTwo(["#" + whole, "#" + first, "#trending", "#viral"]) ==> IsTag(t)
  {
    HashedKept(["#" + whole, "#" + first, "#trending", "#viral"]);
  }

  /** The two fixed tags pass the filter. */
  lemma FixedTagsAreTags()
    ensures IsTag("#trending") && IsTag("#viral")
  {
  }

  lemma LongerThanTwoCons(a: string, rest: seq<string>)
    ensures LongerThanTwo([a] + rest) == (if Text.Utf16Length(a) > 2 then [a] else []) + LongerThanTwo(rest)
  {
    assert ([a] + rest)[1..] == rest;
  }

  lemma HashLength(s: string)
    ensures Text.Utf16Length("#" + s) == 1 + Text.Utf16Length(s)
  {
    Text.Utf16LengthAppend("#", s);
    assert "#"[1..] == [];
  }

  /** A tag of one emoji outside the Basic Multilingual Plane is three code
      units long and survives the filter, though it is two characters. */
  lemma EmojiTagKept()
    ensures |"#\U{1F680}"| == 2
    ensures LongerThanTwo(["#\U{1F680}"]) == ["#\U{1F680}"]
  {
    HashLength("\U{1F680}");
    assert "\U{1F680}"[1..] == [];
    LongerThanTwoSingle("#\U{1F680}");
  }

  lemma LongerThanTwoSingle(a: string)
    ensures LongerThanTwo([a]) == if Text.Utf16Length(a) > 2 then [a] else []
  {
    assert [a][1..] == [];
  }

  lemma {:induction false} LongerThanTwoAppend(a: seq<string>, b: seq<string>)
    ensures LongerThanTwo(a + b) == LongerThanTwo(a) + LongerThanTwo(b)
  {
    if a != [] {
      assert (a + b)[1..] == a[1..] + b;
      LongerThanTwoAppend(a[1..], b);
    } else {
      assert a + b == b;
    }
  }
}
