/** The caption generator: prompt assembly, engagement averages, the call
    to the completion service (a parameter of the model) and the defaults
    applied to its parsed answer. */
module Captions {
  import opened Wrappers
  import Text
  import Models

  // ---------------------------------------------------- engagement average

  datatype AverageEngagement = AverageEngagement(avgLikes: int, avgComments: int, avgShares: int)

  /** `post.likes || 0`: an absent count reads as 0. */
  function CountOf(c: Option<int>): int {
    c.GetOr(0)
  }

  function Likes(p: Models.PastPost): int { CountOf(p.likes) }
  function Comments(p: Models.PastPost): int { CountOf(p.comments) }
  function Shares(p: Models.PastPost): int { CountOf(p.shares) }

  /** The `reduce` over the history: the running sum of one count. */
  function Total(posts: seq<Models.PastPost>, count: Models.PastPost -> int): int {
    if posts == [] then 0 else Total(posts[..|posts| - 1], count) + count(posts[|posts| - 1])
  }

  /** `Math.round(sum / n)`: the nearest integer, halves rounded up. */
  function RoundedMean(sum: int, n: nat): (r: int)
    requires n > 0
    ensures 2 * n * r <= 2 * sum + n < 2 * n * (r + 1)
  {
    var q := (2 * sum + n) / (2 * n);
    assert 2 * sum + n == q * (2 * n) + (2 * sum + n) % (2 * n);
    q
  }

  /** `_calculateAverageEngagement`: null for an empty history, otherwise
      each count's rounded mean. */
  function CalculateAverageEngagement(posts: seq<Models.PastPost>): (r: Option<AverageEngagement>)
    ensures r.None? <==> posts == []
    ensures r.Some? ==>
      && r.value.avgLikes == RoundedMean(Total(posts, Likes), |posts|)
      && r.value.avgComments == RoundedMean(Total(posts, Comments), |posts|)
      && r.value.avgShares == RoundedMean(Total(posts, Shares), |posts|)
  {
    if posts == [] then None
    else Some(AverageEngagement(
      RoundedMean(Total(posts, Likes), |posts|),
      RoundedMean(Total(posts, Comments), |posts|),
      RoundedMean(Total(posts, Shares), |posts|)))
  }

  lemma {:induction false} TotalOfConstant(posts: seq<Models.PastPost>, count: Models.PastPost -> int, c: int)
    requires forall i :: 0 <= i < |posts| ==> count(posts[i]) == c
    ensures Total(posts, count) == |posts| * c
  {
    if posts != [] {
      TotalOfConstant(posts[..|posts| - 1], count, c);
    }
  }

  lemma MeanOfConstant(n: nat, c: int)
    requires n > 0
    ensures RoundedMean(n * c, n) == c
  {
    var r := RoundedMean(n * c, n);
    var k := r - c;
    assert 2 * n * r == 2 * n * c + 2 * n * k;
    assert 2 * n * k <= n < 2 * n * k + 2 * n;
  }

  /** A history whose posts all have the same counts averages to those
      counts; in particular one past post averages to its own counts. */
  lemma AverageOfUniformHistory(posts: seq<Models.PastPost>, p: Models.PastPost)
    requires posts != []
    requires forall i :: 0 <= i < |posts| ==> Likes(posts[i]) == Likes(p) && Comments(posts[i]) == Comments(p) && Shares(posts[i]) == Shares(p)
    ensures CalculateAverageEngagement(posts) == Some(AverageEngagement(Likes(p), Comments(p), Shares(p)))
  {
    TotalOfConstant(posts, Likes, Likes(p));
    TotalOfConstant(posts, Comments, Comments(p));
    TotalOfConstant(posts, Shares, Shares(p));
    MeanOfConstant(|posts|, Likes(p));
    MeanOfConstant(|posts|, Comments(p));
    MeanOfConstant(|posts|, Shares(p));
  }

  /** `JSON.stringify` of the averages. */
  function AverageJson(a: AverageEngagement): string {
    "{\"avgLikes\":" + Text.IntToString(a.avgLikes)
    + ",\"avgComments\":" + Text.IntToString(a.avgComments)
    + ",\"avgShares\":" + Text.IntToString(a.avgShares) + "}"
  }

  // ----------------------------------------------------------------- prompt

  const Intro: string := "Generate a social media caption for the following context:\n\n"
  const Instruction: string := "\nRespond with a JSON object containing:\n    {\n      \"caption\": \"engaging caption text\",\n      \"hashtags\": [\"hashtag1\", \"hashtag2\", ...],\n      \"trendingTopics\": [\"topic1\", \"topic2\", ...],\n      \"confidenceScore\": 0.0-1.0\n    }"

  /** Template-literal rendering of a nullable string. */
  function Render(s: Option<string>): string {
    if s.Some? then s.value else "null"
  }

  /** One line of the context: its label, the value, a newline. */
  function Line(heading: string, value: string): string { heading + value + "\n" }

  const NicheLabel: string := "Niche: "
  const StyleLabel: string := "Posting Style: "
  const AudienceLabel: string := "Target Audience: "
  const ImageLabel: string := "Image Description: "
  const TopicsLabel: string := "Trending Topics to Consider: "
  const EngagementLabel: string := "Past High-Engagement Patterns: "

  function NicheLine(niche: Option<string>): string { Line(NicheLabel, Render(niche)) }
  function StyleLine(style: Option<string>): string { Line(StyleLabel, Render(style)) }
  function AudienceLine(audience: Option<string>): string { Line(AudienceLabel, Render(audience)) }
  function ImageLine(description: string): string { Line(ImageLabel, description) }
  function TopicsLine(topics: seq<string>): string { Line(TopicsLabel, Text.Join(topics, ", ")) }
  function EngagementLine(a: AverageEngagement): string { Line(EngagementLabel, AverageJson(a)) }

  /** The averages the engagement line shows (zeros stand in for an empty
      history, whose line is never shown). */
  function AverageOf(posts: seq<Models.PastPost>): AverageEngagement {
    CalculateAverageEngagement(posts).GetOr(AverageEngagement(0, 0, 0))
  }

  /** An optional line, as a list of lines and as text. */
  function Opt(present: bool, line: string): seq<string> { if present then [line] else [] }
  function OptText(present: bool, line: string): string { if present then line else "" }

  /** The lines between the introduction and the JSON instruction: the
      three context lines always, then the image, topics and engagement lines
      when there is something to say. */
  function PromptLines(niche: Option<string>, style: Option<string>, topics: seq<string>,
                       audience: Option<string>, imageDescription: Option<string>,
                       pastPosts: seq<Models.PastPost>): seq<string>
  {
    [NicheLine(niche), StyleLine(style), AudienceLine(audience)]
    + Opt(Text.Truthy(imageDescription), ImageLine(imageDescription.GetOr("")))
    + Opt(|topics| > 0, TopicsLine(topics))
    + Opt(|pastPosts| > 0, EngagementLine(AverageOf(pastPosts)))
  }

  /** Lines whose labels start differently are different lines. */
  lemma LinesDiffer(l1: string, v1: string, l2: string, v2: string)
    requires |l1| >= 2 && |l2| >= 2 && (l1[0] != l2[0] || l1[1] != l2[1])
    ensures Line(l1, v1) != Line(l2, v2)
  {
    assert Line(l1, v1)[0] == l1[0] && Line(l1, v1)[1] == l1[1];
    assert Line(l2, v2)[0] == l2[0] && Line(l2, v2)[1] == l2[1];
  }

  /** A fixed block of lines followed by three optional lines that differ
      from everything before them. */
  lemma OptionalLinesShape(base: seq<string>, p: bool, x: string, q: bool, y: string, r: bool, z: string)
    requires x !in base && y !in base && y != x && z !in base && z != x && z != y
    ensures var lines := base + Opt(p, x) + Opt(q, y) + Opt(r, z);
      && |lines| == |base| + (if p then 1 else 0) + (if q then 1 else 0) + (if r then 1 else 0)
      && lines[..|base|] == base
      && (p <==> x in lines) && (q <==> y in lines) && (r <==> z in lines)
      && (r ==> lines[|lines| - 1] == z)
  {
    var lines := base + Opt(p, x) + Opt(q, y) + Opt(r, z);
    assert lines[..|base|] == base;
    assert forall l :: l in lines <==> l in base || (p && l == x) || (q && l == y) || (r && l == z);
  }

  /** The line kinds present in the prompt: the context lines come first in
      a fixed order, and each optional line is present exactly when its
      input is non-empty; the engagement line, when present, is last. */
  lemma PromptLinesShape(niche: Option<string>, style: Option<string>, topics: seq<string>,
                         audience: Option<string>, imageDescription: Option<string>,
                         pastPosts: seq<Models.PastPost>)
    ensures var lines := PromptLines(niche, style, topics, audience, imageDescription, pastPosts);
      && |lines| == 3 + (if Text.Truthy(imageDescription) then 1 else 0)
                      + (if |topics| > 0 then 1 else 0) + (if |pastPosts| > 0 then 1 else 0)
      && lines[..3] == [NicheLine(niche), StyleLine(style), AudienceLine(audience)]
      && (Text.Truthy(imageDescription) <==> ImageLine(imageDescription.GetOr("")) in lines)
      && (|topics| > 0 <==> TopicsLine(topics) in lines)
      && (|pastPosts| > 0 <==> EngagementLine(AverageOf(pastPosts)) in lines)
      && (|pastPosts| > 0 ==> lines[|lines| - 1] == EngagementLine(CalculateAverageEngagement(pastPosts).value))
  {
    var n, st, au := Render(niche), Render(style), Render(audience);
    var im, tp, en := imageDescription.GetOr(""), Text.Join(topics, ", "), AverageJson(AverageOf(pastPosts));
    LinesDiffer(ImageLabel, im, NicheLabel, n);
    LinesDiffer(ImageLabel, im, StyleLabel, st);
    LinesDiffer(ImageLabel, im, AudienceLabel, au);
    LinesDiffer(TopicsLabel, tp, NicheLabel, n);
    LinesDiffer(TopicsLabel, tp, StyleLabel, st);
    LinesDiffer(TopicsLabel, tp, AudienceLabel, au);
    LinesDiffer(TopicsLabel, tp, ImageLabel, im);
    LinesDiffer(EngagementLabel, en, NicheLabel, n);
    LinesDiffer(EngagementLabel, en, StyleLabel, st);
    LinesDiffer(EngagementLabel, en, AudienceLabel, au);
    LinesDiffer(EngagementLabel, en, ImageLabel, im);
    LinesDiffer(EngagementLabel, en, TopicsLabel, tp);
    OptionalLinesShape([NicheLine(niche), StyleLine(style), AudienceLine(audience)],
      Text.Truthy(imageDescription), ImageLine(im), |topics| > 0, TopicsLine(topics),
      |pastPosts| > 0, EngagementLine(AverageOf(pastPosts)));
  }

  /** The lines run together. */
  function Concat(lines: seq<string>): string {
    if lines == [] then "" else Concat(lines[..|lines| - 1]) + lines[|lines| - 1]
  }

  lemma ConcatSnoc(lines: seq<string>, line: string)
    ensures Concat(lines + [line]) == Concat(lines) + line
  {
    assert (lines + [line])[..|lines|] == lines;
  }

  /** The context part of the prompt as one string. */
  function PromptBody(niche: Option<string>, style: Option<string>, topics: seq<string>,
                      audience: Option<string>, imageDescription: Option<string>,
                      pastPosts: seq<Models.PastPost>): string
  {
    NicheLine(niche) + StyleLine(style) + AudienceLine(audience)
    + OptText(Text.Truthy(imageDescription), ImageLine(imageDescription.GetOr("")))
    + OptText(|topics| > 0, TopicsLine(topics))
    + OptText(|pastPosts| > 0, EngagementLine(AverageOf(pastPosts)))
  }

  /** The context part is exactly the prompt's lines run together. */
  lemma PromptBodyIsLines(niche: Option<string>, style: Option<string>, topics: seq<string>,
                          audience: Option<string>, imageDescription: Option<string>,
                          pastPosts: seq<Models.PastPost>)
    ensures PromptBody(niche, style, topics, audience, imageDescription, pastPosts)
         == Concat(PromptLines(niche, style, topics, audience, imageDescription, pastPosts))
  {
    ConcatShape(NicheLine(niche), StyleLine(style), AudienceLine(audience),
      Text.Truthy(imageDescription), ImageLine(imageDescription.GetOr("")),
      |topics| > 0, TopicsLine(topics), |pastPosts| > 0, EngagementLine(AverageOf(pastPosts)));
  }

  lemma ConcatOptional(p: bool, line: string)
    ensures Concat(Opt(p, line)) == OptText(p, line)
  {
    if p {
      assert [line][..0] == [];
    }
  }

  /** Running together three lines and three optional ones. */
  lemma ConcatShape(a: string, b: string, c: string, p: bool, x: string, q: bool, y: string, r: bool, z: string)
    ensures Concat([a, b, c] + Opt(p, x) + Opt(q, y) + Opt(r, z))
         == a + b + c + OptText(p, x) + OptText(q, y) + OptText(r, z)
  {
    assert Concat([a]) == a by {
      assert [a][..0] == [];
      assert Concat([]) == "";
      assert "" + a == a;
    }
    assert [a, b][..1] == [a];
    assert Concat([a, b]) == a + b;
    assert [a, b, c][..2] == [a, b];
    assert Concat([a, b, c]) == a + b + c;
    ConcatOptional(p, x);
    ConcatOptional(q, y);
    ConcatOptional(r, z);
    ConcatAppend([a, b, c], Opt(p, x));
    ConcatAppend([a, b, c] + Opt(p, x), Opt(q, y));
    ConcatAppend([a, b, c] + Opt(p, x) + Opt(q, y), Opt(r, z));
  }

  lemma ConcatAppend(lines: seq<string>, more: seq<string>)
    requires |more| <= 1
    ensures Concat(lines + more) == Concat(lines) + Concat(more)
  {
    if more == [] {
      assert lines + more == lines;
    } else {
      ConcatSnoc(lines, more[0]);
      assert lines + more == lines + [more[0]];
      assert Concat(more) == Concat([]) + more[0];
    }
  }

  /** `_buildPrompt`: the introduction, then the context lines, then the
      JSON instruction. */
  method BuildPrompt(niche: Option<string>, style: Option<string>, topics: seq<string>,
                     audience: Option<string>, imageDescription: Option<string>,
                     pastPosts: seq<Models.PastPost>) returns (prompt: string)
    ensures prompt == Intro + PromptBody(niche, style, topics, audience, imageDescription, pastPosts) + Instruction
  {
    prompt := AppendContext(Intro, niche, style, topics, audience, imageDescription, pastPosts);
    prompt := prompt + Instruction;
  }

  /** The successive `+=` of `_buildPrompt` onto the prompt begun as `start`. */
  method AppendContext(start: string, niche: Option<string>, style: Option<string>, topics: seq<string>,
                       audience: Option<string>, imageDescription: Option<string>,
                       pastPosts: seq<Models.PastPost>) returns (prompt: string)
    ensures prompt == start + PromptBody(niche, style, topics, audience, imageDescription, pastPosts)
  {
    ghost var body := NicheLine(niche);
    prompt := start + NicheLine(niche);
    AppendAssoc(start, body, StyleLine(style));
    prompt := prompt + StyleLine(style);
    body := body + StyleLine(style);
    AppendAssoc(start, body, AudienceLine(audience));
    prompt := prompt + AudienceLine(audience);
    body := body + AudienceLine(audience);
    if Text.Truthy(imageDescription) {
      AppendAssoc(start, body, ImageLine(imageDescription.value));
      prompt := prompt + ImageLine(imageDescription.value);
      body := body + ImageLine(imageDescription.value);
    } else {
      assert body + "" == body;
    }
    if |topics| > 0 {
      AppendAssoc(start, body, TopicsLine(topics));
      prompt := prompt + TopicsLine(topics);
      body := body + TopicsLine(topics);
    } else {
      assert body + "" == body;
    }
    if |pastPosts| > 0 {
      var avg := CalculateAverageEngagement(pastPosts);
      AppendAssoc(start, body, EngagementLine(avg.value));
      prompt := prompt + EngagementLine(avg.value);
      body := body + EngagementLine(avg.value);
    } else {
      assert body + "" == body;
    }
  }

  lemma AppendAssoc(a: string, b: string, c: string)
    ensures a + (b + c) == (a + b) + c
  {
  }

  // ------------------------------------------------------------- generation

  /** The options object handed to `generateCaption`; a field left out is
      `Undefined` and takes its default, an explicit `null` stays null. */
  datatype CaptionOptions = CaptionOptions(
    niche: Arg<string>,
    style: Arg<string>,
    trendingTopics: Arg<seq<string>>,
    targetAudience: Arg<string>,
    imageDescription: Arg<string>,
    pastEngagementData: Arg<seq<Models.PastPost>>)

  /** The fields read from the completion service's JSON answer. */
  datatype ParsedCaption = ParsedCaption(
    caption: Option<string>,
    hashtags: Option<seq<string>>,
    trendingTopics: Option<seq<string>>,
    confidenceScore: Option<real>)

  datatype GeneratedCaption = GeneratedCaption(
    caption: Option<string>,
    hashtags: seq<string>,
    trendingTopics: seq<string>,
    confidenceScore: real)

  const DefaultConfidence: real := 0.8
  const CaptionErrorPrefix: string := "Failed to generate caption: "
  /** The `TypeError` raised by `.length` on a null list. */
  const NullLengthError: string := "Cannot read properties of null (reading 'length')"

  /** The answer with its `||` defaults: missing lists become empty and a
      missing or zero confidence becomes 0.8. */
  function WithDefaults(parsed: ParsedCaption): (g: GeneratedCaption)
    ensures g.caption == parsed.caption
    ensures parsed.hashtags.Some? ==> g.hashtags == parsed.hashtags.value
    ensures parsed.hashtags.None? ==> g.hashtags == []
    ensures parsed.trendingTopics.Some? ==> g.trendingTopics == parsed.trendingTopics.value
    ensures parsed.trendingTopics.None? ==> g.trendingTopics == []
    ensures g.confidenceScore != 0.0
    ensures parsed.confidenceScore.Some? && parsed.confidenceScore.value != 0.0 ==> g.confidenceScore == parsed.confidenceScore.value
    ensures parsed.confidenceScore.None? || parsed.confidenceScore.value == 0.0 ==> g.confidenceScore == DefaultConfidence
  {
    GeneratedCaption(
      parsed.caption,
      parsed.hashtags.GetOr([]),
      parsed.trendingTopics.GetOr([]),
      if parsed.confidenceScore.Some? && parsed.confidenceScore.value != 0.0
      then parsed.confidenceScore.value else DefaultConfidence)
  }

  /** The prompt `generateCaption` sends for the defaulted options (nulls
      for the two lists excluded). */
  function CaptionPrompt(niche: Option<string>, style: Option<string>, topics: seq<string>,
                         audience: Option<string>, imageDescription: Option<string>,
                         pastPosts: seq<Models.PastPost>): string
  {
    Intro + PromptBody(niche, style, topics, audience, imageDescription, pastPosts) + Instruction
  }

  /** `generateCaption`: default the options, build the prompt, ask the
      completion service (`complete` stands for the HTTP call, the choice
      extraction and `JSON.parse`, with the message of whatever it throws),
      then default the answer. Every failure is rethrown with the same
      prefix and no partial result. */
  method GenerateCaption(options: CaptionOptions, complete: string -> Result<ParsedCaption, string>)
    returns (r: Result<GeneratedCaption, string>)
    ensures options.trendingTopics.Null? || options.pastEngagementData.Null? ==>
      r == Err(CaptionErrorPrefix + NullLengthError)
    ensures !options.trendingTopics.Null? && !options.pastEngagementData.Null? ==>
      var prompt := CaptionPrompt(
        options.niche.Defaulted("general"), options.style.Defaulted("professional"),
        options.trendingTopics.Defaulted([]).value, options.targetAudience.Defaulted("general audience"),
        options.imageDescription.Defaulted(""), options.pastEngagementData.Defaulted([]).value);
      match complete(prompt)
      case Ok(parsed) => r == Ok(WithDefaults(parsed))
      case Err(message) => r == Err(CaptionErrorPrefix + message)
    ensures r.Err? ==> Text.StartsWith(r.error, CaptionErrorPrefix)
  {
    var niche := options.niche.Defaulted("general");
    var style := options.style.Defaulted("professional");
    var topics := options.trendingTopics.Defaulted([]);
    var audience := options.targetAudience.Defaulted("general audience");
    var imageDescription := options.imageDescription.Defaulted("");
    var past := options.pastEngagementData.Defaulted([]);
    if topics.None? || past.None? {
      r := Err(CaptionErrorPrefix + NullLengthError);
      Text.PrefixStartsWith(CaptionErrorPrefix, NullLengthError);
      return;
    }
    var prompt := BuildPrompt(niche, style, topics.value, audience, imageDescription, past.value);
    var answer := complete(prompt);
    match answer {
      case Ok(parsed) =>
        r := Ok(WithDefaults(parsed));
      case Err(message) =>
        r := Err(CaptionErrorPrefix + message);
        Text.PrefixStartsWith(CaptionErrorPrefix, message);
    }
  }

  /** `generateProfilingQuestions`: the answer's `questions`, or none when
      the answer lacks them or the call fails (the failure is swallowed). */
  function GenerateProfilingQuestions(answer: Result<Option<seq<string>>, string>): (r: seq<string>)
    ensures answer.Err? ==> r == []
    ensures answer.Ok? && answer.value.None? ==> r == []
    ensures answer.Ok? && answer.value.Some? ==> r == answer.value.value
  {
    match answer
    case Ok(questions) => questions.GetOr([])
    case Err(_) => []
  }
}
