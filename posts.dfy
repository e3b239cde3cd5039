/** The post controller: generating a draft, listing and reading posts, and
    the draft-only edit, approve-and-publish and delete handlers. A handler
    answers with the post (or page) or with the HTTP status and message it
    sends. */
module Posts {
  import opened Wrappers
  import Text
  import opened Models
  import opened Store
  import Sorting
  import Trending
  import Captions
  import Images
  import Publisher

  /** An error response: status code, `message` and, for a 500, the
      message of the error caught. */
  datatype Failure = Failure(status: nat, message: string, error: Option<string>)

  const UserNotFound: string := "User not found"
  const PostNotFound: string := "Post not found"
  const Unauthorized: string := "Unauthorized"
  const EditNotDraft: string := "Can only edit draft posts"
  const ApproveNotDraft: string := "Only draft posts can be approved"
  const DeleteNotDraft: string := "Can only delete draft posts"
  const GenerateFailed: string := "Failed to generate post"
  const FetchPostsFailed: string := "Failed to fetch posts"
  const PublishFailed: string := "Failed to post"
  /** The validation error of saving a post without a caption. */
  const CaptionRequired: string := "Post validation failed: caption: Path `caption` is required."
  /** The `TypeError` of reading the accounts of a user that is not there. */
  const NullUserError: string := "Cannot read properties of null (reading 'socialMediaAccounts')"
  /** The database's refusal of a negative skip (wording abbreviated). */
  const NegativeSkipError: string := "Skip value must be non-negative"
  const GenerationModel: string := "gpt-3.5-turbo"
  const BothPlatforms: string := "both"

  // ------------------------------------------------------------ generate

  /** `user.niches?.flatMap((n) => n.keywords) || []`: every niche's
      keywords, in order. */
  function ProfileKeywords(niches: seq<NicheEntry>): (r: seq<string>)
    ensures forall k :: k in r <==> exists i :: 0 <= i < |niches| && k in niches[i].keywords
  {
    if niches == [] then []
    else
      var rest := ProfileKeywords(niches[1..]);
      assert forall i :: 0 < i < |niches| ==> niches[i] == niches[1..][i - 1];
      niches[0].keywords + rest
  }

  /** One niche contributes its own keywords, in order. */
  lemma ProfileKeywordsOne(n: NicheEntry)
    ensures ProfileKeywords([n]) == n.keywords
  {
    assert [n][1..] == [];
  }

  /** `flatMap` concatenates: the keywords of two lists of niches are those
      of the first followed by those of the second. */
  lemma {:induction false} ProfileKeywordsAppend(a: seq<NicheEntry>, b: seq<NicheEntry>)
    ensures ProfileKeywords(a + b) == ProfileKeywords(a) + ProfileKeywords(b)
  {
    if a == [] {
      assert a + b == b;
    } else {
      assert (a + b)[0] == a[0];
      assert (a + b)[1..] == a[1..] + b;
      ProfileKeywordsAppend(a[1..], b);
    }
  }

  /** A stored nullable field handed on as an argument: null stays null. */
  function Nullable(s: Option<string>): (a: Arg<string>)
    ensures a.Defaulted("") == s && !a.Undefined?
  {
    match s
    case Some(v) => Given(v)
    case None => Null
  }

  /** The trending topics fetched for a user. */
  function TopicsFor(user: User): seq<string> {
    Trending.TrendingTopics(Nullable(user.niche), ProfileKeywords(user.niches))
  }

  /** The options handed to `generateCaption`: no image description. */
  function OptionsFor(user: User, topics: seq<string>): Captions.CaptionOptions {
    Captions.CaptionOptions(Nullable(user.niche), Nullable(user.postingStyle), Given(topics),
                            Nullable(user.targetAudience), Undefined, Given(user.pastPosts))
  }

  /** The caption the completion service's answer gives for the user's
      prompt, or the message of the failure. */
  function CaptionFor(user: User, topics: seq<string>,
                      complete: string -> Result<Captions.ParsedCaption, string>): Result<Captions.GeneratedCaption, string>
  {
    var prompt := Captions.CaptionPrompt(user.niche, user.postingStyle, topics, user.targetAudience,
                                         Some(""), user.pastPosts);
    match complete(prompt)
    case Ok(parsed) => Ok(Captions.WithDefaults(parsed))
    case Err(message) => Err(Captions.CaptionErrorPrefix + message)
  }

  /** The new post's fields: the generated caption, hashtags and topics,
      the image's path and URL when there is one, and the generation
      metadata. */
  function DraftFrom(userId: UserId, user: User, topics: seq<string>, c: Captions.GeneratedCaption,
                     image: Option<Images.ImageInfo>, now: Time): Post
  {
    NewPost(0, userId, c.caption.GetOr(""), now).(
      hashtags := c.hashtags,
      trendingTopics := c.trendingTopics,
      imagePath := if image.Some? then Some(image.value.path) else None,
      imageUrl := if image.Some? then Some(image.value.url) else None,
      aiMetadata := Some(AiMetadata(GenerationModel, topics, c.confidenceScore, user.niche)))
  }

  /** What generating a post for `user` comes to: the draft about to be
      saved, or the message of the error that stops the pipeline. */
  function DraftOutcome(userId: UserId, user: User, complete: string -> Result<Captions.ParsedCaption, string>,
                        imagesDir: string, files: seq<string>, now: Time): (r: Result<Post, string>)
    ensures CaptionFor(user, TopicsFor(user), complete).Err? ==> r == Err(CaptionFor(user, TopicsFor(user), complete).error)
    ensures CaptionFor(user, TopicsFor(user), complete).Ok? && !Text.Truthy(CaptionFor(user, TopicsFor(user), complete).value.caption) ==>
      r == Err(CaptionRequired)
    ensures r.Ok? ==>
      var c := CaptionFor(user, TopicsFor(user), complete).value;
      && c.caption == Some(r.value.caption) && ValidPost(r.value)
      && r.value.status == Draft && Untouched(r.value) && r.value.userId == userId
      && r.value.hashtags == c.hashtags && r.value.trendingTopics == c.trendingTopics
      && r.value.aiMetadata == Some(AiMetadata(GenerationModel, TopicsFor(user), c.confidenceScore, user.niche))
      && r.value.generatedAt == now && r.value.createdAt == now
      && (r.value.imagePath.None? <==> Images.ImageNames(files) == [])
      && (r.value.imageUrl.None? <==> Images.ImageNames(files) == [])
  {
    var topics := TopicsFor(user);
    match CaptionFor(user, topics, complete)
    case Err(message) => Err(message)
    case Ok(c) =>
      var draft := DraftFrom(userId, user, topics, c, Images.FirstImage(imagesDir, files), now);
      if ValidPost(draft) then Ok(draft) else Err(CaptionRequired)
  }

  /** The analytics record of a generated post. */
  function GeneratedEvent(p: Post): AnalyticsEvent {
    AnalyticsEvent(p.userId, p.id, PostGenerated, p.caption, p.hashtags, p.trendingTopics, None)
  }

  /** The first part of the pipeline: fetch topics, generate a caption and
      pick an image; the draft is not saved yet. */
  method BuildDraft(images: Images.ImageDirectory, userId: UserId, user: User,
                    complete: string -> Result<Captions.ParsedCaption, string>, now: Time)
    returns (r: Result<Post, string>)
    requires images.Valid()
    modifies images
    ensures images.Valid() && images.files == old(images.files)
    ensures images.present == (old(images.present) || CaptionFor(user, TopicsFor(user), complete).Ok?)
    ensures r == DraftOutcome(userId, user, complete, images.imagesDir, old(images.files), now)
  {
    var topics := Trending.GetTrendingTopics(Nullable(user.niche), ProfileKeywords(user.niches));
    var captionData := Captions.GenerateCaption(OptionsFor(user, topics), complete);
    if captionData.Err? {
      return Err(captionData.error);
    }
    var c := captionData.value;
    var image := images.SelectImageForCaption(c.caption, c.hashtags);
    var draft := DraftFrom(userId, user, topics, c, image, now);
    if !ValidPost(draft) {
      return Err(CaptionRequired);
    }
    r := Ok(draft);
  }

  /** The pipeline shared by `generatePost` and the daily job: build the
      draft, then save it. Any error stops it before anything is saved. */
  method CreateDraft(db: Database, images: Images.ImageDirectory, userId: UserId, user: User,
                     complete: string -> Result<Captions.ParsedCaption, string>, now: Time)
    returns (r: Result<Post, string>)
    requires db.Valid() && images.Valid()
    modifies db, images
    ensures db.Valid() && images.Valid()
    ensures db.users == old(db.users) && db.nextUserId == old(db.nextUserId) && db.analytics == old(db.analytics)
    ensures images.files == old(images.files)
    ensures images.present == (old(images.present) || CaptionFor(user, TopicsFor(user), complete).Ok?)
    ensures match DraftOutcome(userId, user, complete, images.imagesDir, old(images.files), now)
      case Err(message) =>
        r == Err(message) && db.posts == old(db.posts) && db.nextPostId == old(db.nextPostId)
      case Ok(draft) =>
        var p := draft.(id := old(db.nextPostId));
        && r == Ok(p)
        && db.posts == old(db.posts)[p.id := p] && db.nextPostId == old(db.nextPostId) + 1
  {
    var built := BuildDraft(images, userId, user, complete, now);
    if built.Err? {
      return built;
    }
    var draft := built.value;
    var id := db.InsertPost(draft);
    r := Ok(draft.(id := id));
  }

  /** `generatePost`: 404 for an unknown user; otherwise the draft
      pipeline, then an analytics record of the new post. Any error on the
      way answers 500 and saves nothing. */
  method GeneratePost(db: Database, images: Images.ImageDirectory, userId: UserId,
                      complete: string -> Result<Captions.ParsedCaption, string>, now: Time)
    returns (r: Result<Post, Failure>)
    requires db.Valid() && images.Valid()
    modifies db, images
    ensures db.Valid() && images.Valid()
    ensures db.users == old(db.users) && db.nextUserId == old(db.nextUserId) && images.files == old(images.files)
    ensures userId !in old(db.users) ==>
      && r == Err(Failure(404, UserNotFound, None))
      && db.posts == old(db.posts) && db.nextPostId == old(db.nextPostId) && db.analytics == old(db.analytics)
      && images.present == old(images.present)
    ensures userId in old(db.users) ==>
      var user := old(db.users)[userId];
      && images.present == (old(images.present) || CaptionFor(user, TopicsFor(user), complete).Ok?)
      && match DraftOutcome(userId, user, complete, images.imagesDir, old(images.files), now)
         case Err(message) =>
           && r == Err(Failure(500, GenerateFailed, Some(message)))
           && db.posts == old(db.posts) && db.nextPostId == old(db.nextPostId) && db.analytics == old(db.analytics)
         case Ok(draft) =>
           var p := draft.(id := old(db.nextPostId));
           && r == Ok(p)
           && db.posts == old(db.posts)[p.id := p] && db.nextPostId == old(db.nextPostId) + 1
           && db.analytics == old(db.analytics) + [GeneratedEvent(p)]
  {
    if userId !in db.users {
      return Err(Failure(404, UserNotFound, None));
    }
    var user := db.users[userId];
    var created := CreateDraft(db, images, userId, user, complete, now);
    ghost var outcome := DraftOutcome(userId, user, complete, images.imagesDir, old(images.files), now);
    if created.Err? {
      assert outcome.Err? && created.error == outcome.error;
      return Err(Failure(500, GenerateFailed, Some(created.error)));
    }
    assert outcome.Ok? && created.value == outcome.value.(id := old(db.nextPostId));
    db.Log(GeneratedEvent(created.value));
    r := Ok(created.value);
  }

  // ------------------------------------------------------------- listing

  /** The query string of a listing; an absent parameter takes its
      default (`all`, 20, 0). */
  datatype PostQuery = PostQuery(status: Option<string>, limit: Option<int>, skip: Option<int>)

  datatype PostPage = PostPage(posts: seq<Post>, total: nat, limit: int, skip: int)

  const DefaultLimit: int := 20

  /** `{ userId }`, plus `status` unless it is `all`. */
  predicate InQuery(p: Post, userId: UserId, status: string) {
    p.userId == userId && (status == "all" || StatusName(p.status) == status)
  }

  function Filtered(s: seq<Post>, userId: UserId, status: string): (r: seq<Post>)
    ensures forall p :: p in r <==> p in s && InQuery(p, userId, status)
    ensures |r| <= |s|
  {
    if s == [] then []
    else
      var init := Filtered(s[..|s| - 1], userId, status);
      var last := s[|s| - 1];
      assert forall p :: p in s <==> p in s[..|s| - 1] || p == last;
      if InQuery(last, userId, status) then init + [last] else init
  }

  function CreatedAt(p: Post): int { p.createdAt }

  /** The database applies skip before limit whatever the call order; a
      limit of 0 means none, and a negative limit counts as its size. */
  function Window<T>(s: seq<T>, skip: nat, limit: int): (r: seq<T>)
    ensures var k := if skip < |s| then skip else |s|;
      && k + |r| <= |s| && r == s[k..k + |r|]
      && (limit == 0 ==> |r| == |s| - k)
      && (limit != 0 ==> |r| == if |s| - k < Abs(limit) then |s| - k else Abs(limit))
  {
    var rest := s[if skip < |s| then skip else |s|..];
    if limit == 0 || Abs(limit) >= |rest| then rest else rest[..Abs(limit)]
  }

  function Abs(n: int): nat { if n < 0 then -n else n }

  /** The posts of the store, in creation order. */
  function AllPosts(db: Database): seq<Post>
    reads db
  {
    InIdOrder(db.posts, db.nextPostId)
  }

  /** `getUserPosts`: the requesting user's posts with the given status,
      newest first, then skip and limit; `total` counts every match. */
  function GetUserPosts(db: Database, userId: UserId, q: PostQuery): (r: Result<PostPage, Failure>)
    reads db
    ensures r.Err? <==> q.skip.GetOr(0) < 0
    ensures r.Err? ==> r.error == Failure(500, FetchPostsFailed, Some(NegativeSkipError))
    ensures r.Ok? ==>
      var matching := Filtered(AllPosts(db), userId, q.status.GetOr("all"));
      && r.value.total == |matching|
      && r.value.limit == q.limit.GetOr(DefaultLimit) && r.value.skip == q.skip.GetOr(0)
      && Sorting.NonIncreasing(r.value.posts, CreatedAt)
      && (forall p :: p in r.value.posts ==> InQuery(p, userId, q.status.GetOr("all")) && p in db.posts.Values)
      && (r.value.limit != 0 ==> |r.value.posts| <= Abs(r.value.limit))
      && (r.value.skip + |r.value.posts| <= |matching| || r.value.posts == [])
      && r.value.posts == NewestFirstPage(matching, q.skip.GetOr(0), r.value.limit)
  {
    var status := q.status.GetOr("all");
    var limit := q.limit.GetOr(DefaultLimit);
    var skip := q.skip.GetOr(0);
    if skip < 0 then Err(Failure(500, FetchPostsFailed, Some(NegativeSkipError)))
    else
      var matching := Filtered(AllPosts(db), userId, status);
      Ok(PostPage(NewestFirstPage(matching, skip, limit), |matching|, limit, skip))
  }

  /** The matching posts sorted newest first, then cut to the window. */
  function NewestFirstPage(matching: seq<Post>, skip: nat, limit: int): (page: seq<Post>)
    ensures Sorting.NonIncreasing(page, CreatedAt)
    ensures forall p :: p in page ==> p in matching
    ensures limit != 0 ==> |page| <= Abs(limit)
    ensures skip + |page| <= |matching| || page == []
    ensures page == Window(Sorting.SortDesc(matching, CreatedAt), skip, limit)
  {
    var sorted := Sorting.SortDesc(matching, CreatedAt);
    Sorting.SortDescOrdered(matching, CreatedAt);
    assert forall p :: p in sorted ==> p in matching by {
      forall p | p in sorted ensures p in matching {
        assert p in multiset(sorted);
      }
    }
    var page := Window(sorted, skip, limit);
    NonIncreasingSlice(sorted, CreatedAt, if skip < |sorted| then skip else |sorted|, |page|);
    assert forall p :: p in page ==> p in sorted;
    page
  }

  lemma NonIncreasingSlice<T>(s: seq<T>, key: T -> int, k: nat, n: nat)
    requires k + n <= |s| && Sorting.NonIncreasing(s, key)
    ensures Sorting.NonIncreasing(s[k..k + n], key)
  {
    var t := s[k..k + n];
    assert forall i :: 0 <= i < n ==> t[i] == s[k + i];
  }

  // --------------------------------------------------- one post, checked

  /** The checks of the read handler: 404 for a missing post, then 403 for
      another user's post. */
  function GetPost(db: Database, postId: PostId, userId: UserId): (r: Result<Post, Failure>)
    reads db
    ensures r == Err(Failure(404, PostNotFound, None)) <==> postId !in db.posts
    ensures r == Err(Failure(403, Unauthorized, None)) <==> postId in db.posts && db.posts[postId].userId != userId
    ensures r.Ok? <==> postId in db.posts && db.posts[postId].userId == userId
    ensures r.Ok? ==> r.value == db.posts[postId]
  {
    if postId !in db.posts then Err(Failure(404, PostNotFound, None))
    else if db.posts[postId].userId != userId then Err(Failure(403, Unauthorized, None))
    else Ok(db.posts[postId])
  }

  /** The checks of the mutating handlers, in their order: 404, then 403,
      then 400 with the handler's message for a post that is not a draft. */
  function CheckDraft(posts: map<PostId, Post>, postId: PostId, userId: UserId, notDraft: string): (r: Result<Post, Failure>)
    ensures r == Err(Failure(404, PostNotFound, None)) <==> postId !in posts
    ensures r == Err(Failure(403, Unauthorized, None)) <==> postId in posts && posts[postId].userId != userId
    ensures r == Err(Failure(400, notDraft, None)) <==>
      postId in posts && posts[postId].userId == userId && posts[postId].status != Draft
    ensures r.Ok? <==> postId in posts && posts[postId].userId == userId && posts[postId].status == Draft
    ensures r.Ok? ==> r.value == posts[postId]
    ensures r.Err? ==> r.error.status in {400, 403, 404}
  {
    if postId !in posts then Err(Failure(404, PostNotFound, None))
    else if posts[postId].userId != userId then Err(Failure(403, Unauthorized, None))
    else if posts[postId].status != Draft then Err(Failure(400, notDraft, None))
    else Ok(posts[postId])
  }

  // ---------------------------------------------------------------- edit

  /** A draft after an edit request: each edited field is replaced only by
      a truthy value (every list is truthy); the original caption, hashtags
      and status stay. */
  function Edited(p: Post, caption: Option<string>, hashtags: Option<seq<string>>, approvalNotes: Option<string>): (q: Post)
    ensures q.editedCaption == (if Text.Truthy(caption) then caption else p.editedCaption)
    ensures q.editedHashtags == (if hashtags.Some? then hashtags.value else p.editedHashtags)
    ensures q.approvalNotes == (if Text.Truthy(approvalNotes) then approvalNotes else p.approvalNotes)
    ensures q.(editedCaption := p.editedCaption, editedHashtags := p.editedHashtags, approvalNotes := p.approvalNotes) == p
  {
    var post := p;
    var post := if Text.Truthy(caption) then post.(editedCaption := caption) else post;
    var post := if hashtags.Some? then post.(editedHashtags := hashtags.value) else post;
    if Text.Truthy(approvalNotes) then post.(approvalNotes := approvalNotes) else post
  }

  /** Repeating an edit changes nothing more. */
  lemma EditIdempotent(p: Post, caption: Option<string>, hashtags: Option<seq<string>>, approvalNotes: Option<string>)
    ensures Edited(Edited(p, caption, hashtags, approvalNotes), caption, hashtags, approvalNotes)
         == Edited(p, caption, hashtags, approvalNotes)
  {
  }

  /** `updatePost`: after the checks, apply the edit and save. */
  method UpdatePost(db: Database, postId: PostId, userId: UserId,
                    caption: Option<string>, hashtags: Option<seq<string>>, approvalNotes: Option<string>)
    returns (r: Result<Post, Failure>)
    requires db.Valid()
    modifies db
    ensures db.Valid()
    ensures db.users == old(db.users) && db.nextUserId == old(db.nextUserId)
    ensures db.nextPostId == old(db.nextPostId) && db.analytics == old(db.analytics)
    ensures match CheckDraft(old(db.posts), postId, userId, EditNotDraft)
      case Err(f) => r == Err(f) && db.posts == old(db.posts)
      case Ok(p) => r == Ok(Edited(p, caption, hashtags, approvalNotes)) && db.posts == old(db.posts)[postId := r.value]
  {
    var checked := CheckDraft(db.posts, postId, userId, EditNotDraft);
    if checked.Err? {
      return Err(checked.error);
    }
    var post := checked.value;
    if Text.Truthy(caption) {
      post := post.(editedCaption := caption);
    }
    if hashtags.Some? {
      post := post.(editedHashtags := hashtags.value);
    }
    if Text.Truthy(approvalNotes) {
      post := post.(approvalNotes := approvalNotes);
    }
    db.SavePost(post);
    r := Ok(post);
  }

  // ------------------------------------------------------------- approve

  /** `editedCaption || caption`. */
  function PublishedCaption(p: Post): (c: string)
    ensures Text.Truthy(p.editedCaption) ==> c == p.editedCaption.value
    ensures !Text.Truthy(p.editedCaption) ==> c == p.caption
  {
    if Text.Truthy(p.editedCaption) then p.editedCaption.value else p.caption
  }

  /** `editedHashtags || hashtags`: the edited list is an array, which is
      always truthy, so the original hashtags are never chosen. */
  function PublishedHashtags(p: Post): seq<string> {
    p.editedHashtags
  }

  /** The text sent to the platforms: caption, a blank line, the hashtags
      separated by spaces. */
  function FormattedCaption(p: Post): (r: string)
    ensures var c := PublishedCaption(p);
      && |r| >= |c| + 2
      && r[..|c|] == c && r[|c|..|c| + 2] == "\n\n"
      && r[|c| + 2..] == Text.Join(p.editedHashtags, " ")
    ensures p.editedHashtags == [] ==> r == PublishedCaption(p) + "\n\n"
  {
    PublishedCaption(p) + "\n\n" + Text.Join(PublishedHashtags(p), " ")
  }

  /** A draft nobody edited is published with its caption alone: its
      hashtags are dropped. */
  lemma UneditedPublishesCaptionOnly(p: Post)
    requires Untouched(p)
    ensures FormattedCaption(p) == p.caption + "\n\n"
  {
  }

  /** After an edit with a caption and hashtags, exactly those are
      published, whatever the draft held before. */
  lemma EditedIsPublished(p: Post, caption: string, hashtags: seq<string>, approvalNotes: Option<string>)
    requires caption != ""
    ensures FormattedCaption(Edited(p, Some(caption), Some(hashtags), approvalNotes))
         == caption + "\n\n" + Text.Join(hashtags, " ")
  {
  }

  /** One result applied to the post: a success stores its platform's id,
      a failure marks the post failed with its error. */
  function ApplyResult(p: Post, result: Publisher.PublishResult): Post {
    match result
    case Published(platform, id, _) =>
      if platform == Publisher.Facebook then p.(socialMediaIds := p.socialMediaIds.(facebook := Some(id)))
      else p.(socialMediaIds := p.socialMediaIds.(linkedin := Some(id)))
    case Rejected(_, error) => p.(status := Failed, failureReason := Some(error))
  }

  predicate PublishedOn(result: Publisher.PublishResult, platform: Publisher.Platform) {
    result.Published? && result.platform == platform
  }

  /** A platform's slot among the stored external ids. */
  function Slot(ids: SocialMediaIds, platform: Publisher.Platform): Option<string> {
    if platform == Publisher.Facebook then ids.facebook else ids.linkedin
  }

  /** The results applied in list order. Only status, failure reason and
      the external ids change; with no failure status and reason stay, and
      any failure leaves the post failed. */
  function ApplyResults(p: Post, results: seq<Publisher.PublishResult>): (q: Post)
    ensures q.(status := p.status, failureReason := p.failureReason, socialMediaIds := p.socialMediaIds) == p
    ensures (forall i :: 0 <= i < |results| ==> results[i].Published?) ==>
      q.status == p.status && q.failureReason == p.failureReason
    ensures (exists i :: 0 <= i < |results| && results[i].Rejected?) ==> q.status == Failed
  {
    if results == [] then p
    else ApplyResult(ApplyResults(p, results[..|results| - 1]), results[|results| - 1])
  }

  /** The failure reason is the error of the last failure. */
  lemma {:induction false} LastFailureWins(p: Post, results: seq<Publisher.PublishResult>, i: nat)
    requires i < |results| && results[i].Rejected?
    requires forall j :: i < j < |results| ==> results[j].Published?
    ensures ApplyResults(p, results).failureReason == Some(results[i].error)
  {
    var init := results[..|results| - 1];
    if i < |results| - 1 {
      LastFailureWins(p, init, i);
    }
  }

  /** A platform with no success keeps what its slot held. */
  lemma {:induction false} UnpublishedSlotKept(p: Post, results: seq<Publisher.PublishResult>, platform: Publisher.Platform)
    requires forall i :: 0 <= i < |results| ==> !PublishedOn(results[i], platform)
    ensures Slot(ApplyResults(p, results).socialMediaIds, platform) == Slot(p.socialMediaIds, platform)
  {
    if results != [] {
      UnpublishedSlotKept(p, results[..|results| - 1], platform);
    }
  }

  /** A platform's slot holds the id of its last success. */
  lemma {:induction false} LastSuccessStored(p: Post, results: seq<Publisher.PublishResult>, platform: Publisher.Platform, i: nat)
    requires i < |results| && PublishedOn(results[i], platform)
    requires forall j :: i < j < |results| ==> !PublishedOn(results[j], platform)
    ensures Slot(ApplyResults(p, results).socialMediaIds, platform) == Some(results[i].postId)
  {
    var init := results[..|results| - 1];
    if i < |results| - 1 {
      LastSuccessStored(p, init, platform, i);
    }
  }

  /** The post after approval: marked posted, stamped approved and posted
      now, then the results applied. */
  function Approved(p: Post, results: seq<Publisher.PublishResult>, now: Time): (q: Post)
    ensures q.approvedAt == Some(now) && q.postedAt == Some(now)
    ensures q.status == Posted <==> forall i :: 0 <= i < |results| ==> results[i].Published?
    ensures q.status != Posted ==> q.status == Failed
    ensures q.caption == p.caption && q.hashtags == p.hashtags && q.userId == p.userId && q.id == p.id
  {
    ApplyResults(p.(status := Posted, postedAt := Some(now), approvedAt := Some(now)), results)
  }

  /** The analytics record of an approval: the original caption and
      hashtags, platform `both`, whatever the outcome. */
  function PostedEvent(p: Post): AnalyticsEvent {
    AnalyticsEvent(p.userId, p.id, PostPosted, p.caption, p.hashtags, [], Some(BothPlatforms))
  }

  datatype Approval = Approval(post: Post, socialResults: seq<Publisher.PublishResult>)

  /** `approveAndPost`: after the checks, publish the formatted caption and
      the image URL from the user's stored accounts, fold the results into
      the post, save it and log the attempt. */
  method ApproveAndPost(db: Database, postId: PostId, userId: UserId,
                        sendFacebook: Publisher.FacebookRequest -> Result<string, string>,
                        sendLinkedIn: Publisher.LinkedInRequest -> Result<string, string>,
                        now: Time)
    returns (r: Result<Approval, Failure>)
    requires db.Valid()
    modifies db
    ensures db.Valid()
    ensures db.users == old(db.users) && db.nextUserId == old(db.nextUserId) && db.nextPostId == old(db.nextPostId)
    ensures match CheckDraft(old(db.posts), postId, userId, ApproveNotDraft)
      case Err(f) => r == Err(f) && db.posts == old(db.posts) && db.analytics == old(db.analytics)
      case Ok(p) =>
        if userId !in old(db.users) then
          r == Err(Failure(500, PublishFailed, Some(NullUserError)))
          && db.posts == old(db.posts) && db.analytics == old(db.analytics)
        else
          var results := Publisher.PublishAll(Publisher.CredentialsOf(old(db.users)[userId].socialMediaAccounts),
                                              Publisher.PostData(FormattedCaption(p), p.imageUrl), sendFacebook, sendLinkedIn);
          var q := Approved(p, results, now);
          && r == Ok(Approval(q, results))
          && db.posts == old(db.posts)[postId := q]
          && db.analytics == old(db.analytics) + [PostedEvent(p)]
  {
    var checked := CheckDraft(db.posts, postId, userId, ApproveNotDraft);
    if checked.Err? {
      return Err(checked.error);
    }
    if userId !in db.users {
      return Err(Failure(500, PublishFailed, Some(NullUserError)));
    }
    var p := checked.value;
    var user := db.users[userId];
    var results := Publisher.PostToAllPlatforms(Publisher.CredentialsOf(user.socialMediaAccounts),
                                                Publisher.PostData(FormattedCaption(p), p.imageUrl),
                                                sendFacebook, sendLinkedIn);
    var start := p.(status := Posted, postedAt := Some(now), approvedAt := Some(now));
    var post := start;
    for i := 0 to |results|
      invariant post == ApplyResults(start, results[..i])
    {
      assert results[..i + 1][..i] == results[..i];
      match results[i] {
        case Published(platform, id, _) =>
          if platform == Publisher.Facebook {
            post := post.(socialMediaIds := post.socialMediaIds.(facebook := Some(id)));
          } else {
            post := post.(socialMediaIds := post.socialMediaIds.(linkedin := Some(id)));
          }
        case Rejected(_, error) =>
          post := post.(status := Failed, failureReason := Some(error));
      }
    }
    assert results[..|results|] == results;
    db.SavePost(post);
    db.Log(PostedEvent(p));
    r := Ok(Approval(post, results));
  }

  // -------------------------------------------------------------- delete

  /** `deletePost`: after the checks, the draft is removed. */
  method DeletePost(db: Database, postId: PostId, userId: UserId) returns (r: Result<PostId, Failure>)
    requires db.Valid()
    modifies db
    ensures db.Valid()
    ensures db.users == old(db.users) && db.nextUserId == old(db.nextUserId)
    ensures db.nextPostId == old(db.nextPostId) && db.analytics == old(db.analytics)
    ensures match CheckDraft(old(db.posts), postId, userId, DeleteNotDraft)
      case Err(f) => r == Err(f) && db.posts == old(db.posts)
      case Ok(_) => r == Ok(postId) && db.posts == old(db.posts) - {postId}
  {
    var checked := CheckDraft(db.posts, postId, userId, DeleteNotDraft);
    if checked.Err? {
      return Err(checked.error);
    }
    db.DeletePost(postId);
    r := Ok(postId);
  }

  // ----------------------------------------------------------- analytics

  const AnalyticsLimit: nat := 100

  function EventsOf(log: seq<AnalyticsEvent>, userId: UserId): (r: seq<AnalyticsEvent>)
    ensures forall e :: e in r <==> e in log && e.userId == userId
  {
    if log == [] then []
    else
      var init := EventsOf(log[..|log| - 1], userId);
      var last := log[|log| - 1];
      assert forall e :: e in log <==> e in log[..|log| - 1] || e == last;
      if last.userId == userId then init + [last] else init
  }

  /** `getPostAnalytics`: the user's latest hundred events, newest first
      (the log is kept in creation order). */
  function GetPostAnalytics(db: Database, userId: UserId): (r: seq<AnalyticsEvent>)
    reads db
    ensures var mine := EventsOf(db.analytics, userId);
      && |r| == (if |mine| < AnalyticsLimit then |mine| else AnalyticsLimit)
      && forall i :: 0 <= i < |r| ==> r[i] == mine[|mine| - 1 - i]
    ensures forall e :: e in r ==> e in db.analytics && e.userId == userId
  {
    var mine := EventsOf(db.analytics, userId);
    var n := if |mine| < AnalyticsLimit then |mine| else AnalyticsLimit;
    seq(n, i requires 0 <= i < n => mine[|mine| - 1 - i])
  }
}
