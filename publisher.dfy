/** Publishing a post to Facebook and LinkedIn, and reading engagement
    back. Each HTTP call is a parameter that answers with the new post's id
    or the message of the error it raised. */
module Publisher {
  import opened Wrappers
  import Text
  import Models

  datatype Platform = Facebook | LinkedIn

  function PlatformName(p: Platform): string {
    match p
    case Facebook => "facebook"
    case LinkedIn => "linkedin"
  }

  /** What is published: the formatted caption and the image, if any. */
  datatype PostData = PostData(caption: string, imageUrl: Option<string>)

  const FacebookGraphBase: string := "https://graph.facebook.com/v18.0/"
  const LinkedInPostsUrl: string := "https://api.linkedin.com/v2/ugcPosts"
  const FacebookPostBase: string := "https://facebook.com/"
  const LinkedInPostBase: string := "https://linkedin.com/feed/update/"
  const LinkedInAuthorPrefix: string := "urn:li:person:"
  const FacebookErrorPrefix: string := "Failed to post to Facebook: "
  const LinkedInErrorPrefix: string := "Failed to post to LinkedIn: "
  const FacebookNotConfigured: string := "Facebook credentials not configured"
  const LinkedInNotConfigured: string := "LinkedIn credentials not configured"

  datatype FacebookRequest = FacebookRequest(url: string, message: string, accessToken: string,
                                             picture: Option<string>, link: Option<string>)

  datatype MediaEntry = MediaEntry(status: string, description: string, media: string, title: string)

  datatype LinkedInRequest = LinkedInRequest(url: string, author: string, lifecycleState: string,
                                             commentary: string, media: seq<MediaEntry>,
                                             visibility: string, authorization: string)

  /** The outcome of one platform: `success: true` with the id and the
      public URL, or `success: false` with the error message. */
  datatype PublishResult =
    | Published(platform: Platform, postId: string, url: string)
    | Rejected(platform: Platform, error: string)

  /** The Graph API request: the caption as message, and the image as both
      picture and link when there is one. */
  function FacebookRequestFor(pageAccessToken: string, pageId: string, data: PostData): (q: FacebookRequest)
    ensures q.url == FacebookGraphBase + pageId + "/feed"
    ensures q.message == data.caption && q.accessToken == pageAccessToken
    ensures q.picture == q.link
    ensures q.picture.Some? <==> Text.Truthy(data.imageUrl)
    ensures q.picture.Some? ==> q.picture == data.imageUrl
  {
    var image := if Text.Truthy(data.imageUrl) then data.imageUrl else None;
    FacebookRequest(FacebookGraphBase + pageId + "/feed", data.caption, pageAccessToken, image, image)
  }

  /** The UGC post request: published, public, authored by the profile,
      with one media entry exactly when there is an image. */
  function LinkedInRequestFor(accessToken: string, profileId: string, data: PostData): (q: LinkedInRequest)
    ensures q.author == LinkedInAuthorPrefix + profileId
    ensures q.commentary == data.caption
    ensures q.lifecycleState == "PUBLISHED" && q.visibility == "PUBLIC"
    ensures q.authorization == "Bearer " + accessToken
    ensures |q.media| <= 1
    ensures |q.media| == 1 <==> Text.Truthy(data.imageUrl)
    ensures |q.media| == 1 ==> q.media[0] == MediaEntry("READY", "Image", data.imageUrl.value, "Post Image")
  {
    var media := if Text.Truthy(data.imageUrl)
      then [MediaEntry("READY", "Image", data.imageUrl.value, "Post Image")] else [];
    LinkedInRequest(LinkedInPostsUrl, LinkedInAuthorPrefix + profileId, "PUBLISHED", data.caption,
                    media, "PUBLIC", "Bearer " + accessToken)
  }

  /** `postToFacebook`: throws without both credentials; otherwise sends the
      request. Every error is rethrown with the Facebook prefix. */
  function PostToFacebook(pageAccessToken: Option<string>, pageId: Option<string>, data: PostData,
                          send: FacebookRequest -> Result<string, string>): (r: Result<PublishResult, string>)
    ensures !(Text.Truthy(pageAccessToken) && Text.Truthy(pageId)) ==> r == Err(FacebookErrorPrefix + FacebookNotConfigured)
    ensures Text.Truthy(pageAccessToken) && Text.Truthy(pageId) ==>
      match send(FacebookRequestFor(pageAccessToken.value, pageId.value, data))
      case Ok(id) => r == Ok(Published(Facebook, id, FacebookPostBase + id))
      case Err(message) => r == Err(FacebookErrorPrefix + message)
    ensures r.Ok? ==> r.value.Published? && r.value.platform == Facebook
    ensures r.Err? ==> Text.StartsWith(r.error, FacebookErrorPrefix)
  {
    if !(Text.Truthy(pageAccessToken) && Text.Truthy(pageId)) then
      Text.PrefixStartsWith(FacebookErrorPrefix, FacebookNotConfigured);
      Err(FacebookErrorPrefix + FacebookNotConfigured)
    else
      match send(FacebookRequestFor(pageAccessToken.value, pageId.value, data))
      case Ok(id) => Ok(Published(Facebook, id, FacebookPostBase + id))
      case Err(message) =>
        Text.PrefixStartsWith(FacebookErrorPrefix, message);
        Err(FacebookErrorPrefix + message)
  }

  /** `postToLinkedIn`, the same for LinkedIn. */
  function PostToLinkedIn(accessToken: Option<string>, profileId: Option<string>, data: PostData,
                          send: LinkedInRequest -> Result<string, string>): (r: Result<PublishResult, string>)
    ensures !(Text.Truthy(accessToken) && Text.Truthy(profileId)) ==> r == Err(LinkedInErrorPrefix + LinkedInNotConfigured)
    ensures Text.Truthy(accessToken) && Text.Truthy(profileId) ==>
      match send(LinkedInRequestFor(accessToken.value, profileId.value, data))
      case Ok(id) => r == Ok(Published(LinkedIn, id, LinkedInPostBase + id))
      case Err(message) => r == Err(LinkedInErrorPrefix + message)
    ensures r.Ok? ==> r.value.Published? && r.value.platform == LinkedIn
    ensures r.Err? ==> Text.StartsWith(r.error, LinkedInErrorPrefix)
  {
    if !(Text.Truthy(accessToken) && Text.Truthy(profileId)) then
      Text.PrefixStartsWith(LinkedInErrorPrefix, LinkedInNotConfigured);
      Err(LinkedInErrorPrefix + LinkedInNotConfigured)
    else
      match send(LinkedInRequestFor(accessToken.value, profileId.value, data))
      case Ok(id) => Ok(Published(LinkedIn, id, LinkedInPostBase + id))
      case Err(message) =>
        Text.PrefixStartsWith(LinkedInErrorPrefix, message);
        Err(LinkedInErrorPrefix + message)
  }

  // ------------------------------------------------------ both platforms

  /** The credentials object `postToAllPlatforms` reads. */
  datatype FacebookCredentials = FacebookCredentials(pageAccessToken: Option<string>, pageId: Option<string>)
  datatype LinkedInCredentials = LinkedInCredentials(accessToken: Option<string>, profileId: Option<string>)
  datatype Credentials = Credentials(facebook: Option<FacebookCredentials>, linkedin: Option<LinkedInCredentials>)

  /** A user's stored accounts read as credentials: the stored Facebook
      account has a `pageId` and an `accessToken` but no `pageAccessToken`. */
  function CredentialsOf(accounts: Models.SocialMediaAccounts): Credentials {
    Credentials(
      Some(FacebookCredentials(None, accounts.facebook.pageId)),
      Some(LinkedInCredentials(accounts.linkedin.accessToken, accounts.linkedin.profileId)))
  }

  predicate AttemptsFacebook(c: Credentials) {
    c.facebook.Some? && Text.Truthy(c.facebook.value.pageAccessToken) && Text.Truthy(c.facebook.value.pageId)
  }

  predicate AttemptsLinkedIn(c: Credentials) {
    c.linkedin.Some? && Text.Truthy(c.linkedin.value.accessToken) && Text.Truthy(c.linkedin.value.profileId)
  }

  /** A thrown error becomes a failed result of that platform. */
  function Settle(platform: Platform, r: Result<PublishResult, string>): PublishResult {
    match r
    case Ok(result) => result
    case Err(message) => Rejected(platform, message)
  }

  function FacebookResult(c: Credentials, data: PostData, send: FacebookRequest -> Result<string, string>): PublishResult
    requires c.facebook.Some?
  {
    Settle(Facebook, PostToFacebook(c.facebook.value.pageAccessToken, c.facebook.value.pageId, data, send))
  }

  function LinkedInResult(c: Credentials, data: PostData, send: LinkedInRequest -> Result<string, string>): PublishResult
    requires c.linkedin.Some?
  {
    Settle(LinkedIn, PostToLinkedIn(c.linkedin.value.accessToken, c.linkedin.value.profileId, data, send))
  }

  /** The results of `postToAllPlatforms`, as a value. */
  function PublishAll(c: Credentials, data: PostData,
                      sendFacebook: FacebookRequest -> Result<string, string>,
                      sendLinkedIn: LinkedInRequest -> Result<string, string>): seq<PublishResult>
  {
    (if AttemptsFacebook(c) then [FacebookResult(c, data, sendFacebook)] else [])
    + (if AttemptsLinkedIn(c) then [LinkedInResult(c, data, sendLinkedIn)] else [])
  }

  /** `postToAllPlatforms`: try Facebook, then LinkedIn, each only with both
      of its credentials, appending one result per attempt; a failure on one
      platform is recorded and does not stop the other. */
  method PostToAllPlatforms(c: Credentials, data: PostData,
                            sendFacebook: FacebookRequest -> Result<string, string>,
                            sendLinkedIn: LinkedInRequest -> Result<string, string>)
    returns (results: seq<PublishResult>)
    ensures results == PublishAll(c, data, sendFacebook, sendLinkedIn)
    ensures |results| == (if AttemptsFacebook(c) then 1 else 0) + (if AttemptsLinkedIn(c) then 1 else 0)
  {
    results := [];
    if AttemptsFacebook(c) {
      var fbResult := PostToFacebook(c.facebook.value.pageAccessToken, c.facebook.value.pageId, data, sendFacebook);
      match fbResult {
        case Ok(result) => results := results + [result];
        case Err(message) => results := results + [Rejected(Facebook, message)];
      }
    }
    if AttemptsLinkedIn(c) {
      var liResult := PostToLinkedIn(c.linkedin.value.accessToken, c.linkedin.value.profileId, data, sendLinkedIn);
      match liResult {
        case Ok(result) => results := results + [result];
        case Err(message) => results := results + [Rejected(LinkedIn, message)];
      }
    }
  }

  /** One result per attempted platform, Facebook first; each result
      belongs to its platform, succeeds exactly when the platform's call did,
      and a failure carries that platform's error prefix. */
  lemma PublishAllShape(c: Credentials, data: PostData,
                        sendFacebook: FacebookRequest -> Result<string, string>,
                        sendLinkedIn: LinkedInRequest -> Result<string, string>)
    ensures var rs := PublishAll(c, data, sendFacebook, sendLinkedIn);
      && |rs| <= 2
      && (AttemptsFacebook(c) ==>
            && rs[0].platform == Facebook
            && (rs[0].Published? <==> sendFacebook(FacebookRequestFor(c.facebook.value.pageAccessToken.value, c.facebook.value.pageId.value, data)).Ok?))
      && (AttemptsLinkedIn(c) ==>
            && rs[|rs| - 1].platform == LinkedIn
            && (rs[|rs| - 1].Published? <==> sendLinkedIn(LinkedInRequestFor(c.linkedin.value.accessToken.value, c.linkedin.value.profileId.value, data)).Ok?))
      && (forall i :: 0 <= i < |rs| ==> (rs[i].platform == Facebook <==> i == 0 && AttemptsFacebook(c)))
      && (forall i :: 0 <= i < |rs| && rs[i].Rejected? ==>
            Text.StartsWith(rs[i].error, if rs[i].platform == Facebook then FacebookErrorPrefix else LinkedInErrorPrefix))
  {
  }

  /** The stored accounts never carry a page access token, so publishing
      from a user's stored accounts never tries Facebook: at most the
      LinkedIn result comes back. */
  lemma StoredAccountsSkipFacebook(accounts: Models.SocialMediaAccounts, data: PostData,
                                   sendFacebook: FacebookRequest -> Result<string, string>,
                                   sendLinkedIn: LinkedInRequest -> Result<string, string>)
    ensures var rs := PublishAll(CredentialsOf(accounts), data, sendFacebook, sendLinkedIn);
      && |rs| <= 1
      && (forall i :: 0 <= i < |rs| ==> rs[i].platform == LinkedIn)
      && (|rs| == 1 <==> Text.Truthy(accounts.linkedin.accessToken) && Text.Truthy(accounts.linkedin.profileId))
  {
  }

  // ------------------------------------------------------------ engagement

  datatype EngagementCounts = EngagementCounts(likes: int, comments: int, shares: int)

  /** The counts found in a Graph API answer (`likes.summary.total_count`,
      `comments.summary.total_count`, `shares.count`), each possibly absent. */
  datatype FacebookMetrics = FacebookMetrics(likes: Option<int>, comments: Option<int>, shares: Option<int>)

  /** The counts found in a LinkedIn social-metadata answer. */
  datatype LinkedInMetrics = LinkedInMetrics(likeCount: Option<int>, commentCount: Option<int>, shareCount: Option<int>)

  /** `x || 0` on a count. */
  function CountOrZero(c: Option<int>): (n: int)
    ensures c.Some? ==> n == c.value
    ensures c.None? ==> n == 0
  {
    c.GetOr(0)
  }

  const NoEngagement: EngagementCounts := EngagementCounts(0, 0, 0)

  /** `getFacebookEngagement`: missing counts read 0, a failed call reads
      all zeros. */
  function GetFacebookEngagement(response: Result<FacebookMetrics, string>): (e: EngagementCounts)
    ensures response.Err? ==> e == NoEngagement
    ensures response.Ok? ==> e == EngagementCounts(CountOrZero(response.value.likes),
                                                    CountOrZero(response.value.comments),
                                                    CountOrZero(response.value.shares))
  {
    match response
    case Ok(m) => EngagementCounts(m.likes.GetOr(0), m.comments.GetOr(0), m.shares.GetOr(0))
    case Err(_) => NoEngagement
  }

  /** `getLinkedInEngagement`, the same for LinkedIn. */
  function GetLinkedInEngagement(response: Result<LinkedInMetrics, string>): (e: EngagementCounts)
    ensures response.Err? ==> e == NoEngagement
    ensures response.Ok? ==> e == EngagementCounts(CountOrZero(response.value.likeCount),
                                                    CountOrZero(response.value.commentCount),
                                                    CountOrZero(response.value.shareCount))
  {
    match response
    case Ok(m) => EngagementCounts(m.likeCount.GetOr(0), m.commentCount.GetOr(0), m.shareCount.GetOr(0))
    case Err(_) => NoEngagement
  }
}
