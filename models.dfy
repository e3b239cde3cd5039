/** The Post and User documents: their fields, enumerations, defaults and
    the checks the schema makes when a document is saved. Nullable strings
    are `Option<string>`, `None` standing for `null`. */
module Models {
  import opened Wrappers
  import Text

  type UserId = nat
  type PostId = nat
  /** An opaque timestamp, supplied by the caller. */
  type Time = int

  // ---------------------------------------------------------------- Post

  datatype PostStatus = Draft | Approved | Posted | Failed | Scheduled

  function StatusName(s: PostStatus): string {
    match s
    case Draft => "draft"
    case Approved => "approved"
    case Posted => "posted"
    case Failed => "failed"
    case Scheduled => "scheduled"
  }

  /** The status enumeration: a stored status string is one of five names. */
  function ParseStatus(name: string): (r: Option<PostStatus>)
    ensures r.Some? ==> StatusName(r.value) == name
    ensures r.None? ==> forall s: PostStatus :: StatusName(s) != name
  {
    if name == "draft" then Some(Draft)
    else if name == "approved" then Some(Approved)
    else if name == "posted" then Some(Posted)
    else if name == "failed" then Some(Failed)
    else if name == "scheduled" then Some(Scheduled)
    else None
  }

  datatype SocialMediaIds = SocialMediaIds(facebook: Option<string>, linkedin: Option<string>)

  datatype Engagement = Engagement(likes: int, comments: int, shares: int, views: int)

  datatype AiMetadata = AiMetadata(
    generationModel: string,
    trendingTopicsSources: seq<string>,
    confidenceScore: real,
    userNiche: Option<string>)

  datatype Post = Post(
    id: PostId,
    userId: UserId,
    caption: string,
    hashtags: seq<string>,
    trendingTopics: seq<string>,
    imagePath: Option<string>,
    imageUrl: Option<string>,
    status: PostStatus,
    generatedAt: Time,
    approvedAt: Option<Time>,
    postedAt: Option<Time>,
    socialMediaIds: SocialMediaIds,
    engagement: Engagement,
    aiMetadata: Option<AiMetadata>,
    editedCaption: Option<string>,
    editedHashtags: seq<string>,
    approvalNotes: Option<string>,
    failureReason: Option<string>,
    createdAt: Time)

  /** Nothing has happened to the post since it was created: no edit, no
      approval, no publication record and no engagement. */
  predicate Untouched(p: Post) {
    && p.approvedAt == None && p.postedAt == None
    && p.socialMediaIds == SocialMediaIds(None, None)
    && p.engagement == Engagement(0, 0, 0, 0)
    && p.editedCaption == None && p.editedHashtags == []
    && p.approvalNotes == None && p.failureReason == None
  }

  /** A post document as the schema initialises it, before the caller's
      fields are applied. */
  function NewPost(id: PostId, userId: UserId, caption: string, now: Time): (p: Post)
    ensures p.id == id && p.userId == userId && p.caption == caption
    ensures p.status == Draft && Untouched(p)
    ensures p.imagePath == None && p.imageUrl == None
    ensures p.generatedAt == now && p.createdAt == now
  {
    Post(id, userId, caption, [], [], None, None, Draft, now, None, None,
         SocialMediaIds(None, None), Engagement(0, 0, 0, 0), None,
         None, [], None, None, now)
  }

  /** Save-time validation: `caption` is required, and a required string
      rejects the empty string. */
  predicate ValidPost(p: Post) {
    p.caption != ""
  }

  // ---------------------------------------------------------------- User

  datatype NicheEntry = NicheEntry(name: Option<string>, description: Option<string>, keywords: seq<string>)

  datatype FacebookAccount = FacebookAccount(pageId: Option<string>, accessToken: Option<string>, connected: bool)

  datatype LinkedInAccount = LinkedInAccount(profileId: Option<string>, accessToken: Option<string>, connected: bool)

  datatype SocialMediaAccounts = SocialMediaAccounts(facebook: FacebookAccount, linkedin: LinkedInAccount)

  datatype Preferences = Preferences(
    autoPostingEnabled: bool,
    postingFrequency: string,
    bestTimeToPost: Option<string>,
    includeHashtags: bool,
    includeTrendingTopics: bool,
    maxHashtags: int)

  /** One entry of a user's engagement history; absent counts are `None`. */
  datatype PastPost = PastPost(likes: Option<int>, comments: Option<int>, shares: Option<int>)

  datatype User = User(
    id: UserId,
    email: string,
    password: string,
    name: string,
    niche: Option<string>,
    niches: seq<NicheEntry>,
    targetAudience: Option<string>,
    postingStyle: Option<string>,
    socialMediaAccounts: SocialMediaAccounts,
    preferences: Preferences,
    pastPosts: seq<PastPost>,
    profileCompleteness: int,
    isOnboarded: bool)

  const PostingStyles: seq<string> := ["professional", "casual", "humorous", "inspirational", "educational"]
  const PostingFrequencies: seq<string> := ["daily", "weekly", "custom"]
  const MinPasswordLength: nat := 6
  /** The schema default of `postingStyle`, applied when a document without
      the field is loaded. */
  const DefaultPostingStyle: string := "professional"

  function DefaultPreferences(): (p: Preferences)
    ensures !p.autoPostingEnabled && p.postingFrequency in PostingFrequencies
  {
    Preferences(false, "daily", Some("09:00"), true, true, 10)
  }

  /** The stored form of an email address: lower-cased and trimmed. */
  function NormalizeEmail(email: string): string {
    Text.Trim(Text.ToLower(email))
  }

  /** Save-time validation of a user document: required fields present,
      password at least six UTF-16 code units long (mongoose's `minlength`
      reads `String.prototype.length`), enumerations respected (a null
      enum value passes) and completeness within [0, 100]. */
  predicate ValidUser(u: User) {
    && u.email != ""
    && Text.Utf16Length(u.password) >= MinPasswordLength
    && u.name != ""
    && (u.postingStyle.Some? ==> u.postingStyle.value in PostingStyles)
    && u.preferences.postingFrequency in PostingFrequencies
    && 0 <= u.profileCompleteness <= 100
  }

  /** A user document as registration creates it: the given credentials and
      name, every other field at its schema default. */
  function NewUser(id: UserId, email: string, password: string, name: string): (u: User)
    ensures u.id == id && u.email == NormalizeEmail(email) && u.password == password && u.name == name
    ensures !u.isOnboarded && u.profileCompleteness == 0
    ensures u.niche == None && u.targetAudience == None && u.postingStyle == Some(DefaultPostingStyle)
    ensures !u.socialMediaAccounts.facebook.connected && !u.socialMediaAccounts.linkedin.connected
    ensures u.preferences == DefaultPreferences()
    ensures ValidUser(u) <==> NormalizeEmail(email) != "" && Text.Utf16Length(password) >= MinPasswordLength && name != ""
  {
    User(id, NormalizeEmail(email), password, name, None, [], None, Some(DefaultPostingStyle),
         SocialMediaAccounts(FacebookAccount(None, None, false), LinkedInAccount(None, None, false)),
         DefaultPreferences(), [], 0, false)
  }

  /** Three emoji outside the Basic Multilingual Plane make a password
      long enough, although they are only three characters. */
  lemma ThreeEmojiPassword()
    ensures var p := "\U{1F680}\U{1F680}\U{1F680}";
      |p| == 3 && Text.Utf16Length(p) == 6 && Text.Utf16Length(p) >= MinPasswordLength
  {
    var p := "\U{1F680}\U{1F680}\U{1F680}";
    assert p[1..][1..][1..] == [];
  }

  // ----------------------------------------------------------- Analytics

  datatype EventType = PostGenerated | PostPosted

  /** An analytics record; `platform` is set only on publication events. */
  datatype AnalyticsEvent = AnalyticsEvent(
    userId: UserId,
    postId: PostId,
    eventType: EventType,
    caption: string,
    hashtags: seq<string>,
    trendingTopics: seq<string>,
    platform: Option<string>)
}
