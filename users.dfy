/** The user controller: registration and login checks, the profile
    completeness score, and the handlers that update a profile. */
module Users {
  import opened Wrappers
  import Text
  import opened Models
  import opened Store
  import Captions

  /** An error response: status code, `message` and, for a 500, the
      message of the error caught. */
  datatype Failure = Failure(status: nat, message: string, error: Option<string>)

  const RegisterFieldsRequired: string := "Email, password, and name are required"
  const UserExists: string := "User already exists"
  const RegistrationFailed: string := "Registration failed"
  const LoginFieldsRequired: string := "Email and password are required"
  const InvalidCredentials: string := "Invalid credentials"
  const UserNotFound: string := "User not found"
  const UpdateProfileFailed: string := "Failed to update profile"
  const OnboardingFailed: string := "Failed to complete onboarding"
  const ConnectFieldsRequired: string := "Platform and access token are required"
  const InvalidPlatform: string := "Invalid platform"
  const ConnectedSuffix: string := " account connected successfully"
  /** The leading words of a save-time validation error; the rest of its
      wording is not modelled. */
  const UserValidationFailed: string := "User validation failed"

  // -------------------------------------------------------- completeness

  /** One point each for a truthy name, niche, target audience and posting
      style, and one per connected account. */
  function Points(u: User): (k: nat)
    ensures k <= 6
  {
    (if u.name != "" then 1 else 0)
    + (if Text.Truthy(u.niche) then 1 else 0)
    + (if Text.Truthy(u.targetAudience) then 1 else 0)
    + (if Text.Truthy(u.postingStyle) then 1 else 0)
    + (if u.socialMediaAccounts.facebook.connected then 1 else 0)
    + (if u.socialMediaAccounts.linkedin.connected then 1 else 0)
  }

  /** `Math.round(k / 6 * 100)`: the percentage nearest to k sixths (no
      k sits halfway between two integers). */
  function Percent(k: nat): (r: int)
    requires k <= 6
    ensures 6 * r - 3 <= 100 * k < 6 * r + 3
  {
    (100 * k + 3) / 6
  }

  /** The completeness score of a profile. */
  function ProfileCompleteness(u: User): (r: int)
    ensures 0 <= r <= 100
    ensures r in {0, 17, 33, 50, 67, 83, 100}
    ensures r == 100 <==> Points(u) == 6
    ensures r == 0 <==> Points(u) == 0
  {
    Percent(Points(u))
  }

  /** A full score means every field is filled in and both accounts are
      connected. */
  lemma FullScore(u: User)
    ensures ProfileCompleteness(u) == 100 <==>
      && u.name != "" && Text.Truthy(u.niche) && Text.Truthy(u.targetAudience) && Text.Truthy(u.postingStyle)
      && u.socialMediaAccounts.facebook.connected && u.socialMediaAccounts.linkedin.connected
  {
  }

  /** The score does not depend on the score stored in the profile. */
  lemma ScoreIgnoresStoredScore(u: User, score: int)
    ensures ProfileCompleteness(u.(profileCompleteness := score)) == ProfileCompleteness(u)
  {
    assert Points(u.(profileCompleteness := score)) == Points(u);
  }

  /** `_calculateProfileCompleteness`: count the points one by one, then
      round the percentage. */
  method CalculateProfileCompleteness(u: User) returns (r: int)
    ensures r == ProfileCompleteness(u)
  {
    var completeness := 0;
    var maxPoints := 6;
    if u.name != "" { completeness := completeness + 1; }
    if Text.Truthy(u.niche) { completeness := completeness + 1; }
    if Text.Truthy(u.targetAudience) { completeness := completeness + 1; }
    if Text.Truthy(u.postingStyle) { completeness := completeness + 1; }
    if u.socialMediaAccounts.facebook.connected { completeness := completeness + 1; }
    if u.socialMediaAccounts.linkedin.connected { completeness := completeness + 1; }
    r := (100 * completeness + maxPoints / 2) / maxPoints;
  }

  // ------------------------------------------------------------ register

  /** `register`: 400 unless email, password and name are all given; 409
      when the stored form of the email is taken; otherwise the new user
      with every default, saved if it passes validation. */
  method Register(db: Database, email: Option<string>, password: Option<string>, name: Option<string>)
    returns (r: Result<User, Failure>)
    requires db.Valid()
    modifies db
    ensures db.Valid()
    ensures db.posts == old(db.posts) && db.nextPostId == old(db.nextPostId) && db.analytics == old(db.analytics)
    ensures !Text.Truthy(email) || !Text.Truthy(password) || !Text.Truthy(name) ==>
      r == Err(Failure(400, RegisterFieldsRequired, None))
    ensures Text.Truthy(email) && Text.Truthy(password) && Text.Truthy(name) &&
            (exists id :: id in old(db.users) && old(db.users)[id].email == NormalizeEmail(email.value)) ==>
      r == Err(Failure(409, UserExists, None))
    ensures Text.Truthy(email) && Text.Truthy(password) && Text.Truthy(name) &&
            (forall id :: id in old(db.users) ==> old(db.users)[id].email != NormalizeEmail(email.value)) ==>
      var u := NewUser(old(db.nextUserId), email.value, password.value, name.value);
      if ValidUser(u) then r == Ok(u) && db.users == old(db.users)[u.id := u]
      else r == Err(Failure(500, RegistrationFailed, Some(UserValidationFailed)))
    ensures r.Err? ==> db.users == old(db.users) && db.nextUserId == old(db.nextUserId)
    ensures r.Ok? ==> db.nextUserId == old(db.nextUserId) + 1 && !r.value.isOnboarded && r.value.profileCompleteness == 0
  {
    if !Text.Truthy(email) || !Text.Truthy(password) || !Text.Truthy(name) {
      return Err(Failure(400, RegisterFieldsRequired, None));
    }
    var existing := db.FindUserByEmail(NormalizeEmail(email.value));
    if existing.Some? {
      return Err(Failure(409, UserExists, None));
    }
    var user := NewUser(db.nextUserId, email.value, password.value, name.value);
    if !ValidUser(user) {
      return Err(Failure(500, RegistrationFailed, Some(UserValidationFailed)));
    }
    var id := db.InsertUser(user);
    r := Ok(user);
  }

  // --------------------------------------------------------------- login

  /** What a successful login reports about the user. */
  datatype Session = Session(id: UserId, email: string, name: string, niche: Option<string>, isOnboarded: bool)

  /** `login`: 400 unless both email and password are given, then the same
      401 for an unknown email and for a wrong password. `matches` stands
      for comparing the password with the stored hash. */
  method Login(db: Database, email: Option<string>, password: Option<string>, matches: (string, string) -> bool)
    returns (r: Result<Session, Failure>)
    requires db.Valid()
    ensures !Text.Truthy(email) || !Text.Truthy(password) ==> r == Err(Failure(400, LoginFieldsRequired, None))
    ensures Text.Truthy(email) && Text.Truthy(password) ==>
      && (r == Err(Failure(401, InvalidCredentials, None)) <==>
            forall id :: id in db.users && db.users[id].email == NormalizeEmail(email.value) ==>
              !matches(password.value, db.users[id].password))
      && (r.Ok? <==> exists id :: id in db.users && db.users[id].email == NormalizeEmail(email.value)
                                  && matches(password.value, db.users[id].password))
    ensures r.Ok? ==> r.value.id in db.users && r.value == SessionOf(db.users[r.value.id])
    ensures r.Err? ==> r.error.status in {400, 401}
  {
    if !Text.Truthy(email) || !Text.Truthy(password) {
      return Err(Failure(400, LoginFieldsRequired, None));
    }
    var found := db.FindUserByEmail(NormalizeEmail(email.value));
    if found.None? {
      return Err(Failure(401, InvalidCredentials, None));
    }
    var user := db.users[found.value];
    if !matches(password.value, user.password) {
      return Err(Failure(401, InvalidCredentials, None));
    }
    r := Ok(SessionOf(user));
  }

  function SessionOf(u: User): Session {
    Session(u.id, u.email, u.name, u.niche, u.isOnboarded)
  }

  // ------------------------------------------------------ profile update

  /** The request's `preferences` object: a key that is not sent is
      `None`; a key sent as null is `Some(None)`. */
  datatype PreferencesPatch = PreferencesPatch(
    autoPostingEnabled: Option<bool>,
    postingFrequency: Option<string>,
    bestTimeToPost: Option<Option<string>>,
    includeHashtags: Option<bool>,
    includeTrendingTopics: Option<bool>,
    maxHashtags: Option<int>)

  /** `{ ...preferences, ...patch }`: each key sent wins. */
  function Merged(p: Preferences, patch: PreferencesPatch): (q: Preferences)
    ensures q.autoPostingEnabled == patch.autoPostingEnabled.GetOr(p.autoPostingEnabled)
    ensures q.postingFrequency == patch.postingFrequency.GetOr(p.postingFrequency)
    ensures q.bestTimeToPost == patch.bestTimeToPost.GetOr(p.bestTimeToPost)
    ensures q.includeHashtags == patch.includeHashtags.GetOr(p.includeHashtags)
    ensures q.includeTrendingTopics == patch.includeTrendingTopics.GetOr(p.includeTrendingTopics)
    ensures q.maxHashtags == patch.maxHashtags.GetOr(p.maxHashtags)
  {
    Preferences(
      patch.autoPostingEnabled.GetOr(p.autoPostingEnabled),
      patch.postingFrequency.GetOr(p.postingFrequency),
      patch.bestTimeToPost.GetOr(p.bestTimeToPost),
      patch.includeHashtags.GetOr(p.includeHashtags),
      patch.includeTrendingTopics.GetOr(p.includeTrendingTopics),
      patch.maxHashtags.GetOr(p.maxHashtags))
  }

  /** Merging the same patch twice is merging it once. */
  lemma MergeIdempotent(p: Preferences, patch: PreferencesPatch)
    ensures Merged(Merged(p, patch), patch) == Merged(p, patch)
  {
  }

  /** The profile after an update request: name, niche, audience and style
      are replaced only by truthy values, the preferences are merged, and
      the score is recomputed; nothing else changes. */
  function ProfileUpdated(u: User, name: Option<string>, niche: Option<string>, targetAudience: Option<string>,
                          postingStyle: Option<string>, preferences: Option<PreferencesPatch>): (v: User)
    ensures v.name == (if Text.Truthy(name) then name.value else u.name)
    ensures v.niche == (if Text.Truthy(niche) then niche else u.niche)
    ensures v.targetAudience == (if Text.Truthy(targetAudience) then targetAudience else u.targetAudience)
    ensures v.postingStyle == (if Text.Truthy(postingStyle) then postingStyle else u.postingStyle)
    ensures v.preferences == (if preferences.Some? then Merged(u.preferences, preferences.value) else u.preferences)
    ensures v.profileCompleteness == ProfileCompleteness(v)
    ensures v.id == u.id && v.email == u.email && v.password == u.password && v.niches == u.niches
    ensures v.socialMediaAccounts == u.socialMediaAccounts && v.pastPosts == u.pastPosts && v.isOnboarded == u.isOnboarded
  {
    var v := u.(
      name := if Text.Truthy(name) then name.value else u.name,
      niche := if Text.Truthy(niche) then niche else u.niche,
      targetAudience := if Text.Truthy(targetAudience) then targetAudience else u.targetAudience,
      postingStyle := if Text.Truthy(postingStyle) then postingStyle else u.postingStyle,
      preferences := if preferences.Some? then Merged(u.preferences, preferences.value) else u.preferences);
    ScoreIgnoresStoredScore(v, ProfileCompleteness(v));
    v.(profileCompleteness := ProfileCompleteness(v))
  }

  /** An update is refused at save time exactly when it brings in a style
      or a posting frequency outside their enumerations. */
  lemma UpdateValidity(u: User, name: Option<string>, niche: Option<string>, targetAudience: Option<string>,
                       postingStyle: Option<string>, preferences: Option<PreferencesPatch>)
    requires ValidUser(u)
    ensures var v := ProfileUpdated(u, name, niche, targetAudience, postingStyle, preferences);
      ValidUser(v) <==> (v.postingStyle.Some? ==> v.postingStyle.value in PostingStyles)
                        && v.preferences.postingFrequency in PostingFrequencies
  {
  }

  /** `updateProfile`: 404 for an unknown user; otherwise apply the update
      field by field, recompute the score and save, refusing a document
      that fails validation. */
  method UpdateProfile(db: Database, userId: UserId, name: Option<string>, niche: Option<string>,
                       targetAudience: Option<string>, postingStyle: Option<string>,
                       preferences: Option<PreferencesPatch>)
    returns (r: Result<User, Failure>)
    requires db.Valid()
    modifies db
    ensures db.Valid()
    ensures db.nextUserId == old(db.nextUserId) && db.posts == old(db.posts)
    ensures db.nextPostId == old(db.nextPostId) && db.analytics == old(db.analytics)
    ensures userId !in old(db.users) ==> r == Err(Failure(404, UserNotFound, None)) && db.users == old(db.users)
    ensures userId in old(db.users) ==>
      var v := ProfileUpdated(old(db.users)[userId], name, niche, targetAudience, postingStyle, preferences);
      if ValidUser(v) then r == Ok(v) && db.users == old(db.users)[userId := v]
      else r == Err(Failure(500, UpdateProfileFailed, Some(UserValidationFailed))) && db.users == old(db.users)
  {
    if userId !in db.users {
      return Err(Failure(404, UserNotFound, None));
    }
    var user := db.users[userId];
    ghost var start := user;
    if Text.Truthy(name) { user := user.(name := name.value); }
    if Text.Truthy(niche) { user := user.(niche := niche); }
    if Text.Truthy(targetAudience) { user := user.(targetAudience := targetAudience); }
    if Text.Truthy(postingStyle) { user := user.(postingStyle := postingStyle); }
    if preferences.Some? { user := user.(preferences := Merged(user.preferences, preferences.value)); }
    assert user.(profileCompleteness := ProfileCompleteness(user))
        == ProfileUpdated(start, name, niche, targetAudience, postingStyle, preferences);
    var score := CalculateProfileCompleteness(user);
    user := user.(profileCompleteness := score);
    if !ValidUser(user) {
      return Err(Failure(500, UpdateProfileFailed, Some(UserValidationFailed)));
    }
    db.SaveUser(user);
    r := Ok(user);
  }

  // ---------------------------------------------------------- onboarding

  /** The profile after onboarding: niche and audience take the request's
      values even when absent, niches only when given, and the user counts
      as onboarded with a full score, whatever the profile holds. A style
      sent as a value or as null is stored as sent; an omitted one assigns
      `undefined`, which the save unsets, so every later load reads the
      schema default. */
  function Onboarded(u: User, niche: Option<string>, targetAudience: Option<string>, postingStyle: Arg<string>,
                     niches: Option<seq<NicheEntry>>): (v: User)
    ensures v.niche == niche && v.targetAudience == targetAudience
    ensures postingStyle.Given? ==> v.postingStyle == Some(postingStyle.value)
    ensures postingStyle.Null? ==> v.postingStyle == None
    ensures postingStyle.Undefined? ==> v.postingStyle == Some(DefaultPostingStyle)
    ensures v.niches == (if niches.Some? then niches.value else u.niches)
    ensures v.isOnboarded && v.profileCompleteness == 100
    ensures v.id == u.id && v.email == u.email && v.password == u.password && v.name == u.name
    ensures v.socialMediaAccounts == u.socialMediaAccounts && v.preferences == u.preferences && v.pastPosts == u.pastPosts
  {
    u.(niche := niche, targetAudience := targetAudience, postingStyle := postingStyle.Defaulted(DefaultPostingStyle),
       niches := if niches.Some? then niches.value else u.niches,
       isOnboarded := true, profileCompleteness := 100)
  }

  /** The stored score after onboarding can exceed what the profile earns:
      a profile with no connected account is scored 100 although it
      earns at most 67. */
  lemma OnboardingOverstates(u: User, niche: Option<string>, targetAudience: Option<string>, postingStyle: Arg<string>,
                             niches: Option<seq<NicheEntry>>)
    requires !u.socialMediaAccounts.facebook.connected && !u.socialMediaAccounts.linkedin.connected
    ensures var v := Onboarded(u, niche, targetAudience, postingStyle, niches);
      v.profileCompleteness == 100 && ProfileCompleteness(v) <= 67
  {
  }

  /** `completeOnboarding`: 404 for an unknown user; otherwise assign and
      save, refusing a style outside the enumeration. The stored and
      returned user is the document as it is loaded again. */
  method CompleteOnboarding(db: Database, userId: UserId, niche: Option<string>, targetAudience: Option<string>,
                            postingStyle: Arg<string>, niches: Option<seq<NicheEntry>>)
    returns (r: Result<User, Failure>)
    requires db.Valid()
    modifies db
    ensures db.Valid()
    ensures db.nextUserId == old(db.nextUserId) && db.posts == old(db.posts)
    ensures db.nextPostId == old(db.nextPostId) && db.analytics == old(db.analytics)
    ensures userId !in old(db.users) ==> r == Err(Failure(404, UserNotFound, None)) && db.users == old(db.users)
    ensures userId in old(db.users) ==>
      var v := Onboarded(old(db.users)[userId], niche, targetAudience, postingStyle, niches);
      if ValidUser(v) then r == Ok(v) && db.users == old(db.users)[userId := v]
      else r == Err(Failure(500, OnboardingFailed, Some(UserValidationFailed))) && db.users == old(db.users)
  {
    if userId !in db.users {
      return Err(Failure(404, UserNotFound, None));
    }
    var user := db.users[userId];
    user := user.(niche := niche);
    user := user.(targetAudience := targetAudience);
    user := user.(postingStyle := postingStyle.Defaulted(DefaultPostingStyle));
    if niches.Some? { user := user.(niches := niches.value); }
    user := user.(isOnboarded := true);
    user := user.(profileCompleteness := 100);
    if !ValidUser(user) {
      return Err(Failure(500, OnboardingFailed, Some(UserValidationFailed)));
    }
    db.SaveUser(user);
    r := Ok(user);
  }

  // -------------------------------------------------------------- social

  /** The accounts after connecting a platform: the named platform's
      account is replaced by the request's ids and token, marked
      connected; `None` for a platform that is neither. */
  function Connected(a: SocialMediaAccounts, platform: string, pageId: Option<string>, accessToken: string,
                     profileId: Option<string>): (b: Option<SocialMediaAccounts>)
    ensures b.Some? <==> platform in {"facebook", "linkedin"}
    ensures platform == "facebook" ==>
      b == Some(a.(facebook := FacebookAccount(pageId, Some(accessToken), true)))
    ensures platform == "linkedin" ==>
      b == Some(a.(linkedin := LinkedInAccount(profileId, Some(accessToken), true)))
  {
    if platform == "facebook" then Some(a.(facebook := FacebookAccount(pageId, Some(accessToken), true)))
    else if platform == "linkedin" then Some(a.(linkedin := LinkedInAccount(profileId, Some(accessToken), true)))
    else None
  }

  /** `connectSocialMedia`: 400 unless platform and token are given,
      checked before the lookup; 404 for an unknown user; 400 for a
      platform that is neither Facebook nor LinkedIn; otherwise the account
      is stored. The score is not recomputed. */
  method ConnectSocialMedia(db: Database, userId: UserId, platform: Option<string>, pageId: Option<string>,
                            accessToken: Option<string>, profileId: Option<string>)
    returns (r: Result<string, Failure>)
    requires db.Valid()
    modifies db
    ensures db.Valid()
    ensures db.nextUserId == old(db.nextUserId) && db.posts == old(db.posts)
    ensures db.nextPostId == old(db.nextPostId) && db.analytics == old(db.analytics)
    ensures !Text.Truthy(platform) || !Text.Truthy(accessToken) ==>
      r == Err(Failure(400, ConnectFieldsRequired, None))
    ensures Text.Truthy(platform) && Text.Truthy(accessToken) && userId !in old(db.users) ==>
      r == Err(Failure(404, UserNotFound, None))
    ensures Text.Truthy(platform) && Text.Truthy(accessToken) && userId in old(db.users) ==>
      var u := old(db.users)[userId];
      match Connected(u.socialMediaAccounts, platform.value, pageId, accessToken.value, profileId)
      case None => r == Err(Failure(400, InvalidPlatform, None))
      case Some(accounts) =>
        && r == Ok(platform.value + ConnectedSuffix)
        && db.users == old(db.users)[userId := u.(socialMediaAccounts := accounts)]
    ensures r.Err? ==> db.users == old(db.users)
  {
    if !Text.Truthy(platform) || !Text.Truthy(accessToken) {
      return Err(Failure(400, ConnectFieldsRequired, None));
    }
    if userId !in db.users {
      return Err(Failure(404, UserNotFound, None));
    }
    var user := db.users[userId];
    if platform.value == "facebook" {
      user := user.(socialMediaAccounts := user.socialMediaAccounts.(
        facebook := FacebookAccount(pageId, accessToken, true)));
    } else if platform.value == "linkedin" {
      user := user.(socialMediaAccounts := user.socialMediaAccounts.(
        linkedin := LinkedInAccount(profileId, accessToken, true)));
    } else {
      return Err(Failure(400, InvalidPlatform, None));
    }
    db.SaveUser(user);
    r := Ok(platform.value + ConnectedSuffix);
  }

  // ----------------------------------------------------------- profiling

  /** `getProfilingQuestions`: 404 for an unknown user; otherwise the
      questions from the completion service's answer, none on failure. */
  function GetProfilingQuestions(db: Database, userId: UserId, answer: Result<Option<seq<string>>, string>)
    : (r: Result<seq<string>, Failure>)
    reads db
    ensures userId !in db.users <==> r == Err(Failure(404, UserNotFound, None))
    ensures userId in db.users ==> r == Ok(Captions.GenerateProfilingQuestions(answer))
  {
    if userId !in db.users then Err(Failure(404, UserNotFound, None))
    else Ok(Captions.GenerateProfilingQuestions(answer))
  }

  /** `updateProfilingAnswers`: 404 for an unknown user; otherwise replace
      the niches when given, recompute the score and save. The answers
      themselves are not stored. */
  method UpdateProfilingAnswers(db: Database, userId: UserId, niches: Option<seq<NicheEntry>>)
    returns (r: Result<User, Failure>)
    requires db.Valid()
    modifies db
    ensures db.Valid()
    ensures db.nextUserId == old(db.nextUserId) && db.posts == old(db.posts)
    ensures db.nextPostId == old(db.nextPostId) && db.analytics == old(db.analytics)
    ensures userId !in old(db.users) ==> r == Err(Failure(404, UserNotFound, None)) && db.users == old(db.users)
    ensures userId in old(db.users) ==>
      var u := old(db.users)[userId];
      var w := u.(niches := if niches.Some? then niches.value else u.niches);
      var v := w.(profileCompleteness := ProfileCompleteness(w));
      r == Ok(v) && db.users == old(db.users)[userId := v]
  {
    if userId !in db.users {
      return Err(Failure(404, UserNotFound, None));
    }
    var user := db.users[userId];
    if niches.Some? {
      user := user.(niches := niches.value);
    }
    var score := CalculateProfileCompleteness(user);
    user := user.(profileCompleteness := score);
    db.SaveUser(user);
    r := Ok(user);
  }
}
