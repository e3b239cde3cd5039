# Social media post automation: a Dafny model of the server core

The system drafts social media posts for a user and publishes them. A draft
is built from trending topics for the user's niche, a caption from a
language model and an image from a local pool. After the user edits and
approves it, the draft goes to Facebook and LinkedIn. Around this sit:

- the account bookkeeping (register, login, profile, onboarding,
  social-account connection, a profile-completeness score);
- a per-user scheduler that drafts a post once a day.

This project models the post controller, the user controller, the
trending, caption, image, publishing and scheduling services, and the Post
and User documents. Each source file becomes one module:

| module | models |
|---|---|
| `Models` | `server/models/Post.js`, `server/models/User.js`: records, enumerations, defaults, save-time validation |
| `Store` | the Mongo collections the controllers use, as a class `Database` with `users` and `posts` maps, id counters and an append-only analytics log |
| `Trending` | `server/services/trendingService.js` |
| `Captions` | `server/services/aiService.js` |
| `Images` | `server/services/imageService.js`; the image directory is a class whose listing is a `seq` of names in code-point order |
| `Publisher` | `server/services/socialMediaService.js` |
| `Scheduler` | `server/services/schedulerService.js`; the job `Map` is a class with a `map` and its insertion order |
| `Posts` | `server/controllers/postController.js` |
| `Users` | `server/controllers/userController.js` |

`Wrappers`, `Text`, `Seqs` and `Sorting` are helpers:

- `Option` and `Result`, JavaScript default arguments, and the JavaScript
  string operations used here (ASCII case folding, `\s`, `split`, `trim`,
  `includes`, a subset of `Number()`, `length` in UTF-16 code units, and
  the code-point order of names);
- `Remove` on distinct sequences;
- a stable sort by a descending key (`Array.prototype.sort` is stable).

What the outside world answers is passed in as a parameter:

- `complete` is the language model's parsed reply, or its error;
- `sendFacebook` and `sendLinkedIn` are the platform APIs' post id, or
  their error;
- `matches` is bcrypt's password comparison;
- `accepts` is the cron library's validation of an expression;
- `probe` and `resizeFailure` are the `sharp` library's outcomes;
- `now` is the clock.

Each handler returns either its JSON body as a value or a `Failure(status,
message, error)`.

Floating-point quantities become exact ones:

- a relevance score is an integer number of tenths, `min(3 + 5k, 10)`;
- `Math.round` of an average is the nearest integer with halves rounded
  up (`RoundedMean`);
- completeness is `round(100k/6)`, computed as `(100k + 3) / 6`.

The model follows the code as written, including these behaviours:

- `approveAndPost` publishes `editedHashtags || hashtags`. `editedHashtags`
  is an array that defaults to `[]`, so it is always truthy and a draft
  whose hashtags were never edited is published without hashtags
  (`Posts.UneditedPublishesCaptionOnly`).
- `postToAllPlatforms` gates Facebook on `pageAccessToken`, which the user
  document never stores. Publishing from stored accounts therefore never
  attempts Facebook (`Publisher.StoredAccountsSkipFacebook`).
- After publishing, `failureReason` is the error of the last failing
  result, because each failure overwrites it (`Posts.LastFailureWins`).
  A publish with no result at all leaves the post `posted`.
- `getTrendingTopics` with a `null` niche throws inside its own `try`, so
  it returns no topics. An `undefined` niche takes the default
  `'general'`. A niche that names an inherited property of
  `Object.prototype` (such as `"constructor"`) makes the table lookup
  return a function, so the spread throws and the result is empty
  (`Trending.NoTopicsIffInherited`); in the keyword table the same lookup
  makes `forEach` throw, and `analyzeRelevance` returns `[]`.
- `_convertTimeToExpression` only falls back to `'0 9 * * *'` when it
  throws, which happens for a `null` time. A malformed string such as
  `"abc"` becomes `"undefined NaN * * *"` (`Scheduler.ConvertMalformed`).
- `completeOnboarding` stores completeness 100 without computing it. That
  overstates the score of a user with no connected account
  (`Users.OnboardingOverstates`).
- `connectSocialMedia` does not recompute completeness.
- Email addresses are stored lower-cased and trimmed, and Mongo queries on
  `email` apply the same setter. So `register` and `login` compare
  `NormalizeEmail(email)` with the stored address.

## Model

| member | source | states |
|---|---|---|
| Models.ParseStatus | server/models/Post.js:24-28 | a status string is accepted exactly when it is one of the five status names, and it parses back to the status that prints as it |
| Models.NewPost | server/models/Post.js:5-67 | a new post is a draft with no image, no edit, no approval or publication dates, no external ids, zero engagement and no failure reason |
| Models.ThreeEmojiPassword | server/models/User.js:13-17 | a password of three emoji outside the Basic Multilingual Plane is three characters but six code units, so it is long enough |
| Models.DefaultPreferences | server/models/User.js:55-62 | auto-posting starts off and the posting frequency starts at one of the allowed values |
| Models.NewUser | server/models/User.js:6-82 | a registered user has the normalised email, the given password and name, every other field at its default (not onboarded, completeness 0, professional style, nothing connected), and passes validation exactly when the email is non-empty after normalising, the password has at least six UTF-16 code units and the name is non-empty |
| Store.InIdOrder | server/services/schedulerService.js:122 | listing a collection returns only stored documents and every stored document, at most one per allocated id |
| Store.Database.FindUserByEmail | server/controllers/userController.js:24 | the lookup finds a user with exactly that email, or reports that no stored user has it |
| Store.Database.InsertUser | server/controllers/userController.js:30-38 | saving a new user stores it under a fresh id and changes nothing else |
| Store.Database.SaveUser | server/controllers/userController.js:154 | saving a valid user replaces that one document and changes nothing else |
| Store.Database.InsertPost | server/controllers/postController.js:49-65 | saving a new post stores it under a fresh id and changes nothing else |
| Store.Database.SavePost | server/controllers/postController.js:181 | saving a valid post replaces that one document and changes nothing else |
| Store.Database.DeletePost | server/controllers/postController.js:299 | deleting removes exactly that post id and changes nothing else |
| Store.Database.Log | server/controllers/postController.js:68-77 | an analytics event is appended to the log and nothing else changes |
| Trending.TablesDistinct | server/services/trendingService.js:50-96 | each of the five topic tables holds seven distinct topics |
| Trending.NicheTopics | server/services/trendingService.js:98 | the lookup fails exactly for an inherited key, and a niche not in the tables gets the general topics |
| Trending.NicheTopicsFound | server/services/trendingService.js:50-98 | a niche whose lower-cased form is one of the five table names gets exactly that table |
| Trending.NicheTopicsIgnoresCase | server/services/trendingService.js:98 | a niche and its lower-cased form get the same topics |
| Trending.TechInAnyCase | server/services/trendingService.js:50-98 | "Tech" and "TECH" both get the tech table |
| Trending.NicheTopicsShape | server/services/trendingService.js:50-98 | whenever the niche lookup succeeds it gives seven distinct topics |
| Trending.NoTopicsIffInherited | server/services/trendingService.js:98 | the niche lookup fails exactly when the lower-cased niche names an inherited property of a plain object |
| Trending.KeywordTopics | server/services/trendingService.js:105-110 | the keyword topics are the first five keywords (or all of them, if fewer), each followed by " trends", in order |
| Trending.Dedup | server/services/trendingService.js:36 | de-duplication leaves no repeats and keeps exactly the elements of its input |
| Trending.TrendingTopics | server/services/trendingService.js:23-43 | the topics have no repeats and number at most ten, and a null niche gives none |
| Trending.GetTrendingTopics | server/services/trendingService.js:23-43 | the pushes into the topic list, de-duplication and truncation give the topics the specification function describes |
| Trending.TrendingTopicsMembers | server/services/trendingService.js:25-36 | every topic returned comes from the niche table or the keyword topics, and when the distinct candidates number at most ten, every candidate is returned |
| Trending.NicheTableFirst | server/services/trendingService.js:25-36 | for a niche whose lookup succeeds, the result begins with that niche's full table, followed by at most the keyword topics |
| Trending.UnknownNicheIsGeneral | server/services/trendingService.js:98 | a niche missing from the tables gives the same topics as the niche "general" |
| Trending.GeneralTopicsOfGeneral | server/services/trendingService.js:94-98 | the niche "general" looks up the general table |
| Trending.Matches | server/services/trendingService.js:143-148 | the number of matching keywords is never more than the number of keywords |
| Trending.ScoreOf | server/services/trendingService.js:138-154 | the relevance score lies between 3 and 10 tenths, and it is exactly 3 when no keyword matches |
| Trending.CalculateRelevanceScore | server/services/trendingService.js:138-169 | the accumulating loop computes the score for the niche's keywords; it fails only when the keyword lookup throws, and a niche without keywords scores 3 |
| Trending.UnknownNicheBaseScore | server/services/trendingService.js:151-168 | a niche missing from the keyword table has no keywords and scores the base 3 |
| Trending.ScoreAll | server/services/trendingService.js:121-124 | each topic is paired with its own score, in input order |
| Trending.AnalyzeRelevance | server/services/trendingService.js:118-132 | a null niche or an inherited keyword entry gives no topics; otherwise every topic appears once with its score, and the list is ordered by non-increasing score |
| Trending.AnalyzeRelevanceSorted | server/services/trendingService.js:118-132 | for a usable niche the result is a permutation of the scored topics, ordered by non-increasing score, with topics of equal score in input order |
| Trending.GetTrendingHashtags | server/services/trendingService.js:176-192 | "#trending" and "#viral" are always present and last; the tag from the topic with spaces removed and the tag from its first word are present exactly when they are longer than two UTF-16 code units; every tag starts with "#" |
| Trending.FilterFour | server/services/trendingService.js:187 | the filter keeps each of four tags exactly when it is longer than two code units, in order |
| Trending.EmojiTagKept | server/services/trendingService.js:187 | "#" and one emoji outside the Basic Multilingual Plane is two characters but three code units, so the filter keeps it |
| Sorting.SortDesc | server/services/trendingService.js:127 | sorting is a permutation of its input |
| Sorting.SortDescOrdered | server/services/trendingService.js:127 | the sorted sequence is ordered by non-increasing key |
| Sorting.SortDescStable | server/services/trendingService.js:127 | elements with the same key keep their relative order |
| Captions.RoundedMean | server/services/aiService.js:146-148 | the mean is rounded to the nearest integer, halves up |
| Captions.CalculateAverageEngagement | server/services/aiService.js:133-150 | there is no average for an empty history; otherwise each average is the rounded mean of that count over the history, a missing count counting as 0 |
| Captions.AverageOfUniformHistory | server/services/aiService.js:136-149 | a history whose posts all have the same counts (such as a single post) averages to those counts |
| Captions.PromptLinesShape | server/services/aiService.js:100-124 | the niche, posting style and target audience lines always come first, in that order; the image, topics and engagement lines appear exactly when their inputs are non-empty, and the engagement line is the last |
| Captions.PromptBodyIsLines | server/services/aiService.js:101-116 | the appended context is the concatenation of those lines |
| Captions.BuildPrompt | server/services/aiService.js:92-127 | the prompt is the fixed opening, the context lines and the fixed JSON instruction |
| Captions.AppendContext | server/services/aiService.js:101-116 | the successive appends add exactly the context lines to the prompt |
| Captions.WithDefaults | server/services/aiService.js:76-81 | the caption passes through; missing hashtags and topics become empty lists; a missing or zero confidence becomes the default, and a non-zero confidence is kept |
| Captions.GenerateCaption | server/services/aiService.js:25-86 | missing options take their defaults; a null topic list or history fails on its length; a reply becomes the defaulted caption and any error becomes "Failed to generate caption: " and its message |
| Captions.GenerateProfilingQuestions | server/services/aiService.js:155-197 | the questions are the reply's `questions`, or none when they are absent or the call fails |
| Images.ExtName | server/services/imageService.js:31 | the extension is empty or starts at the last dot, has no other dot and is a proper suffix of the name |
| Images.ExtNameOfDotted | server/services/imageService.js:31 | a name with a stem and a dot has the part from the last dot as its extension |
| Images.NoExtension | server/services/imageService.js:31 | a name without a dot, or whose only dot is its first character, has no extension |
| Images.ImageFileIff | server/services/imageService.js:28-31 | a file counts as an image exactly when its lower-cased extension is one of the five image extensions |
| Images.InfoFor | server/services/imageService.js:32-36 | the image record carries the file's own name |
| Images.ImageNames | server/services/imageService.js:30-31 | exactly the image files of the listing are kept |
| Images.ImageNamesAppend | server/services/imageService.js:30-31 | the filter keeps listing order: filtering a concatenation is concatenating the filtered parts |
| Images.ImagesIn | server/services/imageService.js:30-36 | each kept file becomes its image record, in listing order |
| Images.FirstImage | server/services/imageService.js:56-69 | there is no image exactly when the pool is empty; otherwise it is the first image file of the listing |
| Images.SortedDistinct | server/services/imageService.js:28 | a listing in strict code-point order names each file once |
| Images.AddListed | server/services/imageService.js:92-96 | the listing after storing a file holds the old names and the new one |
| Images.AddListedSorted | server/services/imageService.js:92-96 | storing a file keeps the listing in code-point order; a new name adds exactly one entry, an existing one leaves the listing as it was |
| Images.RemoveSorted | server/services/imageService.js:127 | deleting a file keeps the listing in code-point order |
| Images.UploadListedFirst | server/services/imageService.js:56-63 | "1700000000000_cat.jpg" is listed before "beach.png", so it becomes the first image |
| Images.ImageDirectory.constructor | server/services/imageService.js:11-14 | the service starts with the given directory and a listing in code-point order |
| Images.ImageDirectory.GetAvailableImages | server/services/imageService.js:20-43 | a missing directory is created and gives no images; otherwise the listing's images are returned and no file changes |
| Images.ImageDirectory.SelectImageForCaption | server/services/imageService.js:52-74 | the choice is the first image of the pool, whatever the caption and keywords |
| Images.ImageDirectory.UploadImage | server/services/imageService.js:81-112 | no file fails with "No file provided"; otherwise the file is stored under "timestamp_originalname", at its place in the code-point order of the listing (once, even when the name existed), and the result names it, or the resize error is reported |
| Images.ImageDirectory.DeleteImage | server/services/imageService.js:119-133 | the result is true exactly when the file existed, and the file is gone afterwards |
| Images.ImageDirectory.GetImageMetadata | server/services/imageService.js:140-161 | metadata is returned exactly when the file exists and can be probed, and then it carries the probed values |
| Images.UploadThenDelete | server/services/imageService.js:96-127 | deleting a file just uploaded leaves the listing as deleting it before the upload would |
| Publisher.FacebookRequestFor | server/services/socialMediaService.js:26-36 | the Graph request posts the caption to the page feed with the page token, and sets picture and link together |
| Publisher.LinkedInRequestFor | server/services/socialMediaService.js:71-98 | the LinkedIn request is authored by the person URN, published and public, and carries one media entry exactly when there is an image URL |
| Publisher.PostToFacebook | server/services/socialMediaService.js:18-50 | missing credentials fail as not configured; a reply gives the post id and its public URL; every error carries the Facebook prefix |
| Publisher.PostToLinkedIn | server/services/socialMediaService.js:61-118 | missing credentials fail as not configured; a reply gives the post id and its public URL; every error carries the LinkedIn prefix |
| Publisher.PostToAllPlatforms | server/services/socialMediaService.js:126-171 | the loop of appends gives the fan-out result, with one entry for each attempted platform |
| Publisher.PublishAllShape | server/services/socialMediaService.js:128-166 | no more than two results; Facebook first when it is attempted and LinkedIn last; each result succeeds exactly when its platform's call succeeds; each failure carries its platform's prefix |
| Publisher.StoredAccountsSkipFacebook | server/services/socialMediaService.js:131-149 | from the accounts the user document stores, only LinkedIn is ever attempted, and it is attempted exactly when its token and profile id are set |
| Publisher.CountOrZero | server/services/socialMediaService.js:190-194 | a missing count reads as 0 |
| Publisher.GetFacebookEngagement | server/services/socialMediaService.js:179-199 | any error gives zero engagement; otherwise each count is read, missing counts as 0 |
| Publisher.GetLinkedInEngagement | server/services/socialMediaService.js:207-227 | any error gives zero engagement; otherwise each count is read, missing counts as 0 |
| Scheduler.Started | server/services/schedulerService.js:23-39 | starting gives a user a job exactly when they had one or the expression is accepted; an existing job or a refused expression changes nothing; other users' jobs are untouched |
| Scheduler.Stopped | server/services/schedulerService.js:45-56 | stopping removes the user's job if present and touches no other user's job |
| Scheduler.StartTwice | server/services/schedulerService.js:25-28 | a second start leaves the job of the first |
| Scheduler.StartThenStop | server/services/schedulerService.js:25-56 | starting a new job and stopping it gives back the registry |
| Scheduler.StopTwice | server/services/schedulerService.js:45-56 | stopping twice is stopping once |
| Scheduler.ConvertTimeToExpression | server/services/schedulerService.js:139-147 | a null time throws and gives the default expression |
| Scheduler.ConvertDigits | server/services/schedulerService.js:141-142 | "H:M" in digits becomes the minutes, then the hours, each printed without leading zeros |
| Scheduler.ConvertNineOhFive | server/services/schedulerService.js:141-142 | "09:05" becomes "5 9 * * *" |
| Scheduler.ConvertMalformed | server/services/schedulerService.js:139-147 | "abc" becomes "undefined NaN * * *" and does not get the default |
| Scheduler.AutoPostingUsers | server/services/schedulerService.js:122 | the query returns exactly the users with auto-posting enabled |
| Scheduler.StartedAll | server/services/schedulerService.js:124-127 | starting every user's job in turn keeps the registry well formed |
| Scheduler.StartedAllCovers | server/services/schedulerService.js:120-133 | the running jobs are kept, every user whose expression is accepted has a job afterwards, and no job is added for anyone else |
| Scheduler.SchedulerService.constructor | server/services/schedulerService.js:14-16 | the service starts with no jobs |
| Scheduler.SchedulerService.StartScheduler | server/services/schedulerService.js:23-39 | the registry becomes the started registry, with the default expression when none is given |
| Scheduler.SchedulerService.StopScheduler | server/services/schedulerService.js:45-56 | the registry becomes the stopped registry |
| Scheduler.SchedulerService.GetSchedulerStatus | server/services/schedulerService.js:152-159 | the user is running exactly when they have a job, and the total is the number of jobs |
| Scheduler.SchedulerService.GetAllSchedulers | server/services/schedulerService.js:164-169 | each job is listed once, running, in the order the jobs were started, and the list has one entry per job |
| Scheduler.SchedulerService.StartAllSchedulers | server/services/schedulerService.js:120-133 | the loop starts the auto-posting users' jobs in store order at their converted posting times |
| Scheduler.GenerateDailyPost | server/services/schedulerService.js:62-114 | a missing user or one with auto-posting off gets nothing; otherwise the draft is saved when the pipeline succeeds and nothing is saved when it fails; users and analytics never change |
| Posts.ProfileKeywords | server/controllers/postController.js:30 | the keywords are those of all the user's niches |
| Posts.ProfileKeywordsOne | server/controllers/postController.js:30 | one niche contributes its keywords in their own order |
| Posts.ProfileKeywordsAppend | server/controllers/postController.js:30 | the keywords of two lists of niches are those of the first followed by those of the second, so the keywords come niche by niche in profile order |
| Posts.Nullable | server/controllers/postController.js:29 | a stored nullable field is passed as null or a value, never as undefined |
| Posts.DraftOutcome | server/controllers/postController.js:28-63 | a caption error is the outcome; an empty caption fails validation; otherwise the draft has the generated caption, hashtags and topics, status draft, the fixed model name with the fetched topics and the user's niche, and image fields exactly when the pool has an image |
| Posts.BuildDraft | server/controllers/postController.js:28-63 | fetching topics, generating a caption and picking an image give the draft outcome, before anything is saved |
| Posts.CreateDraft | server/controllers/postController.js:28-65 | the draft is saved under a fresh id when the pipeline succeeds, and nothing is saved when it fails |
| Posts.GeneratePost | server/controllers/postController.js:18-88 | an unknown user gives 404 and changes nothing; a failed pipeline gives 500 and saves nothing; success saves the draft and logs one generated event |
| Posts.Filtered | server/controllers/postController.js:98-101 | exactly the posts of this user with the requested status are kept, and "all" keeps every status |
| Posts.Window | server/controllers/postController.js:103-106 | skip is applied before limit; a limit of 0 takes all the rest and a negative limit counts as its size |
| Posts.GetUserPosts | server/controllers/postController.js:93-121 | a negative skip gives 500; otherwise the page is the newest-first page of this user's matching stored posts after skip and limit, and the total counts all matches |
| Posts.NewestFirstPage | server/controllers/postController.js:103-106 | the page is the skip-then-limit window of the matches sorted newest first (a stable permutation, ties in id order); so it is newest first, drawn from the matches, at most the limit long, and starts after the skipped ones |
| Posts.GetPost | server/controllers/postController.js:126-146 | a missing post gives 404, another user's post 403, otherwise the stored post |
| Posts.CheckDraft | server/controllers/postController.js:159-169 | the checks run in the order missing (404), not the owner's (403), not a draft (400); the draft passes exactly when it exists, is the owner's and is a draft |
| Posts.Edited | server/controllers/postController.js:171-179 | only a truthy caption or notes, or a given hashtag list, overwrite the edit fields; nothing else changes |
| Posts.EditIdempotent | server/controllers/postController.js:171-179 | applying the same edit twice is applying it once |
| Posts.UpdatePost | server/controllers/postController.js:151-188 | a failed check returns its error and saves nothing; otherwise the edited post is saved and returned |
| Posts.PublishedCaption | server/controllers/postController.js:215 | a truthy edited caption is published, otherwise the original caption |
| Posts.FormattedCaption | server/controllers/postController.js:214-221 | the published text is the chosen caption, then a blank line, then the edited hashtags joined by spaces; with no edited hashtags it is the caption and the blank line alone |
| Posts.UneditedPublishesCaptionOnly | server/controllers/postController.js:214-221 | a draft nobody edited is published as its caption and a blank line, without hashtags |
| Posts.EditedIsPublished | server/controllers/postController.js:214-221 | after an edit with a non-empty caption, the edited caption and hashtags are what is published |
| Posts.ApplyResults | server/controllers/postController.js:238-249 | folding the results changes only status, failure reason and external ids; with no failure status and reason stay; any failure leaves the post failed |
| Posts.LastFailureWins | server/controllers/postController.js:245-247 | the failure reason is the error of the last failing result |
| Posts.UnpublishedSlotKept | server/controllers/postController.js:239-244 | a platform with no successful result keeps its stored id |
| Posts.LastSuccessStored | server/controllers/postController.js:239-244 | a platform's stored id is that of its last successful result |
| Posts.Approved | server/controllers/postController.js:233-249 | approval sets both dates, and the post is posted exactly when every result succeeded (also with no results), else failed |
| Posts.ApproveAndPost | server/controllers/postController.js:193-275 | a failed check returns its error and changes nothing; a missing user gives 500; otherwise the formatted caption and image go to the stored accounts, the folded post is saved and one posted event is logged |
| Posts.DeletePost | server/controllers/postController.js:280-306 | a failed check returns its error and deletes nothing; otherwise exactly that post is deleted |
| Posts.EventsOf | server/controllers/postController.js:315 | exactly this user's events are selected |
| Posts.GetPostAnalytics | server/controllers/postController.js:311-322 | the user's events, newest first, at most 100 |
| Users.Points | server/controllers/userController.js:311-319 | at most six points are counted |
| Users.Percent | server/controllers/userController.js:321 | the percentage is the nearest integer to 100k/6 |
| Users.ProfileCompleteness | server/controllers/userController.js:310-322 | the score lies in 0..100 and is one of 0, 17, 33, 50, 67, 83 and 100; it is 100 exactly when all six points hold and 0 exactly when none does |
| Users.FullScore | server/controllers/userController.js:310-322 | the score is 100 exactly when name, niche, target audience and style are set and both accounts are connected |
| Users.ScoreIgnoresStoredScore | server/controllers/userController.js:310-322 | the score does not depend on the stored score |
| Users.CalculateProfileCompleteness | server/controllers/userController.js:310-322 | the six conditional increments and the rounding compute the completeness score |
| Users.Register | server/controllers/userController.js:14-61 | missing fields give 400 before the lookup; an existing email gives 409; otherwise a new user, not onboarded and at completeness 0, is saved, or validation fails with 500 and nothing is saved |
| Users.Login | server/controllers/userController.js:66-110 | missing fields give 400; an unknown email and a wrong password give the same 401; success returns the session of a stored user whose email and password match |
| Users.Merged | server/controllers/userController.js:149 | each preference sent in the request wins, and the others are kept |
| Users.MergeIdempotent | server/controllers/userController.js:149 | merging the same preferences twice is merging them once |
| Users.ProfileUpdated | server/controllers/userController.js:145-152 | only truthy fields overwrite; preferences are merged; completeness is recomputed; identity, credentials, niches, accounts, history and onboarding stay |
| Users.UpdateValidity | server/controllers/userController.js:154 | the updated user is valid exactly when its style and posting frequency are allowed values |
| Users.UpdateProfile | server/controllers/userController.js:134-165 | an unknown user gives 404; otherwise the updated user is saved, or validation fails with 500 and nothing is saved |
| Users.Onboarded | server/controllers/userController.js:181-186 | niche and audience are assigned as sent, niches only when sent; a sent or null style is stored as sent and an omitted one leaves the schema default "professional"; the user is onboarded with completeness 100; nothing else changes |
| Users.OnboardingOverstates | server/controllers/userController.js:181-186 | onboarding a user with no connected account stores 100 while the computed score is at most 67 |
| Users.CompleteOnboarding | server/controllers/userController.js:170-199 | an unknown user gives 404; otherwise the onboarded user is saved, or validation fails with 500 and nothing is saved |
| Users.Connected | server/controllers/userController.js:218-232 | only "facebook" and "linkedin" are accepted; each stores its id and token and marks the account connected |
| Users.ConnectSocialMedia | server/controllers/userController.js:204-245 | a missing platform or token gives 400 before the lookup; an unknown user 404; another platform 400; otherwise only the accounts change and the message names the platform |
| Users.GetProfilingQuestions | server/controllers/userController.js:250-272 | an unknown user gives 404, otherwise the generated questions |
| Users.UpdateProfilingAnswers | server/controllers/userController.js:277-304 | an unknown user gives 404; otherwise niches are replaced when sent, completeness is recomputed and the user is saved |

## Left out

- The client (React pages and stores), the Express wiring, the routes, the
  JWT middleware and `server/config/database.js` are not part of this
  model.
- `getProfile` is not modelled: it is a lookup that drops the password.
- HTTP calls to the language model, the Graph API and LinkedIn are
  parameters; request headers, timeouts and response parsing are not
  modelled.
- bcrypt is not modelled: the password is stored as given and its check is
  the `matches` parameter. The pre-save re-hash is left out.
- JWT issuance on login and registration is left out; a session holds the
  user fields of the response.
- Timers and firing of cron jobs are not modelled, nor the cron library's
  expression grammar (the `accepts` parameter). Console logging is left
  out.
- `resizeImage` and the `sharp` library are not modelled; a resize or
  metadata failure is a parameter. Filesystem errors other than a missing
  directory or file are not modelled.
- Mongo connection errors, `CastError` on malformed ids and `parseInt` of
  query strings are not modelled; ids are `nat`s, and `limit` and `skip`
  arrive as integers.
- Posts.GetUserPosts: the 500 for a negative skip carries a fixed message
  standing for Mongo's error text.
- Users.Register, Users.UpdateProfile and Users.CompleteOnboarding: a
  validation failure carries only the "User validation failed" prefix of
  mongoose's message.
- Posts.NewestFirstPage: posts with the same `createdAt` come out in id
  order (the stable sort over the id-ordered collection); Mongo may return
  tied documents in any order.
- Users.CompleteOnboarding: with the style omitted, the stored document
  loads with "professional", and the model also returns that user; the
  source's response is the in-memory document, in which the style is
  unset and so is absent from the JSON.
- Posts.GetPostAnalytics: the analytics log is ordered by insertion; that
  order stands for the timestamp order of the `timestamp: -1` sort.
- Posts.GetPost, Posts.DeletePost, Users.Login: the 500 responses of their
  `catch` blocks are not modelled, because no modelled step throws there.
- `Number()` is modelled for whitespace, an optional sign and decimal
  digits; any other numeric form reads as `NaN`. Case folding and
  whitespace are ASCII only. String lengths that JavaScript reads
  (`minlength`, `tag.length`) count UTF-16 code units (`Text.Utf16Length`).
- Scheduler.ConvertTimeToExpression: its contract states only the default
  for a null time; the spelling for digit times and malformed strings is
  in the lemmas beside it.
- Images.ImageDirectory.UploadImage: a file name is one path component.
  An original name containing `/` makes the source's write fail (or land
  in a subdirectory); the model stores the name in the listing and
  succeeds. Directory structure is not modelled. The listing is kept in
  code-point order, the order libuv's `scandir` sorts entries into on Unix;
  the order of other platforms' directory listings is not modelled.
- Images.ImageDirectory.DeleteImage: the name is taken as one entry of the
  listing; a name with `/` or `..` that `path.join` resolves to a file
  outside the directory is not modelled, so the model answers false where
  the source deletes that file.
- Images.ImageDirectory.GetImageMetadata: as for deleting, a name that
  resolves outside the directory gets no metadata in the model.
- Trending.NicheTopics: the case of a niche found in the tables is stated
  by the lemma `Trending.NicheTopicsFound`, not by the function's own
  contract, to keep the proofs that use the function small.
- Trending.TrendingTopics: its contract states no repeats, the bound and
  the null-niche case; membership is in the lemma
  `Trending.TrendingTopicsMembers`.
- The text of the language-model prompt for profiling questions is not
  modelled; only the defaulting of the reply is.
- Confidence scores are `real`s and are only copied, never computed.
