# Postpartum care app: alert triage, check-ins, forum, analysis routes and accounts

This project is a Dafny model of the logic at the centre of a postpartum-care web
application. The model covers these parts:

- **Family alerts** (`SmartAlerts`, `components/family/SmartAlerts.tsx`). The family
  view caches the mother's signals from the browser's local storage. A first-match
  cascade turns the cached signals into one of five alerts: silent SOS, urgent,
  high support, caution or stable. A gate makes sure at most one sentiment request
  is in flight, and a kept pulse is never replaced.
- **Mother's check-in** (`MotherPage`, `app/mother/page.tsx`). This covers the
  five-level mood scale, saving a check-in, the rolling journal history of at most
  five notes (newest first), reloading the last log, and the guard that sends anyone
  but a signed-in mother away.
- **Community forum** (`CommunityForum`, `components/mother/CommunityForum.tsx`).
  This covers the seed posts, creating, liking and replying to posts, and expanding
  a post's replies.
- **Nurse vision route** (`NurseVision`, `app/api/nurse-vision/route.ts`). The route
  checks that an image was sent and strips Markdown code fences from the model's
  reply. It falls back to a fixed analysis when the reply does not parse, and makes
  sure the insight text is never blank. It builds the entry handed to the database
  and classifies errors.
- **Sentiment route** (`Sentiment`, `app/api/sentiment/route.ts`). The route rejects
  a missing or empty history and writes the prompt, one line per journal entry. It
  answers with the parsed model reply or with a classified error.
- **Accounts** (`Profiles`, `Registration`, `backend/users/models.py`,
  `backend/users/serializers.py`). This covers the user and profile tables with
  their constraints and deletion rules, token claims, and registration. A
  registration lower-cases the user name, draws a fresh care code for a mother,
  links a family member to the mother holding their code, and rolls back on error.

These modules are shared:

- `Options` holds the optional value (`null`/`undefined`/`None`).
- `Json` holds JSON values with JavaScript truthiness and property reads.
- `JsText` holds the ECMAScript white-space set, `trim`, `includes`, the global
  `parseInt` and `String(n)`.
- `LocalStore` models local storage as a `map<string, string>`.
- `RouteErrors` holds what the two routes read from a request, a model call and a
  caught exception.

`JSON.parse` and `JSON.stringify` are function parameters. A parse either yields a
value or throws a `SyntaxError`, whose message the engine writes.

Behaviour of the code that the model keeps and that a reader might not expect:

- The family cascade has exactly five rules, in the order silent SOS, urgent,
  high distress, low mood, stable. Signals are read when the component mounts, on
  `storage` events, and whenever the refresh effect re-runs.
- In `updateStates`, all five `getItem` calls happen first. A `JSON.parse` that
  throws on the stored log or physical status then ends the refresh: the values
  after it are not parsed or set, `isBreathing` is not recomputed, and no
  sentiment request starts. So one bad value does keep the others from being
  refreshed.
- The refresh effect also re-runs whenever `isAnalyzing` changes
  (`components/family/SmartAlerts.tsx:36`). A sentiment request that fails
  clears `isAnalyzing`, so the effect runs again at once and starts a new
  request while history is stored: a failing API is asked again straight away,
  not on a later event. `SmartAlerts.GateSession` states this.
- `!history || history.length === 0` in the sentiment route also rejects an
  object whose `length` is the number 0.
- Registration does not check the role against the profile's declared choices.
  `Registration.UncheckedRoleIsStored` states that a role outside them is stored
  as given.

## Model

| member | source | states |
|---|---|---|
| SmartAlerts.Resolve | components/family/SmartAlerts.tsx:57-119 | The result is always one of the five alerts. Each alert is returned exactly when its rule holds and no earlier rule does, in the order silent SOS, urgent, mental score of at least 11, mood 0 or 1, stable. |
| SmartAlerts.ResolveIsFirstMatch | components/family/SmartAlerts.tsx:57-119 | On every input, the if-cascade agrees with evaluating the ordered rule list and stopping at the first match. |
| SmartAlerts.FirstMatchPicksFirst | components/family/SmartAlerts.tsx:57-119 | When rule i matches and no earlier rule does, the rule list returns rule i's alert, whatever the later rules say. |
| SmartAlerts.FirstMatchDefault | components/family/SmartAlerts.tsx:110-118 | When no rule matches, the result is the stable alert. |
| SmartAlerts.NothingCachedIsStable | components/family/SmartAlerts.tsx:8-10 | The initial state (null log, null physical status, no score) gives STABLE/green. |
| SmartAlerts.AbsentScoreNeverMatches | components/family/SmartAlerts.tsx:87-96 | A null or NaN mental score never triggers the high-support alert. |
| SmartAlerts.LaterSignalsCannotOverride | components/family/SmartAlerts.tsx:59-96 | Once SOS or urgent holds, the mental score and the mood cannot change the alert. Once high distress holds, the mood cannot change it. |
| SmartAlerts.ScoreOf | components/family/SmartAlerts.tsx:25 | A parsed score is a number exactly when `parseInt` finds one, and then it is `parseInt`'s number. Otherwise it is NaN. It is never the unset state. |
| SmartAlerts.StoredScoreReadBack | components/family/SmartAlerts.tsx:25 | A score stored as `String(n)` is read back as `n`, negative or not. |
| JsText.ParseIntDecimal | components/family/SmartAlerts.tsx:25 | `parseInt` of the decimal text of `n` gives `n` back. This is `parseInt(String(n)) == n` for the integers whose `String` is plain digits, those with \|n\| < 10^21. |
| JsText.ParseInt | components/family/SmartAlerts.tsx:25 | The result is NaN exactly when no digit of the base follows the white space, the sign and a `0x` prefix. A negative result comes only from a minus sign. |
| JsText.ParseIntReadsLeadingDigits | components/family/SmartAlerts.tsx:25 | Decimal digits followed by a non-digit or by nothing parse as the number the digits denote; the rest is ignored. |
| JsText.Decimal | components/family/SmartAlerts.tsx:25 | The decimal text starts with a minus sign exactly for a negative number, and every other character is a digit. |
| JsText.Trim | components/mother/CommunityForum.tsx:66 | `trim` returns the piece of the text after its leading white space, and everything after the piece is white space. The piece neither starts nor ends with white space, and it is empty exactly when the text is all white space. |
| JsText.TrimCharacterised | components/mother/CommunityForum.tsx:66 | White space, then a piece that neither starts nor ends with white space, then white space: the trim is exactly that piece. |
| JsText.TrimPadded | app/api/nurse-vision/route.ts:82 | Adding white space around a text does not change its trim. |
| SmartAlerts.SignalCache.constructor | components/family/SmartAlerts.tsx:8-13 | The initial state: nothing cached, no request in flight, not breathing. |
| SmartAlerts.SignalCache.UpdateStates | components/family/SmartAlerts.tsx:16-31 | A present key replaces its cached value and an absent key keeps it. `isBreathing` becomes `is_breathing == "true"`. A throwing parse of the log or physical status stops the refresh. A request starts exactly when history is present, no pulse is cached and none is in flight; it sets `isAnalyzing` and carries the parsed history. The pulse is untouched. |
| SmartAlerts.SignalCache.FinishAnalysis | components/family/SmartAlerts.tsx:38-55 | `isAnalyzing` is cleared on every outcome. The pulse is set exactly when the reply is truthy and has no truthy `error`, and a kept pulse is never replaced. The alert does not change. |
| SmartAlerts.Accepts | components/family/SmartAlerts.tsx:47 | A reply is kept as the pulse when it was read, is truthy, and has no truthy `error`. |
| SmartAlerts.GateSession | components/family/SmartAlerts.tsx:28-53 | A refresh while a request is in flight starts none. After the request ends, a new one starts exactly when the reply was not kept, and it carries the same history. |
| MotherPage.Rolled | app/mother/page.tsx:80 | The new history has length min(old length + 1, 5). The new entry comes first, followed by the old entries in order. |
| MotherPage.PriorHistory | app/mother/page.tsx:79 | An absent history counts as the empty list. A history that does not parse makes the save throw. |
| MotherPage.LogRecord | app/mother/page.tsx:70-75 | The stored log has exactly the fields mood, stress, note and timestamp. Its mood is the selected index, which is what the family cascade reads. |
| MotherPage.Spread | app/mother/page.tsx:80 | The spread takes an array's items or a string's characters, and throws on any other value. |
| MotherPage.HistoryKeepsNewestFive | app/mother/page.tsx:78-81 | After any sequence of saves, the history holds the five newest entries, newest first. |
| MotherPage.MustRedirect | app/mother/page.tsx:53-59 | The page stays exactly when the access token is a non-empty string and the role is "MOTHER". |
| MotherPage.Page.constructor | app/mother/page.tsx:38-41 | Initial state: no mood selected, stress 3, empty note, no last log. |
| MotherPage.Page.SelectMood | app/mother/page.tsx:170-173 | A selected mood is always an index of the five-level scale. |
| MotherPage.Page.LoadLastLog | app/mother/page.tsx:61-66 | A present, parseable `mother_log` becomes `lastLog`. Otherwise `lastLog` is kept. |
| MotherPage.Page.SaveMood | app/mother/page.tsx:68-85 | With no mood selected, nothing changes. Otherwise `mother_log` is overwritten with exactly {mood, stress, note, timestamp}, the history is rolled, and `lastLog` equals the new log. When the history throws, only the log is written. |
| MotherPage.SavedMoodAlert | components/family/SmartAlerts.tsx:99-119 | When the physical status and the mental score raise no alert themselves, a saved check-in gives the family CAUTION exactly when its mood is "Very Low" or "Low", and STABLE otherwise. |
| MotherPage.SavedMoodAlertAlone | components/family/SmartAlerts.tsx:99-119 | With no physical status and no score cached, the saved mood alone gives CAUTION for "Very Low" or "Low" and STABLE otherwise. |
| CommunityForum.SeedPosts | components/mother/CommunityForum.tsx:35-56 | The two seed posts have ids "1" and "2", their two texts, 12 and 24 likes, the one-hour and two-hour-old timestamps, and one reply each ("r1", "r2") stamped now. |
| CommunityForum.Liked | components/mother/CommunityForum.tsx:78-83 | Length and order are kept. A post with the id gains exactly one like. Every other field and every other post is unchanged. |
| CommunityForum.Replied | components/mother/CommunityForum.tsx:85-98 | The reply is appended at the end of the replies of posts with the id. Every other field and every other post is unchanged. |
| CommunityForum.Toggled | components/mother/CommunityForum.tsx:104-111 | Toggling flips the membership of the one id and leaves every other id as it was. |
| CommunityForum.ToggleTwice | components/mother/CommunityForum.tsx:104-111 | Toggling the same id twice restores the set. |
| CommunityForum.LikeTotal | components/mother/CommunityForum.tsx:78-83 | A like adds to the total likes exactly the number of posts carrying the id. |
| CommunityForum.ReplyTotal | components/mother/CommunityForum.tsx:85-98 | A reply adds to the total replies exactly the number of posts carrying the id. |
| CommunityForum.Forum.constructor | components/mother/CommunityForum.tsx:23-27 | Initial state: no posts, empty drafts, no reply target, nothing expanded. |
| CommunityForum.Forum.SavePosts | components/mother/CommunityForum.tsx:60-63 | The list is shown and written under `community_posts`. |
| CommunityForum.Forum.LoadOrSeed | components/mother/CommunityForum.tsx:29-58 | A saved list is loaded as it is and the store is untouched. With none saved, the two seed posts are shown and stored. |
| CommunityForum.Forum.CreatePost | components/mother/CommunityForum.tsx:65-76 | A blank draft changes nothing. Otherwise the new post comes first with 0 likes and no replies, the old posts follow unchanged, the list is stored, and the draft is cleared. |
| CommunityForum.Forum.Like | components/mother/CommunityForum.tsx:78-83 | The shown and stored list is the liked list. |
| CommunityForum.Forum.ReplyTo | components/mother/CommunityForum.tsx:85-102 | A blank reply changes nothing. Otherwise the reply is appended and stored, the reply text is emptied, the reply target is cleared, and the post is expanded. |
| CommunityForum.Forum.ToggleExpand | components/mother/CommunityForum.tsx:104-111 | The expanded set is toggled at the one id. |
| CommunityForum.Forum.ToggleReplying | components/mother/CommunityForum.tsx:172 | The reply box of the post opens, or closes when it was already open. |
| RouteErrors.StatusOr500 | app/api/nurse-vision/route.ts:140 | A missing or zero status becomes 500. Any other status is kept. The result is never 0. |
| RouteErrors.Debug | app/api/sentiment/route.ts:70-73 | The debug object holds the message and the status exactly when they are defined. |
| RouteErrors.ReplyText | app/api/nurse-vision/route.ts:72 | A missing or empty reply text becomes "{}". Any other text is kept. |
| NurseVision.FirstClose | app/api/nurse-vision/route.ts:78 | The lazy group ends at the first index where `\s?` followed by a fence matches, and no earlier index has one. |
| NurseVision.GroupAt | app/api/nurse-vision/route.ts:78 | A captured group starts right after "```json" or one white-space character later, is followed by a closing part, and holds no fence. |
| NurseVision.FirstBlock | app/api/nurse-vision/route.ts:78-79 | The group of the leftmost match holds no fence. |
| NurseVision.StripLeavesNoFence | app/api/nurse-vision/route.ts:82 | After the global replace, no fence is left, not even one formed where two pieces meet. |
| NurseVision.StripFences | app/api/nurse-vision/route.ts:82 | The replace never makes the text longer. |
| NurseVision.StripWithoutFence | app/api/nurse-vision/route.ts:82 | Text without a fence goes through the replace unchanged. |
| NurseVision.StripKeepsPlainPrefix | app/api/nurse-vision/route.ts:82 | Text without a backquote in front of the rest is kept before the replaced rest. |
| NurseVision.StripBlock | app/api/nurse-vision/route.ts:82 | In text before, inside and after a "```json" ... "```" block, the replace removes exactly the two fences and the word json, and keeps the three texts in order. |
| NurseVision.Cleaned | app/api/nurse-vision/route.ts:76-84 | Text without a fence is only trimmed. Whatever path is taken, the cleaned text never holds a fence. `FencedReply` and `PlainFencedReply` show that the content of a fenced block is kept on both the match path and the replace path. |
| NurseVision.FencedReply | app/api/nurse-vision/route.ts:76-84 | A reply wrapped in a "```json" block on its own lines yields the block's content, trimmed. |
| NurseVision.PlainFencedReply | app/api/nurse-vision/route.ts:76-84 | A reply in a plain "```" block on its own lines has no "```json" match and takes the replace path, which yields the block's content, trimmed. |
| NurseVision.CleanJson | app/api/nurse-vision/route.ts:76-84 | The step-by-step cleaning gives the cleaned text, which holds no fence. |
| NurseVision.Analysis | app/api/nurse-vision/route.ts:86-97 | A throwing parse gives the fixed fallback analysis (observation, stable, fatigue null). Otherwise the analysis is the parsed value. |
| NurseVision.NormalizeInsight | app/api/nurse-vision/route.ts:99-103 | After this step the insight text is never empty or all white space. In an object, a non-blank string insight is kept and the object is unchanged. A missing, falsy or blank insight is replaced by the encouragement text, and every other field is kept. An array is unchanged in JSON. A TypeError is thrown exactly for null, for a primitive, and for a truthy insight that is not a string. |
| NurseVision.FallbackPassesInsightStep | app/api/nurse-vision/route.ts:89-103 | The fallback analysis goes through the insight step unchanged. |
| NurseVision.LogEntry | app/api/nurse-vision/route.ts:105-111 | The entry has exactly its five fields. The type and alert are always truthy and default to "observation" and "stable". Fatigue is null exactly when it is missing or falsy. The user id is the fixed placeholder. |
| NurseVision.ZeroFatigueLoggedAsNull | app/api/nurse-vision/route.ts:108 | A fatigue index of 0 is logged as null. |
| NurseVision.ErrorResponse | app/api/nurse-vision/route.ts:140-158 | The status defaults to 500 and the alert level is always "stable". A 429 or RESOURCE_EXHAUSTED gives "Quota Exceeded (429)" and the quota insight. Any other error gives the diagnostic text with the message or "Unknown error". |
| NurseVision.ShownMessage | app/api/nurse-vision/route.ts:142 | A missing or empty message shows as "Unknown error". |
| NurseVision.RateLimitIsQuota | app/api/nurse-vision/route.ts:144-147 | A 429 status is answered with 429 and the quota text. |
| NurseVision.Post | app/api/nurse-vision/route.ts:36-160 | A missing image gives 400 "No image provided" before any analysis. An unreadable request, a failed model call or a TypeError gives the error response. A success answers 200 with the normalised analysis, not the log entry, and hands the log entry to the insert. |
| Sentiment.SplitJoin | app/api/sentiment/route.ts:37 | Lines joined with "\n", none holding a line break, split back into the same lines. |
| Sentiment.Join | app/api/sentiment/route.ts:37 | The joined text starts with the first part, and its length is the parts' total length plus one separator between each pair of neighbours. |
| Sentiment.TemplateText | app/api/sentiment/route.ts:37 | A value converts to text exactly when no object on the way has its own `toString`, which makes `String` throw. A string is itself, null is "null", and an object is "[object Object]". |
| Sentiment.FieldText | app/api/sentiment/route.ts:37 | A missing field shows as "undefined". Otherwise the field's text exists exactly when the value converts. |
| Sentiment.EntryLine | app/api/sentiment/route.ts:37 | A line is built exactly when the entry is not null and both its fields convert, as "- [" timestamp "] " note. |
| Sentiment.EntryLines | app/api/sentiment/route.ts:37 | One line per entry, in input order. The lines exist exactly when every entry's line can be built. |
| Sentiment.Contents | app/api/sentiment/route.ts:38 | Exactly one user content is sent, with one text part holding the prompt. |
| Sentiment.Prepare | app/api/sentiment/route.ts:30-37 | The request is rejected exactly when the history is falsy, an empty array, or an object whose `length` is 0. A prompt is made exactly for a non-empty array whose every entry makes a line, as "Journal History:\n" followed by the joined lines. Anything else throws. |
| Sentiment.NoHistory | app/api/sentiment/route.ts:32 | For an array the test is emptiness, for a string it is being empty, and for a number or boolean it is falsiness. |
| Sentiment.LengthZeroObjectRejected | app/api/sentiment/route.ts:32-33 | A history object whose `length` is 0 is answered as no history. |
| Sentiment.UnconvertibleNoteThrows | app/api/sentiment/route.ts:37 | An entry whose note is an object with its own `toString` makes the request throw a TypeError. |
| Sentiment.PromptLines | app/api/sentiment/route.ts:37 | For well-formed entries, the prompt splits into the header and then one line per entry, so it has history-length + 1 lines. |
| Sentiment.ErrorResponse | app/api/sentiment/route.ts:60-74 | The status defaults to 500 and the body holds sentiment "stable". The error is "Quota Exceeded (429)" for 429 or RESOURCE_EXHAUSTED, and "Sentiment check failed" otherwise. |
| Sentiment.Handle | app/api/sentiment/route.ts:28-76 | The model is called exactly when a prompt was made. A rejection answers 400 "No history provided". Errors, including a parse of the reply that throws, get the error response. Otherwise the answer is 200 with the parsed reply. |
| Sentiment.EmptyReplyIsEmptyObject | app/api/sentiment/route.ts:51-52 | An empty model reply is answered with an empty object, which has no `error` and so is kept as the pulse. |
| Sentiment.OnlyModelAnswersBecomePulse | app/api/sentiment/route.ts:60-74 | The family view keeps only a 200 answer parsed from a model reply. The rejection and every error answer carry a truthy `error`. |
| Profiles.NewProfile | backend/users/models.py:13 | A new profile's role defaults to MOTHER. It has no care code and no mother. |
| Profiles.Describe | backend/users/models.py:21-22 | The text is the user name, " - ", then the role. |
| Profiles.DescribeInjective | backend/users/models.py:21-22 | Since a user name has no spaces, the text determines both the user name and the role. |
| Profiles.Database.constructor | backend/users/models.py:4-19 | The empty tables meet every constraint. |
| Profiles.Database.Valid | backend/users/models.py:12-19 | The table constraints: ids below the counters, unique user names, one profile per existing user, unique care codes of at most six characters, and mother links to existing profiles. |
| Profiles.Database.ProfileOf | backend/users/models.py:12 | A user has at most one profile. When it has one, the result is that profile. |
| Profiles.Database.TakenCodes | backend/users/models.py:16 | The set of care codes held by some profile. |
| Profiles.Database.InsertUser | backend/users/serializers.py:38-42 | A free name gets a fresh row, and the constraints still hold. |
| Profiles.Database.RemoveUserRow | backend/users/serializers.py:37 | The rollback removes the row of a user with no profile, and the constraints still hold. |
| Profiles.Database.InsertProfile | backend/users/serializers.py:69 | Saving a profile whose user has none yet, whose code is free and at most six characters long, and whose mother exists keeps the constraints: unique codes, one profile per user, valid links. |
| Profiles.Database.Unlinked | backend/users/models.py:19 | After a profile is deleted, the members of its circle remain, with `mother` set to null. Every other profile is unchanged. |
| Profiles.Database.DeleteProfile | backend/users/models.py:19 | Deleting a profile applies `SET_NULL` to the members of its circle and keeps the constraints. |
| Profiles.Database.DeleteUser | backend/users/models.py:12 | Deleting a user deletes its profile (`CASCADE`) and keeps the constraints. |
| Registration.TokenClaims | backend/users/serializers.py:7-20 | The role claim is the profile's role, or 'ADMIN' without a profile. The care_code claim is added only for a MOTHER, and is null when she has no code. Other claims are kept. |
| Registration.MotherTokenCarriesCode | backend/users/serializers.py:14-16 | A mother's token carries her care code and the role MOTHER. |
| Registration.Lower | backend/users/serializers.py:34 | Same length, and every ASCII capital is replaced by its lower-case letter. |
| Registration.LowerIdempotent | backend/users/serializers.py:34 | Lower-casing a lower-cased name changes nothing. |
| Registration.DrawCareCode | backend/users/serializers.py:48-56 | The code kept is the first draw no profile holds. It is 6 characters over A-Z0-9. |
| Registration.FindMother | backend/users/serializers.py:62-67 | The result is a mother's profile holding the code, or none when no mother holds it. |
| Registration.MakeProfile | backend/users/serializers.py:46-67 | A FAMILY registration is refused exactly when the code is missing, blank or held by no mother, with the matching message. Otherwise the draft profile has the right code and mother link. |
| Registration.Register | backend/users/serializers.py:31-71 | The role defaults to MOTHER and the name is lower-cased. A taken name gives an IntegrityError, and a refused family code gives a ValidationError. On any error neither row persists. On success, exactly one user and one profile are added, with email defaulting to '', and the constraints still hold. |
| Registration.UncheckedRoleIsStored | backend/users/serializers.py:24 | A role outside {MOTHER, FAMILY} is never refused. The only profile that may be issued for it stores the role as given, with no code and no mother. |

## Left out

- Rendering: JSX, colour and icon maps, and the alert's icon are not modelled. They never feed the modelled state.
- The affirmation shown on the daily tab is not modelled. It is picked with `Math.random` and nothing reads it.
- `components/mother/CameraCapture.tsx` is not part of this model. It is camera and canvas I/O.
- `app/api/gemini/route.ts` is not part of this model. It only wraps the model SDK.
- The Gemini SDK call, the Supabase insert and `fetch` are inputs, not models. The insert's outcome never reaches the response.
- `JSON.parse`, `JSON.stringify` and the engine's number-to-text conversion are function parameters. The deserialised forum list is given already typed.
- Local storage and `storage` events are not I/O here. Each handler reads the store it is given; effect re-subscription and async interleaving are left out. The sentiment request is a begin step and an end step.
- Timestamps, `Date.now()` ids and the engine's TypeError messages are inputs.
- CommunityForum.Forum.ReplyTo: each matching post gets a reply with the same id and time. The source evaluates `Date.now()` once per matching post.
- Registration.DrawCareCode: the random draws are an input sequence, and the method requires one of them to be unused. Termination of the source's `while True` is not modelled.
- Registration.Register: ids come from counters that are not rolled back.
- Registration.Register: the framework's own account handling is not modelled. This covers field validation, password hashing, NFKC and e-mail normalisation in `create_user`, the JWT encoding, and the transaction machinery beyond all-or-nothing.
- Registration.Lower: only ASCII letters are lower-cased, not the full Unicode `str.lower`.
- Profiles.Database.Valid: the role column's 10-character limit and the role choices are not constraints here. The registration path does not enforce them, and whether the database does depends on its engine.
- JsText.Decimal: writes every integer in plain digits. JavaScript's `String(n)` switches to exponent form from 10^21 on, so the read-back lemmas hold for the source only below that.
- JsText.ParseInt: returns unbounded integers, with no floating-point rounding for very long digit runs.
- NurseVision.NormalizeInsight: assumes the route module is strict-mode code, as ECMAScript modules are. Assigning a property of a primitive therefore throws.
- NurseVision.ErrorResponse: an invalid HTTP status (such as one outside 200-599) making `NextResponse.json` throw is not modelled.
