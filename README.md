# Campus lost and found: verified model of the service layer

This project models, in Dafny, the service modules of a campus lost-and-found
web application and proves properties about them. Students and faculty report
lost and found items. A matching service scores every lost/found pair out of
100. Owners claim items and faculty approve or reject the claims. Accounts are
confirmed with one-time codes, and students are emailed from fixed templates.

The model is split into one module per concern:

- `Wrappers`: `Option` and `Result`. A `Result` stands for a call that either returns or throws.
- `Text`: the string primitives the services use:
  - ASCII `toLowerCase`;
  - `trim` over the JavaScript whitespace set;
  - `includes`;
  - `\s` and `\w`;
  - the decimal rendering of a number, with a parse-back round trip.
- `Seqs`: the array primitives:
  - order-preserving `filter`;
  - the stable descending `sort((a, b) => key(b) - key(a))`, proved sorted, a permutation and stable;
  - `slice(0, n)`;
  - the nested-loop cross product.
- `Objects`: object literals as ordered key/value lists, and the spread `{...base, ...over}`.
- `Base64`: `btoa` over Latin-1 strings, with a decoder that inverts it. This makes the OTP hash injective.
- `ItemsService` (`items.service.js`):
  - the record `createItem` writes;
  - the empty case of `uploadItemImages`;
  - `getItems`, which assembles records and falls back to a newest-first sort.
- `Matching` (`matching.service.js`):
  - the five sub-scores and the total;
  - `findMatches`, `getAllMatches` and `getMatchRecommendations`;
  - the confidence label.
- `UserService` (`user.service.js`):
  - the system password;
  - the profile merge;
  - the OTP session store (`sendOTP`/`verifyOTP`) as a class owning the session map and a delivery log;
  - the identifier lookups.
- `OtpSimple` (`otp-simple.service.js`): the in-memory one-shot OTP store, as a class.
- `MockDb` (`mockDb.js`): the seed data and `localStorage`, as a class over a key-to-list map.
- `Api` (`api.js`):
  - demo login;
  - item search;
  - reporting items and claims;
  - claim review with its dual write;
  - the latest-activity cards.
- `Notification` (`notification.service.js`):
  - the six templates and their lookup;
  - `{key}` substitution;
  - previews and sends;
  - the per-recipient choice of variables in bulk sends;
  - the default variables.

Code that changes state step by step is imperative Dafny, each method proved against a specification function:

- the score accumulation;
- the cross-product loops;
- the OTP stores;
- the mock storage;
- claim review;
- the template render loop;
- the bulk send.

The pure parts are functions with lemmas.

These all become parameters:

- the current time in milliseconds;
- server timestamps;
- the document id picked by Firestore;
- the random code and random ids;
- the outcome of each Firestore query, read or write (`Result` values, or optional read and write errors such as those `VerifyOutcome` takes).

Code delivery, mailto windows and uploads are left out; only what they were handed is recorded, for example the `outbox` log of `UserStore`.

## Model

| member | source | states |
|---|---|---|
| Matching.CategoryScore | frontend/src/services/matching.service.js:149-160 | the category sub-score is one of 0, 15 or 30 |
| Matching.CategoryScoreCases | frontend/src/services/matching.service.js:149-160 | 30 exactly when both categories are present and equal ignoring case; 15 exactly when both are present, differ, and one lower-cased category contains the other |
| Matching.CategorySymmetric | frontend/src/services/matching.service.js:149-160 | swapping the two categories does not change the sub-score |
| Matching.ColorScore | frontend/src/services/matching.service.js:162-169 | the colour sub-score is one of 0, 15 or 25 |
| Matching.ColorScoreCases | frontend/src/services/matching.service.js:162-169 | 25 exactly on case-insensitive equality of two present colours (no trimming); 15 exactly when they differ that way but `areSimilarColors` holds (equal after trim, or both in one colour group) |
| Matching.ColorSymmetric | frontend/src/services/matching.service.js:34-51 | `areSimilarColors` and the colour sub-score are symmetric |
| Matching.AreSimilarColors | frontend/src/services/matching.service.js:34-51 | false when either colour is missing, and true for present colours equal after lower-casing and trimming; ColorScoreCases and SimilarityNotTransitive state the group rule |
| Matching.SimilarityNotTransitive | frontend/src/services/matching.service.js:9-20 | navy is similar to black and to cyan, but black is not similar to cyan ('navy' sits in two groups) |
| Matching.PlainWord | frontend/src/services/matching.service.js:37-38 | a lower-case word is its own trimmed lower-cased form |
| Matching.BuildingPrefix | frontend/src/services/matching.service.js:82 | a building name is found at the start of a string only if one of the regex alternatives is a prefix of it, and every alternative is tried |
| Matching.ExtractBuilding | frontend/src/services/matching.service.js:81-84 | the leftmost match: a found name is the alternative at the first position where any alternative starts; none exactly when no alternative occurs anywhere |
| Matching.LocationScore | frontend/src/services/matching.service.js:71-101 | the location sub-score is one of 0, 10, 15 or 20 |
| Matching.LocationScoreCases | frontend/src/services/matching.service.js:71-101 | 20 exactly on equal lower-cased present locations; 15 exactly when they differ but the leftmost building matches agree; 10 exactly when neither holds and both contain one common-area word |
| Matching.LocationSymmetric | frontend/src/services/matching.service.js:71-101 | swapping the two locations does not change the sub-score |
| Matching.TimeScore | frontend/src/services/matching.service.js:106-121 | 0 when either date is missing; for two present dates, the gap score of their distance in either direction |
| Matching.GapScore | frontend/src/services/matching.service.js:112-120 | each step both ways: 15 iff the gap is at most 1 day, 12 iff over 1 and at most 3 days, 8 iff over 3 and at most 7, 4 iff over 7 and at most 14, and 0 iff over 14 days |
| Matching.GapScoreMonotone | frontend/src/services/matching.service.js:115-120 | a longer gap never scores more |
| Matching.Depunctuate | frontend/src/services/matching.service.js:61 | every character that is neither `\w` nor `\s` becomes a space, and every other character is kept |
| Matching.RunLength | frontend/src/services/matching.service.js:62 | the length of the leading non-space run, which stops at the first space |
| Matching.Words | frontend/src/services/matching.service.js:62 | every token of the split is non-empty, free of whitespace, and made of characters of the input |
| Matching.WordsAreRuns | frontend/src/services/matching.service.js:62 | the tokens are exactly the maximal runs of non-space characters: a token iff a run that starts at the beginning or after a space |
| Matching.KeywordShape | frontend/src/services/matching.service.js:56-66 | every keyword is longer than 2, is not a stop word, and consists of lower-case word characters |
| Matching.KeywordsComplete | frontend/src/services/matching.service.js:56-66 | conversely, every word of a non-empty lower-cased, depunctuated description longer than 2 that is not a stop word is a keyword |
| Matching.Keywords | frontend/src/services/matching.service.js:56-66 | a missing description has no keywords; KeywordShape and KeywordsComplete pin down the set |
| Matching.KeywordScore | frontend/src/services/matching.service.js:126-140 | the keyword sub-score lies in [0, 10] |
| Matching.KeywordRatio | frontend/src/services/matching.service.js:130-139 | the capped ratio of shared keywords lies in [0, 10] |
| Matching.KeywordScoreCases | frontend/src/services/matching.service.js:126-140 | 0 when the keyword sets share nothing (including when one is empty); otherwise 10·\|common\|/min(\|k1\|,\|k2\|) |
| Matching.KeywordSymmetric | frontend/src/services/matching.service.js:126-140 | swapping the two descriptions does not change the keyword sub-score |
| Matching.CommonBound | frontend/src/services/matching.service.js:133-139 | the shared keywords are no more than the smaller set, so the ratio never needs its cap |
| Matching.BaseScore | frontend/src/services/matching.service.js:149-175 | the four whole-number sub-scores add up to at most 90 |
| Matching.MatchScore | frontend/src/services/matching.service.js:145-181 | the rounded total lies in [0, 100] and within 10 above the whole-number part |
| Matching.CalculateMatchScore | frontend/src/services/matching.service.js:145-181 | the step-by-step accumulation returns `MatchScore`, an integer in [0, 100] |
| Matching.MatchScoreSymmetric | frontend/src/services/matching.service.js:145-181 | the score of (a, b) equals the score of (b, a) |
| Matching.SelfMatchIsPerfect | frontend/src/services/matching.service.js:145-181 | an item with every field present and at least one keyword scores 100 against itself |
| Matching.UnrelatedItemsScoreZero | frontend/src/services/matching.service.js:145-181 | items unrelated (or missing) in category, colour and location, with no shared keyword, more than 14 days apart or without a date, score 0; locations are unrelated when they differ, share no extracted building (none found counts as not shared) and no common-area word |
| Matching.OppositeType | frontend/src/services/matching.service.js:189 | `findMatches` searches `found` for a `lost` item and `lost` for anything else |
| Matching.FindMatches | frontend/src/services/matching.service.js:186-207 | `[]` when the query fails, and never more matches than candidates; FindMatchesSpec states order, soundness and completeness |
| Matching.Scored | frontend/src/services/matching.service.js:193-197 | one match per candidate, in order, carrying the candidate, its score and the source item |
| Matching.RankedSound | frontend/src/services/matching.service.js:199-202 | every ranked match reaches the minimum, is scored correctly and comes from the candidates |
| Matching.RankedComplete | frontend/src/services/matching.service.js:199-202 | every candidate reaching the minimum appears among the ranked matches |
| Matching.FindMatchesSpec | frontend/src/services/matching.service.js:186-207 | `findMatches` is sorted by non-increasing score, keeps exactly the candidates reaching the minimum, each scored against the item, and is `[]` when the query fails |
| Matching.PairOf | frontend/src/services/matching.service.js:229-235 | a pair carries its lost item, its found item and their score, and its id is the lost id, `-`, then the found id |
| Matching.CrossMatchesElement | frontend/src/services/matching.service.js:224-238 | every pair pushed by the nested loops comes from one lost and one found item and reaches the minimum |
| Matching.CrossMatchesComplete | frontend/src/services/matching.service.js:224-238 | every lost/found pair reaching the minimum is pushed |
| Matching.RowMatchesSnoc | frontend/src/services/matching.service.js:225-237 | one more found item extends a row by its pair exactly when the pair reaches the minimum |
| Matching.PushRow | frontend/src/services/matching.service.js:225-237 | the inner loop appends exactly the row of pairs for one lost item |
| Matching.CrossProduct | frontend/src/services/matching.service.js:221-238 | the nested loops build exactly the cross-product list |
| Matching.GetAllMatches | frontend/src/services/matching.service.js:213-246 | `getAllMatches` returns the sorted cross-product list, or `[]` when either query fails |
| Matching.AllMatches | frontend/src/services/matching.service.js:213-246 | `[]` when either query fails; AllMatchesSorted and AllMatchesContents state order and contents |
| Matching.AllMatchesSorted | frontend/src/services/matching.service.js:241 | the result is sorted by non-increasing score |
| Matching.AllMatchesContents | frontend/src/services/matching.service.js:213-241 | the result holds exactly the pairs reaching the minimum, each from the inputs, and pairs of equal score keep their loop order |
| Matching.GetMatchRecommendations | frontend/src/services/matching.service.js:251-254 | recommendations are the first `limit` entries of `getAllMatches(70)` |
| Matching.RecommendationsSpec | frontend/src/services/matching.service.js:251-254 | recommendations are sorted and all score at least 70 |
| Matching.ConfidenceLevel | frontend/src/services/matching.service.js:259-264 | Excellent iff score ≥ 80, Good iff 60 ≤ score < 80, Possible iff 40 ≤ score < 60, Low iff score < 40 |
| Matching.ConfidenceMonotone | frontend/src/services/matching.service.js:259-264 | a higher score never gets a lower label |
| Matching.RecommendationsAtLeastGood | frontend/src/services/matching.service.js:251-264 | every recommendation is labelled at least Good |
| Matching.LibraryScenario | frontend/src/services/matching.service.js:145-181 | same category and colour, "Library" vs "Library 2nd Floor", two hours apart, no description: the score is 85 |
| Matching.UnrelatedScenario | frontend/src/services/matching.service.js:145-181 | Wallets/Brown/Hostel vs Electronics/Blue/Gym, 30 days apart: the score is 0 |
| UserService.GenerateSystemPassword | frontend/src/services/user.service.js:20-23 | the password is `Auth@`, then exactly the identifier's ASCII letters and digits in order, then `#2026` |
| UserService.CleanIgnoresTrim | frontend/src/services/user.service.js:21 | trimming before removing non-alphanumerics changes nothing |
| UserService.PasswordsAgree | frontend/src/services/user.service.js:20-23 | two identifiers give the same password iff their alphanumeric characters agree, so login re-derives the registration password |
| UserService.HashOtp | frontend/src/services/user.service.js:287-290 | hashing succeeds iff the code is Latin-1, else throws `InvalidCharacterError` |
| UserService.HashOtpInjective | frontend/src/services/user.service.js:287-290 | equal hashes mean equal codes |
| UserService.DigitsHash | frontend/src/services/user.service.js:107-115 | a decimal code always hashes |
| UserService.ProfileFields | frontend/src/services/user.service.js:40-50 | every field given in `userData` is stored as given; otherwise `uid` is the user id, the three verified flags are false, `approvalStatus` is `pending`, and `lastLogin` is null |
| UserService.ChannelsOf | frontend/src/services/user.service.js:125 | a single type becomes a one-element channel list, and an array is used as is |
| UserService.TargetOf | frontend/src/services/user.service.js:128 | a per-channel contact object gives that channel's entry, and a single contact is used for every channel |
| UserService.DeliveryFor | frontend/src/services/user.service.js:128-133 | `email` sends one email and `mobile` one SMS, each carrying the code and the channel's target; any other channel sends nothing |
| UserService.DeliveriesCarryCode | frontend/src/services/user.service.js:127-134 | every delivery of one send carries the same code |
| UserService.DeliveriesCount | frontend/src/services/user.service.js:127-134 | one delivery per `email` or `mobile` entry of the channel list |
| UserService.NewSession | frontend/src/services/user.service.js:111-120 | a new session is unverified, has no attempts, expires 60 s after `now` and stores the hash of the code |
| UserService.UserStore.SendOtp | frontend/src/services/user.service.js:104-145 | a refused write stores and sends nothing; otherwise one session with a code in 100000..999999 is stored and the result carries the session id and 60 but not the code |
| UserService.UserStore.SendToChannels | frontend/src/services/user.service.js:127-134 | the channel loop appends exactly the deliveries for the channel list, in order |
| UserService.VerifyStep | frontend/src/services/user.service.js:150-193 | success only for a known session whose hash matches; no other session changes and no session appears or vanishes |
| UserService.UserStore.VerifyOtp | frontend/src/services/user.service.js:150-193 | the outcome and the new session map are those of `VerifyOutcome`, with a rejected read or update as parameters |
| UserService.VerifyOutcome | frontend/src/services/user.service.js:150-193 | a rejected `getDoc` is rethrown with nothing changed; without database errors the result is `VerifyStep`'s; the sessions are either unchanged or `VerifyStep`'s; success only when `VerifyStep` succeeds |
| UserService.FailedUpdateCostsNothing | frontend/src/services/user.service.js:171-191 | when `updateDoc` is rejected, the caller gets that error, and neither the attempts nor the verified flag change |
| UserService.VerifyRefusals | frontend/src/services/user.service.js:155-169 | unknown session, then expiry (strictly after `expiresAt`), then three attempts are refused in that order and change nothing |
| UserService.VerifyComparison | frontend/src/services/user.service.js:171-188 | a hash match sets `verified` and `verifiedAt` and leaves `attempts` alone; a mismatch adds exactly one attempt and fails with `Invalid OTP` |
| UserService.CorrectCodeIff | frontend/src/services/user.service.js:171-188 | a live session accepts a guess iff the guess is the code it was created with |
| UserService.VerifyKeepsAttemptsBounded | frontend/src/services/user.service.js:167-185 | if every session has at most 3 attempts, it stays so after any verify |
| UserService.ThreeStrikes | frontend/src/services/user.service.js:167-185 | after three wrong codes the session has 3 attempts and every later verify fails with `Too many attempts`, even with the right code |
| UserService.ReplaySucceeds | frontend/src/services/user.service.js:159-180 | `verified` is never read: a code that verified once verifies again while the session is live |
| UserService.UnencodableGuessCostsNothing | frontend/src/services/user.service.js:171-191 | a guess `btoa` cannot encode throws before the attempt counter is touched |
| UserService.SentCodeVerifies | frontend/src/services/user.service.js:104-188 | within 60 s, the fresh session accepts exactly its own code, and a wrong guess leaves it with one attempt |
| UserService.QueryUsers | frontend/src/services/user.service.js:272-278 | every user the query returns has the identifier and the role |
| UserService.CheckIdentifierExists | frontend/src/services/user.service.js:269-284 | a failed query answers false |
| UserService.CheckIdentifierExistsIff | frontend/src/services/user.service.js:269-279 | the answer is true iff some user has the identifier and the role |
| UserService.VerifyUserContact | frontend/src/services/user.service.js:305-341 | the call throws `Verification failed` exactly when the query fails |
| UserService.VerifyUserContactSpec | frontend/src/services/user.service.js:318-336 | `User not found` iff no user matches; contact found iff the first matching user's mobile equals the given one |
| UserService.UserStore.CreateUserProfile | frontend/src/services/user.service.js:36-58 | the merged profile is stored under the user id, or a refused write changes nothing and reports the error |
| OtpSimple.GenerateOtp | frontend/src/services/otp-simple.service.js:9-11 | the code is six decimal digits, its value is in 100000..999999, and it is the canonical rendering of that value |
| OtpSimple.SessionKey | frontend/src/services/otp-simple.service.js:19 | the key starts with `session_` |
| OtpSimple.SessionKeyInjective | frontend/src/services/otp-simple.service.js:19 | two keys are equal only if their times and random parts are |
| OtpSimple.FreshSession | frontend/src/services/otp-simple.service.js:20-26 | a stored session is unverified, expires ten minutes after `now`, and keeps the code, contact and type |
| OtpSimple.OtpStore.SendOtpSimple | frontend/src/services/otp-simple.service.js:13-47 | exactly one session is set, under its key, and the result returns the same code with `expiresIn` 600 |
| OtpSimple.SimpleVerifyStep | frontend/src/services/otp-simple.service.js:49-76 | success iff the session is known, unexpired, unused and the code matches; a failure leaves the store unchanged; success marks only that session verified |
| OtpSimple.OtpStore.VerifyOtpSimple | frontend/src/services/otp-simple.service.js:49-76 | the outcome and the new store are those of `SimpleVerifyStep` |
| OtpSimple.SimpleRefusals | frontend/src/services/otp-simple.service.js:53-70 | unknown session, expiry, earlier use and a wrong code give their messages, checked in that order |
| OtpSimple.SimpleOneShot | frontend/src/services/otp-simple.service.js:61-68 | a second verify after a success fails with `OTP already used` |
| OtpSimple.WrongGuessesHarmless | frontend/src/services/otp-simple.service.js:65-71 | any number of wrong guesses leave the store as it was, so the right code still verifies |
| OtpSimple.ExpiredNeverVerifies | frontend/src/services/otp-simple.service.js:57-59 | an expired session fails with `OTP expired` whatever the code |
| OtpSimple.SendThenVerify | frontend/src/services/otp-simple.service.js:13-68 | the code returned by a send verifies its session for ten minutes |
| MockDb.SeedConsistent | frontend/src/services/mockDb.js:2-43 | the seed claim CLM-001 is pending and names item `1`, which exists, like the item of every seed claim |
| MockDb.WithItems | frontend/src/services/mockDb.js:68-74 | writing the items list adds only its key and keeps each key's list type |
| MockDb.WithClaims | frontend/src/services/mockDb.js:68-77 | writing the claims list adds only its key and keeps each key's list type |
| MockDb.ReadFallsBack | frontend/src/services/mockDb.js:63-76 | a read returns the stored list if its key exists, else the seed |
| MockDb.WriteThenRead | frontend/src/services/mockDb.js:68-77 | a list reads back as written, and writing one list never changes what the other reads |
| MockDb.MockStorage.SetItems | frontend/src/services/mockDb.js:74 | after `setItems(x)`, `getItems()` is x and `getClaims()` is unchanged |
| MockDb.MockStorage.SetClaims | frontend/src/services/mockDb.js:77 | after `setClaims(x)`, `getClaims()` is x and `getItems()` is unchanged |
| MockDb.MockStorage.GetItems | frontend/src/services/mockDb.js:63-73 | the stored items list when `gla_items` is set, else the seed items |
| MockDb.MockStorage.GetClaims | frontend/src/services/mockDb.js:63-76 | the stored claims list when `gla_claims` is set, else the seed claims |
| MockDb.GetUsers | frontend/src/services/mockDb.js:45-79 | the two seed accounts, a student with roll number 2100123 and a faculty member identified by email |
| Api.Login | frontend/src/services/api.js:6-28 | a successful login returns a stored user with the identifier (or email) and the role, and the password is the one for that role |
| Api.LoginCases | frontend/src/services/api.js:6-28 | `Invalid credentials…` iff no user matches; `Incorrect password…` iff one does but the password is wrong; otherwise the first matching user |
| Api.DemoAccounts | frontend/src/services/api.js:6-28 | the demo student logs in by roll number or by email, the demo faculty member by email, and the student cannot log in as faculty |
| Api.GetItemsIsOneFilter | frontend/src/services/api.js:30-41 | the successive filters equal one order-preserving filter by all supplied conditions |
| Api.GetItemsMembers | frontend/src/services/api.js:30-41 | an item is returned iff it is stored and passes every supplied filter; with no filters everything is returned |
| Api.GetItemById | frontend/src/services/api.js:43-47 | an item is found iff some stored item has the id, and the result is the first stored item with that id, as `find` returns |
| Api.GetItems | frontend/src/services/api.js:30-41 | never more items than stored, and all of them with no filter set; GetItemsIsOneFilter and GetItemsMembers give the contents |
| Api.GetMyReports | frontend/src/services/api.js:77-81 | exactly the stored items the user reported; GetMyReportsOrder gives store order and repeats |
| Api.GetMyReportsOrder | frontend/src/services/api.js:80 | the reports keep store order and repeats: the reports of a concatenation are the concatenation of the reports |
| Api.GetMyClaims | frontend/src/services/api.js:83-87 | exactly the stored claims the user made; GetMyClaimsOrder gives store order and repeats |
| Api.GetMyClaimsOrder | frontend/src/services/api.js:86 | the claims keep store order and repeats: the claims of a concatenation are the concatenation of the claims |
| Api.GetFacultyQueue | frontend/src/services/api.js:89-93 | exactly the pending claims |
| Api.FacultyQueueOrder | frontend/src/services/api.js:92 | the queue keeps store order: the queue of a concatenation is the concatenation of the queues |
| Api.NewMockItem | frontend/src/services/api.js:52-57 | the new item is the payload with a fresh id, status `open` and today's date, and nothing else changed |
| Api.CreateItem | frontend/src/services/api.js:49-60 | the new item is put in front of the stored items; the claims are untouched |
| Api.ClaimId | frontend/src/services/api.js:67 | the claim id is `CLM-` followed by digits that parse back to the drawn number |
| Api.NewClaim | frontend/src/services/api.js:65-72 | the claim is pending, names the item, keeps the payload's claimant and trust score, and has one message iff the payload has a message |
| Api.CreateClaim | frontend/src/services/api.js:62-75 | a claim numbered 1000..9999 is put in front of the stored claims; the items are untouched |
| Api.Reviewed | frontend/src/services/api.js:103-110 | the status is overwritten whatever it was, and the note is appended as a `faculty` message only if given |
| Api.VerifyClaim | frontend/src/services/api.js:95-123 | the outcome and the new storage are those of `VerifyClaimStep` |
| Api.VerifyClaimStep | frontend/src/services/api.js:95-123 | each list key keeps its list type; VerifyUnknownClaim, VerifyClaimClaims and VerifyClaimItems give the outcome and both writes |
| Api.VerifyUnknownClaim | frontend/src/services/api.js:100-101 | an unknown claim id fails with `Claim not found` and changes nothing |
| Api.VerifyClaimClaims | frontend/src/services/api.js:100-122 | only the first claim with the id is reviewed, every other claim is unchanged, and the reviewed claim is returned |
| Api.VerifyClaimItems | frontend/src/services/api.js:113-120 | only an approval whose item exists sets that item's status to `claimed`; every other item, and every other outcome, leaves the items unchanged |
| Api.EmojiFor | frontend/src/services/api.js:149-167 | the table entry for the lower-cased category, else the fallback emoji |
| Api.ColorFor | frontend/src/services/api.js:169-187 | the table entry for the lower-cased category, else grey |
| Api.CategoryTables | frontend/src/services/api.js:149-187 | both tables have the same keys, the category's case does not matter, and `other` maps to the fallback emoji and colour |
| Api.SeedWalletFallsBack | frontend/src/services/api.js:149-187 | the seed wallet's category `Wallets` is not a table key, so its card shows the fallbacks |
| Api.ActivityOf | frontend/src/services/api.js:135-144 | each card copies the id, title, location and date, says Lost/Found by type, and takes emoji and colour from the tables |
| Api.GetLatestActivity | frontend/src/services/api.js:125-145 | one card per recent item, in order |
| Api.LatestActivityNewest | frontend/src/services/api.js:129-132 | `min(limit, n)` items, newest first, each from the store, and every item of the sorted list past the limit is no newer than any item shown |
| Api.RecentItems | frontend/src/services/api.js:129-132 | never more items than stored, and `min(limit, n)` of them for a non-negative limit; LatestActivityNewest gives order and contents |
| ItemsService.ReporterOf | frontend/src/services/items.service.js:39-45 | the reporter's email is the profile email, or `personalEmail` when that is absent |
| ItemsService.NewItem | frontend/src/services/items.service.js:29-51 | the record has the new doc id, status `active`, 0 views, no match, the defaults for missing optional fields, and both timestamps set to the server time |
| ItemsService.ItemsCollection.CreateItem | frontend/src/services/items.service.js:25-64 | the record is stored under its doc id and returned, or a refused write changes nothing and reports the error |
| ItemsService.UploadItemImages | frontend/src/services/items.service.js:69-81 | no files or an empty list gives `[]` without uploading; otherwise the upload's outcome, with its error wrapped |
| ItemsService.UploadNothing | frontend/src/services/items.service.js:71-73 | with no files the result does not depend on the uploader at all |
| ItemsService.Record | frontend/src/services/items.service.js:136-139 | the record is the document's data with the document id, unless the data carries its own id |
| ItemsService.Records | frontend/src/services/items.service.js:133-140 | one record per fetched document, in fetch order |
| ItemsService.GetItems | frontend/src/services/items.service.js:86-155 | the method's result is `GetItemsResult` of the two query outcomes |
| ItemsService.GetItemsResult | frontend/src/services/items.service.js:86-155 | every failure is `Failed to fetch items`; a success has one item per fetched document of the query that answered, which is the unordered one only after `failed-precondition` |
| ItemsService.GetItemsOrdered | frontend/src/services/items.service.js:118-150 | when the ordered query succeeds, one record per document in fetch order |
| ItemsService.GetItemsFallback | frontend/src/services/items.service.js:121-149 | on `failed-precondition` the records of the re-query are returned newest first (missing time as 0), as a permutation, with equal times in fetch order |
| ItemsService.GetItemsErrors | frontend/src/services/items.service.js:128-154 | every other failure surfaces as `Failed to fetch items` |
| Notification.TemplateTable | frontend/src/services/notification.service.js:7-167 | six templates under distinct keys, each with an id equal to its key |
| Notification.TemplateLookup | frontend/src/services/notification.service.js:7-167 | looking up each key finds its own template |
| Notification.GetEmailTemplates | frontend/src/services/notification.service.js:172-174 | all six templates, each found under its own id |
| Notification.ListedTemplatesComplete | frontend/src/services/notification.service.js:172-174 | every template in the table is listed |
| Notification.GetTemplate | frontend/src/services/notification.service.js:179-181 | the template with that id when there is one, else `custom_message` |
| Notification.GetTemplateFindsOwnId | frontend/src/services/notification.service.js:179-181 | the returned template has the requested id iff that id is a key of the table |
| Notification.Placeholder | frontend/src/services/notification.service.js:192 | the pattern is the key between braces |
| Notification.ReplaceAbsent | frontend/src/services/notification.service.js:193-194 | a string without the pattern comes back unchanged |
| Notification.ReplaceAll | frontend/src/services/notification.service.js:192-194 | a replacement as long as the pattern keeps the length; ReplaceAbsent and ReplaceAllJoin state what is replaced |
| Notification.ReplaceAllJoin | frontend/src/services/notification.service.js:192-194 | a delimited pattern absent from every part: replacing it in the parts joined by the pattern gives the parts joined by the value |
| Notification.PlaceholderSurvives | frontend/src/services/notification.service.js:192-194 | replacing one placeholder leaves any other placeholder in place |
| Notification.RenderTemplate | frontend/src/services/notification.service.js:186-198 | the key loop computes `Render`, which substitutes every key in subject and body |
| Notification.Render | frontend/src/services/notification.service.js:186-198 | with no variables, subject and body come back unchanged; RenderOneVariable, AbsentPlaceholderStays and PlaceholderSurvives state the substitution |
| Notification.RenderOneVariable | frontend/src/services/notification.service.js:191-195 | when no part holds `{key}`, substituting the key into the parts joined by `{key}` gives the parts joined by the value (`''` for an absent value) |
| Notification.AbsentPlaceholderStays | frontend/src/services/notification.service.js:191-195 | a placeholder whose key is not among the variables stays verbatim |
| Notification.PreviewEmail | frontend/src/services/notification.service.js:203-206 | the preview is the rendered looked-up template |
| Notification.SendNotification | frontend/src/services/notification.service.js:211-222 | the send succeeds and returns the same subject and body as the preview |
| Notification.VariablesFor | frontend/src/services/notification.service.js:229 | a recipient without an entry of its own gets `variablesArray[0]` (none when the array is empty); whatever is chosen is one of the supplied entries |
| Notification.OwnVariablesWin | frontend/src/services/notification.service.js:229 | a recipient with its own entry gets that entry |
| Notification.SharedVariables | frontend/src/services/notification.service.js:229 | with a single entry, every recipient gets it |
| Notification.NotifyRecipient | frontend/src/services/notification.service.js:230-232 | one recipient's message is the rendered template for its variables |
| Notification.BulkMessages | frontend/src/services/notification.service.js:228-233 | message i goes to recipient i and uses `variablesArray[i]`, falling back to `variablesArray[0]` |
| Notification.SendBulkNotifications | frontend/src/services/notification.service.js:227-234 | the recipient loop sends exactly `BulkMessages`, one per recipient, in order |
| Notification.DefaultsByKey | frontend/src/services/notification.service.js:240-252 | each of the twelve keys reads its own default |
| Notification.DefaultsWithoutData | frontend/src/services/notification.service.js:240-252 | with no student and no item: `Student`, `Item`, `lost`, empty strings, the origin, and the fixed pickup location and faculty name |
| Notification.DefaultsFromData | frontend/src/services/notification.service.js:241-249 | present student and item fields are used as given, and the date goes through the locale formatter |
| Notification.GenerateVariables | frontend/src/services/notification.service.js:239-255 | the twelve default keys come first, in order |
| Notification.AdditionalVarsWin | frontend/src/services/notification.service.js:253 | an `additionalVars` entry overrides the default of the same key, and every other key keeps its default |
| Seqs.SortedSelection | frontend/src/services/matching.service.js:200-202 | a filter then a descending sort is sorted and holds exactly the elements that pass |
| Seqs.SortDescStable | frontend/src/services/items.service.js:144-148 | the sort keeps elements with equal keys in their original order |
| Seqs.SortDescSorted | frontend/src/services/items.service.js:144-148 | the sort's result is sorted by non-increasing key |
| Objects.SpreadGet | frontend/src/services/user.service.js:40-50 | a key of the later object reads its value there; any other key reads the earlier object's value |
| Objects.Spread | frontend/src/services/notification.service.js:240-254 | the merge is at least as long as the base object and keeps every base key at its position; SpreadGet gives each key's value |
| Seqs.SortDescPermutes | frontend/src/services/items.service.js:144-148 | the sort is a permutation |
| Base64.DecodeEncode | frontend/src/services/user.service.js:289 | decoding the `btoa` output gives back the input |
| Base64.EncodeLength | frontend/src/services/user.service.js:289 | the encoding is padded to a multiple of four symbols |
| Base64.BtoaInjective | frontend/src/services/user.service.js:289 | two strings with the same encoding are equal |
| Text.DecimalRoundTrip | frontend/src/services/otp-simple.service.js:10 | the decimal rendering of a number parses back to it |
| Text.SixDigits | frontend/src/services/otp-simple.service.js:10 | numbers in 100000..999999 are written with six digits |

## Left out

- Firestore, Firebase Auth, Cloudinary, EmailJS and SMS delivery are SDK calls. Query outcomes, write errors, document ids and server timestamps are parameters. A delivery is an entry in a log.
- Several operations of these files are not part of the model:
  - in `user.service.js`: `uploadUserDocuments`, `createVerificationRequest`, `getUserProfile`, `updateUserProfile`, and the sign-in inside `loginWithSystemPassword` (only the password derivation is modelled);
  - in `items.service.js`: `getItemById`, `updateItemStatus`, `incrementItemViews`, `deleteItem`.
  They are plain document reads and writes with no logic of their own.
- Randomness and clocks are parameters:
  - `Math.random` gives the OTP codes, session keys, claim numbers and item ids; the OTP code is a nondeterministic choice in 100000..999999;
  - `Date.now()` and `new Date()` give the current time in milliseconds;
  - `toISOString` gives today's date.
- Dates in the matching service are optional millisecond values. A missing or unparseable date is `None`, and it scores 0, just as NaN does.
- The keyword ratio uses exact reals and `Math.round` as ⌊x + ½⌋. Binary floating-point ties are not reproduced. The four whole-number sub-scores are kept as an integer running total, which is exact.
- `getLatestActivity` compares dates by the number `YYYYMMDD` instead of `new Date`:
  - text outside the `YYYY-MM-DD` form keys as 0, where `new Date` may parse it to a real date (`2026/01/16`, `Jan 16 2026`) or give NaN;
  - a `YYYY-MM-DD` string with an out-of-range month or day (`2026-13-45`) still gets a positive key, where `new Date` gives NaN;
  - `createItem` and the seed items only ever store `YYYY-MM-DD` dates, so on them the two orders agree.
- `toLowerCase` and `trim` are modelled on ASCII letters and the JavaScript whitespace set. `\w` is ASCII. Unicode case mapping is not modelled.
- In `renderTemplate`:
  - keys are taken literally, not as regular expressions;
  - `$` patterns in values are not interpreted;
  - values are strings, or absent (rendered as `''`).
- `Object.keys` order is the order of the variable list. Integer-like keys are not moved to the front.
- Object properties inherited from the prototype (such as a template id `toString`) are not modelled.
- `sendNotification`'s `mailto:` URL, `encodeURIComponent` and `window.open` are not modelled; only the returned subject and body are.
- The `setTimeout` staggering in `sendBulkNotifications` is not modelled. The messages are sent in order. A recipient whose variables are missing gets no message, because `Object.keys(undefined)` throws inside its timer.
- Default arguments are not modelled: every operation takes its arguments explicitly. The source's defaults are `findMatches` minScore 40, `getAllMatches` minScore 60, `getMatchRecommendations` limit 5, `getLatestActivity` limit 3, `sendOTP` name `'User'`, and `{}` for the `getItems` filters and `generateVariables`' additional variables.
- `generateVariables` takes `window.location.origin` and `toLocaleDateString` as parameters.
- `localStorage` holds the lists it was given, not their JSON text. The JSON round trip is taken to be the identity on these records.
- Aliasing between the seed arrays and the lists `verifyClaim` mutates is not modelled: every read returns a value.
- The category emoji are kept as the code units the source file shows.
- In `sendOTP`, a delivery that fails after the session is stored makes the call throw `Failed to send OTP: …`. This is not modelled: the model takes every delivery as handed over, and only the `setDoc` failure is a parameter.
- Concurrency is not modelled: each `verifyOTP` and `verifyClaim` call is one atomic step. Their read-then-write races are out of scope.
- There is no "already used" check in `verifyOTP`: a verified code keeps working while the session is live and has fewer than 3 attempts (`UserService.ReplaySucceeds`).
- `verifyClaim` does not check that the claim is still pending, and trust scores are stored as given, never computed.
- `sendOTPSimple` has a `catch` that can only catch a failure of the console, so it is not modelled.
- Fields outside the modelled records are not kept:
  - `createItem` in `api.js` spreads the whole payload, and payload fields outside the item record are dropped;
  - the `message` field that `createClaim`'s `...payload` stores on a new claim is dropped, since the claim record keeps only `messages`;
  - the `createdAt: new Date()` of each `getAllMatches` pair is dropped, since a pair keeps only the two items and their score.
