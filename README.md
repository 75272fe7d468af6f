# Tutoring marketplace backend: the verified model

This project models the deterministic core of a Node/Express backend for a
tutoring marketplace with students, mentors and admins. It covers:

- **The failed-email retry pipeline.**
  - The process-wide key/value cache with TTLs, prefix deletion and two read-through helpers (`Cache`).
  - The `sendEmail` recipient loop, which writes a `FAILED_EMAIL_<address>` record with a retry counter whenever the transport rejects a send (`Mail`).
  - The cron sweep `RetryEmail`, which resends those records up to three times (`EmailCron`).
- **The email body builder** `getEmailTemplate` (`Templates`).
- **The account handlers** `Register`, `VerifyEmail`, `Login` (attempt counter and lockout), `ForgotPassword` and `ResetPassword`, over an in-memory user collection (`Users`).
- **`UpdateProfile`.** Which fields of a request body become the update, and which bodies are refused (`Profiles`). This also covers the `teachingExperiences` filter.
- **The review handlers** `addReview`, `editReview` and `deleteReview`. Each keeps a mentor's `rating` as the average of its reviews (`Reviews`).
- **The in-memory parts of the admin handlers** (`Admin`):
  - profile completion;
  - pagination;
  - the two toggles;
  - the delete guard;
  - bulk operations;
  - the CSV export.
- **The upload file filter and the avatar path normalisation** of the upload middleware (`Uploads`).
- **Username generation** (`Usernames`) and the initials of a generated avatar (`Avatars`).
- **JavaScript helpers.** `Js` holds the JavaScript values of a JSON body and the coercions the handlers apply (truthiness, `||`, `Number(...)`). `Text` holds the string helpers (`split`, `join`, `trim`, `indexOf`, lower-casing).

Parts of the source that change state in place are Dafny classes:

- **The cache** is the generic class `Cache.Store<V>`. It holds a `map` of entries and a logical clock in milliseconds. The source has a single node-cache shared by the `User:`, `Website_User:` and `FAILED_EMAIL_` keys. The model uses one store per value type instead: a `Store<RetryRecord>` in `Mail` and `EmailCron`, and a store of any value type in `Users.UserDb.Login`. These key prefixes do not overlap, and every operation the source applies to one of them acts only on keys with that prefix, so separate stores lose no behaviour.
- **The SMTP transport** is `Mail.Transport`. Its replies come from an oracle indexed by the number of calls so far, and it logs every message it is handed.
- **The user collection** is `Users.UserDb`. It holds a `map` from ids to documents and keeps emails unique as its invariant.

Each method is proved against a pure function of the old state. The properties are lemmas about those functions.

The following are parameters, not effects:

- the clock;
- random bytes and tokens;
- the address a generated avatar is stored under;
- whether the mail dispatcher accepted a mail;
- the id a new document or subdocument receives.

Hashing is an injective `Digest` that keeps the text it hashes.

Some behaviours of the code are easy to miss:

- **Template rendering can fail.** It throws in three cases:
  - the `feedback` template always throws, because it reads the undeclared identifier `constants`;
  - the `taskboard` template throws when an avatar is missing, for the same reason;
  - every known template throws when `data` itself is undefined.

  Because `sendEmail` renders the template inside its loop but outside the `try`, such a throw rejects the whole `sendEmail` call before anything is sent.
- **The sweep never runs.** `keys()` has no `return`, so the sweep as wired always takes the "No Email For Retry" branch. This is finding 1 below.
- **The sweep deletes by prefix.** The sweep's `del` is the prefix delete of the cache, so retiring `FAILED_EMAIL_a@x.co` also drops `FAILED_EMAIL_a@x.com`.
- **A failed resend keeps the old timestamp.** A failed resend raises `retries` and keeps the record's `timestamp` as it was.

## Model

| member | source | states |
|---|---|---|
| Cache.LookupAfterPut | utils/cacheService.js:9-15 | after `set(k, v, ttl)` at time t0, `get(k)` at any later time yields `v` up to and including time t0 + 1000·ttl ms (for ever when ttl is 0) and nothing after it, node-cache's rule that an entry expires only once its deadline is in the past |
| Cache.LookupAfterDefaultPut | utils/cacheService.js:13-15 | a `set` without a TTL is readable through t0 + 300000 ms inclusive and absent after it |
| Cache.PutOther | utils/cacheService.js:13-15 | `set` keeps every other key's presence, entry and read result |
| Cache.DropPrefixExact | utils/cacheService.js:17-23 | `del(p)` keeps exactly the keys that do not start with `p`, each with its own entry |
| Cache.DropPrefixNoMatch | utils/cacheService.js:20-22 | when no key starts with the pattern, `del` leaves the table as it was |
| Cache.DropPrefixExtensions | utils/cacheService.js:17-23 | after `del(p)` every key extending `p` reads as absent and every other key reads as it did before |
| Cache.Store.Get | utils/cacheService.js:9-11 | yields a value exactly when the key holds an entry whose deadline is absent or not before the current time, and then that entry's value |
| Cache.Store.Set | utils/cacheService.js:13-15 | the new table is the old one with `k` bound to `v`, expiring `ttl` seconds from now (300 by default) |
| Cache.Store.Del | utils/cacheService.js:17-23 | the loop that collects the matching keys and deletes them leaves the old table minus every key starting with the pattern |
| Cache.Store.Flush | utils/cacheService.js:25-27 | the store is empty afterwards |
| Cache.Store.Keys | utils/cacheService.js:29-31 | as written, `keys()` gives its caller nothing (`undefined`) |
| Cache.Store.ListKeys | utils/cacheService.js:29-31 | the evidently intended `keys()`: every key of the store, each exactly once |
| Cache.Store.GetOrSet | utils/cacheService.js:32-51 | on a live cached value, returns it without calling the fetch and without writing; on a miss, calls the fetch, returns its result and stores it for 300 s only when it is a value |
| Cache.Store.GetOrSetUser | utils/cacheService.js:32-41 | the read-through behaviour of `GetOrSet` under the key `User:<key>` |
| Cache.Store.GetOrSetWebsiteUsers | utils/cacheService.js:42-51 | the read-through behaviour of `GetOrSet` under the key `Website_User:<key>` |
| Cache.WebsiteUsersInvalidated | utils/cacheService.js:42-51 | after `del('Website_User:')` no website-user entry is readable, whatever its key |
| Mail.Transport.SendMail | utils/email.js:28-29 | the message is appended to the transport's log and the reply is the oracle's answer for this call number |
| Mail.NextRetries | utils/email.js:38 | the new retry count is at least 1: one more than a live record's nonzero count, and 1 otherwise |
| Mail.SendOne | utils/email.js:28-43 | a delivered send gives a `Sent` entry with the message id and leaves the cache untouched; a rejected one gives a `Failed` entry with the reason and a readable failure record under `FAILED_EMAIL_<email>`; no other key changes |
| Mail.SendAll | utils/email.js:19-44 | one result per recipient, in recipient order, naming that recipient, and `Sent` exactly when the transport's reply for that call is a delivery |
| Mail.SendAllRecipients | utils/email.js:16-46 | no recipients: an empty result and nothing sent; a throwing template: that error, nothing sent, cache unchanged; otherwise the results and cache of `SendAll`, with the whole mail handed to the transport once per recipient |
| Mail.SendEach | utils/email.js:19-44 | the loop's results and cache are those of `SendAll`, and the transport received one copy of the mail per recipient |
| Mail.SendTo | utils/email.js:20-43 | one transport call whose result and cache update are those of `SendOne` |
| Mail.SendEmail | utils/email.js:15-47 | `sendEmail` as a whole: `SendAllRecipients` with the body that `getEmailTemplate(type, data)` gives |
| Mail.FailureRecordContents | utils/email.js:20-41 | a failed send leaves a record holding the whole `options.email`, subject, text and HTML, a count one above the live record's (or 1), and the current time, readable through 300000 ms after the send inclusive and absent after it |
| Mail.SendAllFrame | utils/email.js:34-41 | a send changes the cache only under the failure keys of recipients whose send was rejected |
| Mail.AllDeliveredWritesNothing | utils/email.js:28-31 | when every send is delivered the cache is left exactly as it was |
| Mail.SendAllKeepsOtherKeys | utils/email.js:34-41 | no key outside `FAILED_EMAIL_` (such as the `User:` and `Website_User:` caches) is touched by a send |
| EmailCron.FailedKeys | cron/EmailCron.js:10 | keeps exactly the listed keys that start with `FAILED_EMAIL_`, and no more entries than were listed |
| EmailCron.Step | cron/EmailCron.js:12-35 | one iteration sends at most one mail |
| EmailCron.StepEffects | cron/EmailCron.js:12-35 | a missing record is skipped; a record at 3 retries is deleted without a send; otherwise the mail is resent without HTML, and the record is deleted on success or kept with `retries` one higher on failure; only keys extending the swept key change |
| EmailCron.Sweep | cron/EmailCron.js:11-36 | a sweep over n listed keys sends at most n mails |
| EmailCron.RetryKey | cron/EmailCron.js:12-35 | the cache and transport log after one loop iteration are those of `Step` |
| EmailCron.SweepKeys | cron/EmailCron.js:11-36 | the cache and transport log after the loop are those of `Sweep` over the keys in order |
| EmailCron.RetryEmail | cron/EmailCron.js:7-40 | a falsy key list changes nothing and sends nothing; otherwise the sweep runs over the `FAILED_EMAIL_` keys in listing order |
| EmailCron.RetryEmailAsWired | cron/EmailCron.js:7-9 | wired to the `keys()` as written, a sweep never changes the cache and never calls the transport |
| EmailCron.RetryEmailFixed | cron/EmailCron.js:7-40 | wired to the corrected `keys()`, the sweep runs over the `FAILED_EMAIL_` keys among all the cache's keys, each listed once |
| EmailCron.SweepFrame | cron/EmailCron.js:11-36 | a key that extends none of the swept keys keeps its presence and entry |
| EmailCron.SweepKeepsOtherKeys | cron/EmailCron.js:10 | a sweep leaves every entry outside `FAILED_EMAIL_` unchanged |
| EmailCron.BudgetShrinksWithTime | cron/EmailCron.js:12-17 | the number of resends a record can still cause never grows as time passes |
| EmailCron.StepSpendsBudget | cron/EmailCron.js:17-35 | each iteration uses up one unit of the record's remaining resends per mail it sends |
| EmailCron.StepBudgetOn | cron/EmailCron.js:12-35 | an iteration on a key spends that key's remaining resends by what it sends; an iteration on another key never raises them |
| EmailCron.SweepBudget | cron/EmailCron.js:11-36 | within one sweep, what the iterations on a key send plus the resends the key has left afterwards is at most what it had before |
| EmailCron.SentOnUnlisted | cron/EmailCron.js:11-36 | a sweep sends nothing for a key it does not list |
| EmailCron.SentOncePerKey | cron/EmailCron.js:11-36 | over distinct listed keys, a sweep calls the transport at most once for each key |
| EmailCron.FailedKeysDistinct | cron/EmailCron.js:10 | the filter keeps distinct keys distinct |
| EmailCron.FixedSweepOncePerKey | cron/EmailCron.js:7-36 | with the corrected `keys()`, each key gets at most one transport call per sweep |
| EmailCron.RunBudget | cron/EmailCron.js:11-36 | a run of rounds at non-decreasing times, each spending a key's resends by what it sends for it, sends for that key at most what the key had before the first round |
| EmailCron.ResendBudget | cron/EmailCron.js:11-36 | over any sequence of sweeps at non-decreasing times, whatever keys each lists, a record is resent at most `3 - retries` times |
| EmailCron.ResendAtMostTwice | cron/EmailCron.js:11-36 | a record written by a first failed send (`retries` 1) is resent at most twice by later sweeps |
| EmailCron.RetiringDropsExtendingKeys | cron/EmailCron.js:17-21 | retiring the record of `a@x.co` also deletes the live record of `a@x.com` |
| Templates.Render | config/GetEmailTemplate.js:2-135 | an unknown kind gives the placeholder; a known kind with undefined `data` throws |
| Templates.VerificationContent | config/GetEmailTemplate.js:3-19 | the body renders, greets by name, links the verification URL as `href` and as text, and states the 24-hour expiry |
| Templates.ResetPasswordContent | config/GetEmailTemplate.js:20-37 | the body renders, greets by name, carries the reset URL as `href` and as text, and states the 15-minute expiry |
| Templates.ApiKeyContent | config/GetEmailTemplate.js:38-53 | the body renders and shows the key inside its `<code>` element |
| Templates.ResetSuccessContent | config/GetEmailTemplate.js:54-71 | the body renders and carries the login URL as `href` and as text |
| Templates.FeedbackAlwaysThrows | config/GetEmailTemplate.js:72-99 | the feedback template never produces a body, whatever the data |
| Templates.TaskboardContent | config/GetEmailTemplate.js:100-133 | throws exactly when an avatar is missing or empty; otherwise it shows each name or its fallback label, inserts `data.html` verbatim and links `data.url` |
| Templates.UnknownKindPlaceholder | config/GetEmailTemplate.js:134-135 | an unknown kind renders as `<p>No template found for email type: ` followed by the kind |
| Templates.ConcatContains | config/GetEmailTemplate.js:4-18 | every interpolated piece of a template literal occurs in the rendered string |
| Templates.ContainsAppend | config/GetEmailTemplate.js:101-133 | what either half of the taskboard page contains, the whole page contains |
| Templates.VerificationPage | config/GetEmailTemplate.js:4-18 | the verification page greets by name, carries the URL as `href` and as text, and states the 24-hour expiry |
| Templates.ResetPasswordPage | config/GetEmailTemplate.js:21-36 | the reset page greets by name, carries the reset URL as `href` and as text, and states the 15-minute expiry |
| Templates.ApiKeyPage | config/GetEmailTemplate.js:39-52 | the API-key page greets by name and shows the key inside its `<code>` element |
| Templates.ResetSuccessPage | config/GetEmailTemplate.js:55-70 | the password-changed page greets by name and carries the login URL as `href` and as text |
| Templates.TaskboardPeople | config/GetEmailTemplate.js:101-122 | the people row shows both names |
| Templates.TaskboardFooter | config/GetEmailTemplate.js:123-133 | the rest of the page inserts `data.html` verbatim and links `data.url` |
| Templates.TaskboardPage | config/GetEmailTemplate.js:101-133 | the taskboard page shows both names, inserts `data.html` verbatim and links `data.url` |
| Users.MinutesLeft | controllers/userController.js:264-265 | the whole number of minutes left is the least one covering the remaining time, and at least 1 |
| Users.UserDb.FindByEmail | controllers/userController.js:255 | finds the document holding the email, and nothing exactly when no document holds it |
| Users.UserDb.Register | controllers/userController.js:14-78 | a verified owner of the email is refused with 400 and nothing changes; an unverified owner is overwritten with the new name, username, role, password and a fresh 24-hour token; otherwise a new document is added; on 200 the verification mail goes out |
| Users.UserDb.Refresh | controllers/userController.js:33-40 | only the unverified document is replaced by its re-registered form, and emails stay unique |
| Users.UserDb.Insert | controllers/userController.js:42-51 | the new document is added under an unused id, and emails stay unique |
| Users.UserDb.VerifyEmail | controllers/userController.js:79-114 | 400 without a token or email, 401 for an unknown email, 403 for a deactivated account, 200 with no change if already verified; otherwise 200 with one token-matching account marked verified, or 400 with no change |
| Users.UserDb.Login | controllers/userController.js:115-216 | 400 without credentials, 401 for an unknown email; otherwise the status and saved document of `LoginAttempt`; only a successful login drops the `Website_User:` cache entries |
| Users.UserDb.ForgotPassword | controllers/userController.js:251-310 | 400, 404, 403 for a deactivated account, 429 with the minutes left while a link is valid; otherwise 200, a new 15-minute token stored and the reset mail built, with the token rolled back when the mail is not accepted; nothing changes on a refusal |
| Users.UserDb.IssueResetLink | controllers/userController.js:272-305 | stores the new token and expiry, or rolls both back when the mail is not accepted, and yields the reset mail |
| Users.UserDb.ResetPassword | controllers/userController.js:311-370 | 400 for a missing password, 402 for a mismatch; otherwise 200 with one account whose token matched given the new password and the confirmation mail, or 400 with no change |
| Users.RefusedBeforePassword | controllers/userController.js:126-136 | a deactivated or locked account is refused with 403 before the password is compared, and its document is unchanged |
| Users.WrongPassword | controllers/userController.js:147-159 | a wrong password gives 401, adds exactly one to the counter, locks for 15 minutes from the fifth failure, and changes nothing else |
| Users.RightPassword | controllers/userController.js:161-170 | the right password gives 200, resets the counter, records the login time and sets the avatar when none is set |
| Users.CounterNeverResets | controllers/userController.js:147-167 | with a wrong password, the counter never goes down and the password never changes, over any run of attempts |
| Users.FailureRelocks | controllers/userController.js:134-154 | once four failures are on record, the next failure locks the account, and for 15 minutes every attempt gets 403, even with the right password |
| Users.RegistrationTokenWindow | controllers/userController.js:42-51 | a new account's token is accepted exactly until 24 hours after registration |
| Users.ReregistrationTokenWindow | controllers/userController.js:33-40 | re-registering accepts the new token for exactly 24 hours and no other token |
| Users.VerificationSingleUse | controllers/userController.js:106-109 | once verified, no token is accepted any more |
| Users.VerificationMailLinksToken | controllers/userController.js:31-69 | the verification mail links the raw token, renders, and names the 24-hour expiry |
| Users.ResetCooldownWindow | controllers/userController.js:264-275 | while a link is valid, another is refused with between 1 and 15 minutes left; afterwards a new one is allowed |
| Users.ResetTokenLifecycle | controllers/userController.js:272-340 | a reset token is accepted exactly for 15 minutes, not after it is used, and not after the rollback |
| Users.LoginAfterReset | controllers/userController.js:335-340 | after a reset, the new password logs in on an active, unlocked, verified, non-Google account |
| Users.ResetMailLinksToken | controllers/userController.js:278-291 | the reset mail links the raw token, renders, and names a 15-minute expiry |
| Profiles.NumberOrZero | controllers/userController.js:519 | `Number(v) \|\| 0` always gives a number |
| Profiles.FilterMembers | controllers/userController.js:551-567 | the filter keeps exactly the entries that pass its test |
| Profiles.KeepSubjectsMembers | controllers/userController.js:550-552 | the subject filter throws exactly when a truthy entry is not a string; otherwise it keeps exactly the non-blank strings |
| Profiles.BaseComplete | controllers/userController.js:517-542 | the base fields are everything a non-mentor's update can hold |
| Profiles.MentorSplit | controllers/userController.js:545-568 | a mentor's update is the base fields plus the mentor fields |
| Profiles.UpdateProfile | controllers/userController.js:492-595 | the handler's outcome: the refusal of the first failing check, in the handler's order, or the update document |
| Profiles.BaseFields | controllers/userController.js:517-542 | the first failing range check refuses the body; otherwise the base fields of the update |
| Profiles.LeadingFields | controllers/userController.js:518-527 | a sent nonzero mobile number outside ten digits is refused; otherwise name, age, about and mobile are added |
| Profiles.TrailingFields | controllers/userController.js:528-542 | a bad tenth percentage is refused first, then a bad twelfth; otherwise all base fields are in the update |
| Profiles.AddPlain | controllers/userController.js:518-528 | an unchecked field is added exactly when it was sent |
| Profiles.AddChecked | controllers/userController.js:521-541 | a sent nonzero number outside the range refuses the body; otherwise the field is added |
| Profiles.MentorFields | controllers/userController.js:545-568 | a non-string subject makes the filter throw; otherwise the mentor fields of the update |
| Profiles.TeachingExperiences | controllers/user.controller.js:534-548 | an absent field skips the branch and writes nothing; any other non-array is refused with 400; an array keeps exactly the entries with a subject, an institution and a start date or `currentlyTeaching` |
| Profiles.StoredMobileInRange | controllers/userController.js:521-527 | a stored mobile number is 0 or has ten digits |
| Profiles.StoredPercentagesInRange | controllers/userController.js:529-542 | a stored percentage lies in [0, 100] |
| Profiles.AppliedRole | controllers/userController.js:517-578 | an accepted update passed every range check and holds exactly the fields the caller's role admits |
| Profiles.NonMentorNeverWritesMentorFields | controllers/userController.js:569-578 | a non-mentor's update holds no mentor field, and a body sending one is refused |
| Profiles.UpdateNeverEmpty | controllers/userController.js:593-595 | an accepted update is never empty and holds only fields that were sent |
| Profiles.StoredSubjectsNonBlank | controllers/userController.js:550-552 | stored subjects are non-blank strings taken from the body |
| Profiles.EmptyBodyRefused | controllers/userController.js:593-595 | an empty body is refused with "no changes" |
| Profiles.MobileInArrayChecked | controllers/userController.js:521-525 | a mobile number of fewer than ten digits sent as a one-element array is refused with 400 |
| Profiles.GooglePasswordFirst | controllers/userController.js:513-515 | a Google account sending a password is refused before any field is read |
| Reviews.FindReview | controllers/user.controller.js:843 | the index of the first review carrying the id |
| Reviews.AddReview | controllers/user.controller.js:781-825 | 400 for a bad id or a rating the guard refuses (falsy, or read as a number outside 1..5), 404 unless the target is a mentor, 500 when the rating does not cast, else 201 with exactly the new review, carrying the cast rating, appended and the average recomputed; emails stay unique |
| Reviews.EditReview | controllers/user.controller.js:826-870 | 400 for a bad id or a rating the guard refuses, 404 when no document holds the review, 403 unless the caller wrote it, 500 when the rating does not cast, else 200 with that review's rating (as cast) and comment replaced on the mentor found |
| Reviews.DeleteReview | controllers/user.controller.js:871-919 | 400 for a bad id, 404 when no document holds the review, 403 unless the caller wrote it or is that mentor, else 200 with every review of that id pulled |
| Reviews.SumBounds | controllers/user.controller.js:807 | ratings on the 1..5 scale sum to between one and five times their number |
| Reviews.AverageInScale | controllers/user.controller.js:807-808 | with at least one review, all on the scale, the average lies in [1, 5] |
| Reviews.AddedAppendsOne | controllers/user.controller.js:806-808 | adding appends exactly the new review, and the rating is the old total plus the new rating over one more review |
| Reviews.CastRating | models/User.js:7 | a value the schema's number type casts is the number `Number` reads it as |
| Reviews.AcceptedInScale | controllers/user.controller.js:791-793 | a rating that passes the guard and casts lies on the 1..5 scale |
| Reviews.WordPassesGuard | controllers/user.controller.js:791-793 | a word passes the guard, since it reads as NaN, and then fails the cast |
| Reviews.TrueRatesOne | controllers/user.controller.js:791-806 | `true` passes the guard and is stored as 1 |
| Reviews.DigitStringRating | controllers/user.controller.js:791-806 | a rating sent as the string of its digits passes the guard and is stored as that number |
| Reviews.AddedConsistent | controllers/user.controller.js:806-808 | adding a review on the scale keeps the ratings on the scale and the rating their average, now in [1, 5] |
| Reviews.EditedChangesOne | controllers/user.controller.js:850-853 | an edit changes only the rating and comment of one review, and the rating is the new average |
| Reviews.EditedConsistent | controllers/user.controller.js:850-853 | editing with a rating on the scale keeps the document consistent |
| Reviews.WithoutMembers | controllers/user.controller.js:896 | `pull` keeps exactly the reviews with another id |
| Reviews.PulledRemoves | controllers/user.controller.js:896-902 | after a delete the review is gone, the rest remain, and the rating is the new average, or 0 when none is left |
| Reviews.PulledConsistent | controllers/user.controller.js:896-902 | deleting keeps the document consistent |
| Reviews.PullOneOfDistinct | controllers/user.controller.js:884-896 | with distinct ids, the delete removes exactly the one review found |
| Admin.FilledCount | controllers/Admin.controller.js:312-322 | never more filled keys than keys checked |
| Admin.ProfileCompletion | controllers/Admin.controller.js:284-345 | the count and flags of the checked keys, and the rounded percentage over 15 |
| Admin.CountFilled | controllers/Admin.controller.js:312-325 | the loop's flag map has exactly the checked keys, each flagged by the "filled" rule, and its count is the number filled |
| Admin.CompletionNeverFull | controllers/Admin.controller.js:291-328 | at most 14 of the 15 fields can be filled, so completion never exceeds 93% |
| Admin.CorrectedCompletionFull | controllers/Admin.controller.js:291-328 | over the 14 keys actually checked, the percentage is between 0 and 100 and is 100 exactly when every key is filled |
| Admin.CeilDivBounds | controllers/Admin.controller.js:155 | the page count is the least number of pages that holds every user |
| Admin.PagesCoverUsers | controllers/Admin.controller.js:151-164 | the user at position k is on page k / limit + 1, which lies between 1 and the page count |
| Admin.HasNextMeansMore | controllers/Admin.controller.js:163-164 | `hasNext` holds exactly when users lie beyond the page, and `hasPrev` exactly from page 2 on |
| Admin.PaginateDefaults | controllers/Admin.controller.js:118-164 | without query parameters: page 1 of ten users, no previous page, a next one exactly beyond ten users |
| Admin.TogglesAreInvolutions | controllers/Admin.controller.js:185-230 | toggling twice restores the document, and each toggle flips only its own flag |
| Admin.ToggleUserStatus | controllers/Admin.controller.js:185-206 | 404 for an unknown id, else 200 with the status flag flipped |
| Admin.ToggleMentorVerification | controllers/Admin.controller.js:207-230 | 404 for an unknown id, 400 for a non-mentor, else 200 with the flag flipped |
| Admin.DeleteUser | controllers/Admin.controller.js:231-252 | 404 for an unknown id, 403 for an admin, else 200 with exactly that user removed |
| Admin.BulkUserOperations | controllers/Admin.controller.js:434-489 | 400 with no change for a missing or empty id list or an unknown operation, else 200 and the collection after the operation |
| Admin.BulkedKeepsEmails | controllers/Admin.controller.js:444-479 | bulk operations keep emails unique |
| Admin.BulkSparesAdmins | controllers/Admin.controller.js:445-474 | activation, deactivation and deletion never touch an admin |
| Admin.BulkVerifiesOnlyMentors | controllers/Admin.controller.js:459-472 | the verification pair changes mentors only |
| Admin.BulkEffect | controllers/Admin.controller.js:444-479 | an unlisted user is untouched, and a listed user the filter matches gets the operation's effect |
| Admin.Exported | controllers/Admin.controller.js:494-500 | the export lists no more users than were found |
| Admin.CsvFields | controllers/Admin.controller.js:504-513 | a row has seven columns |
| Admin.CsvRows | controllers/Admin.controller.js:504-510 | one row per exported user, in order |
| Admin.CsvReadsBack | controllers/Admin.controller.js:504-513 | when no value holds a comma or a newline, the body splits back into one line per user and each line into that user's seven columns |
| Admin.CommaInNameBreaksRow | controllers/Admin.controller.js:504-513 | nothing is quoted: a comma in a name makes the row split into other columns than the user's |
| Admin.ExportSelection | controllers/Admin.controller.js:490-500 | exactly the listed users that pass the filters are exported, and without a role filter no admin is |
| Uploads.FileFilter | config/MulterConfig.js:17-34 | accepted exactly when the mimetype is an image or one of the two zip types and the lower-cased extension is one of the six allowed |
| Uploads.KindCheckedFirst | config/MulterConfig.js:23-25 | a file of another kind is refused for its kind, whatever its name |
| Uploads.ExtensionCaseInsensitive | config/MulterConfig.js:21 | names whose extensions agree up to case get the same verdict |
| Uploads.UpperCaseJpegAccepted | config/MulterConfig.js:17-34 | `PHOTO.JPG` sent as `image/jpeg` is accepted |
| Uploads.SvgRefused | config/MulterConfig.js:27-32 | an image sent as `picture.svg` is refused for its extension |
| Uploads.NoExtensionRefused | config/MulterConfig.js:27-32 | an image whose name has no dot is refused |
| Uploads.ExtName | config/MulterConfig.js:21 | an extension is empty or starts with a dot |
| Uploads.DropSlashes | config/MulterConfig.js:113 | the result is a suffix of the input that does not start with `/` |
| Uploads.WithoutServer | config/MulterConfig.js:109-111 | an address starting with the server address is that address followed by the result; any other address is kept |
| Uploads.FromUploads | config/MulterConfig.js:115-122 | a path kept is one starting with `uploads/`, and one that already starts there is kept whole |
| Uploads.NormaliseAvatarPath | config/MulterConfig.js:99-122 | the path the step-by-step rewriting reaches is the one `cleanupOldAvatar` goes on to delete, or none when it stops early |
| Uploads.StripServer | config/MulterConfig.js:109-111 | removing the first occurrence of the server address removes the leading one |
| Uploads.StripSlashes | config/MulterConfig.js:113 | the loop drops exactly the leading slashes |
| Uploads.KeepFromUploads | config/MulterConfig.js:115-122 | the path from the first `uploads/` on, or none when it does not occur |
| Uploads.DeletedPathUnderUploads | config/MulterConfig.js:106-124 | whenever deletion goes ahead, the path starts with `uploads/` |
| Uploads.NothingMissing | config/MulterConfig.js:101-104 | nothing is deleted without a file, a user and an avatar |
| Uploads.UploadsPathUnchanged | config/MulterConfig.js:106-122 | an avatar already under `uploads/`, without surrounding whitespace or the server address, is deleted as it is |
| Uploads.ServerAddressStripped | config/MulterConfig.js:106-122 | `SERVER_URL/uploads/...` has the server address and the slash removed |
| Usernames.Hex | utils/GenrateUsername.js:5 | two lower-case hex digits per byte |
| Usernames.UnhexHex | utils/GenrateUsername.js:5 | reading the hex spelling back gives the bytes |
| Usernames.HexInjective | utils/GenrateUsername.js:5 | different bytes have different hex spellings |
| Usernames.ShortName | utils/GenrateUsername.js:4 | at most eight characters, no whitespace, a prefix of the lower-cased name with whitespace removed, and exactly eight when that is long enough |
| Usernames.UniqueUsername | utils/GenrateUsername.js:3-7 | the short name, `@`, then eight hex digits |
| Usernames.UsernameParts | utils/GenrateUsername.js:3-7 | before the `@` is the short name, and after it the hex of the random bytes, which read back as those bytes |
| Usernames.SameNameDifferentBytes | utils/GenrateUsername.js:3-7 | the same name with different random bytes gives different usernames |
| Usernames.BlankNameHasEmptyShortName | utils/GenrateUsername.js:4 | a name made only of whitespace has an empty short name |
| Avatars.ColorOrDefault | utils/generateAvatar.js:6 | an absent or empty colour becomes `#000000`, any other is kept |
| Avatars.Initials | utils/generateAvatar.js:5-17 | never more than two initials |
| Avatars.NoNameNoInitials | utils/generateAvatar.js:5-12 | a missing or empty name draws no initials |
| Avatars.SingleWord | utils/generateAvatar.js:11-12 | a name without spaces gives its upper-cased first character |
| Avatars.FirstInitial | utils/generateAvatar.js:8-16 | for a non-empty name that does not start with a space, the first initial is its upper-cased first character |
| Avatars.LastInitial | utils/generateAvatar.js:13-16 | the second initial comes from the character after the last space, and is absent when the name ends in a space |
| Avatars.DoubleSpace | utils/generateAvatar.js:8-16 | two spaces between words make an empty middle word, and the initials come from the first and last words |
| Avatars.TrailingSpace | utils/generateAvatar.js:8-14 | a trailing space makes an empty last word, and the second initial is dropped |
| Js.Or | controllers/userController.js:518-520 | `v \|\| fallback` is `v` exactly when `v` is truthy |
| Js.ToNumber | controllers/userController.js:519-537 | `Number(v)` is always a number or NaN |
| Js.ArrayOfDigits | controllers/userController.js:519-537 | a one-element array holding a number's decimal digits is read as that number, the same as the digits alone |
| Js.LongArrayIsNaN | controllers/userController.js:519-537 | an array of two or more items is NaN |
| Js.DigitsValueShow | controllers/userController.js:519-537 | the decimal spelling of a natural number reads back as that number |
| Js.ToNumberShow | controllers/userController.js:519-537 | a number sent as its decimal digits is read as that number |
| Js.DecimalFraction | controllers/userController.js:529-534 | `"85.5"` is read as 85.5 |
| Js.WordIsNaN | controllers/userController.js:519 | `"ten"` is NaN, and NaN is falsy |

## Left out

- The dispatch worker boundary (the forked worker and its message channel) is process concurrency. `sendEmail` is modelled as called directly, and the handlers model its outcome as a parameter (`mailAccepted`) or as the mail they hand over.
- The SMTP transport is an oracle of replies. The sender address built from environment variables is not modelled.
- The cron schedule (every three minutes) and node-cache's background expiry are not modelled. A sweep is a method call, and expiry is checked against the store's logical clock when an entry is read.
- Mongoose, Express, JWT cookies, bcrypt and SHA-256 are not modelled. The collection is a map, queries are searches over it, and hashes are an injective datatype. Schema validation, lower-casing of emails and save errors are not modelled.
- Users.UserDb.Register: does not model the error path of the verification mail (the handler has already answered 200), nor the 500 answers of its catch clause.
- Users.UserDb.ResetPassword: does not model `user.tokens = []`, because the user schema has no `tokens` path and strict mode drops it.
- Users.UserDb.Login: does not model the cookie, the JWT or save errors; the generated avatar's drawing and upload are a parameter, the address it is stored under.
- Reviews.AddReview: does not model the `alreadyReviewed` check. It compares a string with an ObjectId, so it never fires.
- Reviews.AddReview: the rating is an exact real; floating-point rounding of the average is not modelled.
- Reviews.CastRating: models the schema's number cast for numbers, strings and booleans. An array or object that passes the guard is treated as a failed cast, which makes the handler answer 500; the model does not follow Mongoose's casting of such values in detail.
- Reviews.EditReview: the branch where `reviews.id()` finds nothing on the matched mentor cannot be reached, because the query matched on that review's id.
- The ObjectId check of the path id is modelled as an `Option`. A new subdocument's id is a parameter that the caller guarantees unused.
- Profiles.UpdateProfile: the avatar branch (`req.file.publicPath`) is not modelled, because the route has no upload middleware and `req.file` is always undefined there.
- SendEach: the whole recipient loop runs at one clock value. In the source, `Date.now()` moves on while each send is awaited, so a later recipient's failure record gets a later `timestamp` and TTL start. The same holds for Mail.SendAll.
- SweepKeys: the whole sweep runs at one clock value. In the source, the clock moves on across the awaited sends, so a later key's `get` can see its record expired where the model still reads it. The same holds for EmailCron.Sweep.
- ShortName: counts Unicode scalar values, while `slice(0, 8)` counts UTF-16 code units. A name with characters outside the Basic Multilingual Plane, such as an emoji, gets a shorter short name in JavaScript than in the model.
- Js.ToNumber: reads decimal literals with an optional sign. Exponent, hexadecimal, binary, octal and `Infinity` spellings give NaN here, unlike JavaScript.
- Avatars.Initials: takes the first Unicode scalar value of a word, while `charAt(0)` takes one UTF-16 code unit. A word that starts with a character outside the Basic Multilingual Plane, such as an emoji, gives a lone high surrogate as its initial in JavaScript and the whole character in the model. The same holds for Avatars.SingleWord, FirstInitial and LastInitial.
- Case mapping is ASCII-only (`Lower`, `UpperChar`). This is exact for file extensions. Letters whose upper case is longer, such as `ß`, are not modelled.
- The pagination arithmetic requires a limit of at least 1. A limit of 0 or a non-numeric one (NaN from `parseInt`), a page below 1, and the filters, search and sort of `getAllUsers` are not modelled.
- Admin.BulkUserOperations: the `modifiedCount` of the response is not modelled.
- The dashboard statistics, mentor insights and system analytics handlers of the admin controller are not modelled. They are date arithmetic and aggregate queries.
- Uploads.ExtName: follows `path.extname` for the common forms (last dot of the last component, a leading dot not counting). Other platform-specific edge cases are not modelled.
- The deletion of the old avatar file, path resolution and path traversal are not modelled.
- Cache.Store.GetOrSet: cached values are documents, so a cached falsy value (0, `''`) is not modelled.
- The canvas drawing of `generateAvatar` is not modelled, nor its fallback on error.
- The static HTML around the interpolated fields of the templates is fixed text. Only the interpolated parts and a few fixed lines are stated.
- The purity of `getEmailTemplate` and `generateUniqueUsername` (equal inputs give equal outputs) holds by construction, since both are Dafny functions.

## Findings

| source | as written | input that shows it | evidently intended | confidence | as-written member | corrected member |
|---|---|---|---|---|---|---|
| utils/cacheService.js:29-31 | `keys()` calls `cache.keys()` but does not return it, so `RetryEmail` always sees a falsy key list | any cache holding a `FAILED_EMAIL_` record: the sweep resends nothing and deletes nothing | return the key list, so the sweep processes the failure records | not executed | Cache.Store.Keys, EmailCron.RetryEmailAsWired | Cache.Store.ListKeys, EmailCron.RetryEmailFixed |
| controllers/Admin.controller.js:291-328 | the completion divides by `totalFields = 15`, but only 14 keys are checked | a user with all 14 keys filled gets `completion` 93 | divide by the number of keys checked, so a complete profile reaches 100 | not executed | Admin.CompletionNeverFull | Admin.CorrectedCompletionFull |
