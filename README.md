# Tenant, quota and authentication model of the code-review platform

This project is a Dafny model of the backend's multi-tenant core and of one front-end utility:

- **Organization documents** (`backend/src/models/Organization.js`) are modelled in `organization.dfy`:
  - the slug the pre-save hook derives from the name;
  - the `limits` virtual for each plan;
  - the admission checks `canAddUser`, `canAddRepository` and `canPerformScan`;
  - `incrementUsage` and `decrementUsage` on the usage counters;
  - the collection-wide `resetMonthlyUsage`;
  - the schema's defaults and bounds.
- **User documents** (`backend/src/models/User.js`) are modelled in `user.dfy`:
  - the schema's enums and bounds;
  - the "hash only when modified" pre-save hook;
  - `comparePassword` and `toJSON`;
  - the `findByEmail` and `getOrganizationUsers` queries.
- **Authentication routes** (`backend/src/routes/auth.js`) are modelled in `auth.dfy`:
  - the `validateLogin` and `validateSignup` chains;
  - the team-size mapping;
  - the `/login`, `/signup`, `/verify`, `/refresh` and `/logout` handlers, run against an in-memory store of organizations and users.
- **The structured logger** (`src/lib/logger.ts`) is modelled in `logger.dfy`:
  - how `log` builds an entry;
  - which fields `formatLogEntry` writes;
  - the list of at most 100 entries that `sendToLoggingService` keeps.
- `strings.dfy` holds the JavaScript string operations the others rely on:
  - `trim` with ECMAScript white space;
  - ASCII `toLowerCase`;
  - UTF-16 length.

The documents that are updated in place are Dafny classes:
- `Organization` and `User`;
- the store behind the routes (`Store`);
- the logger (`Logger`).

Their `Save` methods validate first and run the pre-save hooks only on a document that passes. The handlers are methods whose contracts give every response status together with the store's new contents. Pure parts are functions, and lemmas state their properties:
- the slug pipeline;
- plan limits and counter arithmetic;
- validation;
- projections;
- entry formatting.

The code paths below were modelled as the code reads. Where the project's own design description asks for something else, the model follows the code:
- `/login` never looks at a user's `status`, so pending and inactive users log in like active ones.
- `/signup` neither calls `canAddUser` nor `incrementUsage`. The new organization's `usage.users` stays 0.
- `/signup` saves the organization before the user and does not undo it. When the user's save fails, the organization stays stored. The handler answers 500 (`Store.Signup`, `Store.AstralSignup`).
- `/signup` hashes the password, and the User pre-save hook hashes it again (see Findings).

External services are parameters or symbols:
- **bcrypt** is a perfect one-way function: `Hashed(Plain(pw))`. `compare(c, h)` holds exactly when `h` is `Hashed(Plain(c))`.
- **A JWT** is the user id it carries.
- **express-validator's `isEmail` and `normalizeEmail`** are function-valued fields of the store.
- **Clock readings** (`now`, the end of the first billing period, the first day of the month, the ISO timestamp of a log entry) are arguments.

## Model

| member | source | states |
|---|---|---|
| Strings.TrimStart | backend/src/routes/auth.js:19 | The result is a suffix of `s`. Only ECMAScript white space was dropped, and the result does not start with white space. |
| Strings.TrimEnd | backend/src/routes/auth.js:19 | The result is a prefix of `s`. Only white space was dropped, and the result does not end with white space. |
| Strings.Trim | backend/src/routes/auth.js:19 | The result is one contiguous piece of `s` with no white space at either end. Every character dropped before or after that piece is ECMAScript white space. |
| Strings.TrimIdempotent | backend/src/models/User.js:8 | Trimming a trimmed value changes nothing, so the schema's `trim` after the validator's `trim()` is a no-op. |
| Strings.Lower | backend/src/models/User.js:15 | `lowercase` maps every character independently and keeps the length. |
| Strings.LowerIdempotent | backend/src/models/User.js:15 | Lower-casing twice is lower-casing once. |
| Strings.Utf16Length | backend/src/models/User.js:9 | The length `maxlength` sees is between the number of characters and twice that. |
| Strings.Utf16LengthOfAstral | backend/src/models/User.js:9 | A string made only of characters beyond U+FFFF has exactly two code units per character. |
| OrganizationModel.CollapseRuns | backend/src/models/Organization.js:155 | Replacing runs of non-`[a-z0-9]` characters leaves only `a`–`z`, `0`–`9` and `-`, with no two adjacent hyphens. |
| OrganizationModel.StripEndHyphens | backend/src/models/Organization.js:156 | At most one leading and one trailing hyphen are removed, and nothing else: the result is a contiguous piece of the input, and each dropped end was a hyphen. Input without hyphens at its ends is returned unchanged. |
| OrganizationModel.Slugify | backend/src/models/Organization.js:153-156 | Every generated slug has only `a`–`z`, `0`–`9` and `-`, no two adjacent hyphens, and no leading or trailing hyphen. |
| OrganizationModel.SlugKeepsAlnums | backend/src/models/Organization.js:153-156 | The slug keeps exactly the letters and digits of the lower-cased name, in order. |
| OrganizationModel.SlugOfSlug | backend/src/models/Organization.js:153-156 | Slugifying a string that already has slug shape returns it unchanged. |
| OrganizationModel.SlugifyIdempotent | backend/src/models/Organization.js:153-156 | Slugifying an existing slug returns it unchanged. |
| OrganizationModel.Words | backend/src/models/Organization.js:155 | The maximal runs of `a`–`z` and `0`–`9`: each element is such a run, and there are none exactly when the text has no such character. A text that starts with a letter or digit starts its first run with it. |
| OrganizationModel.JoinWords | backend/src/models/Organization.js:155-156 | Runs joined by single hyphens are empty exactly when there are no runs, and otherwise start and end with a letter or digit. |
| OrganizationModel.CollapseJoinsWords | backend/src/models/Organization.js:155 | Replacing each run of other characters by one hyphen gives the runs of letters and digits joined by single hyphens. One more hyphen follows exactly when the text ends in other characters after a run. |
| OrganizationModel.SlugifyJoinsWords | backend/src/models/Organization.js:152-156 | The slug is exactly the maximal `[a-z0-9]` runs of the lower-cased name, joined by single hyphens. |
| OrganizationModel.PlanLimits | backend/src/models/Organization.js:162-185 | free, professional and enterprise give their fixed tuples (5/3/100/1, 20/25/1000/3, 100/100/10000/10). Any other plan falls back to free. |
| OrganizationModel.PlanTiersOrdered | backend/src/models/Organization.js:163-182 | Every plan grants at least the free tuple and at most the enterprise tuple, component by component. |
| OrganizationModel.IsRecipientEmail | backend/src/models/Organization.js:74-76 | The recipient validator holds exactly for strings with no white space and exactly one `@`, and with a `.` after the `@`. That `.` has a character on each side. |
| OrganizationModel.DefaultSettings | backend/src/models/Organization.js:31-96 | The schema defaults of `settings` pass its own enum, bound and recipient validators. |
| OrganizationModel.Incremented | backend/src/models/Organization.js:204-211 | Exactly the counter named by `type` grows by `amount`. An unknown type changes nothing. There is no upper bound. Non-negative counters stay non-negative for a non-negative amount. |
| OrganizationModel.Decremented | backend/src/models/Organization.js:217-224 | The named counter becomes `max(0, counter - amount)` and the others are unchanged, so counters never go negative. |
| OrganizationModel.DecrementUndoesIncrement | backend/src/models/Organization.js:204-224 | Decrementing by what was just added restores the counters. |
| OrganizationModel.ResetIfStale | backend/src/models/Organization.js:234-241 | A document with `lastResetDate < firstDayOfMonth` gets `scansThisMonth = 0` and `lastResetDate = now`. Any other document is unchanged. `users` and `repositories` are never touched. |
| OrganizationModel.ResetStableWithinMonth | backend/src/models/Organization.js:230-243 | A second reset later in the same month changes nothing. |
| OrganizationModel.Organization.constructor | backend/src/models/Organization.js:3-141 | A new document holds the schema's defaults and the trimmed name. It passes validation exactly when the name is non-empty and at most 100 code units, the plan is in the enum, and both maxima are at least 1. |
| OrganizationModel.Organization.SlugAfterSave | backend/src/models/Organization.js:151-159 | An existing slug is never overwritten. Without a change to the name the slug stays as it is. |
| OrganizationModel.Organization.Save | backend/src/models/Organization.js:151-159 | Validation runs first: the save succeeds exactly when the document is schema-valid. Only then does the hook set the slug as `SlugAfterSave` says and clear the name's modified flag. A failed save changes nothing. |
| OrganizationModel.Organization.Limits | backend/src/models/Organization.js:162-185 | The `limits` virtual is the plan's tuple. |
| OrganizationModel.Organization.CanAddUser | backend/src/models/Organization.js:187-189 | True exactly when one more user stays within the document's own `maxUsers`. |
| OrganizationModel.Organization.CanAddRepository | backend/src/models/Organization.js:192-194 | True exactly when one more repository stays within the document's own `maxRepositories`. |
| OrganizationModel.Organization.CanPerformScan | backend/src/models/Organization.js:197-200 | True exactly when one more scan this month stays within the plan's `maxScansPerMonth`. |
| OrganizationModel.Organization.IncrementUsage | backend/src/models/Organization.js:204-214 | The usage becomes `Incremented(old usage)`. The save then succeeds exactly when the document is schema-valid, and only a successful save runs the slug hook. |
| OrganizationModel.Organization.DecrementUsage | backend/src/models/Organization.js:217-227 | The usage becomes `Decremented(old usage)`. The save then succeeds exactly when the document is schema-valid, and only a successful save runs the slug hook. |
| OrganizationModel.NewSavedOrganization | backend/src/routes/auth.js:130-137 | A free-plan organization with default settings and zero usage. Its save succeeds exactly when the trimmed name is 1 to 100 code units and both maxima are at least 1. It then carries the slug of its trimmed name. Otherwise it has no slug and its name stays modified. |
| OrganizationModel.ResetMonthlyUsage | backend/src/models/Organization.js:230-243 | Every organization's usage becomes `ResetIfStale` of its old usage, and nothing else changes. |
| UserModel.CompareAcceptsHashedPassword | backend/src/models/User.js:98-100 | A password hashed once is accepted for that password and no other. |
| UserModel.CompareRejectsDoubleHash | backend/src/models/User.js:98-100 | A password hashed twice is not accepted when the candidate is that password. |
| UserModel.User.constructor | backend/src/models/User.js:4-77 | A new user holds the trimmed name and the lower-cased, trimmed email, with status active and default preferences. The password counts as modified. The document validates exactly when the name is 1 to 50 code units, the email is non-empty and the password has at least 6 code units. |
| UserModel.User.Save | backend/src/models/User.js:85-95 | Validation runs first: the save succeeds exactly when the document is schema-valid. Then the password is replaced by its hash exactly when it was modified, and the flag is cleared. A failed save changes nothing. |
| UserModel.User.ComparePassword | backend/src/models/User.js:98-100 | True exactly when the stored secret is the hash of the candidate, so a stored plaintext accepts nothing. |
| UserModel.User.ToJSON | backend/src/models/User.js:103-107 | The output has no `password` path and no hash anywhere, and keeps every other path of `toObject()`. `ToObject` gives `organizationId` as the stored reference. The populated organization that `/login` and `/verify` return is supplied through `PopulatedAs`. |
| UserModel.NewSavedUser | backend/src/routes/auth.js:140-148 | Building and saving a user succeeds exactly when the schema accepts it. The stored password is then the hash of what was given. |
| UserModel.FindByEmail | backend/src/models/User.js:115-117 | Every user found has exactly the lower-cased query as its stored email. Under the unique index on `email`, at most one is found. |
| UserModel.FindByEmailIgnoresCase | backend/src/models/User.js:115-117 | A query differing only in letter case finds the same users. A user stored with email `e` is found by any such query. |
| UserModel.GetOrganizationUsers | backend/src/models/User.js:120-132 | The result is exactly the users of the organization, matching `role` and `status` only when those options are given. |
| UserModel.RoleFiltersPartitionMembers | backend/src/models/User.js:120-132 | Filtered results are subsets of the unfiltered one. The `admin`, `developer` and `viewer` filters are pairwise disjoint, and together they cover the organization's members. |
| AuthRoutes.GenerateToken | backend/src/routes/auth.js:27-33 | The token carries the user id it was signed for. |
| AuthRoutes.LoginErrors | backend/src/routes/auth.js:13-16 | `email` is reported exactly when it is not an email, and `password` exactly when `isLength` counts fewer than 6 characters. There are no errors exactly when both pass. |
| AuthRoutes.SignupFieldErrors | backend/src/routes/auth.js:18-24 | Each of the five fields is reported exactly when its rule fails. The list is empty exactly when all rules pass. |
| AuthRoutes.SignupErrors | backend/src/routes/auth.js:18-24 | As written: `name` is reported exactly when its trimmed `isLength` count is outside 2–50, `organizationName` outside 2–100, and `password` below 6. The list is empty exactly when all five rules pass. |
| AuthRoutes.Characters | backend/src/routes/auth.js:13-24 | The `isLength` count is at most the number of code points, and zero exactly when every character is a presentation selector (U+FE0E or U+FE0F). |
| AuthRoutes.CharactersAppend | backend/src/routes/auth.js:13-24 | The `isLength` count of a concatenation is the sum of the counts. |
| AuthRoutes.CharactersWithoutSelectors | backend/src/routes/auth.js:19 | Without presentation selectors, every code point counts once. |
| AuthRoutes.SelectorPasswordRefused | backend/src/routes/auth.js:15 | The password `abcde` followed by U+FE0F has six code points but counts five, so `validateLogin` reports `password`. |
| AuthRoutes.SignupValidationPassesLogin | backend/src/routes/auth.js:13-24 | A request that passes signup validation passes login validation with the same email and password. |
| AuthRoutes.CorrectedValidationFitsSchema | backend/src/routes/auth.js:18-24 | With lengths in code units, a request that passes validation is one the User schema accepts. |
| AuthRoutes.AstralNamePassesValidationOnly | backend/src/routes/auth.js:19 | A name of 26 emoji passes `validateSignup`. The code-unit validation rejects it, and so does the User schema. |
| AuthRoutes.TeamSizeQuota | backend/src/routes/auth.js:133-134 | `1-5` gives 5/3, `6-20` gives 20/10 and `21-50` gives 50/25. Anything else gives 100/100. |
| AuthRoutes.TeamSizeQuotaVersusFreePlan | backend/src/routes/auth.js:130-135 | Every bucket gives at least the free plan's 5 users and 3 repositories, so the schema's `min: 1` holds. Every bucket except `1-5` grants more users than the free plan's own limit. |
| AuthRoutes.Store.Populate | backend/src/routes/auth.js:52 | `populate('organizationId')` yields the organization with that id, or nothing when there is none. |
| AuthRoutes.Store.InsertOrganization | backend/src/models/Organization.js:10-15 | Inserting a saved organization with a fresh id and a free slug keeps ids and slugs unique. |
| AuthRoutes.Store.InsertUser | backend/src/models/User.js:11-17 | Inserting a saved, schema-valid user with a free email keeps ids and emails unique and every stored user schema-valid. |
| AuthRoutes.Store.CreateOrganization | backend/src/routes/auth.js:130-137 | The organization is stored, fresh, exactly when its name validates and its slug is free. Otherwise nothing is stored. |
| AuthRoutes.Store.CreateAdmin | backend/src/routes/auth.js:140-148 | The admin is stored exactly when the User schema accepts it, with the organization's id and the hash of the given password. |
| AuthRoutes.Store.CreateAccount | backend/src/routes/auth.js:129-166 | The organization is stored whenever its save succeeds, even when the user's save then fails (a 500). The response is 201 only when both saves succeed. |
| AuthRoutes.Store.Signup | backend/src/routes/auth.js:103-175 | Invalid input gives 400 and a taken email gives 400, each with nothing stored. A 201 stores exactly one organization and one admin bound to it, holding `hash(hash(pw))`, and returns the user without its password. A 500 stores no user but keeps the organization when its save succeeded. 201 happens exactly when both documents validate. |
| AuthRoutes.Store.SignupCorrected | backend/src/routes/auth.js:103-175 | The same handler, validating in code units and hashing once. A 201 stores an admin holding `hash(pw)`. When the email normalizes to a non-empty string, a 500 stores nothing and 201 happens exactly when the organization is accepted. |
| AuthRoutes.Store.FindCredentials | backend/src/routes/auth.js:52-67 | The user found has the email and accepts the password. When none is found, no stored user with that email accepts it. |
| AuthRoutes.Store.RecordLogin | backend/src/routes/auth.js:69-71 | A stored user passes the schema, so the save succeeds. `lastLoginAt` becomes now, and no stored password changes. |
| AuthRoutes.Store.Login | backend/src/routes/auth.js:38-98 | Invalid input gives 400. An unknown email and a wrong password give the identical 401. 200 happens exactly when the stored user with that email accepts the password. It then sets that user's `lastLoginAt` and returns the user without its password, plus a token for its id. No password changes. |
| AuthRoutes.Store.Verify | backend/src/routes/auth.js:180-209 | An unknown user id gives 401 "User not found". Otherwise the response is 200 with that user, without its password, and its organization. |
| AuthRoutes.Store.Refresh | backend/src/routes/auth.js:214-239 | An unknown user id gives 401. Otherwise the response is a token for that same id. |
| AuthRoutes.Store.Logout | backend/src/routes/auth.js:244-254 | The response is always the logged-out acknowledgement, and no state changes. |
| AuthRoutes.Store.DoubleHashedAdminLocksOut | backend/src/routes/auth.js:126-148 | An admin stored as `Signup` stores it does not accept the password chosen at signup, so a login with that email and that password is refused. |
| AuthRoutes.Store.HashedAdminLogsIn | backend/src/routes/auth.js:140-148 | An admin stored as `SignupCorrected` stores it accepts exactly its own password. |
| AuthRoutes.Store.AstralSignup | backend/src/routes/auth.js:19 | A signup named with 26 emoji and otherwise acceptable ends in 500, with no user stored and the new organization left behind. |
| AuthRoutes.Store.AstralSignupCorrected | backend/src/routes/auth.js:19 | The corrected signup refuses the same request with 400 naming `name` and stores nothing. |
| Logging.LevelFromName | src/lib/logger.ts:2-7 | A recognised name maps back to the level with that name. |
| Logging.LevelNameRoundTrip | src/lib/logger.ts:2-7 | The four level names are distinct, so each name gives its level back. |
| Logging.IfTruthy | src/lib/logger.ts:45-46 | An optional string is kept exactly when it is present and non-empty. |
| Logging.MakeEntry | src/lib/logger.ts:41-55 | An entry has the level, the message and the timestamp. `userId` and `component` are present exactly when the argument is truthy. `error` and `metadata` are present exactly when given. |
| Logging.FormatLogEntry | src/lib/logger.ts:26-38 | The object starts with `level`, `message` and `timestamp` holding the entry's values, and has one more member for each optional field that is present and truthy. |
| Logging.FormatKeysAscend | src/lib/logger.ts:27-35 | The keys follow the object literal's order, so no key appears twice. |
| Logging.FormatOmitsAbsent | src/lib/logger.ts:27-35 | `level`, `message` and `timestamp` come first. Each optional field is written exactly when it is truthy in the entry. |
| Logging.FormatLookup | src/lib/logger.ts:27-35 | Each key of the formatted object holds the entry's value, or is absent when that value is falsy. |
| Logging.FormatRoundTrip | src/lib/logger.ts:26-38 | Reading the formatted members back gives the entry with only its empty strings dropped. |
| Logging.MadeEntryRoundTrip | src/lib/logger.ts:40-57 | An entry built by `log` reads back unchanged from its formatted form. |
| Logging.LastN | src/lib/logger.ts:106-108 | The result is the last `min(n, |s|)` elements of `s`. |
| Logging.RetainedEntries | src/lib/logger.ts:102-108 | After one send, the list has at most 100 entries, ends with the new entry, and is a suffix of the old list followed by the entry. It drops nothing when the old list had fewer than 100. |
| Logging.RetainedIsEnqueue | src/lib/logger.ts:102-108 | On a list within the bound, push-and-splice is a fixed-capacity queue that drops the oldest entry when full. |
| Logging.SendAllKeepsLast | src/lib/logger.ts:98-114 | After any number of sends, the list is the last 100 of the old entries followed by the new ones. |
| Logging.Logger.constructor | src/lib/logger.ts:102 | With no stored list, the logger starts from the empty list. |
| Logging.Logger.SendToLoggingService | src/lib/logger.ts:98-114 | The stored list becomes the last 100 of the old list plus the entry. |
| Logging.Logger.Log | src/lib/logger.ts:40-96 | The entry `MakeEntry` builds is stored, and its formatted members read back as that entry. |
| Logging.Logger.Error | src/lib/logger.ts:116-118 | An `error` entry with the message, the error and the metadata is stored last. |
| Logging.Logger.Warn | src/lib/logger.ts:120-122 | A `warn` entry with the message and no error is stored last. |
| Logging.Logger.Info | src/lib/logger.ts:124-126 | An `info` entry with the message and no error is stored last. |
| Logging.Logger.Debug | src/lib/logger.ts:128-130 | A `debug` entry with the message and no error is stored last. |

## Left out

- bcrypt's salt, cost factor and 72-byte input limit are not modelled. A hash is a symbolic value that remembers what was hashed.
- JWT signing keys, expiry (`JWT_EXPIRES_IN`) and the `authenticateToken` middleware are not modelled. `/verify`, `/refresh` and `/logout` receive the user id the middleware decoded.
- `isEmail` and `normalizeEmail` from express-validator are parameters of the store, not definitions.
- Unicode case mapping beyond ASCII is not modelled (`toLowerCase` maps only `A`–`Z` here). Names whose slug or email depends on other letters are outside the model.
- Calendar arithmetic is not modelled: the `setMonth(+1)` billing default and the construction of the first day of the month. Times are naturals given by the caller, with `firstDayOfMonth <= now`.
- JavaScript numbers are unbounded integers here. Fractional or non-finite counter amounts are not modelled.
- The `fullName` virtual, `timestamps`, the secondary indexes and the `settings` and `billing` sub-documents beyond their defaults and enums are not modelled.
- Plan names that are properties of `Object.prototype` (such as `constructor`) make `limits[plan]` truthy in JavaScript. The enum keeps them out of stored documents, so `PlanLimits` treats every unlisted plan as free.
- Concurrency is not modelled. The check-then-act race between two signups, or between `canAddUser` and `incrementUsage`, is outside a sequential model.
- Database and network failures (a rejected promise, a lost connection) are not modelled. They surface as the handlers' 500 responses.
- AuthRoutes.Store.RecordLogin: the 500 "Server error during login" after a failed `user.save()` (backend/src/routes/auth.js:91-97) does not arise, because the store holds only users that passed the schema when saved. A stored document that stops validating, say after a schema change, is not modelled.
- AuthRoutes: request fields are strings here. A JSON number or other non-string field passes `isLength` through its string form, but then `bcrypt.hash` or `bcrypt.compare` throws and the real handler answers 500. Such requests are not modelled.
- AuthRoutes.Characters follows `isLength` of validator 13: code points, less one for each U+FE0E or U+FE0F. The installed version of express-validator is not part of this model.
- AuthRoutes: the handlers' server-side `logger.info` and `logger.error` calls (backend/src/routes/auth.js:80, 92, 157, 169, 203, 233, 248, 256) only write to the log and are not modelled.
- AuthRoutes.Store.Signup: `organization.save()` is modelled as failing only on the schema or a duplicate slug.
- Logging: console output, the development colour prefixes and the JSON text layout (indentation) are not modelled. `formatLogEntry` yields its members in order, not a string.
- Logging.Logger.SendToLoggingService: in these cases the real method silently does nothing: a `localStorage` that is unavailable or full, stored text that is not JSON, or stored JSON that is not an array (`{}` or `"x"`, where `logs.push` throws and the handler swallows the error). The model always succeeds.
- UserModel.CompareRejectsDoubleHash, AuthRoutes.Store.DoubleHashedAdminLocksOut: a hash is a symbol here, not text, so a candidate equal to the discarded first hash is not modelled. In the program, bcrypt accepts that 60-character text against the stored double hash. The lemmas state only that the signup password itself is refused.
- Logging: `new Date().toISOString()` is an argument. Metadata values are taken as their rendered text.
- `useLogger` only partially applies `component` and `userId` to the four level methods, so it is not modelled separately.

## Findings

| source | as written | input that shows it | evidently intended | confidence | as-written member | corrected member |
|---|---|---|---|---|---|---|
| backend/src/routes/auth.js:126-143 | `/signup` hashes the password, then the User pre-save hook (backend/src/models/User.js:85-95) hashes the hash, because `password` counts as modified on a new document. | Any valid signup, then `/login` with the same email and password: the login answers 401 "Invalid credentials". | The stored password is the hash of the plaintext, and that login succeeds. | not executed; high | AuthRoutes.Store.Signup, AuthRoutes.Store.DoubleHashedAdminLocksOut | AuthRoutes.Store.SignupCorrected, AuthRoutes.Store.HashedAdminLogsIn |
| backend/src/routes/auth.js:19 | `isLength({ max: 50 })` counts a surrogate pair as one character. The User schema's `maxlength: 50` (backend/src/models/User.js:9) counts UTF-16 code units. | A signup whose name is 26 × U+1F600, with all other fields valid: validation passes and the organization is saved. The user's save then fails, so the response is 500 and the organization remains. | Validation and schema agree, so the request is refused with 400 and nothing is stored. | not executed; medium | AuthRoutes.Store.AstralSignup, AuthRoutes.AstralNamePassesValidationOnly | AuthRoutes.Store.AstralSignupCorrected, AuthRoutes.Store.SignupCorrected |
