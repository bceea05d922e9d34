# AWAAZ complaint management — a Dafny model of its decision logic

AWAAZ lets citizens file public complaints, vote on them and comment on them; administrators
assign and resolve them. This project models the parts of the application that decide what
happens to a request, and proves what each of them promises:

- **List-query shaping** of `getAllComplaints` (module `ComplaintQuery`). Starting from the
  parsed query string, it drops the reserved parameters and rewrites the operator words
  `gt/gte/lt/lte` into `$`-operators. It then computes the sort and projection strings and the
  page arithmetic, and finally executes the shaped query against the matching documents.
- **Complaint schema** (`ComplaintSchema`): the enums, the field constraints, creation with
  defaults, and the partial update applied by `findByIdAndUpdate` with validators on.
- **Complaint handlers** (`ComplaintController`). The class `ComplaintStore` holds the
  collection as a map from id to complaint. Each handler is a method returning the HTTP status
  code and the new state. The vote toggle, comment append, assignment and status change are
  pure functions with their own lemmas.
- **User schema** (`UserSchema`): its constraints and defaults, the pre-save hook that hashes a
  modified password, and the password stripping of `createSendToken`.
- **Authentication handlers** (`AuthController`). The class `UserStore` implements register,
  login and password change. Hashing, comparing, signing and the email check are function
  parameters.
- **Frontend mock authentication service** (`MockAuth`). The class `MockAuthService` is the
  live path of `src/services/authService.js`, where `MOCK_ENABLED` is `true`. It holds this
  tab's user list, the persisted copy shared by every tab (which another tab may change between
  two calls, so the two need not agree), and the session token and user.
- **Error middleware** (`ErrorMiddleware`): the classifiers, and the handler that turns an
  error record and the environment into an optional response.

Supporting modules: `Wrappers` (Option, Result), `Text` (JavaScript `trim`, `split`/`join`,
ASCII `toLowerCase`, `Number` on integer strings, decimal rendering) and `Identity` (user ids,
roles, the authenticated caller).

Where the code and its description differ, the model follows the code:

- The operator rewrite acts on the serialised JSON of the whole filter. It therefore also
  rewrites string values that are exactly an operator word, and words inside keys and values.
  It does not rewrite a word that follows a control character, because JSON escapes that
  character with an escape ending in a letter or digit and so removes the word boundary.
- `page` and `limit` fall back to their defaults only on `0` or a non-numeric value. Negative
  values pass through, and the skip `(page - 1) * limit` keeps the sign of that product: a page
  below 1 with a positive limit gives a negative skip, which the store refuses, while a negative
  limit with a page below 1 gives a positive skip (`page=-1&limit=-5` skips 10) and with page 1
  a skip of 0. The store reads a negative limit as its magnitude.
- The owner's generic update may set any field, `status`, `votes` and `user` included.
- `votes == |voters|` is not an invariant, since seeded complaints start with random votes and
  no voters. What a vote preserves is `votes - |voters|`.
- A second vote by a caller who had already voted restores the count and the set of voters, but
  not their order: `$pull` removes the id and `$push` appends it at the end.

## Model

| member | source | states |
|---|---|---|
| ComplaintQuery.RewriteObject | backend/src/controllers/complaintController.js:12-13 | every key and value of a nested filter object is rewritten, and no two keys merge (each result key restores to a source key) |
| ComplaintQuery.RestoreRewrite | backend/src/controllers/complaintController.js:13 | undoing the `$` insertion gives back the original string, so the rewrite loses nothing |
| ComplaintQuery.RewriteOperators | backend/src/controllers/complaintController.js:13 | restoring the rewritten string gives back the input |
| ComplaintQuery.OperatorWordRewrites | backend/src/controllers/complaintController.js:13 | an operator word standing alone gains a `$` |
| ComplaintQuery.RewriteInjective | backend/src/controllers/complaintController.js:13 | two different keys never rewrite to the same key |
| ComplaintQuery.RewriteAllInjective | backend/src/controllers/complaintController.js:13 | the rewrite is injective and restoring inverts it, for every string |
| ComplaintQuery.OperatorWordsRewrite | backend/src/controllers/complaintController.js:13 | `gt`, `gte`, `lt`, `lte` become `$gt`, `$gte`, `$lt`, `$lte` |
| ComplaintQuery.OperatorRewrites | backend/src/controllers/complaintController.js:13 | each operator word becomes `$` followed by itself |
| ComplaintQuery.PlainWordIsFixed | backend/src/controllers/complaintController.js:13 | a single word that is not an operator name is left unchanged |
| ComplaintQuery.NoDollarMeansFixed | backend/src/controllers/complaintController.js:13 | a rewrite result without `$` equals its input, so the rewrite only ever inserts `$` |
| ComplaintQuery.NoBareOperatorAfterDollar | backend/src/controllers/complaintController.js:13 | a rewrite never leaves an operator word at the start of what follows an inserted `$` |
| ComplaintQuery.RewriteKeepsHead | backend/src/controllers/complaintController.js:13 | a string that starts with a non-word character keeps that character first |
| ComplaintQuery.WordLenOfWord | backend/src/controllers/complaintController.js:13 | a word followed by a non-word character is matched as exactly that word (the `\b` boundaries) |
| ComplaintQuery.RestoreOfDollarWord | backend/src/controllers/complaintController.js:13 | restoring `$op` followed by a non-word tail gives back `op` |
| ComplaintQuery.RestoreOfWord | backend/src/controllers/complaintController.js:13 | restoring a plain word keeps it |
| ComplaintQuery.RestoreRewriteWord | backend/src/controllers/complaintController.js:13 | the rewrite of a string that starts with a word is undone by restoring |
| ComplaintQuery.RestoreRewriteOther | backend/src/controllers/complaintController.js:13 | the rewrite of a string that starts with another character is undone by restoring |
| ComplaintQuery.ReservedHaveNoPreimage | backend/src/controllers/complaintController.js:8-13 | no key outside `page/sort/limit/fields` is rewritten into one of them |
| ComplaintQuery.Filter | backend/src/controllers/complaintController.js:7-13 | the filter holds no reserved key; every other key appears rewritten with its rewritten value; every filter key comes from a non-reserved parameter |
| ComplaintQuery.RangeFilter | backend/src/controllers/complaintController.js:7-15 | `key[op]=value` becomes the filter `{key: {$op: value}}` |
| ComplaintQuery.OperatorValuesAreRewritten | backend/src/controllers/complaintController.js:12-13 | a parameter whose value is `gt` is stored as `$gt` |
| ComplaintQuery.ListSpec | backend/src/controllers/complaintController.js:18-31 | a non-empty string gets its commas replaced by spaces; an absent or empty value gives the default; an array or object fails, because `split` throws |
| ComplaintQuery.NumberOf | backend/src/controllers/complaintController.js:34-35 | a string parameter is read with `Number`; a repeated parameter is read as its values joined by commas; an absent or object parameter is NaN |
| ComplaintQuery.PageParam | backend/src/controllers/complaintController.js:34-35 | NaN or 0 gives the default; any other number, a negative one included, is kept; the result is never 0 |
| ComplaintQuery.CompileQuery | backend/src/controllers/complaintController.js:7-38 | a non-string sort fails first, then a non-string fields; otherwise the query has the filter, sort, projection, `limit` and `skip = (page - 1) * limit` |
| ComplaintQuery.DefaultShaping | backend/src/controllers/complaintController.js:18-36 | with no shaping parameters the query sorts by `-createdAt`, hides `__v`, skips 0 and takes 10 |
| ComplaintQuery.NegativePageIsKept | backend/src/controllers/complaintController.js:34-36 | `page=-2` with the default limit gives skip -30, not a clamped value |
| ComplaintQuery.FirstPageSkipsNothing | backend/src/controllers/complaintController.js:34-36 | page 1, an absent page or page 0 skips nothing |
| ComplaintQuery.Window | backend/src/controllers/complaintController.js:38 | the page holds at most `limit` results, exactly the ones starting at `skip`, in order |
| ComplaintQuery.WindowExtendsPrefix | backend/src/controllers/complaintController.js:36-38 | the page at `start` continues the results before `start` |
| ComplaintQuery.PagesTile | backend/src/controllers/complaintController.js:36-38 | reading pages 1 to n shows the first `n * limit` results, each once, in order |
| ComplaintQuery.PageOf | backend/src/controllers/complaintController.js:38-44 | a negative skip fails (answered 404), and among the modelled failures exactly then; otherwise the page is the window of `abs(limit)` matches starting at `skip`, so a full page when enough matches remain and the remaining matches on the last page |
| ComplaintQuery.ListPage | backend/src/controllers/complaintController.js:4-60 | a shaping failure becomes an error (answered 404); otherwise the shaped query runs, and fails only on a negative skip among the modelled store failures |
| ComplaintQuery.DefaultListIsFirstTen | backend/src/controllers/complaintController.js:33-53 | with no shaping parameters the response holds the first ten matches, or all of them if fewer |
| ComplaintSchema.ParseCategory | backend/src/models/complaintModel.js:18-31 | a string is accepted exactly when it names one of the eight categories |
| ComplaintSchema.ParseStatus | backend/src/models/complaintModel.js:41-45 | a string is accepted exactly when it names one of the four statuses |
| ComplaintSchema.ParsePriority | backend/src/models/complaintModel.js:46-50 | a string is accepted exactly when it names one of the three priorities |
| ComplaintSchema.StampComments | backend/src/models/complaintModel.js:70-85 | each comment given keeps its author and text; one without a time gets the time of the write, one with a time keeps it |
| ComplaintSchema.NewComplaint | backend/src/models/complaintModel.js:3-92 | the owner is the caller; title and description are trimmed; the enums hold the named values; status defaults to pending, priority to medium, votes to 0, and the lists to empty; votes, voters, images and comments given in the body are stored as given (a comment without a time stamped with `now`); both timestamps are `now` |
| ComplaintSchema.NewComplaintIsValid | backend/src/models/complaintModel.js:5-85 | a complaint created from a body that passes the validators satisfies every schema constraint |
| ComplaintSchema.UpdateTextFields | backend/src/controllers/complaintController.js:143-150 | the title, description and location in the body replace the stored ones, title and description trimmed; absent ones are kept |
| ComplaintSchema.UpdateEnumFields | backend/src/controllers/complaintController.js:143-150 | the category, status and priority in the body replace the stored ones; absent ones are kept |
| ComplaintSchema.UpdateOtherFields | backend/src/controllers/complaintController.js:143-150 | owner, assignee, images, votes, voters and comments given in the body replace the stored ones (a comment without a time stamped with `now`); absent ones are kept; `createdAt` stays and `updatedAt` moves |
| ComplaintSchema.ApplyUpdate | backend/src/controllers/complaintController.js:143-150 | `createdAt` is kept and `updatedAt` moves to the time of the write; a status, vote count or owner given in the body is what is stored, so the owner can set them |
| ComplaintSchema.ApplyUpdatePreservesValidity | backend/src/controllers/complaintController.js:143-150 | an update that passes the validators keeps a valid complaint valid |
| ComplaintSchema.EmptyUpdateOnlyTouches | backend/src/controllers/complaintController.js:143-150 | an empty update changes only `updatedAt` |
| ComplaintSchema.UpdateWithCreateBodyIsStable | backend/src/controllers/complaintController.js:143-150 | updating a new complaint with the body it was created from changes nothing |
| Text.TrimEmptyIffBlank | backend/src/models/complaintModel.js:8 | trimming leaves nothing exactly when the string is all white space |
| Text.TrimIdempotent | backend/src/models/complaintModel.js:8 | trimming twice is trimming once |
| Text.SplitJoinIsReplace | backend/src/controllers/complaintController.js:19 | `split(',').join(' ')` replaces every comma with a space and keeps everything else in place |
| Text.JsNumber | backend/src/controllers/complaintController.js:34-35 | after trimming, the empty string is 0; a value exactly for an integer literal, namely its sign applied to the value of its digits |
| Text.LeadingZeroIgnored | backend/src/controllers/complaintController.js:34-35 | a leading zero does not change the value of a run of digits |
| Text.JsNumberOfLiteral | backend/src/controllers/complaintController.js:34-35 | `Number` of an unpadded integer literal is its sign applied to its digits' value |
| Text.JsNumberOfNat | backend/src/controllers/complaintController.js:34-35 | `Number` of the decimal rendering of n is n |
| Text.JsNumberOfNegatedNat | backend/src/controllers/complaintController.js:34-35 | `Number("-" + n)` is -n, so a negative page or limit is read as negative |
| Text.JsNumberOfPlusNat | backend/src/controllers/complaintController.js:34-35 | `Number("+" + n)` is n |
| Text.JsNumberOfZeroPaddedNat | backend/src/controllers/complaintController.js:34-35 | `Number("0" + n)` is n |
| Text.LowerIdempotent | backend/src/models/userModel.js:18 | lower-casing twice is lower-casing once |
| ComplaintController.RemoveAll | backend/src/controllers/complaintController.js:274 | `$pull` removes every occurrence of the id and keeps every other id as often as it occurred |
| ComplaintController.RemoveAllConcat | backend/src/controllers/complaintController.js:274 | `$pull` keeps the order of the remaining ids: pulling from a concatenation pulls from each part |
| ComplaintController.ToggleVote | backend/src/controllers/complaintController.js:267-291 | a voter who had voted loses a vote and leaves `voters`; otherwise the count rises by one and the voter is appended; no other id changes membership; only votes, voters and `updatedAt` change |
| ComplaintController.VoteKeepsBalance | backend/src/controllers/complaintController.js:267-281 | `votes - |voters|` is unchanged by a vote when the caller occurs at most once among the voters |
| ComplaintController.VoteKeepsVotersDistinct | backend/src/controllers/complaintController.js:267-281 | votes never list an id twice among the voters |
| ComplaintController.RemoveAllKeepsDistinct | backend/src/controllers/complaintController.js:274 | `$pull` keeps a list without repeats free of repeats |
| ComplaintController.DistinctCount | backend/src/controllers/complaintController.js:267-281 | in a list without repeats an id occurs at most once |
| ComplaintController.VoteTwiceRestores | backend/src/controllers/complaintController.js:267-291 | a caller who had not voted and votes twice leaves the complaint as it was, apart from `updatedAt` |
| ComplaintController.VoteTwiceAfterVotingReorders | backend/src/controllers/complaintController.js:267-291 | a caller who had voted once and votes twice restores the count and the multiset of voters, and their id moves to the end |
| ComplaintController.RemoveOneMultiset | backend/src/controllers/complaintController.js:274 | pulling an id that occurs once removes exactly one element |
| ComplaintController.RemoveAllAppend | backend/src/controllers/complaintController.js:274-280 | pulling an id just pushed also removes the pushed copy |
| ComplaintController.VoteTwiceOrderExample | backend/src/controllers/complaintController.js:267-291 | voters `[v, w]` and two votes by `v` give `[w, v]` |
| ComplaintController.AppendComment | backend/src/controllers/complaintController.js:221-231 | exactly one comment by the caller is appended; earlier comments are unchanged; only comments and `updatedAt` change |
| ComplaintController.AssignTo | backend/src/controllers/complaintController.js:328-336 | the assignee is set and the status becomes in-progress; nothing else but `updatedAt` changes |
| ComplaintController.WithStatus | backend/src/controllers/complaintController.js:378-385 | only the status and `updatedAt` change |
| ComplaintController.ToggleVoteKeepsValidity | backend/src/controllers/complaintController.js:267-291 | a vote keeps a valid complaint valid |
| ComplaintController.AppendCommentKeepsValidity | backend/src/controllers/complaintController.js:221-231 | appending a non-empty comment keeps a valid complaint valid |
| ComplaintController.AssignToKeepsValidity | backend/src/controllers/complaintController.js:328-336 | assignment keeps a valid complaint valid |
| ComplaintController.WithStatusKeepsValidity | backend/src/controllers/complaintController.js:378-385 | a status change keeps a valid complaint valid |
| ComplaintController.PutKeepsAllValid | backend/src/models/complaintModel.js:3-92 | storing a valid complaint keeps every stored complaint valid |
| ComplaintController.ComplaintStore.constructor | backend/src/models/complaintModel.js:99 | the store starts with the given valid collection |
| ComplaintController.ComplaintStore.GetComplaint | backend/src/controllers/complaintController.js:63-99 | an unknown id gives 404; a known one gives 200 and the stored complaint, which is valid |
| ComplaintController.MayModify | backend/src/controllers/complaintController.js:136 | an admin and the complaint's owner may update or delete it (the same test guards deletion at line 179), and no other caller may |
| ComplaintController.ComplaintStore.CreateComplaint | backend/src/controllers/complaintController.js:102-121 | a body failing the validators gives 400 and stores nothing; otherwise 201 and the new complaint, owned by the caller whatever the body says, is stored under the new id |
| ComplaintController.ComplaintStore.UpdateComplaint | backend/src/controllers/complaintController.js:124-164 | 404 for an unknown id before authorisation; 403 unless admin or owner; 400 on an invalid field; otherwise 200 and the updated complaint; the store changes only on 200 |
| ComplaintController.ComplaintStore.DeleteComplaint | backend/src/controllers/complaintController.js:167-198 | 404 for an unknown id; 403 unless admin or owner, store unchanged; otherwise 204 and the complaint is gone |
| ComplaintController.ComplaintStore.AddComment | backend/src/controllers/complaintController.js:201-252 | an absent or empty comment gives 400 before the lookup; 404 for an unknown id; otherwise 200 with one comment appended |
| ComplaintController.ComplaintStore.Vote | backend/src/controllers/complaintController.js:255-305 | 404 for an unknown id; otherwise 200 and the caller's vote is toggled |
| ComplaintController.ComplaintStore.Assign | backend/src/controllers/complaintController.js:308-355 | admin only; an absent or empty assignee gives 400; 404 for an unknown id; otherwise 200, assignee set and status in-progress |
| ComplaintController.ComplaintStore.UpdateStatus | backend/src/controllers/complaintController.js:358-399 | admin only; an absent status or one outside the four-value enum gives 400 and nothing changes; 404 for an unknown id; otherwise 200 and only the status changes |
| Identity.ParseRole | backend/src/models/userModel.js:27-31 | a string is accepted as a role exactly when it is `user` or `admin` |
| UserSchema.RoleOf | backend/src/models/userModel.js:27-31 | an absent role defaults to user; a given one is stored as named |
| UserSchema.PreSave | backend/src/models/userModel.js:63-70 | an unmodified password is left unchanged, as is the whole user; a modified one is replaced by its hash; nothing else changes |
| UserSchema.NewUser | backend/src/models/userModel.js:5-60 | the username is trimmed, the email lower-cased, the password hashed, the role defaulted, and the profile picture empty |
| UserSchema.NewUserIsValid | backend/src/models/userModel.js:7-31 | a user created from a valid body satisfies the stored-user constraints |
| UserSchema.WithNewPassword | backend/src/controllers/authController.js:128-129 | assigning a different password and saving stores its hash; assigning the same value leaves the user unchanged |
| UserSchema.Strip | backend/src/controllers/authController.js:16-17 | the sent user has no password and otherwise equals the stored one |
| AuthController.RequestedRole | backend/src/controllers/authController.js:47 | a requested `admin` becomes `user`; any other requested role is passed through |
| AuthController.RegisteredRoleIsUser | backend/src/controllers/authController.js:43-48 | whatever role is requested, a registered user who passes the role check is a plain user |
| AuthController.AddKeepsUsersValid | backend/src/models/userModel.js:7-20 | adding a valid user with a fresh email and username keeps emails and usernames unique |
| AuthController.NewPasswordKeepsUsersValid | backend/src/controllers/authController.js:128-129 | replacing a stored password by a hash keeps the collection valid |
| AuthController.UserStore.constructor | backend/src/models/userModel.js:80 | the collection starts empty |
| AuthController.UserStore.Register | backend/src/controllers/authController.js:29-57 | a taken email gives 400 with the in-use message; 201 exactly when the email is free, the body is valid and the username is free; the new user is a plain user, sent stripped with a token, and can then log in; any failure leaves the collection unchanged |
| AuthController.UserStore.Login | backend/src/controllers/authController.js:60-90 | a missing or empty email or password gives 400; an unknown email and a wrong password give the same 401 and message; 200 exactly when the credentials match, with the user stripped and a token |
| AuthController.UserStore.UpdatePassword | backend/src/controllers/authController.js:112-139 | a missing user or current password gives 400; a wrong current password gives 401 and leaves the stored password unchanged; an invalid new password gives 400; otherwise 200 and the new password is stored hashed, after which it matches at login |
| MockAuth.WithoutPassword | src/services/authService.js:74-76 | the copy has no password and otherwise equals the user |
| MockAuth.FindLoginUser | src/services/authService.js:100-103 | the first user whose email equals `emailOrPhone` or `email`, or none when no user does |
| MockAuth.FindIndexById | src/services/authService.js:185 | the first index holding the id, or none when no entry does |
| MockAuth.NewMockUser | src/services/authService.js:57-64 | the id is `user-` and the time; role `user`; username defaults to the email's local part; name defaults to `New User` |
| MockAuth.DefaultUsernameIsLocalPart | src/services/authService.js:59 | the default username is the part of the email before its first `@` |
| MockAuth.AppendedUserIsFound | src/services/authService.js:67 | a user appended after none that match is the one a login finds |
| MockAuth.RegisteredUserCanLogIn | src/services/authService.js:51-67 | logging in with a just-registered email and password finds the new user and accepts the password |
| MockAuth.MockAuthService.constructor | src/services/authService.js:7-38 | the user list is the stored one, or the two default users, which are then written to storage (a stored list is left as it is); the session is what storage holds |
| MockAuth.MockAuthService.GetInitialMockUsers | src/services/authService.js:7-36 | a stored list is returned unchanged; otherwise exactly the two default users are returned and persisted |
| MockAuth.MockAuthService.CurrentUser | src/services/authService.js:143-146 | the stored session user, never with a password, present exactly when logged in |
| MockAuth.MockAuthService.UserRole | src/services/authService.js:164-167 | null when no user is stored, otherwise that user's role |
| MockAuth.MockAuthService.Register | src/services/authService.js:47-77 | a used email (in this tab's list) throws `Email already exists` and changes nothing; success exactly when the email is free and a username or email is given; one user is appended to this tab's list, which is written to storage over whatever another tab stored, and the session holds the user without its password |
| MockAuth.MockAuthService.Login | src/services/authService.js:93-120 | the user list is reloaded from storage, so users another tab saved are found, and the two defaults are seeded when storage holds none; no match throws `User not found`; a wrong password throws `Incorrect password`; the session is written only on success, with the user without its password |
| MockAuth.MockAuthService.IsLoggedIn | src/services/authService.js:154-156 | logged in exactly when a non-empty token is stored |
| MockAuth.MockAuthService.IsAdmin | src/services/authService.js:170-172 | admin exactly when a session user is stored and its role is `admin` |
| MockAuth.MockAuthService.Logout | src/services/authService.js:136-140 | the token and the session user are removed, so no one is logged in and no one is admin |
| MockAuth.MockAuthService.UpdatePassword | src/services/authService.js:175-195 | no session throws `Not logged in`; an unknown session id throws `User not found`; otherwise only that entry's password changes, without checking the current one, and this tab's list is written to storage |
| ErrorMiddleware.StatusCodeOrDefault | backend/src/middleware/errorMiddleware.js:63 | a missing or zero status code becomes 500; any other is kept |
| ErrorMiddleware.StatusOrDefault | backend/src/middleware/errorMiddleware.js:64 | a missing or empty status becomes `error`; any other is kept |
| ErrorMiddleware.HandleDuplicateFields | backend/src/middleware/errorMiddleware.js:32-37 | 400 `fail`, operational, with a message naming the first duplicated field and its value |
| ErrorMiddleware.HandleValidationError | backend/src/middleware/errorMiddleware.js:40-44 | 400 `fail`, operational, `Invalid input data. ` and the messages joined by `. ` |
| ErrorMiddleware.HandleJwtError | backend/src/middleware/errorMiddleware.js:47-52 | 401 `fail`, operational, the invalid-token message |
| ErrorMiddleware.HandleJwtExpiredError | backend/src/middleware/errorMiddleware.js:54-59 | 401 `fail`, operational, the expired-token message |
| ErrorMiddleware.SendProdError | backend/src/middleware/errorMiddleware.js:14-29 | an operational error is sent as it is; any other becomes 500 `error` `Something went wrong`; neither the error nor its stack is sent |
| ErrorMiddleware.ErrorHandler | backend/src/middleware/errorMiddleware.js:62-79 | development echoes the defaulted code, status, message, error and stack; production maps the two token errors to 401, a validation error and a duplicate key (when no named classifier applies) to 400, sends an unclassified operational error as it is and never leaks the message of a non-operational one; any other environment produces no response |
| ErrorMiddleware.LaterClassifierWins | backend/src/middleware/errorMiddleware.js:72-73 | an error that is both a duplicate key and a validation error gets the validation message |
| ErrorMiddleware.RouteNotFound | backend/server.js:41-46 | the unknown-route error carries 404, `fail` and the URL message, and is not operational |
| ErrorMiddleware.RouteNotFoundResponses | backend/server.js:41-46 | that error is answered 404 in development but 500 `Something went wrong` in production |
| ErrorMiddleware.OperationalRouteNotFound | backend/server.js:41-46 | the corrected unknown-route error is operational, with 404, `fail` and the URL message |
| ErrorMiddleware.OperationalRouteNotFoundResponse | backend/server.js:41-46 | the corrected error is answered 404 `fail` with its message in production |

## Left out

- ComplaintController.VoteTwiceRestores: states exact restoration only when the caller had not
  voted. When the caller had voted, the order of `voters` changes, and
  `VoteTwiceAfterVotingReorders` states what is restored in that case.
- ComplaintController.VoteKeepsBalance: requires the caller to occur at most once among the
  voters. `$pull` removes every copy, so with duplicates the balance changes. Votes never create
  duplicates (`VoteKeepsVotersDistinct`).
- ComplaintController.ComplaintStore.UpdateComplaint: the 400 answer carries no Mongoose
  validation message text. Only the status code and the unchanged store are stated.
- AuthController.UserStore.Register: the message of a schema-validation or duplicate-username
  failure is not modelled, only the 400 code. The email check runs on the lower-cased email,
  before the username uniqueness check.
- `Number()` is modelled on optionally signed decimal integers only (after JavaScript trimming).
  Fractions, exponents, hexadecimal and `Infinity` are read as NaN. A repeated parameter is
  joined with commas, as `Number` of an array does.
- Query strings nest one level (`a[op]=x`). Deeper `qs` nesting is not modelled.
- An operator word that follows a control character inside a string is not rewritten (see
  above). Non-BMP characters and the UTF-16 view of strings are not modelled.
- Case folding is ASCII only; the lower-cased email does not fold non-ASCII letters.
- Mongoose's casting of body fields is not modelled: the body is already typed. A number given
  for a string field (stored as its text), a non-numeric `votes` or a `null` field (both
  answered 400 by the catch blocks of create and update) cannot be expressed.
- `Number()` is exact on unbounded integers here. JavaScript doubles round literals beyond 2^53,
  and a `(page - 1) * limit` beyond the store's 64-bit skip makes the store fail (answered 404);
  neither is modelled.
- Update operators inside the generic update body (a key such as `$inc` reaching
  `findByIdAndUpdate`) are not modelled: the body carries schema fields only.
- ComplaintQuery.PageOf: the only store failure modelled is a negative skip. Other failures of
  the store's cast of the filter, such as `?votes=abc` (a `CastError` answered 404 by the catch
  block), are not modelled: listing receives the matches already filtered.
- ComplaintQuery.ListPage: inherits that from `PageOf`, so it succeeds for every well-shaped
  query with a skip of at least 0.
- ComplaintSchema.NewComplaint: a body's own `_id`, `createdAt` or `updatedAt`, which the spread
  passes to `Complaint.create`, is not modelled; the new complaint gets a fresh id and both
  timestamps are the time of the write.
- ComplaintController.ComplaintStore.CreateComplaint: inherits that from `NewComplaint`; a
  client-chosen `_id` (and the duplicate-key error it can cause) is not modelled.
- Malformed ids (Mongoose `CastError`, answered 400 or 404 by the catch blocks) are not
  modelled: every id is well formed.
- `populate`, projections of related users, the `-__v` projection's effect and sorting by the
  store are not modelled. Listing receives the matches already filtered and sorted.
- Phone number and address fields of the user schema (with `isMobilePhone`) are not modelled.
- `getMe`, `getProfile` and the `getUser`/`isAuthenticated` aliases are not modelled; the
  aliases return exactly what `CurrentUser` and `IsLoggedIn` do.
- JWT signing and verification, bcrypt hashing and comparison, and `validator.isEmail` are
  function parameters, not implementations. The token's expiry is not modelled.
- `Date.now()` ids and timestamps are parameters. `localStorage` is fields of the mock service,
  and the `window.location` redirect on logout is not modelled.
- Console logging in the production error path is not modelled.
- The vote handler's read-then-update is not atomic. Concurrent requests are not modelled; every
  handler runs alone.
- The network branches of the frontend service (used only when the mock is disabled) are not
  modelled.
- The `error` object echoed in development is the defaulted error record. Its JSON
  serialisation is not modelled.

## Findings

| source | as written | input that shows it | evidently intended | confidence | as-written member | corrected member |
|---|---|---|---|---|---|---|
| backend/server.js:41-46 | the unknown-route error gets status 404 and `fail` but no `isOperational`, so the production error handler treats it as a programming error | any request to an undefined route, e.g. `GET /nope`, in production: answered 500 `Something went wrong` | answered 404 `fail` with `Can't find /nope on this server!` | medium; not executed | ErrorMiddleware.RouteNotFoundResponses | ErrorMiddleware.OperationalRouteNotFoundResponse |
