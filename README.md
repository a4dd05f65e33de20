# fastapi_blog in Dafny

A model of the core of a small FastAPI/SQLAlchemy blog: its account life
cycle (register, mail an activation link, activate, log in) and the authorship
rules of its posts (create, show, update, delete), together with the token issue
and verification it rests on and the tables it stores.

- `results.dfy` (module `Results`) holds `Option` and `Result`.
- `models.dfy` (module `Models`) holds the table rows as records: `User`, `Category`, `Tag` and `Post`.
  - It states the column defaults and the uniqueness constraints the schema declares.
  - It models the `post_tags` link table as a set of (post id, tag slug) pairs.
  - It models `get_random_string` as a function of the random draws.
- `auth.dfy` (module `Auth`) holds the token logic. A JSON Web Token is symbolic.
  - A signed token records its claims, key and algorithm. It decodes exactly under the same key and an allowed algorithm.
  - The payload carries the `sub` and `exp` claims of sections 4.1.2 and 4.1.4 of RFC 7519.
  - `GetRequestUser` classifies every request as carrying no bearer token (401), an invalid token (403), an expired one (401), one naming nobody (404), or one identifying a user.
  - As written, the library's decoder already refuses an expired token and the handler turns that into 403, so its own 401 branch is never reached. `GetRequestUserAsWritten` models that, and the handlers use the intended `GetRequestUser` (see "## Findings").
  - The subject is `str(user.id)`. A lemma proves that parsing it back names the same id.
- `routes.dfy` (module `Routes`) holds the request handlers as methods of a class `Blog`.
  - The class stores users under their id, an email index, posts under their slug, and the outbox of activation mails.
  - Every handler keeps the table invariant `Valid()`. That invariant covers primary keys, unique emails, unique titles and slugs, and pending or active users.
  - Each handler states its outcome for every error branch and the whole new state.
  - Password hashing and `slugify` are functions the store is built with. The clock, the bearer token and the random draws are parameters.
  - Four client methods walk the sign-up flow end to end: register, log in too early, activate, activate again, register again, log in, publish, read back.

For a taken email, `register_user` builds an `HTTPException` with status 400
and the detail "Email уже занят" (app/routes.py:100-103), so 400 is the intended
answer. The code returns that exception instead of raising it, so the client
gets 201. The model records both behaviours under "## Findings".

## Model

| member | source | states |
|---|---|---|
| `Models.AlphabetIsAsciiAlnum` | app/models.py:103 | `ascii_letters + digits` has 62 characters, and a character is in it exactly when it is an ASCII letter or digit |
| `Models.RandomString` | app/models.py:100-105 | the generated string has exactly the requested length, and every character is an ASCII letter or digit |
| `Models.RandomStringDraws` | app/models.py:104 | character `i` of the result is the alphabet entry picked by draw `i` |
| `Models.RandomStringCoversAlnum` | app/models.py:103-104 | every alphanumeric string is a possible output: some draws produce it |
| `Models.CategoriesUnique` | app/models.py:26-28 | categories stored under their slug (primary key) with unique titles share neither slug nor title |
| `Models.TagsUnique` | app/models.py:56-58 | tags stored under their slug (primary key) with unique titles share neither slug nor title |
| `Models.NewUser` | app/models.py:8-14 | a new user row takes the given columns, with `is_active` false and `activation_code` empty by default |
| `Models.KeyedBySlugMakesSlugsUnique` | app/models.py:73-76 | posts stored under their slug have pairwise distinct slugs |
| `Models.TagsOf` | app/models.py:87-89 | `Post.tags` holds exactly the tags linked to the post in `post_tags` |
| `Models.PostsOf` | app/models.py:60-62 | `Tag.posts` holds exactly the posts linked to the tag in `post_tags` |
| `Models.TagsAndPostsAgree` | app/models.py:40-45 | both sides of the many-to-many relationship see the same link rows |
| `Models.Link` | app/models.py:40-45 | inserting a link keeps the old links and adds the pair, and a pair already present adds no row (composite primary key) |
| `Auth.Decode` | app/auth.py:47 | decoding succeeds exactly for a token signed with the verifier's key under an allowed algorithm |
| `Auth.DecodeEncode` | app/auth.py:28 | decoding an encoded payload with its key and algorithm gives the payload back |
| `Auth.DecodeWithOtherKeyFails` | app/auth.py:47 | a token signed with one key does not decode under any other key |
| `Auth.DecodeDefault` | app/auth.py:47 | with its default options the decoder also refuses a token whose integer `exp` is earlier than the current second, and otherwise gives what the signature check gives |
| `Auth.ParsePayload` | app/auth.py:48 | the payload validates exactly when `sub` is text and `exp` is a number |
| `Auth.IdToString` | app/routes.py:149-150 | `str(user.id)` is a non-empty numeral without a leading zero |
| `Auth.ParseId` | app/auth.py:59 | a subject parses as a primary key exactly when it is a non-empty string of decimal digits |
| `Auth.DigitsValueOfIdToString` | app/auth.py:59 | the numeral `str(n)` denotes `n` |
| `Auth.ParseIdToString` | app/auth.py:59 | the subject `str(id)` looks up the same id |
| `Auth.SubjectUser` | app/auth.py:59 | `db.get(User, sub)` finds a row exactly when the subject is a numeral naming a stored id, and then that row |
| `Auth.IssueTokens` | app/routes.py:148-151 | the access token reads back under SECRET_KEY and the refresh token under REFRESH_SECRET_KEY, each with the subject and its own expiry |
| `Auth.View` | app/auth.py:65-71 | the returned user carries exactly id, email, name and `is_active` of the row |
| `Auth.CreateAccessToken` | app/auth.py:25-29 | the access token decodes under SECRET_KEY to subject and `now + ACCESS_TOKEN_LIFETIME` minutes |
| `Auth.CreateRefreshToken` | app/auth.py:32-36 | the refresh token decodes under REFRESH_SECRET_KEY to subject and `now + REFRESH_TOKEN_LIFETIME` minutes, and not under a different SECRET_KEY |
| `Auth.ViewIgnoresPassword` | app/auth.py:65-71 | the returned user view does not depend on the password hash |
| `Auth.GetRequestUser` | app/auth.py:39-71 | intended verifier: 401 exactly when no bearer token is sent, 403 exactly when decoding or validation fails, 401 exactly when valid and `exp < now`, 404 exactly when unexpired and the subject names no user; on success the id, email, name and activity of the user the subject names |
| `Auth.GetRequestUserAsWritten` | app/auth.py:45-58 | as written, never the "expired" 401; 403 exactly when decoding or validation fails or the token has expired |
| `Auth.AsWrittenDiffersOnlyOnExpiry` | app/auth.py:47-58 | the verifier as written answers like the intended one on every request, except that an expired token gets 403 instead of 401 |
| `Auth.ExpiredAccessTokenAnswers403AsWritten` | app/auth.py:47-58 | as written, an access token past its expiry is answered 403 |
| `Auth.AbsentTokenRejected` | app/auth.py:39-45 | a request without a bearer token is refused with 401 before the token is decoded |
| `Auth.AccessTokenIdentifiesUser` | app/auth.py:45-71 | an unexpired access token issued for `str(id)` of a stored user yields that user's view |
| `Auth.ExpiredAccessTokenRejected` | app/auth.py:49-52 | with the intended verifier, an access token past its expiry answers 401 whatever it names; the 401 is not turned into 403 |
| `Auth.ForeignTokenRejected` | app/auth.py:53-58 | a token signed with any key other than SECRET_KEY answers 403, as written and as intended, whatever its payload and expiry |
| `Auth.RefreshTokenRejected` | app/auth.py:47 | a refresh token is not accepted as an access token (403) when the two secrets differ |
| `Routes.Status` | app/routes.py:29-151 | every error answers a 4xx or 5xx status, and the token errors answer the status the verifier raises |
| `Routes.SuccessStatus` | app/routes.py:29-134 | every route's declared status is a 2xx status |
| `Routes.StatusAsWritten` | app/routes.py:99-103 | as written, a returned error answers the route's success status or 500, and every raised error its own status |
| `Routes.ReturnedErrorsMisreported` | app/routes.py:99-103 | as written, a taken email answers 201 and a taken title answers 500 |
| `Routes.StatusIntended` | app/routes.py:44-47 | with the errors raised, every error answers its error status (at least 400) and every success its 2xx status |
| `Routes.TakenEmailAndTitleAnswer400` | app/routes.py:99-103 | with the errors raised, a taken email and a taken title both answer 400 |
| `Routes.MatchActivationPath` | app/routes.py:121 | a path routed to `activation` is `/activate/{code}/` for a non-empty code without `/` |
| `Routes.ActivationMail` | app/routes.py:112-117 | the mail goes to the new user's email, and its text ends with the site's link to the activation route for the code |
| `Routes.ActivationLinkCarriesCode` | app/routes.py:112-117 | the mailed link routes back to `activation` with exactly the generated code |
| `Routes.Holders` | app/routes.py:123 | the users the activation query matches are exactly those holding the code |
| `Routes.ActivationIsSingleUse` | app/routes.py:123-131 | when one user holds a non-empty code, nobody holds it after that user is activated, so the code cannot be used again |
| `Routes.SharedCodeWorksTwice` | app/routes.py:104 | random codes are not unique: a code two users share still activates the second after the first |
| `Routes.Activated` | app/routes.py:125-126 | activation makes the user active with an empty code and keeps id, email, name and password |
| `Routes.ActivatedWellFormed` | app/routes.py:125-126 | an activated user is well formed: active with the code cleared |
| `Routes.SetField` | app/routes.py:72 | `setattr` sets one column and keeps the others, id, slug, author and creation time included |
| `Routes.OverwritesDeterministic` | app/routes.py:70-72 | an update determines the updated post |
| `Routes.OverwritesIdempotent` | app/routes.py:70-72 | applying the same update again changes nothing |
| `Routes.EmptyUpdateKeepsPost` | app/routes.py:70-72 | an update giving no field leaves the post as it was |
| `Routes.SetAttrs` | app/routes.py:70-72 | the loop overwrites exactly the fields given (not None) and keeps every other column; the slug is not recomputed |
| `Routes.Titles` | app/routes.py:44 | the titles in use are exactly the titles of stored posts |
| `Routes.UsersTable` | app/models.py:9-14 | primary keys, unique emails, codes of at most 8 characters, and active exactly when the code is empty; it implies no two users share an email |
| `Routes.PostsTable` | app/models.py:73-76 | posts under their slug, unique titles, unique ids below the next one |
| `Routes.PostsTableSlugsUnique` | app/models.py:76 | no two posts of the table share a slug |
| `Routes.InsertUserKeepsTable` | app/routes.py:104-110 | inserting a pending user with an unused email under the next id keeps the users table |
| `Routes.ActivateUserKeepsTable` | app/routes.py:123-127 | activating a stored user keeps the users table |
| `Routes.InsertPostKeepsTable` | app/routes.py:48-53 | inserting a post with an unused title and slug under the next id keeps the posts table |
| `Routes.ReplacePostKeepsTable` | app/routes.py:70-73 | replacing a post by one with the same slug and id and a title no other post has keeps the posts table |
| `Routes.RemovePostKeepsTable` | app/routes.py:89-90 | removing a post keeps the posts table |
| `Routes.Blog.RegisterUser` | app/routes.py:94-118 | a taken email gives EmailTaken with nothing changed; otherwise exactly one user is added under the next id, with that email and name, `hash(password)`, inactive, holding the 8-character generated code, and the activation mail is queued |
| `Routes.Blog.Activation` | app/routes.py:121-131 | a code nobody holds gives 404 with nothing changed; otherwise one holder becomes active with its code cleared and no other row changes |
| `Routes.Blog.Login` | app/routes.py:134-151 | unknown email, then wrong password, then inactive account, each exactly in its case; otherwise the token pair for `str(id)` of the user with that email |
| `Routes.Blog.PostDetails` | app/routes.py:29-37 | the post stored under the slug, or 404 exactly when there is none |
| `Routes.Blog.CreatePost` | app/routes.py:40-55 | the verifier's error, then TitleTaken for a title in use, each with nothing changed; otherwise exactly one post added under `slugify(title)` with the next id, the caller as author and the current time |
| `Routes.Blog.UpdatePost` | app/routes.py:58-75 | the verifier's error, 404 for a missing slug, 403 for a non-author, each with nothing changed; otherwise the post overwritten field by field in place |
| `Routes.Blog.DeletePost` | app/routes.py:78-91 | the verifier's error, 404 for a missing slug, 403 for a non-author, each with nothing changed; otherwise exactly that post removed |
| `Routes.RegisterFirstUser` | app/routes.py:94-118 | on an empty store, registration stores one pending user under id 1 and queues one activation mail |
| `Routes.RegisterAndActivate` | app/routes.py:121-151 | login before activation is refused as inactive; the mailed code activates the user once, and a second time answers 404 |
| `Routes.SignUp` | app/routes.py:94-151 | registering the same email again is refused; the activated user logs in and receives the token pair for `"1"` |
| `Routes.SignUpAndPublish` | app/routes.py:29-55 | the access token from the login creates a post under `slugify(title)` authored by user 1, and `post_details` shows that post |

## Left out

- Password hashing (app/hashing.py) is left out. The hash and verify functions are parameters of the store, and only the end-to-end flow assumes that a password verifies against its own hash.
- The `slugify` algorithm is a parameter of the store. Two titles that slugify alike meet the unique slug column, which the model answers with `ConstraintViolation`.
- JWT signing and serialisation are symbolic. The expiry check inside `jwt.decode` is modelled (`Auth.DecodeDefault`), and so the source answers an expired access token with 403.
- Time is one integer clock in seconds. The source issues with `utcnow()` and verifies with local `now()`, and that time-zone skew is not reproduced.
- `Auth.GetRequestUserAsWritten`: with one integer clock its 401 branch is never taken. In the source, the library compares `exp` with the current whole second and line 49 with the fractional local time, so a 401 is possible within the second in which the token expires. The model does not capture that.
- The bearer scheme's parsing of the Authorization header is symbolic: a request either carries a token or carries none (`Absent`, answered 401).
- The random draws of `get_random_string` are a parameter: `choice(i)` picks the alphabet entry at draw `i`.
- SMTP delivery (app/send_mail.py) is left out. Registration records the outgoing message in `outbox`, and nothing is sent.
- Environment configuration (app/settings.py and the top of app/auth.py) becomes a `Config` value.
- Database sessions, commits and rollbacks, foreign keys, ORM relationship loading and async execution are left out. A commit that would break a unique constraint is modelled as `ConstraintViolation` with the store unchanged.
- Column length limits other than the 8-character activation code are not enforced.
- A subject that is not a decimal numeral is answered 404 in the model. In the source, the outcome of `db.get` with such a key depends on the database. SQLite compares it without error and finds no row, which gives 404 as in the model. PostgreSQL casts a string such as "+1" or " 1" to an integer and finds that user.
- `TokenPayload`, `CreatePostSchema`, `UpdatePostSchema` and `LoginSchema` are not part of this model's sources. Their shapes are assumed: `sub` is text and `exp` an integer, both required; post input is title, text and category; an update gives each of those three optionally.
- `Routes.Blog.Activation` activates some holder of the code. `first()` has no ordering, so which one is not specified.
- `categories_list` and `posts_list` only read whole tables and are not modelled. Neither are app/admin.py, app/main.py or app/schemas.py.
- Categories, tags and the `post_tags` link rows are not stored in the `Blog` store. Their constraints are stated on their own in `Models`.
- Routes.Blog.DeletePost: in the source, `db.delete(post)` also deletes that post's `post_tags` rows, through the `secondary` relationship of `Post.tags`. The method does not model that removal, because the store does not track links.

## Findings

| source | as written | input that shows it | evidently intended | confidence | as-written member | corrected member |
|---|---|---|---|---|---|---|
| app/routes.py:99-103 | `register_user` returns the `HTTPException` for a taken email instead of raising it | register an email a stored user already has: the route answers its declared 201, with the exception as body | 400 "Email уже занят" | not executed | `Routes.StatusAsWritten`, `Routes.ReturnedErrorsMisreported` | `Routes.StatusIntended`, `Routes.TakenEmailAndTitleAnswer400` |
| app/auth.py:47-53 | `jwt.decode` runs with its default options, which refuse an expired token; the ExpiredSignatureError is caught as a JWTError | send an access token one second after its expiry: the answer is 403 "Неверный токен", and the 401 "Токен истек" branch at line 49 is not reached | 401 "Токен истек" for an expired token | not executed | `Auth.GetRequestUserAsWritten`, `Auth.ExpiredAccessTokenAnswers403AsWritten` | `Auth.GetRequestUser`, `Auth.ExpiredAccessTokenRejected` |
| app/routes.py:45-47 | `create_post` returns the `HTTPException` for a taken title instead of raising it | create a post whose title a stored post has: the exception fails validation against `PostSchema`, which answers 500 | 400 "Пост с таким заголовком уже существует" | not executed | `Routes.StatusAsWritten`, `Routes.ReturnedErrorsMisreported` | `Routes.StatusIntended`, `Routes.TakenEmailAndTitleAnswer400` |
