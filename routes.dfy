/**
 * The request handlers of the blog (app/routes.py) as guarded transitions of
 * an in-memory store: users keyed by id with an index on email, posts keyed by
 * slug, and the outgoing activation mail. Password hashing and `slugify` are
 * uninterpreted functions the store is built with; the current time, the
 * bearer token and the random draws of the activation code are parameters.
 */
module Routes {
  import opened Results
  import opened Models
  import opened Auth

  // ---------------------------------------------------------------------------
  // Errors and statuses
  // ---------------------------------------------------------------------------

  /** Every error outcome of a handler. */
  datatype ApiError =
    | EmailTaken                     // 400 'Email уже занят' (returned, not raised)
    | CodeNotFound                   // 404 'Пользователь не найден'
    | WrongEmail                     // 400 'Неверный email'
    | WrongPassword                  // 400 'Неверный пароль'
    | AccountInactive                // 400 'Аккаунт не активен'
    | TitleTaken                     // 400 'Пост с таким заголовком уже существует' (returned, not raised)
    | PostNotFound                   // 404 'Пост не найден'
    | NotAuthor                      // 403 'Вы не являетесь автором'
    | Unauthorized(cause: AuthError) // raised by the get_request_user dependency
    | ConstraintViolation            // the commit broke a unique constraint and was rolled back

  /** The status each error is meant to answer with. */
  function Status(e: ApiError): (code: int)
    ensures 400 <= code < 600
    ensures e.Unauthorized? ==> code == AuthStatus(e.cause)
  {
    match e
    case EmailTaken => 400
    case CodeNotFound => 404
    case WrongEmail => 400
    case WrongPassword => 400
    case AccountInactive => 400
    case TitleTaken => 400
    case PostNotFound => 404
    case NotAuthor => 403
    case Unauthorized(cause) => AuthStatus(cause)
    case ConstraintViolation => 500
  }

  datatype Route = RegisterRoute | ActivateRoute | LoginRoute | PostDetailsRoute
                 | CreatePostRoute | UpdatePostRoute | DeletePostRoute

  /** The `status_code` each route is declared with. */
  function SuccessStatus(route: Route): (code: int)
    ensures 200 <= code < 300
  {
    match route
    case RegisterRoute => 201
    case CreatePostRoute => 201
    case DeletePostRoute => 204
    case _ => 200
  }

  /** The two errors that a handler `return`s as a value instead of raising. */
  predicate ReturnedNotRaised(e: ApiError) {
    e == EmailTaken || e == TitleTaken
  }

  /**
   * The status the client receives as the handlers are written. A returned
   * exception is an ordinary return value: the register route answers its
   * declared 201 with the exception object as body, and the create-post route
   * fails to validate it against its response model, which answers 500.
   */
  function StatusAsWritten(route: Route, outcome: Option<ApiError>): (code: int)
    ensures outcome.None? ==> code == SuccessStatus(route)
    ensures outcome.Some? && !ReturnedNotRaised(outcome.value) ==> code == Status(outcome.value)
    ensures outcome.Some? && ReturnedNotRaised(outcome.value) ==> code == 500 || 200 <= code < 300
  {
    match outcome
    case None => SuccessStatus(route)
    case Some(e) =>
      if ReturnedNotRaised(e) then (if route == CreatePostRoute then 500 else SuccessStatus(route))
      else Status(e)
  }

  /** A taken email is answered as a success, and a taken title as a server error. */
  lemma ReturnedErrorsMisreported()
    ensures StatusAsWritten(RegisterRoute, Some(EmailTaken)) == 201
    ensures StatusAsWritten(CreatePostRoute, Some(TitleTaken)) == 500
  {
  }

  /** The status with every error raised: an error never answers a success status. */
  function StatusIntended(route: Route, outcome: Option<ApiError>): (code: int)
    ensures outcome.Some? ==> code == Status(outcome.value) && code >= 400
    ensures outcome.None? ==> code == SuccessStatus(route) && code < 300
  {
    match outcome
    case None => SuccessStatus(route)
    case Some(e) => Status(e)
  }

  lemma TakenEmailAndTitleAnswer400()
    ensures StatusIntended(RegisterRoute, Some(EmailTaken)) == 400
    ensures StatusIntended(CreatePostRoute, Some(TitleTaken)) == 400
  {
  }

  // ---------------------------------------------------------------------------
  // Collaborators
  // ---------------------------------------------------------------------------

  /** `Hasher.hash_password` and `Hasher.verify_password`. */
  datatype Hasher = Hasher(hash: string -> string, verify: (string, string) -> bool)

  /** A password always verifies against its own hash. */
  ghost predicate HasherSound(h: Hasher) {
    forall p :: h.verify(p, h.hash(p))
  }

  /** A message handed to the mail background task. */
  datatype Mail = Mail(subject: string, recipients: seq<string>, body: string)

  const ACTIVATION_SUBJECT: string := "Активация аккаунта"
  const ACTIVATION_TEXT: string := "Для активации аккаунта перейдите по ссылке: "
  const SITE: string := "http://localhost:8000"
  const ACTIVATE_PREFIX: string := "/activate/"

  /** The path of the activation route for a code: `/activate/{activation_code}/`. */
  function ActivationPath(code: string): string {
    ACTIVATE_PREFIX + code + "/"
  }

  /** The mail `register_user` sends to the new user: its text ends with the link to the activation route for the code. */
  function ActivationMail(email: string, code: string): (m: Mail)
    ensures m.recipients == [email]
    ensures var link := SITE + ActivationPath(code);
            |link| <= |m.body| && m.body[|m.body| - |link|..] == link
  {
    var link := SITE + ActivationPath(code);
    var body := ACTIVATION_TEXT + link;
    assert body[|body| - |link|..] == link;
    Mail(ACTIVATION_SUBJECT, [email], body)
  }

  /** Routing of a request path to the activation handler; the path parameter is one non-empty segment. */
  function MatchActivationPath(path: string): (r: Option<string>)
    ensures r.Some? ==> ActivationPath(r.value) == path && |r.value| > 0 && '/' !in r.value
  {
    var n := |ACTIVATE_PREFIX|;
    if |path| > n + 1 && path[..n] == ACTIVATE_PREFIX && path[|path| - 1] == '/' && '/' !in path[n..|path| - 1] then
      var code := path[n..|path| - 1];
      assert ActivationPath(code) == path[..n] + path[n..|path| - 1] + path[|path| - 1..];
      assert path == path[..n] + path[n..|path| - 1] + path[|path| - 1..];
      Some(code)
    else
      None
  }

  /** The link mailed at registration reaches the activation handler with the generated code. */
  lemma {:induction false} ActivationLinkCarriesCode(choice: nat -> nat)
    ensures MatchActivationPath(ActivationPath(RandomString(ACTIVATION_CODE_LENGTH, choice)))
         == Some(RandomString(ACTIVATION_CODE_LENGTH, choice))
  {
    var code := RandomString(ACTIVATION_CODE_LENGTH, choice);
    var path := ActivationPath(code);
    var n := |ACTIVATE_PREFIX|;
    assert path[..n] == ACTIVATE_PREFIX;
    assert path[n..|path| - 1] == code;
    assert '/' !in code by {
      forall i | 0 <= i < |code| ensures code[i] != '/' {
        assert IsAsciiAlnum(code[i]);
      }
    }
  }

  // ---------------------------------------------------------------------------
  // Users
  // ---------------------------------------------------------------------------

  /** A user is pending (inactive, with a code of at most 8 characters) or active (code cleared). */
  ghost predicate UserWellFormed(u: User) {
    |u.activationCode| <= ACTIVATION_CODE_LENGTH && (u.isActive <==> u.activationCode == "")
  }

  /** The effect of a successful activation on the user's row: active, code cleared, every other column kept. */
  function Activated(u: User): (v: User)
    ensures v.isActive && v.activationCode == ""
    ensures v.id == u.id && v.email == u.email && v.name == u.name && v.password == u.password
  {
    u.(activationCode := "", isActive := true)
  }

  /** The users whose stored activation code is `code`. */
  function Holders(users: map<nat, User>, code: string): (r: set<nat>)
    ensures forall id :: id in r <==> id in users && users[id].activationCode == code
  {
    set id | id in users && users[id].activationCode == code
  }

  /** When one user holds a non-empty code, activating that user leaves nobody holding it. */
  lemma ActivationIsSingleUse(users: map<nat, User>, id: nat, code: string)
    requires code != "" && Holders(users, code) == {id}
    ensures Holders(users[id := Activated(users[id])], code) == {}
  {
    var after := users[id := Activated(users[id])];
    forall other | other in after ensures after[other].activationCode != code {
      if other != id {
        assert other !in Holders(users, code);
      }
    }
  }

  /** Codes are drawn at random, not required unique: when two users hold the same code, the code still
      activates the second user after it has activated the first. */
  lemma SharedCodeWorksTwice(users: map<nat, User>, id: nat, other: nat, code: string)
    requires id != other && id in Holders(users, code) && other in Holders(users, code)
    ensures other in Holders(users[id := Activated(users[id])], code)
  {
  }

  /** Activation turns any user, pending or not, into a well-formed active one. */
  lemma ActivatedWellFormed(u: User)
    ensures UserWellFormed(Activated(u))
  {
  }

  // ---------------------------------------------------------------------------
  // Posts
  // ---------------------------------------------------------------------------

  /** `CreatePostSchema`. */
  datatype PostInput = PostInput(title: string, text: string, categoryId: string)

  /** `UpdatePostSchema`: every field optional; None leaves the column as it is. */
  datatype PostUpdate = PostUpdate(title: Option<string>, text: Option<string>, categoryId: Option<string>)

  /** The post columns an update can set. */
  datatype Field = TitleField | TextField | CategoryField

  /** `data.dict().items()`. */
  function Items(data: PostUpdate): seq<(Field, Option<string>)> {
    [(TitleField, data.title), (TextField, data.text), (CategoryField, data.categoryId)]
  }

  function Given(data: PostUpdate, f: Field): Option<string> {
    match f
    case TitleField => data.title
    case TextField => data.text
    case CategoryField => data.categoryId
  }

  function GetField(p: Post, f: Field): string {
    match f
    case TitleField => p.title
    case TextField => p.text
    case CategoryField => p.categoryId
  }

  /** `setattr(post, key, value)`. */
  function SetField(p: Post, f: Field, v: string): (q: Post)
    ensures GetField(q, f) == v
    ensures forall g :: g != f ==> GetField(q, g) == GetField(p, g)
    ensures q.id == p.id && q.slug == p.slug && q.authorId == p.authorId && q.createdAt == p.createdAt
  {
    match f
    case TitleField => p.(title := v)
    case TextField => p.(text := v)
    case CategoryField => p.(categoryId := v)
  }

  /** `q` is `p` with every field the update gives overwritten and every other column kept;
      in particular the slug is not recomputed from a new title. */
  ghost predicate Overwrites(p: Post, data: PostUpdate, q: Post) {
    && (forall f :: GetField(q, f) == Given(data, f).GetOr(GetField(p, f)))
    && q.id == p.id && q.slug == p.slug && q.authorId == p.authorId && q.createdAt == p.createdAt
  }

  /** An update determines the updated post. */
  lemma OverwritesDeterministic(p: Post, data: PostUpdate, q1: Post, q2: Post)
    requires Overwrites(p, data, q1) && Overwrites(p, data, q2)
    ensures q1 == q2
  {
    assert GetField(q1, TitleField) == GetField(q2, TitleField);
    assert GetField(q1, TextField) == GetField(q2, TextField);
    assert GetField(q1, CategoryField) == GetField(q2, CategoryField);
  }

  /** Applying the same update twice changes nothing the second time. */
  lemma OverwritesIdempotent(p: Post, data: PostUpdate, q: Post)
    requires Overwrites(p, data, q)
    ensures Overwrites(q, data, q)
  {
    forall f ensures GetField(q, f) == Given(data, f).GetOr(GetField(q, f)) {
      assert GetField(q, f) == Given(data, f).GetOr(GetField(p, f));
    }
  }

  /** An update that gives no field leaves the post as it was. */
  lemma EmptyUpdateKeepsPost(p: Post, q: Post)
    requires Overwrites(p, PostUpdate(None, None, None), q)
    ensures q == p
  {
    assert GetField(q, TitleField) == GetField(p, TitleField);
    assert GetField(q, TextField) == GetField(p, TextField);
    assert GetField(q, CategoryField) == GetField(p, CategoryField);
  }

  /** The loop of `update_post` over the update's items: `setattr` for each value that is not None. */
  method SetAttrs(post: Post, data: PostUpdate) returns (q: Post)
    ensures Overwrites(post, data, q)
  {
    q := post;
    var items := Items(data);
    for i := 0 to |items|
      invariant forall j :: 0 <= j < |items| ==>
                  GetField(q, items[j].0)
                  == if j < i then items[j].1.GetOr(GetField(post, items[j].0)) else GetField(post, items[j].0)
      invariant q.id == post.id && q.slug == post.slug && q.authorId == post.authorId && q.createdAt == post.createdAt
    {
      var (key, value) := items[i];
      if value.Some? {
        q := SetField(q, key, value.value);
      }
    }
    forall f ensures GetField(q, f) == Given(data, f).GetOr(GetField(post, f)) {
      var j := match f case TitleField => 0 case TextField => 1 case CategoryField => 2;
      assert items[j].0 == f && items[j].1 == Given(data, f);
    }
  }

  /** The titles in use: `[post[0] for post in db.query(Post).values('title')]`. */
  function Titles(posts: map<string, Post>): (r: set<string>)
    ensures forall t :: t in r <==> exists s :: s in posts && posts[s].title == t
  {
    set s | s in posts :: posts[s].title
  }

  ghost predicate PostIdsUnique(posts: map<string, Post>) {
    forall a, b :: a in posts && b in posts && a != b ==> posts[a].id != posts[b].id
  }

  // ---------------------------------------------------------------------------
  // Table invariants and the transitions that keep them
  // ---------------------------------------------------------------------------

  /** The users table: rows under their id, ids below the next one, well-formed rows, and the
      unique email index in both directions. */
  ghost predicate UsersTable(users: map<nat, User>, emailIndex: map<string, nat>, nextUserId: nat)
    ensures UsersTable(users, emailIndex, nextUserId) ==> EmailsUnique(users)
  {
    && (forall id :: id in users ==> users[id].id == id && id < nextUserId && UserWellFormed(users[id]))
    && (forall id :: id in users ==> users[id].email in emailIndex && emailIndex[users[id].email] == id)
    && (forall e :: e in emailIndex ==> emailIndex[e] in users && users[emailIndex[e]].email == e)
  }

  /** The posts table: rows under their slug, unique titles, unique ids below the next one. */
  ghost predicate PostsTable(posts: map<string, Post>, nextPostId: nat) {
    && KeyedBySlug(posts)
    && TitlesUnique(posts)
    && PostIdsUnique(posts)
    && (forall s :: s in posts ==> posts[s].id < nextPostId)
  }

  /** No two posts of the table share a slug. */
  lemma PostsTableSlugsUnique(posts: map<string, Post>, nextPostId: nat)
    requires PostsTable(posts, nextPostId)
    ensures SlugsUnique(posts)
  {
    KeyedBySlugMakesSlugsUnique(posts);
  }

  /** Inserting a pending user under the next id with an unused email keeps the users table. */
  lemma InsertUserKeepsTable(users: map<nat, User>, emailIndex: map<string, nat>, nextUserId: nat, u: User)
    requires UsersTable(users, emailIndex, nextUserId)
    requires u.id == nextUserId && UserWellFormed(u)
    requires forall id :: id in users ==> users[id].email != u.email
    ensures UsersTable(users[u.id := u], emailIndex[u.email := u.id], nextUserId + 1)
  {
    var users', index' := users[u.id := u], emailIndex[u.email := u.id];
    forall e | e in index' ensures index'[e] in users' && users'[index'[e]].email == e {
      if e != u.email {
        assert emailIndex[e] in users && emailIndex[e] != u.id;
      }
    }
  }

  /** Activating a stored user keeps the users table. */
  lemma ActivateUserKeepsTable(users: map<nat, User>, emailIndex: map<string, nat>, nextUserId: nat, id: nat)
    requires UsersTable(users, emailIndex, nextUserId) && id in users
    ensures UsersTable(users[id := Activated(users[id])], emailIndex, nextUserId)
  {
    var users' := users[id := Activated(users[id])];
    forall e | e in emailIndex ensures emailIndex[e] in users' && users'[emailIndex[e]].email == e {
      assert emailIndex[e] in users;
    }
  }

  /** Inserting a post under the next id, with an unused slug and title, keeps the posts table. */
  lemma InsertPostKeepsTable(posts: map<string, Post>, nextPostId: nat, p: Post)
    requires PostsTable(posts, nextPostId)
    requires p.id == nextPostId && p.slug !in posts && p.title !in Titles(posts)
    ensures PostsTable(posts[p.slug := p], nextPostId + 1)
  {
    var posts' := posts[p.slug := p];
    forall a, b | a in posts' && b in posts' && a != b
      ensures posts'[a].title != posts'[b].title && posts'[a].id != posts'[b].id
    {
      if a == p.slug {
        assert posts[b].title in Titles(posts);
      } else if b == p.slug {
        assert posts[a].title in Titles(posts);
      }
    }
  }

  /** Replacing a post by one with the same slug and id and a title no other post has keeps the
      posts table. */
  lemma ReplacePostKeepsTable(posts: map<string, Post>, nextPostId: nat, slug: string, q: Post)
    requires PostsTable(posts, nextPostId) && slug in posts
    requires q.slug == slug && q.id == posts[slug].id && q.title !in Titles(posts - {slug})
    ensures PostsTable(posts[slug := q], nextPostId)
  {
    var others := posts - {slug};
    var posts' := posts[slug := q];
    forall a, b | a in posts' && b in posts' && a != b
      ensures posts'[a].title != posts'[b].title && posts'[a].id != posts'[b].id
    {
      if a == slug {
        assert b in others && others[b].title in Titles(others);
      } else if b == slug {
        assert a in others && others[a].title in Titles(others);
      }
    }
  }

  /** Removing a post keeps the posts table. */
  lemma RemovePostKeepsTable(posts: map<string, Post>, nextPostId: nat, slug: string)
    requires PostsTable(posts, nextPostId)
    ensures PostsTable(posts - {slug}, nextPostId)
  {
  }

  const ACTIVATED_MESSAGE: string := "Ваш аккаунт успешно активирован"
  const DELETED_MESSAGE: string := "Пост удалён"

  // ---------------------------------------------------------------------------
  // The store and its handlers
  // ---------------------------------------------------------------------------

  class Blog {
    const config: Config
    const hasher: Hasher
    const slugify: string -> string

    var users: map<nat, User>
    var emailIndex: map<string, nat>
    var posts: map<string, Post>
    var nextUserId: nat
    var nextPostId: nat
    var outbox: seq<Mail>

    /** Table invariants: primary keys, the unique email index, unique post titles and slugs. */
    ghost predicate Valid()
      reads this
    {
      UsersTable(users, emailIndex, nextUserId) && PostsTable(posts, nextPostId)
    }

    constructor (config: Config, hasher: Hasher, slugify: string -> string)
      ensures Valid()
      ensures this.config == config && this.hasher == hasher && this.slugify == slugify
      ensures users == map[] && emailIndex == map[] && posts == map[] && outbox == []
      ensures nextUserId == 1 && nextPostId == 1
    {
      this.config := config;
      this.hasher := hasher;
      this.slugify := slugify;
      users := map[];
      emailIndex := map[];
      posts := map[];
      nextUserId := 1;
      nextPostId := 1;
      outbox := [];
    }

    /** `register_user`: refuse a taken email, else store a pending user and mail the activation link. */
    method RegisterUser(email: string, name: string, password: string, choice: nat -> nat)
      returns (r: Result<User, ApiError>)
      requires Valid()
      modifies this
      ensures Valid()
      ensures posts == old(posts) && nextPostId == old(nextPostId)
      ensures (exists id :: id in old(users) && old(users)[id].email == email) ==>
                && r == Err(EmailTaken)
                && users == old(users) && emailIndex == old(emailIndex)
                && nextUserId == old(nextUserId) && outbox == old(outbox)
      ensures (forall id :: id in old(users) ==> old(users)[id].email != email) ==>
                && r.Ok?
                && r.value.id == old(nextUserId) && r.value.id !in old(users)
                && r.value.email == email && r.value.name == name
                && r.value.password == hasher.hash(password)
                && !r.value.isActive
                && r.value.activationCode == RandomString(ACTIVATION_CODE_LENGTH, choice)
                && users == old(users)[r.value.id := r.value]
                && emailIndex == old(emailIndex)[email := r.value.id]
                && nextUserId == old(nextUserId) + 1
                && outbox == old(outbox) + [ActivationMail(email, r.value.activationCode)]
    {
      var emails := set id | id in users :: users[id].email;
      if email in emails {
        return Err(EmailTaken);
      }
      var code := RandomString(ACTIVATION_CODE_LENGTH, choice);
      var hashed := hasher.hash(password);
      var user := NewUser(nextUserId, email, name, hashed).(activationCode := code);
      InsertUserKeepsTable(users, emailIndex, nextUserId, user);
      users := users[user.id := user];
      emailIndex := emailIndex[email := user.id];
      nextUserId := nextUserId + 1;
      outbox := outbox + [ActivationMail(user.email, code)];
      r := Ok(user);
    }

    /** `activation`: activate some user holding the code and clear the code, or answer 404. */
    method Activation(code: string) returns (r: Result<string, ApiError>)
      requires Valid()
      modifies this
      ensures Valid()
      ensures emailIndex == old(emailIndex) && posts == old(posts) && outbox == old(outbox)
      ensures nextUserId == old(nextUserId) && nextPostId == old(nextPostId)
      ensures r.Err? <==> Holders(old(users), code) == {}
      ensures r.Err? ==> r.error == CodeNotFound && users == old(users)
      ensures r.Ok? ==> r.value == ACTIVATED_MESSAGE
      ensures r.Ok? ==>
                exists id :: id in Holders(old(users), code) && users == old(users)[id := Activated(old(users)[id])]
    {
      if id :| id in users && users[id].activationCode == code {
        ActivateUserKeepsTable(users, emailIndex, nextUserId, id);
        users := users[id := Activated(users[id])];
        r := Ok(ACTIVATED_MESSAGE);
      } else {
        r := Err(CodeNotFound);
      }
    }

    /** `login`: unknown email, then wrong password, then inactive account; else a token pair for `str(user.id)`. */
    method Login(email: string, password: string, now: int) returns (r: Result<TokenPair, ApiError>)
      requires Valid()
      ensures r == Err(WrongEmail) <==> forall id :: id in users ==> users[id].email != email
      ensures r == Err(WrongPassword) <==>
                exists id :: id in users && users[id].email == email && !hasher.verify(password, users[id].password)
      ensures r == Err(AccountInactive) <==>
                exists id :: id in users && users[id].email == email && hasher.verify(password, users[id].password)
                             && !users[id].isActive
      ensures r.Ok? <==>
                exists id :: id in users && users[id].email == email && hasher.verify(password, users[id].password)
                             && users[id].isActive
      ensures r.Ok? ==>
                exists id :: id in users && users[id].email == email && r.value == IssueTokens(IdToString(id), now, config)
    {
      if email !in emailIndex {
        return Err(WrongEmail);
      }
      var user := users[emailIndex[email]];
      if !hasher.verify(password, user.password) {
        return Err(WrongPassword);
      }
      if !user.isActive {
        return Err(AccountInactive);
      }
      r := Ok(IssueTokens(IdToString(user.id), now, config));
    }

    /** `post_details`: the post with that slug, or 404. */
    method PostDetails(slug: string) returns (r: Result<Post, ApiError>)
      requires Valid()
      ensures r.Ok? <==> slug in posts
      ensures r.Ok? ==> r.value == posts[slug] && r.value.slug == slug
      ensures r.Err? ==> r.error == PostNotFound
    {
      if slug in posts {
        r := Ok(posts[slug]);
      } else {
        r := Err(PostNotFound);
      }
    }

    /** `create_post`: refuse a title in use, else insert a post under `slugify(title)` by the caller. */
    method CreatePost(token: Token, now: int, data: PostInput) returns (r: Result<Post, ApiError>)
      requires Valid()
      modifies this
      ensures Valid()
      ensures users == old(users) && emailIndex == old(emailIndex)
      ensures nextUserId == old(nextUserId) && outbox == old(outbox)
      ensures var caller := GetRequestUser(token, now, old(users), config);
              && (caller.Err? ==> r == Err(Unauthorized(caller.error)))
              && (caller.Ok? && data.title in Titles(old(posts)) ==> r == Err(TitleTaken))
              && (caller.Ok? && data.title !in Titles(old(posts)) && slugify(data.title) in old(posts) ==>
                    r == Err(ConstraintViolation))
              && (r.Ok? <==> caller.Ok? && data.title !in Titles(old(posts)) && slugify(data.title) !in old(posts))
              && (r.Ok? ==> r.value == Post(old(nextPostId), data.title, slugify(data.title), data.text,
                                            data.categoryId, caller.value.id, now))
      ensures r.Err? ==> posts == old(posts) && nextPostId == old(nextPostId)
      ensures r.Ok? ==> posts == old(posts)[r.value.slug := r.value] && nextPostId == old(nextPostId) + 1
    {
      var caller := GetRequestUser(token, now, users, config);
      if caller.Err? {
        return Err(Unauthorized(caller.error));
      }
      var titles := Titles(posts);
      if data.title in titles {
        return Err(TitleTaken);
      }
      var slug := slugify(data.title);
      if slug in posts {
        // the unique slug column rejects the commit
        return Err(ConstraintViolation);
      }
      var post := Post(nextPostId, data.title, slug, data.text, data.categoryId, caller.value.id, now);
      InsertPostKeepsTable(posts, nextPostId, post);
      posts := posts[slug := post];
      nextPostId := nextPostId + 1;
      r := Ok(post);
    }

    /** `update_post`: 404 for a missing slug, 403 for a non-author, else overwrite the fields given. */
    method UpdatePost(token: Token, now: int, slug: string, data: PostUpdate) returns (r: Result<Post, ApiError>)
      requires Valid()
      modifies this
      ensures Valid()
      ensures users == old(users) && emailIndex == old(emailIndex) && outbox == old(outbox)
      ensures nextUserId == old(nextUserId) && nextPostId == old(nextPostId)
      ensures var caller := GetRequestUser(token, now, old(users), config);
              && (caller.Err? ==> r == Err(Unauthorized(caller.error)))
              && (caller.Ok? && slug !in old(posts) ==> r == Err(PostNotFound))
              && (caller.Ok? && slug in old(posts) && old(posts)[slug].authorId != caller.value.id ==>
                    r == Err(NotAuthor))
              && (caller.Ok? && slug in old(posts) && old(posts)[slug].authorId == caller.value.id ==>
                    (r.Ok? <==> data.title.None? || data.title.value !in Titles(old(posts) - {slug}))
                    && (r.Err? ==> r.error == ConstraintViolation))
      ensures r.Ok? ==> slug in old(posts) && Overwrites(old(posts)[slug], data, r.value)
                        && posts == old(posts)[slug := r.value]
      ensures r.Err? ==> posts == old(posts)
    {
      var caller := GetRequestUser(token, now, users, config);
      if caller.Err? {
        return Err(Unauthorized(caller.error));
      }
      if slug !in posts {
        return Err(PostNotFound);
      }
      var post := posts[slug];
      if post.authorId != caller.value.id {
        return Err(NotAuthor);
      }
      var updated := SetAttrs(post, data);
      assert updated.title == GetField(updated, TitleField);
      if updated.title in Titles(posts - {slug}) {
        // the unique title column rejects the commit
        return Err(ConstraintViolation);
      }
      ReplacePostKeepsTable(posts, nextPostId, slug, updated);
      posts := posts[slug := updated];
      r := Ok(updated);
    }

    /** `delete_post`: 404 for a missing slug, 403 for a non-author, else remove exactly that post. */
    method DeletePost(token: Token, now: int, slug: string) returns (r: Result<string, ApiError>)
      requires Valid()
      modifies this
      ensures Valid()
      ensures users == old(users) && emailIndex == old(emailIndex) && outbox == old(outbox)
      ensures nextUserId == old(nextUserId) && nextPostId == old(nextPostId)
      ensures var caller := GetRequestUser(token, now, old(users), config);
              && (caller.Err? ==> r == Err(Unauthorized(caller.error)))
              && (caller.Ok? && slug !in old(posts) ==> r == Err(PostNotFound))
              && (caller.Ok? && slug in old(posts) && old(posts)[slug].authorId != caller.value.id ==>
                    r == Err(NotAuthor))
              && (r.Ok? <==> caller.Ok? && slug in old(posts) && old(posts)[slug].authorId == caller.value.id)
      ensures r.Ok? ==> r.value == DELETED_MESSAGE && posts == old(posts) - {slug}
      ensures r.Err? ==> posts == old(posts)
    {
      var caller := GetRequestUser(token, now, users, config);
      if caller.Err? {
        return Err(Unauthorized(caller.error));
      }
      if slug !in posts {
        return Err(PostNotFound);
      }
      if posts[slug].authorId != caller.value.id {
        return Err(NotAuthor);
      }
      RemovePostKeepsTable(posts, nextPostId, slug);
      posts := posts - {slug};
      r := Ok(DELETED_MESSAGE);
    }
  }

  /**
   * A client of the handlers, the sign-up flow. First step: a fresh store
   * registers one user, who is stored pending under id 1 with the generated code.
   */
  method RegisterFirstUser(config: Config, hasher: Hasher, slugify: string -> string, choice: nat -> nat,
                           email: string, name: string, password: string)
    returns (blog: Blog)
    ensures fresh(blog) && blog.Valid()
    ensures blog.config == config && blog.hasher == hasher && blog.slugify == slugify
    ensures blog.posts == map[]
    ensures blog.users == map[1 := User(1, email, name, hasher.hash(password), false,
                                        RandomString(ACTIVATION_CODE_LENGTH, choice))]
    ensures blog.outbox == [ActivationMail(email, RandomString(ACTIVATION_CODE_LENGTH, choice))]
  {
    blog := new Blog(config, hasher, slugify);
    var registered := blog.RegisterUser(email, name, password, choice);
    assert registered.Ok?;
  }

  /** Continued: logging in before activating is refused; the mailed code activates once and only once. */
  method RegisterAndActivate(config: Config, hasher: Hasher, slugify: string -> string, choice: nat -> nat,
                             email: string, name: string, password: string, now: int)
    returns (blog: Blog)
    requires HasherSound(hasher)
    ensures fresh(blog) && blog.Valid()
    ensures blog.config == config && blog.hasher == hasher && blog.slugify == slugify
    ensures blog.users.Keys == {1} && blog.posts == map[]
    ensures blog.users[1].email == email && blog.users[1].isActive
    ensures blog.users[1].password == hasher.hash(password)
  {
    blog := RegisterFirstUser(config, hasher, slugify, choice, email, name, password);
    var user := blog.users[1];
    var code := user.activationCode;
    assert |code| == ACTIVATION_CODE_LENGTH;
    assert hasher.verify(password, user.password);

    var early := blog.Login(email, password, now);
    assert early == Err(AccountInactive) by {
      assert blog.users[1].email == email && !blog.users[1].isActive;
    }

    var activated := blog.Activation(code);
    assert Holders(map[1 := user], code) == {1};
    assert activated.Ok?;
    assert blog.users == map[1 := Activated(user)];
    var again := blog.Activation(code);
    ActivationIsSingleUse(map[1 := user], 1, code);
    assert again == Err(CodeNotFound);
  }

  /** Continued: registering the same email again is refused, and the activated user logs in. */
  method SignUp(config: Config, hasher: Hasher, slugify: string -> string, choice: nat -> nat, now: int)
    returns (blog: Blog, tokens: TokenPair)
    requires HasherSound(hasher)
    ensures fresh(blog) && blog.Valid()
    ensures blog.config == config && blog.slugify == slugify
    ensures 1 in blog.users && blog.posts == map[]
    ensures tokens == IssueTokens(IdToString(1), now, config)
  {
    var email := "alice@example.com";
    var name := "alice";
    var password := "pw123";
    blog := RegisterAndActivate(config, hasher, slugify, choice, email, name, password, now);

    var twice := blog.RegisterUser(email, name, password, choice);
    assert twice == Err(EmailTaken);

    var loggedIn := blog.Login(email, password, now);
    assert loggedIn.Ok? by {
      assert hasher.verify(password, blog.users[1].password);
    }
    tokens := loggedIn.value;
  }

  /** Second half: the access token from the login publishes a post under the title's slug. */
  method SignUpAndPublish(config: Config, hasher: Hasher, slugify: string -> string, choice: nat -> nat, now: int)
    requires HasherSound(hasher)
    requires config.accessLifetime >= 0
  {
    var blog, tokens := SignUp(config, hasher, slugify, choice, now);
    AccessTokenIdentifiesUser(blog.users, 1, now, now, config);
    var post := blog.CreatePost(tokens.accessToken, now, PostInput("Hello", "...", "news"));
    assert post.Ok?;
    assert post.value.slug == slugify("Hello") && post.value.authorId == 1;
    var shown := blog.PostDetails(slugify("Hello"));
    assert shown == post;
  }
}
