/**
 * The blog's tables as records: users, categories, tags, posts and the
 * post/tag link table, with the column defaults and the uniqueness
 * constraints the schema declares, and the generator of activation codes.
 */
module Models {

  // ---------------------------------------------------------------------------
  // The activation-code generator
  // ---------------------------------------------------------------------------

  /** `string.ascii_lowercase`, `string.ascii_uppercase`, `string.digits`. */
  const LOWERCASE: string := CharRun('a', 26)
  const UPPERCASE: string := CharRun('A', 26)
  const DIGITS: string := CharRun('0', 10)

  /** The `count` consecutive code points starting at `first`. */
  function CharRun(first: char, count: nat): (s: string)
    requires first as int + count <= 0xD800
    ensures |s| == count
    ensures forall i :: 0 <= i < count ==> s[i] as int == first as int + i
  {
    seq(count, i requires 0 <= i < count => (first as int + i) as char)
  }

  /** The characters `get_random_string` draws from: ascii_letters + digits. */
  const ALPHABET: string := LOWERCASE + UPPERCASE + DIGITS

  predicate IsDigit(c: char) {
    '0' <= c <= '9'
  }

  predicate IsAsciiAlnum(c: char) {
    'a' <= c <= 'z' || 'A' <= c <= 'Z' || IsDigit(c)
  }

  /** Position of an alphanumeric character in ALPHABET. */
  function AlphabetIndex(c: char): (k: nat)
    requires IsAsciiAlnum(c)
    ensures k < |ALPHABET| && ALPHABET[k] == c
  {
    if 'a' <= c <= 'z' then c as int - 'a' as int
    else if 'A' <= c <= 'Z' then 26 + (c as int - 'A' as int)
    else 52 + (c as int - '0' as int)
  }

  /** ALPHABET is the 62 ASCII letters and digits, each once, and nothing else. */
  lemma AlphabetIsAsciiAlnum()
    ensures |ALPHABET| == 62
    ensures forall k :: 0 <= k < |ALPHABET| ==> IsAsciiAlnum(ALPHABET[k])
    ensures forall c :: IsAsciiAlnum(c) <==> c in ALPHABET
  {
    forall c | IsAsciiAlnum(c) ensures c in ALPHABET {
      var k := AlphabetIndex(c);
    }
  }

  /**
   * `get_random_string(length)`: `length` independent draws from ALPHABET.
   * The randomness is a parameter: `choice(i)` is the index that
   * `random.choice` picks at draw number `i`.
   */
  function RandomString(length: nat, choice: nat -> nat): (s: string)
    ensures |s| == length
    ensures forall i :: 0 <= i < |s| ==> IsAsciiAlnum(s[i])
  {
    if length == 0 then []
    else
      AlphabetIsAsciiAlnum();
      RandomString(length - 1, choice) + [ALPHABET[choice(length - 1) % |ALPHABET|]]
  }

  /** Character `i` of the generated string is the one drawn at draw `i`. */
  lemma {:induction false} RandomStringDraws(length: nat, choice: nat -> nat)
    ensures forall i :: 0 <= i < length ==> RandomString(length, choice)[i] == ALPHABET[choice(i) % |ALPHABET|]
  {
    if length > 0 {
      RandomStringDraws(length - 1, choice);
    }
  }

  /** The draws that spell out `s`: at draw `i`, the position of `s[i]` in ALPHABET. */
  function DrawsFor(s: string): nat -> nat {
    (i: nat) => if i < |s| && IsAsciiAlnum(s[i]) then AlphabetIndex(s[i]) else 0
  }

  /** Every alphanumeric string is an output of the generator: the draws `DrawsFor(s)` produce it. */
  lemma {:induction false} RandomStringCoversAlnum(s: string)
    requires forall i :: 0 <= i < |s| ==> IsAsciiAlnum(s[i])
    ensures RandomString(|s|, DrawsFor(s)) == s
  {
    var choice := DrawsFor(s);
    var r := RandomString(|s|, choice);
    RandomStringDraws(|s|, choice);
    assert |ALPHABET| == 62;
    forall i | 0 <= i < |s| ensures r[i] == s[i] {
      var k := AlphabetIndex(s[i]);
      assert choice(i) == k;
      assert k % 62 == k;
    }
  }

  // ---------------------------------------------------------------------------
  // Records
  // ---------------------------------------------------------------------------

  /** Declared width of `users.activation_code` (String(8)); codes are generated at this length. */
  const ACTIVATION_CODE_LENGTH: nat := 8

  /** A row of `users`. */
  datatype User = User(
    id: nat,
    email: string,
    name: string,
    password: string,      // the password hash, never the plaintext
    isActive: bool,
    activationCode: string
  )

  /** A `User(email=..., name=...)` whose remaining columns take their defaults. */
  function NewUser(id: nat, email: string, name: string, password: string): (u: User)
    ensures u.id == id && u.email == email && u.name == name && u.password == password
    ensures !u.isActive
    ensures u.activationCode == ""
  {
    User(id, email, name, password, false, "")
  }

  /** A row of `categories`; the slug is the primary key. */
  datatype Category = Category(title: string, slug: string)

  /** A row of `tags`; the slug is the primary key. */
  datatype Tag = Tag(title: string, slug: string)

  /** A row of `posts`. `createdAt` is the server clock in seconds at insertion. */
  datatype Post = Post(
    id: nat,
    title: string,
    slug: string,
    text: string,
    categoryId: string,
    authorId: nat,
    createdAt: int
  )

  // ---------------------------------------------------------------------------
  // Uniqueness constraints
  // ---------------------------------------------------------------------------

  /** `users.email` is unique. */
  ghost predicate EmailsUnique(users: map<nat, User>) {
    forall a, b :: a in users && b in users && a != b ==> users[a].email != users[b].email
  }

  /** `posts.title` is unique. */
  ghost predicate TitlesUnique(posts: map<string, Post>) {
    forall a, b :: a in posts && b in posts && a != b ==> posts[a].title != posts[b].title
  }

  /** `posts.slug` is unique. */
  ghost predicate SlugsUnique(posts: map<string, Post>) {
    forall a, b :: a in posts && b in posts && a != b ==> posts[a].slug != posts[b].slug
  }

  /** Posts stored under their own slug. */
  ghost predicate KeyedBySlug(posts: map<string, Post>) {
    forall s :: s in posts ==> posts[s].slug == s
  }

  /** Storing posts under their slug is what makes slugs unique. */
  lemma KeyedBySlugMakesSlugsUnique(posts: map<string, Post>)
    requires KeyedBySlug(posts)
    ensures SlugsUnique(posts)
  {
    forall a, b | a in posts && b in posts && a != b
      ensures posts[a].slug != posts[b].slug
    {
      assert posts[a].slug == a && posts[b].slug == b;
    }
  }

  /** Categories stored under their slug (primary key), with unique titles. */
  ghost predicate CategoriesWellFormed(categories: map<string, Category>) {
    && (forall s :: s in categories ==> categories[s].slug == s)
    && (forall a, b :: a in categories && b in categories && a != b ==> categories[a].title != categories[b].title)
  }

  /** No two categories share a slug or a title. */
  lemma CategoriesUnique(categories: map<string, Category>)
    requires CategoriesWellFormed(categories)
    ensures forall a, b :: a in categories && b in categories && a != b ==>
              categories[a].slug != categories[b].slug && categories[a].title != categories[b].title
  {
    forall a, b | a in categories && b in categories && a != b
      ensures categories[a].slug != categories[b].slug
    {
      assert categories[a].slug == a && categories[b].slug == b;
    }
  }

  /** Tags stored under their slug (primary key), with unique titles. */
  ghost predicate TagsWellFormed(tags: map<string, Tag>) {
    && (forall s :: s in tags ==> tags[s].slug == s)
    && (forall a, b :: a in tags && b in tags && a != b ==> tags[a].title != tags[b].title)
  }

  /** No two tags share a slug or a title. */
  lemma TagsUnique(tags: map<string, Tag>)
    requires TagsWellFormed(tags)
    ensures forall a, b :: a in tags && b in tags && a != b ==> tags[a].slug != tags[b].slug && tags[a].title != tags[b].title
  {
    forall a, b | a in tags && b in tags && a != b
      ensures tags[a].slug != tags[b].slug
    {
      assert tags[a].slug == a && tags[b].slug == b;
    }
  }

  // ---------------------------------------------------------------------------
  // The post/tag link table
  // ---------------------------------------------------------------------------

  /** Rows of `post_tags`: (post id, tag slug). The pair is the primary key, so the rows form a set. */
  type PostTags = set<(nat, string)>

  /** `Post.tags`: the slugs of the tags linked to a post. */
  function TagsOf(links: PostTags, postId: nat): (r: set<string>)
    ensures forall t :: t in r <==> (postId, t) in links
  {
    set link | link in links && link.0 == postId :: link.1
  }

  /** `Tag.posts`: the ids of the posts linked to a tag. */
  function PostsOf(links: PostTags, tagSlug: string): (r: set<nat>)
    ensures forall p :: p in r <==> (p, tagSlug) in links
  {
    set link | link in links && link.1 == tagSlug :: link.0
  }

  /** The two sides of the many-to-many relationship see the same links. */
  lemma TagsAndPostsAgree(links: PostTags, postId: nat, tagSlug: string)
    ensures tagSlug in TagsOf(links, postId) <==> postId in PostsOf(links, tagSlug)
  {
  }

  /** Inserting a link row; inserting one that exists adds no row. */
  function Link(links: PostTags, postId: nat, tagSlug: string): (r: PostTags)
    ensures (postId, tagSlug) in r && links <= r
    ensures |r| == if (postId, tagSlug) in links then |links| else |links| + 1
  {
    links + {(postId, tagSlug)}
  }
}
