/**
 * The database seeder of src/lib/seed.ts: the admin account, four
 * categories, six tags, two sample posts and the default SEO settings, each
 * written only when no row with its key (email, slug or id) exists. Tables
 * are maps from that key to the row; the store gives each new row the next
 * free id.
 */
module Seed {
  import opened Wrappers
  import opened Json
  import Auth

  type Table = map<string, Body>

  /** The tables the seeder touches and the store's id counter. */
  datatype Tables = Tables(users: Table, categories: Table, tags: Table, posts: Table, settings: Table, nextId: nat)

  const AdminEmail := "admin@jacquesbelmont.com"
  const AdminPassword := "admin123"
  const SeoSlug := "seo"
  const SettingsId := "default"

  function AdminRow(hashed: string): Body {
    map["email" := JStr(AdminEmail), "password" := JStr(hashed), "name" := JStr("Jacques Belmont"),
        "role" := JStr("ADMIN")]
  }

  function CategoryRow(name: string, slug: string, description: string): (string, Body) {
    (slug, map["name" := JStr(name), "slug" := JStr(slug), "description" := JStr(description)])
  }

  const CategoryRows: seq<(string, Body)> := [
    CategoryRow("Digital Marketing", "digital-marketing", "Articles about digital marketing strategies and trends"),
    CategoryRow("SEO", "seo", "Search Engine Optimization tips and techniques"),
    CategoryRow("AI & Technology", "ai-technology", "Artificial Intelligence and technology insights"),
    CategoryRow("Content Marketing", "content-marketing", "Content creation and marketing strategies")]

  function TagRow(name: string, slug: string): (string, Body) {
    (slug, map["name" := JStr(name), "slug" := JStr(slug)])
  }

  const TagRows: seq<(string, Body)> := [
    TagRow("SEO", "seo"), TagRow("Content", "content"), TagRow("AI", "ai"), TagRow("Marketing", "marketing"),
    TagRow("Strategy", "strategy"), TagRow("Analytics", "analytics")]

  /** A sample post; the author and category are the ids of the stored admin and `seo` rows. */
  function PostRow(title: string, slug: string, excerpt: string, image: string, featured: bool,
                   seoTitle: string, seoDescription: string, seoKeywords: string, readTime: string,
                   authorId: Option<Json>, categoryId: Option<Json>, now: nat): (string, Body) {
    var row := map["title" := JStr(title), "slug" := JStr(slug), "excerpt" := JStr(excerpt), "image" := JStr(image),
                   "published" := JBool(true), "featured" := JBool(featured), "seoTitle" := JStr(seoTitle),
                   "seoDescription" := JStr(seoDescription), "seoKeywords" := JStr(seoKeywords),
                   "readTime" := JStr(readTime), "publishedAt" := JConv(ToDate, JNum(now))];
    (slug, Put(Put(row, "authorId", authorId), "categoryId", categoryId))
  }

  /** The texts of the two sample posts. */
  const SeoPostExcerpt := "Discover the latest SEO trends and strategies that will dominate 2024."
  const SeoPostImage := "https://images.pexels.com/photos/270637/pexels-photo-270637.jpeg?auto=compress&cs=tinysrgb&w=800"
  const SeoPostSeoTitle := "The Future of SEO in 2024 - Complete Guide"
  const SeoPostSeoDescription := "Discover the latest SEO trends and strategies that will dominate 2024. Learn about AI-powered optimization, Core Web Vitals, and voice search."
  const SeoPostSeoKeywords := "SEO 2024, search engine optimization, AI SEO, voice search, Core Web Vitals"
  const AiPostExcerpt := "Explore the best AI tools that can revolutionize your content creation process."
  const AiPostImage := "https://images.pexels.com/photos/8386440/pexels-photo-8386440.jpeg?auto=compress&cs=tinysrgb&w=800"
  const AiPostSeoTitle := "Best AI Tools for Content Creation in 2024"
  const AiPostSeoDescription := "Discover the top AI tools that can revolutionize your content creation process. Complete guide to AI-powered writing and optimization."
  const AiPostSeoKeywords := "AI content creation, AI writing tools, GPT-4, Jasper AI, Copy.ai"

  function PostRows(authorId: Option<Json>, categoryId: Option<Json>, now: nat): seq<(string, Body)> {
    [PostRow("The Future of SEO in 2024", "future-of-seo-2024", SeoPostExcerpt, SeoPostImage, true, SeoPostSeoTitle,
             SeoPostSeoDescription, SeoPostSeoKeywords, "8 min read", authorId, categoryId, now),
     PostRow("AI Tools for Content Creation", "ai-tools-content-creation", AiPostExcerpt, AiPostImage, false,
             AiPostSeoTitle, AiPostSeoDescription, AiPostSeoKeywords, "6 min read", authorId, categoryId, now)]
  }

  /** The `default` settings row. The site description keeps the file's own spelling of the city,
      whose `ã` is stored twice encoded, as the two characters U+00C3 U+00A3. */
  const SettingsRow: Body := map[
    "id" := JStr(SettingsId),
    "siteTitle" := JStr("Jacques Belmont - Digital Marketing Expert & AI Specialist"),
    "siteDescription" := JStr("Professional digital marketing consultant specializing in SEO, content strategy, and AI optimization. Based in Jo\U{00C3}\U{00A3}o Pessoa, Brazil."),
    "siteKeywords" := JStr("Jacques Belmont, Digital Marketing, SEO Specialist, Content Strategy, AI Optimization"),
    "canonicalUrl" := JStr("https://jacquesbelmont.com"),
    "ogTitle" := JStr("Jacques Belmont - Digital Marketing Expert"),
    "ogDescription" := JStr("Professional digital marketing consultant specializing in SEO, content strategy, and AI optimization."),
    "ogImage" := JStr("https://jacquesbelmont.com/og-image.jpg"), "twitterHandle" := JStr("@jacquesbelmont")]

  /** The keys of a list of rows. */
  function Keys(rows: seq<(string, Body)>): set<string> {
    set i | 0 <= i < |rows| :: rows[i].0
  }

  /** `upsert({ where: { key }, update: {}, create: row })` with a store-assigned id. */
  function Insert(t: Table, next: nat, key: string, row: Body): (r: (Table, nat))
    ensures key in t ==> r == (t, next)
    ensures key !in t ==> r == (t[key := row["id" := JNum(next)]], next + 1)
  {
    if key in t then (t, next) else (t[key := row["id" := JNum(next)]], next + 1)
  }

  /** `row` is one of `rows` with key `k`, as created: that row's members plus a store-assigned id. */
  predicate CreatedFrom(rows: seq<(string, Body)>, k: string, row: Body) {
    "id" in row && exists i :: 0 <= i < |rows| && rows[i].0 == k && row == rows[i].1["id" := row["id"]]
  }

  /** The keys of a non-empty list are those of all rows but the last, and the last one's. */
  lemma KeysOfLast(rows: seq<(string, Body)>)
    requires rows != []
    ensures Keys(rows) == Keys(rows[..|rows| - 1]) + {rows[|rows| - 1].0}
  {
    var front := rows[..|rows| - 1];
    forall k | k in Keys(rows) ensures k in Keys(front) + {rows[|rows| - 1].0} {
      var i :| 0 <= i < |rows| && rows[i].0 == k;
      if i < |rows| - 1 { assert front[i] == rows[i]; }
    }
    forall k | k in Keys(front) ensures k in Keys(rows) {
      var i :| 0 <= i < |front| && front[i].0 == k;
      assert rows[i] == front[i];
    }
  }

  /** A row created from all rows but the last, or from the last one, is created from the list. */
  lemma CreatedFromLonger(rows: seq<(string, Body)>, k: string, row: Body)
    requires rows != []
    requires "id" in row
    requires CreatedFrom(rows[..|rows| - 1], k, row) || (rows[|rows| - 1].0 == k && row == rows[|rows| - 1].1["id" := row["id"]])
    ensures CreatedFrom(rows, k, row)
  {
    var front := rows[..|rows| - 1];
    if CreatedFrom(front, k, row) {
      var i :| 0 <= i < |front| && front[i].0 == k && row == front[i].1["id" := row["id"]];
      assert rows[i] == front[i];
    } else {
      assert rows[|rows| - 1].0 == k;
    }
  }

  /** The rows upserted one after the other, in order. Rows already present are untouched, every key
      is present afterwards, nothing else is added, and each added row is one of `rows` with its id. */
  function InsertAll(t: Table, next: nat, rows: seq<(string, Body)>): (r: (Table, nat))
    ensures r.0.Keys == t.Keys + Keys(rows)
    ensures forall k :: k in t ==> r.0[k] == t[k]
    ensures forall k :: k in r.0 && k !in t ==> CreatedFrom(rows, k, r.0[k])
    ensures r.1 >= next
    ensures Keys(rows) <= t.Keys ==> r == (t, next)
    decreases |rows|
  {
    if rows == [] then (t, next)
    else
      var (t1, n1) := InsertAll(t, next, rows[..|rows| - 1]);
      KeysOfLast(rows);
      var r := Insert(t1, n1, rows[|rows| - 1].0, rows[|rows| - 1].1);
      forall k | k in r.0 && k !in t
        ensures CreatedFrom(rows, k, r.0[k])
      {
        CreatedFromLonger(rows, k, r.0[k]);
      }
      r
  }

  /** Upserting one more row of the list is one more Insert. */
  lemma InsertAllStep(t: Table, next: nat, rows: seq<(string, Body)>, i: nat)
    requires i < |rows|
    ensures InsertAll(t, next, rows[..i + 1]) ==
      Insert(InsertAll(t, next, rows[..i]).0, InsertAll(t, next, rows[..i]).1, rows[i].0, rows[i].1)
  {
    assert rows[..i + 1][..i] == rows[..i];
  }

  /** The admin account, created with the hashed `admin123` only when no user has its email;
      hashing is needed only then, and its failure aborts the run. */
  function WithAdmin(users: Table, next: nat, hash: Fallible<string>): (r: Fallible<(Table, nat)>)
    ensures r.Threw? <==> AdminEmail !in users && hash.Threw?
    ensures AdminEmail in users ==> r == Ok((users, next))
    ensures r.Ok? ==> r.value.0.Keys == users.Keys + {AdminEmail} && r.value.1 >= next
    ensures r.Ok? ==> forall k :: k in users ==> r.value.0[k] == users[k]
  {
    if AdminEmail in users then Ok((users, next))
    else if hash.Threw? then Threw
    else Ok(Insert(users, next, AdminEmail, AdminRow(hash.value)))
  }

  const PostSlugs := {"future-of-seo-2024", "ai-tools-content-creation"}

  lemma PostKeys(authorId: Option<Json>, categoryId: Option<Json>, now: nat)
    ensures Keys(PostRows(authorId, categoryId, now)) == PostSlugs
  {
    var rows := PostRows(authorId, categoryId, now);
    assert rows[0].0 == "future-of-seo-2024" && rows[1].0 == "ai-tools-content-creation";
  }

  /** The sample posts, attempted only when the admin and the `seo` category are both stored. */
  function WithPosts(posts: Table, next: nat, users: Table, categories: Table, now: nat): (r: (Table, nat))
    ensures AdminEmail in users && SeoSlug in categories ==> r.0.Keys == posts.Keys + PostSlugs
    ensures !(AdminEmail in users && SeoSlug in categories) ==> r == (posts, next)
    ensures forall k :: k in posts ==> r.0[k] == posts[k]
    ensures r.1 >= next
    ensures PostSlugs <= posts.Keys ==> r == (posts, next)
    ensures AdminEmail in users && SeoSlug in categories ==>
      forall k :: k in r.0 && k !in posts ==>
        CreatedFrom(PostRows(Get(users[AdminEmail], "id"), Get(categories[SeoSlug], "id"), now), k, r.0[k])
  {
    if AdminEmail in users && SeoSlug in categories then
      var rows := PostRows(Get(users[AdminEmail], "id"), Get(categories[SeoSlug], "id"), now);
      PostKeys(Get(users[AdminEmail], "id"), Get(categories[SeoSlug], "id"), now);
      InsertAll(posts, next, rows)
    else (posts, next)
  }

  /** The members of one sample post, whatever id the store gives it. */
  lemma PostRowMembers(title: string, slug: string, excerpt: string, image: string, featured: bool,
                       seoTitle: string, seoDescription: string, seoKeywords: string, readTime: string,
                       authorId: Option<Json>, categoryId: Option<Json>, now: nat, id: Json)
    ensures var row := PostRow(title, slug, excerpt, image, featured, seoTitle, seoDescription, seoKeywords,
                               readTime, authorId, categoryId, now).1["id" := id];
      && Get(row, "published") == Some(JBool(true))
      && Get(row, "publishedAt") == Some(JConv(ToDate, JNum(now)))
      && Get(row, "authorId") == authorId && Get(row, "categoryId") == categoryId
      && Get(row, "excerpt") == Some(JStr(excerpt)) && Get(row, "seoTitle") == Some(JStr(seoTitle))
  {
  }

  /** Every sample post the seeder adds is published and dated by the clock, written by the stored
      admin in the stored `seo` category, and carries its own excerpt and SEO title. */
  lemma SeededPostsArePublished(posts: Table, next: nat, users: Table, categories: Table, now: nat, k: string)
    requires AdminEmail in users && SeoSlug in categories
    requires k in WithPosts(posts, next, users, categories, now).0 && k !in posts
    ensures var row := WithPosts(posts, next, users, categories, now).0[k];
      && Get(row, "published") == Some(JBool(true))
      && Get(row, "publishedAt") == Some(JConv(ToDate, JNum(now)))
      && Get(row, "authorId") == Get(users[AdminEmail], "id")
      && Get(row, "categoryId") == Get(categories[SeoSlug], "id")
      && (k == "future-of-seo-2024" ==> Get(row, "excerpt") == Some(JStr(SeoPostExcerpt)) &&
                                         Get(row, "seoTitle") == Some(JStr(SeoPostSeoTitle)))
      && (k == "ai-tools-content-creation" ==> Get(row, "excerpt") == Some(JStr(AiPostExcerpt)) &&
                                                Get(row, "seoTitle") == Some(JStr(AiPostSeoTitle)))
  {
    var a, c := Get(users[AdminEmail], "id"), Get(categories[SeoSlug], "id");
    var rows := PostRows(a, c, now);
    var row := WithPosts(posts, next, users, categories, now).0[k];
    var i :| 0 <= i < |rows| && rows[i].0 == k && row == rows[i].1["id" := row["id"]];
    if i == 0 {
      PostRowMembers("The Future of SEO in 2024", "future-of-seo-2024", SeoPostExcerpt, SeoPostImage, true,
                     SeoPostSeoTitle, SeoPostSeoDescription, SeoPostSeoKeywords, "8 min read", a, c, now, row["id"]);
    } else {
      assert i == 1;
      PostRowMembers("AI Tools for Content Creation", "ai-tools-content-creation", AiPostExcerpt, AiPostImage, false,
                     AiPostSeoTitle, AiPostSeoDescription, AiPostSeoKeywords, "6 min read", a, c, now, row["id"]);
    }
  }

  /** The settings row `default`, inserted only when absent. */
  function WithSettings(settings: Table): (r: Table)
    ensures r.Keys == settings.Keys + {SettingsId}
    ensures forall k :: k in settings ==> r[k] == settings[k]
    ensures SettingsId !in settings ==> r[SettingsId] == SettingsRow
  {
    if SettingsId in settings then settings else settings[SettingsId := SettingsRow]
  }

  const CategorySlugs := {"digital-marketing", "seo", "ai-technology", "content-marketing"}
  const TagSlugs := {"seo", "content", "ai", "marketing", "strategy", "analytics"}

  lemma SeedKeys()
    ensures Keys(CategoryRows) == CategorySlugs && Keys(TagRows) == TagSlugs
  {
    assert CategoryRows[0].0 == "digital-marketing" && CategoryRows[1].0 == "seo";
    assert CategoryRows[2].0 == "ai-technology" && CategoryRows[3].0 == "content-marketing";
    assert TagRows[0].0 == "seo" && TagRows[1].0 == "content" && TagRows[2].0 == "ai";
    assert TagRows[3].0 == "marketing" && TagRows[4].0 == "strategy" && TagRows[5].0 == "analytics";
  }

  /** The admin step on the whole store. */
  function AdminStep(s: Tables, hash: Fallible<string>): (r: Fallible<Tables>)
    ensures r.Threw? <==> AdminEmail !in s.users && hash.Threw?
    ensures r.Ok? ==> r.value.(users := s.users, nextId := s.nextId) == s
  {
    match WithAdmin(s.users, s.nextId, hash)
    case Threw => Threw
    case Ok((users, next)) => Ok(s.(users := users, nextId := next))
  }

  /** The four categories upserted in order. */
  function CategoriesStep(s: Tables): (r: Tables)
    ensures r.(categories := s.categories, nextId := s.nextId) == s
  {
    var (categories, next) := InsertAll(s.categories, s.nextId, CategoryRows);
    s.(categories := categories, nextId := next)
  }

  /** The six tags upserted in order. */
  function TagsStep(s: Tables): (r: Tables)
    ensures r.(tags := s.tags, nextId := s.nextId) == s
  {
    var (tags, next) := InsertAll(s.tags, s.nextId, TagRows);
    s.(tags := tags, nextId := next)
  }

  /** The sample posts, written against the stored admin and `seo` category. */
  function PostsStep(s: Tables, now: nat): (r: Tables)
    ensures r.(posts := s.posts, nextId := s.nextId) == s
  {
    var (posts, next) := WithPosts(s.posts, s.nextId, s.users, s.categories, now);
    s.(posts := posts, nextId := next)
  }

  /** The default settings row. */
  function SettingsStep(s: Tables): (r: Tables)
    ensures r.(settings := s.settings) == s
  {
    s.(settings := WithSettings(s.settings))
  }

  /** What one run of the seeder leaves in the store. */
  function Seeded(s: Tables, hash: Fallible<string>, now: nat): Fallible<Tables> {
    match AdminStep(s, hash)
    case Threw => Threw
    case Ok(t) => Ok(SettingsStep(PostsStep(TagsStep(CategoriesStep(t)), now)))
  }

  /** The run fails only when the admin must be created and hashing its password fails. */
  lemma SeededFailsOnlyOnHash(s: Tables, hash: Fallible<string>, now: nat)
    ensures Seeded(s, hash, now).Threw? <==> AdminEmail !in s.users && hash.Threw?
  {
  }

  /** After a successful run every table holds exactly what it held plus the seeded keys: the admin
      account, the four categories, the six tags, the two sample posts and the default settings. */
  lemma SeededContents(s: Tables, hash: Fallible<string>, now: nat)
    requires Seeded(s, hash, now).Ok?
    ensures var t := Seeded(s, hash, now).value;
      && t.users.Keys == s.users.Keys + {AdminEmail}
      && t.categories.Keys == s.categories.Keys + CategorySlugs
      && t.tags.Keys == s.tags.Keys + TagSlugs
      && t.posts.Keys == s.posts.Keys + PostSlugs
      && t.settings.Keys == s.settings.Keys + {SettingsId}
  {
    SeedKeys();
  }

  /** No existing row of any table is modified. */
  lemma SeededKeepsExistingRows(s: Tables, hash: Fallible<string>, now: nat)
    requires Seeded(s, hash, now).Ok?
    ensures var t := Seeded(s, hash, now).value;
      && (forall k :: k in s.users ==> t.users[k] == s.users[k])
      && (forall k :: k in s.categories ==> t.categories[k] == s.categories[k])
      && (forall k :: k in s.tags ==> t.tags[k] == s.tags[k])
      && (forall k :: k in s.posts ==> t.posts[k] == s.posts[k])
      && (forall k :: k in s.settings ==> t.settings[k] == s.settings[k])
  {
    SeededContents(s, hash, now);
  }

  /** Idempotence: running the seeder on what it left changes nothing, whatever the hash oracle
      and the clock do the second time. */
  lemma SeededIdempotent(s: Tables, hash: Fallible<string>, now: nat, hash2: Fallible<string>, later: nat)
    requires Seeded(s, hash, now).Ok?
    ensures Seeded(Seeded(s, hash, now).value, hash2, later) == Seeded(s, hash, now)
  {
    var t := Seeded(s, hash, now).value;
    SeededContents(s, hash, now);
    StepsFixed(t, hash2, later);
  }

  /** On a store that already holds every seeded key, each step changes nothing. */
  lemma StepsFixed(t: Tables, hash: Fallible<string>, now: nat)
    requires AdminEmail in t.users && CategorySlugs <= t.categories.Keys && TagSlugs <= t.tags.Keys
    requires PostSlugs <= t.posts.Keys && SettingsId in t.settings
    ensures AdminStep(t, hash) == Ok(t)
    ensures CategoriesStep(t) == t && TagsStep(t) == t && PostsStep(t, now) == t && SettingsStep(t) == t
  {
    SeedKeys();
  }

  /** The store the seeder writes to, updated in place. */
  class Database {
    var users: Table
    var categories: Table
    var tags: Table
    var posts: Table
    var settings: Table
    var nextId: nat

    constructor(s: Tables)
      ensures State() == s
    {
      users, categories, tags, posts, settings, nextId := s.users, s.categories, s.tags, s.posts, s.settings, s.nextId;
    }

    function State(): Tables
      reads this
    {
      Tables(users, categories, tags, posts, settings, nextId)
    }

    /** One upsert with a store-assigned id into the table `t`, returned updated. */
    method Upsert(t: Table, key: string, row: Body) returns (t': Table)
      modifies this
      ensures (t', nextId) == Insert(t, old(nextId), key, row)
      ensures users == old(users) && categories == old(categories) && tags == old(tags)
      ensures posts == old(posts) && settings == old(settings)
    {
      t' := t;
      if key !in t {
        t' := t[key := row["id" := JNum(nextId)]];
        nextId := nextId + 1;
      }
    }

    /** The `for...of` loop over `rows`, upserting each into `t` in turn. */
    method UpsertAll(t: Table, rows: seq<(string, Body)>) returns (t': Table)
      modifies this
      ensures (t', nextId) == InsertAll(t, old(nextId), rows)
      ensures users == old(users) && categories == old(categories) && tags == old(tags)
      ensures posts == old(posts) && settings == old(settings)
    {
      t' := t;
      for i := 0 to |rows|
        invariant (t', nextId) == InsertAll(t, old(nextId), rows[..i])
        invariant users == old(users) && categories == old(categories) && tags == old(tags)
        invariant posts == old(posts) && settings == old(settings)
      {
        InsertAllStep(t, old(nextId), rows, i);
        t' := Upsert(t', rows[i].0, rows[i].1);
      }
      assert rows[..|rows|] == rows;
    }

    /** The admin account: hashed and created only when no user has its email. */
    method SeedAdmin(bcrypt: Auth.Bcrypt) returns (r: Fallible<()>)
      modifies this
      ensures var step := AdminStep(old(State()), Auth.HashPassword(bcrypt, JStr(AdminPassword)));
        if step.Ok? then r == Ok(()) && State() == step.value else r.Threw? && State() == old(State())
    {
      if AdminEmail !in users {
        var hash := Auth.HashPassword(bcrypt, JStr(AdminPassword));
        if hash.Threw? {
          return Threw;
        }
        users := Upsert(users, AdminEmail, AdminRow(hash.value));
      }
      r := Ok(());
    }

    method SeedCategories()
      modifies this
      ensures State() == CategoriesStep(old(State()))
    {
      categories := UpsertAll(categories, CategoryRows);
    }

    method SeedTags()
      modifies this
      ensures State() == TagsStep(old(State()))
    {
      tags := UpsertAll(tags, TagRows);
    }

    /** The sample posts, only when the admin and the `seo` category are both stored. */
    method SeedPosts(now: nat)
      modifies this
      ensures State() == PostsStep(old(State()), now)
    {
      if AdminEmail in users && SeoSlug in categories {
        var rows := PostRows(Get(users[AdminEmail], "id"), Get(categories[SeoSlug], "id"), now);
        posts := UpsertAll(posts, rows);
      }
    }

    method SeedSettings()
      modifies this
      ensures State() == SettingsStep(old(State()))
    {
      if SettingsId !in settings {
        settings := settings[SettingsId := SettingsRow];
      }
    }

    /** `seedDatabase()`, with the password hash as an oracle and the clock as a parameter. */
    method SeedDatabase(bcrypt: Auth.Bcrypt, now: nat) returns (r: Fallible<()>)
      modifies this
      ensures var seeded := Seeded(old(State()), Auth.HashPassword(bcrypt, JStr(AdminPassword)), now);
        if seeded.Ok? then r == Ok(()) && State() == seeded.value else r.Threw? && State() == old(State())
    {
      r := SeedAdmin(bcrypt);
      if r.Threw? {
        return;
      }
      SeedCategories();
      SeedTags();
      SeedPosts(now);
      SeedSettings();
    }
  }

  /** Running the imperative seeder twice leaves the store as the first run left it. */
  method SeedTwice(db: Database, bcrypt: Auth.Bcrypt, now: nat, later: nat)
    modifies db
    ensures db.State() == (if Seeded(old(db.State()), Auth.HashPassword(bcrypt, JStr(AdminPassword)), now).Ok?
                           then Seeded(old(db.State()), Auth.HashPassword(bcrypt, JStr(AdminPassword)), now).value
                           else old(db.State()))
  {
    var first := db.SeedDatabase(bcrypt, now);
    if first.Ok? {
      SeededIdempotent(old(db.State()), Auth.HashPassword(bcrypt, JStr(AdminPassword)), now,
                       Auth.HashPassword(bcrypt, JStr(AdminPassword)), later);
    }
    var second := db.SeedDatabase(bcrypt, later);
  }
}
