/**
 * `DatabaseStorage`: the five tables held as sequences of rows in insertion
 * order, the read queries over them, and the writes. Every write is one
 * INSERT (or, for an existing setting key, one UPDATE); the database's unique
 * constraints (every `id`, `users.username`, `blog_posts.slug`,
 * `site_settings.key`) make a colliding INSERT fail and leave the table as it
 * was. Generated ids and `defaultNow()` timestamps are handed in by the caller
 * as `id` and `now`.
 */
module Storage {
  import opened Wrappers
  import opened Schema
  import opened Queries

  /** The database refused an insert: the value of `column` is already taken. */
  datatype DbError = UniqueViolation(column: string)

  /** `update(siteSettings).set({ value: v }).where(eq(siteSettings.key, k))`. */
  function SetValueWhereKey(rows: seq<SiteSetting>, k: string, v: string): (r: seq<SiteSetting>)
    ensures |r| == |rows|
    ensures forall i :: 0 <= i < |rows| ==>
      r[i] == if rows[i].key == k then rows[i].(value := v) else rows[i]
  {
    seq(|rows|, i requires 0 <= i < |rows| => if rows[i].key == k then rows[i].(value := v) else rows[i])
  }

  /**
   * `setSetting` on the table `rows`: look the key up; if a row has it, update
   * that row's value and return the updated row; otherwise insert a new row
   * (which fails only if the generated id collides). The new table and the result.
   */
  function Upsert(rows: seq<SiteSetting>, s: InsertSiteSetting, id: string)
    : (out: (seq<SiteSetting>, Result<SiteSetting, DbError>))
    ensures out.1.Err? <==> !Taken(rows, SettingKey, s.key) && Taken(rows, SettingId, id)
    ensures out.1.Err? ==> out.0 == rows
    ensures out.1.Ok? ==> out.1.value.key == s.key && out.1.value.value == s.value
  {
    match FindBy(rows, SettingKey, s.key)
    case Some(existing) => (SetValueWhereKey(rows, s.key, s.value), Ok(existing.(value := s.value)))
    case None =>
      if FindBy(rows, SettingId, id).Some? then (rows, Err(UniqueViolation("id")))
      else (rows + [NewSiteSetting(s, id)], Ok(NewSiteSetting(s, id)))
  }

  /** On a key already present, the upsert adds no row and changes only the value of the rows with that key. */
  lemma UpsertExistingKey(rows: seq<SiteSetting>, s: InsertSiteSetting, id: string)
    requires Taken(rows, SettingKey, s.key)
    ensures var (after, r) := Upsert(rows, s, id);
      && |after| == |rows|
      && (forall i :: 0 <= i < |rows| ==> after[i].id == rows[i].id && after[i].key == rows[i].key)
      && (forall i :: 0 <= i < |rows| && rows[i].key != s.key ==> after[i] == rows[i])
      && (forall i :: 0 <= i < |rows| && rows[i].key == s.key ==> after[i].value == s.value)
      && r.Ok? && r.value.key == s.key && r.value.value == s.value
      && exists i :: 0 <= i < |rows| && rows[i].key == s.key && r.value == after[i]
  {
    var existing := FindBy(rows, SettingKey, s.key).value;
    var i :| 0 <= i < |rows| && rows[i] == existing && rows[i].key == s.key &&
             forall j :: 0 <= j < i ==> rows[j].key != s.key;
    assert Upsert(rows, s, id).0[i] == existing.(value := s.value);
  }

  /** On an absent key, the upsert inserts exactly one row holding the key and value. */
  lemma UpsertAbsentKey(rows: seq<SiteSetting>, s: InsertSiteSetting, id: string)
    requires !Taken(rows, SettingKey, s.key)
    ensures !Taken(rows, SettingId, id) ==>
      Upsert(rows, s, id) == (rows + [SiteSetting(id, s.key, s.value)], Ok(SiteSetting(id, s.key, s.value)))
    ensures Taken(rows, SettingId, id) ==> Upsert(rows, s, id) == (rows, Err(UniqueViolation("id")))
  {
  }

  /** The lookup by key after a successful upsert finds the written value. */
  lemma UpsertReadBack(rows: seq<SiteSetting>, s: InsertSiteSetting, id: string)
    ensures var (after, r) := Upsert(rows, s, id);
      r.Ok? ==> FindBy(after, SettingKey, s.key) == Some(r.value) && r.value.value == s.value
  {
    match FindBy(rows, SettingKey, s.key)
    case Some(existing) =>
      FindByUpdatedKey(rows, s.key, s.key, s.value);
    case None =>
      if FindBy(rows, SettingId, id).None? {
        FindByAppend(rows, NewSiteSetting(s, id), SettingKey, s.key);
      }
  }

  /** The upsert leaves the lookup of every other key as it was. */
  lemma UpsertOtherKeysUnchanged(rows: seq<SiteSetting>, s: InsertSiteSetting, id: string, k: string)
    requires k != s.key
    ensures FindBy(Upsert(rows, s, id).0, SettingKey, k) == FindBy(rows, SettingKey, k)
  {
    match FindBy(rows, SettingKey, s.key)
    case Some(existing) =>
      FindByUpdatedKey(rows, s.key, k, s.value);
    case None =>
      if FindBy(rows, SettingId, id).None? {
        FindByAppend(rows, NewSiteSetting(s, id), SettingKey, k);
      }
  }

  /** The lookup of `k` after setting the value of key `w`: the same row, updated when `k == w`. */
  lemma {:induction false} FindByUpdatedKey(rows: seq<SiteSetting>, w: string, k: string, v: string)
    ensures FindBy(SetValueWhereKey(rows, w, v), SettingKey, k) ==
      match FindBy(rows, SettingKey, k)
      case None => None
      case Some(row) => Some(if k == w then row.(value := v) else row)
  {
    if rows != [] {
      assert SetValueWhereKey(rows, w, v)[1..] == SetValueWhereKey(rows[1..], w, v);
      FindByUpdatedKey(rows[1..], w, k, v);
    }
  }

  /** The upsert keeps both the ids and the keys of the settings table unique. */
  lemma UpsertKeepsUnique(rows: seq<SiteSetting>, s: InsertSiteSetting, id: string)
    requires Unique(rows, SettingId) && Unique(rows, SettingKey)
    ensures Unique(Upsert(rows, s, id).0, SettingId) && Unique(Upsert(rows, s, id).0, SettingKey)
  {
    var after := Upsert(rows, s, id).0;
    if FindBy(rows, SettingKey, s.key).Some? {
      assert forall i :: 0 <= i < |rows| ==> after[i].id == rows[i].id && after[i].key == rows[i].key;
    } else if FindBy(rows, SettingId, id).None? {
      UniqueAppend(rows, NewSiteSetting(s, id), SettingId);
      UniqueAppend(rows, NewSiteSetting(s, id), SettingKey);
    }
  }

  /**
   * Two writes to one key: the second never fails, the table keeps one row for
   * the key, and that row holds the last value written.
   */
  lemma UpsertLastWriteWins(rows: seq<SiteSetting>, k: string, v1: string, v2: string, id1: string, id2: string)
    requires Unique(rows, SettingId) && Unique(rows, SettingKey)
    requires Upsert(rows, InsertSiteSetting(k, v1), id1).1.Ok?
    ensures var once := Upsert(rows, InsertSiteSetting(k, v1), id1).0;
      var (twice, r) := Upsert(once, InsertSiteSetting(k, v2), id2);
      && r.Ok? && r.value.value == v2
      && FindBy(twice, SettingKey, k) == Some(r.value)
      && Unique(twice, SettingKey)
  {
    var once := Upsert(rows, InsertSiteSetting(k, v1), id1).0;
    UpsertReadBack(rows, InsertSiteSetting(k, v1), id1);
    UpsertKeepsUnique(rows, InsertSiteSetting(k, v1), id1);
    UpsertReadBack(once, InsertSiteSetting(k, v2), id2);
    UpsertKeepsUnique(once, InsertSiteSetting(k, v2), id2);
  }

  /** `getBlogPosts(publishedOnly)`: the published posts (or all of them), newest first. */
  function BlogPostsQuery(posts: seq<BlogPost>, publishedOnly: bool): (r: seq<BlogPost>)
    ensures NewestFirstOrder(r, PostCreatedAt)
    ensures forall p :: p in r <==> p in posts && (publishedOnly ==> IsPublished(p))
    ensures !publishedOnly ==> multiset(r) == multiset(posts)
    ensures publishedOnly ==>
      forall p :: multiset(r)[p] == if IsPublished(p) then multiset(posts)[p] else 0
  {
    var chosen := if publishedOnly then Where(posts, IsPublished) else posts;
    var r := NewestFirst(chosen, PostCreatedAt);
    assert forall p :: p in r <==> p in multiset(r);
    r
  }

  class DatabaseStorage {
    var users: seq<User>
    var contactMessages: seq<ContactMessage>
    var projects: seq<Project>
    var blogPosts: seq<BlogPost>
    var siteSettings: seq<SiteSetting>

    /** The tables' primary keys and unique columns hold. */
    ghost predicate Valid()
      reads this
    {
      && Unique(users, UserId) && Unique(users, Username)
      && Unique(contactMessages, MessageId)
      && Unique(projects, ProjectId)
      && Unique(blogPosts, PostId) && Unique(blogPosts, PostSlug)
      && Unique(siteSettings, SettingId) && Unique(siteSettings, SettingKey)
    }

    constructor ()
      ensures Valid()
      ensures users == [] && contactMessages == [] && projects == [] && blogPosts == []
      ensures siteSettings == []
    {
      users, contactMessages, projects, blogPosts, siteSettings := [], [], [], [], [];
    }

    // Lookups: the first row with the value, or nothing.

    function GetUser(id: string): (r: Option<User>)
      reads this
      ensures r.None? <==> !Taken(users, UserId, id)
      ensures r.Some? ==> r.value in users && r.value.id == id
    {
      FindBy(users, UserId, id)
    }

    function GetUserByUsername(username: string): (r: Option<User>)
      reads this
      ensures r.None? <==> !Taken(users, Username, username)
      ensures r.Some? ==> r.value in users && r.value.username == username
    {
      FindBy(users, Username, username)
    }

    function GetProject(id: string): (r: Option<Project>)
      reads this
      ensures r.None? <==> !Taken(projects, ProjectId, id)
      ensures r.Some? ==> r.value in projects && r.value.id == id
    {
      FindBy(projects, ProjectId, id)
    }

    function GetBlogPost(id: string): (r: Option<BlogPost>)
      reads this
      ensures r.None? <==> !Taken(blogPosts, PostId, id)
      ensures r.Some? ==> r.value in blogPosts && r.value.id == id
    {
      FindBy(blogPosts, PostId, id)
    }

    function GetBlogPostBySlug(slug: string): (r: Option<BlogPost>)
      reads this
      ensures r.None? <==> !Taken(blogPosts, PostSlug, slug)
      ensures r.Some? ==> r.value in blogPosts && r.value.slug == slug
    {
      FindBy(blogPosts, PostSlug, slug)
    }

    function GetSetting(key: string): (r: Option<SiteSetting>)
      reads this
      ensures r.None? <==> !Taken(siteSettings, SettingKey, key)
      ensures r.Some? ==> r.value in siteSettings && r.value.key == key
    {
      FindBy(siteSettings, SettingKey, key)
    }

    // Lists.

    function GetContactMessages(): (r: seq<ContactMessage>)
      reads this
      ensures NewestFirstOrder(r, MessageCreatedAt) && multiset(r) == multiset(contactMessages)
    {
      NewestFirst(contactMessages, MessageCreatedAt)
    }

    function GetProjects(): (r: seq<Project>)
      reads this
      ensures NewestFirstOrder(r, ProjectCreatedAt) && multiset(r) == multiset(projects)
    {
      NewestFirst(projects, ProjectCreatedAt)
    }

    function GetBlogPosts(publishedOnly: bool): (r: seq<BlogPost>)
      reads this
      ensures NewestFirstOrder(r, PostCreatedAt)
      ensures forall p :: p in r <==> p in blogPosts && (publishedOnly ==> IsPublished(p))
      ensures !publishedOnly ==> multiset(r) == multiset(blogPosts)
      ensures publishedOnly ==>
        forall p :: multiset(r)[p] == if IsPublished(p) then multiset(blogPosts)[p] else 0
    {
      BlogPostsQuery(blogPosts, publishedOnly)
    }

    /** All settings, in table order (the query has no ORDER BY). */
    function GetSettings(): (r: seq<SiteSetting>)
      reads this
      ensures multiset(r) == multiset(siteSettings)
    {
      siteSettings
    }

    // Writes.

    method CreateUser(u: InsertUser, id: string) returns (r: Result<User, DbError>)
      requires Valid()
      modifies this`users
      ensures Valid()
      ensures Taken(old(users), UserId, id) ==> r == Err(UniqueViolation("id"))
      ensures !Taken(old(users), UserId, id) && Taken(old(users), Username, u.username) ==>
        r == Err(UniqueViolation("username"))
      ensures r.Ok? <==> !Taken(old(users), UserId, id) && !Taken(old(users), Username, u.username)
      ensures r.Ok? ==> r.value == NewUser(u, id) && users == old(users) + [r.value]
      ensures r.Err? ==> users == old(users)
    {
      if FindBy(users, UserId, id).Some? {
        r := Err(UniqueViolation("id"));
      } else if FindBy(users, Username, u.username).Some? {
        r := Err(UniqueViolation("username"));
      } else {
        var row := NewUser(u, id);
        UniqueAppend(users, row, UserId);
        UniqueAppend(users, row, Username);
        users := users + [row];
        r := Ok(row);
      }
    }

    method CreateContactMessage(m: InsertContactMessage, id: string, now: int)
      returns (r: Result<ContactMessage, DbError>)
      requires Valid()
      modifies this`contactMessages
      ensures Valid()
      ensures r.Ok? <==> !Taken(old(contactMessages), MessageId, id)
      ensures r.Ok? ==>
        r.value == NewContactMessage(m, id, now) && contactMessages == old(contactMessages) + [r.value]
      ensures r.Err? ==> r == Err(UniqueViolation("id")) && contactMessages == old(contactMessages)
    {
      if FindBy(contactMessages, MessageId, id).Some? {
        r := Err(UniqueViolation("id"));
      } else {
        var row := NewContactMessage(m, id, now);
        UniqueAppend(contactMessages, row, MessageId);
        contactMessages := contactMessages + [row];
        r := Ok(row);
      }
    }

    method CreateProject(p: InsertProject, id: string, now: int) returns (r: Result<Project, DbError>)
      requires Valid()
      modifies this`projects
      ensures Valid()
      ensures r.Ok? <==> !Taken(old(projects), ProjectId, id)
      ensures r.Ok? ==> r.value == NewProject(p, id, now) && projects == old(projects) + [r.value]
      ensures r.Err? ==> r == Err(UniqueViolation("id")) && projects == old(projects)
    {
      if FindBy(projects, ProjectId, id).Some? {
        r := Err(UniqueViolation("id"));
      } else {
        var row := NewProject(p, id, now);
        UniqueAppend(projects, row, ProjectId);
        projects := projects + [row];
        r := Ok(row);
      }
    }

    method CreateBlogPost(p: InsertBlogPost, id: string, now: int) returns (r: Result<BlogPost, DbError>)
      requires Valid()
      modifies this`blogPosts
      ensures Valid()
      ensures Taken(old(blogPosts), PostId, id) ==> r == Err(UniqueViolation("id"))
      ensures !Taken(old(blogPosts), PostId, id) && Taken(old(blogPosts), PostSlug, p.slug) ==>
        r == Err(UniqueViolation("slug"))
      ensures r.Ok? <==> !Taken(old(blogPosts), PostId, id) && !Taken(old(blogPosts), PostSlug, p.slug)
      ensures r.Ok? ==> r.value == NewBlogPost(p, id, now) && blogPosts == old(blogPosts) + [r.value]
      ensures r.Err? ==> blogPosts == old(blogPosts)
    {
      if FindBy(blogPosts, PostId, id).Some? {
        r := Err(UniqueViolation("id"));
      } else if FindBy(blogPosts, PostSlug, p.slug).Some? {
        r := Err(UniqueViolation("slug"));
      } else {
        var row := NewBlogPost(p, id, now);
        UniqueAppend(blogPosts, row, PostId);
        UniqueAppend(blogPosts, row, PostSlug);
        blogPosts := blogPosts + [row];
        r := Ok(row);
      }
    }

    /** Read, then update the existing row in place or insert a new one. */
    method SetSetting(s: InsertSiteSetting, id: string) returns (r: Result<SiteSetting, DbError>)
      requires Valid()
      modifies this`siteSettings
      ensures Valid()
      ensures (siteSettings, r) == Upsert(old(siteSettings), s, id)
    {
      UpsertKeepsUnique(siteSettings, s, id);
      var existing := GetSetting(s.key);
      if existing.Some? {
        siteSettings := SetValueWhereKey(siteSettings, s.key, s.value);
        r := Ok(existing.value.(value := s.value));
      } else if FindBy(siteSettings, SettingId, id).Some? {
        r := Err(UniqueViolation("id"));
      } else {
        var row := NewSiteSetting(s, id);
        siteSettings := siteSettings + [row];
        r := Ok(row);
      }
    }
  }
}
