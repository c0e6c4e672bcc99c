/**
 * The HTTP API (`registerRoutes`): each route parses its input, calls the
 * storage and answers with a status and a JSON body `{ success, ... }`.
 *
 * Every route is given twice: a pure function of the table it touches (what
 * the route answers and what the table becomes), and a method that runs the
 * route against a `DatabaseStorage` and is proved to agree with that function.
 */
module Routes {
  import opened Wrappers
  import opened Json
  import opened Schema
  import opened Queries
  import opened Storage

  /** What a successful answer carries next to `success: true`. */
  datatype Payload =
    | MessagePayload(message: ContactMessage)
    | MessagesPayload(messages: seq<ContactMessage>)
    | ProjectsPayload(projects: seq<Project>)
    | ProjectPayload(project: Project)
    | PostsPayload(posts: seq<BlogPost>)
    | PostPayload(post: BlogPost)
    | SettingsPayload(settings: map<string, string>)
    | SettingPayload(setting: SiteSetting)

  /** `{ success: true, ... }` or `{ success: false, error, details? }`. */
  datatype Body = Success(payload: Payload) | Failure(error: string, details: Option<seq<Issue>>)

  datatype Response = Response(status: int, body: Body)

  const ValidationFailed: string := "Validation failed"
  const InternalError: string := "Internal server error"
  const ProjectNotFound: string := "Project not found"
  const PostNotFound: string := "Blog post not found"

  function Ok200(p: Payload): Response { Response(200, Success(p)) }
  function Created(p: Payload): Response { Response(201, Success(p)) }
  function Rejected(issues: seq<Issue>): Response { Response(400, Failure(ValidationFailed, Some(issues))) }
  function NotFound(error: string): Response { Response(404, Failure(error, None)) }
  const ServerError: Response := Response(500, Failure(InternalError, None))

  /** A body's `success` flag agrees with the status, and only a 400 carries details. */
  predicate WellFormed(r: Response) {
    && r.status in {200, 201, 400, 404, 500}
    && (r.body.Success? <==> r.status in {200, 201})
    && (r.body.Failure? ==> (r.body.details.Some? <==> r.status == 400))
  }

  // ---------------------------------------------------------------------------
  // POST /api/contact
  // ---------------------------------------------------------------------------

  function ContactCreate(messages: seq<ContactMessage>, body: Json, id: string, now: int)
    : (out: (seq<ContactMessage>, Response))
    ensures WellFormed(out.1) && out.1.status in {201, 400, 500}
    ensures out.1.status == 400 <==> !(body.JObj? && ConformsAll(body.fields, ContactMessageShape))
    ensures out.1.status == 400 ==> out.1 == Rejected(BodyIssues(body, ContactMessageShape))
    ensures out.1.status == 500 <==>
      body.JObj? && ConformsAll(body.fields, ContactMessageShape) && Taken(messages, MessageId, id)
    ensures out.1.status == 500 ==> out.1 == ServerError
    ensures out.1.status != 201 ==> out.0 == messages
    ensures out.1.status == 201 ==>
      && out.0 == messages + [NewContactMessage(ParseContactMessage(body).value, id, now)]
      && out.1 == Created(MessagePayload(out.0[|messages|]))
  {
    match ParseContactMessage(body)
    case Err(issues) => (messages, Rejected(issues))
    case Ok(m) =>
      if FindBy(messages, MessageId, id).Some? then (messages, ServerError)
      else
        var row := NewContactMessage(m, id, now);
        assert (messages + [row])[..|messages|] == messages;
        (messages + [row], Created(MessagePayload(row)))
  }

  method PostContact(db: DatabaseStorage, body: Json, id: string, now: int) returns (res: Response)
    requires db.Valid()
    modifies db`contactMessages
    ensures db.Valid()
    ensures (db.contactMessages, res) == ContactCreate(old(db.contactMessages), body, id, now)
  {
    var parsed := ParseContactMessage(body);
    if parsed.Err? {
      return Rejected(parsed.error);
    }
    var stored := db.CreateContactMessage(parsed.value, id, now);
    if stored.Err? {
      return ServerError;
    }
    res := Created(MessagePayload(stored.value));
  }

  // ---------------------------------------------------------------------------
  // GET /api/contact, GET /api/projects
  // ---------------------------------------------------------------------------

  function ContactList(messages: seq<ContactMessage>): (r: Response)
    ensures r.status == 200 && r.body.Success? && r.body.payload.MessagesPayload?
    ensures NewestFirstOrder(r.body.payload.messages, MessageCreatedAt)
    ensures multiset(r.body.payload.messages) == multiset(messages)
  {
    Ok200(MessagesPayload(NewestFirst(messages, MessageCreatedAt)))
  }

  method GetContact(db: DatabaseStorage) returns (res: Response)
    ensures res == ContactList(db.contactMessages)
  {
    res := Ok200(MessagesPayload(db.GetContactMessages()));
  }

  function ProjectList(projects: seq<Project>): (r: Response)
    ensures r.status == 200 && r.body.Success? && r.body.payload.ProjectsPayload?
    ensures NewestFirstOrder(r.body.payload.projects, ProjectCreatedAt)
    ensures multiset(r.body.payload.projects) == multiset(projects)
  {
    Ok200(ProjectsPayload(NewestFirst(projects, ProjectCreatedAt)))
  }

  method GetProjects(db: DatabaseStorage) returns (res: Response)
    ensures res == ProjectList(db.projects)
  {
    res := Ok200(ProjectsPayload(db.GetProjects()));
  }

  /**
   * With a clock that moves forward, a message the API has just stored heads
   * the next `GET /api/contact` listing.
   */
  lemma NewMessageListedFirst(messages: seq<ContactMessage>, body: Json, id: string, now: int)
    requires forall i :: 0 <= i < |messages| ==> messages[i].createdAt < now
    ensures var (after, r) := ContactCreate(messages, body, id, now);
      r.status == 201 ==>
        |ContactList(after).body.payload.messages| > 0
        && ContactList(after).body.payload.messages[0] == r.body.payload.message
  {
    var (after, r) := ContactCreate(messages, body, id, now);
    if r.status == 201 {
      var row := after[|messages|];
      assert after == messages + [row];
      var list := ContactList(after).body.payload.messages;
      assert row in multiset(list);
      var k :| 0 <= k < |list| && list[k] == row;
      assert list[0].createdAt >= now;
      assert list[0] in multiset(after);
      assert list[0] in after;
    }
  }

  // ---------------------------------------------------------------------------
  // GET /api/projects/:id, POST /api/projects
  // ---------------------------------------------------------------------------

  function ProjectGet(projects: seq<Project>, id: string): (r: Response)
    ensures WellFormed(r) && r.status in {200, 404}
    ensures r.status == 404 <==> !Taken(projects, ProjectId, id)
    ensures r.status == 404 ==> r == NotFound(ProjectNotFound)
    ensures r.status == 200 ==>
      r.body.payload.ProjectPayload? && r.body.payload.project in projects && r.body.payload.project.id == id
  {
    match FindBy(projects, ProjectId, id)
    case None => NotFound(ProjectNotFound)
    case Some(p) => Ok200(ProjectPayload(p))
  }

  method GetProject(db: DatabaseStorage, id: string) returns (res: Response)
    ensures res == ProjectGet(db.projects, id)
  {
    var project := db.GetProject(id);
    if project.None? {
      return NotFound(ProjectNotFound);
    }
    res := Ok200(ProjectPayload(project.value));
  }

  function ProjectCreate(projects: seq<Project>, body: Json, id: string, now: int)
    : (out: (seq<Project>, Response))
    ensures WellFormed(out.1) && out.1.status in {201, 400, 500}
    ensures out.1.status == 400 <==> !(body.JObj? && ConformsAll(body.fields, ProjectShape))
    ensures out.1.status == 400 ==> out.1 == Rejected(BodyIssues(body, ProjectShape))
    ensures out.1.status == 500 <==>
      body.JObj? && ConformsAll(body.fields, ProjectShape) && Taken(projects, ProjectId, id)
    ensures out.1.status == 500 ==> out.1 == ServerError
    ensures out.1.status != 201 ==> out.0 == projects
    ensures out.1.status == 201 ==>
      && out.0 == projects + [NewProject(ParseProject(body).value, id, now)]
      && out.1 == Created(ProjectPayload(out.0[|projects|]))
  {
    match ParseProject(body)
    case Err(issues) => (projects, Rejected(issues))
    case Ok(p) =>
      if FindBy(projects, ProjectId, id).Some? then (projects, ServerError)
      else
        var row := NewProject(p, id, now);
        assert (projects + [row])[..|projects|] == projects;
        (projects + [row], Created(ProjectPayload(row)))
  }

  method PostProject(db: DatabaseStorage, body: Json, id: string, now: int) returns (res: Response)
    requires db.Valid()
    modifies db`projects
    ensures db.Valid()
    ensures (db.projects, res) == ProjectCreate(old(db.projects), body, id, now)
  {
    var parsed := ParseProject(body);
    if parsed.Err? {
      return Rejected(parsed.error);
    }
    var stored := db.CreateProject(parsed.value, id, now);
    if stored.Err? {
      return ServerError;
    }
    res := Created(ProjectPayload(stored.value));
  }

  /** A project the API has just created is what `GET /api/projects/:id` answers for its id. */
  lemma CreatedProjectIsFound(projects: seq<Project>, body: Json, id: string, now: int)
    ensures var (after, r) := ProjectCreate(projects, body, id, now);
      r.status == 201 ==> ProjectGet(after, id) == Ok200(r.body.payload)
  {
    var (after, r) := ProjectCreate(projects, body, id, now);
    if r.status == 201 {
      FindByAppend(projects, after[|projects|], ProjectId, id);
      assert after == projects + [after[|projects|]];
    }
  }

  // ---------------------------------------------------------------------------
  // GET /api/blog, GET /api/blog/:slug, POST /api/blog
  // ---------------------------------------------------------------------------

  /** `req.query.all !== "true"`: the query value is absent, a string, or a repeated/nested value. */
  function PublishedOnly(all: Option<Json>): (b: bool)
    ensures !b <==> all == Some(JStr("true"))
  {
    !(all.Some? && all.value == JStr("true"))
  }

  function BlogList(posts: seq<BlogPost>, all: Option<Json>): (r: Response)
    ensures r.status == 200 && r.body.Success? && r.body.payload.PostsPayload?
    ensures NewestFirstOrder(r.body.payload.posts, PostCreatedAt)
    ensures forall p :: p in r.body.payload.posts <==>
      p in posts && (all != Some(JStr("true")) ==> IsPublished(p))
    ensures all == Some(JStr("true")) ==> multiset(r.body.payload.posts) == multiset(posts)
    ensures all != Some(JStr("true")) ==> forall p ::
      multiset(r.body.payload.posts)[p] == if IsPublished(p) then multiset(posts)[p] else 0
  {
    Ok200(PostsPayload(BlogPostsQuery(posts, PublishedOnly(all))))
  }

  method GetBlog(db: DatabaseStorage, all: Option<Json>) returns (res: Response)
    ensures res == BlogList(db.blogPosts, all)
  {
    var publishedOnly := PublishedOnly(all);
    res := Ok200(PostsPayload(db.GetBlogPosts(publishedOnly)));
  }

  function BlogGet(posts: seq<BlogPost>, slug: string): (r: Response)
    ensures WellFormed(r) && r.status in {200, 404}
    ensures r.status == 404 <==> !Taken(posts, PostSlug, slug)
    ensures r.status == 404 ==> r == NotFound(PostNotFound)
    ensures r.status == 200 ==>
      r.body.payload.PostPayload? && r.body.payload.post in posts && r.body.payload.post.slug == slug
  {
    match FindBy(posts, PostSlug, slug)
    case None => NotFound(PostNotFound)
    case Some(p) => Ok200(PostPayload(p))
  }

  method GetBlogPost(db: DatabaseStorage, slug: string) returns (res: Response)
    ensures res == BlogGet(db.blogPosts, slug)
  {
    var post := db.GetBlogPostBySlug(slug);
    if post.None? {
      return NotFound(PostNotFound);
    }
    res := Ok200(PostPayload(post.value));
  }

  function BlogCreate(posts: seq<BlogPost>, body: Json, id: string, now: int)
    : (out: (seq<BlogPost>, Response))
    ensures WellFormed(out.1) && out.1.status in {201, 400, 500}
    ensures out.1.status == 400 <==> !(body.JObj? && ConformsAll(body.fields, BlogPostShape))
    ensures out.1.status == 400 ==> out.1 == Rejected(BodyIssues(body, BlogPostShape))
    ensures out.1.status == 500 <==>
      && body.JObj? && ConformsAll(body.fields, BlogPostShape)
      && (Taken(posts, PostId, id) || Taken(posts, PostSlug, ParseBlogPost(body).value.slug))
    ensures out.1.status == 500 ==> out.1 == ServerError
    ensures out.1.status != 201 ==> out.0 == posts
    ensures out.1.status == 201 ==>
      && out.0 == posts + [NewBlogPost(ParseBlogPost(body).value, id, now)]
      && out.1 == Created(PostPayload(out.0[|posts|]))
  {
    match ParseBlogPost(body)
    case Err(issues) => (posts, Rejected(issues))
    case Ok(p) =>
      if FindBy(posts, PostId, id).Some? || FindBy(posts, PostSlug, p.slug).Some? then (posts, ServerError)
      else
        var row := NewBlogPost(p, id, now);
        assert (posts + [row])[..|posts|] == posts;
        (posts + [row], Created(PostPayload(row)))
  }

  method PostBlog(db: DatabaseStorage, body: Json, id: string, now: int) returns (res: Response)
    requires db.Valid()
    modifies db`blogPosts
    ensures db.Valid()
    ensures (db.blogPosts, res) == BlogCreate(old(db.blogPosts), body, id, now)
  {
    var parsed := ParseBlogPost(body);
    if parsed.Err? {
      return Rejected(parsed.error);
    }
    var stored := db.CreateBlogPost(parsed.value, id, now);
    if stored.Err? {
      return ServerError;
    }
    res := Created(PostPayload(stored.value));
  }

  /** A post the API has just created is what `GET /api/blog/:slug` answers for its slug. */
  lemma CreatedPostIsFoundBySlug(posts: seq<BlogPost>, body: Json, id: string, now: int)
    ensures var (after, r) := BlogCreate(posts, body, id, now);
      r.status == 201 ==> BlogGet(after, after[|posts|].slug) == Ok200(r.body.payload)
  {
    var (after, r) := BlogCreate(posts, body, id, now);
    if r.status == 201 {
      FindByAppend(posts, after[|posts|], PostSlug, after[|posts|].slug);
      assert after == posts + [after[|posts|]];
    }
  }

  /**
   * A post created without `published` is a draft: the default listing leaves
   * it out and the listing with `?all=true` shows it.
   */
  lemma DraftListedOnlyWithAll(posts: seq<BlogPost>, body: Json, id: string, now: int)
    requires ParseBlogPost(body).Ok? && ParseBlogPost(body).value.published.Omitted?
    ensures var (after, r) := BlogCreate(posts, body, id, now);
      r.status == 201 ==>
        && r.body.payload.post !in BlogList(after, None).body.payload.posts
        && r.body.payload.post in BlogList(after, Some(JStr("true"))).body.payload.posts
  {
    var (after, r) := BlogCreate(posts, body, id, now);
    if r.status == 201 {
      assert after[|posts|] in after;
    }
  }

  // ---------------------------------------------------------------------------
  // GET /api/settings, POST /api/settings
  // ---------------------------------------------------------------------------

  /**
   * The object built by assigning `map[key] = value` for each setting in
   * order: a key seen twice keeps the value of its last row.
   */
  function SettingsMap(settings: seq<SiteSetting>): (m: map<string, string>)
    ensures forall k :: k in m <==> exists i :: 0 <= i < |settings| && settings[i].key == k
  {
    if settings == [] then map[]
    else
      var last := settings[|settings| - 1];
      var m := SettingsMap(settings[..|settings| - 1]);
      assert forall i :: 0 <= i < |settings| - 1 ==> settings[..|settings| - 1][i] == settings[i];
      m[last.key := last.value]
  }

  /** Every key maps to the value of its last row in the list. */
  lemma {:induction false} SettingsMapLastWins(settings: seq<SiteSetting>, i: nat)
    requires i < |settings|
    requires forall j :: i < j < |settings| ==> settings[j].key != settings[i].key
    ensures settings[i].key in SettingsMap(settings)
    ensures SettingsMap(settings)[settings[i].key] == settings[i].value
  {
    if i < |settings| - 1 {
      var init := settings[..|settings| - 1];
      assert init[i] == settings[i];
      SettingsMapLastWins(init, i);
    }
  }

  /** With unique keys (as the table keeps them), the object holds every row's value under its key. */
  lemma SettingsMapOfUniqueKeys(settings: seq<SiteSetting>, i: nat)
    requires Unique(settings, SettingKey) && i < |settings|
    ensures SettingsMap(settings)[settings[i].key] == settings[i].value
  {
    SettingsMapLastWins(settings, i);
  }

  /**
   * The object as the route builds it in JavaScript: `settingsMap` is a plain
   * object literal, so assigning to the key `"__proto__"` invokes the
   * prototype setter, which ignores a string; that key never appears.
   */
  function SettingsMapAsWritten(settings: seq<SiteSetting>): (m: map<string, string>)
    ensures forall k :: k in m <==> k != ProtoKey && exists i :: 0 <= i < |settings| && settings[i].key == k
  {
    if settings == [] then map[]
    else
      var last := settings[|settings| - 1];
      var m := SettingsMapAsWritten(settings[..|settings| - 1]);
      assert forall i :: 0 <= i < |settings| - 1 ==> settings[..|settings| - 1][i] == settings[i];
      if last.key == ProtoKey then m else m[last.key := last.value]
  }

  const ProtoKey: string := "__proto__"

  /** The as-written object loses a setting the table holds and the POST route accepted. */
  lemma SettingsMapAsWrittenLosesProto()
    ensures var settings := [SiteSetting("1", ProtoKey, "x")];
      && Unique(settings, SettingKey)
      && ProtoKey !in SettingsMapAsWritten(settings)
      && SettingsMap(settings) == map[ProtoKey := "x"]
  {
  }

  /** The two objects differ only when a setting uses the key `"__proto__"`. */
  lemma {:induction false} SettingsMapAsWrittenAgrees(settings: seq<SiteSetting>)
    requires forall i :: 0 <= i < |settings| ==> settings[i].key != ProtoKey
    ensures SettingsMapAsWritten(settings) == SettingsMap(settings)
  {
    if settings != [] {
      var init := settings[..|settings| - 1];
      assert forall i :: 0 <= i < |init| ==> init[i] == settings[i];
      SettingsMapAsWrittenAgrees(init);
    }
  }

  function SettingsGet(settings: seq<SiteSetting>): (r: Response)
    ensures r.status == 200 && r.body.Success? && r.body.payload.SettingsPayload?
    ensures forall k :: k in r.body.payload.settings <==> Taken(settings, SettingKey, k)
  {
    Ok200(SettingsPayload(SettingsMap(settings)))
  }

  /** The route's `forEach` loop over the settings list. */
  method GetSettings(db: DatabaseStorage) returns (res: Response)
    ensures res == SettingsGet(db.siteSettings)
  {
    var settings := db.GetSettings();
    var settingsMap: map<string, string> := map[];
    var i := 0;
    while i < |settings|
      invariant 0 <= i <= |settings|
      invariant settingsMap == SettingsMap(settings[..i])
    {
      assert settings[..i + 1][..i] == settings[..i];
      settingsMap := settingsMap[settings[i].key := settings[i].value];
      i := i + 1;
    }
    assert settings[..i] == settings;
    res := Ok200(SettingsPayload(settingsMap));
  }

  function SettingsSet(settings: seq<SiteSetting>, body: Json, id: string): (out: (seq<SiteSetting>, Response))
    ensures WellFormed(out.1) && out.1.status in {201, 400, 500}
    ensures out.1.status == 400 <==> !(body.JObj? && ConformsAll(body.fields, SiteSettingShape))
    ensures out.1.status == 400 ==> out == (settings, Rejected(BodyIssues(body, SiteSettingShape)))
    ensures out.1.status == 500 ==> out == (settings, ServerError)
    ensures out.1.status == 500 <==>
      && body.JObj? && ConformsAll(body.fields, SiteSettingShape)
      && !Taken(settings, SettingKey, ParseSiteSetting(body).value.key) && Taken(settings, SettingId, id)
    ensures out.1.status == 201 ==>
      && out.0 == Upsert(settings, ParseSiteSetting(body).value, id).0
      && out.1.body.payload.SettingPayload?
      && out.1.body.payload.setting.key == ParseSiteSetting(body).value.key
      && out.1.body.payload.setting.value == ParseSiteSetting(body).value.value
      && FindBy(out.0, SettingKey, out.1.body.payload.setting.key) == Some(out.1.body.payload.setting)
  {
    match ParseSiteSetting(body)
    case Err(issues) => (settings, Rejected(issues))
    case Ok(s) =>
      UpsertReadBack(settings, s, id);
      var (after, stored) := Upsert(settings, s, id);
      if stored.Err? then (settings, ServerError) else (after, Created(SettingPayload(stored.value)))
  }

  method PostSettings(db: DatabaseStorage, body: Json, id: string) returns (res: Response)
    requires db.Valid()
    modifies db`siteSettings
    ensures db.Valid()
    ensures (db.siteSettings, res) == SettingsSet(old(db.siteSettings), body, id)
  {
    var parsed := ParseSiteSetting(body);
    if parsed.Err? {
      return Rejected(parsed.error);
    }
    var stored := db.SetSetting(parsed.value, id);
    if stored.Err? {
      return ServerError;
    }
    res := Created(SettingPayload(stored.value));
  }

  /**
   * A setting the POST route accepted is what the GET route answers for its
   * key, and every other key keeps its value.
   */
  lemma SettingSetThenGet(settings: seq<SiteSetting>, body: Json, id: string, k: string)
    requires Unique(settings, SettingId) && Unique(settings, SettingKey)
    ensures var (after, r) := SettingsSet(settings, body, id);
      r.status == 201 ==>
        var s := ParseSiteSetting(body).value;
        && SettingsGet(after).body.payload.settings[s.key] == s.value
        && (k != s.key && k in SettingsGet(settings).body.payload.settings ==>
              SettingsGet(after).body.payload.settings[k] == SettingsGet(settings).body.payload.settings[k])
  {
    var (after, r) := SettingsSet(settings, body, id);
    if r.status == 201 {
      var s := ParseSiteSetting(body).value;
      UpsertKeepsUnique(settings, s, id);
      UpsertReadBack(settings, s, id);
      var row := FindBy(after, SettingKey, s.key).value;
      var i :| 0 <= i < |after| && after[i] == row;
      SettingsMapOfUniqueKeys(after, i);
      if k != s.key && k in SettingsMap(settings) {
        UpsertOtherKeysUnchanged(settings, s, id, k);
        var old_row := FindBy(settings, SettingKey, k).value;
        var j :| 0 <= j < |settings| && settings[j] == old_row;
        SettingsMapOfUniqueKeys(settings, j);
        var j' :| 0 <= j' < |after| && after[j'] == old_row;
        SettingsMapOfUniqueKeys(after, j');
      }
    }
  }
}
