/**
 * The five tables of the site (users, contact messages, projects, blog posts,
 * site settings), the insert shapes picked from them, the column defaults the
 * database applies on insert, and the validation a request body goes through
 * before it reaches storage.
 *
 * Row fields follow the table columns one for one. A nullable column is an
 * `Option` (None is SQL NULL); `technologies` is a text array; timestamps are
 * integers (milliseconds). Ids are the strings the database generates; here
 * they are handed in by the caller (see the Storage module).
 */
module Schema {
  import opened Wrappers
  import opened Json

  // ---------------------------------------------------------------------------
  // Rows
  // ---------------------------------------------------------------------------

  datatype User = User(id: string, username: string, password: string)

  datatype ContactMessage = ContactMessage(
    id: string, name: string, email: string, message: string, createdAt: int)

  datatype Project = Project(
    id: string, title: string, titleHe: string, description: string, descriptionHe: string,
    technologies: seq<string>, imageUrl: Option<string>, githubUrl: Option<string>,
    liveUrl: Option<string>, featured: Option<string>, createdAt: int)

  datatype BlogPost = BlogPost(
    id: string, title: string, titleHe: string, slug: string, excerpt: string, excerptHe: string,
    content: string, contentHe: string, coverImageUrl: Option<string>, published: Option<string>,
    createdAt: int)

  datatype SiteSetting = SiteSetting(id: string, key: string, value: string)

  // Columns used as lookup keys and sort keys.
  function UserId(u: User): string { u.id }
  function Username(u: User): string { u.username }
  function MessageId(m: ContactMessage): string { m.id }
  function MessageCreatedAt(m: ContactMessage): int { m.createdAt }
  function ProjectId(p: Project): string { p.id }
  function ProjectCreatedAt(p: Project): int { p.createdAt }
  function PostId(p: BlogPost): string { p.id }
  function PostSlug(p: BlogPost): string { p.slug }
  function PostCreatedAt(p: BlogPost): int { p.createdAt }
  function SettingId(s: SiteSetting): string { s.id }
  function SettingKey(s: SiteSetting): string { s.key }

  /** `eq(blogPosts.published, "true")`; a NULL column never equals anything. */
  predicate IsPublished(p: BlogPost) { p.published == Some("true") }

  // ---------------------------------------------------------------------------
  // Insert shapes: only the picked fields, so neither `id` nor `createdAt` can
  // be supplied by a caller.
  // ---------------------------------------------------------------------------

  /** A picked field of a nullable column: left out of the body, an explicit null, or a value. */
  datatype Nullish<+T> = Omitted | Null | Given(value: T)

  datatype InsertUser = InsertUser(username: string, password: string)

  datatype InsertContactMessage = InsertContactMessage(name: string, email: string, message: string)

  datatype InsertProject = InsertProject(
    title: string, titleHe: string, description: string, descriptionHe: string,
    technologies: seq<string>, imageUrl: Nullish<string>, githubUrl: Nullish<string>,
    liveUrl: Nullish<string>, featured: Nullish<string>)

  datatype InsertBlogPost = InsertBlogPost(
    title: string, titleHe: string, slug: string, excerpt: string, excerptHe: string,
    content: string, contentHe: string, coverImageUrl: Nullish<string>, published: Nullish<string>)

  datatype InsertSiteSetting = InsertSiteSetting(key: string, value: string)

  // ---------------------------------------------------------------------------
  // Rows as the database stores them: generated id, `defaultNow()` timestamp,
  // column defaults for omitted fields.
  // ---------------------------------------------------------------------------

  /** The default of `featured` and `published`. */
  const FalseText: string := "false"

  /** What a nullable column holds after an insert that carried `f`. */
  function ColumnValue(f: Nullish<string>, columnDefault: Option<string>): (v: Option<string>)
    ensures f.Omitted? ==> v == columnDefault
    ensures f.Null? ==> v == None
    ensures f.Given? ==> v == Some(f.value)
  {
    match f
    case Omitted => columnDefault
    case Null => None
    case Given(s) => Some(s)
  }

  function NewUser(u: InsertUser, id: string): (r: User)
    ensures r.id == id && r.username == u.username && r.password == u.password
  {
    User(id, u.username, u.password)
  }

  function NewContactMessage(m: InsertContactMessage, id: string, now: int): (r: ContactMessage)
    ensures r.id == id && r.createdAt == now
    ensures r.name == m.name && r.email == m.email && r.message == m.message
  {
    ContactMessage(id, m.name, m.email, m.message, now)
  }

  function NewProject(p: InsertProject, id: string, now: int): (r: Project)
    ensures r.id == id && r.createdAt == now
    ensures r.title == p.title && r.titleHe == p.titleHe
    ensures r.description == p.description && r.descriptionHe == p.descriptionHe
    ensures r.technologies == p.technologies
    ensures r.imageUrl == ColumnValue(p.imageUrl, None) && r.githubUrl == ColumnValue(p.githubUrl, None)
    ensures r.liveUrl == ColumnValue(p.liveUrl, None)
    ensures r.featured == ColumnValue(p.featured, Some(FalseText))
    ensures p.featured.Omitted? ==> r.featured == Some(FalseText)
  {
    Project(id, p.title, p.titleHe, p.description, p.descriptionHe, p.technologies,
            ColumnValue(p.imageUrl, None), ColumnValue(p.githubUrl, None),
            ColumnValue(p.liveUrl, None), ColumnValue(p.featured, Some(FalseText)), now)
  }

  function NewBlogPost(p: InsertBlogPost, id: string, now: int): (r: BlogPost)
    ensures r.id == id && r.createdAt == now && r.slug == p.slug
    ensures r.title == p.title && r.titleHe == p.titleHe
    ensures r.excerpt == p.excerpt && r.excerptHe == p.excerptHe
    ensures r.content == p.content && r.contentHe == p.contentHe
    ensures r.coverImageUrl == ColumnValue(p.coverImageUrl, None)
    ensures r.published == ColumnValue(p.published, Some(FalseText))
    ensures p.published.Omitted? ==> r.published == Some(FalseText) && !IsPublished(r)
    ensures IsPublished(r) <==> p.published == Given("true")
  {
    BlogPost(id, p.title, p.titleHe, p.slug, p.excerpt, p.excerptHe, p.content, p.contentHe,
             ColumnValue(p.coverImageUrl, None), ColumnValue(p.published, Some(FalseText)), now)
  }

  function NewSiteSetting(s: InsertSiteSetting, id: string): (r: SiteSetting)
    ensures r.id == id && r.key == s.key && r.value == s.value
  {
    SiteSetting(id, s.key, s.value)
  }

  // ---------------------------------------------------------------------------
  // Validation: `insert*Schema.parse(body)`. Each picked field is a required
  // string, a required array of strings, or an optional nullable string. Keys
  // of the body outside the pick are dropped. There is no length or format rule.
  // ---------------------------------------------------------------------------

  datatype FieldKind = Text | NullableText | TextArray

  datatype Field = Field(name: string, kind: FieldKind)

  type Shape = seq<Field>

  const UsernameField := Field("username", Text)
  const PasswordField := Field("password", Text)
  const NameField := Field("name", Text)
  const EmailField := Field("email", Text)
  const MessageField := Field("message", Text)
  const TitleField := Field("title", Text)
  const TitleHeField := Field("titleHe", Text)
  const DescriptionField := Field("description", Text)
  const DescriptionHeField := Field("descriptionHe", Text)
  const TechnologiesField := Field("technologies", TextArray)
  const ImageUrlField := Field("imageUrl", NullableText)
  const GithubUrlField := Field("githubUrl", NullableText)
  const LiveUrlField := Field("liveUrl", NullableText)
  const FeaturedField := Field("featured", NullableText)
  const SlugField := Field("slug", Text)
  const ExcerptField := Field("excerpt", Text)
  const ExcerptHeField := Field("excerptHe", Text)
  const ContentField := Field("content", Text)
  const ContentHeField := Field("contentHe", Text)
  const CoverImageUrlField := Field("coverImageUrl", NullableText)
  const PublishedField := Field("published", NullableText)
  const KeyField := Field("key", Text)
  const ValueField := Field("value", Text)

  const UserShape: Shape := [UsernameField, PasswordField]

  const ContactMessageShape: Shape := [NameField, EmailField, MessageField]

  const ProjectShape: Shape :=
    [TitleField, TitleHeField, DescriptionField, DescriptionHeField, TechnologiesField,
     ImageUrlField, GithubUrlField, LiveUrlField, FeaturedField]

  const BlogPostShape: Shape :=
    [TitleField, TitleHeField, SlugField, ExcerptField, ExcerptHeField, ContentField,
     ContentHeField, CoverImageUrlField, PublishedField]

  const SiteSettingShape: Shape := [KeyField, ValueField]

  datatype PathSegment = Key(name: string) | Index(i: nat)

  /** One validation issue: where it is and the type that was expected there. */
  datatype Issue = Issue(path: seq<PathSegment>, expected: string)

  predicate AllStrings(items: seq<Json>) {
    forall i :: 0 <= i < |items| ==> items[i].JStr?
  }

  /** The body's value for `field` passes that field's rule. */
  predicate Conforms(f: map<string, Json>, field: Field) {
    match field.kind
    case Text => field.name in f && f[field.name].JStr?
    case NullableText => field.name !in f || f[field.name].JNull? || f[field.name].JStr?
    case TextArray => field.name in f && f[field.name].JArr? && AllStrings(f[field.name].items)
  }

  predicate ConformsAll(f: map<string, Json>, shape: Shape) {
    forall field :: field in shape ==> Conforms(f, field)
  }

  /** One issue per array element that is not a string, numbered from `from`. */
  function ItemIssues(name: string, items: seq<Json>, from: nat): (issues: seq<Issue>)
    ensures issues == [] <==> AllStrings(items)
    ensures forall j :: 0 <= j < |issues| ==>
      && |issues[j].path| == 2 && issues[j].path[0] == Key(name)
      && issues[j].path[1].Index? && from <= issues[j].path[1].i < from + |items|
      && !items[issues[j].path[1].i - from].JStr?
    decreases |items|
  {
    if items == [] then []
    else
      var rest := ItemIssues(name, items[1..], from + 1);
      assert AllStrings(items) <==> items[0].JStr? && AllStrings(items[1..]) by {
        assert forall i :: 1 <= i < |items| ==> items[i] == items[1..][i - 1];
      }
      (if items[0].JStr? then [] else [Issue([Key(name), Index(from)], "string")]) + rest
  }

  function FieldIssues(f: map<string, Json>, field: Field): (issues: seq<Issue>)
    ensures issues == [] <==> Conforms(f, field)
    ensures forall j :: 0 <= j < |issues| ==> issues[j].path != [] && issues[j].path[0] == Key(field.name)
  {
    if Conforms(f, field) then []
    else if field.kind.TextArray? && field.name in f && f[field.name].JArr? then
      ItemIssues(field.name, f[field.name].items, 0)
    else
      [Issue([Key(field.name)], if field.kind.TextArray? then "array" else "string")]
  }

  /** All issues of an object body, field by field in shape order; empty exactly when every field conforms. */
  function ShapeIssues(f: map<string, Json>, shape: Shape): (issues: seq<Issue>)
    ensures issues == [] <==> ConformsAll(f, shape)
  {
    if shape == [] then []
    else
      assert ConformsAll(f, shape) <==> Conforms(f, shape[0]) && ConformsAll(f, shape[1..]) by {
        assert shape == [shape[0]] + shape[1..];
      }
      FieldIssues(f, shape[0]) + ShapeIssues(f, shape[1..])
  }

  /** The issue list names every failing field, and names no field that passed. */
  lemma {:induction false} ShapeIssuesNamesFailures(f: map<string, Json>, shape: Shape)
    ensures forall i :: 0 <= i < |shape| && !Conforms(f, shape[i]) ==> Reported(ShapeIssues(f, shape), shape[i].name)
    ensures forall j :: 0 <= j < |ShapeIssues(f, shape)| ==>
      ShapeIssues(f, shape)[j].path != [] && Failing(f, shape, ShapeIssues(f, shape)[j].path[0])
  {
    if shape != [] {
      ShapeIssuesNamesFailures(f, shape[1..]);
      ShapeIssuesStepReported(f, shape, FieldIssues(f, shape[0]), ShapeIssues(f, shape[1..]));
      ShapeIssuesStepFailing(f, shape, FieldIssues(f, shape[0]), ShapeIssues(f, shape[1..]));
    }
  }

  /** Some issue's path starts at field `name`. */
  predicate Reported(issues: seq<Issue>, name: string) {
    exists j :: 0 <= j < |issues| && issues[j].path != [] && issues[j].path[0] == Key(name)
  }

  /** `segment` names a field of `shape` whose value fails its rule. */
  predicate Failing(f: map<string, Json>, shape: Shape, segment: PathSegment) {
    exists i :: 0 <= i < |shape| && segment == Key(shape[i].name) && !Conforms(f, shape[i])
  }

  /** Every failing field of `shape` is reported by its own issues followed by the rest's. */
  lemma ShapeIssuesStepReported(f: map<string, Json>, shape: Shape, first: seq<Issue>, rest: seq<Issue>)
    requires shape != []
    requires first == FieldIssues(f, shape[0])
    requires forall i :: 0 <= i < |shape[1..]| && !Conforms(f, shape[1..][i]) ==> Reported(rest, shape[1..][i].name)
    ensures forall i :: 0 <= i < |shape| && !Conforms(f, shape[i]) ==> Reported(first + rest, shape[i].name)
  {
    var issues := first + rest;
    forall i | 0 <= i < |shape| && !Conforms(f, shape[i])
      ensures Reported(issues, shape[i].name)
    {
      if i == 0 {
        assert issues[0] == first[0];
      } else {
        assert shape[1..][i - 1] == shape[i];
        var j :| 0 <= j < |rest| && rest[j].path != [] && rest[j].path[0] == Key(shape[i].name);
        assert issues[|first| + j] == rest[j];
      }
    }
  }

  /** Every issue of the first field followed by the rest's is about a failing field of `shape`. */
  lemma ShapeIssuesStepFailing(f: map<string, Json>, shape: Shape, first: seq<Issue>, rest: seq<Issue>)
    requires shape != []
    requires first == FieldIssues(f, shape[0])
    requires forall j :: 0 <= j < |rest| ==> rest[j].path != [] && Failing(f, shape[1..], rest[j].path[0])
    ensures forall j :: 0 <= j < |first + rest| ==>
      (first + rest)[j].path != [] && Failing(f, shape, (first + rest)[j].path[0])
  {
    var issues := first + rest;
    forall j | 0 <= j < |issues|
      ensures issues[j].path != [] && Failing(f, shape, issues[j].path[0])
    {
      if j < |first| {
        assert issues[j] == first[j];
        assert !Conforms(f, shape[0]);
      } else {
        assert issues[j] == rest[j - |first|];
        var i :| 0 <= i < |shape[1..]| && rest[j - |first|].path[0] == Key(shape[1..][i].name)
                 && !Conforms(f, shape[1..][i]);
        assert shape[i + 1] == shape[1..][i];
      }
    }
  }

  /** The issues of a whole body: a body that is not a JSON object fails as a whole. */
  function BodyIssues(body: Json, shape: Shape): (issues: seq<Issue>)
    ensures issues == [] <==> body.JObj? && ConformsAll(body.fields, shape)
    ensures !body.JObj? ==> issues == [Issue([], "object")]
  {
    match body
    case JObj(f) => ShapeIssues(f, shape)
    case _ => [Issue([], "object")]
  }

  function TextOf(f: map<string, Json>, field: Field): string
    requires field.kind == Text && Conforms(f, field)
  {
    f[field.name].s
  }

  function NullishOf(f: map<string, Json>, field: Field): Nullish<string>
    requires field.kind == NullableText && Conforms(f, field)
  {
    if field.name !in f then Omitted
    else if f[field.name].JNull? then Null
    else Given(f[field.name].s)
  }

  function TextsOf(f: map<string, Json>, field: Field): seq<string>
    requires field.kind == TextArray && Conforms(f, field)
  {
    var items := f[field.name].items;
    seq(|items|, i requires 0 <= i < |items| => items[i].s)
  }

  function UserOf(f: map<string, Json>): InsertUser
    requires ConformsAll(f, UserShape)
  {
    InsertUser(TextOf(f, UsernameField), TextOf(f, PasswordField))
  }

  function ContactMessageOf(f: map<string, Json>): InsertContactMessage
    requires ConformsAll(f, ContactMessageShape)
  {
    InsertContactMessage(TextOf(f, NameField), TextOf(f, EmailField), TextOf(f, MessageField))
  }

  function ProjectOf(f: map<string, Json>): InsertProject
    requires ConformsAll(f, ProjectShape)
  {
    InsertProject(
      TextOf(f, TitleField), TextOf(f, TitleHeField), TextOf(f, DescriptionField),
      TextOf(f, DescriptionHeField), TextsOf(f, TechnologiesField), NullishOf(f, ImageUrlField),
      NullishOf(f, GithubUrlField), NullishOf(f, LiveUrlField), NullishOf(f, FeaturedField))
  }

  function BlogPostOf(f: map<string, Json>): InsertBlogPost
    requires ConformsAll(f, BlogPostShape)
  {
    InsertBlogPost(
      TextOf(f, TitleField), TextOf(f, TitleHeField), TextOf(f, SlugField), TextOf(f, ExcerptField),
      TextOf(f, ExcerptHeField), TextOf(f, ContentField), TextOf(f, ContentHeField),
      NullishOf(f, CoverImageUrlField), NullishOf(f, PublishedField))
  }

  function SiteSettingOf(f: map<string, Json>): InsertSiteSetting
    requires ConformsAll(f, SiteSettingShape)
  {
    InsertSiteSetting(TextOf(f, KeyField), TextOf(f, ValueField))
  }

  // `insert*Schema.parse(body)`: the insert value, or every issue found.

  function ParseUser(body: Json): (r: Result<InsertUser, seq<Issue>>)
    ensures r.Ok? <==> body.JObj? && ConformsAll(body.fields, UserShape)
    ensures r.Err? ==> r.error == BodyIssues(body, UserShape)
  {
    var issues := BodyIssues(body, UserShape);
    if issues != [] then Err(issues) else Ok(UserOf(body.fields))
  }

  function ParseContactMessage(body: Json): (r: Result<InsertContactMessage, seq<Issue>>)
    ensures r.Ok? <==> body.JObj? && ConformsAll(body.fields, ContactMessageShape)
    ensures r.Err? ==> r.error == BodyIssues(body, ContactMessageShape)
  {
    var issues := BodyIssues(body, ContactMessageShape);
    if issues != [] then Err(issues) else Ok(ContactMessageOf(body.fields))
  }

  function ParseProject(body: Json): (r: Result<InsertProject, seq<Issue>>)
    ensures r.Ok? <==> body.JObj? && ConformsAll(body.fields, ProjectShape)
    ensures r.Err? ==> r.error == BodyIssues(body, ProjectShape)
  {
    var issues := BodyIssues(body, ProjectShape);
    if issues != [] then Err(issues) else Ok(ProjectOf(body.fields))
  }

  function ParseBlogPost(body: Json): (r: Result<InsertBlogPost, seq<Issue>>)
    ensures r.Ok? <==> body.JObj? && ConformsAll(body.fields, BlogPostShape)
    ensures r.Err? ==> r.error == BodyIssues(body, BlogPostShape)
  {
    var issues := BodyIssues(body, BlogPostShape);
    if issues != [] then Err(issues) else Ok(BlogPostOf(body.fields))
  }

  function ParseSiteSetting(body: Json): (r: Result<InsertSiteSetting, seq<Issue>>)
    ensures r.Ok? <==> body.JObj? && ConformsAll(body.fields, SiteSettingShape)
    ensures r.Err? ==> r.error == BodyIssues(body, SiteSettingShape)
  {
    var issues := BodyIssues(body, SiteSettingShape);
    if issues != [] then Err(issues) else Ok(SiteSettingOf(body.fields))
  }

  // ---------------------------------------------------------------------------
  // What the parse promises: it reads only the picked keys, and it accepts the
  // body a client builds from an insert value, giving that value back.
  // ---------------------------------------------------------------------------

  /** `f` and `g` hold the same thing (or nothing) under the field's key. */
  predicate Agree(f: map<string, Json>, g: map<string, Json>, field: Field) {
    (field.name in f <==> field.name in g) && (field.name in f ==> f[field.name] == g[field.name])
  }

  /** `f` and `g` agree on every key the shape picks. */
  ghost predicate AgreeOn(f: map<string, Json>, g: map<string, Json>, shape: Shape) {
    forall field :: field in shape ==> Agree(f, g, field)
  }

  lemma {:induction false} ShapeIssuesAgree(f: map<string, Json>, g: map<string, Json>, shape: Shape)
    requires AgreeOn(f, g, shape)
    ensures ShapeIssues(f, shape) == ShapeIssues(g, shape)
  {
    if shape != [] {
      assert shape[0] in shape;
      assert FieldIssues(f, shape[0]) == FieldIssues(g, shape[0]);
      assert AgreeOn(f, g, shape[1..]) by {
        forall field | field in shape[1..] ensures field in shape { }
      }
      ShapeIssuesAgree(f, g, shape[1..]);
    }
  }

  lemma AgreeText(f: map<string, Json>, g: map<string, Json>, field: Field)
    requires field.kind == Text && Conforms(f, field) && Agree(f, g, field)
    ensures Conforms(g, field) && TextOf(f, field) == TextOf(g, field)
  {
  }

  lemma AgreeTexts(f: map<string, Json>, g: map<string, Json>, field: Field)
    requires field.kind == TextArray && Conforms(f, field) && Agree(f, g, field)
    ensures Conforms(g, field) && TextsOf(f, field) == TextsOf(g, field)
  {
  }

  lemma AgreeNullish(f: map<string, Json>, g: map<string, Json>, field: Field)
    requires field.kind == NullableText && Conforms(f, field) && Agree(f, g, field)
    ensures Conforms(g, field) && NullishOf(f, field) == NullishOf(g, field)
  {
  }

  // The outcome of each insert parse depends only on the picked keys.

  lemma ContactMessageParseReadsOnlyPickedKeys(f: map<string, Json>, g: map<string, Json>)
    requires AgreeOn(f, g, ContactMessageShape)
    ensures ParseContactMessage(JObj(f)) == ParseContactMessage(JObj(g))
  {
    ShapeIssuesAgree(f, g, ContactMessageShape);
    if ConformsAll(f, ContactMessageShape) {
      AgreeText(f, g, NameField);
      AgreeText(f, g, EmailField);
      AgreeText(f, g, MessageField);
    }
  }

  lemma ProjectParseReadsOnlyPickedKeys(f: map<string, Json>, g: map<string, Json>)
    requires AgreeOn(f, g, ProjectShape)
    ensures ParseProject(JObj(f)) == ParseProject(JObj(g))
  {
    ShapeIssuesAgree(f, g, ProjectShape);
    if ConformsAll(f, ProjectShape) {
      AgreeText(f, g, TitleField);
      AgreeText(f, g, TitleHeField);
      AgreeText(f, g, DescriptionField);
      AgreeText(f, g, DescriptionHeField);
      AgreeTexts(f, g, TechnologiesField);
      AgreeNullish(f, g, ImageUrlField);
      AgreeNullish(f, g, GithubUrlField);
      AgreeNullish(f, g, LiveUrlField);
      AgreeNullish(f, g, FeaturedField);
    }
  }

  lemma BlogPostParseReadsOnlyPickedKeys(f: map<string, Json>, g: map<string, Json>)
    requires AgreeOn(f, g, BlogPostShape)
    ensures ParseBlogPost(JObj(f)) == ParseBlogPost(JObj(g))
  {
    ShapeIssuesAgree(f, g, BlogPostShape);
    if ConformsAll(f, BlogPostShape) {
      AgreeText(f, g, TitleField);
      AgreeText(f, g, TitleHeField);
      AgreeText(f, g, SlugField);
      AgreeText(f, g, ExcerptField);
      AgreeText(f, g, ExcerptHeField);
      AgreeText(f, g, ContentField);
      AgreeText(f, g, ContentHeField);
      AgreeNullish(f, g, CoverImageUrlField);
      AgreeNullish(f, g, PublishedField);
    }
  }

  lemma SiteSettingParseReadsOnlyPickedKeys(f: map<string, Json>, g: map<string, Json>)
    requires AgreeOn(f, g, SiteSettingShape)
    ensures ParseSiteSetting(JObj(f)) == ParseSiteSetting(JObj(g))
  {
    ShapeIssuesAgree(f, g, SiteSettingShape);
    if ConformsAll(f, SiteSettingShape) {
      AgreeText(f, g, KeyField);
      AgreeText(f, g, ValueField);
    }
  }

  /** Setting a key that no field of the shape picks leaves the body the same on the shape. */
  lemma UnpickedKey(f: map<string, Json>, k: string, v: Json, shape: Shape)
    requires forall i :: 0 <= i < |shape| ==> shape[i].name != k
    ensures AgreeOn(f[k := v], f, shape)
  {
    forall field | field in shape ensures Agree(f[k := v], f, field) {
      var i :| 0 <= i < |shape| && shape[i] == field;
    }
  }

  // A body that carries `id` or `createdAt` parses exactly as it would without them.

  lemma ContactMessageIgnoresIdAndCreatedAt(f: map<string, Json>, id: Json, createdAt: Json)
    ensures ParseContactMessage(JObj(f["id" := id]["createdAt" := createdAt])) == ParseContactMessage(JObj(f))
  {
    UnpickedKey(f, "id", id, ContactMessageShape);
    UnpickedKey(f["id" := id], "createdAt", createdAt, ContactMessageShape);
    ContactMessageParseReadsOnlyPickedKeys(f["id" := id], f);
    ContactMessageParseReadsOnlyPickedKeys(f["id" := id]["createdAt" := createdAt], f["id" := id]);
  }

  lemma ProjectIgnoresIdAndCreatedAt(f: map<string, Json>, id: Json, createdAt: Json)
    ensures ParseProject(JObj(f["id" := id]["createdAt" := createdAt])) == ParseProject(JObj(f))
  {
    UnpickedKey(f, "id", id, ProjectShape);
    UnpickedKey(f["id" := id], "createdAt", createdAt, ProjectShape);
    ProjectParseReadsOnlyPickedKeys(f["id" := id], f);
    ProjectParseReadsOnlyPickedKeys(f["id" := id]["createdAt" := createdAt], f["id" := id]);
  }

  lemma BlogPostIgnoresIdAndCreatedAt(f: map<string, Json>, id: Json, createdAt: Json)
    ensures ParseBlogPost(JObj(f["id" := id]["createdAt" := createdAt])) == ParseBlogPost(JObj(f))
  {
    UnpickedKey(f, "id", id, BlogPostShape);
    UnpickedKey(f["id" := id], "createdAt", createdAt, BlogPostShape);
    BlogPostParseReadsOnlyPickedKeys(f["id" := id], f);
    BlogPostParseReadsOnlyPickedKeys(f["id" := id]["createdAt" := createdAt], f["id" := id]);
  }

  lemma SiteSettingIgnoresId(f: map<string, Json>, id: Json)
    ensures ParseSiteSetting(JObj(f["id" := id])) == ParseSiteSetting(JObj(f))
  {
    UnpickedKey(f, "id", id, SiteSettingShape);
    SiteSettingParseReadsOnlyPickedKeys(f["id" := id], f);
  }

  // The bodies a client sends for an insert value, and the round trip through the parse.

  /** The JSON entry for a nullable field: no key, `null`, or the string. */
  function NullishEntry(field: Field, v: Nullish<string>): (m: map<string, Json>)
    ensures m.Keys <= {field.name}
  {
    match v
    case Omitted => map[]
    case Null => map[field.name := JNull]
    case Given(s) => map[field.name := JStr(s)]
  }

  /** A nullable field's entry, put in front of a body without that key, reads back as the same value. */
  lemma NullishEntryRoundTrip(field: Field, v: Nullish<string>, rest: map<string, Json>)
    requires field.kind == NullableText && field.name !in rest
    ensures Conforms(NullishEntry(field, v) + rest, field)
    ensures NullishOf(NullishEntry(field, v) + rest, field) == v
  {
  }

  /** Entries in front of `m` that do not hold the field's key leave the field as `m` has it. */
  lemma UnionAgree(a: map<string, Json>, m: map<string, Json>, field: Field)
    requires field.name !in a
    ensures Agree(m, a + m, field)
  {
  }

  function ContactMessageBody(m: InsertContactMessage): Json {
    JObj(map["name" := JStr(m.name), "email" := JStr(m.email), "message" := JStr(m.message)])
  }

  function ProjectBody(p: InsertProject): Json {
    var texts := seq(|p.technologies|, i requires 0 <= i < |p.technologies| => JStr(p.technologies[i]));
    var required := map["title" := JStr(p.title), "titleHe" := JStr(p.titleHe),
                        "description" := JStr(p.description), "descriptionHe" := JStr(p.descriptionHe),
                        "technologies" := JArr(texts)];
    JObj(NullishEntry(ImageUrlField, p.imageUrl) + (NullishEntry(GithubUrlField, p.githubUrl)
      + (NullishEntry(LiveUrlField, p.liveUrl) + (NullishEntry(FeaturedField, p.featured) + required))))
  }

  function BlogPostBody(p: InsertBlogPost): Json {
    var required := map["title" := JStr(p.title), "titleHe" := JStr(p.titleHe), "slug" := JStr(p.slug),
                        "excerpt" := JStr(p.excerpt), "excerptHe" := JStr(p.excerptHe),
                        "content" := JStr(p.content), "contentHe" := JStr(p.contentHe)];
    JObj(NullishEntry(CoverImageUrlField, p.coverImageUrl) + (NullishEntry(PublishedField, p.published) + required))
  }

  function SiteSettingBody(s: InsertSiteSetting): Json {
    JObj(map["key" := JStr(s.key), "value" := JStr(s.value)])
  }

  /** Every insert value, sent as its JSON body, is accepted and parses back to itself. */
  lemma ContactMessageRoundTrip(m: InsertContactMessage)
    ensures ParseContactMessage(ContactMessageBody(m)) == Ok(m)
  {
    var f := ContactMessageBody(m).fields;
    assert Conforms(f, NameField) && Conforms(f, EmailField) && Conforms(f, MessageField);
    assert ConformsAll(f, ContactMessageShape);
    assert ContactMessageOf(f) == m;
  }

  lemma SiteSettingRoundTrip(s: InsertSiteSetting)
    ensures ParseSiteSetting(SiteSettingBody(s)) == Ok(s)
  {
  }

  lemma ProjectRoundTrip(p: InsertProject)
    ensures ParseProject(ProjectBody(p)) == Ok(p)
  {
    var f := ProjectBody(p).fields;
    ProjectBodyRequired(p);
    ProjectBodyNullable(p);
    assert ConformsAll(f, ProjectShape);
    assert ProjectOf(f) == p;
  }

  /** The body of `p` holds `p`'s required fields. */
  lemma ProjectBodyRequired(p: InsertProject)
    ensures var f := ProjectBody(p).fields;
      && Conforms(f, TitleField) && TextOf(f, TitleField) == p.title
      && Conforms(f, TitleHeField) && TextOf(f, TitleHeField) == p.titleHe
      && Conforms(f, DescriptionField) && TextOf(f, DescriptionField) == p.description
      && Conforms(f, DescriptionHeField) && TextOf(f, DescriptionHeField) == p.descriptionHe
      && Conforms(f, TechnologiesField) && TextsOf(f, TechnologiesField) == p.technologies
  {
    var f := ProjectBody(p).fields;
    var texts := seq(|p.technologies|, i requires 0 <= i < |p.technologies| => JStr(p.technologies[i]));
    assert f["title"] == JStr(p.title) && f["titleHe"] == JStr(p.titleHe);
    assert f["description"] == JStr(p.description) && f["descriptionHe"] == JStr(p.descriptionHe);
    assert f["technologies"] == JArr(texts);
  }

  /** The body of `p` holds `p`'s nullable fields, each omitted, null or given as in `p`. */
  lemma ProjectBodyNullable(p: InsertProject)
    ensures var f := ProjectBody(p).fields;
      && Conforms(f, ImageUrlField) && NullishOf(f, ImageUrlField) == p.imageUrl
      && Conforms(f, GithubUrlField) && NullishOf(f, GithubUrlField) == p.githubUrl
      && Conforms(f, LiveUrlField) && NullishOf(f, LiveUrlField) == p.liveUrl
      && Conforms(f, FeaturedField) && NullishOf(f, FeaturedField) == p.featured
  {
    var texts := seq(|p.technologies|, i requires 0 <= i < |p.technologies| => JStr(p.technologies[i]));
    var required := map["title" := JStr(p.title), "titleHe" := JStr(p.titleHe),
                        "description" := JStr(p.description), "descriptionHe" := JStr(p.descriptionHe),
                        "technologies" := JArr(texts)];
    var n1, n2 := NullishEntry(ImageUrlField, p.imageUrl), NullishEntry(GithubUrlField, p.githubUrl);
    var n3, n4 := NullishEntry(LiveUrlField, p.liveUrl), NullishEntry(FeaturedField, p.featured);
    var r4 := n4 + required;
    var r3 := n3 + r4;
    var r2 := n2 + r3;
    var f := n1 + r2;
    assert ProjectBody(p).fields == f;
    // each entry is read through the entries in front of it
    NullishEntryRoundTrip(ImageUrlField, p.imageUrl, r2);
    NullishEntryRoundTrip(GithubUrlField, p.githubUrl, r3);
    UnionAgree(n1, r2, GithubUrlField);
    AgreeNullish(r2, f, GithubUrlField);
    NullishEntryRoundTrip(LiveUrlField, p.liveUrl, r4);
    UnionAgree(n2, r3, LiveUrlField);
    AgreeNullish(r3, r2, LiveUrlField);
    UnionAgree(n1, r2, LiveUrlField);
    AgreeNullish(r2, f, LiveUrlField);
    NullishEntryRoundTrip(FeaturedField, p.featured, required);
    UnionAgree(n3, r4, FeaturedField);
    AgreeNullish(r4, r3, FeaturedField);
    UnionAgree(n2, r3, FeaturedField);
    AgreeNullish(r3, r2, FeaturedField);
    UnionAgree(n1, r2, FeaturedField);
    AgreeNullish(r2, f, FeaturedField);
  }

  lemma BlogPostRoundTrip(p: InsertBlogPost)
    ensures ParseBlogPost(BlogPostBody(p)) == Ok(p)
  {
    var f := BlogPostBody(p).fields;
    BlogPostBodyRequired(p);
    BlogPostBodyNullable(p);
    assert ConformsAll(f, BlogPostShape);
    assert BlogPostOf(f) == p;
  }

  /** The body of `p` holds `p`'s required fields. */
  lemma BlogPostBodyRequired(p: InsertBlogPost)
    ensures var f := BlogPostBody(p).fields;
      && Conforms(f, TitleField) && TextOf(f, TitleField) == p.title
      && Conforms(f, TitleHeField) && TextOf(f, TitleHeField) == p.titleHe
      && Conforms(f, SlugField) && TextOf(f, SlugField) == p.slug
      && Conforms(f, ExcerptField) && TextOf(f, ExcerptField) == p.excerpt
      && Conforms(f, ExcerptHeField) && TextOf(f, ExcerptHeField) == p.excerptHe
      && Conforms(f, ContentField) && TextOf(f, ContentField) == p.content
      && Conforms(f, ContentHeField) && TextOf(f, ContentHeField) == p.contentHe
  {
    var f := BlogPostBody(p).fields;
    assert f["title"] == JStr(p.title) && f["titleHe"] == JStr(p.titleHe) && f["slug"] == JStr(p.slug);
    assert f["excerpt"] == JStr(p.excerpt) && f["excerptHe"] == JStr(p.excerptHe);
    assert f["content"] == JStr(p.content) && f["contentHe"] == JStr(p.contentHe);
  }

  /** The body of `p` holds `p`'s nullable fields, each omitted, null or given as in `p`. */
  lemma BlogPostBodyNullable(p: InsertBlogPost)
    ensures var f := BlogPostBody(p).fields;
      && Conforms(f, CoverImageUrlField) && NullishOf(f, CoverImageUrlField) == p.coverImageUrl
      && Conforms(f, PublishedField) && NullishOf(f, PublishedField) == p.published
  {
    var required := map["title" := JStr(p.title), "titleHe" := JStr(p.titleHe), "slug" := JStr(p.slug),
                        "excerpt" := JStr(p.excerpt), "excerptHe" := JStr(p.excerptHe),
                        "content" := JStr(p.content), "contentHe" := JStr(p.contentHe)];
    var n1, n2 := NullishEntry(CoverImageUrlField, p.coverImageUrl), NullishEntry(PublishedField, p.published);
    var r2 := n2 + required;
    var f := n1 + r2;
    assert BlogPostBody(p).fields == f;
    NullishEntryRoundTrip(CoverImageUrlField, p.coverImageUrl, r2);
    NullishEntryRoundTrip(PublishedField, p.published, required);
    UnionAgree(n1, r2, PublishedField);
    AgreeNullish(r2, f, PublishedField);
  }
}
