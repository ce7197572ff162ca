/** service/blog_sync_service.py: `create_post` builds the Halo post payload, creates the post and
  * publishes it, swallowing every failure; `sync_blogs` selects the pending web memos, posts each
  * one, marks it synced and commits once (or rolls back when the store fails).
  *
  * The external renderers `slugify` and `markdown_to_html` are parameters; the database session
  * is committed documents plus staged changes; the clock reading is the parameter `now`. */
module BlogSync {
  import opened Wrappers
  import opened Text
  import opened Json
  import opened BaseHttp
  import opened BearerAuth
  import opened Halo

  // ---- time stamps: datetime.now().strftime('%Y%m%d%H%M%S') ----

  datatype DateTime = DateTime(year: nat, month: nat, day: nat, hour: nat, minute: nat, second: nat)

  predicate ValidDateTime(t: DateTime) {
    1 <= t.year <= 9999 && 1 <= t.month <= 12 && 1 <= t.day <= 31
    && t.hour < 24 && t.minute < 60 && t.second < 60
  }

  function Stamp(t: DateTime): (s: string)
    ensures |s| == 14
  {
    Digits(t.year, 4) + Digits(t.month, 2) + Digits(t.day, 2)
    + Digits(t.hour, 2) + Digits(t.minute, 2) + Digits(t.second, 2)
  }

  /** The generated `metadata.name` of a post. */
  function PostName(t: DateTime): string {
    "post-" + Stamp(t)
  }

  predicate AllDigits(s: string) {
    forall i :: 0 <= i < |s| ==> IsDigit(s[i])
  }

  function ParseStamp(s: string): Option<DateTime> {
    if |s| == 14 && AllDigits(s) then
      Some(DateTime(DigitsValue(s[0..4]), DigitsValue(s[4..6]), DigitsValue(s[6..8]),
                    DigitsValue(s[8..10]), DigitsValue(s[10..12]), DigitsValue(s[12..14])))
    else None
  }

  /** Reads the time back out of a generated post name. */
  function ParsePostName(name: string): Option<DateTime> {
    if StartsWith(name, "post-") then ParseStamp(name[5..]) else None
  }

  /** The six fields of a stamp sit at fixed positions. */
  lemma StampFields(t: DateTime)
    ensures var s := Stamp(t);
      && s[0..4] == Digits(t.year, 4) && s[4..6] == Digits(t.month, 2) && s[6..8] == Digits(t.day, 2)
      && s[8..10] == Digits(t.hour, 2) && s[10..12] == Digits(t.minute, 2) && s[12..14] == Digits(t.second, 2)
    ensures AllDigits(Stamp(t))
  {
  }

  /** A stamp is fourteen digits and reads back as the time it was made from. */
  lemma StampRoundTrip(t: DateTime)
    requires ValidDateTime(t)
    ensures AllDigits(Stamp(t)) && ParseStamp(Stamp(t)) == Some(t)
  {
    var s := Stamp(t);
    StampFields(t);
    assert Pow10(2) == 100 && Pow10(4) == 10000;
    DigitsRoundTrip(t.year, 4);
    DigitsRoundTrip(t.month, 2);
    DigitsRoundTrip(t.day, 2);
    DigitsRoundTrip(t.hour, 2);
    DigitsRoundTrip(t.minute, 2);
    DigitsRoundTrip(t.second, 2);
    assert ParseStamp(s) == Some(DateTime(DigitsValue(s[0..4]), DigitsValue(s[4..6]), DigitsValue(s[6..8]),
                                          DigitsValue(s[8..10]), DigitsValue(s[10..12]), DigitsValue(s[12..14])));
  }

  /** The post name is "post-" and fourteen digits, and it determines the time it was made from. */
  lemma PostNameRoundTrip(t: DateTime)
    requires ValidDateTime(t)
    ensures |PostName(t)| == 19 && StartsWith(PostName(t), "post-") && AllDigits(PostName(t)[5..])
    ensures ParsePostName(PostName(t)) == Some(t)
  {
    assert PostName(t)[5..] == Stamp(t);
    StampRoundTrip(t);
  }

  // ---- the payload of create_post ----

  /** The external `slugify` and `markdown_to_html`, whose rules are not part of this model. */
  datatype Renderers = Renderers(slugify: string -> string, markdownToHtml: string -> string)

  /** The `args` dict of `create_post`; None stands for a missing key. */
  datatype PostArgs = PostArgs(
    title: string, content: string, contentFormat: Option<string>, slug: Option<string>,
    cover: Option<string>, pinned: Option<bool>, allowComment: Option<bool>,
    visible: Option<string>, excerpt: Option<string>, categories: Option<seq<string>>,
    tags: Option<seq<string>>, publishImmediately: Option<bool>)

  /** `args.get("slug") or slugify(title)`. */
  function SlugOf(args: PostArgs, rd: Renderers): string {
    if args.slug.Some? && args.slug.value != "" then args.slug.value else rd.slugify(args.title)
  }

  function StrList(xs: seq<string>): (j: Json)
    ensures j.JArr? && |j.items| == |xs|
    ensures forall i :: 0 <= i < |xs| ==> j.items[i] == JStr(xs[i])
  {
    JArr(seq(|xs|, i requires 0 <= i < |xs| => JStr(xs[i])))
  }

  function OptStr(o: Option<string>): Json {
    if o.Some? then JStr(o.value) else JNull
  }

  /** The `spec` dict of the post, member by member in the source's order. */
  function PostSpec(args: PostArgs, rd: Renderers): Json {
    JObj([
      Member("title", JStr(args.title)),
      Member("slug", JStr(SlugOf(args, rd))),
      Member("releaseSnapshot", JStr("")),
      Member("headSnapshot", JStr("")),
      Member("baseSnapshot", JStr("")),
      Member("owner", JStr("")),
      Member("template", JStr("")),
      Member("cover", JStr(args.cover.GetOr(""))),
      Member("deleted", JBool(false)),
      Member("publish", JBool(false)),
      Member("publishTime", JNull),
      Member("pinned", JBool(args.pinned.GetOr(false))),
      Member("allowComment", JBool(args.allowComment.GetOr(true))),
      Member("visible", JStr(args.visible.GetOr("PUBLIC"))),
      Member("priority", JInt(0)),
      Member("excerpt", Excerpt(args)),
      Member("categories", StrList(args.categories.GetOr([]))),
      Member("tags", StrList(args.tags.GetOr([]))),
      Member("htmlMetas", JArr([]))
    ])
  }

  function Excerpt(args: PostArgs): Json {
    JObj([Member("autoGenerate", JBool(true)), Member("raw", JStr(args.excerpt.GetOr("")))])
  }

  function PostObject(name: string, spec: Json): Json {
    JObj([
      Member("apiVersion", JStr("content.halo.run/v1alpha1")),
      Member("kind", JStr("Post")),
      Member("metadata", JObj([Member("name", JStr(name)), Member("annotations", JObj([]))])),
      Member("spec", spec)
    ])
  }

  function ContentObject(args: PostArgs, rd: Renderers): Json {
    JObj([
      Member("raw", JStr(args.content)),
      Member("content", JStr(rd.markdownToHtml(args.content))),
      Member("rawType", OptStr(args.contentFormat))
    ])
  }

  /** The body of the create call: the post and, beside it, its content. */
  function PostPayload(args: PostArgs, now: DateTime, rd: Renderers): Json {
    JObj([Member("post", PostObject(PostName(now), PostSpec(args, rd))), Member("content", ContentObject(args, rd))])
  }

  /** `post.spec.<key>` of the payload is the spec's member `key`. */
  lemma PayloadSpecPath(args: PostArgs, now: DateTime, rd: Renderers, key: string)
    ensures Lookup(PostPayload(args, now, rd), ["post", "spec", key]) == Get(PostSpec(args, rd).members, key)
  {
    var p := PostPayload(args, now, rd);
    var post := PostObject(PostName(now), PostSpec(args, rd));
    LookupStep(p.members, 0, ["spec", key]);
    assert ["post"] + ["spec", key] == ["post", "spec", key];
    LookupStep(post.members, 3, [key]);
    assert ["spec"] + [key] == ["spec", key];
  }

  // Each helper below looks up one member of the spec, which keeps every proof small.

  lemma SpecTitle(args: PostArgs, rd: Renderers)
    ensures Get(PostSpec(args, rd).members, "title") == Some(JStr(args.title))
  { GetFirst(PostSpec(args, rd).members, 0); }

  lemma SpecSlug(args: PostArgs, rd: Renderers)
    ensures Get(PostSpec(args, rd).members, "slug") == Some(JStr(SlugOf(args, rd)))
  { GetFirst(PostSpec(args, rd).members, 1); }

  lemma SpecReleaseSnapshot(args: PostArgs, rd: Renderers)
    ensures Get(PostSpec(args, rd).members, "releaseSnapshot") == Some(JStr(""))
  { GetFirst(PostSpec(args, rd).members, 2); }

  lemma SpecHeadSnapshot(args: PostArgs, rd: Renderers)
    ensures Get(PostSpec(args, rd).members, "headSnapshot") == Some(JStr(""))
  { GetFirst(PostSpec(args, rd).members, 3); }

  lemma SpecBaseSnapshot(args: PostArgs, rd: Renderers)
    ensures Get(PostSpec(args, rd).members, "baseSnapshot") == Some(JStr(""))
  { GetFirst(PostSpec(args, rd).members, 4); }

  lemma SpecOwner(args: PostArgs, rd: Renderers)
    ensures Get(PostSpec(args, rd).members, "owner") == Some(JStr(""))
  { GetFirst(PostSpec(args, rd).members, 5); }

  lemma SpecTemplate(args: PostArgs, rd: Renderers)
    ensures Get(PostSpec(args, rd).members, "template") == Some(JStr(""))
  { GetFirst(PostSpec(args, rd).members, 6); }

  lemma SpecCover(args: PostArgs, rd: Renderers)
    ensures Get(PostSpec(args, rd).members, "cover") == Some(JStr(args.cover.GetOr("")))
  { GetFirst(PostSpec(args, rd).members, 7); }

  lemma SpecDeleted(args: PostArgs, rd: Renderers)
    ensures Get(PostSpec(args, rd).members, "deleted") == Some(JBool(false))
  { GetFirst(PostSpec(args, rd).members, 8); }

  lemma SpecPublish(args: PostArgs, rd: Renderers)
    ensures Get(PostSpec(args, rd).members, "publish") == Some(JBool(false))
  { GetFirst(PostSpec(args, rd).members, 9); }

  lemma SpecPublishTime(args: PostArgs, rd: Renderers)
    ensures Get(PostSpec(args, rd).members, "publishTime") == Some(JNull)
  { GetFirst(PostSpec(args, rd).members, 10); }

  lemma SpecPinned(args: PostArgs, rd: Renderers)
    ensures Get(PostSpec(args, rd).members, "pinned") == Some(JBool(args.pinned.GetOr(false)))
  { GetFirst(PostSpec(args, rd).members, 11); }

  lemma SpecAllowComment(args: PostArgs, rd: Renderers)
    ensures Get(PostSpec(args, rd).members, "allowComment") == Some(JBool(args.allowComment.GetOr(true)))
  { GetFirst(PostSpec(args, rd).members, 12); }

  lemma SpecVisible(args: PostArgs, rd: Renderers)
    ensures Get(PostSpec(args, rd).members, "visible") == Some(JStr(args.visible.GetOr("PUBLIC")))
  { GetFirst(PostSpec(args, rd).members, 13); }

  lemma SpecPriority(args: PostArgs, rd: Renderers)
    ensures Get(PostSpec(args, rd).members, "priority") == Some(JInt(0))
  { GetFirst(PostSpec(args, rd).members, 14); }

  lemma SpecExcerpt(args: PostArgs, rd: Renderers)
    ensures Get(PostSpec(args, rd).members, "excerpt") == Some(Excerpt(args))
  { GetFirst(PostSpec(args, rd).members, 15); }

  lemma SpecCategories(args: PostArgs, rd: Renderers)
    ensures Get(PostSpec(args, rd).members, "categories") == Some(StrList(args.categories.GetOr([])))
  { GetFirst(PostSpec(args, rd).members, 16); }

  lemma SpecTags(args: PostArgs, rd: Renderers)
    ensures Get(PostSpec(args, rd).members, "tags") == Some(StrList(args.tags.GetOr([])))
  { GetFirst(PostSpec(args, rd).members, 17); }

  lemma SpecHtmlMetas(args: PostArgs, rd: Renderers)
    ensures Get(PostSpec(args, rd).members, "htmlMetas") == Some(JArr([]))
  { GetFirst(PostSpec(args, rd).members, 18); }

  lemma PayloadKind(args: PostArgs, now: DateTime, rd: Renderers)
    ensures Lookup(PostPayload(args, now, rd), ["post", "kind"]) == Some(JStr("Post"))
  {
    var p := PostPayload(args, now, rd);
    var post := PostObject(PostName(now), PostSpec(args, rd));
    LookupStep(p.members, 0, ["kind"]);
    assert ["post"] + ["kind"] == ["post", "kind"];
    LookupStep(post.members, 1, []);
    assert ["kind"] + [] == ["kind"];
  }

  lemma PayloadName(args: PostArgs, now: DateTime, rd: Renderers)
    ensures Lookup(PostPayload(args, now, rd), ["post", "metadata", "name"]) == Some(JStr(PostName(now)))
  {
    var p := PostPayload(args, now, rd);
    var post := PostObject(PostName(now), PostSpec(args, rd));
    var metadata := JObj([Member("name", JStr(PostName(now))), Member("annotations", JObj([]))]);
    LookupStep(p.members, 0, ["metadata", "name"]);
    assert ["post"] + ["metadata", "name"] == ["post", "metadata", "name"];
    LookupStep(post.members, 2, ["name"]);
    assert ["metadata"] + ["name"] == ["metadata", "name"];
    LookupStep(metadata.members, 0, []);
    assert ["name"] + [] == ["name"];
  }

  /** `content.<key>` of the payload is the content part's member `key`. */
  lemma PayloadContentPath(args: PostArgs, now: DateTime, rd: Renderers, key: string)
    ensures Lookup(PostPayload(args, now, rd), ["content", key]) == Get(ContentObject(args, rd).members, key)
  {
    var p := PostPayload(args, now, rd);
    LookupStep(p.members, 1, [key]);
    assert ["content"] + [key] == ["content", key];
    assert [key][1..] == [];
  }

  /** The payload names a Post, under the name generated from the clock. */
  lemma PostPayloadIdentity(args: PostArgs, now: DateTime, rd: Renderers)
    ensures Lookup(PostPayload(args, now, rd), ["post", "kind"]) == Some(JStr("Post"))
    ensures Lookup(PostPayload(args, now, rd), ["post", "metadata", "name"]) == Some(JStr("post-" + Stamp(now)))
  {
    PayloadKind(args, now, rd);
    PayloadName(args, now, rd);
  }

  /** The spec carries the given title and the chosen slug. */
  lemma PostSpecTitleSlug(args: PostArgs, rd: Renderers)
    ensures Get(PostSpec(args, rd).members, "title") == Some(JStr(args.title))
    ensures Get(PostSpec(args, rd).members, "slug") == Some(JStr(SlugOf(args, rd)))
  {
    SpecTitle(args, rd);
    SpecSlug(args, rd);
  }

  /** The post is created unpublished (publishing is a separate call), not deleted, with no
    * publish time and priority 0. */
  lemma PostPayloadUnpublished(args: PostArgs, rd: Renderers)
    ensures Get(PostSpec(args, rd).members, "deleted") == Some(JBool(false))
    ensures Get(PostSpec(args, rd).members, "publish") == Some(JBool(false))
    ensures Get(PostSpec(args, rd).members, "publishTime") == Some(JNull)
    ensures Get(PostSpec(args, rd).members, "priority") == Some(JInt(0))
  {
    SpecDeleted(args, rd);
    SpecPublish(args, rd);
    SpecPublishTime(args, rd);
    SpecPriority(args, rd);
  }

  /** Owner, template and snapshots are left empty for the server to fill in, there are no
    * HTML metas, and the excerpt is generated by the server. */
  lemma PostPayloadServerFilled(args: PostArgs, rd: Renderers)
    ensures Get(PostSpec(args, rd).members, "releaseSnapshot") == Some(JStr(""))
    ensures Get(PostSpec(args, rd).members, "headSnapshot") == Some(JStr(""))
    ensures Get(PostSpec(args, rd).members, "baseSnapshot") == Some(JStr(""))
    ensures Get(PostSpec(args, rd).members, "owner") == Some(JStr(""))
    ensures Get(PostSpec(args, rd).members, "template") == Some(JStr(""))
    ensures Get(PostSpec(args, rd).members, "htmlMetas") == Some(JArr([]))
    ensures Get(PostSpec(args, rd).members, "excerpt").Some?
      && Lookup(Get(PostSpec(args, rd).members, "excerpt").value, ["autoGenerate"]) == Some(JBool(true))
  {
    SpecReleaseSnapshot(args, rd);
    SpecHeadSnapshot(args, rd);
    SpecBaseSnapshot(args, rd);
    SpecOwner(args, rd);
    SpecTemplate(args, rd);
    SpecHtmlMetas(args, rd);
    SpecExcerpt(args, rd);
    LookupStep(Excerpt(args).members, 0, []);
    assert ["autoGenerate"] + [] == ["autoGenerate"];
  }

  /** Missing display options take their defaults: no cover, not pinned, comments allowed,
    * publicly visible, an empty excerpt. */
  lemma PostPayloadDisplayDefaults(args: PostArgs, rd: Renderers)
    requires args.cover.None? && args.pinned.None? && args.allowComment.None? && args.visible.None?
    requires args.excerpt.None?
    ensures Get(PostSpec(args, rd).members, "cover") == Some(JStr(""))
    ensures Get(PostSpec(args, rd).members, "pinned") == Some(JBool(false))
    ensures Get(PostSpec(args, rd).members, "allowComment") == Some(JBool(true))
    ensures Get(PostSpec(args, rd).members, "visible") == Some(JStr("PUBLIC"))
    ensures Get(PostSpec(args, rd).members, "excerpt")
      == Some(JObj([Member("autoGenerate", JBool(true)), Member("raw", JStr(""))]))
  {
    SpecCover(args, rd);
    SpecPinned(args, rd);
    SpecAllowComment(args, rd);
    SpecVisible(args, rd);
    SpecExcerpt(args, rd);
  }

  /** Given display options are sent as they are. */
  lemma PostPayloadDisplayGiven(args: PostArgs, rd: Renderers)
    ensures args.cover.Some? ==> Get(PostSpec(args, rd).members, "cover") == Some(JStr(args.cover.value))
    ensures args.pinned.Some? ==> Get(PostSpec(args, rd).members, "pinned") == Some(JBool(args.pinned.value))
    ensures args.allowComment.Some? ==>
      Get(PostSpec(args, rd).members, "allowComment") == Some(JBool(args.allowComment.value))
    ensures args.visible.Some? ==> Get(PostSpec(args, rd).members, "visible") == Some(JStr(args.visible.value))
  {
    SpecCover(args, rd);
    SpecPinned(args, rd);
    SpecAllowComment(args, rd);
    SpecVisible(args, rd);
  }

  /** Missing categories and tags become empty lists; given ones are sent as they are. */
  lemma PostPayloadTaxonomy(args: PostArgs, rd: Renderers)
    ensures Get(PostSpec(args, rd).members, "categories") == Some(StrList(args.categories.GetOr([])))
    ensures Get(PostSpec(args, rd).members, "tags") == Some(StrList(args.tags.GetOr([])))
    ensures args.categories.None? ==> Get(PostSpec(args, rd).members, "categories") == Some(JArr([]))
    ensures args.tags.None? ==> Get(PostSpec(args, rd).members, "tags") == Some(JArr([]))
  {
    SpecCategories(args, rd);
    SpecTags(args, rd);
  }

  /** The content part: the raw text, its rendered HTML and the source format. */
  lemma PostPayloadContent(args: PostArgs, now: DateTime, rd: Renderers)
    ensures Lookup(PostPayload(args, now, rd), ["content", "raw"]) == Some(JStr(args.content))
    ensures Lookup(PostPayload(args, now, rd), ["content", "content"]) == Some(JStr(rd.markdownToHtml(args.content)))
    ensures Lookup(PostPayload(args, now, rd), ["content", "rawType"])
      == Some(if args.contentFormat.Some? then JStr(args.contentFormat.value) else JNull)
  {
    var c := ContentObject(args, rd).members;
    PayloadContentPath(args, now, rd, "raw");
    PayloadContentPath(args, now, rd, "content");
    PayloadContentPath(args, now, rd, "rawType");
    GetFirst(c, 0);
    GetFirst(c, 1);
    GetFirst(c, 2);
  }

  /** An explicit, non-empty slug is used as given; otherwise the title is slugified. */
  lemma SlugChoice(args: PostArgs, rd: Renderers)
    ensures args.slug.Some? && args.slug.value != "" ==> SlugOf(args, rd) == args.slug.value
    ensures args.slug.None? || args.slug.value == "" ==> SlugOf(args, rd) == rd.slugify(args.title)
  {
  }

  // ---- the remote calls of create_post ----

  const PostsPath := "/apis/api.console.halo.run/v1alpha1/posts"

  function PublishPath(name: string): string {
    PostsPath + "/" + name + "/publish"
  }

  function PublishParams(): Fields {
    map["async" := JStr("true")]
  }

  /** `result.get("metadata", {}).get("name", "")` rendered into the publish URL; None when a
    * `.get` meets something that is not a dict (the AttributeError `create_post` swallows). */
  function PostNameOf(result: Json): Option<string> {
    var metadata := DictGet(result, "metadata", JObj([]));
    if metadata.None? then None
    else
      var name := DictGet(metadata.value, "name", JStr(""));
      if name.None? then None else Some(Str(name.value))
  }

  /** The name is `result["metadata"]["name"]`, "" when either key is missing, and unreadable
    * when the result or its metadata is not a dict. */
  lemma PostNameOfCases(result: Json)
    ensures !result.JObj? ==> PostNameOf(result) == None
    ensures result.JObj? && Lookup(result, ["metadata"]).None? ==> PostNameOf(result) == Some("")
    ensures Lookup(result, ["metadata"]).Some? && !Lookup(result, ["metadata"]).value.JObj? ==> PostNameOf(result) == None
    ensures (Lookup(result, ["metadata"]).Some? && Lookup(result, ["metadata"]).value.JObj?
             && Lookup(result, ["metadata", "name"]).None?) ==> PostNameOf(result) == Some("")
    ensures forall n :: Lookup(result, ["metadata", "name"]) == Some(JStr(n)) ==> PostNameOf(result) == Some(n)
  {
    if result.JObj? {
      var g := Get(result.members, "metadata");
      assert ["metadata"][0] == "metadata" && ["metadata"][1..] == [];
      assert Lookup(result, ["metadata"]) == g;
      if g.Some? {
        assert ["metadata", "name"][0] == "metadata" && ["metadata", "name"][1..] == ["name"];
        assert Lookup(result, ["metadata", "name"]) == Lookup(g.value, ["name"]);
        if g.value.JObj? {
          assert ["name"][0] == "name" && ["name"][1..] == [];
          assert Lookup(g.value, ["name"]) == Get(g.value.members, "name");
        }
      } else {
        assert Lookup(result, ["metadata", "name"]) == None;
      }
    }
  }

  /** What `create_post` sends and how many retry waits it takes. */
  datatype Traffic = Traffic(sent: seq<WireRequest>, waits: nat)

  function CreateRequest(baseUrl: string, headers: Headers, payload: Json): WireRequest {
    WireRequest("POST", TargetUrl(baseUrl, PostsPath), None, Some(payload), None, None, RequestHeaders(headers, None, None))
  }

  function PublishRequest(baseUrl: string, headers: Headers, name: string): WireRequest {
    WireRequest("PUT", TargetUrl(baseUrl, PublishPath(name)), Some(PublishParams()), None, None, None,
                RequestHeaders(headers, None, None))
  }

  /** What follows a create call with result `created`: the publish call only when publishing
    * was asked for, the create call succeeded and its name could be read. */
  function PublishTraffic(respond: nat -> Outcome, start: nat, baseUrl: string, headers: Headers,
                          created: Result<Json, RequestError>, publish: bool): Traffic
  {
    if created.Err? || !publish then Traffic([], 0)
    else
      var name := PostNameOf(created.value);
      if name.None? then Traffic([], 0)
      else
        var put := PublishRequest(baseUrl, headers, name.value);
        var ex := Perform(respond, start, put.url);
        Traffic(Repeat(put, ex.attempts), ex.attempts - 1)
  }

  /** The reference behaviour of `create_post` on the wire: the create call, then what
    * `PublishTraffic` says follows it. */
  function CreatePostTraffic(respond: nat -> Outcome, start: nat, baseUrl: string, headers: Headers,
                             payload: Json, publish: bool): Traffic
  {
    var post := CreateRequest(baseUrl, headers, payload);
    var ex := Perform(respond, start, post.url);
    var rest := PublishTraffic(respond, start + ex.attempts, baseUrl, headers, ex.result, publish);
    Traffic(Repeat(post, ex.attempts) + rest.sent, ex.attempts - 1 + rest.waits)
  }

  /** The second half of `create_post`: read the post name from the create result and, when
    * asked, publish the post under it. */
  method PublishCreated(http: BaseHttpClient, created: Result<Json, RequestError>, publish: bool)
    requires http.Valid()
    modifies http
    ensures http.Valid() && http.headers == old(http.headers) && (old(http.live).Some? ==> http.live.Some?)
    ensures var t := PublishTraffic(http.respond, |old(http.sent)|, http.baseUrl, http.headers, created, publish);
      && http.sent == old(http.sent) + t.sent
      && http.sleptSeconds == old(http.sleptSeconds) + RetryDelaySeconds * t.waits
  {
    if created.Ok? {
      var name := PostNameOf(created.value);
      if name.Some? && publish {
        var _ := http.Put(PublishPath(name.value), None, Some(PublishParams()), None);
      }
    }
  }

  /** The remote calls of `create_post` once authenticated: create, then publish if asked. */
  method CreateAndPublish(http: BaseHttpClient, payload: Json, publish: bool)
    requires http.Valid()
    modifies http
    ensures http.Valid() && http.live.Some? && http.headers == old(http.headers)
    ensures var t := CreatePostTraffic(http.respond, |old(http.sent)|, http.baseUrl, http.headers, payload, publish);
      && http.sent == old(http.sent) + t.sent
      && http.sleptSeconds == old(http.sleptSeconds) + RetryDelaySeconds * t.waits
  {
    ghost var sent0 := http.sent;
    ghost var post := CreateRequest(http.baseUrl, http.headers, payload);
    ghost var ex := Perform(http.respond, |sent0|, post.url);
    var result := http.Post(PostsPath, Some(payload), None, None, None, None);
    ghost var sent1 := http.sent;
    assert sent1 == sent0 + Repeat(post, ex.attempts) && result == ex.result;
    ghost var rest := PublishTraffic(http.respond, |sent1|, http.baseUrl, http.headers, result, publish);
    PublishCreated(http, result, publish);
    assert CreatePostTraffic(http.respond, |sent0|, http.baseUrl, http.headers, payload, publish)
      == Traffic(Repeat(post, ex.attempts) + rest.sent, ex.attempts - 1 + rest.waits);
    assert http.sent == sent0 + (Repeat(post, ex.attempts) + rest.sent);
  }

  /** `create_post(client, args)`: authenticates if needed, creates the post, publishes it when
    * asked; every failure is caught, so it never fails and returns nothing. */
  method CreatePost(client: HaloClient, args: PostArgs, now: DateTime, rd: Renderers)
    requires client.Valid()
    modifies client, client.http
    ensures client.Valid() && client.http.live.Some?
    ensures client.View() == BearerAuth.EnsureAuthenticated(old(client.View()), client.config.apiKey)
    ensures var t := CreatePostTraffic(client.http.respond, |old(client.http.sent)|, client.http.baseUrl,
                                       client.http.headers, PostPayload(args, now, rd),
                                       args.publishImmediately.GetOr(false));
      && client.http.sent == old(client.http.sent) + t.sent
      && client.http.sleptSeconds == old(client.http.sleptSeconds) + RetryDelaySeconds * t.waits
  {
    var payload := PostPayload(args, now, rd);
    client.EnsureAuthenticated();
    CreateAndPublish(client.http, payload, args.publishImmediately.GetOr(false));
    // The source logs whatever failed above and returns None.
  }

  /** A create call that fails, whatever the reason, is followed by no publish call. */
  lemma FailedCreateIsNotPublished(respond: nat -> Outcome, start: nat, baseUrl: string, headers: Headers,
                                   payload: Json, publish: bool)
    requires Perform(respond, start, TargetUrl(baseUrl, PostsPath)).result.Err?
    ensures var t := CreatePostTraffic(respond, start, baseUrl, headers, payload, publish);
      forall i :: 0 <= i < |t.sent| ==> t.sent[i] == CreateRequest(baseUrl, headers, payload)
  {
  }

  /** Without `publish_immediately` nothing but the create call is sent, however it ends. */
  lemma NoPublishUnlessAsked(respond: nat -> Outcome, start: nat, baseUrl: string, headers: Headers,
                             payload: Json)
    ensures var t := CreatePostTraffic(respond, start, baseUrl, headers, payload, false);
      && |t.sent| == Perform(respond, start, TargetUrl(baseUrl, PostsPath)).attempts
      && forall i :: 0 <= i < |t.sent| ==> t.sent[i].verb == "POST" && t.sent[i].json == Some(payload)
  {
  }

  /** Asked to publish, the create attempts come first; a create call that ends with a readable
    * post name is followed by publish calls for that name only (a PUT with `async=true`), and
    * one that fails or yields no readable name is followed by nothing. */
  lemma CreateThenPublish(respond: nat -> Outcome, start: nat, baseUrl: string, headers: Headers,
                          payload: Json)
    ensures var ex := Perform(respond, start, TargetUrl(baseUrl, PostsPath));
      var post := CreateRequest(baseUrl, headers, payload);
      var t := CreatePostTraffic(respond, start, baseUrl, headers, payload, true);
      && |t.sent| >= ex.attempts && t.sent[..ex.attempts] == Repeat(post, ex.attempts)
      && (ex.result.Ok? && PostNameOf(ex.result.value).Some? ==>
            var put := PublishRequest(baseUrl, headers, PostNameOf(ex.result.value).value);
            && |t.sent| > ex.attempts
            && (forall i :: ex.attempts <= i < |t.sent| ==> t.sent[i] == put)
            && put.verb == "PUT"
            && put.url == TargetUrl(baseUrl, PostsPath + "/" + PostNameOf(ex.result.value).value + "/publish")
            && put.params == Some(map["async" := JStr("true")]))
      && (ex.result.Err? || PostNameOf(ex.result.value).None? ==> t.sent == Repeat(post, ex.attempts))
  {
    var ex := Perform(respond, start, TargetUrl(baseUrl, PostsPath));
    var post := CreateRequest(baseUrl, headers, payload);
    var rest := PublishTraffic(respond, start + ex.attempts, baseUrl, headers, ex.result, true);
    var t := CreatePostTraffic(respond, start, baseUrl, headers, payload, true);
    assert t.sent == Repeat(post, ex.attempts) + rest.sent;
    assert t.sent[..ex.attempts] == Repeat(post, ex.attempts);
    if ex.result.Ok? && PostNameOf(ex.result.value).Some? {
      var put := PublishRequest(baseUrl, headers, PostNameOf(ex.result.value).value);
      forall i | ex.attempts <= i < |t.sent| ensures t.sent[i] == put {
        assert t.sent[i] == rest.sent[i - ex.attempts];
      }
    }
  }

  /** One `create_post` makes between one and eight transport calls (up to four for the create,
    * up to four for the publish) and waits at most six times. */
  lemma CreatePostTrafficBounds(respond: nat -> Outcome, start: nat, baseUrl: string, headers: Headers,
                                payload: Json, publish: bool)
    ensures var t := CreatePostTraffic(respond, start, baseUrl, headers, payload, publish);
      1 <= |t.sent| <= 2 * MaxAttempts && t.waits <= 2 * MaxRetries
  {
  }

  // ---- documents and the sync run ----

  /** A knowledge document, with only the fields the sync uses (models/document.py). */
  datatype Document = Document(title: string, content: string, docFrom: Option<string>,
                               pushStatus: Option<int>, pushTime: Option<DateTime>)

  const WebMemo := "web_memo"

  /** `filter_by(push_status=0, doc_from='web_memo')`; a NULL column matches nothing. */
  predicate Selectable(d: Document) {
    d.pushStatus == Some(0) && d.docFrom == Some(WebMemo)
  }

  /** The positions of the selectable documents from `from` on, in the order of the stored
    * sequence, which the model takes as the order the query returns. */
  function Selected(docs: seq<Document>, from: nat): (r: seq<nat>)
    requires from <= |docs|
    ensures forall i :: i in r <==> from <= i < |docs| && Selectable(docs[i])
    ensures forall j :: 0 <= j < |r| ==> from <= r[j] < |docs|
    decreases |docs| - from
  {
    if from == |docs| then []
    else (if Selectable(docs[from]) then [from] else []) + Selected(docs, from + 1)
  }

  /** The selected positions follow the order of the stored sequence, each once. */
  lemma {:induction false} SelectedIncreasing(docs: seq<Document>, from: nat)
    requires from <= |docs|
    ensures forall a, b :: 0 <= a < b < |Selected(docs, from)| ==> Selected(docs, from)[a] < Selected(docs, from)[b]
    decreases |docs| - from
  {
    if from < |docs| {
      SelectedIncreasing(docs, from + 1);
      var rest := Selected(docs, from + 1);
      if !Selectable(docs[from]) {
        assert Selected(docs, from) == rest;
      } else {
        assert Selected(docs, from) == [from] + rest;
        forall k | 0 <= k < |rest| ensures rest[k] > from {
          assert rest[k] in rest;
        }
      }
    }
  }

  /** Nothing is selected exactly when no document from `from` on is selectable. */
  lemma {:induction false} SelectedEmptyIff(docs: seq<Document>, from: nat)
    requires from <= |docs|
    ensures Selected(docs, from) == [] <==> forall i :: from <= i < |docs| ==> !Selectable(docs[i])
    decreases |docs| - from
  {
    if from < |docs| {
      SelectedEmptyIff(docs, from + 1);
    }
  }

  /** An empty title becomes the first 20 characters of the body. */
  function DefaultTitle(title: string, content: string): string {
    if |title| == 0 then Take(content, 20) else title
  }

  lemma DefaultTitleShape(title: string, content: string)
    ensures title != "" ==> DefaultTitle(title, content) == title
    ensures title == "" ==>
      var t := DefaultTitle(title, content);
      t == content[..|t|] && |t| == (if |content| < 20 then |content| else 20)
  {
  }

  /** Twenty characters, so without the trailing space. */
  lemma DefaultTitleExample()
    ensures DefaultTitle("", "Hello world, this is a test memo") == "Hello world, this is"
  {
    assert "Hello world, this is a test memo"[..20] == "Hello world, this is";
  }

  /** The arguments `sync_blogs` passes to `create_post`. */
  function SyncArgs(title: string, content: string): PostArgs {
    PostArgs(title, content, Some("MARKDOWN"), None, None, None, None, None, None, Some([]), Some([]), Some(true))
  }

  /** The traffic of posting one document as `sync_blogs` does, from transport call `start` on. */
  function DocTraffic(respond: nat -> Outcome, start: nat, baseUrl: string, headers: Headers,
                      d: Document, now: DateTime, rd: Renderers): Traffic
  {
    CreatePostTraffic(respond, start, baseUrl, headers,
                      PostPayload(SyncArgs(DefaultTitle(d.title, d.content), d.content), now, rd), true)
  }

  /** `DocTraffic` as the per-document traffic of a run with fixed transport, headers, clock and
    * renderers. */
  function SyncTraffic(respond: nat -> Outcome, baseUrl: string, headers: Headers, now: DateTime,
                       rd: Renderers): (nat, Document) -> Traffic
  {
    (s: nat, d: Document) => DocTraffic(respond, s, baseUrl, headers, d, now, rd)
  }

  /** The reference traffic of a run over the selected positions `sel`, when the document `d`
    * posted from transport call `s` on makes the traffic `f(s, d)`: one post per document, in
    * the order of `sel`, each starting where the previous one stopped. */
  function RunTraffic(f: (nat, Document) -> Traffic, start: nat, docs: seq<Document>, sel: seq<nat>): Traffic
    requires forall j :: 0 <= j < |sel| ==> sel[j] < |docs|
  {
    if sel == [] then Traffic([], 0)
    else
      var prev := RunTraffic(f, start, docs, sel[..|sel| - 1]);
      var t := f(start + |prev.sent|, docs[sel[|sel| - 1]]);
      Traffic(prev.sent + t.sent, prev.waits + t.waits)
  }

  /** Extending the selection by its next position appends that document's traffic. */
  lemma {:induction false} RunTrafficStep(f: (nat, Document) -> Traffic, start: nat, docs: seq<Document>, sel: seq<nat>, i: nat)
    requires i < |sel| && forall j :: 0 <= j < |sel| ==> sel[j] < |docs|
    ensures var prev := RunTraffic(f, start, docs, sel[..i]);
      var t := f(start + |prev.sent|, docs[sel[i]]);
      RunTraffic(f, start, docs, sel[..i + 1]) == Traffic(prev.sent + t.sent, prev.waits + t.waits)
  {
    assert sel[..i + 1][..i] == sel[..i];
  }

  /** One turn of the loop of `sync_blogs`: if the traffic so far (`pre`, `preSlept`) is that of
    * the first `i` selected documents and the turn adds the next document's traffic, the traffic
    * (`cur`, `curSlept`) is that of the first `i + 1`. */
  lemma {:induction false} PostStep(f: (nat, Document) -> Traffic, docs: seq<Document>, sel: seq<nat>, i: nat,
                 sent0: seq<WireRequest>, slept0: nat, pre: seq<WireRequest>, preSlept: nat,
                 cur: seq<WireRequest>, curSlept: nat)
    requires i < |sel| && forall j :: 0 <= j < |sel| ==> sel[j] < |docs|
    requires var prev := RunTraffic(f, |sent0|, docs, sel[..i]);
      pre == sent0 + prev.sent && preSlept == slept0 + RetryDelaySeconds * prev.waits
    requires var t := f(|pre|, docs[sel[i]]);
      cur == pre + t.sent && curSlept == preSlept + RetryDelaySeconds * t.waits
    ensures var next := RunTraffic(f, |sent0|, docs, sel[..i + 1]);
      cur == sent0 + next.sent && curSlept == slept0 + RetryDelaySeconds * next.waits
  {
    RunTrafficStep(f, |sent0|, docs, sel, i);
    var prev := RunTraffic(f, |sent0|, docs, sel[..i]);
    var t := f(|pre|, docs[sel[i]]);
    assert cur == sent0 + (prev.sent + t.sent);
  }

  /** A run of n documents whose posts each make one to 2 * MaxAttempts transport calls makes n
    * to 2 * MaxAttempts * n calls and waits at most 2 * MaxRetries * n times. */
  lemma {:induction false} RunTrafficBounds(f: (nat, Document) -> Traffic, start: nat, docs: seq<Document>, sel: seq<nat>)
    requires forall j :: 0 <= j < |sel| ==> sel[j] < |docs|
    requires forall s: nat, d: Document :: 1 <= |f(s, d).sent| <= 2 * MaxAttempts && f(s, d).waits <= 2 * MaxRetries
    ensures var t := RunTraffic(f, start, docs, sel);
      |sel| <= |t.sent| <= 2 * MaxAttempts * |sel| && t.waits <= 2 * MaxRetries * |sel|
  {
    if sel != [] {
      RunTrafficBounds(f, start, docs, sel[..|sel| - 1]);
    }
  }

  /** Posting one document makes one to eight transport calls and waits at most six times. */
  lemma {:induction false} DocTrafficBounds(respond: nat -> Outcome, start: nat, baseUrl: string, headers: Headers,
                         d: Document, now: DateTime, rd: Renderers)
    ensures var t := DocTraffic(respond, start, baseUrl, headers, d, now, rd);
      1 <= |t.sent| <= 2 * MaxAttempts && t.waits <= 2 * MaxRetries
  {
    CreatePostTrafficBounds(respond, start, baseUrl, headers,
                            PostPayload(SyncArgs(DefaultTitle(d.title, d.content), d.content), now, rd), true);
  }

  /** A run of `sync_blogs` over n selected documents makes n to 8n transport calls and sleeps
    * at most 6n times. */
  lemma {:induction false} SyncTrafficBounds(respond: nat -> Outcome, start: nat, baseUrl: string, headers: Headers,
                          docs: seq<Document>, sel: seq<nat>, now: DateTime, rd: Renderers)
    requires forall j :: 0 <= j < |sel| ==> sel[j] < |docs|
    ensures var t := RunTraffic(SyncTraffic(respond, baseUrl, headers, now, rd), start, docs, sel);
      |sel| <= |t.sent| <= 8 * |sel| && t.waits <= 6 * |sel|
  {
    var f := SyncTraffic(respond, baseUrl, headers, now, rd);
    forall s: nat, d: Document
      ensures 1 <= |f(s, d).sent| <= 2 * MaxAttempts && f(s, d).waits <= 2 * MaxRetries
    {
      DocTrafficBounds(respond, s, baseUrl, headers, d, now, rd);
    }
    RunTrafficBounds(f, start, docs, sel);
  }

  /** A second run right after a successful one sends nothing: no document is selectable. */
  lemma {:induction false} SecondRunSendsNothing(f: (nat, Document) -> Traffic, start: nat, docs: seq<Document>, now: DateTime)
    ensures var after := SyncedStore(docs, now);
      RunTraffic(f, start, after, Selected(after, 0)) == Traffic([], 0)
  {
    SyncLeavesNothingPending(docs, now);
  }

  /** A processed document: defaulted title, status 1 and the push time. */
  function MarkSynced(d: Document, now: DateTime): Document {
    d.(title := DefaultTitle(d.title, d.content), pushStatus := Some(1), pushTime := Some(now))
  }

  /** The reference outcome of a committed run: every selectable document is marked synced,
    * whatever the remote calls did; the others are untouched. */
  function SyncedStore(docs: seq<Document>, now: DateTime): (r: seq<Document>)
    ensures |r| == |docs|
  {
    seq(|docs|, i requires 0 <= i < |docs| => if Selectable(docs[i]) then MarkSynced(docs[i], now) else docs[i])
  }

  /** The reference of what the loop of `sync_blogs` stages over the positions `sel`: the marked
    * copy of each selected document, keyed by its position. */
  function StagedMarks(docs: seq<Document>, sel: seq<nat>, now: DateTime): map<nat, Document>
    requires forall j :: 0 <= j < |sel| ==> sel[j] < |docs|
  {
    if sel == [] then map[]
    else StagedMarks(docs, sel[..|sel| - 1], now)[sel[|sel| - 1] := MarkSynced(docs[sel[|sel| - 1]], now)]
  }

  /** Extending the selection by its next position stages that document's marked copy. */
  lemma {:induction false} StagedMarksStep(docs: seq<Document>, sel: seq<nat>, i: nat, now: DateTime)
    requires i < |sel| && forall j :: 0 <= j < |sel| ==> sel[j] < |docs|
    ensures StagedMarks(docs, sel[..i + 1], now) == StagedMarks(docs, sel[..i], now)[sel[i] := MarkSynced(docs[sel[i]], now)]
  {
    assert sel[..i + 1][..i] == sel[..i];
  }

  /** Exactly the selected positions are staged, each with its document's marked copy. */
  lemma {:induction false} StagedMarksContents(docs: seq<Document>, sel: seq<nat>, now: DateTime)
    requires forall j :: 0 <= j < |sel| ==> sel[j] < |docs|
    ensures forall k :: k in StagedMarks(docs, sel, now) <==> k in sel
    ensures forall k :: k in StagedMarks(docs, sel, now) ==> k < |docs| && StagedMarks(docs, sel, now)[k] == MarkSynced(docs[k], now)
  {
    if sel != [] {
      var init := sel[..|sel| - 1];
      StagedMarksContents(docs, init, now);
      assert sel == init + [sel[|sel| - 1]];
    }
  }

  /** The documents with `staged` written over them, as a commit does. */
  function Apply(docs: seq<Document>, staged: map<nat, Document>): (r: seq<Document>)
    ensures |r| == |docs|
  {
    seq(|docs|, i requires 0 <= i < |docs| => if i in staged then staged[i] else docs[i])
  }

  /** The database session: what is committed, what has been added since, and whether the store
    * fails the query or the commit. */
  class Session {
    var committed: seq<Document>
    var staged: map<nat, Document>
    const queryFails: bool
    const commitFails: bool

    constructor (docs: seq<Document>, failQuery: bool, failCommit: bool)
      ensures committed == docs && staged == map[]
      ensures queryFails == failQuery && commitFails == failCommit
    {
      committed := docs;
      staged := map[];
      queryFails := failQuery;
      commitFails := failCommit;
    }

    /** `query(KnowledgeDocument).filter_by(push_status=0, doc_from='web_memo').all()`. */
    method QueryPending() returns (r: Option<seq<nat>>)
      ensures r.None? <==> queryFails
      ensures r.Some? ==> r.value == Selected(committed, 0)
      ensures r.Some? ==> forall i :: i in r.value <==> 0 <= i < |committed| && Selectable(committed[i])
      ensures r.Some? ==> forall a, b :: 0 <= a < b < |r.value| ==> r.value[a] < r.value[b]
    {
      if queryFails {
        r := None;
      } else {
        SelectedIncreasing(committed, 0);
        r := Some(Selected(committed, 0));
      }
    }

    /** `session.add(blog)` for a changed document. */
    method Add(i: nat, d: Document)
      requires i < |committed|
      modifies this
      ensures staged == old(staged)[i := d] && committed == old(committed)
    {
      staged := staged[i := d];
    }

    method Commit() returns (ok: bool)
      modifies this
      ensures ok == !commitFails
      ensures ok ==> committed == Apply(old(committed), old(staged)) && staged == map[]
      ensures !ok ==> committed == old(committed) && staged == old(staged)
    {
      if commitFails {
        ok := false;
      } else {
        committed := Apply(committed, staged);
        staged := map[];
        ok := true;
      }
    }

    method Rollback()
      modifies this
      ensures committed == old(committed) && staged == map[]
    {
      staged := map[];
    }
  }

  /** Committing the marked copies of exactly the selectable documents gives the synced store. */
  lemma CommitMarkedIsSynced(docs: seq<Document>, staged: map<nat, Document>, now: DateTime)
    requires forall k: nat :: k in staged <==> k < |docs| && Selectable(docs[k])
    requires forall k :: k in staged ==> k < |docs| && staged[k] == MarkSynced(docs[k], now)
    ensures Apply(docs, staged) == SyncedStore(docs, now)
  {
    var a, b := Apply(docs, staged), SyncedStore(docs, now);
    forall k | 0 <= k < |docs| ensures a[k] == b[k] {
      if Selectable(docs[k]) {
        assert k in staged;
      }
    }
  }

  /** One pass of the loop of `sync_blogs`: default the title, post the document (which never
    * fails), then stage it as synced. */
  method SyncOne(client: HaloClient, session: Session, idx: nat, now: DateTime, rd: Renderers)
    requires client.Valid() && idx < |session.committed|
    modifies client, client.http, session
    ensures client.Valid() && client.http.live.Some?
    ensures client.View() == BearerAuth.EnsureAuthenticated(old(client.View()), client.config.apiKey)
    ensures var t := DocTraffic(client.http.respond, |old(client.http.sent)|, client.http.baseUrl,
                                client.http.headers, old(session.committed)[idx], now, rd);
      && client.http.sent == old(client.http.sent) + t.sent
      && client.http.sleptSeconds == old(client.http.sleptSeconds) + RetryDelaySeconds * t.waits
    ensures session.committed == old(session.committed)
    ensures session.staged == old(session.staged)[idx := MarkSynced(old(session.committed)[idx], now)]
  {
    var blog := session.committed[idx];
    var title := blog.title;
    if |title| == 0 {
      title := Take(blog.content, 20);
    }
    CreatePost(client, SyncArgs(title, blog.content), now, rd);
    var updated := blog.(title := title, pushStatus := Some(1), pushTime := Some(now));
    session.Add(idx, updated);
  }

  /** The loop of `sync_blogs` over the selected positions `blogList`: each document is posted
    * and staged as synced, in order. `f` is the traffic of one post with the headers `h` that the
    * client has once authenticated. */
  method PostSelected(client: HaloClient, session: Session, blogList: seq<nat>, now: DateTime, rd: Renderers,
                      ghost f: (nat, Document) -> Traffic, ghost h: Headers)
    requires client.Valid() && session.staged == map[]
    requires forall j :: 0 <= j < |blogList| ==> blogList[j] < |session.committed|
    requires h == BearerAuth.EnsureAuthenticated(client.View(), client.config.apiKey).headers
    requires forall s: nat, d: Document {:trigger DocTraffic(client.http.respond, s, client.http.baseUrl, h, d, now, rd)} ::
      f(s, d) == DocTraffic(client.http.respond, s, client.http.baseUrl, h, d, now, rd)
    modifies client, client.http, session
    ensures client.Valid() && session.committed == old(session.committed)
    ensures client.View() ==
      if blogList == [] then old(client.View())
      else BearerAuth.EnsureAuthenticated(old(client.View()), client.config.apiKey)
    ensures blogList != [] ==> client.http.live == Some(LiveClient(client.http.baseUrl, client.http.timeout, client.http.headers))
    ensures blogList == [] ==> client.http.live == old(client.http.live)
    ensures var t := RunTraffic(f, |old(client.http.sent)|, old(session.committed), blogList);
      && client.http.sent == old(client.http.sent) + t.sent
      && client.http.sleptSeconds == old(client.http.sleptSeconds) + RetryDelaySeconds * t.waits
    ensures session.staged == StagedMarks(old(session.committed), blogList, now)
  {
    ghost var v1 := client.View();
    ghost var live0 := client.http.live;
    ghost var sent0 := client.http.sent;
    ghost var slept0 := client.http.sleptSeconds;
    ghost var docs := session.committed;
    var i := 0;
    while i < |blogList|
      invariant 0 <= i <= |blogList|
      invariant session.committed == docs && client.Valid()
      invariant client.View() == if i == 0 then v1 else BearerAuth.EnsureAuthenticated(v1, client.config.apiKey)
      invariant if i == 0 then client.http.live == live0 else client.http.live.Some?
      invariant var t := RunTraffic(f, |sent0|, docs, blogList[..i]);
        && client.http.sent == sent0 + t.sent
        && client.http.sleptSeconds == slept0 + RetryDelaySeconds * t.waits
      invariant session.staged == StagedMarks(docs, blogList[..i], now)
    {
      var idx := blogList[i];
      ghost var pre := client.http.sent;
      ghost var preSlept := client.http.sleptSeconds;
      EnsureAuthenticatedIdempotent(v1, client.config.apiKey);
      SyncOne(client, session, idx, now, rd);
      assert client.http.headers == h;
      assert f(|pre|, docs[idx]) == DocTraffic(client.http.respond, |pre|, client.http.baseUrl, h, docs[idx], now, rd);
      PostStep(f, docs, blogList, i, sent0, slept0, pre, preSlept, client.http.sent, client.http.sleptSeconds);
      StagedMarksStep(docs, blogList, i, now);
      i := i + 1;
    }
    assert blogList[..i] == blogList;
  }

  /** The `with get_db() as session` block of `sync_blogs`: queries the pending documents, posts
    * each one in the order of the stored sequence, and commits the marks once; a failed query
    * or commit is rolled back. */
  method SyncSession(client: HaloClient, session: Session, now: DateTime, rd: Renderers)
    requires client.Valid() && session.staged == map[]
    modifies client, client.http, session
    ensures client.Valid()
    ensures session.staged == map[]
    ensures session.committed ==
      if session.queryFails || session.commitFails then old(session.committed)
      else SyncedStore(old(session.committed), now)
    ensures var ran := !session.queryFails && Selected(old(session.committed), 0) != [];
      && client.View() == (if ran then BearerAuth.EnsureAuthenticated(old(client.View()), client.config.apiKey)
                           else old(client.View()))
      && client.http.live == (if ran then Some(LiveClient(client.http.baseUrl, client.http.timeout, client.http.headers))
                              else old(client.http.live))
    ensures var h := BearerAuth.EnsureAuthenticated(old(client.View()), client.config.apiKey).headers;
      var t := if session.queryFails then Traffic([], 0)
               else RunTraffic(SyncTraffic(client.http.respond, client.http.baseUrl, h, now, rd),
                               |old(client.http.sent)|, old(session.committed), Selected(old(session.committed), 0));
      && client.http.sent == old(client.http.sent) + t.sent
      && client.http.sleptSeconds == old(client.http.sleptSeconds) + RetryDelaySeconds * t.waits
  {
    var pending := session.QueryPending();
    if pending.None? {
      session.Rollback();
      return;
    }
    ghost var docs := session.committed;
    ghost var h := BearerAuth.EnsureAuthenticated(client.View(), client.config.apiKey).headers;
    ghost var f := SyncTraffic(client.http.respond, client.http.baseUrl, h, now, rd);
    PostSelected(client, session, pending.value, now, rd, f, h);
    StagedMarksContents(docs, pending.value, now);
    CommitMarkedIsSynced(docs, session.staged, now);
    var ok := session.Commit();
    if !ok {
      session.Rollback();
    }
  }

  /** `BlogSyncService.sync_blogs()`: gets the shared client (built and authenticated on first
    * use), then runs the session block with it. */
  method SyncBlogs(globals: HaloGlobals, session: Session, now: DateTime, rd: Renderers)
    requires globals.Valid() && session.staged == map[]
    modifies globals, session
    modifies if globals.haloClient != null then {globals.haloClient, globals.haloClient.http} else {}
    ensures globals.Valid() && globals.haloClient != null
    ensures old(globals.haloClient) != null ==> globals.haloClient == old(globals.haloClient)
    ensures old(globals.haloClient) == null ==>
      fresh(globals.haloClient) && fresh(globals.haloClient.http) && globals.haloClient.config == globals.config
    ensures var c := globals.haloClient;
      var existed := old(globals.haloClient) != null;
      var v1 := if existed then old(globals.haloClient.View())
                else BearerAuth.Authenticate(AuthView(false, DefaultHeaders()), globals.config.apiKey);
      var ran := !session.queryFails && Selected(old(session.committed), 0) != [];
      && c.View() == (if ran then BearerAuth.EnsureAuthenticated(v1, globals.config.apiKey) else v1)
      && (ran || !existed ==> c.http.live == Some(LiveClient(c.http.baseUrl, c.http.timeout, c.http.headers)))
      && (!ran && existed ==> c.http.live == old(globals.haloClient.http.live))
    ensures old(globals.haloClient) == null && globals.config.apiKey != "" ==>
      && globals.haloClient.authenticated
      && globals.haloClient.http.headers == DefaultHeaders()["Authorization" := BearerValue(globals.config.apiKey)]
    ensures session.staged == map[]
    ensures session.committed ==
      if session.queryFails || session.commitFails then old(session.committed)
      else SyncedStore(old(session.committed), now)
    ensures var c := globals.haloClient;
      var existed := old(globals.haloClient) != null;
      var v1 := if existed then old(globals.haloClient.View())
                else BearerAuth.Authenticate(AuthView(false, DefaultHeaders()), globals.config.apiKey);
      var sent0 := if existed then old(globals.haloClient.http.sent) else [];
      var slept0 := if existed then old(globals.haloClient.http.sleptSeconds) else 0;
      var h := BearerAuth.EnsureAuthenticated(v1, globals.config.apiKey).headers;
      var t := if session.queryFails then Traffic([], 0)
               else RunTraffic(SyncTraffic(c.http.respond, c.http.baseUrl, h, now, rd), |sent0|,
                               old(session.committed), Selected(old(session.committed), 0));
      && c.http.sent == sent0 + t.sent
      && c.http.sleptSeconds == slept0 + RetryDelaySeconds * t.waits
  {
    var client := globals.GetHaloClient();
    SyncSession(client, session, now, rd);
  }

  // ---- what a run leaves behind ----

  /** After a committed run nothing is selectable any more, so a second run selects nothing. */
  lemma SyncLeavesNothingPending(docs: seq<Document>, now: DateTime)
    ensures Selected(SyncedStore(docs, now), 0) == []
  {
    var r := SyncedStore(docs, now);
    forall i | 0 <= i < |r| ensures !Selectable(r[i]) {}
    SelectedEmptyIff(r, 0);
  }

  /** A second run right after the first changes nothing. */
  lemma SyncIdempotent(docs: seq<Document>, now: DateTime, later: DateTime)
    ensures SyncedStore(SyncedStore(docs, now), later) == SyncedStore(docs, now)
  {
  }

  /** Each selected document ends with status 1 and the run's time, its body and origin kept and
    * its title defaulted; every other document is left exactly as it was. */
  lemma SyncMarksExactlySelected(docs: seq<Document>, now: DateTime, i: nat)
    requires i < |docs|
    ensures var r := SyncedStore(docs, now)[i];
      && (Selectable(docs[i]) ==>
            r.pushStatus == Some(1) && r.pushTime == Some(now) && r.content == docs[i].content
            && r.docFrom == docs[i].docFrom && r.title == DefaultTitle(docs[i].title, docs[i].content))
      && (!Selectable(docs[i]) ==> r == docs[i])
  {
  }

  /** Status 1 always comes with a push time and status 0 never does. */
  ghost predicate PushTimeConsistent(docs: seq<Document>) {
    forall i :: 0 <= i < |docs| ==>
      (docs[i].pushStatus == Some(1) ==> docs[i].pushTime.Some?)
      && (docs[i].pushStatus == Some(0) ==> docs[i].pushTime.None?)
  }

  /** A run keeps the push-time invariant and never moves a document back from status 1. */
  lemma SyncKeepsPushInvariant(docs: seq<Document>, now: DateTime)
    ensures PushTimeConsistent(docs) ==> PushTimeConsistent(SyncedStore(docs, now))
    ensures forall i :: 0 <= i < |docs| && docs[i].pushStatus == Some(1) ==>
      SyncedStore(docs, now)[i].pushStatus == Some(1)
  {
  }
}
