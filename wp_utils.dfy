/** The WordPress REST client: the Basic authorization header, and the shape of the requests and
    the reading of the responses for posts, media uploads, post listings and categories.
    The HTTP exchange itself is an input: each operation receives the reply the server would give. */
module WordPress {
  import opened Wrappers
  import opened Bytes
  import opened Calls
  import opened Text
  import Base64
  import Utf8

  /** Python truthiness of an environment variable read with `os.getenv`: unset or empty is false. */
  predicate Present(v: Option<string>) {
    v.Some? && v.value != ""
  }

  const MissingCredentials := "credentials.env 파일에 WP_USER 또는 WP_PASSWORD가 없습니다."

  /** The token of section 2 of RFC 7617: base64 of the UTF-8 bytes of `user:password`. */
  function Token(user: string, password: string): string {
    Base64.Encode(Utf8.Encode(user + ":" + password))
  }

  /** `get_auth_header()`: a `ValueError` when either credential is unset or empty; otherwise a
      header map with exactly `Authorization: Basic <token>` and `Content-Type: application/json`. */
  function AuthHeader(user: Option<string>, password: Option<string>): (r: Call<map<string, string>>)
    ensures r.Raises? <==> !Present(user) || !Present(password)
    ensures r.Raises? ==> r.message == MissingCredentials
    ensures r.Returns? ==> r.value.Keys == {"Authorization", "Content-Type"}
    ensures r.Returns? ==> r.value["Content-Type"] == "application/json"
    ensures r.Returns? ==> r.value["Authorization"] == "Basic " + Token(user.value, password.value)
  {
    if !Present(user) || !Present(password) then Raises(MissingCredentials)
    else Returns(map["Authorization" := "Basic " + Token(user.value, password.value),
                     "Content-Type" := "application/json"])
  }

  /** A server reading the header gets the credential back: the text after `Basic ` is valid base64,
      its bytes are valid UTF-8 of `user:password`, and when the user name has no `:` the split at the
      first `:` (section 2 of RFC 7617) yields the user name and the password. */
  lemma AuthHeaderRoundTrip(user: string, password: string)
    requires user != "" && password != ""
    ensures var h := AuthHeader(Some(user), Some(password)).value["Authorization"];
      StartsWith(h, "Basic ") &&
      Base64.Decode(h[6..]) == Some(Utf8.Encode(user + ":" + password)) &&
      Utf8.Decode(Utf8.Encode(user + ":" + password)) == Some(user + ":" + password)
    ensures ':' !in user ==>
      var fields := Split(user + ":" + password, ':');
      fields[0] == user && Join(fields[1..], ":") == password
  {
    var h := AuthHeader(Some(user), Some(password)).value["Authorization"];
    assert h[6..] == Token(user, password);
    Base64.DecodeEncode(Utf8.Encode(user + ":" + password));
    Utf8.DecodeEncode(user + ":" + password);
    if ':' !in user {
      assert user + ":" + password == user + [':'] + password;
      SplitAtFirst(user, password, ':');
      JoinSplit(password, ':');
      assert Split(user + ":" + password, ':')[1..] == Split(password, ':');
    }
  }

  // ---------------------------------------------------------------------------
  // post_article

  /** What the caller passes as `featured_media`: nothing, an `int`, or a `str`. */
  datatype MediaArg = NoMedia | MediaInt(n: int) | MediaText(t: string)

  /** JSON values that occur in the request bodies. */
  datatype Value = Str(s: string) | Int(i: int) | Ints(xs: seq<int>)

  /** `int(featured_media)` when `featured_media` is truthy; `None` when it is falsy or `int` raises. */
  function MediaId(m: MediaArg): (r: Option<int>)
    ensures m.NoMedia? ==> r.None?
    ensures m.MediaInt? ==> (r.Some? <==> m.n != 0) && (r.Some? ==> r.value == m.n)
    ensures m.MediaText? && m.t == "" ==> r.None?
    ensures m.MediaText? && m.t != "" ==> r == ParseInt(m.t)
  {
    match m
    case NoMedia => None
    case MediaInt(n) => if n != 0 then Some(n) else None
    case MediaText(t) => if t != "" then ParseInt(t) else None
  }

  /** The JSON body of the post request. */
  function PostPayload(title: string, content: string, categories: seq<int>, media: MediaArg): (r: map<string, Value>)
    ensures "title" in r && r["title"] == Str(title)
    ensures "content" in r && r["content"] == Str(content)
    ensures "status" in r && r["status"] == Str("publish")
    ensures "categories" in r <==> |categories| > 0
    ensures "categories" in r ==> r["categories"] == Ints(categories)
    ensures "featured_media" in r <==> MediaId(media).Some? && MediaId(media).value > 0
    ensures "featured_media" in r ==> r["featured_media"] == Int(MediaId(media).value)
    ensures r.Keys <= {"title", "content", "status", "categories", "featured_media"}
  {
    var base := map["title" := Str(title), "content" := Str(content), "status" := Str("publish")];
    var withCategories := if |categories| > 0 then base["categories" := Ints(categories)] else base;
    var id := MediaId(media);
    if id.Some? && id.value > 0 then withCategories["featured_media" := Int(id.value)] else withCategories
  }

  /** A media string that is not an integer only warns: the post goes out without the field. */
  lemma InvalidMediaOnlyWarns(title: string, content: string, categories: seq<int>, t: string)
    requires t != "" && ParseInt(t).None?
    ensures PostPayload(title, content, categories, MediaText(t)).Keys
         == PostPayload(title, content, categories, NoMedia).Keys
  {
  }

  /** Digit groups joined by `_` are read as one number, so `featured_media="1_000"` sends 1000. */
  lemma GroupedMediaId(title: string, content: string, categories: seq<int>, a: string, b: string)
    requires |a| > 0 && AllDigits(a) && |b| > 0 && AllDigits(b) && DigitsValue(a + b) > 0
    ensures MediaId(MediaText(a + "_" + b)) == Some(DigitsValue(a + b))
    ensures PostPayload(title, content, categories, MediaText(a + "_" + b))["featured_media"] == Int(DigitsValue(a + b))
  {
    GroupedDigits(a, b);
  }

  datatype Request = Request(url: string, headers: map<string, string>, body: map<string, Value>)

  /** What `requests.post` gives back: a status code and the `link` of the JSON body (absent or not),
      or an exception (connection error, a body that is not JSON). */
  datatype PostReply = PostReply(status: int, link: Option<string>) | PostError

  datatype Exchange<T> = Exchange(sent: Option<Request>, result: Call<T>)

  /** `post_article(...)`: no request without `WP_URL`; the missing-credentials error escapes;
      otherwise one request to `<url>/wp-json/wp/v2/posts` and the link only on status 201. */
  function PostArticle(wpUrl: Option<string>, user: Option<string>, password: Option<string>,
                       title: string, content: string, categories: seq<int>, media: MediaArg,
                       reply: PostReply): (r: Exchange<Option<string>>)
    ensures !Present(wpUrl) ==> r == Exchange(None, Returns(None))
    ensures Present(wpUrl) && AuthHeader(user, password).Raises? ==> r.sent.None? && r.result.Raises?
    ensures r.sent.Some? <==> Present(wpUrl) && AuthHeader(user, password).Returns?
    ensures r.sent.Some? ==> r.sent.value == Request(wpUrl.value + "/wp-json/wp/v2/posts",
      AuthHeader(user, password).value, PostPayload(title, content, categories, media))
    ensures r.sent.Some? ==> r.result.Returns?
    ensures r.result.Returns? && r.result.value.Some? ==>
      reply.PostReply? && reply.status == 201 && reply.link == r.result.value
    ensures r.sent.Some? && reply.PostReply? && reply.status == 201 ==> r.result == Returns(reply.link)
  {
    if !Present(wpUrl) then Exchange(None, Returns(None))
    else
      match AuthHeader(user, password)
      case Raises(e) => Exchange(None, Raises(e))
      case Returns(headers) =>
        var request := Request(wpUrl.value + "/wp-json/wp/v2/posts", headers,
                               PostPayload(title, content, categories, media));
        var link := if reply.PostReply? && reply.status == 201 then reply.link else None;
        Exchange(Some(request), Returns(link))
  }

  // ---------------------------------------------------------------------------
  // upload_image_to_wordpress

  /** What the upload gives: the file cannot be opened, the request raises, or a status and the `id`. */
  datatype UploadReply = FileUnreadable | UploadError | UploadReply(status: int, id: Option<int>)

  /** The upload's headers: the JSON content type is dropped and the file name is announced;
      every other header is kept. */
  method UploadHeaders(auth: map<string, string>, imagePath: string) returns (headers: map<string, string>)
    ensures headers.Keys == auth.Keys - {"Content-Type"} + {"Content-Disposition"}
    ensures headers["Content-Disposition"] == "attachment; filename=" + Basename(imagePath)
    ensures forall k :: k in auth && k != "Content-Type" && k != "Content-Disposition" ==> headers[k] == auth[k]
  {
    headers := auth;
    if "Content-Type" in headers {
      headers := headers - {"Content-Type"};
    }
    var filename := Basename(imagePath);
    headers := headers["Content-Disposition" := "attachment; filename=" + filename];
  }

  /** `upload_image_to_wordpress(image_path)`: the media id only on status 201. The request is sent
      unless the file cannot be opened; the headers carry the authorization and the file name only. */
  method UploadImage(wpUrl: Option<string>, user: Option<string>, password: Option<string>,
                     imagePath: string, reply: UploadReply) returns (r: Exchange<Option<int>>)
    ensures !Present(wpUrl) ==> r == Exchange(None, Returns(None))
    ensures Present(wpUrl) && AuthHeader(user, password).Raises? ==> r.sent.None? && r.result.Raises?
    ensures r.sent.Some? <==> Present(wpUrl) && AuthHeader(user, password).Returns? && !reply.FileUnreadable?
    ensures r.sent.Some? ==> r.sent.value.url == wpUrl.value + "/wp-json/wp/v2/media"
    ensures r.sent.Some? ==> r.sent.value.headers.Keys == {"Authorization", "Content-Disposition"}
    ensures r.sent.Some? ==> r.sent.value.headers["Authorization"] == "Basic " + Token(user.value, password.value)
    ensures r.sent.Some? ==> r.sent.value.headers["Content-Disposition"] == "attachment; filename=" + Basename(imagePath)
    ensures Present(wpUrl) && AuthHeader(user, password).Returns? ==> r.result.Returns?
    ensures r.result.Returns? && r.result.value.Some? ==>
      reply.UploadReply? && reply.status == 201 && reply.id == r.result.value
    ensures r.sent.Some? && reply.UploadReply? && reply.status == 201 ==> r.result == Returns(reply.id)
  {
    if !Present(wpUrl) {
      return Exchange(None, Returns(None));
    }
    var auth := AuthHeader(user, password);
    if auth.Raises? {
      return Exchange(None, Raises(auth.message));
    }
    var headers := UploadHeaders(auth.value, imagePath);
    if reply.FileUnreadable? {
      return Exchange(None, Returns(None));
    }
    var request := Request(wpUrl.value + "/wp-json/wp/v2/media", headers, map[]);
    var id := if reply.UploadReply? && reply.status == 201 then reply.id else None;
    r := Exchange(Some(request), Returns(id));
  }

  // ---------------------------------------------------------------------------
  // get_recent_posts

  /** The `title` member of a listed post: absent, an object with or without `rendered`, or some
      other JSON value (on which `.get` raises). */
  datatype TitleField = NoTitle | TitleObject(rendered: Option<string>) | TitleOther

  datatype PostJson = PostJson(id: Option<int>, title: TitleField, date: Option<string>, link: Option<string>)

  datatype ListReply = ListReply(status: int, posts: seq<PostJson>) | ListError

  datatype RecentPost = RecentPost(id: Option<int>, title: string, date: Option<string>, link: Option<string>)

  const NoTitleText := "제목 없음"

  /** The summary of one listed post, or `None` when reading its title raises. */
  function Summary(p: PostJson): (r: Option<RecentPost>)
    ensures r.None? <==> p.title.TitleOther?
    ensures r.Some? ==> r.value.id == p.id && r.value.date == p.date && r.value.link == p.link
    ensures r.Some? && (p.title.NoTitle? || p.title.rendered.None?) ==> r.value.title == NoTitleText
    ensures r.Some? && p.title.TitleObject? && p.title.rendered.Some? ==> r.value.title == p.title.rendered.value
  {
    match p.title
    case TitleOther => None
    case NoTitle => Some(RecentPost(p.id, NoTitleText, p.date, p.link))
    case TitleObject(rendered) => Some(RecentPost(p.id, rendered.GetOr(NoTitleText), p.date, p.link))
  }

  /** The list of summaries, or `None` when any post's title raises. */
  function Summaries(posts: seq<PostJson>): (r: Option<seq<RecentPost>>)
    ensures r.Some? <==> forall i :: 0 <= i < |posts| ==> Summary(posts[i]).Some?
    ensures r.Some? ==> |r.value| == |posts| && forall i :: 0 <= i < |posts| ==> Some(r.value[i]) == Summary(posts[i])
  {
    if |posts| == 0 then Some([])
    else
      match (Summary(posts[0]), Summaries(posts[1..]))
      case (Some(s), Some(rest)) => Some([s] + rest)
      case _ => None
  }

  lemma {:induction false} SummariesAppend(posts: seq<PostJson>, p: PostJson)
    requires Summaries(posts).Some? && Summary(p).Some?
    ensures Summaries(posts + [p]) == Some(Summaries(posts).value + [Summary(p).value])
  {
    if |posts| == 0 {
      assert posts + [p] == [p];
      assert [p][1..] == [];
      assert Summaries([p]) == Some([Summary(p).value] + []);
      assert [Summary(p).value] + [] == Summaries(posts).value + [Summary(p).value];
    } else {
      assert (posts + [p])[0] == posts[0];
      assert (posts + [p])[1..] == posts[1..] + [p];
      var first := Summary(posts[0]).value;
      var rest := Summaries(posts[1..]).value;
      assert Summaries(posts).value == [first] + rest;
      SummariesAppend(posts[1..], p);
      assert Summaries(posts + [p]) == Some([first] + (rest + [Summary(p).value]));
      assert [first] + (rest + [Summary(p).value]) == ([first] + rest) + [Summary(p).value];
    }
  }

  /** A `requests.get` call: the URL, the headers and the query parameters. */
  datatype Query = Query(url: string, headers: map<string, string>, params: map<string, Value>)

  /** The query parameters of the post listing: the newest `limit` published posts first. */
  function ListParams(limit: int): map<string, Value> {
    map["per_page" := Int(limit), "status" := Str("publish"), "orderby" := Str("date"), "order" := Str("desc")]
  }

  /** `get_recent_posts(limit)`: `[]` without `WP_URL`, on a status other than 200, on a request error
      or when a post's title cannot be read; otherwise one summary per listed post, in order. The
      request it sends, if any, is `sent`. */
  method GetRecentPosts(wpUrl: Option<string>, user: Option<string>, password: Option<string>,
                        limit: int, reply: ListReply) returns (r: Call<seq<RecentPost>>, sent: Option<Query>)
    ensures !Present(wpUrl) ==> r == Returns([])
    ensures sent.Some? <==> Present(wpUrl) && AuthHeader(user, password).Returns?
    ensures sent.Some? ==> sent.value == Query(wpUrl.value + "/wp-json/wp/v2/posts",
      AuthHeader(user, password).value, ListParams(limit))
    ensures Present(wpUrl) ==> (r.Raises? <==> AuthHeader(user, password).Raises?)
    ensures r.Returns? && r.value != [] ==>
      reply.ListReply? && reply.status == 200 && Summaries(reply.posts) == Some(r.value)
    ensures r.Returns? && Present(wpUrl) && reply.ListReply? && reply.status == 200 && Summaries(reply.posts).Some? ==>
      r.value == Summaries(reply.posts).value
  {
    if !Present(wpUrl) {
      return Returns([]), None;
    }
    var auth := AuthHeader(user, password);
    if auth.Raises? {
      return Raises(auth.message), None;
    }
    sent := Some(Query(wpUrl.value + "/wp-json/wp/v2/posts", auth.value, ListParams(limit)));
    if reply.ListError? || reply.status != 200 {
      return Returns([]), sent;
    }
    var results: seq<RecentPost> := [];
    var k := 0;
    while k < |reply.posts|
      invariant 0 <= k <= |reply.posts|
      invariant Summaries(reply.posts[..k]) == Some(results)
    {
      var p := reply.posts[k];
      var s := Summary(p);
      if s.None? {
        assert Summaries(reply.posts).None? by {
          assert !(Summary(reply.posts[k]).Some?);
        }
        return Returns([]), sent;
      }
      SummariesAppend(reply.posts[..k], p);
      assert reply.posts[..k + 1] == reply.posts[..k] + [p];
      results := results + [s.value];
      k := k + 1;
    }
    assert reply.posts[..k] == reply.posts;
    r := Returns(results);
  }

  // ---------------------------------------------------------------------------
  // ensure_category

  /** One search result: `cat['name']` and `cat['id']`, each possibly missing (a `KeyError`). */
  datatype CategoryJson = CategoryJson(name: Option<string>, id: Option<int>)

  datatype SearchReply = SearchReply(status: int, categories: seq<CategoryJson>) | SearchError

  datatype CreateReply = CreateReply(status: int, id: Option<int>) | CreateError

  /** The result matches the wanted name, compared with both sides lower-cased. */
  predicate NameMatches(c: CategoryJson, name: string)
    requires c.name.Some?
  {
    Lower(c.name.value) == Lower(name)
  }

  /** Result `i` is the first whose name matches, and every earlier result has a name. */
  predicate FirstMatchAt(cats: seq<CategoryJson>, name: string, i: int) {
    0 <= i < |cats| && cats[i].name.Some? && NameMatches(cats[i], name)
    && forall j :: 0 <= j < i ==> cats[j].name.Some? && !NameMatches(cats[j], name)
  }

  /** The search loop: the id of the first result whose name matches, or `None` when no result
      matches or reading a result raises before a match is found. */
  function FirstMatch(cats: seq<CategoryJson>, name: string): (r: Option<int>)
  {
    if |cats| == 0 || cats[0].name.None? then None
    else if NameMatches(cats[0], name) then cats[0].id
    else FirstMatch(cats[1..], name)
  }

  /** The search loop returns an id exactly when there is a first match and it has an id, and then it
      is that result's id. */
  lemma {:induction false} FirstMatchIsFirst(cats: seq<CategoryJson>, name: string)
    ensures FirstMatch(cats, name).Some? <==>
      exists i :: FirstMatchAt(cats, name, i) && cats[i].id.Some?
    ensures forall i :: FirstMatchAt(cats, name, i) ==> FirstMatch(cats, name) == cats[i].id
  {
    if |cats| == 0 {
    } else if cats[0].name.None? {
      forall i | 0 < i < |cats| ensures !FirstMatchAt(cats, name, i) {
        assert cats[0].name.None?;
      }
    } else if NameMatches(cats[0], name) {
      assert FirstMatchAt(cats, name, 0);
    } else {
      var tail := cats[1..];
      FirstMatchIsFirst(tail, name);
      forall i | FirstMatchAt(cats, name, i) ensures i > 0 && FirstMatchAt(tail, name, i - 1) {
        assert i != 0;
        forall j | 0 <= j < i - 1 ensures tail[j].name.Some? && !NameMatches(tail[j], name) {
          assert tail[j] == cats[j + 1];
        }
      }
      forall i | FirstMatchAt(tail, name, i) ensures FirstMatchAt(cats, name, i + 1) {
        forall j | 0 <= j < i + 1 ensures cats[j].name.Some? && !NameMatches(cats[j], name) {
          if j > 0 { assert cats[j] == tail[j - 1]; }
        }
      }
    }
  }

  datatype CategoryCalls = CategoryCalls(searched: bool, created: bool, result: Call<Option<int>>)

  /** `ensure_category(name)`: a matching search result (on status 200) is returned without creating;
      otherwise, including when the search fails, one create request is made and the new id is
      returned only on status 201. */
  method EnsureCategory(wpUrl: Option<string>, user: Option<string>, password: Option<string>,
                        name: string, search: SearchReply, create: CreateReply) returns (r: CategoryCalls)
    ensures !Present(wpUrl) ==> r == CategoryCalls(false, false, Returns(None))
    ensures Present(wpUrl) ==> (r.result.Raises? <==> AuthHeader(user, password).Raises?)
    ensures r.result.Returns? && Present(wpUrl) ==> r.searched
    ensures r.searched && search.SearchReply? && search.status == 200 && FirstMatch(search.categories, name).Some?
      ==> !r.created && r.result == Returns(FirstMatch(search.categories, name))
    ensures r.searched && !(search.SearchReply? && search.status == 200 && FirstMatch(search.categories, name).Some?)
      ==> r.created && r.result == Returns(if create.CreateReply? && create.status == 201 then create.id else None)
  {
    if !Present(wpUrl) {
      return CategoryCalls(false, false, Returns(None));
    }
    var auth := AuthHeader(user, password);
    if auth.Raises? {
      return CategoryCalls(false, false, Raises(auth.message));
    }
    if search.SearchReply? && search.status == 200 {
      var cats := search.categories;
      var k := 0;
      while k < |cats|
        invariant 0 <= k <= |cats|
        invariant FirstMatch(cats[k..], name) == FirstMatch(cats, name)
      {
        assert cats[k..][1..] == cats[k + 1..];
        if cats[k].name.None? {
          break;
        }
        if Lower(cats[k].name.value) == Lower(name) {
          if cats[k].id.Some? {
            return CategoryCalls(true, false, Returns(cats[k].id));
          }
          break;
        }
        k := k + 1;
      }
      assert FirstMatch(cats, name).None?;
    }
    var id := if create.CreateReply? && create.status == 201 then create.id else None;
    r := CategoryCalls(true, true, Returns(id));
  }
}
