/**
 * The blog controller of the Sequelize blog app: a bearer-token extractor
 * in front of POST and DELETE, a primary-key finder in front of PUT and
 * DELETE, and a GET that searches titles and authors and orders by likes.
 * The blog table is a list of rows with distinct primary keys; the user
 * table maps user ids to names.
 */
module BlogController {
  import opened Wrappers
  import opened Seqs
  import opened Text

  datatype Blog = Blog(id: int, author: string, url: string, title: string, likes: int, userId: Option<int>)

  /** The fields a POST body may carry; its `userId` is overridden. */
  datatype BlogInput = BlogInput(author: string, url: string, title: string, likes: int, userId: Option<int>)

  /** A GET row: `userId` excluded, the owner's `name` included. */
  datatype ListedBlog = ListedBlog(id: int, author: string, url: string, title: string, likes: int, user: Option<string>)

  /** The outcome of `tokenExtractor`: the decoded user id, or the 401 message. */
  datatype Auth = Authenticated(userId: int) | Rejected(message: string)

  datatype BlogResponse =
    | BlogJson(blog: Blog)
    | BlogList(blogs: seq<ListedBlog>)
    | ErrorJson(status: int, error: string)
    | Failed(status: int)
    | Empty(status: int)

  /** `authorization.toLowerCase().startsWith('bearer ')` */
  predicate IsBearer(header: string) {
    StartsWith(ToLower(header), "bearer ")
  }

  /**
   * `tokenExtractor`, with `jwt.verify` as the oracle `verify` (None when it
   * throws): 401 'token missing' for an absent or non-bearer header, 401
   * 'token invalid' when the token after the 7-character scheme fails.
   */
  function TokenExtractor(authorization: Option<string>, verify: string -> Option<int>): (r: Auth)
    ensures r.Authenticated? <==>
              authorization.Some? && IsBearer(authorization.value) && verify(authorization.value[7..]).Some?
    ensures r.Authenticated? ==> r.userId == verify(authorization.value[7..]).value
    ensures r == Rejected("token missing") <==> authorization.None? || !IsBearer(authorization.value)
    ensures r.Rejected? ==> r.message == "token missing" || r.message == "token invalid"
  {
    if authorization.Some? && authorization.value != "" && IsBearer(authorization.value) then
      match verify(authorization.value[7..])
      case Some(id) => Authenticated(id)
      case None => Rejected("token invalid")
    else
      Rejected("token missing")
  }

  /** The scheme is matched in any letter case, and the token is everything after it. */
  lemma {:induction false} BearerInAnyCase(scheme: string, token: string, verify: string -> Option<int>)
    requires |scheme| == 7 && ToLower(scheme) == "bearer "
    ensures TokenExtractor(Some(scheme + token), verify) ==
              if verify(token).Some? then Authenticated(verify(token).value) else Rejected("token invalid")
  {
    var h := scheme + token;
    ToLowerAppend(scheme, token);
    assert ToLower(h)[..7] == ToLower(scheme);
    assert h[7..] == token;
  }

  // ----- GET: search and order -----

  /** `title` or `author` contains the search text, ignoring case (`iLike '%search%'`). */
  predicate MatchesSearch(b: Blog, search: string) {
    Contains(ToLower(b.title), ToLower(search)) || Contains(ToLower(b.author), ToLower(search))
  }

  function Criterion(search: Option<string>): Blog -> bool {
    (b: Blog) => search.None? || search.value == "" || MatchesSearch(b, search.value)
  }

  predicate SortedByLikesDesc(bs: seq<Blog>) {
    forall i, j :: 0 <= i < j < |bs| ==> bs[i].likes >= bs[j].likes
  }

  function InsertByLikes(b: Blog, bs: seq<Blog>): (r: seq<Blog>)
    requires SortedByLikesDesc(bs)
    ensures SortedByLikesDesc(r)
    ensures multiset(r) == multiset(bs) + multiset{b}
    ensures |r| == |bs| + 1 && (r[0] == b || (bs != [] && r[0] == bs[0]))
  {
    if bs == [] then [b]
    else if b.likes >= bs[0].likes then [b] + bs
    else
      var rest := InsertByLikes(b, bs[1..]);
      assert bs == [bs[0]] + bs[1..];
      HeadBoundsInsertion(b, bs, rest);
      [bs[0]] + rest
  }

  /** Inserting below the head of a sorted list leaves the head the most liked. */
  lemma HeadBoundsInsertion(b: Blog, bs: seq<Blog>, rest: seq<Blog>)
    requires bs != [] && SortedByLikesDesc(bs) && b.likes < bs[0].likes
    requires multiset(rest) == multiset(bs[1..]) + multiset{b}
    ensures forall j :: 0 <= j < |rest| ==> rest[j].likes <= bs[0].likes
  {
    forall j | 0 <= j < |rest| ensures rest[j].likes <= bs[0].likes {
      assert rest[j] in multiset(rest);
      if rest[j] != b {
        assert rest[j] in multiset(bs[1..]);
        var k :| 0 <= k < |bs[1..]| && bs[1..][k] == rest[j];
        assert bs[k + 1] == rest[j];
      }
    }
  }

  /** `order: [['likes', 'DESC']]`; the database leaves the order of equal likes open and this picks one. */
  function SortByLikes(bs: seq<Blog>): (r: seq<Blog>)
    ensures SortedByLikesDesc(r)
    ensures multiset(r) == multiset(bs)
  {
    if bs == [] then []
    else
      assert bs == bs[..|bs| - 1] + [bs[|bs| - 1]];
      InsertByLikes(bs[|bs| - 1], SortByLikes(bs[..|bs| - 1]))
  }

  /** The rows GET returns, before the projection. */
  function Found(blogs: seq<Blog>, search: Option<string>): seq<Blog> {
    SortByLikes(Filter(blogs, Criterion(search)))
  }

  /** GET returns each matching blog once, the others not at all, most liked first. */
  lemma FoundCharacterized(blogs: seq<Blog>, search: Option<string>)
    ensures SortedByLikesDesc(Found(blogs, search))
    ensures multiset(Found(blogs, search)) == multiset(Filter(blogs, Criterion(search)))
    ensures forall b :: b in Found(blogs, search) <==>
              b in blogs && (search.None? || search.value == "" || MatchesSearch(b, search.value))
  {
    var f := Filter(blogs, Criterion(search));
    var r := Found(blogs, search);
    forall b ensures b in r <==> b in f {
      assert b in r <==> b in multiset(r);
      assert b in f <==> b in multiset(f);
    }
    forall b | b in blogs && Criterion(search)(b) ensures b in f {
      var i :| 0 <= i < |blogs| && blogs[i] == b;
    }
  }

  /** An empty search keeps every blog. */
  lemma EmptySearchKeepsAll(blogs: seq<Blog>)
    ensures multiset(Found(blogs, Some(""))) == multiset(blogs)
    ensures multiset(Found(blogs, None)) == multiset(blogs)
  {
    FilterAll(blogs, Criterion(Some("")));
    FilterAll(blogs, Criterion(None));
  }

  function Listed(b: Blog, users: map<int, string>): ListedBlog {
    ListedBlog(b.id, b.author, b.url, b.title, b.likes,
               if b.userId.Some? && b.userId.value in users then Some(users[b.userId.value]) else None)
  }

  predicate DistinctIds(bs: seq<Blog>) {
    forall i, j :: 0 <= i < j < |bs| ==> bs[i].id != bs[j].id
  }

  /** `Blog.findByPk(id)` */
  function FindBlog(bs: seq<Blog>, id: int): Option<nat> {
    IndexOf(bs, (b: Blog) => b.id == id)
  }

  class BlogDb {
    var blogs: seq<Blog>
    var users: map<int, string>

    /** Primary keys are distinct. */
    ghost predicate Valid()
      reads this
    {
      DistinctIds(blogs)
    }

    constructor (initialBlogs: seq<Blog>, initialUsers: map<int, string>)
      requires DistinctIds(initialBlogs)
      ensures Valid() && blogs == initialBlogs && users == initialUsers
    {
      blogs, users := initialBlogs, initialUsers;
    }

    /** GET `/`: the found rows, projected. */
    method Get(search: Option<string>) returns (res: BlogResponse)
      ensures res.BlogList? && |res.blogs| == |Found(blogs, search)|
      ensures forall i :: 0 <= i < |res.blogs| ==> res.blogs[i] == Listed(Found(blogs, search)[i], users)
    {
      var found, owners := Found(blogs, search), users;
      res := BlogList(seq(|found|, i requires 0 <= i < |found| => Listed(found[i], owners)));
    }

    /**
     * POST `/`: the token first; then the user the token names (a missing
     * user makes `user.id` throw, answered 400); the body's `userId` is
     * replaced by that user's id.
     */
    method Post(authorization: Option<string>, verify: string -> Option<int>, body: BlogInput, newId: int)
      returns (res: BlogResponse)
      requires Valid() && forall i :: 0 <= i < |blogs| ==> blogs[i].id != newId
      modifies this
      ensures Valid() && users == old(users)
      ensures TokenExtractor(authorization, verify).Rejected? ==>
                blogs == old(blogs) && res == ErrorJson(401, TokenExtractor(authorization, verify).message)
      ensures TokenExtractor(authorization, verify).Authenticated? && TokenExtractor(authorization, verify).userId !in users ==>
                blogs == old(blogs) && res == Failed(400)
      ensures TokenExtractor(authorization, verify).Authenticated? && TokenExtractor(authorization, verify).userId in users ==>
                var b := Blog(newId, body.author, body.url, body.title, body.likes,
                              Some(TokenExtractor(authorization, verify).userId));
                blogs == old(blogs) + [b] && res == BlogJson(b)
    {
      var auth := TokenExtractor(authorization, verify);
      if auth.Rejected? {
        return ErrorJson(401, auth.message);
      }
      if auth.userId !in users {
        return Failed(400);
      }
      var b := Blog(newId, body.author, body.url, body.title, body.likes, Some(auth.userId));
      blogs := blogs + [b];
      res := BlogJson(b);
    }

    /** PUT `/:id`: no token needed; sets `likes` and nothing else, or 404. */
    method PutLikes(id: int, likes: int) returns (res: BlogResponse)
      requires Valid()
      modifies this
      ensures Valid() && users == old(users)
      ensures FindBlog(old(blogs), id).None? ==> blogs == old(blogs) && res == Empty(404)
      ensures FindBlog(old(blogs), id).Some? ==>
                var i := FindBlog(old(blogs), id).value;
                blogs == old(blogs)[i := old(blogs)[i].(likes := likes)] && res == BlogJson(blogs[i])
    {
      var i := FindBlog(blogs, id);
      if i.None? {
        return Empty(404);
      }
      var b := blogs[i.value].(likes := likes);
      blogs := blogs[i.value := b];
      res := BlogJson(b);
    }

    /**
     * DELETE `/:id`: the token first (401), then 404 for an unknown blog,
     * 403 when the blog's `userId` is not the token's user, otherwise the
     * row is destroyed and the answer is 204.
     */
    method Delete(authorization: Option<string>, verify: string -> Option<int>, id: int)
      returns (res: BlogResponse)
      requires Valid()
      modifies this
      ensures Valid() && users == old(users)
      ensures TokenExtractor(authorization, verify).Rejected? ==>
                blogs == old(blogs) && res == ErrorJson(401, TokenExtractor(authorization, verify).message)
      ensures TokenExtractor(authorization, verify).Authenticated? && FindBlog(old(blogs), id).None? ==>
                blogs == old(blogs) && res == Empty(404)
      ensures TokenExtractor(authorization, verify).Authenticated? && FindBlog(old(blogs), id).Some? ==>
                var i := FindBlog(old(blogs), id).value;
                if old(blogs)[i].userId != Some(TokenExtractor(authorization, verify).userId) then
                  blogs == old(blogs) && res == ErrorJson(403, "only the creator can delete a blog")
                else
                  blogs == old(blogs)[..i] + old(blogs)[i + 1..] && res == Empty(204)
    {
      var auth := TokenExtractor(authorization, verify);
      if auth.Rejected? {
        return ErrorJson(401, auth.message);
      }
      var i := FindBlog(blogs, id);
      if i.None? {
        return Empty(404);
      }
      if blogs[i.value].userId != Some(auth.userId) {
        return ErrorJson(403, "only the creator can delete a blog");
      }
      DestroyKeepsDistinct(blogs, i.value);
      blogs := blogs[..i.value] + blogs[i.value + 1..];
      res := Empty(204);
    }
  }

  /** Destroying a row removes exactly that primary key. */
  lemma DestroyKeepsDistinct(bs: seq<Blog>, i: nat)
    requires DistinctIds(bs) && i < |bs|
    ensures DistinctIds(bs[..i] + bs[i + 1..])
  {
    var r := bs[..i] + bs[i + 1..];
    forall k | 0 <= k < |r| ensures r[k] == (if k < i then bs[k] else bs[k + 1]) { }
  }
}
