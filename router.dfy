/**
 * The request handler's routing decision: the chain of tests on the raw
 * request method and url that picks one outcome before any database or
 * request-body work starts. Each test except POST /users returns early, so
 * the first test that matches wins; POST /users goes on to the final 404
 * write after its request body is handled, which is not modelled here.
 */
module Router {
  import opened Wrappers
  import opened JsString

  /** A status code and the `message` of the JSON body written with it. */
  datatype Reply = Reply(status: int, message: string)

  datatype Outcome =
    | NotFound(msg: string)   // 404, a missing url or no route matched
    | MethodNotAllowed        // 405, the request has no method
    | Hello                   // 200 greeting
    | ListUsers               // GET /users, continues into a database query
    | CreateUser              // POST /users, continues into reading and storing the body
    | BadIdNotFound           // 404, GET /users/... with more than three segments
    | UserIdRequired          // 404, GET /users/ with an empty id
    | LookupUser(id: string)  // GET /users/<id>, continues into a database lookup
  {
    /**
     * The reply the router writes straight away, or None for the outcomes
     * whose reply depends on the database or on the request body.
     */
    function Immediate(): (r: Option<Reply>)
      ensures r.None? <==> ListUsers? || CreateUser? || LookupUser?
      ensures r.Some? ==> r.value.status in {200, 404, 405}
      ensures r.Some? && r.value.status == 200 <==> Hello?
      ensures r.Some? && r.value.status == 405 <==> MethodNotAllowed?
    {
      match this
      case NotFound(msg) => Some(Reply(404, msg))
      case MethodNotAllowed => Some(Reply(405, "Method Not Allowed"))
      case Hello => Some(Reply(200, "Hello World!"))
      case BadIdNotFound => Some(Reply(404, "Not found"))
      case UserIdRequired => Some(Reply(404, "User ID is required"))
      case _ => None
    }
  }

  /**
   * The outcome for a request whose method and url may be absent. Matching
   * is exact string comparison on the raw url, query string included.
   */
  function Classify(verb: Option<string>, url: Option<string>): (r: Outcome)
    ensures r.NotFound? ==> r.msg == "Not Found"
    ensures r.LookupUser? ==> r.id != "" && '/' !in r.id
  {
    if !Truthy(url) then NotFound("Not Found")
    else if !Truthy(verb) then MethodNotAllowed
    else if url.value == "/" then Hello
    else if url.value == "/users" && verb.value == "GET" then ListUsers
    else if url.value == "/users" && verb.value == "POST" then CreateUser
    else if verb.value == "GET" && StartsWith(url.value, "/users/") then
      var urlSplit := Split(url.value, '/');
      if |urlSplit| > 3 then BadIdNotFound
      else
        // an index past the end reads as `undefined`
        var id := if |urlSplit| > 2 then Some(urlSplit[2]) else None;
        if !Truthy(id) then UserIdRequired else LookupUser(id.value)
    else NotFound("Not Found")
  }

  /** How a url under "/users/" splits: two fixed fields, then the rest's fields. */
  lemma UsersPathSplit(rest: string)
    ensures Split("/users/" + rest, '/') == ["", "users"] + Split(rest, '/')
  {
    assert "/users/" + rest == "/users" + ['/'] + rest;
    SplitAppendSep("/users", rest, '/');
    assert "/users" == "" + ['/'] + "users";
    SplitAppendSep("", "users", '/');
    SplitNoSep("users", '/');
  }

  /** "/users/" splits into three fields, the last one empty. */
  lemma SplitUsersSlashExample()
    ensures Split("/users/", '/') == ["", "users", ""]
  {
    assert "/users/" == "/users/" + "";
    UsersPathSplit("");
  }

  /** A url under "/users/" always has a third field: the id's field is never `undefined`. */
  lemma UsersPathFields(url: string)
    requires StartsWith(url, "/users/")
    ensures |Split(url, '/')| >= 3
    ensures Split(url, '/')[2] == Split(url[7..], '/')[0]
    ensures |Split(url, '/')| > 3 <==> '/' in url[7..]
  {
    StartsWithIff(url, "/users/");
    UsersPathSplit(url[7..]);
    SplitSingleIff(url[7..], '/');
  }

  /** A missing or empty url gives 404 "Not Found", whatever the method: the url is tested first. */
  lemma MissingUrlIsNotFound(verb: Option<string>, url: Option<string>)
    requires !Truthy(url)
    ensures Classify(verb, url) == NotFound("Not Found")
  {
  }

  /** 405 exactly when the url is present and the method is missing or empty. */
  lemma MethodNotAllowedIff(verb: Option<string>, url: Option<string>)
    ensures Classify(verb, url) == MethodNotAllowed <==> Truthy(url) && !Truthy(verb)
  {
  }

  /** The greeting exactly for url "/", with any present method. */
  lemma HelloIff(verb: Option<string>, url: Option<string>)
    ensures Classify(verb, url) == Hello <==> url == Some("/") && Truthy(verb)
  {
  }

  /** Listing users exactly for GET "/users". */
  lemma ListUsersIff(verb: Option<string>, url: Option<string>)
    ensures Classify(verb, url) == ListUsers <==> verb == Some("GET") && url == Some("/users")
  {
  }

  /** Creating a user exactly for POST "/users". */
  lemma CreateUserIff(verb: Option<string>, url: Option<string>)
    ensures Classify(verb, url) == CreateUser <==> verb == Some("POST") && url == Some("/users")
  {
  }

  /** Any other method on "/users" is not routed. */
  lemma OtherMethodOnUsersIsNotFound(verb: Option<string>)
    requires Truthy(verb) && verb.value != "GET" && verb.value != "POST"
    ensures Classify(verb, Some("/users")) == NotFound("Not Found")
  {
  }

  /**
   * A user is looked up exactly for GET "/users/" followed by a non-empty
   * id holding no "/", and that id is forwarded unchanged.
   */
  lemma LookupUserIff(verb: Option<string>, url: Option<string>, id: string)
    ensures Classify(verb, url) == LookupUser(id) <==>
              verb == Some("GET") && url == Some("/users/" + id) && id != "" && '/' !in id
  {
    if verb == Some("GET") && url == Some("/users/" + id) && id != "" && '/' !in id {
      StartsWithIff(url.value, "/users/");
      assert url.value[7..] == id;
      UsersPathFields(url.value);
      SplitNoSep(id, '/');
    }
    if Classify(verb, url) == LookupUser(id) {
      var u := url.value;
      UsersPathFields(u);
      StartsWithIff(u, "/users/");
      SplitNoSep(u[7..], '/');
      assert u == "/users/" + id;
    }
  }

  /** More than three segments under "/users/" is refused with 404 "Not found". */
  lemma BadIdNotFoundIff(verb: Option<string>, url: Option<string>)
    ensures Classify(verb, url) == BadIdNotFound <==>
              verb == Some("GET") && url.Some? && StartsWith(url.value, "/users/") && '/' in url.value[7..]
  {
    if url.Some? && StartsWith(url.value, "/users/") {
      UsersPathFields(url.value);
    }
  }

  /** An empty id gives 404 "User ID is required"; that happens for GET "/users/" only. */
  lemma UserIdRequiredIff(verb: Option<string>, url: Option<string>)
    ensures Classify(verb, url) == UserIdRequired <==> verb == Some("GET") && url == Some("/users/")
  {
    if url.Some? && StartsWith(url.value, "/users/") {
      var u := url.value;
      UsersPathFields(u);
      StartsWithIff(u, "/users/");
      if '/' !in u[7..] {
        SplitNoSep(u[7..], '/');
        assert u[7..] == "" ==> u == "/users/";
      }
    }
  }

  /** A method other than GET on a url under "/users/" is not routed. */
  lemma NonGetUnderUsersIsNotFound(verb: Option<string>, rest: string)
    requires Truthy(verb) && verb.value != "GET"
    ensures Classify(verb, Some("/users/" + rest)) == NotFound("Not Found")
  {
    var u := "/users/" + rest;
    assert u[1] == 'u' && u[6] == '/';
  }

  /** A query string defeats the exact matches on "/" and "/users". */
  lemma QueryStringDefeatsExactMatch(verb: Option<string>, query: string)
    requires Truthy(verb)
    ensures Classify(verb, Some("/?" + query)) == NotFound("Not Found")
    ensures Classify(verb, Some("/users?" + query)) == NotFound("Not Found")
  {
    var root := "/?" + query;
    assert root[1] == '?';
    if |root| >= 7 { assert root[..7][1] == '?'; }
    var users := "/users?" + query;
    assert users[1] == 'u' && users[6] == '?';
    if |users| >= 7 { assert users[..7][6] == '?'; }
  }

  /** The tests run in order: a missing url is reported before a missing method, and an empty url counts as missing. */
  lemma OrderExamples()
    ensures Classify(None, None) == NotFound("Not Found")
    ensures Classify(Some("GET"), Some("")) == NotFound("Not Found")
    ensures Classify(Some(""), Some("/")) == MethodNotAllowed
    ensures Classify(Some("DELETE"), Some("/")) == Hello
    ensures Classify(Some("OPTIONS"), Some("/")) == Hello
  {
  }

  /** A fourth segment defeats the user lookup: "/users/1/2" is not routed. */
  lemma ExtraSegmentExample()
    ensures Classify(Some("GET"), Some("/users/1/2")) == BadIdNotFound
  {
    var u := "/users/1/2";
    assert u[7..] == "1/2" && u[8] == '/';
    BadIdNotFoundIff(Some("GET"), Some(u));
  }

  /** A trailing slash makes four segments too. */
  lemma TrailingSlashExample()
    ensures Classify(Some("GET"), Some("/users/1/")) == BadIdNotFound
  {
    var u := "/users/1/";
    assert u[7..] == "1/" && u[8] == '/';
    BadIdNotFoundIff(Some("GET"), Some(u));
  }

  /** The id is forwarded verbatim: a query string after it becomes part of the id. */
  lemma QueryStringKeptInId(id: string, query: string)
    requires '/' !in id && '/' !in query
    ensures Classify(Some("GET"), Some("/users/" + id + "?" + query)) == LookupUser(id + "?" + query)
  {
    var full := id + "?" + query;
    assert "/users/" + id + "?" + query == "/users/" + full;
    assert forall k :: 0 <= k < |full| ==> full[k] != '/' by {
      forall k | 0 <= k < |full| ensures full[k] != '/' {
        if k < |id| { assert full[k] == id[k]; }
        else if k > |id| { assert full[k] == query[k - |id| - 1]; }
      }
    }
    LookupUserIff(Some("GET"), Some("/users/" + full), full);
  }

  /**
   * The fall-through rule: 404 "Not Found" exactly when the url is missing,
   * or when the method is present and no earlier test matches.
   */
  lemma NotFoundIff(verb: Option<string>, url: Option<string>)
    ensures Classify(verb, url).NotFound? <==>
              !Truthy(url) ||
              (Truthy(verb) && url.value != "/"
               && !(url.value == "/users" && (verb.value == "GET" || verb.value == "POST"))
               && !(verb.value == "GET" && StartsWith(url.value, "/users/")))
  {
    if url.Some? && StartsWith(url.value, "/users/") {
      UsersPathFields(url.value);
    }
  }

  /** Requests no route matches fall through to 404 "Not Found". */
  lemma FallThroughExamples()
    ensures Classify(Some("GET"), Some("/users?x=1")) == NotFound("Not Found")
    ensures Classify(Some("POST"), Some("/users/x")) == NotFound("Not Found")
    ensures Classify(Some("DELETE"), Some("/anything")) == NotFound("Not Found")
  {
    assert "/users?x=1" == "/users?" + "x=1";
    QueryStringDefeatsExactMatch(Some("GET"), "x=1");
    assert "/users/x" == "/users/" + "x";
    NonGetUnderUsersIsNotFound(Some("POST"), "x");
  }
}
