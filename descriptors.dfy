/**
 * The four endpoint classes as data: the `Endpoint` base defaults, the overrides each
 * subclass declares (pattern, query, methods, argument schema), the handler methods each
 * class defines, and what those handlers do against the content store.
 */
module Descriptors {

  import opened Wrappers
  import opened Values
  import opened WordPress
  import opened Arguments
  import Patterns

  /** The concrete endpoint classes: `Post_Base_Endpoint`, `Post_Endpoint`, `User_Base_Endpoint`, `User_Endpoint`. */
  datatype Kind = PostBase | PostItem | UserBase | UserItem

  datatype Descriptor = Descriptor(
    pattern: string,
    query: string,
    arguments: Schema,
    methods: seq<string>,
    authenticated: bool,
    isPublic: bool,
    capability: string)

  /** The property defaults of the abstract `Endpoint` class. */
  function BaseDescriptor(): Descriptor {
    Descriptor("", "", [], ["GET"], true, true, "edit_posts")
  }

  function Field(methods: seq<string>, required: bool, callback: Callback): ArgSpec {
    ArgSpec(methods, required, None, [], false, callback)
  }

  /** `title` and `content` of the two post endpoints: optional, POST only. */
  function PostFields(): Schema {
    [("title", Field(["POST"], false, Named("sanitize_text_field"))),
     ("content", Field(["POST"], false, Named("wp_filter_kses_post")))]
  }

  /** `password` and `email` of the two user endpoints: required, POST only. */
  function UserCredentialFields(): Schema {
    [("password", Field(["POST"], true, Named(""))),
     ("email", Field(["POST"], true, Named("sanitize_email")))]
  }

  /** `User_Base_Endpoint` adds the optional `first_name` and `last_name`. */
  function UserBaseFields(): Schema {
    UserCredentialFields() +
    [("first_name", Field(["POST"], false, Named("sanitize_text_field"))),
     ("last_name", Field(["POST"], false, Named("sanitize_text_field")))]
  }

  function DescriptorOf(k: Kind): Descriptor {
    match k
    case PostBase =>
      BaseDescriptor().(pattern := "post", methods := ["GET", "POST"],
                        authenticated := true, isPublic := true, arguments := PostFields())
    case PostItem =>
      BaseDescriptor().(pattern := "post/" + Patterns.PostIdToken, query := "post_id=$matches[1]",
                        methods := ["GET", "POST", "DELETE"],
                        authenticated := true, isPublic := true, arguments := PostFields())
    case UserBase =>
      BaseDescriptor().(pattern := "user", methods := ["GET", "POST"],
                        authenticated := true, isPublic := true, arguments := UserBaseFields())
    case UserItem =>
      BaseDescriptor().(pattern := "user/" + Patterns.UserIdToken, query := "user_id=$matches[1]",
                        methods := ["GET", "POST"],
                        authenticated := true, isPublic := true, arguments := UserCredentialFields())
  }

  /** The handler methods each class defines, by their lower-case names. */
  predicate HasHandler(k: Kind, name: string) {
    match k
    case PostBase => name in {"get", "post", "delete"}
    case PostItem => name in {"get", "post", "delete"}
    case UserBase => name in {"get", "post"}
    case UserItem => name in {"get", "post"}
  }

  // ---------------------------------------------------------------------------
  // The descriptor data

  /** `post` holds no token: its regex is the pattern itself, and the query is the inherited empty string. */
  lemma PostBasePattern()
    ensures Patterns.GetRegex(DescriptorOf(PostBase).pattern) == "post"
    ensures DescriptorOf(PostBase).query == "" && DescriptorOf(PostBase).methods == ["GET", "POST"]
  {
    PlainPattern("post");
  }

  /** `post/{POST_ID}` compiles to `post/([\d]+)`, with exactly one capture, which the query binds to `post_id`. */
  lemma PostItemPattern()
    ensures Patterns.GetRegex(DescriptorOf(PostItem).pattern) == "post/" + Patterns.DigitsCapture
    ensures Patterns.TokensIn(DescriptorOf(PostItem).pattern) == [Patterns.PostIdToken]
    ensures DescriptorOf(PostItem).query == "post_id=$matches[1]"
    ensures DescriptorOf(PostItem).methods == ["GET", "POST", "DELETE"]
  {
    TokenPattern("post/", Patterns.PostIdToken);
    FixedPrefixTokens("post/", Patterns.PostIdToken);
  }

  /** `user` holds no token: its regex is the pattern itself, and the query is the inherited empty string. */
  lemma UserBasePattern()
    ensures Patterns.GetRegex(DescriptorOf(UserBase).pattern) == "user"
    ensures DescriptorOf(UserBase).query == "" && DescriptorOf(UserBase).methods == ["GET", "POST"]
  {
    PlainPattern("user");
  }

  /** `user/{USER_ID}` compiles to `user/([\d]+)`, with exactly one capture, which the query binds to `user_id`. */
  lemma UserItemPattern()
    ensures Patterns.GetRegex(DescriptorOf(UserItem).pattern) == "user/" + Patterns.DigitsCapture
    ensures Patterns.TokensIn(DescriptorOf(UserItem).pattern) == [Patterns.UserIdToken]
    ensures DescriptorOf(UserItem).query == "user_id=$matches[1]"
    ensures DescriptorOf(UserItem).methods == ["GET", "POST"]
  {
    TokenPattern("user/", Patterns.UserIdToken);
    FixedPrefixTokens("user/", Patterns.UserIdToken);
  }

  lemma PlainPattern(p: string)
    requires '{' !in p
    ensures Patterns.Compile(p) == p
  {
    var n := |Patterns.TokenNames()|;
    Patterns.SubstPlain(n, p, []);
    assert p + [] == p;
  }

  lemma TokenPattern(prefix: string, tok: string)
    requires '{' !in prefix && tok in Patterns.TokenNames()
    ensures Patterns.Compile(prefix + tok) == prefix + Patterns.DigitsCapture
  {
    var n := |Patterns.TokenNames()|;
    assert Patterns.TokenNames()[..n] == Patterns.TokenNames();
    Patterns.TokenShape(tok);
    Patterns.SubstPlain(n, prefix, tok);
    var t := Patterns.LeadingToken(Patterns.TokenNames(), tok).value;
    Patterns.TokensNotPrefixes(t, tok);
    assert tok[|tok|..] == [];
  }

  lemma {:induction false} FixedPrefixTokens(prefix: string, tok: string)
    requires '{' !in prefix && tok in Patterns.TokenNames()
    ensures Patterns.TokensIn(prefix + tok) == [tok]
    decreases |prefix|
  {
    Patterns.TokenShape(tok);
    if prefix == [] {
      assert prefix + tok == tok;
      assert tok[|tok|..] == [];
      assert Patterns.LeadingToken(Patterns.TokenNames(), tok).Some?;
      var t := Patterns.LeadingToken(Patterns.TokenNames(), tok).value;
      Patterns.TokensNotPrefixes(t, tok);
    } else {
      assert (prefix + tok)[1..] == prefix[1..] + tok;
      Patterns.NoLeadingToken(|Patterns.TokenNames()|, prefix + tok);
      assert Patterns.TokenNames()[..|Patterns.TokenNames()|] == Patterns.TokenNames();
      FixedPrefixTokens(prefix[1..], tok);
    }
  }

  /**
   * `content` names `wp_filter_kses_post`, which is not the special-cased `wp_filter_post_kses`:
   * the value is sanitized directly, without slash bracketing (by the named function when it is
   * defined, by `sanitize_text_field` otherwise).
   */
  lemma PostContentNotBracketed(site: Site, v: Value)
    ensures var spec := PostFields()[1].1;
            var f := Lookup(site, "wp_filter_kses_post");
            FieldValue(site, spec, v) == (if f.Some? then f.value(v) else site.sanitizeTextField(v))
  {
  }

  /** With both credentials missing on POST, the error names `password`, the first field of the schema. */
  lemma UserPasswordReportedFirst(site: Site, dirty: map<string, Value>)
    requires "password" !in dirty && "email" !in dirty
    ensures Validate(site, "POST", UserBaseFields(), dirty) == Err(SendError("'password' is a required argument.", 400))
    ensures Validate(site, "POST", UserCredentialFields(), dirty) == Err(SendError("'password' is a required argument.", 400))
  {
    PasswordRequired();
    var base := UserBaseFields();
    assert base[0] == UserCredentialFields()[0];
    FirstFieldMissing(site, base, dirty);
    FirstFieldMissing(site, UserCredentialFields(), dirty);
  }

  /** The message for a missing `password`. */
  lemma PasswordRequired()
    ensures RequiredMessage("password") == "'password' is a required argument."
  {
  }

  /** A required POST field that is absent ends validation at once when it comes first. */
  lemma FirstFieldMissing(site: Site, schema: Schema, dirty: map<string, Value>)
    requires schema != [] && "POST" in schema[0].1.methods && schema[0].1.required && schema[0].0 !in dirty
    ensures Validate(site, "POST", schema, dirty) == Err(SendError(RequiredMessage(schema[0].0), 400))
  {
  }

  /** `password` declares `sanitize_callback => ''`, which is not callable: it is sanitized with `sanitize_text_field`. */
  lemma UserPasswordSanitized(site: Site, v: Value)
    ensures FieldValue(site, UserCredentialFields()[0].1, v) == site.sanitizeTextField(v)
  {
  }

  // ---------------------------------------------------------------------------
  // The handlers

  /** What a handler leaves behind: the response it sent (None: it returned), its store calls, and the `post` field. */
  datatype HandlerResult = HandlerResult(response: Option<Response>, calls: seq<StoreCall>, post: Option<int>)

  function Get(m: map<string, Value>, key: string): Option<Value> {
    if key in m then Some(m[key]) else None
  }

  /** `User_Endpoint::get_user_object`: exactly the keys `id` and `email`, from `ID` and `user_email`. */
  function GetUserObject(user: WPUser): (r: Json)
    ensures r.JObject? && |r.members| == 2
    ensures r.members[0] == ("id", JInt(user.id)) && r.members[1] == ("email", JString(user.email))
  {
    JObject([("id", JInt(user.id)), ("email", JString(user.email))])
  }

  /**
   * `get_user_object( null )`: both properties read as null.  `Dispatch.Dispatch` never reaches
   * it, because the `User_Endpoint` hook (`SetupQueryVars`) always loads a user before a handler
   * runs; `Handle` takes any `user`, so it still needs the case.
   */
  function NullUserObject(): Json {
    JObject([("id", JNull), ("email", JNull)])
  }

  /** `wp_parse_args( $args, $defaults )`: defaults filled in where the arguments have no entry. */
  function ParseArgs(args: map<string, Value>, defaults: map<string, Value>): (r: map<string, Value>)
    ensures r.Keys == args.Keys + defaults.Keys
    ensures forall k :: k in args ==> r[k] == args[k]
    ensures forall k :: k in defaults && k !in args ==> r[k] == defaults[k]
  {
    defaults + args
  }

  /** `Post_Endpoint::post`: update the loaded post; a store error is a 400 with its message. */
  function UpdatePostHandler(site: Site, args: map<string, Value>, post: Option<int>): HandlerResult {
    var call := UpdatePost(post, Get(args, "title"), Get(args, "content"));
    match site.store(call)
    case Err(message) => HandlerResult(Some(SendError(message, 400)), [call], post)
    case Ok(_) => HandlerResult(None, [call], post)
  }

  /** `Post_Base_Endpoint::post`: insert with `''` for a missing title or content, then load the new post. */
  function InsertPostHandler(site: Site, args: map<string, Value>, post: Option<int>): HandlerResult {
    var merged := ParseArgs(args, map["title" := Str(""), "content" := Str("")]);
    var call := InsertPost(merged["title"], merged["content"]);
    match site.store(call)
    case Err(message) => HandlerResult(Some(SendError(message, 400)), [call], post)
    case Ok(id) => HandlerResult(None, [call], site.getPostById(id))
  }

  /** `User_Base_Endpoint::post`: insert with the email as login and `''` names; answer 200 with the new user's object. */
  function InsertUserHandler(site: Site, args: map<string, Value>, post: Option<int>): HandlerResult {
    var merged := ParseArgs(args, map["first_name" := Str(""), "last_name" := Str("")]);
    var call := InsertUser(Get(merged, "email"), Get(merged, "password"), Get(merged, "email"),
                           Get(merged, "first_name"), Get(merged, "last_name"));
    match site.store(call)
    case Err(message) => HandlerResult(Some(SendError(message, 400)), [call], post)
    case Ok(id) => HandlerResult(Some(SendResponse(GetUserObject(site.userById(id)))), [call], post)
  }

  /** The handler `$this->$method( $args )` for a class and a lower-case method name it defines. */
  function Handle(site: Site, k: Kind, name: string, args: map<string, Value>,
                  post: Option<int>, user: Option<WPUser>): HandlerResult
    requires HasHandler(k, name)
  {
    var nothing := HandlerResult(None, [], post);
    match k
    case PostItem =>
      if name == "get" then nothing
      else if name == "post" then UpdatePostHandler(site, args, post)
      else HandlerResult(None, [TrashPost(post)], post)
    case PostBase =>
      if name == "get" then nothing
      else if name == "post" then InsertPostHandler(site, args, post)
      else HandlerResult(None, [TrashPost(post)], post)
    case UserBase =>
      if name == "get" then nothing
      else InsertUserHandler(site, args, post)
    case UserItem =>
      if name == "get" then
        HandlerResult(Some(SendResponse(match user case Some(u) => GetUserObject(u) case None => NullUserObject())),
                      [], post)
      else nothing
  }

  /** `validate_query_vars`: `Post_Endpoint` loads the post for `post_id`, `User_Endpoint` the user for `user_id`. */
  function SetupQueryVars(site: Site, k: Kind, vars: map<string, string>, post: Option<int>,
                          user: Option<WPUser>): (Option<int>, Option<WPUser>)
  {
    match k
    case PostItem => (site.getPost(if "post_id" in vars then Some(vars["post_id"]) else None), user)
    case UserItem => (post, Some(site.userFor(if "user_id" in vars then Some(vars["user_id"]) else None)))
    case _ => (post, user)
  }

  // ---------------------------------------------------------------------------
  // What the handlers promise

  /** Every handler response is a 400 carrying the store's message or a 200 JSON user object. */
  lemma HandlerResponses(site: Site, k: Kind, name: string, args: map<string, Value>,
                         post: Option<int>, user: Option<WPUser>)
    requires HasHandler(k, name)
    ensures var h := Handle(site, k, name, args, post, user);
            h.response.Some? ==> h.response.value.status == 400 || h.response.value.status == 200
  {
  }

  /** `Post_Endpoint::post`: a store error gives 400 with its message; success returns without a response. */
  lemma UpdatePostOutcome(site: Site, args: map<string, Value>, post: Option<int>, user: Option<WPUser>)
    ensures var h := Handle(site, PostItem, "post", args, post, user);
            var call := UpdatePost(post, Get(args, "title"), Get(args, "content"));
            h.calls == [call] &&
            (site.store(call).Err? ==> h.response == Some(SendError(site.store(call).error, 400))) &&
            (site.store(call).Ok? ==> h.response.None?)
  {
  }

  /** `Post_Base_Endpoint::post`: a missing title or content is inserted as `''`; on success the new post is stored. */
  lemma InsertPostDefaults(site: Site, args: map<string, Value>, post: Option<int>, user: Option<WPUser>)
    ensures var h := Handle(site, PostBase, "post", args, post, user);
            |h.calls| == 1 && h.calls[0].InsertPost? &&
            h.calls[0].postTitle == (if "title" in args then args["title"] else Str("")) &&
            h.calls[0].postContent == (if "content" in args then args["content"] else Str("")) &&
            var res := site.store(h.calls[0]);
            (res.Err? ==> h.response == Some(SendError(res.error, 400)) && h.post == post) &&
            (res.Ok? ==> h.response.None? && h.post == site.getPostById(res.value))
  {
  }

  /** `User_Base_Endpoint::post`: the login is the email, missing names are `''`; success is 200 with `{id, email}`. */
  lemma InsertUserOutcome(site: Site, args: map<string, Value>, post: Option<int>, user: Option<WPUser>)
    ensures var h := Handle(site, UserBase, "post", args, post, user);
            |h.calls| == 1 && h.calls[0].InsertUser? &&
            h.calls[0].login == h.calls[0].email == Get(args, "email") &&
            h.calls[0].password == Get(args, "password") &&
            h.calls[0].firstName == Some(if "first_name" in args then args["first_name"] else Str("")) &&
            h.calls[0].lastName == Some(if "last_name" in args then args["last_name"] else Str("")) &&
            var res := site.store(h.calls[0]);
            (res.Err? ==> h.response == Some(SendError(res.error, 400))) &&
            (res.Ok? ==> h.response == Some(SendResponse(GetUserObject(site.userById(res.value)))))
  {
  }

  /** `User_Endpoint::get` answers 200 with the object of the user loaded from `user_id`. */
  lemma UserGetResponds(site: Site, args: map<string, Value>, post: Option<int>, u: WPUser)
    ensures Handle(site, UserItem, "get", args, post, Some(u)).response ==
            Some(SendResponse(GetUserObject(u), 200))
  {
  }
}
