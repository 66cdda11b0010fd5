/**
 * The request pipeline of `Endpoint::base_callback`, as a function of the request and the
 * state it reads and writes.
 *
 * The steps run in the source's order: authentication (when the endpoint asks for it),
 * `urldecode` of every query variable, the `validate_query_vars` hook, argument validation
 * chosen by the request method, and the handler named by the lower-cased method, or 501.
 * Every step that sends a response ends the request there, because `send_error` and
 * `send_response` exit; a handler that returns without sending anything is followed by the
 * 204 of `send_error( '', 204 )`.  The imperative version is
 * `EndpointBase.Endpoint.BaseCallback`, which is proved to compute `Dispatch`.
 */
module Dispatch {

  import opened Wrappers
  import opened Values
  import opened WordPress
  import opened Arguments
  import opened Auth
  import opened Descriptors

  /**
   * What `base_callback` reads and writes: the endpoint's `is_cookie_request`, `post` and
   * `user`, WordPress's current user, `$wp->query_vars`, and the content store's call log.
   */
  datatype State = State(
    cookieRequest: bool,
    post: Option<int>,
    user: Option<WPUser>,
    currentUser: Option<int>,
    queryVars: map<string, string>,
    calls: seq<StoreCall>)

  /** ASCII `strtolower` of one character. */
  function LowerChar(c: char): char {
    if 'A' <= c <= 'Z' then (c as int + 32) as char else c
  }

  /** `strtolower`: every upper-case ASCII letter lowered, everything else kept. */
  function ToLower(s: string): (r: string)
    ensures |r| == |s| && forall i :: 0 <= i < |s| ==> r[i] == LowerChar(s[i])
  {
    seq(|s|, i requires 0 <= i < |s| => LowerChar(s[i]))
  }

  /** The `switch` on the request method: POST and GET validate the unslashed input, any other method has no arguments. */
  function ArgsFor(site: Site, d: Descriptor, req: Request): Result<map<string, Value>, Response> {
    if req.verb == "POST" then Validate(site, req.verb, d.arguments, StripslashesMap(site, req.post))
    else if req.verb == "GET" then Validate(site, req.verb, d.arguments, StripslashesMap(site, req.get))
    else Ok(map[])
  }

  /** The state after the authentication step: `is_cookie_request` is written only on the session path. */
  function AfterAuth(s: State, a: AuthOutcome): State {
    s.(cookieRequest := s.cookieRequest || a.cookieRequest, currentUser := a.currentUser)
  }

  /** The state after the query variables are decoded and the `validate_query_vars` hook has run. */
  function AfterSetup(site: Site, k: Kind, s: State): State {
    var vars := UrldecodeAll(site, s.queryVars);
    var (post, user) := SetupQueryVars(site, k, vars, s.post, s.user);
    s.(queryVars := vars, post := post, user := user)
  }

  /** The pipeline from the query-variable step on, for a request that got past authentication. */
  function Process(site: Site, k: Kind, req: Request, s: State): (Response, State) {
    var s1 := AfterSetup(site, k, s);
    match ArgsFor(site, DescriptorOf(k), req)
    case Err(e) => (e, s1)
    case Ok(args) =>
      var name := ToLower(req.verb);
      if !HasHandler(k, name) then (SendError("", 501), s1)
      else
        var h := Handle(site, k, name, args, s1.post, s1.user);
        (h.response.GetOr(SendError("", 204)), s1.(post := h.post, calls := s1.calls + h.calls))
  }

  /** `base_callback` for an endpoint of kind `k`: the response that ends the request, and the state it leaves. */
  function Dispatch(site: Site, k: Kind, req: Request, s: State): (Response, State) {
    var d := DescriptorOf(k);
    if d.authenticated then
      var a := Authenticate(site, req, d.capability, s.currentUser);
      if a.rejection.Some? then (a.rejection.value, AfterAuth(s, a))
      else Process(site, k, req, AfterAuth(s, a))
    else Process(site, k, req, s)
  }

  // ---------------------------------------------------------------------------
  // Validation that no field applies to

  /** A method that no field lists validates to the accumulator unchanged. */
  lemma {:induction false} NoFieldApplies(site: Site, verb: string, schema: Schema, dirty: map<string, Value>,
                                          acc: map<string, Value>)
    requires forall i :: 0 <= i < |schema| ==> verb !in schema[i].1.methods
    ensures ValidateFrom(site, verb, schema, dirty, acc) == Ok(acc)
    decreases |schema|
  {
    if schema != [] {
      assert verb !in schema[0].1.methods;
      NoFieldApplies(site, verb, schema[1..], dirty, acc);
    }
  }

  /** Every field of the four endpoints is POST-only, so a GET always validates to an empty map. */
  lemma GetHasNoArguments(site: Site, k: Kind, req: Request)
    requires req.verb == "GET"
    ensures ArgsFor(site, DescriptorOf(k), req) == Ok(map[])
  {
    NoFieldApplies(site, "GET", DescriptorOf(k).arguments, StripslashesMap(site, req.get), map[]);
  }

  // ---------------------------------------------------------------------------
  // What the pipeline promises

  /** Past authentication, `Dispatch` is the rest of the pipeline on the authenticated state. */
  lemma DispatchAccepted(site: Site, k: Kind, req: Request, s: State)
    requires Authenticate(site, req, DescriptorOf(k).capability, s.currentUser).rejection.None?
    ensures Dispatch(site, k, req, s) ==
            Process(site, k, req, AfterAuth(s, Authenticate(site, req, DescriptorOf(k).capability, s.currentUser)))
  {
  }

  /** A validation failure is a 400. */
  lemma ArgsForErrors(site: Site, d: Descriptor, req: Request)
    ensures ArgsFor(site, d, req).Err? ==> ArgsFor(site, d, req).error.status == 400
  {
    if req.verb == "POST" {
      ValidateErrors(site, req.verb, d.arguments, StripslashesMap(site, req.post));
    } else if req.verb == "GET" {
      ValidateErrors(site, req.verb, d.arguments, StripslashesMap(site, req.get));
    }
  }

  /** With valid arguments and a handler, the pipeline ends with the handler's response, or 204, and appends its calls. */
  lemma ProcessHandled(site: Site, k: Kind, req: Request, s: State, args: map<string, Value>)
    requires ArgsFor(site, DescriptorOf(k), req) == Ok(args) && HasHandler(k, ToLower(req.verb))
    ensures var s1 := AfterSetup(site, k, s);
            var h := Handle(site, k, ToLower(req.verb), args, s1.post, s1.user);
            Process(site, k, req, s) ==
              (h.response.GetOr(SendError("", 204)), s1.(post := h.post, calls := s1.calls + h.calls))
  {
  }

  /** A validation failure is the response, on the state after the query-variable step. */
  lemma ProcessRejected(site: Site, k: Kind, req: Request, s: State)
    requires ArgsFor(site, DescriptorOf(k), req).Err?
    ensures Process(site, k, req, s) == (ArgsFor(site, DescriptorOf(k), req).error, AfterSetup(site, k, s))
  {
  }

  /** Valid arguments for a method the class does not implement give 501. */
  lemma ProcessUnhandled(site: Site, k: Kind, req: Request, s: State)
    requires ArgsFor(site, DescriptorOf(k), req).Ok? && !HasHandler(k, ToLower(req.verb))
    ensures Process(site, k, req, s) == (SendError("", 501), AfterSetup(site, k, s))
  {
  }

  /** After authentication, the pipeline ends with 200, 204, 400 or 501. */
  lemma ProcessStatuses(site: Site, k: Kind, req: Request, s: State)
    ensures Process(site, k, req, s).0.status in {200, 204, 400, 501}
  {
    ArgsForErrors(site, DescriptorOf(k), req);
    var s1 := AfterSetup(site, k, s);
    match ArgsFor(site, DescriptorOf(k), req)
    case Err(_) =>
    case Ok(args) =>
      var name := ToLower(req.verb);
      if HasHandler(k, name) {
        HandlerResponses(site, k, name, args, s1.post, s1.user);
      }
  }

  /** Every request ends with 200, 204, 400, 401 or 501, so never with the 303 of the `redirect_to` branch. */
  lemma DispatchStatuses(site: Site, k: Kind, req: Request, s: State)
    ensures Dispatch(site, k, req, s).0.status in {200, 204, 400, 401, 501}
  {
    var a := Authenticate(site, req, DescriptorOf(k).capability, s.currentUser);
    RejectionsAre401(site, req, DescriptorOf(k).capability, s.currentUser);
    if a.rejection.None? {
      DispatchAccepted(site, k, req, s);
      ProcessStatuses(site, k, req, AfterAuth(s, a));
    }
  }

  /** A refused request ends with the refusal: nothing is decoded, loaded, validated or stored. */
  lemma RejectionStops(site: Site, k: Kind, req: Request, s: State)
    requires Authenticate(site, req, DescriptorOf(k).capability, s.currentUser).rejection.Some?
    ensures var a := Authenticate(site, req, DescriptorOf(k).capability, s.currentUser);
            var (r, s') := Dispatch(site, k, req, s);
            r == a.rejection.value && r.status == 401 &&
            s' == s.(cookieRequest := s.cookieRequest || a.cookieRequest, currentUser := a.currentUser)
  {
    RejectionsAre401(site, req, DescriptorOf(k).capability, s.currentUser);
  }

  /** Only `Post_Base_Endpoint::post` replaces the `post` field; no handler touches `user`. */
  lemma HandleFrame(site: Site, k: Kind, name: string, args: map<string, Value>, post: Option<int>, user: Option<WPUser>)
    requires HasHandler(k, name)
    ensures k != PostBase ==> Handle(site, k, name, args, post, user).post == post
  {
  }

  /** After authentication the pipeline keeps the decoded query variables, the loaded user and the current user, and only adds calls. */
  lemma ProcessFrame(site: Site, k: Kind, req: Request, s: State)
    ensures var s1 := AfterSetup(site, k, s);
            var s' := Process(site, k, req, s).1;
            s'.queryVars == s1.queryVars && s'.user == s1.user && s'.currentUser == s1.currentUser &&
            s'.cookieRequest == s1.cookieRequest && (k != PostBase ==> s'.post == s1.post) &&
            s1.calls <= s'.calls
  {
    var s1 := AfterSetup(site, k, s);
    match ArgsFor(site, DescriptorOf(k), req)
    case Err(_) =>
    case Ok(args) =>
      var name := ToLower(req.verb);
      if HasHandler(k, name) {
        HandleFrame(site, k, name, args, s1.post, s1.user);
      }
  }

  /**
   * A request that gets past authentication has its query variables decoded, and
   * `validate_query_vars` sees the decoded ones: `Post_Endpoint` loads the post for the
   * decoded `post_id`, `User_Endpoint` the user for the decoded `user_id`.
   */
  lemma AcceptedRequestSetsUp(site: Site, k: Kind, req: Request, s: State)
    requires Authenticate(site, req, DescriptorOf(k).capability, s.currentUser).rejection.None?
    ensures var s' := Dispatch(site, k, req, s);
            var vars := UrldecodeAll(site, s.queryVars);
            s'.1.queryVars == vars && s.calls <= s'.1.calls &&
            s'.1.currentUser == Authenticate(site, req, DescriptorOf(k).capability, s.currentUser).currentUser &&
            (k == UserItem ==> s'.1.user == Some(site.userFor(if "user_id" in vars then Some(vars["user_id"]) else None))) &&
            (k == PostItem ==> s'.1.post == site.getPost(if "post_id" in vars then Some(vars["post_id"]) else None))
  {
    var a := Authenticate(site, req, DescriptorOf(k).capability, s.currentUser);
    var s0 := AfterAuth(s, a);
    assert Dispatch(site, k, req, s) == Process(site, k, req, s0);
    ProcessFrame(site, k, req, s0);
  }

  /** Every method an endpoint declares lower-cases to a handler the class defines. */
  lemma DeclaredMethodsHaveHandlers(k: Kind, verb: string)
    requires verb in DescriptorOf(k).methods
    ensures HasHandler(k, ToLower(verb))
  {
    var m := DescriptorOf(k).methods;
    if verb == "GET" {
      assert ToLower(verb) == "get";
    } else if verb == "POST" {
      assert ToLower(verb) == "post";
    } else {
      assert verb == "DELETE";
      assert ToLower(verb) == "delete";
    }
  }

  /** A method with no handler, once past authentication and validation, is a 501 with nothing stored. */
  lemma MissingHandler501(site: Site, k: Kind, req: Request, s: State)
    requires Authenticate(site, req, DescriptorOf(k).capability, s.currentUser).rejection.None?
    requires ArgsFor(site, DescriptorOf(k), req).Ok?
    requires !HasHandler(k, ToLower(req.verb))
    ensures var (r, s') := Dispatch(site, k, req, s);
            r == SendError("", 501) && s'.calls == s.calls
  {
  }

  /** `DELETE` on a post: no arguments, one trash call for the post loaded from `post_id`, then 204. */
  lemma DeletePost(site: Site, req: Request, s: State)
    requires req.verb == "DELETE"
    requires Authenticate(site, req, DescriptorOf(PostItem).capability, s.currentUser).rejection.None?
    ensures var (r, s') := Dispatch(site, PostItem, req, s);
            var vars := UrldecodeAll(site, s.queryVars);
            var post := site.getPost(if "post_id" in vars then Some(vars["post_id"]) else None);
            r == SendError("", 204) && s'.post == post && s'.calls == s.calls + [TrashPost(post)]
  {
    assert ToLower("DELETE") == "delete";
  }

  /** A GET of `post/{POST_ID}` with no logged-in user and no credentials is refused with the Basic challenge. */
  lemma AnonymousGetChallenged(site: Site, req: Request, s: State)
    requires req.verb == "GET" && s.currentUser.None? && req.authUser.None?
    ensures var (r, s') := Dispatch(site, PostItem, req, s);
            r.status == 401 && r.body == Text("") &&
            r.headers == ["WWW-Authenticate: Basic realm=\"" + site.authRealm.GetOr("H-API") + "\""] &&
            s' == s
  {
  }

  /** A logged-in GET of `post/{POST_ID}` with a valid nonce: the post is loaded, nothing is stored, 204. */
  lemma SessionGetPost(site: Site, req: Request, s: State)
    requires req.verb == "GET" && s.currentUser.Some?
    requires SessionAccepts(site, req, DescriptorOf(PostItem).capability, s.currentUser.value)
    ensures var (r, s') := Dispatch(site, PostItem, req, s);
            var vars := UrldecodeAll(site, s.queryVars);
            r == SendError("", 204) && s'.cookieRequest && s'.calls == s.calls &&
            s'.post == site.getPost(if "post_id" in vars then Some(vars["post_id"]) else None)
  {
    GetHasNoArguments(site, PostItem, req);
    assert ToLower("GET") == "get";
  }

  /** With `password` and `email` present, the `User_Base_Endpoint` schema validates, holding both sanitized. */
  lemma UserBaseArguments(site: Site, dirty: map<string, Value>)
    requires "password" in dirty && "email" in dirty
    ensures var r := Validate(site, "POST", UserBaseFields(), dirty);
            r.Ok? &&
            "password" in r.value && r.value["password"] == FieldValue(site, UserBaseFields()[0].1, dirty["password"]) &&
            "email" in r.value && r.value["email"] == FieldValue(site, UserBaseFields()[1].1, dirty["email"])
  {
    var schema := UserBaseFields();
    assert KeysDistinct(schema);
    ValidateErrors(site, "POST", schema, dirty);
    forall i | 0 <= i < |schema| ensures FieldPasses("POST", schema[i], dirty) {
    }
    ValidateResult(site, "POST", schema, dirty);
    var args := Validate(site, "POST", schema, dirty).value;
    assert EntryHolds(site, "POST", schema[0].0, schema[0].1, dirty, args);
    assert EntryHolds(site, "POST", schema[1].0, schema[1].1, dirty, args);
  }

  /**
   * A POST to `user` with both credentials present, past authentication, makes one insert,
   * whose login and email are the sanitized `email`; it answers 200 with the new user's
   * `{id, email}`, or 400 with the store's error message.
   */
  lemma CreateUserProcess(site: Site, req: Request, s: State)
    requires req.verb == "POST" && "password" in req.post && "email" in req.post
    ensures var (r, s') := Process(site, UserBase, req, s);
            var email := Some(FieldValue(site, UserBaseFields()[1].1, StripslashesDeep(site, req.post["email"])));
            var password := Some(FieldValue(site, UserBaseFields()[0].1, StripslashesDeep(site, req.post["password"])));
            |s'.calls| == |s.calls| + 1 && s'.calls[..|s.calls|] == s.calls &&
            var call := s'.calls[|s.calls|];
            call.InsertUser? && call.email == email && call.login == email && call.password == password &&
            (match site.store(call)
             case Ok(id) => r == SendResponse(GetUserObject(site.userById(id)))
             case Err(message) => r == SendError(message, 400))
  {
    var dirty := StripslashesMap(site, req.post);
    UserBaseArguments(site, dirty);
    var args := Validate(site, "POST", UserBaseFields(), dirty).value;
    assert ArgsFor(site, DescriptorOf(UserBase), req) == Ok(args);
    assert ToLower("POST") == "post";
    ProcessHandled(site, UserBase, req, s, args);
    var s1 := AfterSetup(site, UserBase, s);
    var h := Handle(site, UserBase, "post", args, s1.post, s1.user);
    InsertUserOutcome(site, args, s1.post, s1.user);
    var (r, s') := Process(site, UserBase, req, s);
    assert s'.calls == s.calls + h.calls;
    assert s'.calls[|s.calls|] == h.calls[0];
    assert r == h.response.value;
  }

  /** `CreateUserProcess` for a whole request that gets past authentication. */
  lemma CreateUser(site: Site, req: Request, s: State)
    requires req.verb == "POST" && "password" in req.post && "email" in req.post
    requires Authenticate(site, req, DescriptorOf(UserBase).capability, s.currentUser).rejection.None?
    ensures var (r, s') := Dispatch(site, UserBase, req, s);
            var email := Some(FieldValue(site, UserBaseFields()[1].1, StripslashesDeep(site, req.post["email"])));
            var password := Some(FieldValue(site, UserBaseFields()[0].1, StripslashesDeep(site, req.post["password"])));
            |s'.calls| == |s.calls| + 1 && s'.calls[..|s.calls|] == s.calls &&
            var call := s'.calls[|s.calls|];
            call.InsertUser? && call.email == email && call.login == email && call.password == password &&
            (match site.store(call)
             case Ok(id) => r == SendResponse(GetUserObject(site.userById(id)))
             case Err(message) => r == SendError(message, 400))
  {
    var a := Authenticate(site, req, DescriptorOf(UserBase).capability, s.currentUser);
    DispatchAccepted(site, UserBase, req, s);
    CreateUserProcess(site, req, AfterAuth(s, a));
  }

  /** A POST to `user/{USER_ID}` with both credentials present reaches the empty handler: 204, nothing stored. */
  lemma UserItemPostIsNoContent(site: Site, req: Request, s: State)
    requires req.verb == "POST" && "password" in req.post && "email" in req.post
    requires Authenticate(site, req, DescriptorOf(UserItem).capability, s.currentUser).rejection.None?
    ensures var (r, s') := Dispatch(site, UserItem, req, s);
            r == SendError("", 204) && s'.calls == s.calls
  {
    var a := Authenticate(site, req, DescriptorOf(UserItem).capability, s.currentUser);
    DispatchAccepted(site, UserItem, req, s);
    var schema := UserCredentialFields();
    var dirty := StripslashesMap(site, req.post);
    ValidateErrors(site, "POST", schema, dirty);
    forall i | 0 <= i < |schema| ensures FieldPasses("POST", schema[i], dirty) {
    }
    var args := Validate(site, "POST", schema, dirty).value;
    assert ToLower("POST") == "post";
    ProcessHandled(site, UserItem, req, AfterAuth(s, a), args);
  }
}
