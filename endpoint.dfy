/**
 * The `Endpoint` class: an endpoint object of one of the four concrete classes, with the
 * fields `base_callback` writes (`is_cookie_request`, and the `post` or `user` the
 * subclasses load), and the request-handling methods written as the source writes them.
 *
 * Each method is proved against the pure model: `ValidateArguments` computes
 * `Arguments.Validate`, `Authenticate` computes `Auth.Authenticate`, and `BaseCallback`
 * computes `Dispatch.Dispatch` on the state it reads and writes.
 */
module EndpointBase {

  import opened Wrappers
  import opened Values
  import opened WordPress
  import opened Arguments
  import opened Auth
  import opened Descriptors
  import opened Dispatch
  import Patterns

  class Endpoint {
    /** Which concrete class this object is, and the property values that class declares. */
    const kind: Kind
    const properties: Descriptor
    var isCookieRequest: bool
    var post: Option<int>
    var user: Option<WPUser>

    /** A fresh endpoint object: `is_cookie_request` unset (false), no post or user loaded. */
    constructor (kind: Kind)
      ensures this.kind == kind && Valid() && !isCookieRequest && post.None? && user.None?
    {
      this.kind := kind;
      properties := DescriptorOf(kind);
      isCookieRequest := false;
      post := None;
      user := None;
    }

    /** The properties are those the object's class declares. */
    predicate Valid() {
      properties == DescriptorOf(kind)
    }

    function GetPattern(): string {
      properties.pattern
    }

    function GetRegexTokens(): seq<(string, string)> {
      Patterns.RegexTokens()
    }

    /** `get_regex`: the pattern with every known token replaced by its capture group. */
    function GetRegex(): (r: string)
      ensures r == Patterns.Compile(GetPattern()) && Patterns.TokenFree(r)
    {
      Patterns.CompileIsTokenFree(GetPattern());
      Patterns.GetRegex(GetPattern())
    }

    function GetQuery(): string {
      properties.query
    }

    function GetArguments(): Schema {
      properties.arguments
    }

    function GetMethods(): seq<string> {
      properties.methods
    }

    function IsAuthenticated(): bool {
      properties.authenticated
    }

    function IsPublic(): bool {
      properties.isPublic
    }

    function Capability(): string {
      properties.capability
    }

    function IsCookieRequest(): bool
      reads this
    {
      isCookieRequest
    }

    /** The state `base_callback` reads and writes, on this endpoint and on WordPress. */
    function Snapshot(wp: WordPress): State
      reads this, wp
    {
      State(isCookieRequest, post, user, wp.currentUser, wp.queryVars, wp.calls)
    }

    /**
     * `validate_arguments( $dirty_args )`, walking the schema in order.  A failing field ends
     * the walk with its 400 response; otherwise the sanitized map is returned.
     */
    method ValidateArguments(site: Site, verb: string, dirty: map<string, Value>)
      returns (r: Result<map<string, Value>, Response>)
      ensures r == Validate(site, verb, GetArguments(), dirty)
    {
      var schema := GetArguments();
      var safe: map<string, Value> := map[];
      var i := 0;
      while i < |schema|
        invariant 0 <= i <= |schema|
        invariant Validate(site, verb, schema, dirty) == ValidateFrom(site, verb, schema[i..], dirty, safe)
      {
        var (key, spec) := schema[i];
        assert schema[i..][0] == schema[i] && schema[i..][1..] == schema[i + 1..];
        if verb !in spec.methods {
          i := i + 1;
          continue;
        }
        if spec.required && key !in dirty {
          return Err(SendError(RequiredMessage(key), 400));
        }
        if key !in dirty {
          if spec.default.Some? {
            safe := safe[key := spec.default.value];
          }
          i := i + 1;
          continue;
        }
        if spec.options != [] && !InOptions(dirty[key], spec.options) {
          return Err(SendError(OptionsMessage(key, spec.options), 400));
        }
        var sanitize := ChooseSanitizer(site, spec.callback);
        if spec.options == [] && spec.multiple {
          var values := DirtyValues(dirty[key]);
          var out: seq<Value> := [];
          var j := 0;
          while j < |values|
            invariant 0 <= j <= |values|
            invariant |out| == j && forall t :: 0 <= t < j ==> out[t] == SanitizeElement(sanitize, values[t])
          {
            out := out + [SanitizeElement(sanitize, values[j])];
            j := j + 1;
          }
          assert out == SanitizeEach(sanitize, values);
          safe := safe[key := List(out)];
        } else {
          safe := safe[key := SanitizeSingle(site, sanitize, dirty[key])];
        }
        i := i + 1;
      }
      return Ok(safe);
    }

    /**
     * `authenticate`: the session path marks the cookie request and checks capability and
     * nonce; otherwise HTTP Basic credentials set the current user, which must hold the
     * capability; otherwise the challenge.  The result is the refusal, if any.
     */
    method Authenticate(site: Site, req: Request, wp: WordPress) returns (rejection: Option<Response>)
      modifies this`isCookieRequest, wp`currentUser
      ensures var a := Auth.Authenticate(site, req, Capability(), old(wp.currentUser));
              rejection == a.rejection && wp.currentUser == a.currentUser &&
              isCookieRequest == (old(isCookieRequest) || a.cookieRequest)
    {
      var capability := Capability();
      if wp.currentUser.Some? {
        isCookieRequest := true;
        if Truthy(capability) && !site.userCan(wp.currentUser.value, capability) {
          return Some(Unauthorized());
        }
        var nonce := Nonce(req);
        if Empty(nonce) || !site.verifyNonce(nonce.value, NonceAction) {
          return Some(Unauthorized());
        }
        return None;
      }
      if !EmptyString(req.authUser) {
        var found: Option<int>;
        if !EmptyString(req.authPw) {
          found := site.checkPassword(req.authUser.value, req.authPw.value);
        } else {
          found := UserByApiKey(site, AsString(site.sanitizeTextField(Str(req.authUser.value))));
        }
        if found.Some? {
          wp.currentUser := found;
          if !site.userCan(found.value, capability) {
            return Some(Unauthorized());
          }
          return None;
        }
      }
      return Some(Challenge(site));
    }

    /** `validate_query_vars`: the item endpoints load their post or user from the path variable. */
    method ValidateQueryVars(site: Site, vars: map<string, string>)
      modifies this`post, this`user
      ensures (post, user) == SetupQueryVars(site, kind, vars, old(post), old(user))
    {
      match kind
      case PostItem =>
        post := site.getPost(if "post_id" in vars then Some(vars["post_id"]) else None);
      case UserItem =>
        user := Some(site.userFor(if "user_id" in vars then Some(vars["user_id"]) else None));
      case _ =>
    }

    /** `$this->$method( $args )`: the handler's store call, the response it sent, and the `post` it left. */
    method CallHandler(site: Site, name: string, args: map<string, Value>, wp: WordPress)
      returns (response: Option<Response>)
      requires HasHandler(kind, name)
      modifies this`post, wp`calls
      ensures var h := Handle(site, kind, name, args, old(post), user);
              response == h.response && post == h.post && wp.calls == old(wp.calls) + h.calls
    {
      response := None;
      if name == "get" {
        if kind == UserItem {
          response := Some(SendResponse(match user case Some(u) => GetUserObject(u) case None => NullUserObject()));
        }
      } else if name == "delete" {
        wp.calls := wp.calls + [TrashPost(post)];
      } else if kind == PostItem {
        var call := UpdatePost(post, Get(args, "title"), Get(args, "content"));
        wp.calls := wp.calls + [call];
        var result := site.store(call);
        if result.Err? {
          response := Some(SendError(result.error, 400));
        }
      } else if kind == PostBase {
        var merged := ParseArgs(args, map["title" := Str(""), "content" := Str("")]);
        var call := InsertPost(merged["title"], merged["content"]);
        wp.calls := wp.calls + [call];
        var result := site.store(call);
        if result.Err? {
          response := Some(SendError(result.error, 400));
        } else {
          post := site.getPostById(result.value);
        }
      } else if kind == UserBase {
        var merged := ParseArgs(args, map["first_name" := Str(""), "last_name" := Str("")]);
        var call := InsertUser(Get(merged, "email"), Get(merged, "password"), Get(merged, "email"),
                               Get(merged, "first_name"), Get(merged, "last_name"));
        wp.calls := wp.calls + [call];
        var result := site.store(call);
        if result.Err? {
          response := Some(SendError(result.error, 400));
        } else {
          response := Some(SendResponse(GetUserObject(site.userById(result.value))));
        }
      }
    }

    /**
     * `base_callback( $wp )`: authenticate when the endpoint asks for it, then run the rest of
     * the pipeline.  The response is the one that ends the request.
     */
    method BaseCallback(site: Site, req: Request, wp: WordPress) returns (response: Response)
      requires Valid()
      modifies this, wp
      ensures (response, Snapshot(wp)) == Dispatch.Dispatch(site, kind, req, old(Snapshot(wp)))
    {
      ghost var before := Snapshot(wp);
      if IsAuthenticated() {
        var rejection := Authenticate(site, req, wp);
        ghost var a := Auth.Authenticate(site, req, Capability(), before.currentUser);
        assert Snapshot(wp) == AfterAuth(before, a);
        if rejection.Some? {
          return rejection.value;
        }
      }
      response := HandleRequest(site, req, wp);
    }

    /** The `switch` on the request method: POST and GET validate their unslashed input, other methods have no arguments. */
    method RequestArguments(site: Site, req: Request) returns (r: Result<map<string, Value>, Response>)
      ensures r == ArgsFor(site, properties, req)
    {
      if req.verb == "POST" {
        r := ValidateArguments(site, req.verb, StripslashesMap(site, req.post));
      } else if req.verb == "GET" {
        r := ValidateArguments(site, req.verb, StripslashesMap(site, req.get));
      } else {
        r := Ok(map[]);
      }
    }

    /**
     * The part of `base_callback` after authentication: decode the query variables, run the
     * hook, validate the arguments of POST or GET, then call the handler (204 when it sends
     * nothing) or answer 501.
     */
    method HandleRequest(site: Site, req: Request, wp: WordPress) returns (response: Response)
      requires Valid()
      modifies this, wp
      ensures (response, Snapshot(wp)) == Process(site, kind, req, old(Snapshot(wp)))
    {
      ghost var before := Snapshot(wp);
      wp.queryVars := UrldecodeAll(site, wp.queryVars);
      ValidateQueryVars(site, wp.queryVars);
      assert Snapshot(wp) == AfterSetup(site, kind, before);
      var r := RequestArguments(site, req);
      if r.Err? {
        ProcessRejected(site, kind, req, before);
        return r.error;
      }
      var args := r.value;
      var name := ToLower(req.verb);
      if HasHandler(kind, name) {
        ghost var setUp := Snapshot(wp);
        ProcessHandled(site, kind, req, before, args);
        var sent := CallHandler(site, name, args, wp);
        ghost var h := Handle(site, kind, name, args, setUp.post, setUp.user);
        assert Snapshot(wp) == setUp.(post := h.post, calls := setUp.calls + h.calls);
        if sent.Some? {
          return sent.value;
        }
        return SendError("", 204);
      }
      ProcessUnhandled(site, kind, req, before);
      return SendError("", 501);
    }
  }
}
