/**
 * The WordPress collaborators the endpoints call, and the per-request input.
 *
 * Every WordPress or PHP function the core calls and does not define is a field of
 * `Site`: an uninterpreted function the model passes around.  The content store is
 * reached only through `store`, which receives the call an endpoint makes
 * (`wp_update_post`, `wp_insert_post`, `wp_trash_post`, `wp_insert_user`) and answers
 * with the new id or the error message of a `WP_Error`.
 */
module WordPress {

  import opened Wrappers
  import opened Values

  /** The two fields of a `WP_User` the core reads: `ID` and `user_email`. */
  datatype WPUser = WPUser(id: int, email: string)

  /** A call an endpoint handler makes into the content store, with the fields it passes. */
  datatype StoreCall =
    | UpdatePost(postId: Option<int>, title: Option<Value>, content: Option<Value>)
    | InsertPost(postTitle: Value, postContent: Value)
    | TrashPost(postId: Option<int>)
    | InsertUser(email: Option<Value>, password: Option<Value>, login: Option<Value>,
                 firstName: Option<Value>, lastName: Option<Value>)

  datatype Site = Site(
    userCan: (int, string) -> bool,                  // current_user_can, for a given current user
    verifyNonce: (Value, string) -> bool,            // wp_verify_nonce( nonce, action )
    checkPassword: (string, string) -> Option<int>,  // wp_authenticate: the user's ID, or None for a WP_Error
    userMeta: map<string, int>,                      // user_id stored under each usermeta meta_key
    authRealm: Option<string>,                       // HAPI_AUTH_REALM, when defined
    sanitizeTextField: Value -> Value,               // sanitize_text_field
    functions: map<string, Value -> Value>,          // the other defined functions, by name
    addslashes: string -> string,
    stripslashes: string -> string,
    urldecode: string -> string,
    getPost: Option<string> -> Option<int>,          // get_post( query var ): the post's ID, or None for null
    getPostById: int -> Option<int>,                 // get_post( id )
    userFor: Option<string> -> WPUser,               // new WP_User( query var )
    userById: int -> WPUser,                         // new WP_User( id )
    store: StoreCall -> Result<int, string>)

  /** The superglobals one request reads: the method (`REQUEST_METHOD`), `$_GET`, `$_POST`, `$_REQUEST`, and HTTP Basic credentials. */
  datatype Request = Request(
    verb: string,
    get: map<string, Value>,
    post: map<string, Value>,
    request: map<string, Value>,
    authUser: Option<string>,
    authPw: Option<string>)

  /** WordPress's `stripslashes_deep`: `stripslashes` on every string, arrays walked element by element. */
  function StripslashesDeep(site: Site, v: Value): (r: Value)
    ensures v.List? ==> r.List? && |r.items| == |v.items|
    decreases v
  {
    match v
    case Str(s) => Str(site.stripslashes(s))
    case List(items) => List(StripslashesDeepAll(site, items))
  }

  function StripslashesDeepAll(site: Site, items: seq<Value>): (r: seq<Value>)
    ensures |r| == |items|
    ensures forall i :: 0 <= i < |items| ==> r[i] == StripslashesDeep(site, items[i])
    decreases items
  {
    if items == [] then [] else [StripslashesDeep(site, items[0])] + StripslashesDeepAll(site, items[1..])
  }

  /** `stripslashes_deep` of a superglobal array: the same keys, every value unslashed. */
  function StripslashesMap(site: Site, m: map<string, Value>): (r: map<string, Value>)
    ensures r.Keys == m.Keys
    ensures forall k :: k in m ==> r[k] == StripslashesDeep(site, m[k])
  {
    map k | k in m :: StripslashesDeep(site, m[k])
  }

  /** `array_map( 'urldecode', $wp->query_vars )`: the same keys, every value decoded. */
  function UrldecodeAll(site: Site, vars: map<string, string>): (r: map<string, string>)
    ensures r.Keys == vars.Keys
    ensures forall k :: k in vars ==> r[k] == site.urldecode(vars[k])
  {
    map k | k in vars :: site.urldecode(vars[k])
  }

  /**
   * The request-global state the core writes: the `$wp` object's `query_vars`, WordPress's
   * current user (set by the login cookie before the request reaches the API, and by
   * `wp_set_current_user`), and the log of calls made into the content store.
   */
  class WordPress {
    var queryVars: map<string, string>
    var currentUser: Option<int>
    var calls: seq<StoreCall>

    constructor (queryVars: map<string, string>, currentUser: Option<int>)
      ensures this.queryVars == queryVars && this.currentUser == currentUser && calls == []
    {
      this.queryVars := queryVars;
      this.currentUser := currentUser;
      calls := [];
    }
  }
}
