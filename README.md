# H API request pipeline, modelled in Dafny

H API is a WordPress plugin that serves a small JSON API under `/api/json/`. An endpoint
declares the following:

- a URL pattern with placeholder tokens (`post/{POST_ID}`);
- a query string that binds the pattern's captures to query variables;
- the HTTP methods it accepts;
- an argument schema;
- handler methods named after the HTTP methods.

The plugin's `Endpoints` registry compiles every endpoint's pattern into an anchored rewrite
rule and adds a final catch-all rule. A rule's callback, `Endpoint::base_callback`, runs the
request pipeline in this order:

1. authentication (cookie session with nonce, or HTTP Basic login, or API key);
2. `urldecode` of the query variables;
3. a per-endpoint hook that loads the post or user named in the path;
4. argument validation and sanitization;
5. the handler for the method, or 501.

Every response ends the request. This project models that core and proves properties of it.

The model has these modules, one per concern:

- **`Values`**: request values, PHP `empty()`, and the two response writers `send_error` and `send_response`. Each returns the response that ends the request.
- **`WordPress`**: the WordPress functions the core calls, as opaque function values in a `Site` record. It also holds the per-request superglobals, and the `WordPress` object with `$wp->query_vars`, the current user and the content-store call log.
- **`Patterns`**: `get_regex_tokens` and `get_regex`. The latter is modelled as PHP's sequential `str_replace` and proved equal to a one-pass reference compiler.
- **`Arguments`**: the specification of `validate_arguments`, as a fold over the schema.
- **`Auth`**: the specification of `authenticate` and `get_user_by_api_key`.
- **`Descriptors`**: the four concrete endpoint classes as data (pattern, query, methods, schema), their handlers against the store, and their `validate_query_vars` hooks.
- **`Dispatch`**: the specification of `base_callback`, as a function from the request and the state it touches to the final response and the new state.
- **`EndpointBase`**: the `Endpoint` class with its mutable fields. Its methods `ValidateArguments` (the source's nested loops), `Authenticate`, `ValidateQueryVars`, the handler call and `BaseCallback` are imperative, and each is proved to compute its specification.
- **`Registry`**: the `Endpoints` class (endpoint list, directory list, rule registration, `require_files` load order) and the lazily created single instance with its hooks.

Where the behaviour described for the system and the code differ, the model follows the code:

- The request pipeline never reaches the `redirect_to` branch of `base_callback`: `send_error( '', 204 )` and `send_error( '', 501 )` exit before it. `Dispatch.DispatchStatuses` proves that no request ends with 303.
- A user found by API key must hold the endpoint's capability at once. The key is not handed on to later code unchecked.

## Model

| member | source | states |
|---|---|---|
| Values.Empty | inc/endpoints/class-endpoint.php:266 | definition: PHP `empty()` of a value: absent, `''`, `'0'` or an empty array |
| Values.EmptyString | inc/endpoints/class-endpoint.php:274-276 | definition: PHP `empty()` of a `$_SERVER` string: absent, `''` or `'0'` |
| Values.SendError | inc/class-endpoints.php:122-127 | definition: the response has the given status (400 by default), no headers, and the raw message as its text body |
| Values.SendResponse | inc/class-endpoints.php:135-141 | definition: the response has the given status (200 by default), the JSON content-type header, and the value as a JSON body |
| WordPress.StripslashesMap | inc/endpoints/class-endpoint.php:110 | definition: `stripslashes_deep` of a superglobal keeps exactly its keys and unslashes every value, walking arrays element by element |
| WordPress.StripslashesDeep | inc/endpoints/class-endpoint.php:110 | `stripslashes_deep` unslashes a string, and an array element by element with its length kept |
| WordPress.UrldecodeAll | inc/endpoints/class-endpoint.php:101 | definition: `array_map( 'urldecode', … )` keeps exactly the query-variable keys and decodes every value |
| Patterns.RegexTokens | inc/endpoints/class-endpoint.php:31-38 | definition: the four tokens in order, each mapped to `([\d]+)`; `Patterns.TokenNames` states its keys |
| Patterns.ReplaceAll | inc/endpoints/class-endpoint.php:45 | definition: `str_replace` with one search string, left to right and non-overlapping; `Patterns.GetRegexIsCompile` relates it to the one-pass reference |
| Patterns.StrReplace | inc/endpoints/class-endpoint.php:45 | definition: `str_replace` with arrays applies the pairs one after the other; `Patterns.GetRegexIsCompile` proves the four token pairs equal to `Compile` |
| Patterns.Compile | inc/endpoints/class-endpoint.php:43-46 | the independent one-pass reference for `get_regex`; `Patterns.CompileIsTokenFree`, `CompileUnchangedIff`, `CompileShrinks` and `CompileIdempotent` state its properties |
| Patterns.TokenNames | inc/endpoints/class-endpoint.php:31-38 | the token table's keys are `{POST_ID}`, `{USER_ID}`, `{COMMENT_ID}`, `{TERM_ID}`, in order |
| Patterns.GetRegex | inc/endpoints/class-endpoint.php:43-46 | the sequential `str_replace` of the four tokens equals the one-pass compiler `Compile` |
| Patterns.GetRegexIsCompile | inc/endpoints/class-endpoint.php:43-46 | replacing the tokens one after the other gives the same string as replacing every token occurrence in one left-to-right pass |
| Patterns.CompileIsTokenFree | inc/endpoints/class-endpoint.php:43-46 | no built-in token is left anywhere in a compiled pattern |
| Patterns.CompileUnchangedIff | inc/endpoints/class-endpoint.php:43-46 | a pattern comes back unchanged exactly when it holds no built-in token, so unknown `{...}` tokens and all other text are kept |
| Patterns.CompileShrinks | inc/endpoints/class-endpoint.php:31-46 | a compiled pattern is never longer than the pattern, since every token is longer than `([\d]+)` |
| Patterns.CompileIdempotent | inc/endpoints/class-endpoint.php:43-46 | applying `get_regex` to a compiled pattern changes nothing |
| Arguments.AddSlashes | inc/endpoints/class-endpoint.php:240 | definition: `addslashes` of a string value |
| Arguments.StripSlashes | inc/endpoints/class-endpoint.php:240 | definition: `stripslashes` of a string value |
| Arguments.SanitizeElement | inc/endpoints/class-endpoint.php:228-231 | definition: one element of a `multiple` field, sanitized when a sanitizer is set and kept otherwise |
| Arguments.RequiredMessage | inc/endpoints/class-endpoint.php:184 | definition: the text `'<key>' is a required argument.`; `Descriptors.PasswordRequired` spells it out for `password` |
| Arguments.OptionsMessage | inc/endpoints/class-endpoint.php:195 | definition: the text `'<key>' must be one of ` followed by the options joined with `, ` |
| Arguments.InOptions | inc/endpoints/class-endpoint.php:194 | definition: `in_array` of the value among the options, compared as strings |
| Arguments.Lookup | inc/endpoints/class-endpoint.php:204-205 | definition: `is_callable` of a name holds for `sanitize_text_field` and for any defined function; `Arguments.ChooseSanitizer` states how the choice follows from it |
| Arguments.ChooseSanitizer | inc/endpoints/class-endpoint.php:199-213 | `false` passes through; a callable name is used; an unset, empty or undefined name falls back to `sanitize_text_field` |
| Arguments.ExplodeThenImplode | inc/endpoints/class-endpoint.php:217-218 | joining the `explode` pieces with the separator gives back the string; no piece holds the separator; there is one more piece than separators |
| Arguments.ImplodeThenExplode | inc/endpoints/class-endpoint.php:217-218 | splitting separator-free pieces joined by the separator gives back the pieces |
| Arguments.Explode | inc/endpoints/class-endpoint.php:217-218 | `explode` always yields at least one piece; `Arguments.ExplodeThenImplode` and `Arguments.ImplodeThenExplode` state its round trips with `implode` |
| Arguments.Implode | inc/endpoints/class-endpoint.php:195 | definition: `implode( glue, parts )`; `Arguments.ExplodeThenImplode` and `Arguments.ImplodeThenExplode` relate it to `explode` |
| Arguments.DirtyValues | inc/endpoints/class-endpoint.php:215-222 | definition: a string with a comma is exploded, an array is kept, anything else is wrapped; `Arguments.MultipleSplits` and `Arguments.MultipleKeepsShape` state the three shapes |
| Arguments.SanitizeSingle | inc/endpoints/class-endpoint.php:237-246 | definition of the single-value branch; `Arguments.SlashedSanitizerBracketed` and `Arguments.OtherSanitizersUnbracketed` state when the slash bracketing applies |
| Arguments.FieldValue | inc/endpoints/class-endpoint.php:199-248 | definition of the value stored for a present field; the bracketing, multiple-value and sanitizer-choice lemmas state it case by case |
| Arguments.Step | inc/endpoints/class-endpoint.php:180-248 | definition of one iteration of the schema loop; `Arguments.StepFails` states exactly when it aborts, and with which message |
| Arguments.ValidateFrom | inc/endpoints/class-endpoint.php:178-250 | definition of the schema loop as a fold from an accumulator; `EndpointBase.Endpoint.ValidateArguments` is proved to compute it |
| Arguments.Validate | inc/endpoints/class-endpoint.php:175-252 | definition: the fold from the empty map; `Arguments.ValidateErrors` and `Arguments.ValidateResult` state its errors and its result both ways |
| Arguments.FirstFailure | inc/endpoints/class-endpoint.php:178-197 | the index of the first field that fails in schema order; every field before it passes |
| Arguments.StepFails | inc/endpoints/class-endpoint.php:180-197 | one schema field aborts exactly when it applies to the method and is missing while required, or lies outside its options; the error is that field's 400 message |
| Arguments.ValidateErrors | inc/endpoints/class-endpoint.php:175-197 | validation succeeds iff every field passes; otherwise it fails with the first failing field's 400: `'<key>' is a required argument.` or `'<key>' must be one of a, b` |
| Arguments.ValidateResult | inc/endpoints/class-endpoint.php:175-252 | a successful result holds only schema keys; a field not listing the method is absent; a present field holds its sanitized value; an absent field holds its default, or is omitted without one |
| Arguments.MultipleSplits | inc/endpoints/class-endpoint.php:215-233 | a `multiple` field's string containing commas becomes its `explode` pieces, each sanitized on its own, in order, one per comma plus one |
| Arguments.MultipleKeepsShape | inc/endpoints/class-endpoint.php:215-233 | a `multiple` field's array is sanitized element by element with its length kept; a comma-free string becomes a one-element list |
| Arguments.SanitizeEach | inc/endpoints/class-endpoint.php:226-233 | definition: the output list has the input's length, and each element is the sanitizer applied to the matching input element |
| Arguments.SlashedSanitizerBracketed | inc/endpoints/class-endpoint.php:236-241 | a single-valued field with the defined `wp_filter_post_kses` as callback stores `stripslashes( f( addslashes( v ) ) )` |
| Arguments.OtherSanitizersUnbracketed | inc/endpoints/class-endpoint.php:237-246 | every other single-valued field is stored without the bracketing: its own callable applied directly, `sanitize_text_field` when it names nothing callable, the raw value when disabled |
| Arguments.MultipleNeverBracketed | inc/endpoints/class-endpoint.php:226-233 | on a `multiple` field even `wp_filter_post_kses` is applied to every element directly, with the element count kept |
| Auth.Truthy | inc/endpoints/class-endpoint.php:261 | definition: a capability string is truthy unless it is `''` or `'0'` |
| Auth.ChallengeHeader | inc/endpoints/class-endpoint.php:293-294 | definition: `WWW-Authenticate: Basic realm="<realm>"` with `HAPI_AUTH_REALM` when defined and `H-API` otherwise |
| Auth.Unauthorized | inc/endpoints/class-endpoint.php:262 | definition: `send_error( '', 401 )` |
| Auth.Nonce | inc/endpoints/class-endpoint.php:266 | definition: the `_nonce` entry of `$_REQUEST`, if any |
| Auth.SessionAccepts | inc/endpoints/class-endpoint.php:261-268 | definition: the capability, when set, is held, and the nonce is non-empty and verifies for `h-api` |
| Auth.UserByApiKey | inc/endpoints/class-endpoint.php:301-312 | a user is found exactly when a non-zero user id is stored under `api_key_` followed by the key, and the result is the `ID` of the `WP_User` built from that stored id |
| Auth.BasicUser | inc/endpoints/class-endpoint.php:274-280 | definition: a login with a password, an API-key lookup of the sanitized name without one; `Auth.PasswordNeverUsesApiKeys`, `Auth.WrongPasswordChallenged` and `Auth.ApiKeyPath` state its cases |
| Auth.Challenge | inc/endpoints/class-endpoint.php:293-295 | definition: the challenge is a 401 with an empty body and the single header `WWW-Authenticate: Basic realm="<HAPI_AUTH_REALM or H-API>"` |
| Auth.Authenticate | inc/endpoints/class-endpoint.php:254-296 | session: marks the cookie request and accepts iff the capability (when set) is held and the nonce is non-empty and verifies. Basic: the resolved user becomes current and is accepted iff it holds the capability. Otherwise: the challenge, with nothing changed |
| Auth.RejectionsAre401 | inc/endpoints/class-endpoint.php:254-296 | every refusal is a 401 with an empty body; it carries a header exactly in the no-credentials or failed-credentials case |
| Auth.AcceptedHasPrincipal | inc/endpoints/class-endpoint.php:256-290 | an accepted request has a current user, and is a cookie request iff a user was logged in before |
| Auth.SessionIgnoresBasic | inc/endpoints/class-endpoint.php:256-271 | with a logged-in user, Basic credentials cannot change the outcome |
| Auth.PasswordNeverUsesApiKeys | inc/endpoints/class-endpoint.php:276-280 | with a password given, the API-key table cannot change the outcome |
| Auth.WrongPasswordChallenged | inc/endpoints/class-endpoint.php:276-295 | a wrong password does not fall back to the API-key lookup and is refused with the challenge |
| Auth.ApiKeyPath | inc/endpoints/class-endpoint.php:278-290 | with an empty password, the request is accepted iff the sanitized user name is a stored key whose user holds the capability |
| Descriptors.BaseDescriptor | inc/endpoints/class-endpoint.php:9-16 | definition: the property defaults of the abstract class: empty pattern and query, no arguments, GET, authenticated, public, `edit_posts` |
| Descriptors.Field | inc/endpoints/class-endpoint.php:178-213 | definition: a schema entry with the keys the four classes set (`methods`, `required`, `sanitize_callback`) and no default, options or `multiple` |
| Descriptors.PostFields | inc/endpoints/class-post-endpoint.php:12-23 | definition: optional POST-only `title` (`sanitize_text_field`) and `content` (`wp_filter_kses_post`), as in both post classes |
| Descriptors.UserCredentialFields | inc/endpoints/class-user.php:12-23 | definition: required POST-only `password` (callback `''`) and `email` (`sanitize_email`) |
| Descriptors.UserBaseFields | inc/endpoints/class-user-base-endpoint.php:11-32 | definition: the credential fields followed by optional `first_name` and `last_name` (`sanitize_text_field`) |
| Descriptors.DescriptorOf | inc/endpoints/class-post-endpoint.php:7-23 | definition: the properties each of the four classes declares over the base defaults; the four pattern lemmas check each class's pattern, query and methods against its own file |
| Descriptors.HasHandler | inc/endpoints/class-endpoint.php:123-125 | definition: the lower-case method names each class defines; `Dispatch.DeclaredMethodsHaveHandlers` proves every declared method has one |
| Descriptors.PostBasePattern | inc/endpoints/class-post-base-endpoint.php:7-8 | `post` compiles to itself, the query is the inherited empty string, and the methods are GET and POST |
| Descriptors.PostItemPattern | inc/endpoints/class-post-endpoint.php:7-9 | `post/{POST_ID}` compiles to `post/([\d]+)` with exactly one token, the query binds `$matches[1]` to `post_id`, and the methods are GET, POST and DELETE |
| Descriptors.UserBasePattern | inc/endpoints/class-user-base-endpoint.php:7-8 | `user` compiles to itself, the query is empty, and the methods are GET and POST |
| Descriptors.UserItemPattern | inc/endpoints/class-user.php:7-9 | `user/{USER_ID}` compiles to `user/([\d]+)` with exactly one token, the query binds `$matches[1]` to `user_id`, and the methods are GET and POST |
| Descriptors.PostContentNotBracketed | inc/endpoints/class-post-endpoint.php:18-21 | `content` names `wp_filter_kses_post`, not the special-cased name, so it is sanitized without slash bracketing |
| Descriptors.UserPasswordReportedFirst | inc/endpoints/class-user-base-endpoint.php:12-21 | with `password` and `email` both missing on POST, both user schemas fail with `'password' is a required argument.` |
| Descriptors.UserPasswordSanitized | inc/endpoints/class-user-base-endpoint.php:13 | `sanitize_callback => ''` is not callable, so `password` is sanitized with `sanitize_text_field` |
| Descriptors.GetUserObject | inc/endpoints/class-user.php:38-44 | definition: the object has exactly the members `id` and `email`, taken from the user's `ID` and `user_email` |
| Descriptors.NullUserObject | inc/endpoints/class-user.php:38-44 | definition: `get_user_object` of no user, with both members null; `Dispatch.Dispatch` never reaches it |
| Descriptors.Get | inc/endpoints/class-post-endpoint.php:33-34 | definition: reading `$args[key]`, absent when the key is missing |
| Descriptors.ParseArgs | inc/endpoints/class-post-base-endpoint.php:30-33 | `wp_parse_args`: the keys of both maps; a given argument wins, and a default fills a missing key |
| Descriptors.Handle | inc/endpoints/class-endpoint.php:125-126 | definition: the call of the class's handler for the method; `Descriptors.HandlerResponses` and the outcome lemmas state what each handler does |
| Descriptors.UpdatePostHandler | inc/endpoints/class-post-endpoint.php:29-40 | definition of `Post_Endpoint::post`; `Descriptors.UpdatePostOutcome` states its call and responses |
| Descriptors.InsertPostHandler | inc/endpoints/class-post-base-endpoint.php:28-45 | definition of `Post_Base_Endpoint::post`; `Descriptors.InsertPostDefaults` states its call, defaults and responses |
| Descriptors.InsertUserHandler | inc/endpoints/class-user-base-endpoint.php:39-59 | definition of `User_Base_Endpoint::post`; `Descriptors.InsertUserOutcome` states its call and responses |
| Descriptors.SetupQueryVars | inc/endpoints/class-post-endpoint.php:46-52 | definition of the `validate_query_vars` hooks (also `class-user.php` lines 46-52); `Dispatch.AcceptedRequestSetsUp` states what they load |
| Descriptors.HandlerResponses | inc/endpoints/class-user-base-endpoint.php:54-58 | a response sent by any handler is a 400 or a 200 |
| Descriptors.UpdatePostOutcome | inc/endpoints/class-post-endpoint.php:29-40 | one update call for the loaded post with the `title` and `content` given; a store error is a 400 with its message, and success returns without a response |
| Descriptors.InsertPostDefaults | inc/endpoints/class-post-base-endpoint.php:28-45 | one insert with `''` for a missing title or content; an error is a 400 with its message and keeps `post`; success loads the new post and returns without a response |
| Descriptors.InsertUserOutcome | inc/endpoints/class-user-base-endpoint.php:39-59 | one insert whose login is the email and whose missing names are `''`; an error is a 400 with its message; success is a 200 with the new user's `{id, email}` |
| Descriptors.UserGetResponds | inc/endpoints/class-user.php:25-27 | GET answers 200 with the loaded user's object |
| Dispatch.ToLower | inc/endpoints/class-endpoint.php:123 | definition: `strtolower` keeps the length and lowers each ASCII letter |
| Dispatch.LowerChar | inc/endpoints/class-endpoint.php:123 | definition: `strtolower` of one character, lowering only `A` to `Z` |
| Dispatch.AfterAuth | inc/endpoints/class-endpoint.php:96-98 | definition: the state after `authenticate`: the cookie flag only ever set, the current user as authentication left it |
| Dispatch.AfterSetup | inc/endpoints/class-endpoint.php:100-104 | definition: the state after decoding the query variables and running the hook; `Dispatch.AcceptedRequestSetsUp` states it |
| Dispatch.ArgsForErrors | inc/endpoints/class-endpoint.php:107-121 | every argument failure is a 400 |
| Dispatch.ProcessStatuses | inc/endpoints/class-endpoint.php:100-132 | after authentication, a request ends with 200, 204, 400 or 501 |
| Dispatch.ArgsFor | inc/endpoints/class-endpoint.php:107-121 | definition of the `switch` on the method; `Dispatch.ArgsForErrors` proves every failure is a 400, and `Dispatch.GetHasNoArguments` that a GET has no arguments |
| Dispatch.Process | inc/endpoints/class-endpoint.php:100-132 | definition of the pipeline after authentication; `Dispatch.ProcessStatuses` proves it ends with 200, 204, 400 or 501, and `EndpointBase.Endpoint.HandleRequest` computes it |
| Dispatch.Dispatch | inc/endpoints/class-endpoint.php:94-139 | definition of `base_callback`; `Dispatch.DispatchStatuses`, `Dispatch.RejectionStops` and `Dispatch.AcceptedRequestSetsUp` state what it promises, and `EndpointBase.Endpoint.BaseCallback` computes it |
| Dispatch.NoFieldApplies | inc/endpoints/class-endpoint.php:178-181 | when no field lists the method, validation returns its accumulator unchanged |
| Dispatch.GetHasNoArguments | inc/endpoints/class-endpoint.php:113-115 | every field of the four endpoints is POST-only, so a GET always yields an empty argument map |
| Dispatch.DispatchStatuses | inc/endpoints/class-endpoint.php:94-139 | every request ends with 200, 204, 400, 401 or 501, never with the 303 of the `redirect_to` branch |
| Dispatch.RejectionStops | inc/endpoints/class-endpoint.php:96-98 | a refused request ends with the 401 refusal; query variables, loaded objects and the store log are untouched |
| Dispatch.AcceptedRequestSetsUp | inc/endpoints/class-endpoint.php:100-104 | past authentication, the query variables are decoded; `Post_Endpoint` loads the post for the decoded `post_id`, and `User_Endpoint` the user for the decoded `user_id` |
| Dispatch.DeclaredMethodsHaveHandlers | inc/endpoints/class-endpoint.php:123-126 | every method an endpoint declares lower-cases to a handler its class defines |
| Dispatch.MissingHandler501 | inc/endpoints/class-endpoint.php:125-132 | a method without a handler, once past authentication and validation, gives 501 and stores nothing |
| Dispatch.DeletePost | inc/endpoints/class-endpoint.php:117-129 | DELETE on `post/{POST_ID}` has no arguments, makes one trash call for the loaded post, and ends with 204 |
| Dispatch.AnonymousGetChallenged | inc/endpoints/class-endpoint.php:293-295 | a GET of `post/{POST_ID}` with no logged-in user and no credentials is a 401 with the Basic challenge, with nothing changed |
| Dispatch.SessionGetPost | inc/endpoints/class-endpoint.php:113-129 | a logged-in GET of `post/{POST_ID}` with a valid nonce marks the cookie request, loads the post, stores nothing, and ends with 204 |
| Dispatch.UserBaseArguments | inc/endpoints/class-user-base-endpoint.php:11-32 | with `password` and `email` present, the user schema validates and holds both sanitized |
| Dispatch.CreateUserProcess | inc/endpoints/class-user-base-endpoint.php:39-58 | past authentication, a POST to `user` with both credentials makes one insert whose login and email are the sanitized email, and answers 200 with `{id, email}` or 400 with the store's message |
| Dispatch.CreateUser | inc/endpoints/class-user-base-endpoint.php:39-58 | an accepted POST to `user` with both credentials makes one insert whose login and email are the sanitized email; it answers 200 with `{id, email}` or 400 with the store's message |
| Dispatch.UserItemPostIsNoContent | inc/endpoints/class-user.php:29-31 | an accepted POST to `user/{USER_ID}` with both credentials reaches the empty handler: 204, nothing stored |
| EndpointBase.Endpoint.constructor | inc/endpoints/class-endpoint.php:9-17 | a new endpoint carries its class's property values, `is_cookie_request` unset, and no loaded post or user |
| EndpointBase.Endpoint.GetPattern | inc/endpoints/class-endpoint.php:22-24 | definition: the class's `pattern` property |
| EndpointBase.Endpoint.GetRegexTokens | inc/endpoints/class-endpoint.php:31-38 | definition: the token table `Patterns.RegexTokens` |
| EndpointBase.Endpoint.GetQuery | inc/endpoints/class-endpoint.php:51-53 | definition: the class's `query` property |
| EndpointBase.Endpoint.GetArguments | inc/endpoints/class-endpoint.php:58-60 | definition: the class's `arguments` schema |
| EndpointBase.Endpoint.GetMethods | inc/endpoints/class-endpoint.php:65-67 | definition: the class's `methods` property |
| EndpointBase.Endpoint.IsAuthenticated | inc/endpoints/class-endpoint.php:74-76 | definition: the class's `authenticated` property |
| EndpointBase.Endpoint.IsPublic | inc/endpoints/class-endpoint.php:83-85 | definition: the class's `public` property |
| EndpointBase.Endpoint.Capability | inc/endpoints/class-endpoint.php:16 | definition: the class's `capability` property, read by `authenticate` |
| EndpointBase.Endpoint.IsCookieRequest | inc/endpoints/class-endpoint.php:87-89 | definition: the `is_cookie_request` field |
| EndpointBase.Endpoint.GetRegex | inc/endpoints/class-endpoint.php:43-46 | the endpoint's regex is its compiled pattern and holds no built-in token |
| EndpointBase.Endpoint.ValidateArguments | inc/endpoints/class-endpoint.php:175-252 | the nested `foreach` loops compute exactly the validation fold `Validate` |
| EndpointBase.Endpoint.RequestArguments | inc/endpoints/class-endpoint.php:107-121 | POST and GET validate their unslashed input against the schema; any other method gets no arguments |
| EndpointBase.Endpoint.Authenticate | inc/endpoints/class-endpoint.php:254-296 | the method's refusal, current user and cookie flag are those of `Auth.Authenticate`; the flag is only ever set, never cleared |
| EndpointBase.Endpoint.ValidateQueryVars | inc/endpoints/class-post-endpoint.php:46-52 | the loaded post and user are those of the class's `validate_query_vars` hook |
| EndpointBase.Endpoint.CallHandler | inc/endpoints/class-endpoint.php:125-126 | the handler's response, `post` field and appended store calls are those of the handler model |
| EndpointBase.Endpoint.BaseCallback | inc/endpoints/class-endpoint.php:94-140 | the response and the resulting endpoint and WordPress state are exactly those of `Dispatch.Dispatch` |
| EndpointBase.Endpoint.HandleRequest | inc/endpoints/class-endpoint.php:100-132 | after authentication, the response and the resulting state are exactly those of `Dispatch.Process`: decode, hook, validate by method, handler (204 when it sends nothing) or 501 |
| Registry.RuleFor | inc/class-endpoints.php:93-100 | definition of an endpoint's rule; `Registry.PostRuleRegexes`, `Registry.UserRuleRegexes` and `Registry.EndpointRuleDispatches` state its regex and its callback |
| Registry.CatchAll | inc/class-endpoints.php:103-112 | definition of the catch-all rule; `Registry.CatchAllAnswers404` states its answer |
| Registry.RuleResponse | inc/class-endpoints.php:99-111 | definition: a rule's callback runs the endpoint's `base_callback`, or the catch-all closure |
| Registry.CatchAllAnswers404 | inc/class-endpoints.php:104-111 | definition unfolded: the catch-all rule's callback answers 404 `Endpoint not implemented.` and changes nothing |
| Registry.EndpointRuleDispatches | inc/class-endpoints.php:94-99 | definition unfolded: an endpoint's rule calls that endpoint's `base_callback`, that is `Dispatch.Dispatch` for its class |
| Registry.StrLen | inc/class-endpoints.php:42 | `strlen` counts UTF-8 bytes: at least one and at most four per character, exactly one per character iff the path is ASCII |
| Registry.SortedByLength | inc/class-endpoints.php:39-43 | definition: every file is no longer in bytes than any file after it |
| Registry.InsertByLength | inc/class-endpoints.php:41-43 | definition: one insertion step, placing a file after every file not longer than it; `Registry.InsertByLengthSorted` proves it keeps the order |
| Registry.SortByLength | inc/class-endpoints.php:41-43 | definition: `usort` by `strlen`, as an insertion sort on UTF-8 byte lengths; `Registry.SortByLengthSorted` proves the result ordered and a permutation, `Registry.SortByLengthStable` that ties keep their order |
| Registry.Visits | inc/class-endpoints.php:36-44 | definition: each directory's glob sorted by length, directories in the order added; `Registry.LoadOrder` and `Registry.LaterDirectoryLoadsLater` state the load order |
| Registry.RequireOnce | inc/class-endpoints.php:46-48 | definition of `require_once` in order; `Registry.RequireOnceAppend` and `Registry.RequireOnceLoads` state what it loads |
| Registry.CatchAllResponse | inc/class-endpoints.php:109-111 | definition: the closure's response is a 404 with the text `Endpoint not implemented.`; `Registry.CatchAllAnswers404` states it of the catch-all rule |
| Registry.SortByLengthSorted | inc/class-endpoints.php:39-43 | the sorted files are in non-decreasing length and are a permutation of those globbed |
| Registry.SortByLengthStable | inc/class-endpoints.php:41-43 | the files of any one `strlen` come out in the order `glob` gave them |
| Registry.ByteLengthTie | inc/class-endpoints.php:41-43 | `ab.php` and `é.php` both have `strlen` 6, so the sort keeps their `glob` order |
| Registry.RequireOnceAppend | inc/class-endpoints.php:36-48 | `require_once` over two lists in sequence is `require_once` over their concatenation |
| Registry.RequireOnceLoads | inc/class-endpoints.php:46-48 | already-loaded files stay first and in order, nothing is loaded twice, and exactly the given files are added |
| Registry.LoadOrder | inc/class-endpoints.php:32-50 | the base class file loads first, then every globbed file once, and nothing else |
| Registry.LaterDirectoryLoadsLater | inc/class-endpoints.php:57-60 | adding a directory keeps the load order of those before it and appends its files, sorted |
| Registry.RequireOnceKeepsSorted | inc/class-endpoints.php:46-48 | `require_once` over length-ordered files keeps the already loaded files first, adds only given files, and adds them in length order |
| Registry.DirectoryLoadsByLength | inc/class-endpoints.php:36-49 | the files one more directory adds load in non-decreasing `strlen`, after everything loaded before: parent classes before child classes |
| Registry.SetupHooks | inc/class-endpoints.php:65-69 | definition: `require_files` on `plugins_loaded` and `register_endpoints` on `init`, both at priority 99 |
| Registry.PostRuleRegexes | inc/class-endpoints.php:95 | the post endpoints register `^api/json/post$` and `^api/json/post/([\d]+)$` |
| Registry.UserRuleRegexes | inc/class-endpoints.php:95 | the user endpoints register `^api/json/user$` and `^api/json/user/([\d]+)$` |
| Registry.Endpoints.constructor | inc/class-endpoints.php:23-27 | a new registry has no endpoints and the built-in endpoint directory as its only path |
| Registry.Endpoints.AddEndpoint | inc/class-endpoints.php:74-77 | the endpoint is appended; the directory list is unchanged |
| Registry.Endpoints.GetEndpoints | inc/class-endpoints.php:84-86 | definition: the endpoints in the order added; `Registry.Endpoints.AddEndpoint` states that order |
| Registry.Endpoints.AddEndpointsDir | inc/class-endpoints.php:57-60 | the directory is appended; the endpoint list is unchanged |
| Registry.Endpoints.RegisterEndpoints | inc/class-endpoints.php:91-114 | one rule per endpoint in list order, each with regex `^api/json/` + regex + `$`, the endpoint's query, methods and `base_callback`, and canonical redirects disabled; then the catch-all `^api/json/(.+)$` for GET, POST and DELETE |
| Registry.Endpoints.RequireFiles | inc/class-endpoints.php:32-50 | the files are loaded in `require_once` order: the base class file, then each directory in the order added, its files sorted by length |
| Registry.Plugin.constructor | inc/class-endpoints.php:7 | no instance yet, no hooks |
| Registry.Plugin.SetupActions | inc/class-endpoints.php:65-69 | adds `require_files` on `plugins_loaded` and `register_endpoints` on `init`, both at priority 99 |
| Registry.Plugin.GetInstance | inc/class-endpoints.php:14-21 | returns the existing instance with the hooks unchanged, or a fresh registry whose two hooks are added once |
| Registry.GetInstanceTwice | inc/class-endpoints.php:14-21 | two calls return the same instance, and only a first creation adds hooks |

## Left out

- Regex matching and rule resolution by HM Rewrite. `hm-rewrites.php` is not part of this model, so rules are data and which rule serves a request is not modelled.
- Output and process control: `header`, `http_response_code`, `echo`, `exit`. Each writer returns the response that ends the request instead.
- `json_encode`: JSON bodies are kept as values and never serialized.
- WordPress functions: sanitizers, `urldecode`, `addslashes`/`stripslashes`, `wp_verify_nonce`, `current_user_can`, `wp_authenticate`, `get_post`, `WP_User` and the content store. They are opaque function values of `Site`. A store call is logged, and its result comes from `Site.store`.
- The `$wpdb` query of `get_user_by_api_key` is a map from meta key to user id. `UserByApiKey` treats a stored id of 0 as not found, as PHP's `! $user_id` does.
- `Request.request` (`$_REQUEST`) is its own map, not derived from `$_GET` and `$_POST` as PHP builds it. Only the nonce is read from it, and no proof depends on that link.
- `is_user_logged_in` is modelled as "a current user is set"; the cookie check that sets it is WordPress's.
- `in_array` on `options` compares strings exactly, not with PHP's loose comparison. An array value is never within the options.
- PHP array semantics: request values are strings or lists, and keys are strings. `addslashes` and `stripslashes` leave an array value unchanged; PHP would raise a type error.
- The `premium` and `public` flags are informational; `public` is a descriptor field that nothing reads.
- `Dispatch.Dispatch`: a method whose lower-case name is some other method of the class, such as `get_pattern` or `send_error`, is answered 501. In PHP `is_callable` accepts it and that method would run. The methods every endpoint declares all reach real handlers (`Dispatch.DeclaredMethodsHaveHandlers`).
- `EndpointBase.Endpoint.constructor`: `is_cookie_request` starts as `false` where PHP leaves it `null`; both are falsy.
- `Registry.Endpoints.RequireFiles`: `glob` is a function parameter. Paths are character strings taken as UTF-8, and `strlen` is their UTF-8 byte count (`Registry.StrLen`); a path that is not valid UTF-8 is not modelled. `usort` is modelled as a stable sort (`Registry.SortByLengthStable`), as in PHP 8; PHP before 8.0 gives no order among files of equal length. Only the load order is modelled, not what loading a file does.
- `Registry.Plugin.GetInstance`: the hooks are recorded, not run. The plugin bootstrap in `h-api.php` is not modelled: it calls `get_instance` on `plugins_loaded`.
- `Descriptors.UpdatePostOutcome`, `Descriptors.InsertPostDefaults`: `wp_update_post` and `wp_insert_post` report failure by returning 0, not a `WP_Error`, unless asked. The model leaves that choice to `Site.store`, which may answer `Err`.
- Reading a missing query variable or argument (a PHP notice and `null`) becomes an absent `Option`, passed on to the collaborator.
