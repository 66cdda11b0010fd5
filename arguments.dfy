/**
 * The argument validator: the specification of `Endpoint::validate_arguments`.
 *
 * A schema is the endpoint's `$arguments` array: an ordered list of field names, each
 * with its rule.  `Validate` folds `Step` over the schema in order, exactly as the
 * source's `foreach` builds `$safe_args`; the first failing field ends the request
 * with its 400 response (`send_error` exits).  The imperative version of this loop is
 * `EndpointBase.Endpoint.ValidateArguments`, which is proved equal to `Validate`.
 */
module Arguments {

  import opened Wrappers
  import opened Values
  import opened WordPress

  /** `sanitize_callback`: unset (or null), `false`, or the name of a function. */
  datatype Callback = Unset | Disabled | Named(name: string)

  /** One field's rule: `methods`, `required`, `default`, `options`, `multiple`, `sanitize_callback`. */
  datatype ArgSpec = ArgSpec(
    methods: seq<string>,
    required: bool,
    default: Option<Value>,
    options: seq<string>,
    multiple: bool,
    callback: Callback)

  type Schema = seq<(string, ArgSpec)>

  const SanitizeTextFieldName: string := "sanitize_text_field"

  /** The one sanitizer name whose call is bracketed by `addslashes` / `stripslashes`. */
  const SlashedSanitizerName: string := "wp_filter_post_kses"

  /** `is_callable( name )` for a function name: the function, when one of that name is defined. */
  function Lookup(site: Site, name: string): Option<Value -> Value> {
    if name == SanitizeTextFieldName then Some(site.sanitizeTextField)
    else if name != "" && name in site.functions then Some(site.functions[name])
    else None
  }

  /** The resolved `$sanitize`: `false` (pass through) or a callable with its name. */
  datatype Sanitizer = PassThrough | Function(name: string, apply: Value -> Value)

  /** The sanitizer choice of `validate_arguments`: `false` passes through, a callable is used, anything else falls back. */
  function ChooseSanitizer(site: Site, cb: Callback): (r: Sanitizer)
    ensures r.PassThrough? <==> cb == Disabled
    ensures cb.Named? && Lookup(site, cb.name).Some? ==>
              r.Function? && r.name == cb.name && r.apply == Lookup(site, cb.name).value
    ensures (cb.Unset? || (cb.Named? && Lookup(site, cb.name).None?)) ==>
              r.Function? && r.name == SanitizeTextFieldName && r.apply == site.sanitizeTextField
  {
    match cb
    case Disabled => PassThrough
    case Named(n) =>
      (match Lookup(site, n)
       case Some(f) => Function(n, f)
       case None => Function(SanitizeTextFieldName, site.sanitizeTextField))
    case Unset => Function(SanitizeTextFieldName, site.sanitizeTextField)
  }

  /** `addslashes` and `stripslashes` on a value; an array is left as it is. */
  function AddSlashes(site: Site, v: Value): Value {
    match v
    case Str(s) => Str(site.addslashes(s))
    case List(_) => v
  }

  function StripSlashes(site: Site, v: Value): Value {
    match v
    case Str(s) => Str(site.stripslashes(s))
    case List(_) => v
  }

  /** Sanitizing one element of a `multiple` field: no bracketing on this path. */
  function SanitizeElement(s: Sanitizer, v: Value): Value {
    match s
    case PassThrough => v
    case Function(_, f) => f(v)
  }

  /** Sanitizing a single-valued field, with the slash bracketing for the one named sanitizer. */
  function SanitizeSingle(site: Site, s: Sanitizer, v: Value): Value {
    match s
    case PassThrough => v
    case Function(name, f) =>
      if name == SlashedSanitizerName then StripSlashes(site, f(AddSlashes(site, v))) else f(v)
  }

  // ---------------------------------------------------------------------------
  // explode / implode

  /** PHP `explode( sep, s )` for a one-character separator. */
  function Explode(sep: char, s: string): (r: seq<string>)
    ensures |r| >= 1
    decreases |s|
  {
    if s == [] then [""]
    else
      var rest := Explode(sep, s[1..]);
      if s[0] == sep then [""] + rest else [[s[0]] + rest[0]] + rest[1..]
  }

  /** PHP `implode( glue, parts )`. */
  function Implode(glue: string, parts: seq<string>): string
    decreases |parts|
  {
    if parts == [] then ""
    else if |parts| == 1 then parts[0]
    else parts[0] + glue + Implode(glue, parts[1..])
  }

  function Occurrences(c: char, s: string): nat
    decreases |s|
  {
    if s == [] then 0 else (if s[0] == c then 1 else 0) + Occurrences(c, s[1..])
  }

  /** Splitting and re-joining gives back the string; the pieces hold no separator; one piece per separator, plus one. */
  lemma {:induction false} ExplodeThenImplode(sep: char, s: string)
    ensures Implode([sep], Explode(sep, s)) == s
    ensures forall p :: p in Explode(sep, s) ==> sep !in p
    ensures |Explode(sep, s)| == Occurrences(sep, s) + 1
    decreases |s|
  {
    if s != [] {
      var rest := Explode(sep, s[1..]);
      ExplodeThenImplode(sep, s[1..]);
      if s[0] == sep {
        assert ([""] + rest)[1..] == rest;
      } else {
        var r := [[s[0]] + rest[0]] + rest[1..];
        assert r[1..] == rest[1..];
        assert rest[0] in rest;
        if |rest| == 1 {
          assert s == [s[0]] + s[1..];
        } else {
          assert Implode([sep], rest) == rest[0] + [sep] + Implode([sep], rest[1..]);
          assert s == [s[0]] + s[1..];
        }
        forall p | p in r ensures sep !in p {
          if p != r[0] {
            assert p in rest;
          }
        }
      }
    }
  }

  lemma {:induction false} ExplodeJoined(sep: char, p: string, z: string)
    requires sep !in p
    ensures Explode(sep, p + [sep] + z) == [p] + Explode(sep, z)
    decreases |p|
  {
    if p == [] {
      assert p + [sep] + z == [sep] + z;
      assert ([sep] + z)[1..] == z;
    } else {
      assert (p + [sep] + z)[1..] == p[1..] + [sep] + z;
      ExplodeJoined(sep, p[1..], z);
      assert [p[0]] + p[1..] == p;
    }
  }

  lemma {:induction false} ExplodeWithoutSeparator(sep: char, p: string)
    requires sep !in p
    ensures Explode(sep, p) == [p]
    decreases |p|
  {
    if p != [] {
      ExplodeWithoutSeparator(sep, p[1..]);
      assert [p[0]] + p[1..] == p;
    }
  }

  /** Joining pieces that hold no separator and splitting again gives back the pieces. */
  lemma {:induction false} ImplodeThenExplode(sep: char, parts: seq<string>)
    requires parts != []
    requires forall p :: p in parts ==> sep !in p
    ensures Explode(sep, Implode([sep], parts)) == parts
    decreases |parts|
  {
    if |parts| == 1 {
      ExplodeWithoutSeparator(sep, parts[0]);
    } else {
      assert parts[0] in parts;
      assert forall p :: p in parts[1..] ==> p in parts;
      ImplodeThenExplode(sep, parts[1..]);
      ExplodeJoined(sep, parts[0], Implode([sep], parts[1..]));
      assert [parts[0]] + parts[1..] == parts;
    }
  }

  // ---------------------------------------------------------------------------
  // The per-field step and the fold

  function RequiredMessage(key: string): string {
    "'" + key + "' is a required argument."
  }

  function OptionsMessage(key: string, options: seq<string>): string {
    "'" + key + "' must be one of " + Implode(", ", options)
  }

  /** `in_array( value, options )` on string options, compared exactly. */
  predicate InOptions(v: Value, options: seq<string>) {
    v.Str? && v.s in options
  }

  function Strings(parts: seq<string>): (r: seq<Value>)
    ensures |r| == |parts| && forall i :: 0 <= i < |r| ==> r[i] == Str(parts[i])
  {
    seq(|parts|, i requires 0 <= i < |parts| => Str(parts[i]))
  }

  /** `$dirty_values` of a `multiple` field: a string with a comma is split, an array is kept, anything else is wrapped. */
  function DirtyValues(v: Value): seq<Value> {
    match v
    case Str(s) => if ',' in s then Strings(Explode(',', s)) else [v]
    case List(items) => items
  }

  function SanitizeEach(s: Sanitizer, values: seq<Value>): (r: seq<Value>)
    ensures |r| == |values| && forall i :: 0 <= i < |r| ==> r[i] == SanitizeElement(s, values[i])
  {
    seq(|values|, i requires 0 <= i < |values| => SanitizeElement(s, values[i]))
  }

  /** The sanitized value stored for a field that is present in the input. */
  function FieldValue(site: Site, spec: ArgSpec, v: Value): Value {
    var s := ChooseSanitizer(site, spec.callback);
    if spec.options == [] && spec.multiple then List(SanitizeEach(s, DirtyValues(v)))
    else SanitizeSingle(site, s, v)
  }

  /** One iteration of the `foreach` over the schema. */
  function Step(site: Site, verb: string, key: string, spec: ArgSpec, dirty: map<string, Value>,
                acc: map<string, Value>): Result<map<string, Value>, Response>
  {
    if verb !in spec.methods then Ok(acc)
    else if spec.required && key !in dirty then Err(SendError(RequiredMessage(key), 400))
    else if key !in dirty then Ok(if spec.default.Some? then acc[key := spec.default.value] else acc)
    else if spec.options != [] && !InOptions(dirty[key], spec.options) then
      Err(SendError(OptionsMessage(key, spec.options), 400))
    else Ok(acc[key := FieldValue(site, spec, dirty[key])])
  }

  function ValidateFrom(site: Site, verb: string, schema: Schema, dirty: map<string, Value>,
                        acc: map<string, Value>): Result<map<string, Value>, Response>
    decreases |schema|
  {
    if schema == [] then Ok(acc)
    else match Step(site, verb, schema[0].0, schema[0].1, dirty, acc)
      case Err(e) => Err(e)
      case Ok(next) => ValidateFrom(site, verb, schema[1..], dirty, next)
  }

  /** `validate_arguments( $dirty_args )` for the request method `verb`. */
  function Validate(site: Site, verb: string, schema: Schema, dirty: map<string, Value>): Result<map<string, Value>, Response> {
    ValidateFrom(site, verb, schema, dirty, map[])
  }

  // ---------------------------------------------------------------------------
  // Which fields fail, and which error wins

  /** A field lets the request through: it does not apply, or it is present when required and within its options. */
  predicate FieldPasses(verb: string, field: (string, ArgSpec), dirty: map<string, Value>) {
    var (key, spec) := field;
    verb !in spec.methods ||
    ((spec.required ==> key in dirty) &&
     (key in dirty && spec.options != [] ==> InOptions(dirty[key], spec.options)))
  }

  /** The error a failing field produces. */
  function FieldError(field: (string, ArgSpec), dirty: map<string, Value>): Response {
    var (key, spec) := field;
    if key !in dirty then SendError(RequiredMessage(key), 400)
    else SendError(OptionsMessage(key, spec.options), 400)
  }

  /** The index of the first failing field, or `|schema|` when none fails. */
  function FirstFailure(verb: string, schema: Schema, dirty: map<string, Value>): (j: nat)
    ensures j <= |schema|
    ensures forall i :: 0 <= i < j ==> FieldPasses(verb, schema[i], dirty)
    ensures j < |schema| ==> !FieldPasses(verb, schema[j], dirty)
    decreases |schema|
  {
    if schema == [] then 0
    else if !FieldPasses(verb, schema[0], dirty) then 0
    else 1 + FirstFailure(verb, schema[1..], dirty)
  }

  lemma StepFails(site: Site, verb: string, field: (string, ArgSpec), dirty: map<string, Value>, acc: map<string, Value>)
    ensures Step(site, verb, field.0, field.1, dirty, acc).Err? <==> !FieldPasses(verb, field, dirty)
    ensures Step(site, verb, field.0, field.1, dirty, acc).Err? ==>
              Step(site, verb, field.0, field.1, dirty, acc).error == FieldError(field, dirty)
  {
  }

  /**
   * Validation fails exactly when some applicable field fails, and then with the error of the
   * first failing field in schema order: 400 `'<key>' is a required argument.` for a missing
   * required field, 400 `'<key>' must be one of a, b` for a value outside the options.
   */
  lemma {:induction false} ValidateFromErrors(site: Site, verb: string, schema: Schema, dirty: map<string, Value>,
                                              acc: map<string, Value>)
    ensures var j := FirstFailure(verb, schema, dirty);
            var r := ValidateFrom(site, verb, schema, dirty, acc);
            (r.Err? <==> j < |schema|) && (r.Err? ==> r.error == FieldError(schema[j], dirty))
    decreases |schema|
  {
    if schema != [] {
      StepFails(site, verb, schema[0], dirty, acc);
      match Step(site, verb, schema[0].0, schema[0].1, dirty, acc)
      case Err(e) =>
      case Ok(next) =>
        ValidateFromErrors(site, verb, schema[1..], dirty, next);
    }
  }

  lemma ValidateErrors(site: Site, verb: string, schema: Schema, dirty: map<string, Value>)
    ensures var j := FirstFailure(verb, schema, dirty);
            var r := Validate(site, verb, schema, dirty);
            (r.Ok? <==> forall i :: 0 <= i < |schema| ==> FieldPasses(verb, schema[i], dirty)) &&
            (r.Err? ==> j < |schema| && r.error == FieldError(schema[j], dirty) && r.error.status == 400)
  {
    ValidateFromErrors(site, verb, schema, dirty, map[]);
  }

  // ---------------------------------------------------------------------------
  // What a successful validation holds

  predicate KeysDistinct(schema: Schema) {
    forall i, j :: 0 <= i < j < |schema| ==> schema[i].0 != schema[j].0
  }

  predicate IsKey(key: string, schema: Schema) {
    exists i :: 0 <= i < |schema| && schema[i].0 == key
  }

  /** What the result holds for one schema field, given the input. */
  predicate EntryHolds(site: Site, verb: string, key: string, spec: ArgSpec, dirty: map<string, Value>,
                       out: map<string, Value>)
  {
    if verb !in spec.methods then key !in out
    else if key in dirty then key in out && out[key] == FieldValue(site, spec, dirty[key])
    else (key in out <==> spec.default.Some?) && (key in out ==> out[key] == spec.default.value)
  }

  /** Keys outside the schema keep what the accumulator held. */
  lemma {:induction false} ValidateFromFrame(site: Site, verb: string, schema: Schema, dirty: map<string, Value>,
                                             acc: map<string, Value>, key: string)
    requires ValidateFrom(site, verb, schema, dirty, acc).Ok?
    requires forall i :: 0 <= i < |schema| ==> schema[i].0 != key
    ensures var out := ValidateFrom(site, verb, schema, dirty, acc).value;
            (key in out <==> key in acc) && (key in acc ==> out[key] == acc[key])
    decreases |schema|
  {
    if schema != [] {
      var next := Step(site, verb, schema[0].0, schema[0].1, dirty, acc).value;
      ValidateFromFrame(site, verb, schema[1..], dirty, next, key);
    }
  }

  lemma {:induction false} ValidateFromEntries(site: Site, verb: string, schema: Schema, dirty: map<string, Value>,
                                               acc: map<string, Value>, i: nat)
    requires KeysDistinct(schema)
    requires forall j :: 0 <= j < |schema| ==> schema[j].0 !in acc
    requires ValidateFrom(site, verb, schema, dirty, acc).Ok?
    requires i < |schema|
    ensures EntryHolds(site, verb, schema[i].0, schema[i].1, dirty, ValidateFrom(site, verb, schema, dirty, acc).value)
    decreases |schema|
  {
    var next := Step(site, verb, schema[0].0, schema[0].1, dirty, acc).value;
    assert next.Keys <= acc.Keys + {schema[0].0};
    if i == 0 {
      ValidateFromFrame(site, verb, schema[1..], dirty, next, schema[0].0);
    } else {
      ValidateFromEntries(site, verb, schema[1..], dirty, next, i - 1);
    }
  }

  lemma {:induction false} ValidateFromKeys(site: Site, verb: string, schema: Schema, dirty: map<string, Value>,
                                            acc: map<string, Value>)
    requires ValidateFrom(site, verb, schema, dirty, acc).Ok?
    ensures forall k :: k in ValidateFrom(site, verb, schema, dirty, acc).value ==> k in acc || IsKey(k, schema)
    decreases |schema|
  {
    if schema != [] {
      var next := Step(site, verb, schema[0].0, schema[0].1, dirty, acc).value;
      ValidateFromKeys(site, verb, schema[1..], dirty, next);
      forall k | k in ValidateFrom(site, verb, schema, dirty, acc).value
        ensures k in acc || IsKey(k, schema)
      {
        if k !in acc && k != schema[0].0 {
          assert k !in next;
          var j :| 0 <= j < |schema[1..]| && schema[1..][j].0 == k;
          assert schema[j + 1].0 == k;
        }
      }
    }
  }

  /**
   * A successful validation holds only schema keys; a field that does not apply to the method is
   * absent; a present field holds its sanitized value; an absent field holds its default if it
   * declares one and is omitted otherwise.
   */
  lemma ValidateResult(site: Site, verb: string, schema: Schema, dirty: map<string, Value>)
    requires KeysDistinct(schema)
    requires Validate(site, verb, schema, dirty).Ok?
    ensures var out := Validate(site, verb, schema, dirty).value;
            (forall k :: k in out ==> IsKey(k, schema)) &&
            (forall i :: 0 <= i < |schema| ==> EntryHolds(site, verb, schema[i].0, schema[i].1, dirty, out))
  {
    ValidateFromKeys(site, verb, schema, dirty, map[]);
    forall i | 0 <= i < |schema|
      ensures EntryHolds(site, verb, schema[i].0, schema[i].1, dirty, Validate(site, verb, schema, dirty).value)
    {
      ValidateFromEntries(site, verb, schema, dirty, map[], i);
    }
  }

  // ---------------------------------------------------------------------------
  // Multiple values

  /**
   * A `multiple` field without options: a string with commas becomes the `explode` pieces, each
   * sanitized on its own, in order; joining the raw pieces gives back the input.
   */
  lemma MultipleSplits(site: Site, spec: ArgSpec, s: string)
    requires spec.multiple && spec.options == [] && ',' in s
    ensures var out := FieldValue(site, spec, Str(s));
            var pieces := Explode(',', s);
            out.List? && |out.items| == |pieces| == Occurrences(',', s) + 1 &&
            Implode(",", pieces) == s &&
            forall i :: 0 <= i < |pieces| ==>
              ',' !in pieces[i] &&
              out.items[i] == SanitizeElement(ChooseSanitizer(site, spec.callback), Str(pieces[i]))
  {
    ExplodeThenImplode(',', s);
    var pieces := Explode(',', s);
    forall i | 0 <= i < |pieces| ensures ',' !in pieces[i] {
      assert pieces[i] in pieces;
    }
  }

  /** A `multiple` field without options: an array is sanitized element-wise, a comma-free string becomes a one-element list. */
  lemma MultipleKeepsShape(site: Site, spec: ArgSpec, v: Value)
    requires spec.multiple && spec.options == []
    ensures var out := FieldValue(site, spec, v);
            var s := ChooseSanitizer(site, spec.callback);
            out.List? &&
            (v.List? ==> |out.items| == |v.items| &&
                         forall i :: 0 <= i < |v.items| ==> out.items[i] == SanitizeElement(s, v.items[i])) &&
            (v.Str? && ',' !in v.s ==> out.items == [SanitizeElement(s, v)])
  {
  }

  // ---------------------------------------------------------------------------
  // The slash bracketing of `wp_filter_post_kses`

  /** A single-valued field whose callback is the defined `wp_filter_post_kses` is filtered between `addslashes` and `stripslashes`. */
  lemma SlashedSanitizerBracketed(site: Site, spec: ArgSpec, v: Value)
    requires !(spec.options == [] && spec.multiple)
    requires spec.callback == Named(SlashedSanitizerName) && SlashedSanitizerName in site.functions
    ensures FieldValue(site, spec, v) ==
            StripSlashes(site, site.functions[SlashedSanitizerName](AddSlashes(site, v)))
  {
  }

  /**
   * Every other single-valued field is sanitized without the bracketing: by its own callable,
   * by `sanitize_text_field` when it names none or nothing callable, or not at all when disabled.
   */
  lemma OtherSanitizersUnbracketed(site: Site, spec: ArgSpec, v: Value)
    requires !(spec.options == [] && spec.multiple)
    ensures spec.callback == Disabled ==> FieldValue(site, spec, v) == v
    ensures spec.callback.Named? && spec.callback.name != SlashedSanitizerName && Lookup(site, spec.callback.name).Some? ==>
              FieldValue(site, spec, v) == Lookup(site, spec.callback.name).value(v)
    ensures (spec.callback.Unset? || (spec.callback.Named? && Lookup(site, spec.callback.name).None?)) ==>
              FieldValue(site, spec, v) == site.sanitizeTextField(v)
  {
  }

  /** On a `multiple` field even `wp_filter_post_kses` is applied to each element directly, without the bracketing. */
  lemma MultipleNeverBracketed(site: Site, spec: ArgSpec, v: Value)
    requires spec.options == [] && spec.multiple
    requires spec.callback == Named(SlashedSanitizerName) && SlashedSanitizerName in site.functions
    ensures var out := FieldValue(site, spec, v);
            var values := DirtyValues(v);
            out.List? && |out.items| == |values| &&
            forall i :: 0 <= i < |values| ==> out.items[i] == site.functions[SlashedSanitizerName](values[i])
  {
  }
}
