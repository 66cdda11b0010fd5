/**
 * The `Endpoints` registry: the list of endpoint objects and of endpoint directories, the
 * rewrite rules it registers, the order in which `require_files` loads endpoint files, and
 * the lazily created single instance.
 *
 * Rewrite rules are data: a rule's regex, query, flags, methods and callback, in the order
 * they are added.  How HM Rewrite matches them is not part of this model.
 */
module Registry {

  import opened Values
  import opened WordPress
  import opened Descriptors
  import opened EndpointBase
  import Patterns
  import Dispatch

  /** What a rule calls: an endpoint's `base_callback`, or the catch-all closure. */
  datatype RuleCallback = BaseCallbackOf(endpoint: Endpoint) | NotImplemented

  /** The array given to `hm_add_rewrite_rule`. */
  datatype Rule = Rule(regex: string, query: string, disableCanonical: bool, methods: seq<string>, callback: RuleCallback)

  const RulePrefix: string := "^api/json/"
  const CatchAllRegex: string := "^api/json/(.+)$"
  const NotImplementedMessage: string := "Endpoint not implemented."

  /** The rule registered for one endpoint. */
  function RuleFor(e: Endpoint): Rule {
    Rule(RulePrefix + e.GetRegex() + "$", e.GetQuery(), true, e.GetMethods(), BaseCallbackOf(e))
  }

  /** The catch-all rule, registered after every endpoint's. */
  function CatchAll(): Rule {
    Rule(CatchAllRegex, "", true, ["GET", "POST", "DELETE"], NotImplemented)
  }

  /** The response of a rule's callback when it is the catch-all: 404 with the fixed message. */
  function CatchAllResponse(): (r: Response)
    ensures r.status == 404 && r.body == Text(NotImplementedMessage) && r.headers == []
  {
    SendError(NotImplementedMessage, 404)
  }

  /**
   * What serving a request through a rule answers, and the state it leaves: an endpoint's rule
   * runs its `base_callback`, the catch-all's closure sends its error and touches nothing.
   */
  function RuleResponse(site: Site, rule: Rule, req: Request, s: Dispatch.State): (Response, Dispatch.State) {
    match rule.callback
    case BaseCallbackOf(e) => Dispatch.Dispatch(site, e.kind, req, s)
    case NotImplemented => (CatchAllResponse(), s)
  }

  /** The catch-all rule answers every request it serves with 404 `Endpoint not implemented.`, changing nothing. */
  lemma CatchAllAnswers404(site: Site, req: Request, s: Dispatch.State)
    ensures var (r, s') := RuleResponse(site, CatchAll(), req, s);
            r.status == 404 && r.body == Text(NotImplementedMessage) && r.headers == [] && s' == s
  {
  }

  /** An endpoint's rule serves a request exactly as the endpoint's `base_callback` does. */
  lemma EndpointRuleDispatches(site: Site, e: Endpoint, req: Request, s: Dispatch.State)
    ensures RuleResponse(site, RuleFor(e), req, s) == Dispatch.Dispatch(site, e.kind, req, s)
  {
  }

  // ---------------------------------------------------------------------------
  // The load order of `require_files`

  /** The number of bytes of a character in UTF-8. */
  function Utf8Width(c: char): (r: nat)
    ensures 1 <= r <= 4 && (r == 1 <==> c as int < 0x80)
  {
    if c as int < 0x80 then 1
    else if c as int < 0x800 then 2
    else if c as int < 0x1_0000 then 3
    else 4
  }

  /** PHP `strlen` of a path held as UTF-8: its number of bytes. */
  function StrLen(s: string): (r: nat)
    ensures |s| <= r <= 4 * |s|
    ensures r == |s| <==> forall i :: 0 <= i < |s| ==> s[i] as int < 0x80
    decreases |s|
  {
    if s == [] then 0
    else
      var n := StrLen(s[1..]);
      assert forall i :: 1 <= i < |s| ==> s[i] == s[1..][i - 1];
      Utf8Width(s[0]) + n
  }

  predicate SortedByLength(files: seq<string>) {
    forall i, j :: 0 <= i < j < |files| ==> StrLen(files[i]) <= StrLen(files[j])
  }

  /** Insert `f` after every file that is not longer than it. */
  function InsertByLength(f: string, sorted: seq<string>): seq<string>
    decreases |sorted|
  {
    if sorted == [] then [f]
    else if StrLen(f) < StrLen(sorted[0]) then [f] + sorted
    else [sorted[0]] + InsertByLength(f, sorted[1..])
  }

  /** `usort` with the comparator `strlen( $a ) - strlen( $b )`, as an insertion sort that keeps ties in order. */
  function SortByLength(files: seq<string>): seq<string>
    decreases |files|
  {
    if files == [] then []
    else InsertByLength(files[|files| - 1], SortByLength(files[..|files| - 1]))
  }

  lemma {:induction false} InsertByLengthCount(f: string, sorted: seq<string>)
    ensures multiset(InsertByLength(f, sorted)) == multiset(sorted) + multiset{f}
    decreases |sorted|
  {
    if sorted != [] && StrLen(f) >= StrLen(sorted[0]) {
      InsertByLengthCount(f, sorted[1..]);
      assert sorted == [sorted[0]] + sorted[1..];
    }
  }

  lemma {:induction false} InsertByLengthBound(f: string, sorted: seq<string>, n: nat)
    requires n <= StrLen(f) && forall i :: 0 <= i < |sorted| ==> n <= StrLen(sorted[i])
    ensures forall i :: 0 <= i < |InsertByLength(f, sorted)| ==> n <= StrLen(InsertByLength(f, sorted)[i])
    decreases |sorted|
  {
    if sorted != [] && StrLen(f) >= StrLen(sorted[0]) {
      InsertByLengthBound(f, sorted[1..], n);
    }
  }

  lemma {:induction false} InsertByLengthSorted(f: string, sorted: seq<string>)
    requires SortedByLength(sorted)
    ensures SortedByLength(InsertByLength(f, sorted))
    decreases |sorted|
  {
    if sorted != [] && StrLen(f) >= StrLen(sorted[0]) {
      var rest := InsertByLength(f, sorted[1..]);
      InsertByLengthSorted(f, sorted[1..]);
      InsertByLengthBound(f, sorted[1..], StrLen(sorted[0]));
      var r := [sorted[0]] + rest;
      forall i, j | 0 <= i < j < |r| ensures StrLen(r[i]) <= StrLen(r[j]) {
        if i == 0 {
          assert r[j] == rest[j - 1];
          assert rest[j - 1] in rest;
        } else {
          assert r[i] == rest[i - 1] && r[j] == rest[j - 1];
        }
      }
    }
  }

  /** Within one directory, files load in non-decreasing path length, and every globbed file exactly as often as globbed. */
  lemma {:induction false} SortByLengthSorted(files: seq<string>)
    ensures SortedByLength(SortByLength(files))
    ensures multiset(SortByLength(files)) == multiset(files)
    decreases |files|
  {
    if files != [] {
      var init := files[..|files| - 1];
      SortByLengthSorted(init);
      InsertByLengthSorted(files[|files| - 1], SortByLength(init));
      InsertByLengthCount(files[|files| - 1], SortByLength(init));
      assert files == init + [files[|files| - 1]];
    }
  }

  /** The files of `s` whose `strlen` is `n`, in order. */
  function OfLength(s: seq<string>, n: nat): seq<string>
    decreases |s|
  {
    if s == [] then []
    else (if StrLen(s[0]) == n then [s[0]] else []) + OfLength(s[1..], n)
  }

  lemma {:induction false} OfLengthAppend(a: seq<string>, b: seq<string>, n: nat)
    ensures OfLength(a + b, n) == OfLength(a, n) + OfLength(b, n)
    decreases |a|
  {
    if a != [] {
      assert (a + b)[0] == a[0] && (a + b)[1..] == a[1..] + b;
      OfLengthAppend(a[1..], b, n);
    } else {
      assert a + b == b;
    }
  }

  lemma {:induction false} OfLengthLonger(s: seq<string>, n: nat)
    requires forall i :: 0 <= i < |s| ==> n < StrLen(s[i])
    ensures OfLength(s, n) == []
    decreases |s|
  {
    if s != [] {
      OfLengthLonger(s[1..], n);
    }
  }

  /** Inserting `f` puts it after every file of its length already there. */
  lemma {:induction false} InsertByLengthOfLength(f: string, sorted: seq<string>, n: nat)
    requires SortedByLength(sorted)
    ensures OfLength(InsertByLength(f, sorted), n) == OfLength(sorted, n) + OfLength([f], n)
    decreases |sorted|
  {
    if sorted == [] {
    } else if StrLen(f) < StrLen(sorted[0]) {
      var r := [f] + sorted;
      assert r[0] == f && r[1..] == sorted;
      if StrLen(f) == n {
        forall i | 0 <= i < |sorted| ensures n < StrLen(sorted[i]) {
          assert StrLen(sorted[0]) <= StrLen(sorted[i]);
        }
        OfLengthLonger(sorted, n);
      }
    } else {
      var rest := sorted[1..];
      assert SortedByLength(rest) by {
        forall i, j | 0 <= i < j < |rest| ensures StrLen(rest[i]) <= StrLen(rest[j]) {
          assert rest[i] == sorted[i + 1] && rest[j] == sorted[j + 1];
        }
      }
      InsertByLengthOfLength(f, rest, n);
      var ins := InsertByLength(f, rest);
      var r := [sorted[0]] + ins;
      assert r[0] == sorted[0] && r[1..] == ins;
    }
  }

  /** The sort is stable: the files of any one length keep the order `glob` gave them. */
  lemma {:induction false} SortByLengthStable(files: seq<string>, n: nat)
    ensures OfLength(SortByLength(files), n) == OfLength(files, n)
    decreases |files|
  {
    if files != [] {
      var init := files[..|files| - 1];
      var last := files[|files| - 1];
      SortByLengthStable(init, n);
      SortByLengthSorted(init);
      InsertByLengthOfLength(last, SortByLength(init), n);
      assert files == init + [last];
      OfLengthAppend(init, [last], n);
    }
  }

  /** `ab.php` and `\U{E9}.php` are both 6 bytes long, so the sort keeps them in the order `glob` gave. */
  lemma ByteLengthTie()
    ensures StrLen("\U{E9}.php") == StrLen("ab.php") == 6
    ensures SortByLength(["ab.php", "\U{E9}.php"]) == ["ab.php", "\U{E9}.php"]
  {
    var a, e := "ab.php", "\U{E9}.php";
    assert StrLen(e) == 6;
    assert StrLen(a) == 6;
    var files := [a, e];
    assert files[..1] == [a] && [a][..0] == [];
    assert SortByLength([a]) == [a];
    assert InsertByLength(e, [a]) == [a] + InsertByLength(e, []);
  }

  /** The `require_once` calls of the directory loop: each directory's files, sorted, directories in order. */
  function Visits(glob: string -> seq<string>, paths: seq<string>): seq<string>
    decreases |paths|
  {
    if paths == [] then []
    else Visits(glob, paths[..|paths| - 1]) + SortByLength(glob(paths[|paths| - 1] + "/*.php"))
  }

  /** `require_once` of each file in turn, after the files already loaded: a file already loaded is skipped. */
  function RequireOnce(loaded: seq<string>, files: seq<string>): seq<string>
    decreases |files|
  {
    if files == [] then loaded
    else
      var before := RequireOnce(loaded, files[..|files| - 1]);
      if files[|files| - 1] in before then before else before + [files[|files| - 1]]
  }

  predicate NoDuplicates(s: seq<string>) {
    forall i, j :: 0 <= i < j < |s| ==> s[i] != s[j]
  }

  lemma {:induction false} RequireOnceAppend(loaded: seq<string>, a: seq<string>, b: seq<string>)
    ensures RequireOnce(loaded, a + b) == RequireOnce(RequireOnce(loaded, a), b)
    decreases |b|
  {
    if b == [] {
      assert a + b == a;
    } else {
      var b' := b[..|b| - 1];
      assert (a + b)[..|a + b| - 1] == a + b';
      assert (a + b)[|a + b| - 1] == b[|b| - 1];
      RequireOnceAppend(loaded, a, b');
    }
  }

  /**
   * The files loaded after `loaded`: those already loaded stay first and in order, nothing is
   * loaded twice, and exactly the given files are added.
   */
  lemma {:induction false} RequireOnceLoads(loaded: seq<string>, files: seq<string>)
    requires NoDuplicates(loaded)
    ensures var r := RequireOnce(loaded, files);
            loaded <= r && NoDuplicates(r) &&
            forall f :: f in r <==> f in loaded || f in files
    decreases |files|
  {
    if files != [] {
      var init := files[..|files| - 1];
      var last := files[|files| - 1];
      RequireOnceLoads(loaded, init);
      assert files == init + [last];
      var before := RequireOnce(loaded, init);
      if last !in before {
        var r := before + [last];
        forall i, j | 0 <= i < j < |r| ensures r[i] != r[j] {
          if j == |r| - 1 {
            assert r[i] in before;
          } else {
            assert r[i] == before[i] && r[j] == before[j];
          }
        }
      }
    }
  }

  // ---------------------------------------------------------------------------
  // The registry object

  class Endpoints {
    var endpoints: seq<Endpoint>
    var paths: seq<string>

    /** The built-in endpoint directory is the first path. */
    constructor (pluginDir: string)
      ensures endpoints == [] && paths == [pluginDir + "/endpoints"]
    {
      endpoints := [];
      paths := [pluginDir + "/endpoints"];
    }

    /** `add_endpoint`: appended after the endpoints already added. */
    method AddEndpoint(endpoint: Endpoint)
      modifies this`endpoints
      ensures endpoints == old(endpoints) + [endpoint]
    {
      endpoints := endpoints + [endpoint];
    }

    function GetEndpoints(): seq<Endpoint>
      reads this
    {
      endpoints
    }

    /** `add_endpoints_dir`: searched after the directories already added. */
    method AddEndpointsDir(dir: string)
      modifies this`paths
      ensures paths == old(paths) + [dir]
    {
      paths := paths + [dir];
    }

    /** `register_endpoints`: one rule per endpoint, in list order, then the catch-all. */
    method RegisterEndpoints() returns (rules: seq<Rule>)
      ensures |rules| == |endpoints| + 1
      ensures forall i :: 0 <= i < |endpoints| ==>
                rules[i] == Rule(RulePrefix + endpoints[i].GetRegex() + "$", endpoints[i].GetQuery(), true,
                                 endpoints[i].GetMethods(), BaseCallbackOf(endpoints[i]))
      ensures rules[|endpoints|] == CatchAll()
    {
      rules := [];
      var i := 0;
      while i < |endpoints|
        invariant 0 <= i <= |endpoints|
        invariant |rules| == i && forall j :: 0 <= j < i ==> rules[j] == RuleFor(endpoints[j])
      {
        rules := rules + [RuleFor(endpoints[i])];
        i := i + 1;
      }
      rules := rules + [CatchAll()];
    }

    /**
     * `require_files`: the base class file, then each directory's files in non-decreasing
     * path length, directories in the order added; `require_once` skips a file already loaded.
     * `glob` gives the files matching a pattern.
     */
    method RequireFiles(pluginDir: string, glob: string -> seq<string>) returns (loaded: seq<string>)
      ensures loaded == RequireOnce([pluginDir + "/endpoints/class-endpoint.php"], Visits(glob, paths))
    {
      var start := [pluginDir + "/endpoints/class-endpoint.php"];
      loaded := start;
      var i := 0;
      while i < |paths|
        invariant 0 <= i <= |paths|
        invariant loaded == RequireOnce(start, Visits(glob, paths[..i]))
      {
        var files := SortByLength(glob(paths[i] + "/*.php"));
        ghost var before := loaded;
        var j := 0;
        while j < |files|
          invariant 0 <= j <= |files|
          invariant loaded == RequireOnce(before, files[..j])
        {
          assert files[..j + 1][..j] == files[..j];
          if files[j] !in loaded {
            loaded := loaded + [files[j]];
          }
          j := j + 1;
        }
        assert files[..j] == files;
        assert paths[..i + 1][..i] == paths[..i];
        RequireOnceAppend(start, Visits(glob, paths[..i]), files);
        i := i + 1;
      }
      assert paths[..i] == paths;
    }
  }

  /** The load order holds the base file first, every globbed file once, and nothing else. */
  lemma LoadOrder(baseFile: string, glob: string -> seq<string>, paths: seq<string>)
    ensures var r := RequireOnce([baseFile], Visits(glob, paths));
            |r| >= 1 && r[0] == baseFile && NoDuplicates(r) &&
            forall f :: f in r <==> f == baseFile || f in Visits(glob, paths)
  {
    RequireOnceLoads([baseFile], Visits(glob, paths));
  }

  /** The files of one more directory load after those of the directories added before it. */
  lemma {:induction false} LaterDirectoryLoadsLater(baseFile: string, glob: string -> seq<string>, paths: seq<string>, dir: string)
    ensures var before := RequireOnce([baseFile], Visits(glob, paths));
            var after := RequireOnce([baseFile], Visits(glob, paths + [dir]));
            before <= after &&
            after == RequireOnce(before, SortByLength(glob(dir + "/*.php")))
  {
    var p := paths + [dir];
    assert p[..|p| - 1] == paths;
    RequireOnceAppend([baseFile], Visits(glob, paths), SortByLength(glob(dir + "/*.php")));
    RequireOnceLoads([baseFile], Visits(glob, paths));
    var before := RequireOnce([baseFile], Visits(glob, paths));
    RequireOnceLoads(before, SortByLength(glob(dir + "/*.php")));
  }

  /**
   * `require_once` over files in length order adds them in length order: the files it newly
   * loads are a subsequence of the given ones.
   */
  lemma {:induction false} RequireOnceKeepsSorted(loaded: seq<string>, files: seq<string>)
    requires SortedByLength(files)
    ensures var r := RequireOnce(loaded, files);
            loaded <= r && (forall f :: f in r[|loaded|..] ==> f in files) && SortedByLength(r[|loaded|..])
    decreases |files|
  {
    if files != [] {
      var init := files[..|files| - 1];
      var last := files[|files| - 1];
      assert SortedByLength(init) by {
        forall i, j | 0 <= i < j < |init| ensures StrLen(init[i]) <= StrLen(init[j]) {
          assert init[i] == files[i] && init[j] == files[j];
        }
      }
      RequireOnceKeepsSorted(loaded, init);
      var before := RequireOnce(loaded, init);
      var added := before[|loaded|..];
      if last !in before {
        var r := before + [last];
        assert r[|loaded|..] == added + [last];
        forall i | 0 <= i < |added| ensures StrLen(added[i]) <= StrLen(last) {
          assert added[i] in added;
          var k :| 0 <= k < |init| && init[k] == added[i];
          assert files[k] == init[k];
        }
      }
    }
  }

  /** The files a directory adds load in non-decreasing `strlen`: parent classes before child classes. */
  lemma DirectoryLoadsByLength(baseFile: string, glob: string -> seq<string>, paths: seq<string>, dir: string)
    ensures var before := RequireOnce([baseFile], Visits(glob, paths));
            var after := RequireOnce([baseFile], Visits(glob, paths + [dir]));
            before <= after && SortedByLength(after[|before|..])
  {
    LaterDirectoryLoadsLater(baseFile, glob, paths, dir);
    var before := RequireOnce([baseFile], Visits(glob, paths));
    var files := SortByLength(glob(dir + "/*.php"));
    SortByLengthSorted(glob(dir + "/*.php"));
    RequireOnceKeepsSorted(before, files);
  }

  // ---------------------------------------------------------------------------
  // The rules of the four endpoints

  /** `post` and `post/{POST_ID}` are registered as `^api/json/post$` and `^api/json/post/([\\d]+)$`. */
  lemma PostRuleRegexes(e: Endpoint)
    requires e.Valid()
    ensures e.kind == PostBase ==> RuleFor(e).regex == RulePrefix + "post" + "$"
    ensures e.kind == PostItem ==> RuleFor(e).regex == RulePrefix + ("post/" + Patterns.DigitsCapture) + "$"
  {
    var p := e.GetPattern();
    assert RuleFor(e).regex == RulePrefix + Patterns.Compile(p) + "$";
    if e.kind == PostBase {
      assert p == DescriptorOf(PostBase).pattern;
      PostBasePattern();
      assert Patterns.Compile(p) == "post";
    } else if e.kind == PostItem {
      assert p == DescriptorOf(PostItem).pattern;
      PostItemPattern();
      assert Patterns.Compile(p) == "post/" + Patterns.DigitsCapture;
    }
  }

  /** `user` and `user/{USER_ID}` are registered as `^api/json/user$` and `^api/json/user/([\\d]+)$`. */
  lemma UserRuleRegexes(e: Endpoint)
    requires e.Valid()
    ensures e.kind == UserBase ==> RuleFor(e).regex == RulePrefix + "user" + "$"
    ensures e.kind == UserItem ==> RuleFor(e).regex == RulePrefix + ("user/" + Patterns.DigitsCapture) + "$"
  {
    var p := e.GetPattern();
    assert RuleFor(e).regex == RulePrefix + Patterns.Compile(p) + "$";
    if e.kind == UserBase {
      assert p == DescriptorOf(UserBase).pattern;
      UserBasePattern();
      assert Patterns.Compile(p) == "user";
    } else if e.kind == UserItem {
      assert p == DescriptorOf(UserItem).pattern;
      UserItemPattern();
      assert Patterns.Compile(p) == "user/" + Patterns.DigitsCapture;
    }
  }

  // ---------------------------------------------------------------------------
  // The single instance

  /** A callback registered with `add_action`. */
  datatype Action = RequireFilesOf(registry: Endpoints) | RegisterEndpointsOf(registry: Endpoints)

  /** One `add_action( tag, callback, priority )`. */
  datatype Hook = Hook(tag: string, action: Action, priority: int)

  /** The hooks `setup_actions` adds for an instance: both at priority 99. */
  function SetupHooks(e: Endpoints): seq<Hook> {
    [Hook("plugins_loaded", RequireFilesOf(e), 99), Hook("init", RegisterEndpointsOf(e), 99)]
  }

  /** The process-wide state: the static `$instance`, and the hooks added so far. */
  class Plugin {
    var instance: Endpoints?
    var hooks: seq<Hook>

    constructor ()
      ensures instance == null && hooks == []
    {
      instance := null;
      hooks := [];
    }

    /** `setup_actions`. */
    method SetupActions(e: Endpoints)
      modifies this`hooks
      ensures hooks == old(hooks) + SetupHooks(e)
    {
      hooks := hooks + [Hook("plugins_loaded", RequireFilesOf(e), 99)];
      hooks := hooks + [Hook("init", RegisterEndpointsOf(e), 99)];
    }

    /** `get_instance`: the existing instance, or a new one whose actions are set up once. */
    method GetInstance(pluginDir: string) returns (e: Endpoints)
      modifies this
      ensures instance == e
      ensures old(instance) != null ==> e == old(instance) && hooks == old(hooks)
      ensures old(instance) == null ==>
                fresh(e) && e.endpoints == [] && e.paths == [pluginDir + "/endpoints"] &&
                hooks == old(hooks) + SetupHooks(e)
    {
      if instance == null {
        instance := new Endpoints(pluginDir);
        SetupActions(instance);
      }
      e := instance;
    }
  }

  /** Two calls give the same instance, and the hooks are added by the first only. */
  method GetInstanceTwice(plugin: Plugin, pluginDir: string) returns (first: Endpoints, second: Endpoints)
    modifies plugin
    ensures first == second && plugin.instance == first
    ensures old(plugin.instance) == null ==> plugin.hooks == old(plugin.hooks) + SetupHooks(first)
    ensures old(plugin.instance) != null ==> plugin.hooks == old(plugin.hooks)
  {
    first := plugin.GetInstance(pluginDir);
    second := plugin.GetInstance(pluginDir);
  }
}
