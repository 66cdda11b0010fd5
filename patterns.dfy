/**
 * The pattern compiler: `Endpoint::get_regex_tokens` and `Endpoint::get_regex`.
 *
 * `get_regex` is PHP's `str_replace` called with the token table's keys and values:
 * the first key is replaced everywhere, then the second in the result, and so on.
 * `GetRegex` models exactly that; `Compile` is an independent reference that walks the
 * pattern once, left to right, turning each built-in token into `([\d]+)` and copying
 * every other character.  The main theorem (`GetRegexIsCompile`) says the two agree,
 * from which it follows that unknown `{...}` tokens and all other text are kept, that a
 * token-free pattern comes back unchanged, and that compiling twice changes nothing.
 */
module Patterns {

  import opened Wrappers

  /** What every built-in token becomes: one or more decimal digits, captured. */
  const DigitsCapture: string := "([\\d]+)"

  const PostIdToken: string := "{POST_ID}"
  const UserIdToken: string := "{USER_ID}"
  const CommentIdToken: string := "{COMMENT_ID}"
  const TermIdToken: string := "{TERM_ID}"

  /** `get_regex_tokens`: token => replacement, in the array's order. */
  function RegexTokens(): seq<(string, string)> {
    [(PostIdToken, DigitsCapture), (UserIdToken, DigitsCapture),
     (CommentIdToken, DigitsCapture), (TermIdToken, DigitsCapture)]
  }

  /** `array_keys( get_regex_tokens() )`. */
  function TokenNames(): (r: seq<string>)
    ensures r == [PostIdToken, UserIdToken, CommentIdToken, TermIdToken]
    ensures |r| == |RegexTokens()| && forall i :: 0 <= i < |r| ==> r[i] == RegexTokens()[i].0
  {
    [PostIdToken, UserIdToken, CommentIdToken, TermIdToken]
  }

  /** PHP `str_replace` with one search string: left to right, non-overlapping, an empty search changes nothing. */
  function ReplaceAll(subject: string, search: string, replace: string): string
    decreases |subject|
  {
    if search == [] || subject == [] then subject
    else if search <= subject then replace + ReplaceAll(subject[|search|..], search, replace)
    else [subject[0]] + ReplaceAll(subject[1..], search, replace)
  }

  /** PHP `str_replace` with arrays of searches and replacements: one pair after the other. */
  function StrReplace(pairs: seq<(string, string)>, subject: string): string
    decreases |pairs|
  {
    if pairs == [] then subject else StrReplace(pairs[1..], ReplaceAll(subject, pairs[0].0, pairs[0].1))
  }

  /** `Endpoint::get_regex` of a pattern; it equals the one-pass reference `Compile`. */
  function GetRegex(pattern: string): (r: string)
    ensures r == Compile(pattern)
  {
    GetRegexIsCompile(pattern);
    StrReplace(RegexTokens(), pattern)
  }

  // ---------------------------------------------------------------------------
  // The reference: one left-to-right pass over the pattern

  /** The first token of `toks` (in table order) with which `s` begins. */
  function LeadingToken(toks: seq<string>, s: string): (r: Option<string>)
    ensures r.Some? ==> r.value in toks && r.value <= s
    ensures r.None? ==> forall t :: t in toks ==> !(t <= s)
  {
    if toks == [] then None
    else if toks[0] <= s then Some(toks[0])
    else
      assert forall t :: t in toks ==> t == toks[0] || t in toks[1..];
      LeadingToken(toks[1..], s)
  }

  /** Facts about the four token names and the replacement that the proofs rely on. */
  lemma TokenShape(t: string)
    requires t in TokenNames()
    ensures |t| > 1 && t[0] == '{' && '{' !in t[1..] && '(' !in t[1..]
  {
  }

  /** No token is a prefix of another: they differ in their second character. */
  lemma TokensNotPrefixes(t: string, u: string)
    requires t in TokenNames() && u in TokenNames() && t <= u
    ensures t == u
  {
    assert t[1] == u[1];
  }

  lemma CaptureShape()
    ensures '{' !in DigitsCapture && |DigitsCapture| == 7
  {
  }

  /** Substitute the first `k` tokens of the table in one pass. */
  function Subst(k: nat, s: string): string
    requires k <= |TokenNames()|
    decreases |s|
  {
    if s == [] then []
    else match LeadingToken(TokenNames()[..k], s)
      case Some(t) => TokenShape(t); DigitsCapture + Subst(k, s[|t|..])
      case None => [s[0]] + Subst(k, s[1..])
  }

  /** The reference compiler: every built-in token becomes `([\d]+)`, everything else is copied. */
  function Compile(pattern: string): string {
    Subst(|TokenNames()|, pattern)
  }

  /** No built-in token begins anywhere in `s`. */
  predicate TokenFree(s: string)
    decreases |s|
  {
    s == [] || (LeadingToken(TokenNames(), s).None? && TokenFree(s[1..]))
  }

  /** The built-in tokens of a pattern, left to right: the order of its captures. */
  function TokensIn(s: string): seq<string>
    decreases |s|
  {
    if s == [] then []
    else match LeadingToken(TokenNames(), s)
      case Some(t) => TokenShape(t); [t] + TokensIn(s[|t|..])
      case None => TokensIn(s[1..])
  }

  // ---------------------------------------------------------------------------
  // Lemmas about ReplaceAll

  /** Text that cannot begin an occurrence of the search string passes through unchanged. */
  lemma {:induction false} ReplaceAllSkip(x: string, y: string, search: string, replace: string)
    requires search != [] && search[0] !in x
    ensures ReplaceAll(x + y, search, replace) == x + ReplaceAll(y, search, replace)
    decreases |x|
  {
    if x != [] {
      assert (x + y)[0] == x[0];
      assert (x + y)[1..] == x[1..] + y;
      ReplaceAllSkip(x[1..], y, search, replace);
    } else {
      assert x + y == y;
    }
  }

  /** An occurrence at the front is replaced and the scan resumes after it. */
  lemma ReplaceAllFront(search: string, z: string, replace: string)
    requires search != []
    ensures ReplaceAll(search + z, search, replace) == replace + ReplaceAll(z, search, replace)
  {
    assert search <= search + z;
    assert (search + z)[|search|..] == z;
  }

  // ---------------------------------------------------------------------------
  // Lemmas about the reference

  lemma LeadingTokenSnoc(toks: seq<string>, t: string, s: string)
    ensures LeadingToken(toks + [t], s) ==
            if LeadingToken(toks, s).Some? then LeadingToken(toks, s)
            else if t <= s then Some(t) else None
  {
    if toks != [] {
      assert (toks + [t])[1..] == toks[1..] + [t];
      LeadingTokenSnoc(toks[1..], t, s);
    }
  }

  lemma NoLeadingToken(k: nat, s: string)
    requires k <= |TokenNames()|
    requires s == [] || s[0] != '{'
    ensures LeadingToken(TokenNames()[..k], s).None?
  {
    var r := LeadingToken(TokenNames()[..k], s);
    if r.Some? {
      TokenShape(r.value);
    }
  }

  /** Text without `{` is copied verbatim by the one-pass substitution. */
  lemma {:induction false} SubstPlain(k: nat, x: string, y: string)
    requires k <= |TokenNames()| && '{' !in x
    ensures Subst(k, x + y) == x + Subst(k, y)
    decreases |x|
  {
    if x != [] {
      assert (x + y)[0] == x[0];
      assert (x + y)[1..] == x[1..] + y;
      NoLeadingToken(k, x + y);
      SubstPlain(k, x[1..], y);
    } else {
      assert x + y == y;
    }
  }

  /** A word free of `{` and `(` begins the substituted text exactly when it begins the original. */
  lemma {:induction false} SubstPrefix(k: nat, x: string, y: string)
    requires k <= |TokenNames()| && '{' !in x && '(' !in x
    ensures x <= Subst(k, y) <==> x <= y
    decreases |x|
  {
    if x != [] && y != [] {
      match LeadingToken(TokenNames()[..k], y)
      case Some(t) =>
        TokenShape(t);
        assert y[0] == '{';
        assert Subst(k, y)[0] == '(';
      case None =>
        assert Subst(k, y) == [y[0]] + Subst(k, y[1..]);
        SubstPrefix(k, x[1..], y[1..]);
        assert x <= Subst(k, y) <==> x[0] == y[0] && x[1..] <= Subst(k, y[1..]);
        assert x <= y <==> x[0] == y[0] && x[1..] <= y[1..];
    }
  }

  lemma {:induction false} SubstNone(s: string)
    ensures Subst(0, s) == s
    decreases |s|
  {
    if s != [] {
      SubstNone(s[1..]);
    }
  }

  /** Replacing the `k`-th token in the `k`-token substitution gives the `k+1`-token substitution. */
  lemma {:induction false} SubstStep(k: nat, s: string)
    requires k < |TokenNames()|
    ensures ReplaceAll(Subst(k, s), TokenNames()[k], DigitsCapture) == Subst(k + 1, s)
    decreases |s|, 1
  {
    var tok := TokenNames()[k];
    assert TokenNames()[..k + 1] == TokenNames()[..k] + [tok];
    LeadingTokenSnoc(TokenNames()[..k], tok, s);
    if s != [] {
      match LeadingToken(TokenNames()[..k], s)
      case Some(t) =>
        SubstStepEarlier(k, s, t);
      case None =>
        if tok <= s {
          SubstStepFront(k, s);
        } else {
          SubstStepOther(k, s);
        }
    }
  }

  /** Case of `SubstStep`: `s` begins with one of the first `k` tokens. */
  lemma {:induction false} SubstStepEarlier(k: nat, s: string, t: string)
    requires k < |TokenNames()| && s != []
    requires LeadingToken(TokenNames()[..k], s) == Some(t)
    requires LeadingToken(TokenNames()[..k + 1], s) == Some(t)
    ensures ReplaceAll(Subst(k, s), TokenNames()[k], DigitsCapture) == Subst(k + 1, s)
    decreases |s|, 0
  {
    var tok := TokenNames()[k];
    TokenShape(tok);
    TokenShape(t);
    CaptureShape();
    SubstStep(k, s[|t|..]);
    ReplaceAllSkip(DigitsCapture, Subst(k, s[|t|..]), tok, DigitsCapture);
  }

  /** Case of `SubstStep`: `s` begins with the `k`-th token. */
  lemma {:induction false} SubstStepFront(k: nat, s: string)
    requires k < |TokenNames()| && s != []
    requires LeadingToken(TokenNames()[..k], s).None?
    requires LeadingToken(TokenNames()[..k + 1], s) == Some(TokenNames()[k])
    ensures ReplaceAll(Subst(k, s), TokenNames()[k], DigitsCapture) == Subst(k + 1, s)
    decreases |s|, 0
  {
    var tok := TokenNames()[k];
    TokenShape(tok);
    var rest := s[|tok|..];
    SubstBeforeToken(k, s, tok);
    SubstAtToken(k + 1, s, tok);
    ReplaceAllFront(tok, Subst(k, rest), DigitsCapture);
    SubstStep(k, rest);
  }

  /** A token that none of the first `k` begins is copied through by `Subst(k, _)`. */
  lemma SubstBeforeToken(k: nat, s: string, tok: string)
    requires k <= |TokenNames()| && |tok| > 1 && tok[0] == '{' && '{' !in tok[1..] && tok <= s
    requires LeadingToken(TokenNames()[..k], s).None?
    ensures Subst(k, s) == tok + Subst(k, s[|tok|..])
  {
    var rest := s[|tok|..];
    assert s == tok + rest;
    assert s[1..] == tok[1..] + rest;
    assert Subst(k, s) == [s[0]] + Subst(k, s[1..]);
    SubstPlain(k, tok[1..], rest);
    assert [s[0]] + tok[1..] == tok;
  }

  /** A leading token among the first `k` becomes the capture group. */
  lemma SubstAtToken(k: nat, s: string, tok: string)
    requires k <= |TokenNames()| && s != [] && LeadingToken(TokenNames()[..k], s) == Some(tok)
    ensures Subst(k, s) == DigitsCapture + Subst(k, s[|tok|..])
  {
  }

  /** Case of `SubstStep`: no token among the first `k + 1` begins `s`. */
  lemma {:induction false} SubstStepOther(k: nat, s: string)
    requires k < |TokenNames()| && s != []
    requires LeadingToken(TokenNames()[..k], s).None?
    requires LeadingToken(TokenNames()[..k + 1], s).None?
    ensures ReplaceAll(Subst(k, s), TokenNames()[k], DigitsCapture) == Subst(k + 1, s)
    decreases |s|, 0
  {
    var tok := TokenNames()[k];
    TokenShape(tok);
    assert tok in TokenNames()[..k + 1];
    var out := Subst(k, s);
    SubstCopied(k, s);
    SubstNoToken(k, s, tok);
    ReplaceAllMiss(out, tok, DigitsCapture);
    SubstStep(k, s[1..]);
    SubstCopied(k + 1, s);
  }

  /** When no token among the first `k` begins `s`, its first character is copied. */
  lemma SubstCopied(k: nat, s: string)
    requires k <= |TokenNames()| && s != [] && LeadingToken(TokenNames()[..k], s).None?
    ensures Subst(k, s) == [s[0]] + Subst(k, s[1..])
  {
  }

  /** A token that does not begin `s` does not begin its substitution either. */
  lemma SubstNoToken(k: nat, s: string, tok: string)
    requires k <= |TokenNames()| && s != [] && LeadingToken(TokenNames()[..k], s).None?
    requires |tok| > 1 && tok[0] == '{' && '{' !in tok[1..] && '(' !in tok[1..] && !(tok <= s)
    ensures !(tok <= Subst(k, s))
  {
    var out := Subst(k, s);
    SubstCopied(k, s);
    if s[0] == '{' {
      SubstPrefix(k, tok[1..], s[1..]);
      assert tok <= out <==> tok[1..] <= Subst(k, s[1..]);
      assert tok <= s <==> tok[1..] <= s[1..];
    } else {
      assert out[0] != tok[0];
    }
  }

  /** `str_replace` copies the first character of a subject its search does not begin. */
  lemma ReplaceAllMiss(subject: string, search: string, replace: string)
    requires search != [] && subject != [] && !(search <= subject)
    ensures ReplaceAll(subject, search, replace) == [subject[0]] + ReplaceAll(subject[1..], search, replace)
  {
  }

  lemma {:induction false} StrReplaceFrom(k: nat, s: string)
    requires k <= |TokenNames()|
    ensures StrReplace(RegexTokens()[k..], Subst(k, s)) == Compile(s)
    decreases |TokenNames()| - k
  {
    if k < |TokenNames()| {
      assert RegexTokens()[k..][1..] == RegexTokens()[k + 1..];
      SubstStep(k, s);
      StrReplaceFrom(k + 1, s);
    }
  }

  /** Sequential `str_replace` over the token table equals the one-pass reference. */
  lemma GetRegexIsCompile(pattern: string)
    ensures StrReplace(RegexTokens(), pattern) == Compile(pattern)
  {
    SubstNone(pattern);
    StrReplaceFrom(0, pattern);
  }

  // ---------------------------------------------------------------------------
  // What the compiler promises

  /** Prepending text without `{` keeps a string token-free. */
  lemma {:induction false} TokenFreePlain(x: string, z: string)
    requires '{' !in x && TokenFree(z)
    ensures TokenFree(x + z)
    decreases |x|
  {
    if x != [] {
      assert (x + z)[1..] == x[1..] + z;
      NoLeadingToken(|TokenNames()|, x + z);
      assert TokenNames()[..|TokenNames()|] == TokenNames();
      TokenFreePlain(x[1..], z);
    } else {
      assert x + z == z;
    }
  }

  /** A compiled pattern holds no built-in token: every occurrence was replaced. */
  lemma {:induction false} CompileIsTokenFree(s: string)
    ensures TokenFree(Compile(s))
    decreases |s|
  {
    var n := |TokenNames()|;
    assert TokenNames()[..n] == TokenNames();
    if s != [] {
      match LeadingToken(TokenNames(), s)
      case Some(t) =>
        TokenShape(t);
        CaptureShape();
        CompileIsTokenFree(s[|t|..]);
        TokenFreePlain(DigitsCapture, Compile(s[|t|..]));
      case None =>
        CompileIsTokenFree(s[1..]);
        var out := Compile(s);
        assert out == [s[0]] + Compile(s[1..]);
        assert out[1..] == Compile(s[1..]);
        forall t | t in TokenNames()
          ensures !(t <= out)
        {
          TokenShape(t);
          if s[0] == '{' {
            SubstPrefix(n, t[1..], s[1..]);
            assert t <= out <==> t[1..] <= Compile(s[1..]);
            assert t <= s <==> t[1..] <= s[1..];
          }
        }
    }
  }

  /** A pattern is returned unchanged exactly when it holds no built-in token; unknown `{...}` tokens included. */
  lemma {:induction false} CompileUnchangedIff(s: string)
    ensures Compile(s) == s <==> TokenFree(s)
    decreases |s|
  {
    var n := |TokenNames()|;
    assert TokenNames()[..n] == TokenNames();
    if s != [] {
      match LeadingToken(TokenNames(), s)
      case Some(t) =>
        TokenShape(t);
        CaptureShape();
        CompileShrinks(s[|t|..]);
        assert |Compile(s)| < |s|;
      case None =>
        CompileUnchangedIff(s[1..]);
        assert s == [s[0]] + s[1..];
    }
  }

  /** Compiling never lengthens a pattern (each token is longer than its replacement). */
  lemma {:induction false} CompileShrinks(s: string)
    ensures |Compile(s)| <= |s|
    decreases |s|
  {
    var n := |TokenNames()|;
    assert TokenNames()[..n] == TokenNames();
    if s != [] {
      match LeadingToken(TokenNames(), s)
      case Some(t) =>
        TokenShape(t);
        CaptureShape();
        assert |t| >= 9 by { assert t in TokenNames(); }
        CompileShrinks(s[|t|..]);
      case None =>
        CompileShrinks(s[1..]);
    }
  }

  /** Compiling is idempotent: `get_regex` of a compiled pattern is that pattern. */
  lemma CompileIdempotent(s: string)
    ensures GetRegex(GetRegex(s)) == GetRegex(s)
  {
    CompileIsTokenFree(s);
    CompileUnchangedIff(Compile(s));
  }
}
