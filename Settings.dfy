/**
 * The static settings getters of the server: the session timeout, the path prefix of the app,
 * the prefix of the API path and the text produced for a failed configuration validation.
 * The configuration file is taken as already parsed: every configured value is a parameter.
 */
module Settings {
  import opened Wrappers
  import opened JsStrings

  /** Path segment of the API below the (optional) path prefix. */
  const ApiPrefix: string := "api"
  /** Session timeout in minutes when none is configured. */
  const DefaultSessionTimeout: int := 120

  // ---------------------------------------------------------------- session timeout

  /** The configured session timeout in minutes, falling back to 120 when none is configured. */
  function SessionTimeout(configured: Option<int>): (minutes: int)
    ensures configured.Some? ==> minutes == configured.value
    ensures configured.None? ==> minutes == DefaultSessionTimeout
  {
    match configured
    case Some(m) => m
    case None => DefaultSessionTimeout
  }

  // ---------------------------------------------------------------- string helpers of JavaScript

  predicate StartsWithSlash(s: string) { |s| > 0 && s[0] == '/' }
  predicate EndsWithSlash(s: string) { |s| > 0 && s[|s| - 1] == '/' }

  /** No two consecutive '/' characters. */
  predicate NoDoubleSlash(s: string) {
    forall i :: 0 <= i < |s| - 1 ==> !(s[i] == '/' && s[i + 1] == '/')
  }

  /** `s.replace('//', '/')`: only the first occurrence of "//" is replaced. */
  function ReplaceFirstDoubleSlash(s: string): string {
    if |s| < 2 then s
    else if s[0] == '/' && s[1] == '/' then "/" + s[2..]
    else [s[0]] + ReplaceFirstDoubleSlash(s[1..])
  }

  lemma NoDoubleSlashTail(s: string)
    requires s != [] && NoDoubleSlash(s)
    ensures NoDoubleSlash(s[1..])
  {
    forall i | 0 <= i < |s[1..]| - 1
      ensures !(s[1..][i] == '/' && s[1..][i + 1] == '/')
    {
      assert s[1..][i] == s[i + 1] && s[1..][i + 1] == s[i + 2];
    }
  }

  lemma {:induction false} ReplaceFirstAbsent(s: string)
    requires NoDoubleSlash(s)
    ensures ReplaceFirstDoubleSlash(s) == s
  {
    if |s| >= 2 {
      assert !(s[0] == '/' && s[1] == '/');
      NoDoubleSlashTail(s);
      ReplaceFirstAbsent(s[1..]);
      assert [s[0]] + s[1..] == s;
    }
  }

  /** The first "//" of `a + "//" + b` is the one after `a` when `a` has none and does not end with '/'. */
  lemma {:induction false} ReplaceFirstAfter(a: string, b: string)
    requires NoDoubleSlash(a) && !EndsWithSlash(a)
    ensures ReplaceFirstDoubleSlash(a + "//" + b) == a + "/" + b
  {
    var s := a + "//" + b;
    if a == [] {
      assert s == "//" + b;
      assert s[2..] == b;
    } else {
      var rest := a[1..];
      NoDoubleSlashTail(a);
      assert !EndsWithSlash(rest) by {
        if |rest| > 0 { assert rest[|rest| - 1] == a[|a| - 1]; }
      }
      assert s == [a[0]] + (rest + "//" + b);
      assert !(s[0] == '/' && s[1] == '/') by {
        if |a| >= 2 {
          assert s[1] == a[1];
        } else {
          assert a[0] == a[|a| - 1];
        }
      }
      ReplaceFirstAfter(rest, b);
      assert a + "/" + b == [a[0]] + (rest + "/" + b);
    }
  }

  // ---------------------------------------------------------------- path prefix

  /**
   * The path prefix exactly as the getter computes it: `substr(start, length)` where `length` is
   * computed as if it were an end index. A prefix with both a leading and a trailing '/' keeps
   * the trailing one.
   */
  function PathPrefixAsWritten(prefix: Option<string>): Option<string> {
    if prefix.None? || prefix.value == "" then None
    else
      var p := prefix.value;
      var start := if StartsWithSlash(p) then 1 else 0;
      var length := if EndsWithSlash(p) then |p| - 1 else |p|;
      Some(Substr(p, start, length))
  }

  /**
   * The path prefix as documented: `null` when unset or empty, otherwise the prefix without one
   * leading and without one trailing '/'.
   */
  function PathPrefix(prefix: Option<string>): Option<string> {
    if prefix.None? || prefix.value == "" then None
    else
      var p := prefix.value;
      var start := if StartsWithSlash(p) then 1 else 0;
      var end := if EndsWithSlash(p) then |p| - 1 else |p|;
      Some(p[start..if start <= end then end else start])
  }

  /** An unset or empty prefix gives no path prefix; any other gives one. */
  lemma PathPrefixAbsent(prefix: Option<string>)
    ensures PathPrefix(prefix).None? <==> (prefix.None? || prefix.value == "")
    ensures PathPrefixAsWritten(prefix).None? <==> (prefix.None? || prefix.value == "")
  {
  }

  /**
   * The corrected prefix is the configured one with one leading '/' stripped when there is one and
   * one trailing '/' stripped when there is one besides the leading one; it ends with '/' only when
   * the configured prefix ends with "//".
   */
  lemma PathPrefixStrips(p: string)
    requires p != ""
    ensures PathPrefix(Some(p)).Some?
    ensures var r := PathPrefix(Some(p)).value;
      var lead := if StartsWithSlash(p) then 1 else 0;
      var trail := if |p| >= 2 && EndsWithSlash(p) then 1 else 0;
      |r| == |p| - lead - trail && r == p[lead..lead + |r|]
    ensures var r := PathPrefix(Some(p)).value;
      EndsWithSlash(r) ==> |p| >= 2 && p[|p| - 2] == '/' && p[|p| - 1] == '/'
  {
    var r := PathPrefix(Some(p)).value;
    var start := if StartsWithSlash(p) then 1 else 0;
    var end := if EndsWithSlash(p) then |p| - 1 else |p|;
    var stop := if start <= end then end else start;
    assert r == p[start..stop];
    if EndsWithSlash(r) {
      assert r[|r| - 1] == p[stop - 1];
    }
  }

  /** Where the prefix has no leading '/', the getter as written strips one trailing '/'. */
  lemma PathPrefixWithoutLeadingSlash(p: string)
    requires p != "" && !StartsWithSlash(p)
    ensures PathPrefixAsWritten(Some(p)) == PathPrefix(Some(p))
    ensures PathPrefixAsWritten(Some(p)) == Some(if EndsWithSlash(p) then p[..|p| - 1] else p)
  {
  }

  /** The two definitions differ only on prefixes of at least two characters with a '/' at both ends. */
  lemma PathPrefixAgreement(p: string)
    requires p != ""
    ensures PathPrefixAsWritten(Some(p)) != PathPrefix(Some(p)) <==>
      (|p| >= 2 && StartsWithSlash(p) && EndsWithSlash(p))
  {
    if |p| >= 2 && StartsWithSlash(p) && EndsWithSlash(p) {
      assert |PathPrefixAsWritten(Some(p)).value| == |p| - 1;
      assert |PathPrefix(Some(p)).value| == |p| - 2;
    }
  }

  /** "/foo/" keeps its trailing '/' in the getter as written, against its documentation. */
  lemma PathPrefixKeepsTrailingSlash()
    ensures PathPrefixAsWritten(Some("/foo/")) == Some("foo/")
    ensures PathPrefix(Some("/foo/")) == Some("foo")
  {
    assert "/foo/"[1..5] == "foo/";
    assert "/foo/"[1..4] == "foo";
  }

  // ---------------------------------------------------------------- API prefix

  /** The API prefix built from a path prefix: "api" without one, else prefix + "/api" with the first "//" collapsed. */
  function ApiPrefixOf(pathPrefix: Option<string>): string {
    if pathPrefix.Some? && pathPrefix.value != "" then
      ReplaceFirstDoubleSlash(pathPrefix.value + "/" + ApiPrefix)
    else ApiPrefix
  }

  /** The prefix of every API route, built from the path prefix getter as written. */
  function ApiPathPrefix(prefix: Option<string>): string {
    ApiPrefixOf(PathPrefixAsWritten(prefix))
  }

  /** Without a path prefix (unset, empty or just "/") the API lives under "api". */
  lemma ApiPrefixDefault(prefix: Option<string>)
    requires prefix.None? || prefix.value == "" || prefix.value == "/"
    ensures ApiPathPrefix(prefix) == "api"
  {
  }

  /** Joining a path prefix `r` that contains no "//" and does not end with '/' gives `r + "/api"`: there is nothing to collapse. */
  lemma ApiPrefixOfJoins(r: string)
    requires r != "" && NoDoubleSlash(r) && !EndsWithSlash(r)
    ensures ApiPrefixOf(Some(r)) == r + "/api"
  {
    var s := r + "/" + ApiPrefix;
    assert NoDoubleSlash(s) by {
      forall i | 0 <= i < |s| - 1 ensures !(s[i] == '/' && s[i + 1] == '/') {
        if i < |r| - 1 {
          assert s[i] == r[i] && s[i + 1] == r[i + 1];
        } else if i == |r| - 1 {
          assert s[i] == r[|r| - 1];
        }
      }
    }
    ReplaceFirstAbsent(s);
  }

  /**
   * The "//" collapse of the API prefix hides the trailing '/' that the path prefix getter as
   * written keeps: for a prefix without "//", the API prefix is the one the documented getter gives.
   */
  lemma ApiPrefixHidesTrailingSlash(p: string)
    requires p != "" && NoDoubleSlash(p)
    ensures ApiPathPrefix(Some(p)) == ApiPrefixOf(PathPrefix(Some(p)))
  {
    PathPrefixAgreement(p);
    if |p| >= 2 && StartsWithSlash(p) && EndsWithSlash(p) {
      assert !(p[0] == '/' && p[1] == '/');
      assert |p| >= 3;
      var a := p[1..|p| - 1];
      assert PathPrefix(Some(p)) == Some(a);
      assert PathPrefixAsWritten(Some(p)) == Some(p[1..]);
      assert p[1..] == a + "/";
      assert NoDoubleSlash(a) by {
        forall i | 0 <= i < |a| - 1 ensures !(a[i] == '/' && a[i + 1] == '/') {
          assert a[i] == p[i + 1] && a[i + 1] == p[i + 2];
        }
      }
      assert !EndsWithSlash(a) by {
        assert a[|a| - 1] == p[|p| - 2];
      }
      assert (a + "/") + "/" + ApiPrefix == a + "//" + "api";
      ReplaceFirstAfter(a, "api");
      ApiPrefixOfJoins(a);
    }
  }

  /**
   * A configured prefix without "//" that is more than a lone '/' puts the API under the
   * documented path prefix (one leading and one trailing '/' stripped) followed by "/api".
   */
  lemma ApiPrefixJoins(p: string)
    requires p != "" && NoDoubleSlash(p) && PathPrefix(Some(p)).value != ""
    ensures ApiPathPrefix(Some(p)) == PathPrefix(Some(p)).value + "/api"
  {
    ApiPrefixHidesTrailingSlash(p);
    PathPrefixStrips(p);
    var r := PathPrefix(Some(p)).value;
    var lead := if StartsWithSlash(p) then 1 else 0;
    assert NoDoubleSlash(r) by {
      forall i | 0 <= i < |r| - 1 ensures !(r[i] == '/' && r[i + 1] == '/') {
        assert r[i] == p[lead + i] && r[i + 1] == p[lead + i + 1];
      }
    }
    ApiPrefixOfJoins(r);
  }

  /**
   * A prefix ending in "//" keeps a "//" in the API prefix: the getter as written leaves both
   * trailing slashes, and only the first "//" is collapsed.
   */
  lemma ApiPrefixKeepsDoubleSlash()
    ensures ApiPathPrefix(Some("/foo//")) == "foo//api"
    ensures ApiPrefixOf(PathPrefix(Some("/foo//"))) == "foo/api"
  {
    assert "/foo//"[1..6] == "foo//";
    assert "/foo//"[1..5] == "foo/";
    assert PathPrefixAsWritten(Some("/foo//")) == Some("foo//");
    assert PathPrefix(Some("/foo//")) == Some("foo/");
    assert "foo//" + "/" + ApiPrefix == "foo///api";
    assert "foo/" + "/" + ApiPrefix == "foo//api";
    assert ReplaceFirstDoubleSlash("foo///api") == "foo//api" by {
      assert "foo///api"[1..] == "oo///api";
      assert "oo///api"[1..] == "o///api";
      assert "o///api"[1..] == "///api";
      assert "///api"[2..] == "/api";
    }
    assert ReplaceFirstDoubleSlash("foo//api") == "foo/api" by {
      assert "foo//api"[1..] == "oo//api";
      assert "oo//api"[1..] == "o//api";
      assert "o//api"[1..] == "//api";
      assert "//api"[2..] == "api";
      assert ReplaceFirstDoubleSlash("//api") == "/api";
      assert ReplaceFirstDoubleSlash("o//api") == "o/api";
      assert ReplaceFirstDoubleSlash("oo//api") == "oo/api";
    }
  }

  // ---------------------------------------------------------------- validation error text

  /**
   * A class-validator error: the property it is about, the errors of nested properties (an
   * absent list is the empty list) and, when present, the failed constraints with their messages
   * in the order the error object lists them.
   */
  datatype ValidationError = ValidationError(
    property: string,
    children: seq<ValidationError>,
    constraints: Option<seq<(string, string)>>)

  function Header(property: string): string {
    "The following " + "validation " + "error(s) " + "occured " + "for the \"" + property + "\" property:"
  }

  /** `depth` tab characters. */
  function Tabs(depth: nat): (t: string)
    ensures |t| == depth && forall i :: 0 <= i < depth ==> t[i] == '\t'
  {
    if depth == 0 then "" else Tabs(depth - 1) + "\t"
  }

  /** The text of an error at the given depth: the header line, then one block per child or one line per constraint. */
  function ErrorText(e: ValidationError, depth: nat): string
    decreases e, 2
  {
    Header(e.property) +
    if |e.children| > 0 then ChildrenText(e, depth, |e.children|)
    else match e.constraints
      case Some(cs) => ConstraintsText(cs, Tabs(depth), |cs|)
      case None => ("\n" + Tabs(depth) + "\tUnknown error")
  }

  /** The block of the k-th child: a new line, `depth` tabs, and the child's text one level deeper. */
  function ChildBlock(e: ValidationError, depth: nat, k: nat): string
    requires k < |e.children|
    decreases e, 0
  {
    "\n" + Tabs(depth) + ErrorText(e.children[k], depth + 1)
  }

  /** The blocks of the first `k` children. */
  function ChildrenText(e: ValidationError, depth: nat, k: nat): string
    requires k <= |e.children|
    decreases e, 1, k
  {
    if k == 0 then "" else ChildrenText(e, depth, k - 1) + ChildBlock(e, depth, k - 1)
  }

  /** The blocks of the children from `m` (inclusive) to `n` (exclusive). */
  function ChildrenTextFrom(e: ValidationError, depth: nat, m: nat, n: nat): string
    requires m <= n <= |e.children|
    decreases n
  {
    if n == m then "" else ChildrenTextFrom(e, depth, m, n - 1) + ChildBlock(e, depth, n - 1)
  }

  /** The lines of the first `k` constraints, each behind the tabs and one more tab. */
  function ConstraintsText(cs: seq<(string, string)>, tabs: string, k: nat): string
    requires k <= |cs|
  {
    if k == 0 then ""
    else ConstraintsText(cs, tabs, k - 1) + ("\n" + tabs + "\t" + cs[k - 1].0 + " - " + cs[k - 1].1)
  }

  /** Builds the error text with the loops and the recursion of the original getter. */
  method StringForError(e: ValidationError, depth: nat) returns (message: string)
    ensures message == ErrorText(e, depth)
    decreases e
  {
    var tabs := TabsFor(depth);
    message := Header(e.property);
    if |e.children| > 0 {
      var blocks := "";
      for k := 0 to |e.children|
        invariant blocks == ChildrenText(e, depth, k)
      {
        var child := StringForError(e.children[k], depth + 1);
        blocks := blocks + ("\n" + tabs + child);
      }
      message := message + blocks;
    } else if e.constraints.Some? {
      var lines := ConstraintLines(e.constraints.value, tabs);
      message := message + lines;
    } else {
      message := message + ("\n" + tabs + "\tUnknown error");
    }
  }

  /** `depth` tabs, added one after the other. */
  method TabsFor(depth: nat) returns (tabs: string)
    ensures tabs == Tabs(depth)
  {
    tabs := "";
    for i := 0 to depth
      invariant tabs == Tabs(i)
    {
      tabs := tabs + "\t";
    }
  }

  /** One line per constraint, added one after the other. */
  method ConstraintLines(cs: seq<(string, string)>, tabs: string) returns (lines: string)
    ensures lines == ConstraintsText(cs, tabs, |cs|)
  {
    lines := "";
    for k := 0 to |cs|
      invariant lines == ConstraintsText(cs, tabs, k)
    {
      lines := lines + ("\n" + tabs + "\t" + cs[k].0 + " - " + cs[k].1);
    }
  }

  // ---------------------------------------------------------------- line structure of the error text

  function CountNewlines(s: string): nat {
    if s == [] then 0 else (if s[0] == '\n' then 1 else 0) + CountNewlines(s[1..])
  }

  lemma {:induction false} CountNewlinesAppend(a: string, b: string)
    ensures CountNewlines(a + b) == CountNewlines(a) + CountNewlines(b)
  {
    if a != [] {
      assert (a + b)[1..] == a[1..] + b;
      CountNewlinesAppend(a[1..], b);
    } else {
      assert a + b == b;
    }
  }

  predicate NoNewline(s: string) { '\n' !in s }

  lemma {:induction false} NoNewlineCount(s: string)
    requires NoNewline(s)
    ensures CountNewlines(s) == 0
  {
    if s != [] { NoNewlineCount(s[1..]); }
  }

  /** No property name, constraint name or constraint message spans several lines. */
  predicate SingleLineTexts(e: ValidationError)
    decreases e
  {
    NoNewline(e.property) &&
    (e.constraints.Some? ==> forall j :: 0 <= j < |e.constraints.value| ==>
      NoNewline(e.constraints.value[j].0) && NoNewline(e.constraints.value[j].1)) &&
    forall k :: 0 <= k < |e.children| ==> SingleLineTexts(e.children[k])
  }

  /** Number of lines below the header: one per constraint (or one "Unknown error"), one per nested error header. */
  function LinesBelow(e: ValidationError): nat
    decreases e, 1
  {
    if |e.children| > 0 then ChildrenLines(e, |e.children|)
    else match e.constraints
      case Some(cs) => |cs|
      case None => 1
  }

  function ChildrenLines(e: ValidationError, k: nat): nat
    requires k <= |e.children|
    decreases e, 0, k
  {
    if k == 0 then 0 else ChildrenLines(e, k - 1) + 1 + LinesBelow(e.children[k - 1])
  }

  lemma TabsSingleLine(depth: nat)
    ensures CountNewlines(Tabs(depth)) == 0
  {
    NoNewlineCount(Tabs(depth));
  }

  lemma HeaderSingleLine(property: string)
    requires NoNewline(property)
    ensures CountNewlines(Header(property)) == 0
  {
    var pre := "The following " + "validation " + "error(s) " + "occured " + "for the \"";
    var post := "\" property:";
    assert Header(property) == pre + property + post;
    NoNewlineCount(pre);
    NoNewlineCount(property);
    NoNewlineCount(post);
    CountNewlinesAppend(pre, property);
    CountNewlinesAppend(pre + property, post);
  }

  /** The error text has one line per header of a nested error and one per constraint message, and nothing else. */
  lemma {:induction false} ErrorTextLines(e: ValidationError, depth: nat)
    requires SingleLineTexts(e)
    ensures CountNewlines(ErrorText(e, depth)) == LinesBelow(e)
    decreases e, 1
  {
    HeaderSingleLine(e.property);
    if |e.children| > 0 {
      var rest := ChildrenText(e, depth, |e.children|);
      assert ErrorText(e, depth) == Header(e.property) + rest;
      CountNewlinesAppend(Header(e.property), rest);
      ChildrenTextLines(e, depth, |e.children|);
    } else if e.constraints.Some? {
      var cs := e.constraints.value;
      var rest := ConstraintsText(cs, Tabs(depth), |cs|);
      assert ErrorText(e, depth) == Header(e.property) + rest;
      CountNewlinesAppend(Header(e.property), rest);
      NoNewlineCount(Tabs(depth));
      ConstraintsTextLines(cs, Tabs(depth), |cs|);
    } else {
      var rest := "\n" + Tabs(depth) + "\tUnknown error";
      assert ErrorText(e, depth) == Header(e.property) + rest;
      CountNewlinesAppend(Header(e.property), rest);
      UnknownErrorLine(depth);
    }
  }

  /** The line of an error without constraints is one line. */
  lemma UnknownErrorLine(depth: nat)
    ensures CountNewlines("\n" + Tabs(depth) + "\tUnknown error") == 1
  {
    var line := Tabs(depth) + "\tUnknown error";
    assert "\n" + Tabs(depth) + "\tUnknown error" == "\n" + line;
    assert NoNewline(line);
    NewlineThen(line);
  }

  /** A line break followed by text without one is one line break. */
  lemma NewlineThen(a: string)
    requires NoNewline(a)
    ensures CountNewlines("\n" + a) == 1
  {
    NoNewlineCount(a);
    assert ("\n" + a)[1..] == a;
  }

  lemma {:induction false} ChildrenTextLines(e: ValidationError, depth: nat, k: nat)
    requires k <= |e.children| && SingleLineTexts(e)
    ensures CountNewlines(ChildrenText(e, depth, k)) == ChildrenLines(e, k)
    decreases e, 0, k
  {
    if k > 0 {
      ChildrenTextLines(e, depth, k - 1);
      ChildBlockLines(e, depth, k - 1);
      var prev, block := ChildrenText(e, depth, k - 1), ChildBlock(e, depth, k - 1);
      assert ChildrenText(e, depth, k) == prev + block;
      assert ChildrenLines(e, k) == ChildrenLines(e, k - 1) + 1 + LinesBelow(e.children[k - 1]);
      CountNewlinesAppend(prev, block);
    } else {
      assert ChildrenText(e, depth, k) == "";
    }
  }

  /** A child's block starts a new line and then has the child's own lines. */
  lemma {:induction false} ChildBlockLines(e: ValidationError, depth: nat, k: nat)
    requires k < |e.children| && SingleLineTexts(e)
    ensures CountNewlines(ChildBlock(e, depth, k)) == 1 + LinesBelow(e.children[k])
    decreases e, 0, 0
  {
    var child := ErrorText(e.children[k], depth + 1);
    ErrorTextLines(e.children[k], depth + 1);
    NewlineThen(Tabs(depth));
    assert ChildBlock(e, depth, k) == ("\n" + Tabs(depth)) + child;
    CountNewlinesAppend("\n" + Tabs(depth), child);
  }

  lemma {:induction false} ConstraintsTextLines(cs: seq<(string, string)>, tabs: string, k: nat)
    requires k <= |cs| && NoNewline(tabs)
    requires forall j :: 0 <= j < |cs| ==> NoNewline(cs[j].0) && NoNewline(cs[j].1)
    ensures CountNewlines(ConstraintsText(cs, tabs, k)) == k
  {
    if k > 0 {
      var prev := ConstraintsText(cs, tabs, k - 1);
      var line := tabs + "\t" + cs[k - 1].0 + " - " + cs[k - 1].1;
      ConstraintsTextLines(cs, tabs, k - 1);
      assert NoNewline(line);
      NewlineThen(line);
      assert ConstraintsText(cs, tabs, k) == prev + ("\n" + line);
      CountNewlinesAppend(prev, "\n" + line);
    }
  }

  /** The error text is the header, the blocks of the children before the k-th, the k-th block and the rest. */
  lemma NestedDepth(e: ValidationError, depth: nat, k: nat)
    requires 0 <= k < |e.children|
    ensures ErrorText(e, depth) ==
      Header(e.property) + ChildrenText(e, depth, k)
      + ("\n" + Tabs(depth) + ErrorText(e.children[k], depth + 1))
      + ChildrenTextFrom(e, depth, k + 1, |e.children|)
  {
    ChildrenTextSplit(e, depth, k + 1, |e.children|);
  }

  lemma {:induction false} ChildrenTextSplit(e: ValidationError, depth: nat, m: nat, n: nat)
    requires m <= n <= |e.children|
    ensures ChildrenText(e, depth, n) == ChildrenText(e, depth, m) + ChildrenTextFrom(e, depth, m, n)
    decreases n
  {
    if m < n {
      ChildrenTextSplit(e, depth, m, n - 1);
    }
  }
}
