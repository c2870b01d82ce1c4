/** Subgroup namespacing (`buildSubgroup`) and the route template compiler
    behind collections at a subpath. */
module Subpaths {
  import opened Wrappers
  import opened Js

  /** `buildSubgroup(prefix, subgroup)`: with a truthy prefix the key is
      `prefix:subgroup`, an absent subgroup counting as ""; otherwise the
      subgroup passes through, absent included. */
  function BuildSubgroup(prefix: Option<string>, subgroup: Option<string>): (key: Option<string>)
    ensures prefix.Some? && prefix.value != "" ==>
      key.Some? && key.value == prefix.value + ":" + OrStr(subgroup, "")
    ensures !(prefix.Some? && prefix.value != "") ==> key == subgroup
  {
    if prefix.Some? && prefix.value != "" then Some(prefix.value + ":" + OrStr(subgroup, ""))
    else subgroup
  }

  /** With a prefix, an absent subgroup and the empty subgroup name the same slot. */
  lemma AbsentSubgroupIsEmpty(prefix: string)
    requires prefix != ""
    ensures BuildSubgroup(Some(prefix), None) == BuildSubgroup(Some(prefix), Some(""))
    ensures BuildSubgroup(Some(prefix), None) == Some(prefix + ":")
  {
    assert prefix + ":" + "" == prefix + ":";
  }

  /** A namespaced key starts with the prefix followed by ':'. */
  lemma NamespacedKeyStartsWithPrefix(prefix: string, subgroup: Option<string>)
    requires prefix != ""
    ensures var key := BuildSubgroup(Some(prefix), subgroup).value;
      |key| > |prefix| && key[..|prefix|] == prefix && key[|prefix|] == ':'
  {
    var key := BuildSubgroup(Some(prefix), subgroup).value;
    assert key == prefix + ":" + OrStr(subgroup, "");
  }

  /** For the same caller subgroup, two different prefixes never share a slot:
      the common suffix cancels. */
  lemma {:induction false} DistinctPrefixesDistinctKeys(p1: string, p2: string, subgroup: Option<string>)
    requires p1 != "" && p2 != "" && p1 != p2
    ensures BuildSubgroup(Some(p1), subgroup) != BuildSubgroup(Some(p2), subgroup)
  {
    var k1 := BuildSubgroup(Some(p1), subgroup).value;
    var k2 := BuildSubgroup(Some(p2), subgroup).value;
    assert k1[..|p1|] == p1 && k2[..|p2|] == p2;
    assert |k1| - |p1| == |k2| - |p2|;
  }

  /** Under one prefix, different truthy subgroups keep different slots. */
  lemma {:induction false} SamePrefixDistinctSubgroups(prefix: string, s1: string, s2: string)
    requires prefix != "" && s1 != s2
    ensures BuildSubgroup(Some(prefix), Some(s1)) != BuildSubgroup(Some(prefix), Some(s2))
  {
    var k1 := BuildSubgroup(Some(prefix), Some(s1)).value;
    var k2 := BuildSubgroup(Some(prefix), Some(s2)).value;
    assert k1[|prefix| + 1..] == s1;
    assert k2[|prefix| + 1..] == s2;
  }

  /** A subgroup chosen without a subpath never collides with a subpath's
      slot when it contains no ':'. */
  lemma PlainSubgroupNeverNamespaced(prefix: string, plain: string, subgroup: Option<string>)
    requires prefix != "" && ':' !in plain
    ensures BuildSubgroup(None, Some(plain)) != BuildSubgroup(Some(prefix), subgroup)
  {
    var key := BuildSubgroup(Some(prefix), subgroup).value;
    assert key[|prefix|] == ':';
  }

  // ---------------------------------------------------------------------
  // Route templates: `:name` placeholders substituted from a parameter map.

  /** Characters a placeholder name is made of (`\w`). */
  predicate IsWordChar(c: char) {
    'a' <= c <= 'z' || 'A' <= c <= 'Z' || '0' <= c <= '9' || c == '_'
  }

  /** The length of the run of word characters at the start of `s`. */
  function WordPrefixLength(s: string): (n: nat)
    ensures n <= |s|
    ensures forall i :: 0 <= i < n ==> IsWordChar(s[i])
    ensures n < |s| ==> !IsWordChar(s[n])
    decreases |s|
  {
    if |s| > 0 && IsWordChar(s[0]) then 1 + WordPrefixLength(s[1..]) else 0
  }

  /** Fills every `:name` of `path` from `params` (scalar values, already
      rendered as strings). A placeholder without a value, or with the empty
      value, fails: the compiled route throws then, because a value must
      match the placeholder's default pattern `[^\/]+?`. A ':' not followed
      by a name is literal. */
  function Compile(path: string, params: map<string, string>): (r: Option<string>)
    ensures ':' !in path ==> r == Some(path)
    decreases |path|
  {
    if |path| == 0 then Some("")
    else if path[0] == ':' && WordPrefixLength(path[1..]) > 0 then
      var n := WordPrefixLength(path[1..]);
      var name := path[1..n + 1];
      if name !in params || params[name] == "" then None
      else match Compile(path[n + 1..], params)
        case None => None
        case Some(rest) => Some(params[name] + rest)
    else
      assert path == [path[0]] + path[1..];
      match Compile(path[1..], params)
      case None => None
      case Some(rest) => Some([path[0]] + rest)
  }

  /** A literal stretch with no ':' is copied through unchanged. */
  lemma {:induction false} CompileLiteralPrefix(pre: string, path: string, params: map<string, string>)
    requires ':' !in pre
    ensures Compile(pre + path, params) == (match Compile(path, params)
      case None => None
      case Some(rest) => Some(pre + rest))
    decreases |pre|
  {
    if |pre| == 0 {
      assert pre + path == path;
      match Compile(path, params) {
        case None =>
        case Some(rest) => assert pre + rest == rest;
      }
    } else {
      assert (pre + path)[0] == pre[0];
      assert (pre + path)[1..] == pre[1..] + path;
      CompileLiteralPrefix(pre[1..], path, params);
      match Compile(path, params) {
        case None =>
        case Some(rest) => assert [pre[0]] + (pre[1..] + rest) == pre + rest;
      }
    }
  }

  /** A route with one placeholder: the value replaces `:name` and the rest
      of the route is kept; without a value the route cannot be built. */
  lemma {:induction false} CompileOnePlaceholder(pre: string, name: string, post: string, params: map<string, string>)
    requires ':' !in pre && ':' !in post
    requires |name| > 0 && forall i :: 0 <= i < |name| ==> IsWordChar(name[i])
    requires |post| > 0 ==> !IsWordChar(post[0])
    ensures name in params && params[name] != "" ==>
      Compile(pre + ":" + name + post, params) == Some(pre + params[name] + post)
    ensures name !in params || params[name] == "" ==> Compile(pre + ":" + name + post, params) == None
  {
    var tail := ":" + name + post;
    CompileLiteralPrefix(pre, tail, params);
    assert pre + ":" + name + post == pre + tail;
    WordPrefixOfName(name, post);
    assert tail[0] == ':';
    assert tail[1..] == name + post;
    assert WordPrefixLength(tail[1..]) == |name|;
    assert tail[1..|name| + 1] == name;
    assert tail[|name| + 1..] == post;
    assert Compile(post, params) == Some(post);
    if name in params && params[name] != "" {
      assert Compile(tail, params) == Some(params[name] + post);
      assert pre + (params[name] + post) == pre + params[name] + post;
    }
  }

  lemma {:induction false} WordPrefixOfName(name: string, post: string)
    requires forall i :: 0 <= i < |name| ==> IsWordChar(name[i])
    requires |post| > 0 ==> !IsWordChar(post[0])
    ensures WordPrefixLength(name + post) == |name|
    decreases |name|
  {
    if |name| > 0 {
      assert (name + post)[1..] == name[1..] + post;
      WordPrefixOfName(name[1..], post);
    }
  }

  /** The placeholder names of a route, read the way `Compile` reads them. */
  function Placeholders(path: string): set<string>
    decreases |path|
  {
    if |path| == 0 then {}
    else if path[0] == ':' && WordPrefixLength(path[1..]) > 0 then
      var n := WordPrefixLength(path[1..]);
      {path[1..n + 1]} + Placeholders(path[n + 1..])
    else Placeholders(path[1..])
  }

  /** Every placeholder of the route has a non-empty value. */
  predicate Filled(path: string, params: map<string, string>) {
    forall name :: name in Placeholders(path) ==> name in params && params[name] != ""
  }

  /** A route can be built exactly when every placeholder has a non-empty value. */
  lemma {:induction false} CompileDefinedIff(path: string, params: map<string, string>)
    ensures Compile(path, params).Some? <==> Filled(path, params)
    decreases |path|
  {
    if |path| == 0 {
    } else if path[0] == ':' && WordPrefixLength(path[1..]) > 0 {
      var n := WordPrefixLength(path[1..]);
      CompileDefinedIff(path[n + 1..], params);
      assert Placeholders(path) == {path[1..n + 1]} + Placeholders(path[n + 1..]);
    } else {
      CompileDefinedIff(path[1..], params);
      assert Placeholders(path) == Placeholders(path[1..]);
    }
  }

  /** One placeholder step: `:name` followed by a non-word character (or the
      end) takes the value of `name`, and the rest of the route is compiled
      after it; the placeholder joins the rest's placeholders. */
  lemma {:induction false} CompilePlaceholderStep(name: string, rest: string, params: map<string, string>)
    requires |name| > 0 && forall i :: 0 <= i < |name| ==> IsWordChar(name[i])
    requires |rest| > 0 ==> !IsWordChar(rest[0])
    ensures Compile(":" + name + rest, params) ==
      (if name !in params || params[name] == "" then None
       else match Compile(rest, params)
         case None => None
         case Some(r) => Some(params[name] + r))
    ensures Placeholders(":" + name + rest) == {name} + Placeholders(rest)
  {
    var path := ":" + name + rest;
    WordPrefixOfName(name, rest);
    assert path[1..] == name + rest;
    assert path[1..|name| + 1] == name;
    assert path[|name| + 1..] == rest;
  }

  /** A literal stretch in front of a route that compiles. */
  lemma LiteralThen(pre: string, rest: string, r: string, params: map<string, string>)
    requires ':' !in pre && Compile(rest, params) == Some(r)
    ensures Compile(pre + rest, params) == Some(pre + r)
  {
    CompileLiteralPrefix(pre, rest, params);
  }

  /** A filled placeholder in front of a route that compiles. */
  lemma PlaceholderThen(name: string, rest: string, r: string, params: map<string, string>)
    requires |name| > 0 && forall i :: 0 <= i < |name| ==> IsWordChar(name[i])
    requires |rest| > 0 ==> !IsWordChar(rest[0])
    requires name in params && params[name] != "" && Compile(rest, params) == Some(r)
    ensures Compile(":" + name + rest, params) == Some(params[name] + r)
  {
    CompilePlaceholderStep(name, rest, params);
  }

  /** The two-placeholder route, in the nesting the compiler reads it. */
  lemma {:induction false} CompileTwoNested(pre: string, n1: string, mid: string, n2: string, post: string,
                                            params: map<string, string>)
    requires ':' !in pre && ':' !in mid && ':' !in post
    requires |n1| > 0 && forall i :: 0 <= i < |n1| ==> IsWordChar(n1[i])
    requires |n2| > 0 && forall i :: 0 <= i < |n2| ==> IsWordChar(n2[i])
    requires |mid| > 0 && !IsWordChar(mid[0])
    requires |post| > 0 ==> !IsWordChar(post[0])
    requires n1 in params && params[n1] != "" && n2 in params && params[n2] != ""
    ensures Compile(pre + (":" + n1 + (mid + (":" + n2 + post))), params)
      == Some(pre + (params[n1] + (mid + (params[n2] + post))))
  {
    var v1, v2 := params[n1], params[n2];
    var second := ":" + n2 + post;
    var afterFirst := mid + second;
    PlaceholderThen(n2, post, post, params);
    LiteralThen(mid, second, v2 + post, params);
    assert afterFirst[0] == mid[0];
    PlaceholderThen(n1, afterFirst, mid + (v2 + post), params);
    LiteralThen(pre, ":" + n1 + afterFirst, v1 + (mid + (v2 + post)), params);
  }

  /** A route with two placeholders, such as `projects/:project/tasks/:task`,
      has both values substituted in place. */
  lemma {:induction false} CompileTwoPlaceholders(pre: string, n1: string, mid: string, n2: string, post: string,
                                                  params: map<string, string>)
    requires ':' !in pre && ':' !in mid && ':' !in post
    requires |n1| > 0 && forall i :: 0 <= i < |n1| ==> IsWordChar(n1[i])
    requires |n2| > 0 && forall i :: 0 <= i < |n2| ==> IsWordChar(n2[i])
    requires |mid| > 0 && !IsWordChar(mid[0])
    requires |post| > 0 ==> !IsWordChar(post[0])
    requires n1 in params && params[n1] != "" && n2 in params && params[n2] != ""
    ensures Compile(pre + ":" + n1 + mid + ":" + n2 + post, params)
      == Some(pre + params[n1] + mid + params[n2] + post)
  {
    CompileTwoNested(pre, n1, mid, n2, post, params);
    assert pre + ":" + n1 + mid + ":" + n2 + post == pre + (":" + n1 + (mid + (":" + n2 + post)));
    assert pre + params[n1] + mid + params[n2] + post == pre + (params[n1] + (mid + (params[n2] + post)));
  }
}
