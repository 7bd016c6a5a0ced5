/** The suggestion part of OpenAIClient: a per-context cache in front of the chat
    completion request, and the post-processing that maps the model's answer onto
    one of the known project names. The HTTP request and the JSON parsing are
    abstracted into a Reply: either the request failed (non-success status or any
    exception), or it returned the content of each choice (None for a null
    content). */
module AIClient {
  import opened Common

  datatype Reply = RequestFailed | Choices(contents: seq<Option<string>>)

  /** The cache key: application name, window title and the project names joined
      by ",", separated by "|". */
  function CacheKey(windowTitle: string, applicationName: string, projectNames: seq<string>): (k: string)
    ensures |k| == |applicationName| + |windowTitle| + |Join(",", projectNames)| + 2
    ensures k[..|applicationName|] == applicationName && k[|applicationName|] == '|'
  {
    applicationName + "|" + windowTitle + "|" + Join(",", projectNames)
  }

  predicate NoBar(s: string)
  {
    forall i :: 0 <= i < |s| ==> s[i] != '|'
  }

  /** Splits a string at its first "|": the part before it and the part after. */
  function SplitAtBar(s: string): (string, string)
  {
    if s == [] then ([], [])
    else if s[0] == '|' then ([], s[1..])
    else var (before, after) := SplitAtBar(s[1..]); ([s[0]] + before, after)
  }

  /** Splitting undoes joining with "|" when the first part has no "|". */
  lemma {:induction false} SplitAtBarInverse(a: string, rest: string)
    requires NoBar(a)
    ensures SplitAtBar(a + "|" + rest) == (a, rest)
  {
    if a != [] {
      assert (a + "|" + rest)[1..] == a[1..] + "|" + rest;
      SplitAtBarInverse(a[1..], rest);
      assert [a[0]] + a[1..] == a;
    } else {
      assert a + "|" + rest == "|" + rest;
    }
  }

  /** When neither the application name nor the window title contains "|", the
      key identifies the context: equal keys mean equal application, title and
      joined project list. */
  lemma {:induction false} CacheKeyInjective(t1: string, a1: string, p1: seq<string>,
                                             t2: string, a2: string, p2: seq<string>)
    requires NoBar(a1) && NoBar(a2) && NoBar(t1) && NoBar(t2)
    requires CacheKey(t1, a1, p1) == CacheKey(t2, a2, p2)
    ensures a1 == a2 && t1 == t2 && Join(",", p1) == Join(",", p2)
  {
    var k := CacheKey(t1, a1, p1);
    assert k == a1 + "|" + (t1 + "|" + Join(",", p1));
    assert k == a2 + "|" + (t2 + "|" + Join(",", p2));
    SplitAtBarInverse(a1, t1 + "|" + Join(",", p1));
    SplitAtBarInverse(a2, t2 + "|" + Join(",", p2));
    SplitAtBarInverse(t1, Join(",", p1));
    SplitAtBarInverse(t2, Join(",", p2));
  }

  /** Without that condition two contexts can share a key. */
  lemma CacheKeyCollision()
    ensures CacheKey("c", "a|b", []) == CacheKey("b|c", "a", [])
  {
  }

  // ---------------------------------------------------------------------------

  /** The index of the first project name the text contains, ignoring case. */
  function FirstContained(text: string, names: seq<string>): (r: Option<nat>)
    ensures r.Some? ==> r.value < |names| && ContainsIgnoreCase(text, names[r.value])
    ensures r.Some? ==> forall j :: 0 <= j < r.value ==> !ContainsIgnoreCase(text, names[j])
    ensures r.None? ==> forall j :: 0 <= j < |names| ==> !ContainsIgnoreCase(text, names[j])
  {
    if |names| == 0 then None
    else if ContainsIgnoreCase(text, names[0]) then Some(0)
    else match FirstContained(text, names[1..])
      case None => None
      case Some(k) => Some(k + 1)
  }

  /** The post-processed suggestion: the trimmed content, replaced by the first
      project name (in list order) it contains ignoring case. */
  function Normalise(content: string, names: seq<string>): string
  {
    var text := Trim(content);
    match FirstContained(text, names)
    case None => text
    case Some(i) => names[i]
  }

  /** The first name the loop finds contained is the one FirstContained picks. */
  lemma {:induction false} FirstContainedAt(text: string, names: seq<string>, i: nat)
    requires i <= |names|
    requires forall j :: 0 <= j < i ==> !ContainsIgnoreCase(text, names[j])
    requires i < |names| ==> ContainsIgnoreCase(text, names[i])
    ensures FirstContained(text, names) == if i < |names| then Some(i) else None
  {
    if i > 0 {
      assert !ContainsIgnoreCase(text, names[0]);
      assert forall j :: 0 <= j < i - 1 ==> names[1..][j] == names[j + 1];
      FirstContainedAt(text, names[1..], i - 1);
    }
  }

  /** The foreach loop that rewrites the suggestion, with its early break. */
  method NormaliseSuggestion(content: string, names: seq<string>) returns (suggestion: string)
    ensures suggestion == Normalise(content, names)
    ensures suggestion == Trim(content) || suggestion in names
  {
    suggestion := Trim(content);
    var i := 0;
    while i < |names|
      invariant 0 <= i <= |names|
      invariant suggestion == Trim(content)
      invariant forall j :: 0 <= j < i ==> !ContainsIgnoreCase(suggestion, names[j])
    {
      if ContainsIgnoreCase(suggestion, names[i]) {
        FirstContainedAt(suggestion, names, i);
        suggestion := names[i];
        return;
      }
      i := i + 1;
    }
    FirstContainedAt(suggestion, names, i);
  }

  lemma {:induction false} SubstringTransitive(x: string, y: string, z: string)
    requires IsSubstring(x, y) && IsSubstring(y, z)
    ensures IsSubstring(x, z)
  {
    var i :| 0 <= i <= |y| - |x| && OccursAt(x, y, i);
    var j :| 0 <= j <= |z| - |y| && OccursAt(y, z, j);
    assert y == z[j..j + |y|] && x == y[i..i + |x|];
    assert forall k :: 0 <= k < |x| ==> x[k] == y[i + k] == z[j + i + k];
    assert z[j + i..j + i + |x|] == x;
    assert OccursAt(x, z, j + i);
  }

  /** A name chosen for some text is chosen again for itself: an earlier name
      contained in it would have been contained in the text. */
  lemma {:induction false} ChosenNameChosenAgain(text: string, names: seq<string>, i: nat)
    requires FirstContained(text, names) == Some(i)
    ensures FirstContained(names[i], names) == Some(i)
  {
    var n := names[i];
    EqualImpliesContains(n, n);
    forall j | 0 <= j < i ensures !ContainsIgnoreCase(n, names[j]) {
      if ContainsIgnoreCase(n, names[j]) {
        SubstringTransitive(FoldUpper(names[j]), FoldUpper(n), FoldUpper(text));
      }
    }
  }

  /** Post-processing an already processed suggestion changes nothing, provided
      the project names carry no surrounding white space. */
  lemma {:induction false} NormaliseIdempotent(content: string, names: seq<string>)
    requires forall n :: n in names ==> Trim(n) == n
    ensures Normalise(Normalise(content, names), names) == Normalise(content, names)
  {
    var text := Trim(content);
    TrimmedEnds(content);
    match FirstContained(text, names)
    case None =>
      assert Normalise(content, names) == text;
    case Some(i) =>
      ChosenNameChosenAgain(text, names, i);
      assert Normalise(content, names) == names[i];
      assert Trim(names[i]) == names[i];
  }

  /** What a request yields: null unless it succeeded with at least one choice
      whose content is not null; otherwise the post-processed content. */
  function Answer(reply: Reply, names: seq<string>): (r: Option<string>)
    ensures r.Some? <==> reply.Choices? && |reply.contents| > 0 && reply.contents[0].Some?
  {
    match reply
    case RequestFailed => None
    case Choices(contents) =>
      if |contents| == 0 || contents[0].None? then None
      else Some(Normalise(contents[0].value, names))
  }

  class OpenAIClient {
    /** _suggestionCache */
    var cache: map<string, string>

    /** Only non-empty suggestions are ever stored. */
    ghost predicate Valid()
      reads this
    {
      forall k :: k in cache ==> cache[k] != ""
    }

    constructor ()
      ensures Valid() && cache == map[]
    {
      cache := map[];
    }

    /** GetProjectSuggestionAsync. A cached context is answered from the cache
        without a request; otherwise the reply is post-processed, a non-empty
        result is stored under the context's key, and the result is returned. */
    method GetProjectSuggestion(windowTitle: string, applicationName: string,
                                projectNames: seq<string>, reply: Reply)
      returns (r: Option<string>, requested: bool)
      requires Valid()
      modifies this
      ensures Valid()
      ensures var key := CacheKey(windowTitle, applicationName, projectNames);
        (key in old(cache) ==> r == Some(old(cache)[key]) && !requested && cache == old(cache)) &&
        (key !in old(cache) ==> (requested && r == Answer(reply, projectNames) &&
          cache == if r.Some? && r.value != "" then old(cache)[key := r.value] else old(cache)))
      ensures r.Some? && r.value != "" ==>
        cache[CacheKey(windowTitle, applicationName, projectNames)] == r.value
    {
      var key := CacheKey(windowTitle, applicationName, projectNames);
      if key in cache {
        return Some(cache[key]), false;
      }
      requested := true;
      r := None;
      if reply.Choices? && |reply.contents| > 0 {
        var content := reply.contents[0];
        if content.Some? {
          var suggestion := NormaliseSuggestion(content.value, projectNames);
          if suggestion != "" {
            cache := cache[key := suggestion];
          }
          r := Some(suggestion);
        }
      }
    }

    method ClearCache()
      modifies this
      ensures Valid() && cache == map[]
    {
      cache := map[];
    }
  }
}
