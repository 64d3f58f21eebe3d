/**
 * The step-string parser of Planning/planning.py: `re.search` of the pattern
 * `(\w+)\((?:'|")(.*?)(?:'|")\)` on one plan step, with the fallback to a plain
 * web search of the whole step. A match starts at the leftmost position where
 * one exists; the name is the whole word run there, and the query is the
 * shortest text, on one line, up to a quote that is followed by `)`.
 */
module StepParser {
  import opened Wrappers

  /** The tool used when a step does not look like a call. */
  const WebSearch: string := "web_search"

  /** `\w` on ASCII text: a letter, a digit or the underscore. */
  predicate IsWordChar(c: char) {
    ('a' <= c <= 'z') || ('A' <= c <= 'Z') || ('0' <= c <= '9') || c == '_'
  }

  /** `(?:'|")` */
  predicate IsQuote(c: char) {
    c == '\'' || c == '"'
  }

  /** A quote at `k` followed by `)`. */
  predicate IsCloseAt(s: string, k: int) {
    0 <= k && k + 1 < |s| && IsQuote(s[k]) && s[k + 1] == ')'
  }

  /** No newline in `s[a..b]`, which `.` could therefore span. */
  predicate OneLine(s: string, a: int, b: int)
    requires 0 <= a && b <= |s|
  {
    forall m :: a <= m < b ==> s[m] != '\n'
  }

  /**
   * The pattern matches `s[i..k + 2]`, with the name `s[i..j]` and the query
   * `s[j + 2..k]`: one of the ways the regular expression can match at `i`.
   */
  predicate MatchSpan(s: string, i: int, j: int, k: int) {
    && 0 <= i < j && j + 2 <= k && k + 1 < |s|
    && (forall m :: i <= m < j ==> IsWordChar(s[m]))
    && s[j] == '(' && IsQuote(s[j + 1])
    && OneLine(s, j + 2, k)
    && IsCloseAt(s, k)
  }

  /**
   * The match `re.search` reports: the leftmost start at which the pattern
   * matches, and there the shortest query.
   */
  ghost predicate Leftmost(s: string, i: int, j: int, k: int) {
    && MatchSpan(s, i, j, k)
    && (forall i', j', k' :: 0 <= i' < i ==> !MatchSpan(s, i', j', k'))
    && (forall j', k' :: MatchSpan(s, i, j', k') ==> k <= k')
  }

  /** The end of the word run that starts at `i` (greedy `\w+` stops there). */
  function WordEnd(s: string, i: nat): (r: nat)
    requires i <= |s|
    ensures i <= r <= |s|
    ensures forall m :: i <= m < r ==> IsWordChar(s[m])
    ensures r == |s| || !IsWordChar(s[r])
    decreases |s| - i
  {
    if i < |s| && IsWordChar(s[i]) then WordEnd(s, i + 1) else i
  }

  /**
   * The lazy `(.*?)` followed by the closing quote and `)`: the first close at
   * or after `p`, unless a newline comes first.
   */
  function CloseFrom(s: string, p: nat): (r: Option<nat>)
    requires p <= |s|
    ensures r.Some? ==>
      p <= r.value && IsCloseAt(s, r.value) && OneLine(s, p, r.value) &&
      forall m :: p <= m < r.value ==> !IsCloseAt(s, m)
    ensures r.None? ==> forall k :: p <= k && IsCloseAt(s, k) ==> !OneLine(s, p, k)
    decreases |s| - p
  {
    if p + 1 >= |s| then None
    else if IsQuote(s[p]) && s[p + 1] == ')' then Some(p)
    else if s[p] == '\n' then None
    else CloseFrom(s, p + 1)
  }

  /** The match at start `i`, as the name end `j` and the close position `k`, if there is one. */
  function MatchAt(s: string, i: nat): (r: Option<(nat, nat)>)
    requires i <= |s|
    ensures r.Some? ==> MatchSpan(s, i, r.value.0, r.value.1)
    ensures r.Some? ==> forall j', k' :: MatchSpan(s, i, j', k') ==> j' == r.value.0 && r.value.1 <= k'
    ensures r.None? ==> forall j', k' :: !MatchSpan(s, i, j', k')
  {
    var j := WordEnd(s, i);
    if j == i || j + 2 > |s| || s[j] != '(' || !IsQuote(s[j + 1]) then
      NoMatchAt(s, i, j);
      None
    else
      match CloseFrom(s, j + 2)
      case None =>
        NoMatchAt(s, i, j);
        None
      case Some(k) =>
        NameIsWordRun(s, i, j);
        Some((j, k))
  }

  /** Every match at `i` names the whole word run that starts at `i`. */
  lemma NameIsWordRun(s: string, i: nat, j: nat)
    requires i <= |s| && j == WordEnd(s, i)
    ensures forall j', k' :: MatchSpan(s, i, j', k') ==> j' == j
  {
    forall j', k' | MatchSpan(s, i, j', k')
      ensures j' == j
    {
      assert !IsWordChar(s[j']);
    }
  }

  /** When the word run at `i` is not followed by an opening call with a closed query, nothing matches at `i`. */
  lemma NoMatchAt(s: string, i: nat, j: nat)
    requires i <= |s| && j == WordEnd(s, i)
    requires j == i || j + 2 > |s| || s[j] != '(' || !IsQuote(s[j + 1]) || CloseFrom(s, j + 2).None?
    ensures forall j', k' :: !MatchSpan(s, i, j', k')
  {
    NameIsWordRun(s, i, j);
  }

  /** `re.search` from position `i` on: the leftmost start at or after `i` that matches. */
  function SearchFrom(s: string, i: nat): (r: Option<(nat, nat, nat)>)
    requires i <= |s|
    ensures r.Some? ==>
      var (a, j, k) := r.value;
      i <= a && MatchSpan(s, a, j, k) &&
      (forall a', j', k' :: i <= a' < a ==> !MatchSpan(s, a', j', k')) &&
      (forall j', k' :: MatchSpan(s, a, j', k') ==> k <= k')
    ensures r.None? ==> forall a', j', k' :: i <= a' ==> !MatchSpan(s, a', j', k')
    decreases |s| - i
  {
    if i == |s| then None
    else
      match MatchAt(s, i)
      case Some((j, k)) => Some((i, j, k))
      case None => SearchFrom(s, i + 1)
  }

  /**
   * The executor's parse of one plan step into `(tool_name, query)`: the two
   * groups of the reported match, or the web-search tool and the whole step.
   */
  function ParseStep(step: string): (r: (string, string))
    ensures (forall i, j, k :: !MatchSpan(step, i, j, k)) ==> r == (WebSearch, step)
    ensures forall i, j, k :: Leftmost(step, i, j, k) ==> r == (step[i..j], step[j + 2..k])
    ensures (exists i, j, k :: MatchSpan(step, i, j, k)) ==>
      exists i, j, k :: Leftmost(step, i, j, k) && r == (step[i..j], step[j + 2..k])
  {
    match SearchFrom(step, 0)
    case None => (WebSearch, step)
    case Some((i, j, k)) =>
      LeftmostUnique(step, i, j, k);
      (step[i..j], step[j + 2..k])
  }

  /** There is only one reported match. */
  lemma LeftmostUnique(s: string, i: int, j: int, k: int)
    requires Leftmost(s, i, j, k)
    ensures forall i', j', k' :: Leftmost(s, i', j', k') ==> i' == i && j' == j && k' == k
  {
    forall i', j', k' | Leftmost(s, i', j', k')
      ensures i' == i && j' == j && k' == k
    {
      assert !(i' < i) && !(i < i');
      NameIsWordRun(s, i, WordEnd(s, i));
    }
  }

  /**
   * A step that starts with a call: a word-character name, `(`, any quote, a
   * one-line query with no quote-then-`)` inside, any quote and `)`. Whatever
   * follows, the parse gives back the name and the query; the two quote
   * characters need not be the same.
   */
  lemma CallPrefix(name: string, open: char, query: string, close: char, rest: string)
    requires name != [] && forall m :: 0 <= m < |name| ==> IsWordChar(name[m])
    requires IsQuote(open) && IsQuote(close)
    requires forall m :: 0 <= m < |query| ==> query[m] != '\n'
    requires forall m :: 0 <= m < |query| - 1 ==> !(IsQuote(query[m]) && query[m + 1] == ')')
    ensures ParseStep(name + ['(', open] + query + [close, ')'] + rest) == (name, query)
  {
    var s := name + ['(', open] + query + [close, ')'] + rest;
    var j := |name|;
    var k := j + 2 + |query|;
    assert s[..j] == name && s[j + 2..k] == query;
    assert MatchSpan(s, 0, j, k);
    forall j', k' | MatchSpan(s, 0, j', k')
      ensures k <= k'
    {
      NameIsWordRun(s, 0, WordEnd(s, 0));
    }
    assert Leftmost(s, 0, j, k);
  }

  /**
   * Round trip with the planner's step format: `name('query')` parses back to
   * the name and the query.
   */
  lemma RoundTrip(name: string, query: string)
    requires name != [] && forall m :: 0 <= m < |name| ==> IsWordChar(name[m])
    requires forall m :: 0 <= m < |query| ==> query[m] != '\n'
    requires forall m :: 0 <= m < |query| - 1 ==> !(IsQuote(query[m]) && query[m + 1] == ')')
    ensures ParseStep(name + "('" + query + "')") == (name, query)
  {
    CallPrefix(name, '\'', query, '\'', []);
    assert name + ['(', '\''] + query + ['\'', ')'] + [] == name + "('" + query + "')";
  }

  /** A step with no opening parenthesis is searched for as it stands. */
  lemma NoCallFallsBack(step: string)
    requires forall m :: 0 <= m < |step| ==> step[m] != '('
    ensures ParseStep(step) == (WebSearch, step)
  {
  }
}
