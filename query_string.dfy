/**
 * The URL query string as the client's `useSearchParams()` reads it: the text
 * between the first `?` and the fragment (the first `#`), split on `&` into
 * pieces, empty pieces skipped, each piece split at its first `=` into a name
 * and a value; `get(name)` answers the value of the first pair with that
 * name, or `null`. Percent-decoding, `+` as a space and the URL parser's
 * removal of tab, line feed and carriage return are not modelled.
 */
module QueryString {
  import opened Common

  datatype Param = Param(name: string, value: string)

  /** The text before and after the first `c` in `s`; `None` when `c` does not occur. */
  function SplitFirst(s: string, c: char): (r: Option<(string, string)>)
    ensures r.None? <==> c !in s
    ensures r.Some? ==> s == r.value.0 + [c] + r.value.1 && c !in r.value.0
    decreases |s|
  {
    if |s| == 0 then None
    else if s[0] == c then Some(([], s[1..]))
    else
      match SplitFirst(s[1..], c)
      case None => None
      case Some((before, after)) => Some(([s[0]] + before, after))
  }

  /** Splitting at the first `c` undoes joining with `c` after a `c`-free prefix. */
  lemma {:induction false} SplitFirstJoin(a: string, c: char, b: string)
    requires c !in a
    ensures SplitFirst(a + [c] + b, c) == Some((a, b))
  {
    var s := a + [c] + b;
    var r := SplitFirst(s, c);
    var x := r.value.0;
    assert s[|a|] == c && s[|x|] == c;
    assert |x| == |a|;
    assert x == s[..|a|] == a;
    assert r.value.1 == s[|a| + 1..] == b;
  }

  /** A URL without its fragment: the text before its first `#`. */
  function BeforeFragment(url: string): (r: string)
    ensures '#' !in r
    ensures '#' !in url ==> r == url
  {
    match SplitFirst(url, '#')
    case None => url
    case Some((before, _)) => before
  }

  /** The query part of a URL: the text between its first `?` and its fragment, or nothing. */
  function SearchOf(url: string): string {
    match SplitFirst(BeforeFragment(url), '?')
    case None => ""
    case Some((_, query)) => query
  }

  /** The path part of a URL: the text before its first `?` and before its fragment. */
  function PathOf(url: string): string {
    match SplitFirst(BeforeFragment(url), '?')
    case None => BeforeFragment(url)
    case Some((path, _)) => path
  }

  /** A query split on every `&`. */
  function Pieces(query: string): (ps: seq<string>)
    ensures |ps| >= 1
    decreases |query|
  {
    match SplitFirst(query, '&')
    case None => [query]
    case Some((piece, rest)) => [piece] + Pieces(rest)
  }

  /** One `name=value` piece; a piece without `=` is a name with an empty value. */
  function ParsePair(piece: string): Param {
    match SplitFirst(piece, '=')
    case None => Param(piece, "")
    case Some((name, value)) => Param(name, value)
  }

  function ParsePieces(ps: seq<string>): seq<Param> {
    if |ps| == 0 then []
    else if ps[0] == "" then ParsePieces(ps[1..])
    else [ParsePair(ps[0])] + ParsePieces(ps[1..])
  }

  /** The parameters of a query string, in order. */
  function Parse(query: string): seq<Param> {
    ParsePieces(Pieces(query))
  }

  /** The parameters of a URL. */
  function ParamsOf(url: string): seq<Param> {
    Parse(SearchOf(url))
  }

  /** `searchParams.get(name)`: the value of the first pair named `name`. */
  function Get(params: seq<Param>, name: string): (r: Option<string>)
    ensures r.None? <==> forall i :: 0 <= i < |params| ==> params[i].name != name
    ensures r.Some? ==> exists i :: 0 <= i < |params| && params[i] == Param(name, r.value) &&
                                    forall j :: 0 <= j < i ==> params[j].name != name
  {
    if |params| == 0 then None
    else if params[0].name == name then Some(params[0].value)
    else
      var r := Get(params[1..], name);
      if r.Some? then
        var i :| 0 <= i < |params| - 1 && params[1..][i] == Param(name, r.value) &&
                 forall j :: 0 <= j < i ==> params[1..][j].name != name;
        assert params[i + 1] == Param(name, r.value);
        r
      else r
  }

  /** A JavaScript template's `${x}` for a string or `null`. */
  function Interpolate(x: Option<string>): (t: string)
    ensures x.None? ==> t == "null"
  {
    match x
    case None => "null"
    case Some(s) => s
  }

  /** Any `showSignUp` parameter, whatever its value (`false` included), marks a page of the checkout flow. */
  predicate IsCheckoutPage(params: seq<Param>): (b: bool)
    ensures b <==> exists i :: 0 <= i < |params| && params[i].name == "showSignUp"
  {
    Get(params, "showSignUp").Some?
  }

  /** The course id as the URL templates print it (`null` when absent). */
  function CourseIdText(params: seq<Param>): (r: string)
    ensures (forall i :: 0 <= i < |params| ==> params[i].name != "id") ==> r == "null"
    ensures forall i :: (0 <= i < |params| && params[i].name == "id" && forall j :: 0 <= j < i ==> params[j].name != "id")
                          ==> r == params[i].value
  {
    Interpolate(Get(params, "id"))
  }

  /** A `&`-free piece followed by `&` and the rest splits into that piece and the rest's pieces. */
  lemma {:induction false} PiecesCons(a: string, rest: string)
    requires '&' !in a
    ensures Pieces(a + "&" + rest) == [a] + Pieces(rest)
  {
    assert a + "&" + rest == a + ['&'] + rest;
    SplitFirstJoin(a, '&', rest);
  }

  /** A query without `&` is one piece. */
  lemma {:induction false} PiecesSingle(c: string)
    requires '&' !in c
    ensures Pieces(c) == [c]
  {
  }

  /** Pieces with no `&` in them come back out of the query they are joined into. */
  lemma {:induction false} PiecesOfThree(a: string, b: string, c: string)
    requires '&' !in a && '&' !in b && '&' !in c
    ensures Pieces(a + "&" + b + "&" + c) == [a, b, c]
  {
    var rest := b + "&" + c;
    assert a + "&" + b + "&" + c == a + "&" + rest;
    PiecesCons(a, rest);
    PiecesCons(b, c);
    PiecesSingle(c);
    assert [a] + ([b] + [c]) == [a, b, c];
  }

  /** A character missing from three strings is missing from their concatenation. */
  lemma {:induction false} NotInJoin(a: string, sep: string, b: string, c: char)
    requires c !in a && c !in sep && c !in b
    ensures c !in a + sep + b
  {
    var p := a + sep + b;
    forall i | 0 <= i < |p| ensures p[i] != c {
      if i < |a| { assert p[i] == a[i]; }
      else if i < |a| + |sep| { assert p[i] == sep[i - |a|]; }
      else { assert p[i] == b[i - |a| - |sep|]; }
    }
  }

  lemma {:induction false} ParsePairJoin(name: string, value: string)
    requires '=' !in name
    ensures ParsePair(name + "=" + value) == Param(name, value)
  {
    assert name + "=" + value == name + ['='] + value;
    SplitFirstJoin(name, '=', value);
  }

  /** The parameters of three non-empty `&`-free pieces, each with an `=`-free name. */
  lemma {:induction false} ParseThree(n1: string, v1: string, n2: string, v2: string, n3: string, v3: string)
    requires n1 != "" && n2 != "" && n3 != ""
    requires '=' !in n1 && '=' !in n2 && '=' !in n3
    requires '&' !in n1 && '&' !in n2 && '&' !in n3
    requires '&' !in v1 && '&' !in v2 && '&' !in v3
    ensures Parse(n1 + "=" + v1 + "&" + n2 + "=" + v2 + "&" + n3 + "=" + v3)
         == [Param(n1, v1), Param(n2, v2), Param(n3, v3)]
  {
    var p1, p2, p3 := n1 + "=" + v1, n2 + "=" + v2, n3 + "=" + v3;
    NotInJoin(n1, "=", v1, '&');
    NotInJoin(n2, "=", v2, '&');
    NotInJoin(n3, "=", v3, '&');
    assert n1 + "=" + v1 + "&" + n2 + "=" + v2 + "&" + n3 + "=" + v3 == p1 + "&" + p2 + "&" + p3;
    PiecesOfThree(p1, p2, p3);
    ParsePairJoin(n1, v1);
    ParsePairJoin(n2, v2);
    ParsePairJoin(n3, v3);
    assert p1 != "" && p2 != "" && p3 != "";
    assert [p1, p2, p3][1..] == [p2, p3];
    assert [p2, p3][1..] == [p3];
    assert [p3][1..] == [];
    calc {
      ParsePieces([p1, p2, p3]);
      [ParsePair(p1)] + ParsePieces([p2, p3]);
      [ParsePair(p1)] + ([ParsePair(p2)] + ParsePieces([p3]));
      [ParsePair(p1)] + ([ParsePair(p2)] + ([ParsePair(p3)] + ParsePieces([])));
    }
  }

  /**
   * A URL `path?rest` whose path has no `?` or `#` has that path, and its
   * query is `rest` up to the fragment.
   */
  lemma {:induction false} UrlParts(path: string, rest: string)
    requires '?' !in path && '#' !in path
    ensures PathOf(path + "?" + rest) == path
    ensures SearchOf(path + "?" + rest) == BeforeFragment(rest)
  {
    var url := path + "?" + rest;
    match SplitFirst(rest, '#')
    case None =>
      NotInJoin(path, "?", rest, '#');
      assert url == path + ['?'] + rest;
      SplitFirstJoin(path, '?', rest);
    case Some((query, fragment)) =>
      NotInJoin(path, "?", query, '#');
      assert url == (path + "?" + query) + ['#'] + fragment;
      SplitFirstJoin(path + "?" + query, '#', fragment);
      assert path + "?" + query == path + ['?'] + query;
      SplitFirstJoin(path, '?', query);
  }

  /** A fragment after the query is not part of it: the reader stops at the first `#`. */
  lemma {:induction false} FragmentEndsQuery(path: string, query: string, fragment: string)
    requires '?' !in path && '#' !in path && '#' !in query
    ensures PathOf(path + "?" + query + "#" + fragment) == path
    ensures SearchOf(path + "?" + query + "#" + fragment) == query
  {
    assert path + "?" + query + "#" + fragment == path + "?" + (query + "#" + fragment);
    UrlParts(path, query + "#" + fragment);
    assert query + "#" + fragment == query + ['#'] + fragment;
    SplitFirstJoin(query, '#', fragment);
  }

  /**
   * Text a URL template can carry as a parameter value and read back as it
   * was: no `&` (which would end the parameter), no `#` (which would start
   * the fragment), no `+` or `%` (which the browser's reader decodes), and no
   * tab, line feed or carriage return (which the browser's URL parser strips).
   */
  predicate QuerySafe(s: string) {
    '&' !in s && '#' !in s && '+' !in s && '%' !in s && '\t' !in s && '\n' !in s && '\r' !in s
  }

  /** The step numbers and flags the sign-in and sign-up pages put into checkout URLs are query-safe. */
  lemma StepsAndFlagsQuerySafe()
    ensures QuerySafe("1") && QuerySafe("2") && QuerySafe("true") && QuerySafe("false")
  {
  }

  /** The checkout page's URL template `/checkout?step=${step}&id=${id}&showSignUp=${flag}`. */
  function CheckoutUrl(step: string, id: string, flag: string): (r: string)
    ensures PathOf(r) == "/checkout"
  {
    var query := "step" + "=" + step + "&" + "id" + "=" + id + "&" + "showSignUp" + "=" + flag;
    CheckoutNames();
    UrlParts("/checkout", query);
    "/checkout" + "?" + query
  }

  /**
   * A checkout URL whose parts are query-safe reads back with exactly the
   * three parameters it was built from.
   */
  lemma {:induction false} CheckoutUrlRoundTrip(step: string, id: string, flag: string)
    requires QuerySafe(step) && QuerySafe(id) && QuerySafe(flag)
    ensures ParamsOf(CheckoutUrl(step, id, flag)) == [Param("step", step), Param("id", id), Param("showSignUp", flag)]
  {
    var query := "step" + "=" + step + "&" + "id" + "=" + id + "&" + "showSignUp" + "=" + flag;
    CheckoutNames();
    CheckoutQueryHasNoFragment(step, id, flag);
    UrlParts("/checkout", query);
    ParseThree("step", step, "id", id, "showSignUp", flag);
  }

  /** The query of the checkout template has no `#` when its parts have none. */
  lemma {:induction false} CheckoutQueryHasNoFragment(step: string, id: string, flag: string)
    requires '#' !in step && '#' !in id && '#' !in flag
    ensures '#' !in "step" + "=" + step + "&" + "id" + "=" + id + "&" + "showSignUp" + "=" + flag
  {
    var p1, p2, p3 := "step" + "=" + step, "id" + "=" + id, "showSignUp" + "=" + flag;
    CheckoutNames();
    NotInJoin("step", "=", step, '#');
    NotInJoin("id", "=", id, '#');
    NotInJoin("showSignUp", "=", flag, '#');
    NotInJoin(p1, "&", p2, '#');
    NotInJoin(p1 + "&" + p2, "&", p3, '#');
    assert p1 + "&" + p2 + "&" + p3 == "step" + "=" + step + "&" + "id" + "=" + id + "&" + "showSignUp" + "=" + flag;
  }

  /** The checkout path has no `?` or `#`; the three parameter names are non-empty and free of `=`, `&` and `#`. */
  lemma CheckoutNames()
    ensures '?' !in "/checkout" && '#' !in "/checkout" && '#' !in "=" && '#' !in "&"
    ensures "step" != "" && '=' !in "step" && '&' !in "step" && '#' !in "step"
    ensures "id" != "" && '=' !in "id" && '&' !in "id" && '#' !in "id"
    ensures "showSignUp" != "" && '=' !in "showSignUp" && '&' !in "showSignUp" && '#' !in "showSignUp"
  {
  }
}
