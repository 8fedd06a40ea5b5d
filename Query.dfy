/** The query and URL builders: `makeIAQuery`, `formatField`, `createSearchURL`, and the
    count and metadata request URLs built inline by `searchForTotal` and `getMetadata`. */
module Query {
  import opened Wrappers
  import opened Uri
  import opened Decimal

  /** The dictionary `{collection, mediatype, format}` passed to `makeIAQuery`;
      `Object.keys` lists its keys in exactly this order, present or not. */
  datatype QueryDict = QueryDict(collection: Option<string>, mediatype: Option<string>, format: Option<string>)

  /** JavaScript truthiness of an optional string: present and not empty. */
  predicate Truthy(v: Option<string>) { v.Some? && v.value != "" }

  // ---------------------------------------------------------------- joining and splitting

  /** `xs.join(sep)`. */
  function Join(xs: seq<string>, sep: string): string {
    if xs == [] then "" else if |xs| == 1 then xs[0] else xs[0] + sep + Join(xs[1..], sep)
  }

  /** `s.split(sep)` for a one-character separator. */
  function SplitOn(s: string, sep: char): (parts: seq<string>)
    ensures |parts| >= 1
  {
    if s == [] then [""]
    else if s[0] == sep then [""] + SplitOn(s[1..], sep)
    else var t := SplitOn(s[1..], sep); [[s[0]] + t[0]] + t[1..]
  }

  lemma {:induction false} SplitOnWithout(a: string, sep: char)
    requires sep !in a
    ensures SplitOn(a, sep) == [a]
  {
    if a != [] {
      SplitOnWithout(a[1..], sep);
      assert [a[0]] + a[1..] == a;
    }
  }

  lemma {:induction false} SplitOnFirst(a: string, sep: char, b: string)
    requires sep !in a
    ensures SplitOn(a + [sep] + b, sep) == [a] + SplitOn(b, sep)
  {
    var s := a + [sep] + b;
    if a == [] {
      assert s == [sep] + b && s[1..] == b;
    } else {
      assert s[1..] == a[1..] + [sep] + b;
      SplitOnFirst(a[1..], sep, b);
      assert [a[0]] + a[1..] == a;
    }
  }

  /** Splitting a join on its separator gives back the parts, when no part holds the separator. */
  lemma {:induction false} SplitJoin(xs: seq<string>, sep: char)
    requires |xs| > 0
    requires forall i :: 0 <= i < |xs| ==> sep !in xs[i]
    ensures SplitOn(Join(xs, [sep]), sep) == xs
  {
    if |xs| == 1 {
      SplitOnWithout(xs[0], sep);
    } else {
      SplitJoin(xs[1..], sep);
      SplitOnFirst(xs[0], sep, Join(xs[1..], [sep]));
      assert [xs[0]] + xs[1..] == xs;
    }
  }

  // ---------------------------------------------------------------- makeIAQuery

  /** One `key:(value)` clause, before encoding. */
  function Clause(key: string, value: string): string {
    key + ":(" + value + ")"
  }

  /** `formatParam(key)`: the encoded clause of a truthy field, `undefined` otherwise. */
  function FormatParam(key: string, value: Option<string>): Option<string> {
    if Truthy(value) then Some(EncodeURIComponent(Clause(key, value.value))) else None
  }

  /** `lodash.compact` on the mapped keys: drops `undefined` and the empty string. */
  function Compact(xs: seq<Option<string>>): seq<string> {
    if xs == [] then []
    else if xs[0].Some? && xs[0].value != "" then [xs[0].value] + Compact(xs[1..])
    else Compact(xs[1..])
  }

  function FormattedParams(d: QueryDict): seq<Option<string>> {
    [FormatParam("collection", d.collection), FormatParam("mediatype", d.mediatype),
     FormatParam("format", d.format)]
  }

  /** `makeIAQuery(iaQueryDict, freeFormQuery)`. Only `+` separators and the characters
      `encodeURIComponent` can emit appear in the query, so it cannot break out of a URL parameter. */
  function MakeIAQuery(d: QueryDict, freeFormQuery: Option<string>): (q: string)
    ensures forall i :: 0 <= i < |q| ==> EncodedChar(q[i]) || q[i] == '+'
  {
    var clauses := Join(Compact(FormattedParams(d)), "+AND+");
    CompactFormattedParams(d);
    EncodeAllChars(Clauses(d));
    JoinChars(EncodeAll(Clauses(d)));
    if Truthy(freeFormQuery) then EncodeURIComponent("(" + freeFormQuery.value + ") AND ") + clauses
    else clauses
  }

  /** `encodeURIComponent` applied to each string. */
  function EncodeAll(cs: seq<string>): (es: seq<string>)
    ensures |es| == |cs|
  {
    if cs == [] then [] else [EncodeURIComponent(cs[0])] + EncodeAll(cs[1..])
  }

  lemma {:induction false} EncodeAllChars(cs: seq<string>)
    ensures var es := EncodeAll(cs);
      forall i :: 0 <= i < |es| ==> forall j :: 0 <= j < |es[i]| ==> EncodedChar(es[i][j])
  {
    if cs != [] {
      var es := EncodeAll(cs);
      EncodeAllChars(cs[1..]);
      assert es == [EncodeURIComponent(cs[0])] + EncodeAll(cs[1..]);
      forall i | 0 <= i < |es| ensures forall j :: 0 <= j < |es[i]| ==> EncodedChar(es[i][j]) {
        if i > 0 { assert es[i] == EncodeAll(cs[1..])[i - 1]; }
      }
    }
  }

  lemma {:induction false} JoinChars(cs: seq<string>)
    requires forall i :: 0 <= i < |cs| ==> forall j :: 0 <= j < |cs[i]| ==> EncodedChar(cs[i][j])
    ensures forall i :: 0 <= i < |Join(cs, "+AND+")| ==> EncodedChar(Join(cs, "+AND+")[i]) || Join(cs, "+AND+")[i] == '+'
  {
    if |cs| > 1 {
      JoinChars(cs[1..]);
    }
  }

  /** The clause a field contributes, if any. */
  function ClauseOf(key: string, value: Option<string>): seq<string> {
    if Truthy(value) then [Clause(key, value.value)] else []
  }

  /** The plain-text clauses the query stands for: one per truthy field, in the fixed order
      collection, mediatype, format. */
  function Clauses(d: QueryDict): seq<string> {
    ClauseOf("collection", d.collection) + ClauseOf("mediatype", d.mediatype) + ClauseOf("format", d.format)
  }

  /** The plain text in front of the clauses when there is a free-form query. */
  function FreeFormPrefix(freeFormQuery: Option<string>): string {
    if Truthy(freeFormQuery) then "(" + freeFormQuery.value + ") AND " else ""
  }

  lemma ClauseEncodingNotEmpty(k: string, v: string)
    ensures EncodeURIComponent(Clause(k, v)) != ""
  {
    assert |EncodeURIComponent(Clause(k, v))| >= |Clause(k, v)| > 0;
  }

  lemma CompactParam(key: string, value: Option<string>, rest: seq<Option<string>>)
    ensures Compact([FormatParam(key, value)] + rest) == EncodeAll(ClauseOf(key, value)) + Compact(rest)
  {
    assert ([FormatParam(key, value)] + rest)[1..] == rest;
    if Truthy(value) {
      ClauseEncodingNotEmpty(key, value.value);
    }
  }

  lemma CompactFormattedParams(d: QueryDict)
    ensures Compact(FormattedParams(d)) == EncodeAll(Clauses(d))
  {
    var c1 := ClauseOf("collection", d.collection);
    var c2 := ClauseOf("mediatype", d.mediatype);
    var c3 := ClauseOf("format", d.format);
    var p1 := FormatParam("collection", d.collection);
    var p2 := FormatParam("mediatype", d.mediatype);
    var p3 := FormatParam("format", d.format);
    assert FormattedParams(d) == [p1] + ([p2] + ([p3] + []));
    assert Compact([p3] + []) == EncodeAll(c3) by {
      CompactParam("format", d.format, []);
    }
    assert Compact([p2] + ([p3] + [])) == EncodeAll(c2) + EncodeAll(c3) by {
      CompactParam("mediatype", d.mediatype, [p3] + []);
    }
    assert Compact([p1] + ([p2] + ([p3] + []))) == EncodeAll(c1) + (EncodeAll(c2) + EncodeAll(c3)) by {
      CompactParam("collection", d.collection, [p2] + ([p3] + []));
    }
    EncodeAllAppend(c2, c3);
    EncodeAllAppend(c1, c2 + c3);
    assert Clauses(d) == c1 + (c2 + c3);
  }

  lemma {:induction false} EncodeAllAppend(xs: seq<string>, ys: seq<string>)
    ensures EncodeAll(xs + ys) == EncodeAll(xs) + EncodeAll(ys)
  {
    if xs == [] {
      assert xs + ys == ys;
    } else {
      assert (xs + ys)[1..] == xs[1..] + ys;
      EncodeAllAppend(xs[1..], ys);
    }
  }

  lemma {:induction false} DecodeJoinedClauses(cs: seq<string>)
    ensures DecodeURIComponent(Join(EncodeAll(cs), "+AND+")) == Some(Join(cs, "+AND+"))
  {
    var es := EncodeAll(cs);
    if |cs| == 0 {
    } else if |cs| == 1 {
      DecodeEncode(cs[0]);
    } else {
      var rest := Join(EncodeAll(cs[1..]), "+AND+");
      assert es[1..] == EncodeAll(cs[1..]);
      DecodeJoinedClauses(cs[1..]);
      assert Join(es, "+AND+") == EncodeURIComponent(cs[0]) + ("+AND+" + rest);
      DecodeEncodeAppend(cs[0], "+AND+" + rest);
      DecodeLiteral("+AND+", rest);
      PrependPrepend(cs[0], "+AND+", Some(Join(cs[1..], "+AND+")));
      assert cs[0] + "+AND+" + Join(cs[1..], "+AND+") == Join(cs, "+AND+");
    }
  }

  /** The query is the encoded free-form prefix, if any, followed by one encoded `key:(value)`
      clause per truthy field, in the order collection, mediatype, format, joined by `+AND+`. */
  lemma MakeIAQueryClauses(d: QueryDict, freeFormQuery: Option<string>)
    ensures MakeIAQuery(d, freeFormQuery)
         == (if Truthy(freeFormQuery) then EncodeURIComponent(FreeFormPrefix(freeFormQuery)) else "")
            + Join(EncodeAll(Clauses(d)), "+AND+")
  {
    CompactFormattedParams(d);
  }

  /** What the query means: decoding it gives the free-form prefix followed by one plain
      `key:(value)` clause per truthy field, in order, joined by `+AND+`. Absent or empty
      fields contribute nothing. */
  lemma MakeIAQueryDecodes(d: QueryDict, freeFormQuery: Option<string>)
    ensures DecodeURIComponent(MakeIAQuery(d, freeFormQuery))
         == Some(FreeFormPrefix(freeFormQuery) + Join(Clauses(d), "+AND+"))
  {
    CompactFormattedParams(d);
    DecodeJoinedClauses(Clauses(d));
    var clauses := Join(Compact(FormattedParams(d)), "+AND+");
    if Truthy(freeFormQuery) {
      DecodeEncodeAppend("(" + freeFormQuery.value + ") AND ", clauses);
    } else {
      assert FreeFormPrefix(freeFormQuery) + Join(Clauses(d), "+AND+") == Join(Clauses(d), "+AND+");
    }
  }

  /** Two criteria that build the same query mean the same thing. */
  lemma MakeIAQueryInjective(d1: QueryDict, q1: Option<string>, d2: QueryDict, q2: Option<string>)
    requires MakeIAQuery(d1, q1) == MakeIAQuery(d2, q2)
    ensures FreeFormPrefix(q1) + Join(Clauses(d1), "+AND+") == FreeFormPrefix(q2) + Join(Clauses(d2), "+AND+")
  {
    MakeIAQueryDecodes(d1, q1);
    MakeIAQueryDecodes(d2, q2);
  }

  // ---------------------------------------------------------------- URLs

  /** `formatField(field)`. */
  function FormatField(field: string): (r: string)
    ensures '&' in r <==> '&' in field
  {
    "fl[]=" + field
  }

  function FormatFields(fields: seq<string>): (r: seq<string>)
    ensures |r| == |fields|
  {
    if fields == [] then [] else [FormatField(fields[0])] + FormatFields(fields[1..])
  }

  /** The parameters of an advanced search, in the order `createSearchURL` writes them. */
  function SearchParameters(query: string, fields: seq<string>, rows: nat, page: nat): seq<string> {
    ["q=" + query] + FormatFields(fields) +
    ["rows=" + NatToString(rows), "page=" + NatToString(page), "output=json", "callback="]
  }

  /** `createSearchURL({iaQueryDict, fields, rows, page, query})`. */
  function CreateSearchURL(proxyBaseURL: string, iaQueryDict: QueryDict, fields: seq<string>,
                           rows: nat, page: nat, query: Option<string>): string
  {
    proxyBaseURL + "/advancedsearch.php?" + "q=" + MakeIAQuery(iaQueryDict, query) + "&" +
    Join(FormatFields(fields), "&") + "&" + "rows=" + NatToString(rows) + "&" +
    "page=" + NatToString(page) + "&" + "output=json" + "&" + "callback="
  }

  /** The fields every page search asks for. */
  const SearchFields: seq<string> := ["identifier", "item_size", "title"]

  /** The count request of `searchForTotal`. */
  function CountURL(proxyBaseURL: string, iaQueryDict: QueryDict, query: Option<string>): string {
    proxyBaseURL + "/services/search/v1/scrape?" + "debug=false" + "&" + "xvar=production" + "&" +
    "total_only=true" + "&" + "q=" + MakeIAQuery(iaQueryDict, query)
  }

  /** The metadata request of `getMetadata`: always the canonical host, never the proxy. */
  function MetadataURL(identifier: string): string {
    "https://archive.org/metadata/" + identifier
  }

  lemma JoinCons(x: string, xs: seq<string>, sep: string)
    requires |xs| > 0
    ensures Join([x] + xs, sep) == x + sep + Join(xs, sep)
  {
    assert ([x] + xs)[1..] == xs;
  }

  lemma {:induction false} FormatFieldsNoAmpersand(fields: seq<string>)
    requires forall i :: 0 <= i < |fields| ==> '&' !in fields[i]
    ensures forall i :: 0 <= i < |FormatFields(fields)| ==> '&' !in FormatFields(fields)[i]
    ensures forall i :: 0 <= i < |fields| ==> FormatFields(fields)[i] == "fl[]=" + fields[i]
  {
    if fields != [] {
      FormatFieldsNoAmpersand(fields[1..]);
    }
  }

  /** The search URL is the proxy's `/advancedsearch.php` with exactly these parameters:
      the whole encoded query, one `fl[]` per field, the row count, the page, `output=json`
      and an empty `callback`. The query cannot inject further parameters. */
  lemma SearchURLParameters(proxyBaseURL: string, d: QueryDict, fields: seq<string>,
                            rows: nat, page: nat, query: Option<string>)
    requires |fields| > 0
    requires forall i :: 0 <= i < |fields| ==> '&' !in fields[i]
    ensures var params := SearchParameters(MakeIAQuery(d, query), fields, rows, page);
      CreateSearchURL(proxyBaseURL, d, fields, rows, page, query)
        == proxyBaseURL + "/advancedsearch.php?" + Join(params, "&")
      && SplitOn(Join(params, "&"), '&') == params
  {
    QueryHasNoAmpersand(d, query);
    SearchParametersSplit(proxyBaseURL, MakeIAQuery(d, query), fields, rows, page);
  }

  lemma SearchParametersSplit(proxyBaseURL: string, q: string, fields: seq<string>, rows: nat, page: nat)
    requires |fields| > 0
    requires forall i :: 0 <= i < |fields| ==> '&' !in fields[i]
    requires '&' !in "q=" + q
    ensures var params := SearchParameters(q, fields, rows, page);
      proxyBaseURL + "/advancedsearch.php?" + "q=" + q + "&" +
      Join(FormatFields(fields), "&") + "&" + "rows=" + NatToString(rows) + "&" +
      "page=" + NatToString(page) + "&" + "output=json" + "&" + "callback="
        == proxyBaseURL + "/advancedsearch.php?" + Join(params, "&")
      && SplitOn(Join(params, "&"), '&') == params
  {
    SearchParametersJoined(q, fields, rows, page);
    SearchURLRegrouped(proxyBaseURL, "/advancedsearch.php?", q, Join(FormatFields(fields), "&"),
                       NatToString(rows), NatToString(page));
    SearchParametersHaveNoAmpersand(q, fields, rows, page);
    SplitJoin(SearchParameters(q, fields, rows, page), '&');
  }

  lemma SearchParametersHaveNoAmpersand(q: string, fields: seq<string>, rows: nat, page: nat)
    requires forall i :: 0 <= i < |fields| ==> '&' !in fields[i]
    requires '&' !in "q=" + q
    ensures var params := SearchParameters(q, fields, rows, page);
      forall i :: 0 <= i < |params| ==> '&' !in params[i]
  {
    var ff := FormatFields(fields);
    var params := SearchParameters(q, fields, rows, page);
    FormatFieldsNoAmpersand(fields);
    forall i | 0 <= i < |params| ensures '&' !in params[i] {
      if 1 <= i < 1 + |ff| {
        assert params[i] == ff[i - 1];
      } else if i == 1 + |ff| {
        assert params[i] == "rows=" + NatToString(rows);
      } else if i == 2 + |ff| {
        assert params[i] == "page=" + NatToString(page);
      }
    }
  }

  lemma SearchParametersJoined(q: string, fields: seq<string>, rows: nat, page: nat)
    requires |fields| > 0
    ensures Join(SearchParameters(q, fields, rows, page), "&")
         == ("q=" + q) + ("&" + (Join(FormatFields(fields), "&") + ("&" + (("rows=" + NatToString(rows)) +
            ("&" + (("page=" + NatToString(page)) + ("&" + ("output=json" + ("&" + "callback=")))))))))
  {
    var ff := FormatFields(fields);
    var r := "rows=" + NatToString(rows);
    var p := "page=" + NatToString(page);
    assert SearchParameters(q, fields, rows, page) == ["q=" + q] + (ff + [r, p, "output=json", "callback="]);
    JoinAroundMiddle("q=" + q, ff, r, p, "output=json", "callback=", "&");
  }

  /** `join` of a list with a first item, written with the rest grouped to the right. */
  lemma JoinConsRight(x: string, xs: seq<string>, sep: string)
    requires |xs| > 0
    ensures Join([x] + xs, sep) == x + (sep + Join(xs, sep))
  {
    JoinCons(x, xs, sep);
  }

  /** Joining the four fixed trailing parameters. */
  lemma JoinFour(r: string, p: string, o: string, c: string, sep: string)
    ensures Join([r, p, o, c], sep) == r + (sep + (p + (sep + (o + (sep + c)))))
  {
    var t1 := [c];
    var t2 := [o] + t1;
    var t3 := [p] + t2;
    assert [r, p, o, c] == [r] + t3;
    JoinConsRight(o, t1, sep);
    JoinConsRight(p, t2, sep);
    JoinConsRight(r, t3, sep);
  }

  /** Joining one item, a non-empty middle and four more items. */
  lemma JoinAroundMiddle(a: string, m: seq<string>, r: string, p: string, o: string, c: string, sep: string)
    requires |m| > 0
    ensures Join([a] + (m + [r, p, o, c]), sep)
         == a + (sep + (Join(m, sep) + (sep + (r + (sep + (p + (sep + (o + (sep + c)))))))))
  {
    var t := [r, p, o, c];
    var j := Join(m + t, sep);
    assert j == Join(m, sep) + (sep + Join(t, sep)) by {
      JoinAppend(m, t, sep);
    }
    JoinFour(r, p, o, c, sep);
    JoinConsRight(a, m + t, sep);
  }

  /** Regrouping the concatenation `createSearchURL` writes. */
  lemma SearchURLRegrouped(u: string, v: string, q: string, j: string, n: string, p: string)
    ensures u + v + "q=" + q + "&" + j + "&" + "rows=" + n + "&" + "page=" + p + "&" + "output=json" + "&" + "callback="
         == u + v + (("q=" + q) + ("&" + (j + ("&" + (("rows=" + n) + ("&" + (("page=" + p) + ("&" + ("output=json" + ("&" + "callback="))))))))))
  {
  }

  lemma {:induction false} JoinAppend(xs: seq<string>, ys: seq<string>, sep: string)
    requires |xs| > 0 && |ys| > 0
    ensures Join(xs + ys, sep) == Join(xs, sep) + sep + Join(ys, sep)
  {
    if |xs| == 1 {
      assert (xs + ys)[1..] == ys;
    } else {
      assert (xs + ys)[1..] == xs[1..] + ys;
      JoinAppend(xs[1..], ys, sep);
    }
  }

  /** The page-search URL `searchIA` requests: the three fixed fields, 100 rows, the page. */
  lemma PageSearchURL(proxyBaseURL: string, d: QueryDict, page: nat, query: Option<string>)
    ensures var params := ["q=" + MakeIAQuery(d, query), "fl[]=identifier", "fl[]=item_size", "fl[]=title",
                           "rows=100", "page=" + NatToString(page), "output=json", "callback="];
      CreateSearchURL(proxyBaseURL, d, SearchFields, 100, page, query)
        == proxyBaseURL + "/advancedsearch.php?" + Join(params, "&")
      && SplitOn(Join(params, "&"), '&') == params
  {
    var q := MakeIAQuery(d, query);
    FixedFieldsHaveNoAmpersand();
    SearchURLParameters(proxyBaseURL, d, SearchFields, 100, page, query);
    FixedFields();
    RowsParameter();
    var params := ["q=" + q, "fl[]=identifier", "fl[]=item_size", "fl[]=title",
                   "rows=100", "page=" + NatToString(page), "output=json", "callback="];
    assert SearchParameters(q, SearchFields, 100, page) == params;
  }

  lemma RowsParameter()
    ensures "rows=" + NatToString(100) == "rows=100"
  {
    assert NatToString(1) == "1";
    assert NatToString(10) == "10";
    assert NatToString(100) == "100";
  }

  lemma FixedFieldsHaveNoAmpersand()
    ensures forall i :: 0 <= i < |SearchFields| ==> '&' !in SearchFields[i]
  {
    assert "identifier"[..] == "identifier";
    forall i | 0 <= i < |SearchFields| ensures '&' !in SearchFields[i] {
      var f := SearchFields[i];
      assert forall j :: 0 <= j < |f| ==> 'a' <= f[j] <= 'z' || f[j] == '_';
    }
  }

  lemma FixedFields()
    ensures FormatFields(SearchFields) == ["fl[]=identifier", "fl[]=item_size", "fl[]=title"]
  {
    assert FormatFields(["title"]) == ["fl[]=title"] by {
      assert ["title"][1..] == [];
      assert FormatField("title") == "fl[]=title";
    }
    assert FormatFields(["item_size", "title"]) == ["fl[]=item_size", "fl[]=title"] by {
      assert ["item_size", "title"][1..] == ["title"];
      assert FormatField("item_size") == "fl[]=item_size";
    }
    assert FormatField("identifier") == "fl[]=identifier";
    assert SearchFields[1..] == ["item_size", "title"];
  }

  lemma QueryHasNoAmpersand(d: QueryDict, query: Option<string>)
    ensures '&' !in "q=" + MakeIAQuery(d, query)
  {
    var q := MakeIAQuery(d, query);
    forall i | 0 <= i < |q| ensures q[i] != '&' { }
    assert "q=" + q == ['q', '='] + q;
  }

  /** The count URL carries the fixed scrape flags and then the whole encoded query. */
  lemma CountURLParameters(proxyBaseURL: string, d: QueryDict, query: Option<string>)
    ensures var params := ["debug=false", "xvar=production", "total_only=true", "q=" + MakeIAQuery(d, query)];
      CountURL(proxyBaseURL, d, query) == proxyBaseURL + "/services/search/v1/scrape?" + Join(params, "&")
      && SplitOn(Join(params, "&"), '&') == params
  {
    QueryHasNoAmpersand(d, query);
    CountParametersSplit(proxyBaseURL, MakeIAQuery(d, query));
  }

  lemma CountParametersSplit(proxyBaseURL: string, q: string)
    requires '&' !in "q=" + q
    ensures var params := ["debug=false", "xvar=production", "total_only=true", "q=" + q];
      proxyBaseURL + "/services/search/v1/scrape?" + "debug=false" + "&" + "xvar=production" + "&" +
      "total_only=true" + "&" + "q=" + q
        == proxyBaseURL + "/services/search/v1/scrape?" + Join(params, "&")
      && SplitOn(Join(params, "&"), '&') == params
  {
    var params := ["debug=false", "xvar=production", "total_only=true", "q=" + q];
    SplitJoin(params, '&');
    JoinCons("total_only=true", ["q=" + q], "&");
    JoinCons("xvar=production", ["total_only=true", "q=" + q], "&");
    JoinCons("debug=false", ["xvar=production", "total_only=true", "q=" + q], "&");
  }
}
