/** The shared API contract: URL templates with `:key` placeholders and the
    helper that fills them in, and the validation schema of the order-creation
    request body. */
module Routes {
  import opened Results
  import opened Schema
  import Strings

  // ---------------------------------------------------------------------
  // String search and replacement, as the JavaScript string methods do it
  // ---------------------------------------------------------------------

  /** `pat` occurs in `s` starting at position `i`. */
  predicate OccursAt(s: string, pat: string, i: nat) {
    i + |pat| <= |s| && s[i..i + |pat|] == pat
  }

  /** `s.indexOf(pat, from)`: the first occurrence at or after `from`, or -1. */
  function IndexOfFrom(s: string, pat: string, from: nat): (k: int)
    ensures k == -1 || (from <= k && OccursAt(s, pat, k))
    ensures k == -1 ==> forall j :: from <= j ==> !OccursAt(s, pat, j)
    ensures k >= 0 ==> forall j :: from <= j < k ==> !OccursAt(s, pat, j)
    decreases |s| - from
  {
    if from + |pat| > |s| then -1
    else if OccursAt(s, pat, from) then from
    else IndexOfFrom(s, pat, from + 1)
  }

  /** `s.indexOf(pat)`. */
  function IndexOf(s: string, pat: string): int {
    IndexOfFrom(s, pat, 0)
  }

  /** `s.includes(pat)`. */
  predicate Includes(s: string, pat: string) {
    IndexOf(s, pat) >= 0
  }

  /** The replacement text that `replace` inserts for a match of a string
      pattern: `$$` stands for `$`, `$&` for the matched text, `` $` `` for
      the text before the match and `$'` for the text after it; any other
      character, `$` included, stands for itself. */
  function Substitution(replacement: string, matched: string, before: string, after: string): (r: string)
    ensures '$' !in replacement ==> r == replacement
    ensures replacement == "$&" ==> r == matched
    decreases |replacement|
  {
    if replacement == [] then []
    else if |replacement| >= 2 && replacement[0] == '$' && replacement[1] in "$&`'" then
      var inserted := match replacement[1]
        case '$' => "$"
        case '&' => matched
        case '`' => before
        case _ => after;
      inserted + Substitution(replacement[2..], matched, before, after)
    else [replacement[0]] + Substitution(replacement[1..], matched, before, after)
  }

  /** `s.replace(pat, replacement)` with a string pattern: only the first
      occurrence is replaced. Without a match the string is kept; with one,
      the text before and after the first match is kept around the
      substitution, which is the replacement itself when it has no `$`. */
  function ReplaceFirst(s: string, pat: string, replacement: string): (r: string)
    ensures !Includes(s, pat) ==> r == s
    ensures Includes(s, pat) ==> (var k := IndexOf(s, pat);
      && |r| >= k + |s| - (k + |pat|)
      && r[..k] == s[..k]
      && r[|r| - (|s| - (k + |pat|))..] == s[k + |pat|..]
      && ('$' !in replacement ==> r == s[..k] + replacement + s[k + |pat|..]))
  {
    var k := IndexOf(s, pat);
    if k < 0 then s
    else s[..k] + Substitution(replacement, pat, s[..k], s[k + |pat|..]) + s[k + |pat|..]
  }

  // ---------------------------------------------------------------------
  // buildUrl
  // ---------------------------------------------------------------------

  /** A parameter value: a string or a number (integers only here). */
  datatype ParamValue = Text(text: string) | Number(n: int)

  /** `String(value)`. */
  function Stringify(v: ParamValue): string {
    match v
    case Text(s) => s
    case Number(n) => Strings.IntToString(n)
  }

  /** The placeholder a key stands for in a path. */
  function Placeholder(key: string): string {
    ":" + key
  }

  /** One step of the loop: replace the first `:key` if the url contains it;
      a url without the placeholder is kept, and one with it keeps the text
      before the placeholder's first occurrence. */
  function ApplyParam(url: string, key: string, value: ParamValue): (r: string)
    ensures !Includes(url, Placeholder(key)) ==> r == url
    ensures Includes(url, Placeholder(key)) ==>
      var k := IndexOf(url, Placeholder(key)); |r| >= k && r[..k] == url[..k]
  {
    if Includes(url, Placeholder(key)) then ReplaceFirst(url, Placeholder(key), Stringify(value)) else url
  }

  /** The entries applied one after another, each to the previous result; a
      url with no `:` has no placeholder and comes back unchanged. */
  function ApplyParams(url: string, entries: seq<(string, ParamValue)>): (r: string)
    ensures (forall i :: 0 <= i < |url| ==> url[i] != ':') ==> r == url
    decreases |entries|
  {
    if entries == [] then url
    else
      NoColonNoPlaceholder(url, entries[0].0);
      ApplyParams(ApplyParam(url, entries[0].0, entries[0].1), entries[1..])
  }

  /** Every placeholder starts with `:`, so a url without one holds none. */
  lemma {:induction false} NoColonNoPlaceholder(url: string, key: string)
    ensures (forall i :: 0 <= i < |url| ==> url[i] != ':') ==> !Includes(url, Placeholder(key))
  {
    if Includes(url, Placeholder(key)) {
      var k := IndexOf(url, Placeholder(key));
      assert url[k] == url[k..k + |key| + 1][0] == ':';
    }
  }

  /** Fills the placeholders of `path` from the entries of `params`, in entry
      order; without params the path is returned as it is. */
  method BuildUrl(path: string, params: Option<seq<(string, ParamValue)>>) returns (url: string)
    ensures params.None? ==> url == path
    ensures params.Some? ==> url == ApplyParams(path, params.value)
  {
    url := path;
    if params.Some? {
      var entries := params.value;
      var i := 0;
      while i < |entries|
        invariant 0 <= i <= |entries|
        invariant ApplyParams(url, entries[i..]) == ApplyParams(path, entries)
      {
        var (key, value) := entries[i];
        assert entries[i..][1..] == entries[i + 1..];
        if Includes(url, Placeholder(key)) {
          url := ReplaceFirst(url, Placeholder(key), Stringify(value));
        }
        i := i + 1;
      }
    }
  }

  /** No entries leave the path unchanged. */
  lemma NoEntriesKeepPath(path: string)
    ensures ApplyParams(path, []) == path
  {
  }

  /** A number renders without `$`, so it is inserted literally. */
  lemma NumberHasNoDollar(n: int)
    ensures '$' !in Stringify(Number(n))
  {
    var s := Stringify(Number(n));
    forall i | 0 <= i < |s|
      ensures s[i] != '$'
    {
      assert Strings.IsDigit(s[i]) || s[i] == '-';
    }
  }

  /** A placeholder found at `k` with no ':' before it is the first one. */
  lemma {:induction false} FirstPlaceholderAt(url: string, key: string, k: nat)
    requires OccursAt(url, Placeholder(key), k)
    requires forall j :: 0 <= j < k ==> url[j] != ':'
    ensures IndexOf(url, Placeholder(key)) == k
  {
    var pat := Placeholder(key);
    forall j | 0 <= j < k
      ensures !OccursAt(url, pat, j)
    {
      assert url[j] != pat[0];
    }
  }

  /** When the placeholder occurs and the value has no `$`, exactly its first
      occurrence is replaced by the value, and everything else is kept. */
  lemma {:induction false} ReplacesFirstPlaceholder(url: string, key: string, value: ParamValue)
    requires Includes(url, Placeholder(key)) && '$' !in Stringify(value)
    ensures var k := IndexOf(url, Placeholder(key));
      && OccursAt(url, Placeholder(key), k)
      && (forall j :: 0 <= j < k ==> !OccursAt(url, Placeholder(key), j))
      && ApplyParam(url, key, value) == url[..k] + Stringify(value) + url[k + |key| + 1..]
  {
    var pat, text := Placeholder(key), Stringify(value);
    var k := IndexOf(url, pat);
    assert |pat| == |key| + 1;
    assert ApplyParam(url, key, value) == ReplaceFirst(url, pat, text);
  }

  /** The template of the single-product endpoint. */
  const ProductPath: string := "/api/products/:id"

  /** The URL of a product fetch is the path with the id appended. */
  lemma ProductUrl(id: int)
    ensures ApplyParams(ProductPath, [("id", Number(id))]) == "/api/products/" + Strings.IntToString(id)
  {
    assert ProductPath[14..17] == Placeholder("id");
    FirstPlaceholderAt(ProductPath, "id", 14);
    NumberHasNoDollar(id);
    ReplacesFirstPlaceholder(ProductPath, "id", Number(id));
    assert ProductPath[..14] == "/api/products/";
    assert ProductPath[17..] == "";
  }

  /** Only the first occurrence is filled: a repeated placeholder stays. */
  lemma OnlyFirstOccurrence()
    ensures ApplyParam("/a/:id/:id", "id", Number(7)) == "/a/7/:id"
  {
    var url, pat := "/a/:id/:id", Placeholder("id");
    assert url[3..6] == pat;
    FirstPlaceholderAt(url, "id", 3);
    NumberHasNoDollar(7);
    ReplacesFirstPlaceholder(url, "id", Number(7));
    assert url[..3] == "/a/";
    assert url[6..] == "/:id";
    assert Strings.IntToString(7) == "7";
  }

  /** Keys match as substrings: `id` also fills the head of `:idx`. */
  lemma PlaceholderMatchesPrefix()
    ensures ApplyParam("/a/:idx", "id", Number(7)) == "/a/7x"
  {
    var url, pat := "/a/:idx", Placeholder("id");
    assert url[3..6] == pat;
    FirstPlaceholderAt(url, "id", 3);
    NumberHasNoDollar(7);
    ReplacesFirstPlaceholder(url, "id", Number(7));
    assert url[..3] == "/a/" && url[6..] == "x";
    assert Strings.IntToString(7) == "7";
  }

  /** A string value `$&` puts the placeholder itself back. */
  lemma DollarAmpersandKeepsPlaceholder()
    ensures ApplyParam("/a/:id", "id", Text("$&")) == "/a/:id"
  {
    var url, pat := "/a/:id", Placeholder("id");
    assert url[3..6] == pat;
    FirstPlaceholderAt(url, "id", 3);
    assert ApplyParam(url, "id", Text("$&")) == url[..3] + Substitution("$&", pat, url[..3], url[6..]) + url[6..];
    assert url[..3] + pat + url[6..] == url;
  }

  // ---------------------------------------------------------------------
  // The order-creation request body
  // ---------------------------------------------------------------------

  /** A parsed JSON value; numbers are integers here. */
  datatype Json =
    | JNull
    | JBool(b: bool)
    | JNumber(n: int)
    | JString(s: string)
    | JArray(elems: seq<Json>)
    | JObject(fields: map<string, Json>)

  datatype PaymentMethod = Cash | Visa

  /** The validated body: the lines, and the payment method. */
  datatype OrderInput = OrderInput(items: seq<LineRequest>, paymentMethod: PaymentMethod)

  /** What the schema accepts for one line: an object whose productId is a
      number and whose quantity is a number of at least 1. */
  predicate AcceptableLine(v: Json) {
    && v.JObject?
    && "productId" in v.fields && v.fields["productId"].JNumber?
    && "quantity" in v.fields && v.fields["quantity"].JNumber? && v.fields["quantity"].n >= 1
  }

  /** What the schema accepts for the body: an object whose items is an array
      of acceptable lines (of any length, none included), and whose
      paymentMethod, when present, is "cash" or "visa". */
  predicate AcceptableOrderBody(body: Json) {
    && body.JObject?
    && "items" in body.fields && body.fields["items"].JArray?
    && (forall i :: 0 <= i < |body.fields["items"].elems| ==> AcceptableLine(body.fields["items"].elems[i]))
    && ("paymentMethod" in body.fields ==>
          body.fields["paymentMethod"] == JString("cash") || body.fields["paymentMethod"] == JString("visa"))
  }

  /** Parses one line. */
  function ParseLine(v: Json): (r: Option<LineRequest>)
    ensures r.Some? <==> AcceptableLine(v)
    ensures r.Some? ==> r.value == LineRequest(v.fields["productId"].n, v.fields["quantity"].n)
  {
    match v
    case JObject(f) =>
      if "productId" in f && f["productId"].JNumber? && "quantity" in f && f["quantity"].JNumber?
         && f["quantity"].n >= 1
      then Some(LineRequest(f["productId"].n, f["quantity"].n))
      else None
    case _ => None
  }

  /** Parses the items array: every element must parse. */
  function ParseLines(vs: seq<Json>): (r: Option<seq<LineRequest>>)
    ensures r.Some? <==> forall i :: 0 <= i < |vs| ==> ParseLine(vs[i]).Some?
    ensures r.Some? ==> |r.value| == |vs| && forall i :: 0 <= i < |vs| ==> ParseLine(vs[i]) == Some(r.value[i])
  {
    if vs == [] then Some([])
    else
      var head, rest := ParseLine(vs[0]), ParseLines(vs[1..]);
      assert forall i :: 1 <= i < |vs| ==> vs[i] == vs[1..][i - 1];
      if head.Some? && rest.Some? then Some([head.value] + rest.value) else None
  }

  /** paymentMethod: "cash" when absent, otherwise exactly "cash" or "visa". */
  function ParsePaymentMethod(fields: map<string, Json>): Option<PaymentMethod> {
    if "paymentMethod" !in fields then Some(Cash)
    else if fields["paymentMethod"] == JString("cash") then Some(Cash)
    else if fields["paymentMethod"] == JString("visa") then Some(Visa)
    else None
  }

  /** Validates the request body; unknown fields are ignored. */
  function ParseOrderInput(body: Json): (r: Option<OrderInput>)
    ensures r.Some? ==> forall i :: 0 <= i < |r.value.items| ==> r.value.items[i].quantity >= 1
  {
    match body
    case JObject(f) =>
      if "items" in f && f["items"].JArray? then
        var lines, payment := ParseLines(f["items"].elems), ParsePaymentMethod(f);
        if lines.Some? && payment.Some? then Some(OrderInput(lines.value, payment.value)) else None
      else None
    case _ => None
  }

  /** The parser accepts exactly the bodies the schema describes. */
  lemma ParseAcceptsExactly(body: Json)
    ensures ParseOrderInput(body).Some? <==> AcceptableOrderBody(body)
  {
  }

  /** An accepted body pays by visa exactly when it says "visa" and cash
      otherwise (absent included), and every accepted line is the one in the
      body. */
  lemma ParsedBodyContents(body: Json)
    requires AcceptableOrderBody(body)
    ensures var r := ParseOrderInput(body);
      && r.Some?
      && ("paymentMethod" !in body.fields ==> r.value.paymentMethod == Cash)
      && ("paymentMethod" in body.fields ==>
            r.value.paymentMethod == (if body.fields["paymentMethod"] == JString("visa") then Visa else Cash))
      && |r.value.items| == |body.fields["items"].elems|
      && forall i :: 0 <= i < |r.value.items| ==>
           var e := body.fields["items"].elems[i];
           r.value.items[i] == LineRequest(e.fields["productId"].n, e.fields["quantity"].n)
  {
    ParseAcceptsExactly(body);
    var r := ParseOrderInput(body);
    var elems := body.fields["items"].elems;
    forall i | 0 <= i < |r.value.items|
      ensures r.value.items[i] == LineRequest(elems[i].fields["productId"].n, elems[i].fields["quantity"].n)
    {
      assert ParseLine(elems[i]) == Some(r.value.items[i]);
    }
  }

  /** An empty items array is accepted: there is no minimum length. */
  lemma EmptyItemsAccepted()
    ensures ParseOrderInput(JObject(map["items" := JArray([])])) == Some(OrderInput([], Cash))
  {
  }

  /** A line as the client sends it. */
  function EncodeLine(line: LineRequest): Json {
    JObject(map["productId" := JNumber(line.productId), "quantity" := JNumber(line.quantity)])
  }

  /** A body as the client sends it. */
  function EncodeOrderInput(input: OrderInput): Json {
    JObject(map[
      "items" := JArray(seq(|input.items|, i requires 0 <= i < |input.items| => EncodeLine(input.items[i]))),
      "paymentMethod" := JString(if input.paymentMethod == Cash then "cash" else "visa")])
  }

  /** Every input whose quantities are at least 1 survives encoding and
      validation unchanged. */
  lemma ParseEncodeRoundTrip(input: OrderInput)
    requires forall i :: 0 <= i < |input.items| ==> input.items[i].quantity >= 1
    ensures ParseOrderInput(EncodeOrderInput(input)) == Some(input)
  {
    var elems := EncodeOrderInput(input).fields["items"].elems;
    forall i | 0 <= i < |elems|
      ensures ParseLine(elems[i]) == Some(input.items[i])
    {
      assert elems[i] == EncodeLine(input.items[i]);
    }
    var lines := ParseLines(elems);
    assert lines.Some?;
    assert lines.value == input.items;
  }
}
