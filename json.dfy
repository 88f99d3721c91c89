/**
 * The JSON values web-map definitions are made of, as Python holds them
 * after `json.loads`: objects are insertion-ordered dicts.
 */
module Json {
  import opened Wrappers
  import opened Dicts
  import opened Utils

  /** A Python int, or a float kept as the text `repr` prints for it. */
  datatype Number = Int(i: int) | Float(lexeme: string)

  datatype Json =
    | JNull
    | JBool(b: bool)
    | JNum(n: Number)
    | JStr(s: string)
    | JArr(items: seq<Json>)
    | JObj(members: seq<(string, Json)>)

  type Members = Dict<string, Json>

  /** `j[k]` when `j` is a dict that has `k`. */
  function Field(j: Json, k: string): Option<Json> {
    if j.JObj? then Get(j.members, k) else None
  }

  /** `t in s` on strings. */
  predicate Contains(s: string, t: string) {
    t <= s || (|s| > 0 && Contains(s[1..], t))
  }

  /**
   * `tag in json.dumps(j)` for the layer-type tags the model looks for
   * (`ArcGISMapServiceLayer`, `ArcGISTiledMapServiceLayer`,
   * `VectorTileLayer`): letters only, beginning with an upper-case letter
   * and at least three long. Such a tag cannot begin inside an escape
   * (`\n`, `\u00e9`), a keyword or a number, and cannot run across a quote,
   * so it occurs in the text exactly when it occurs in one key or one
   * string; the keyword and number cases only complete the definition.
   */
  predicate Mentions(j: Json, tag: string) {
    match j
    case JNull => Contains("null", tag)
    case JBool(b) => Contains(if b then "true" else "false", tag)
    case JNum(Int(i)) => Contains(IntToString(i), tag)
    case JNum(Float(l)) => Contains(l, tag)
    case JStr(s) => Contains(s, tag)
    case JArr(xs) => exists k :: 0 <= k < |xs| && Mentions(xs[k], tag)
    case JObj(ms) => exists k :: 0 <= k < |ms| && MemberMentions(ms[k], tag)
  }

  predicate MemberMentions(m: (string, Json), tag: string) {
    Contains(m.0, tag) || Mentions(m.1, tag)
  }

  /** `str(j)`. */
  function Show(j: Json): string
    decreases j, 1
  {
    match j
    case JNull => "None"
    case JBool(b) => if b then "True" else "False"
    case JNum(Int(i)) => IntToString(i)
    case JNum(Float(l)) => l
    case JStr(s) => s
    case JArr(xs) => "[" + ReprItems(xs) + "]"
    case JObj(ms) => "{" + ReprMembers(ms) + "}"
  }

  /** `repr(j)`, as `str` shows the elements of a list or dict. */
  function Repr(j: Json): string
    decreases j, 2
  {
    if j.JStr? then "'" + j.s + "'" else Show(j)
  }

  function ReprItems(xs: seq<Json>): string
    decreases xs, 0
  {
    if xs == [] then ""
    else if |xs| == 1 then Repr(xs[0])
    else ReprItems(xs[..|xs| - 1]) + ", " + Repr(xs[|xs| - 1])
  }

  function ReprMembers(ms: seq<(string, Json)>): string
    decreases ms, 0
  {
    if ms == [] then ""
    else if |ms| == 1 then ReprMember(ms[0])
    else ReprMembers(ms[..|ms| - 1]) + ", " + ReprMember(ms[|ms| - 1])
  }

  function ReprMember(m: (string, Json)): string
    decreases m, 0
  {
    "'" + m.0 + "': " + Repr(m.1)
  }

  /**
   * `json.loads(repr(j))` gives `j` back. Python's text is JSON exactly when
   * it holds no string (`repr` puts strings, dict keys among them, in single
   * quotes), no `None`, `True` or `False`, and no `nan` or `inf`; JSON then
   * reads the same numbers, lists and empty dicts. Any other text raises
   * `json.JSONDecodeError`.
   */
  predicate LoadsBack(j: Json) {
    match j
    case JNull => false
    case JBool(_) => false
    case JNum(Int(_)) => true
    case JNum(Float(l)) => l !in ["nan", "inf", "-inf"]
    case JStr(_) => false
    case JArr(xs) => forall k :: 0 <= k < |xs| ==> LoadsBack(xs[k])
    case JObj(ms) => ms == []
  }

  /** A dict with a key prints a single quote. */
  lemma KeyedQuoted(ms: seq<(string, Json)>)
    requires ms != []
    ensures '\'' in Repr(JObj(ms))
  {
    var m := ms[|ms| - 1];
    assert ReprMember(m)[0] == '\'';
    if |ms| > 1 {
      assert ReprMembers(ms) == ReprMembers(ms[..|ms| - 1]) + ", " + ReprMember(m);
    }
    assert '\'' in ReprMembers(ms);
    assert Repr(JObj(ms)) == "{" + ReprMembers(ms) + "}";
  }

  /** Every character of an element's `repr` is in the list's. */
  lemma {:induction false} ReprItemsHas(xs: seq<Json>, k: nat, c: char)
    requires k < |xs| && c in Repr(xs[k])
    ensures c in ReprItems(xs)
    decreases |xs|
  {
    var n := |xs| - 1;
    if n > 0 {
      assert ReprItems(xs) == ReprItems(xs[..n]) + ", " + Repr(xs[n]);
      if k < n {
        assert xs[..n][k] == xs[k];
        ReprItemsHas(xs[..n], k, c);
      }
    }
  }

  /**
   * A list holding a string or a dict with a key prints a single quote, so
   * its `str` is not JSON and `json.loads` refuses it.
   */
  lemma QuotedRefused(xs: seq<Json>, k: nat)
    requires k < |xs| && (xs[k].JStr? || (xs[k].JObj? && xs[k].members != []))
    ensures '\'' in Show(JArr(xs)) && !LoadsBack(JArr(xs))
  {
    if xs[k].JObj? {
      KeyedQuoted(xs[k].members);
    }
    assert '\'' in Repr(xs[k]);
    ReprItemsHas(xs, k, '\'');
  }

  /** Python's `key in v` for a string key: a dict tests its keys, a list its
      elements, a string its substrings; any other value raises TypeError. */
  function In(key: string, v: Json): Result<bool> {
    match v
    case JObj(ms) => Success(HasKey(ms, key))
    case JArr(xs) => Success(JStr(key) in xs)
    case JStr(s) => Success(Contains(s, key))
    case _ => Failure(TypeError("argument is not iterable"))
  }

  /** Python's `v[key]` for a string key: only a dict can be indexed by a string. */
  function Index(v: Json, key: string): (r: Result<Json>)
    ensures r.Success? <==> v.JObj? && HasKey(v.members, key)
    ensures r.Success? ==> Get(v.members, key) == Some(r.value)
  {
    match v
    case JObj(ms) => (match Get(ms, key) case Some(x) => Success(x) case None => Failure(KeyError(key)))
    case _ => Failure(TypeError("indices must be integers"))
  }

  /** Lists and dicts cannot be dict keys. */
  predicate Hashable(v: Json) {
    !v.JArr? && !v.JObj?
  }

  /** What `for x in v` visits: the elements of a list, the keys of a dict, the characters of a string. */
  function Iter(v: Json): Result<seq<Json>> {
    match v
    case JArr(xs) => Success(xs)
    case JObj(ms) => Success(seq(|ms|, i requires 0 <= i < |ms| => JStr(ms[i].0)))
    case JStr(s) => Success(seq(|s|, i requires 0 <= i < |s| => JStr([s[i]])))
    case _ => Failure(TypeError("object is not iterable"))
  }

  function HexDigit(d: nat): char
    requires d < 16
  {
    "0123456789abcdef"[d]
  }

  /** Four lower-case hex digits, as in a `\uXXXX` escape. */
  function Hex4(n: nat): string
    requires n < 0x10000
  {
    [HexDigit(n / 4096), HexDigit(n / 256 % 16), HexDigit(n / 16 % 16), HexDigit(n % 16)]
  }

  /**
   * How `json.dumps` writes one character of a string: the short escapes,
   * printable ASCII as itself, anything else as `\u` escapes (a surrogate
   * pair above the basic plane).
   */
  function EscapeChar(c: char): string {
    if c == '"' then "\\\""
    else if c == '\\' then "\\\\"
    else if c == '\n' then "\\n"
    else if c == '\r' then "\\r"
    else if c == '\t' then "\\t"
    else if c as int == 8 then "\\b"
    else if c as int == 12 then "\\f"
    else if ' ' <= c <= '~' then [c]
    else if c as int < 0x10000 then "\\u" + Hex4(c as int)
    else
      var v := c as int - 0x10000;
      "\\u" + Hex4(0xD800 + v / 1024 % 1024) + "\\u" + Hex4(0xDC00 + v % 1024)
  }

  function Escape(s: string): string {
    if s == [] then [] else Escape(s[..|s| - 1]) + EscapeChar(s[|s| - 1])
  }

  /** `json.dumps(s)` for a string `s`. */
  function Quote(s: string): string {
    "\"" + Escape(s) + "\""
  }

  /** Printable ASCII other than a quote or a backslash is written as it is. */
  predicate Plain(c: char) {
    ' ' <= c <= '~' && c != '"' && c != '\\'
  }

  lemma PlainChar(c: char)
    requires Plain(c)
    ensures EscapeChar(c) == [c]
  {
  }

  /** Text of printable ASCII without quotes or backslashes is escaped as itself. */
  lemma {:induction false} EscapePlain(s: string)
    requires forall i :: 0 <= i < |s| ==> Plain(s[i])
    ensures Escape(s) == s
    decreases |s|
  {
    if s != [] {
      var n := |s| - 1;
      var prefix := s[..n];
      assert Escape(prefix) == prefix by {
        assert forall i :: 0 <= i < |prefix| ==> prefix[i] == s[i];
        EscapePlain(prefix);
      }
      assert EscapeChar(s[n]) == [s[n]] by {
        PlainChar(s[n]);
      }
      assert prefix + [s[n]] == s;
    }
  }

  /** `json.dumps` of such a text only puts it in double quotes. */
  lemma QuotePlain(s: string)
    requires forall i :: 0 <= i < |s| ==> Plain(s[i])
    ensures Quote(s) == "\"" + s + "\""
  {
    EscapePlain(s);
  }

}
