/**
 * JSON values as the programs see them after parsing. Numbers are integers only;
 * an object keeps its members in order, and a lookup finds the LAST member with the
 * key, as `JSON.parse` and `json.loads` keep the last of duplicated keys.
 */
module Json {
  import opened Wrappers
  import Text

  datatype Json =
    | JNull
    | JBool(b: bool)
    | JNum(n: int)
    | JStr(s: string)
    | JArr(items: seq<Json>)
    | JObj(members: seq<(string, Json)>)

  /** `obj[key]`: the value of the last member named `key`; absent for a non-object. */
  function Get(j: Json, key: string): (r: Option<Json>)
    ensures r.Some? ==> j.JObj? && exists i :: 0 <= i < |j.members| && j.members[i] == (key, r.value)
    ensures j.JObj? && (exists i :: 0 <= i < |j.members| && j.members[i].0 == key) ==> r.Some?
  {
    if !j.JObj? then None else Lookup(j.members, key)
  }

  function Lookup(members: seq<(string, Json)>, key: string): (r: Option<Json>)
    ensures r.Some? ==> exists i :: 0 <= i < |members| && members[i] == (key, r.value)
    ensures (exists i :: 0 <= i < |members| && members[i].0 == key) ==> r.Some?
  {
    if members == [] then None
    else if members[|members| - 1].0 == key then Some(members[|members| - 1].1)
    else
      var r := Lookup(members[..|members| - 1], key);
      assert forall i :: 0 <= i < |members| - 1 ==> members[..|members| - 1][i] == members[i];
      r
  }

  /** A member that no later member overrides is what a lookup of its key finds. */
  lemma {:induction false} LookupFindsLast(members: seq<(string, Json)>, i: nat)
    requires i < |members|
    requires forall j :: i < j < |members| ==> members[j].0 != members[i].0
    ensures Lookup(members, members[i].0) == Some(members[i].1)
  {
    if i < |members| - 1 {
      var init := members[..|members| - 1];
      assert init[i] == members[i];
      LookupFindsLast(init, i);
    }
  }

  /** JavaScript truthiness of a present value (`!!v`). */
  predicate JsTruthy(j: Json) {
    match j
    case JNull => false
    case JBool(b) => b
    case JNum(n) => n != 0
    case JStr(s) => s != ""
    case JArr(_) => true
    case JObj(_) => true
  }

  /** JavaScript truthiness of a possibly missing value: `undefined` is falsy. */
  predicate JsTruthyOpt(v: Option<Json>) {
    v.Some? && JsTruthy(v.value)
  }

  /** Python truthiness (`bool(v)`): empty containers are falsy. */
  predicate PyTruthy(j: Json) {
    match j
    case JNull => false
    case JBool(b) => b
    case JNum(n) => n != 0
    case JStr(s) => s != ""
    case JArr(items) => items != []
    case JObj(members) => members != []
  }

  /** `String(v)` for a JSON value in JavaScript. */
  function JsString(j: Json): string
    decreases j, 0
  {
    match j
    case JNull => "null"
    case JBool(b) => if b then "true" else "false"
    case JNum(n) => Text.IntToString(n)
    case JStr(s) => s
    case JArr(items) => Text.Join(seq(|items|, i requires 0 <= i < |items| => ArrayElementString(items[i])), ",")
    case JObj(_) => "[object Object]"
  }

  /** How `Array.prototype.join` renders one element: `null` becomes the empty string. */
  function ArrayElementString(j: Json): string
    decreases j, 1
  {
    if j.JNull? then "" else JsString(j)
  }

  /** A JSON object with a single member. */
  function Obj1(k: string, v: Json): Json {
    JObj([(k, v)])
  }

  /** An array of strings as JSON. */
  function StrArr(ss: seq<string>): (r: Json)
    ensures r.JArr? && |r.items| == |ss|
    ensures forall i :: 0 <= i < |ss| ==> r.items[i] == JStr(ss[i])
  {
    JArr(seq(|ss|, i requires 0 <= i < |ss| => JStr(ss[i])))
  }

  // ---- Serialisation (`JSON.stringify(v, null, indent)`) -----------------------------

  function HexDigit(d: nat): char
    requires d < 16
  {
    "0123456789abcdef"[d]
  }

  /** One character of a string as `JSON.stringify` writes it inside quotes. */
  function EscapeChar(c: char): (r: string)
    ensures |r| >= 1
  {
    if c == '"' then "\\\""
    else if c == '\\' then "\\\\"
    else if c == '\U{08}' then "\\b"
    else if c == '\t' then "\\t"
    else if c == '\n' then "\\n"
    else if c == '\U{0C}' then "\\f"
    else if c == '\r' then "\\r"
    else if c < ' ' then "\\u00" + [HexDigit(c as nat / 16), HexDigit(c as nat % 16)]
    else [c]
  }

  function EscapeString(s: string): string {
    if s == [] then [] else EscapeChar(s[0]) + EscapeString(s[1..])
  }

  /** A string as a JSON string literal. */
  function QuoteString(s: string): (r: string)
    ensures |r| >= 2 && r[0] == '"' && r[|r| - 1] == '"'
  {
    "\"" + EscapeString(s) + "\""
  }

  function Spaces(n: nat): string {
    if n == 0 then "" else " " + Spaces(n - 1)
  }

  /** The text of `j` nested `level` deep; `indent` 0 is the compact form. */
  function Render(j: Json, indent: nat, level: nat): string
    decreases j
  {
    match j
    case JNull => "null"
    case JBool(b) => if b then "true" else "false"
    case JNum(n) => Text.IntToString(n)
    case JStr(s) => QuoteString(s)
    case JArr(items) =>
      if items == [] then "[]"
      else
        var parts := seq(|items|, i requires 0 <= i < |items| =>
                         Spaces(indent * (level + 1)) + Render(items[i], indent, level + 1));
        Enclose("[", parts, "]", indent, level)
    case JObj(members) =>
      if members == [] then "{}"
      else
        var parts := seq(|members|, i requires 0 <= i < |members| =>
                         Spaces(indent * (level + 1)) + QuoteString(members[i].0)
                         + (if indent == 0 then ":" else ": ") + Render(members[i].1, indent, level + 1));
        Enclose("{", parts, "}", indent, level)
  }

  /** Opening bracket, the rendered elements separated by commas (one per line when indented), closing bracket. */
  function Enclose(open: string, parts: seq<string>, close: string, indent: nat, level: nat): string {
    if indent == 0 then open + Text.Join(parts, ",") + close
    else open + "\n" + Text.Join(parts, ",\n") + "\n" + Spaces(indent * level) + close
  }

  /** `JSON.stringify(j, null, indent)`. */
  function Stringify(j: Json, indent: nat): string {
    Render(j, indent, 0)
  }

  /** Two compact parts inside braces. */
  lemma EncloseTwo(p0: string, p1: string)
    ensures Enclose("{", [p0, p1], "}", 0, 0) == "{" + p0 + "," + p1 + "}"
  {
    assert Text.Join([p0, p1], ",") == p0 + "," + p1;
  }
  /** A two-member object's compact parts: each key quoted, a colon, its value. */
  lemma PairParts(ms: seq<(string, Json)>)
    requires |ms| == 2
    ensures Render(JObj(ms), 0, 0)
         == Enclose("{", [QuoteString(ms[0].0) + ":" + Render(ms[0].1, 0, 1), QuoteString(ms[1].0) + ":" + Render(ms[1].1, 0, 1)], "}", 0, 0)
  {
    var parts := seq(|ms|, i requires 0 <= i < |ms| =>
                     Spaces(0) + QuoteString(ms[i].0) + ":" + Render(ms[i].1, 0, 1));
    assert Render(JObj(ms), 0, 0) == Enclose("{", parts, "}", 0, 0);
    var expected := [QuoteString(ms[0].0) + ":" + Render(ms[0].1, 0, 1), QuoteString(ms[1].0) + ":" + Render(ms[1].1, 0, 1)];
    assert parts == expected by {
      assert Spaces(0) == "";
      assert parts[0] == expected[0];
      assert parts[1] == expected[1];
    }
  }

  /** A two-member object in compact form: braces around the two `key:value` pairs, separated by a comma. */
  lemma CompactPair(ms: seq<(string, Json)>)
    requires |ms| == 2
    ensures Render(JObj(ms), 0, 0)
         == "{" + (QuoteString(ms[0].0) + ":" + Render(ms[0].1, 0, 1)) + "," + (QuoteString(ms[1].0) + ":" + Render(ms[1].1, 0, 1)) + "}"
  {
    var p0 := QuoteString(ms[0].0) + ":" + Render(ms[0].1, 0, 1);
    var p1 := QuoteString(ms[1].0) + ":" + Render(ms[1].1, 0, 1);
    PairParts(ms);
    EncloseTwo(p0, p1);
  }
}
