/** JavaScript values as far as the client handles them, their truthiness,
    property reads, and `JSON.stringify`. */
module Json {
  import opened Results
  import Numbers

  /** A JavaScript value. Numbers are integral (the protocol carries only
      integers); `NaN` is kept apart because `parseInt` can produce it.
      An object is its list of own members in insertion order. */
  datatype JsValue =
    | Undefined
    | Null
    | Bool(b: bool)
    | Num(n: int)
    | NaN
    | Str(s: string)
    | Arr(items: seq<JsValue>)
    | Obj(members: seq<Member>)

  datatype Member = Member(key: string, value: JsValue)

  /** ECMAScript ToBoolean: `if (v)` takes the branch exactly when this holds. */
  predicate Truthy(v: JsValue) {
    match v
    case Undefined => false
    case Null => false
    case Bool(b) => b
    case Num(n) => n != 0
    case NaN => false
    case Str(s) => s != ""
    case Arr(_) => true
    case Obj(_) => true
  }

  /** `o[key]` on an object: the value of the last member with that key
      (`JSON.parse` keeps the last of duplicated keys), `undefined` if none. */
  function Get(members: seq<Member>, key: string): (r: JsValue)
    ensures r != Undefined ==> exists i :: 0 <= i < |members| && members[i] == Member(key, r)
    decreases |members|
  {
    if members == [] then Undefined
    else if members[|members| - 1].key == key then members[|members| - 1].value
    else Get(members[..|members| - 1], key)
  }

  /** A member added at the end is the one read for its key. */
  lemma GetSnoc(members: seq<Member>, m: Member, key: string)
    ensures Get(members + [m], key) == if m.key == key then m.value else Get(members, key)
  {
  }

  /** Property reads on a three-member object with distinct keys. */
  lemma GetOfThree(a: Member, b: Member, c: Member, k: string)
    requires a.key != b.key && a.key != c.key && b.key != c.key
    ensures Get([a, b, c], k) ==
      if k == c.key then c.value else if k == b.key then b.value else if k == a.key then a.value else Undefined
  {
    var ms := [a, b, c];
    assert ms[|ms| - 1] == c && ms[..|ms| - 1] == [a, b];
    var ab := [a, b];
    assert ab[|ab| - 1] == b && ab[..|ab| - 1] == [a];
    var a1 := [a];
    assert a1[|a1| - 1] == a && a1[..|a1| - 1] == [];
    assert Get(a1, k) == if k == a.key then a.value else Undefined;
    assert Get(ab, k) == if k == b.key then b.value else Get(a1, k);
    assert Get(ms, k) == if k == c.key then c.value else Get(ab, k);
  }

  /** `v.key`: a TypeError (`None`) on `null` and `undefined`; on an object
      its member; on any other value `undefined` (the keys the client reads,
      `type`, `pluginId`, `settings` and `values`, are not properties of
      primitives or arrays). */
  function Prop(v: JsValue, key: string): (r: Option<JsValue>)
    ensures r.None? <==> v.Null? || v.Undefined?
  {
    match v
    case Undefined => None
    case Null => None
    case Obj(ms) => Some(Get(ms, key))
    case _ => Some(Undefined)
  }

  /** A string without the characters the frame splitter breaks lines on. */
  predicate NoLineBreak(s: string) {
    '\n' !in s && '\r' !in s
  }

  function HexDigit(d: nat): (c: char)
    requires d < 16
  {
    "0123456789abcdef"[d]
  }

  /** How `JSON.stringify` writes one character of a string. */
  function EscapeChar(c: char): string {
    if c == '"' then "\\\""
    else if c == '\\' then "\\\\"
    else if c == '\U{0008}' then "\\b"
    else if c == '\t' then "\\t"
    else if c == '\n' then "\\n"
    else if c == '\U{000C}' then "\\f"
    else if c == '\r' then "\\r"
    else if c < ' ' then "\\u00" + [HexDigit(c as int / 16), HexDigit(c as int % 16)]
    else [c]
  }

  function Escape(s: string): string
    decreases |s|
  {
    if s == [] then "" else EscapeChar(s[0]) + Escape(s[1..])
  }

  function Quote(s: string): string {
    "\"" + Escape(s) + "\""
  }

  /** Comma-separated concatenation. */
  function Join(parts: seq<string>): string
    decreases |parts|
  {
    if parts == [] then ""
    else if |parts| == 1 then parts[0]
    else parts[0] + "," + Join(parts[1..])
  }

  /** `JSON.stringify(v)`. `undefined` and `NaN` are written `null`, which is
      what `JSON.stringify` does with them as array elements; as object
      members they are skipped (undefined) or written `null` (NaN). The
      outbound messages are always objects, so the top-level rule for
      `undefined` never arises. */
  function Render(v: JsValue): (r: string)
    ensures |r| > 0
    decreases v
  {
    match v
    case Undefined => "null"
    case Null => "null"
    case Bool(b) => if b then "true" else "false"
    case Num(n) => Numbers.IntToString(n)
    case NaN => "null"
    case Str(s) => Quote(s)
    case Arr(items) => "[" + Join(RenderItems(items)) + "]"
    case Obj(ms) => "{" + Join(RenderMembers(ms)) + "}"
  }

  function RenderItems(items: seq<JsValue>): (r: seq<string>)
    ensures |r| == |items|
    decreases items
  {
    if items == [] then [] else [Render(items[0])] + RenderItems(items[1..])
  }

  /** Members whose value is `undefined` are left out, as `JSON.stringify` does. */
  function RenderMembers(ms: seq<Member>): seq<string>
    decreases ms
  {
    if ms == [] then []
    else if ms[0].value.Undefined? then RenderMembers(ms[1..])
    else [Quote(ms[0].key) + ":" + Render(ms[0].value)] + RenderMembers(ms[1..])
  }

  lemma {:induction false} EscapeNoLineBreak(s: string)
    ensures NoLineBreak(Escape(s))
    decreases |s|
  {
    if s != [] {
      var c := s[0];
      if c < ' ' && c != '\U{0008}' && c != '\t' && c != '\n' && c != '\U{000C}' && c != '\r' {
        var e := EscapeChar(c);
        assert e == "\\u00" + [HexDigit(c as int / 16), HexDigit(c as int % 16)];
      }
      EscapeNoLineBreak(s[1..]);
    }
  }

  lemma {:induction false} JoinNoLineBreak(parts: seq<string>)
    requires forall i :: 0 <= i < |parts| ==> NoLineBreak(parts[i])
    ensures NoLineBreak(Join(parts))
    decreases |parts|
  {
    if |parts| > 1 {
      JoinNoLineBreak(parts[1..]);
    }
  }

  lemma IntToStringNoLineBreak(n: int)
    ensures NoLineBreak(Numbers.IntToString(n))
  {
  }

  /** `JSON.stringify` never writes a raw line break: one inside a string is
      written as the two characters `\n` or `\r`. This is what lets a message
      travel as one line of the protocol. */
  lemma {:induction false} RenderNoLineBreak(v: JsValue)
    ensures NoLineBreak(Render(v))
    decreases v
  {
    match v
    case Num(n) => IntToStringNoLineBreak(n);
    case Str(s) => EscapeNoLineBreak(s);
    case Arr(items) =>
      RenderItemsNoLineBreak(items);
      JoinNoLineBreak(RenderItems(items));
    case Obj(ms) =>
      RenderMembersNoLineBreak(ms);
      JoinNoLineBreak(RenderMembers(ms));
    case _ =>
  }

  lemma {:induction false} RenderItemsNoLineBreak(items: seq<JsValue>)
    ensures forall i :: 0 <= i < |RenderItems(items)| ==> NoLineBreak(RenderItems(items)[i])
    decreases items
  {
    if items != [] {
      RenderNoLineBreak(items[0]);
      RenderItemsNoLineBreak(items[1..]);
    }
  }

  lemma {:induction false} RenderMembersNoLineBreak(ms: seq<Member>)
    ensures forall i :: 0 <= i < |RenderMembers(ms)| ==> NoLineBreak(RenderMembers(ms)[i])
    decreases ms
  {
    if ms != [] {
      RenderMembersNoLineBreak(ms[1..]);
      if !ms[0].value.Undefined? {
        EscapeNoLineBreak(ms[0].key);
        RenderNoLineBreak(ms[0].value);
      }
    }
  }
}
