/**
 * JavaScript values as they travel through the chat transport: parsed JSON,
 * its truthiness, property reads with `.` and `?.`, `JSON.stringify` and
 * the `String(...)` conversion a template literal applies.
 *
 * `Option<Json>` stands for a JavaScript value that may be `undefined`:
 * `None` is `undefined`. Numbers are integers.
 */
module Json {
  import opened Wrappers
  import opened Strings

  /**
   * A parsed JSON value. An object's members are listed in the engine's
   * property order, which `JSON.stringify` follows. Parsing leaves names
   * distinct; the datatype does not enforce it, and a read takes the first
   * member with the name.
   */
  datatype Json =
    | JNull
    | JBool(b: bool)
    | JNum(n: int)
    | JStr(s: string)
    | JArr(items: seq<Json>)
    | JObj(members: seq<(string, Json)>)

  /** One step of a property-access chain: `.name` or `[index]`. */
  datatype Seg = Key(name: string) | Index(i: nat)

  /** The property name a step reads, as JavaScript converts it to a string. */
  function SegName(seg: Seg): string {
    match seg
    case Key(name) => name
    case Index(i) => NatToString(i)
  }

  /** JavaScript truthiness: `undefined`, `null`, `false`, `0` and `""` are falsy. */
  predicate Truthy(v: Option<Json>) {
    match v
    case None => false
    case Some(JNull) => false
    case Some(JBool(b)) => b
    case Some(JNum(n)) => n != 0
    case Some(JStr(s)) => s != ""
    case Some(JArr(_)) => true
    case Some(JObj(_)) => true
  }

  /** `undefined` or `null`: reading a property of it throws. */
  predicate Nullish(v: Option<Json>) {
    v.None? || v == Some(JNull)
  }

  /** The value of the first member with the given name. */
  function Lookup(members: seq<(string, Json)>, name: string): (r: Option<Json>)
    ensures r.Some? <==> exists i :: 0 <= i < |members| && members[i].0 == name
    ensures r.Some? ==> exists i :: 0 <= i < |members| && members[i] == (name, r.value)
  {
    if members == [] then None
    else if members[0].0 == name then Some(members[0].1)
    else
      var r := Lookup(members[1..], name);
      assert forall i :: 0 < i < |members| ==> members[i] == members[1..][i - 1];
      r
  }

  /**
   * Reading a property of a value that is not nullish: an object member,
   * an array element, a one-character string; anything else is `undefined`.
   * None of the names the core reads is a member of a built-in prototype.
   */
  function Member(j: Json, seg: Seg): Option<Json> {
    match j
    case JObj(members) => Lookup(members, SegName(seg))
    case JArr(items) =>
      if seg.Index? && seg.i < |items| then Some(items[seg.i]) else None
    case JStr(s) =>
      if seg.Index? && seg.i < |s| then Some(JStr([s[seg.i]])) else None
    case _ => None
  }

  /** The message of the TypeError V8 throws when a property of `undefined` or `null` is read. */
  function ReadError(v: Option<Json>, seg: Seg): string
    requires Nullish(v)
  {
    "Cannot read properties of " + (if v.None? then "undefined" else "null")
      + " (reading '" + SegName(seg) + "')"
  }

  /** `v.seg` (or `v[i]`): throws on a nullish value. */
  function Read(v: Option<Json>, seg: Seg): Result<Option<Json>, string> {
    if Nullish(v) then Failure(ReadError(v, seg)) else Success(Member(v.value, seg))
  }

  /** `v?.seg`: `undefined` on a nullish value. */
  function ReadOpt(v: Option<Json>, seg: Seg): Option<Json> {
    if Nullish(v) then None else Member(v.value, seg)
  }

  /** A chain of plain reads `v.a[0].b`, which stops at the first read that throws. */
  function Walk(v: Option<Json>, path: seq<Seg>): Result<Option<Json>, string>
    decreases |path|
  {
    if path == [] then Success(v)
    else
      match Read(v, path[0])
      case Failure(e) => Failure(e)
      case Success(w) => Walk(w, path[1..])
  }

  /** A chain of optional reads `v?.a?.[0]?.b`. */
  function WalkOpt(v: Option<Json>, path: seq<Seg>): Option<Json>
    decreases |path|
  {
    if path == [] then v else WalkOpt(ReadOpt(v, path[0]), path[1..])
  }

  /** No value the chain reads a property of is nullish. */
  predicate Clear(v: Option<Json>, path: seq<Seg>) {
    forall i :: 0 <= i < |path| ==> !Nullish(WalkOpt(v, path[..i]))
  }

  /** The `i`-th value the chain reads a property of is the first nullish one. */
  predicate FirstNullishAt(v: Option<Json>, path: seq<Seg>, i: nat) {
    && i < |path|
    && Nullish(WalkOpt(v, path[..i]))
    && forall k :: 0 <= k < i ==> !Nullish(WalkOpt(v, path[..k]))
  }

  /**
   * A chain of plain reads succeeds exactly when no intermediate value is
   * nullish; it then yields what the optional chain yields, and otherwise it
   * throws the TypeError of the first nullish intermediate value.
   */
  lemma {:induction false} WalkSucceedsIff(v: Option<Json>, path: seq<Seg>)
    ensures Walk(v, path).Success? <==> Clear(v, path)
    ensures Walk(v, path).Success? ==> Walk(v, path).value == WalkOpt(v, path)
    ensures Walk(v, path).Failure? ==>
      exists i: nat :: FirstNullishAt(v, path, i)
        && Walk(v, path).error == ReadError(WalkOpt(v, path[..i]), path[i])
    decreases |path|
  {
    if path != [] {
      var w := ReadOpt(v, path[0]);
      var tail := path[1..];
      ClearStep(v, path);
      if Nullish(v) {
        assert WalkOpt(v, path[..0]) == v;
        assert FirstNullishAt(v, path, 0);
      } else {
        WalkSucceedsIff(w, tail);
        assert Walk(v, path) == Walk(w, tail);
        if Walk(v, path).Failure? {
          var j: nat :| FirstNullishAt(w, tail, j)
            && Walk(w, tail).error == ReadError(WalkOpt(w, tail[..j]), tail[j]);
          FirstNullishStep(v, path, j);
          WalkOptStep(v, path, j);
          assert path[j + 1] == tail[j];
        }
      }
    }
  }

  /** A chain is clear when its start is not nullish and the chain from the first read on is clear. */
  lemma ClearStep(v: Option<Json>, path: seq<Seg>)
    requires path != []
    ensures Clear(v, path) <==> !Nullish(v) && Clear(ReadOpt(v, path[0]), path[1..])
  {
    var w := ReadOpt(v, path[0]);
    var tail := path[1..];
    assert WalkOpt(v, path[..0]) == v;
    if Clear(v, path) {
      forall i | 0 <= i < |tail|
        ensures !Nullish(WalkOpt(w, tail[..i]))
      {
        WalkOptStep(v, path, i);
      }
    }
    if !Nullish(v) && Clear(w, tail) {
      forall i | 0 <= i < |path|
        ensures !Nullish(WalkOpt(v, path[..i]))
      {
        if i > 0 {
          WalkOptStep(v, path, i - 1);
        }
      }
    }
  }

  /** The first nullish value of the chain after one read is the next one along the whole chain. */
  lemma FirstNullishStep(v: Option<Json>, path: seq<Seg>, j: nat)
    requires path != [] && !Nullish(v) && FirstNullishAt(ReadOpt(v, path[0]), path[1..], j)
    ensures FirstNullishAt(v, path, j + 1)
  {
    assert WalkOpt(v, path[..0]) == v;
    WalkOptStep(v, path, j);
    forall k | 0 <= k < j + 1
      ensures !Nullish(WalkOpt(v, path[..k]))
    {
      if k > 0 {
        WalkOptStep(v, path, k - 1);
      }
    }
  }

  /** An optional chain one step longer reads the first step, then the rest. */
  lemma WalkOptStep(v: Option<Json>, path: seq<Seg>, i: nat)
    requires i < |path|
    ensures WalkOpt(v, path[..i + 1]) == WalkOpt(ReadOpt(v, path[0]), path[1..][..i])
  {
    assert path[..i + 1][0] == path[0] && path[..i + 1][1..] == path[1..][..i];
  }

  /** Hexadecimal digit, lower case, as `JSON.stringify` writes it. */
  function HexDigit(d: nat): char
    requires d < 16
  {
    "0123456789abcdef"[d]
  }

  /** How `JSON.stringify` writes one character of a string. */
  function EscapeChar(c: char): string {
    if c == '"' then "\\\""
    else if c == '\\' then "\\\\"
    else if c == '\n' then "\\n"
    else if c == '\r' then "\\r"
    else if c == '\t' then "\\t"
    else if c == '\U{8}' then "\\b"
    else if c == '\U{C}' then "\\f"
    else if (c as int) < 0x20 then "\\u00" + [HexDigit(c as int / 16), HexDigit(c as int % 16)]
    else [c]
  }

  function Escape(s: string): string {
    if s == [] then "" else EscapeChar(s[0]) + Escape(s[1..])
  }

  function Quote(s: string): string {
    "\"" + Escape(s) + "\""
  }

  /** `JSON.stringify(j)` with no indentation. */
  function Stringify(j: Json): string
    decreases j
  {
    match j
    case JNull => "null"
    case JBool(b) => if b then "true" else "false"
    case JNum(n) => IntToString(n)
    case JStr(s) => Quote(s)
    case JArr(items) =>
      "[" + Join(seq(|items|, i requires 0 <= i < |items| => Stringify(items[i])), ",") + "]"
    case JObj(members) =>
      "{" + Join(seq(|members|, i requires 0 <= i < |members| =>
                   Quote(members[i].0) + ":" + Stringify(members[i].1)), ",") + "}"
  }

  /** `String(j)`, the conversion a template literal `${j}` applies. */
  function ToJsString(j: Json): string
    decreases j
  {
    match j
    case JNull => "null"
    case JBool(b) => if b then "true" else "false"
    case JNum(n) => IntToString(n)
    case JStr(s) => s
    case JArr(items) =>
      Join(seq(|items|, i requires 0 <= i < |items| =>
             if items[i] == JNull then "" else ToJsString(items[i])), ",")
    case JObj(_) => "[object Object]"
  }
}
