/**
 * The values JSON.stringify walks and the text it emits (ECMA-262, section
 * 25.5.2), without indentation, together with the replacer that turns
 * every BigInt into its decimal string.
 */
module Json {
  import opened Wrappers
  import Decimal

  /** A JavaScript value as the serialiser sees it; an object is its own enumerable properties in order. */
  datatype Json =
    | JUndefined
    | JNull
    | JBool(b: bool)
    | JNum(n: int)
    | JStr(s: string)
    | JBig(i: int)
    | JArr(items: seq<Json>)
    | JObj(members: seq<Member>)

  datatype Member = Member(key: string, value: Json)

  /** Some BigInt occurs somewhere in the value. */
  predicate ContainsBig(v: Json)
    decreases v
  {
    match v
    case JBig(_) => true
    case JArr(items) => exists k :: 0 <= k < |items| && ContainsBig(items[k])
    case JObj(ms) => exists k :: 0 <= k < |ms| && ContainsBig(ms[k].value)
    case _ => false
  }

  predicate KeysDistinct(ms: seq<Member>) {
    forall i, j :: 0 <= i < j < |ms| ==> ms[i].key != ms[j].key
  }

  /** The value stored under a key: the first member that carries it. */
  function Lookup(ms: seq<Member>, key: string): Option<Json> {
    if ms == [] then None
    else if ms[0].key == key then Some(ms[0].value)
    else Lookup(ms[1..], key)
  }

  /** With distinct keys, the member at position k is what its key looks up. */
  lemma {:induction false} LookupAt(ms: seq<Member>, k: nat)
    requires KeysDistinct(ms) && k < |ms|
    ensures Lookup(ms, ms[k].key) == Some(ms[k].value)
  {
    if k > 0 {
      assert ms[1..][k - 1] == ms[k];
      LookupAt(ms[1..], k - 1);
    }
  }

  // ----- the replacer -----

  /** `(key, value) => typeof value === "bigint" ? value.toString() : value`; the key is ignored. */
  function BigIntReplacer(key: string, value: Json): (r: Json)
    ensures value.JBig? ==> r.JStr? && Decimal.ParseDecimal(r.s) == Some(value.i)
    ensures value.JBig? ==> Decimal.CanonicalDecimal(r.s)
    ensures !value.JBig? ==> r == value
  {
    Decimal.BigIntToStringRoundTrip(if value.JBig? then value.i else 0);
    if value.JBig? then JStr(Decimal.BigIntToString(value.i)) else value
  }

  /** The value with every BigInt, at any depth, replaced as the replacer does. */
  function ReplaceAll(v: Json): (r: Json)
    decreases v
  {
    match v
    case JBig(i) => JStr(Decimal.BigIntToString(i))
    case JArr(items) => JArr(seq(|items|, k requires 0 <= k < |items| => ReplaceAll(items[k])))
    case JObj(ms) => JObj(seq(|ms|, k requires 0 <= k < |ms| => Member(ms[k].key, ReplaceAll(ms[k].value))))
    case _ => v
  }

  lemma {:induction false} ReplaceAllLeavesNoBig(v: Json)
    ensures !ContainsBig(ReplaceAll(v))
    decreases v
  {
    match v
    case JArr(items) =>
      forall k | 0 <= k < |items| ensures !ContainsBig(ReplaceAll(v).items[k]) {
        ReplaceAllLeavesNoBig(items[k]);
      }
    case JObj(ms) =>
      forall k | 0 <= k < |ms| ensures !ContainsBig(ReplaceAll(v).members[k].value) {
        ReplaceAllLeavesNoBig(ms[k].value);
      }
    case _ =>
  }

  /** A value holding no BigInt is left exactly as it was. */
  lemma {:induction false} ReplaceAllWithoutBig(v: Json)
    requires !ContainsBig(v)
    ensures ReplaceAll(v) == v
    decreases v
  {
    match v
    case JArr(items) =>
      forall k | 0 <= k < |items| ensures ReplaceAll(v).items[k] == items[k] {
        ReplaceAllWithoutBig(items[k]);
      }
    case JObj(ms) =>
      forall k | 0 <= k < |ms| ensures ReplaceAll(v).members[k] == ms[k] {
        ReplaceAllWithoutBig(ms[k].value);
      }
    case _ =>
  }

  /** The replacer keeps every key where it was and replaces only the values. */
  lemma LookupAfterReplaceAll(ms: seq<Member>, k: nat)
    requires KeysDistinct(ms) && k < |ms|
    ensures ReplaceAll(JObj(ms)).members[k] == Member(ms[k].key, ReplaceAll(ms[k].value))
    ensures KeysDistinct(ReplaceAll(JObj(ms)).members)
    ensures Lookup(ReplaceAll(JObj(ms)).members, ms[k].key) == Some(ReplaceAll(ms[k].value))
  {
    var rs := ReplaceAll(JObj(ms)).members;
    assert rs[k] == Member(ms[k].key, ReplaceAll(ms[k].value));
    LookupAt(rs, k);
  }

  lemma ReplaceAllIdempotent(v: Json)
    ensures ReplaceAll(ReplaceAll(v)) == ReplaceAll(v)
  {
    ReplaceAllLeavesNoBig(v);
    ReplaceAllWithoutBig(ReplaceAll(v));
  }

  // ----- string quoting (QuoteJSONString) -----

  function HexDigit(d: nat): (c: char)
    requires d < 16
  {
    "0123456789abcdef"[d]
  }

  function HexValue(c: char): (r: Option<nat>)
    ensures r.Some? ==> r.value < 16
  {
    if '0' <= c <= '9' then Some(c as int - '0' as int)
    else if 'a' <= c <= 'f' then Some(c as int - 'a' as int + 10)
    else if 'A' <= c <= 'F' then Some(c as int - 'A' as int + 10)
    else None
  }

  /** The escape of one code point: the short escapes, \u00XX for other control characters, else the character. */
  function EscapeChar(c: char): (t: string)
    ensures |t| > 0
  {
    if c == '"' then "\\\""
    else if c == '\\' then "\\\\"
    else if c == 0x08 as char then "\\b"
    else if c == 0x0C as char then "\\f"
    else if c == '\n' then "\\n"
    else if c == '\r' then "\\r"
    else if c == '\t' then "\\t"
    else if (c as int) < 0x20 then "\\u00" + [HexDigit(c as int / 16), HexDigit(c as int % 16)]
    else [c]
  }

  function EscapeString(s: string): string {
    if s == [] then [] else EscapeChar(s[0]) + EscapeString(s[1..])
  }

  /** QuoteJSONString: the escaped characters between double quotes. */
  function Quote(s: string): (q: string)
    ensures |q| >= 2 && q[0] == '"' && q[|q| - 1] == '"'
  {
    "\"" + EscapeString(s) + "\""
  }

  /** A character QuoteJSONString writes as itself: not a quote, a backslash or a control character. */
  predicate PlainChar(c: char) {
    c != '"' && c != '\\' && (c as int) >= 0x20
  }

  /** A string with nothing to escape is quoted as itself between double quotes. */
  lemma {:induction false} QuotePlain(s: string)
    requires forall i :: 0 <= i < |s| ==> PlainChar(s[i])
    ensures EscapeString(s) == s
    ensures Quote(s) == "\"" + s + "\""
  {
    if s != [] {
      QuotePlain(s[1..]);
      assert [s[0]] + s[1..] == s;
    }
  }

  /** Reads the body of a JSON string literal back into the characters it denotes. */
  function UnescapeString(t: string): (r: Option<string>)
    decreases |t|
  {
    if t == [] then Some([])
    else if t[0] == '"' || (t[0] as int) < 0x20 then None
    else if t[0] != '\\' then Prepend(t[0], UnescapeString(t[1..]))
    else if |t| < 2 then None
    else if t[1] == '"' then Prepend('"', UnescapeString(t[2..]))
    else if t[1] == '\\' then Prepend('\\', UnescapeString(t[2..]))
    else if t[1] == '/' then Prepend('/', UnescapeString(t[2..]))
    else if t[1] == 'b' then Prepend(0x08 as char, UnescapeString(t[2..]))
    else if t[1] == 'f' then Prepend(0x0C as char, UnescapeString(t[2..]))
    else if t[1] == 'n' then Prepend('\n', UnescapeString(t[2..]))
    else if t[1] == 'r' then Prepend('\r', UnescapeString(t[2..]))
    else if t[1] == 't' then Prepend('\t', UnescapeString(t[2..]))
    else if t[1] == 'u' && |t| >= 6 then
      match (HexValue(t[2]), HexValue(t[3]), HexValue(t[4]), HexValue(t[5]))
      case (Some(a), Some(b), Some(c), Some(d)) =>
        var code := ((a * 16 + b) * 16 + c) * 16 + d;
        if 0xD800 <= code < 0xE000 then None
        else Prepend(code as char, UnescapeString(t[6..]))
      case _ => None
    else None
  }

  function Prepend(c: char, r: Option<string>): Option<string> {
    if r.Some? then Some([c] + r.value) else None
  }

  function Unquote(t: string): (r: Option<string>) {
    if |t| >= 2 && t[0] == '"' && t[|t| - 1] == '"' then UnescapeString(t[1..|t| - 1]) else None
  }

  lemma UnescapeShortEscape(c: char, rest: string)
    requires c == '"' || c == '\\' || c == 0x08 as char || c == 0x0C as char || c == '\n' || c == '\r' || c == '\t'
    ensures UnescapeString(EscapeChar(c) + rest) == Prepend(c, UnescapeString(rest))
  {
    assert (EscapeChar(c) + rest)[2..] == rest;
  }

  lemma UnescapeUnicodeEscape(c: char, rest: string)
    requires (c as int) < 0x20 && c != 0x08 as char && c != 0x0C as char && c != '\n' && c != '\r' && c != '\t'
    ensures UnescapeString(EscapeChar(c) + rest) == Prepend(c, UnescapeString(rest))
  {
    var t := EscapeChar(c) + rest;
    var hi, lo := c as int / 16, c as int % 16;
    assert hi == 0 || hi == 1;
    assert t[0] == '\\' && t[1] == 'u' && t[2] == '0' && t[3] == '0' && t[4] == HexDigit(hi) && t[5] == HexDigit(lo);
    assert HexValue(t[4]) == Some(hi) && HexValue(t[5]) == Some(lo);
    assert ((0 * 16 + 0) * 16 + hi) * 16 + lo == c as int;
    assert t[6..] == rest;
  }

  /** Unescaping reads back exactly the character an escape stands for. */
  lemma UnescapeEscapeChar(c: char, rest: string)
    ensures UnescapeString(EscapeChar(c) + rest) == Prepend(c, UnescapeString(rest))
  {
    if c == '"' || c == '\\' || c == 0x08 as char || c == 0x0C as char || c == '\n' || c == '\r' || c == '\t' {
      UnescapeShortEscape(c, rest);
    } else if (c as int) < 0x20 {
      UnescapeUnicodeEscape(c, rest);
    } else {
      assert (EscapeChar(c) + rest)[1..] == rest;
    }
  }

  lemma {:induction false} UnescapeEscapeString(s: string)
    ensures UnescapeString(EscapeString(s)) == Some(s)
  {
    if s != [] {
      UnescapeEscapeChar(s[0], EscapeString(s[1..]));
      UnescapeEscapeString(s[1..]);
      assert [s[0]] + s[1..] == s;
    }
  }

  /** Quoting loses nothing: every string is read back from its quoted form. */
  lemma UnquoteQuote(s: string)
    ensures Unquote(Quote(s)) == Some(s)
  {
    var t := Quote(s);
    assert t[1..|t| - 1] == EscapeString(s);
    UnescapeEscapeString(s);
  }

  // ----- JSON.stringify(value, replacer) without indentation -----

  function Join(parts: seq<string>): string {
    if parts == [] then ""
    else if |parts| == 1 then parts[0]
    else parts[0] + "," + Join(parts[1..])
  }

  /**
   * SerializeJSONProperty: applies the replacer when `replace` is set, then
   * renders the value; `Ok(None)` is `undefined`, which an object omits.
   * Integral Numbers are written as their decimal digits.
   */
  function SerializeProperty(key: string, value: Json, replace: bool): Result<Option<string>>
    decreases value, 1, 0
  {
    var w := if replace then BigIntReplacer(key, value) else value;
    match w
    case JUndefined => Ok(None)
    case JNull => Ok(Some("null"))
    case JBool(b) => Ok(Some(if b then "true" else "false"))
    case JNum(n) => Ok(Some(Decimal.BigIntToString(n)))
    case JStr(s) => Ok(Some(Quote(s)))
    case JBig(_) => Err(TypeError)
    case JArr(_) =>
      (match SerializeArrayFrom(w, 0, replace)
       case Ok(parts) => Ok(Some("[" + Join(parts) + "]"))
       case Err(e) => Err(e))
    case JObj(_) =>
      (match SerializeObjectFrom(w, 0, replace)
       case Ok(parts) => Ok(Some("{" + Join(parts) + "}"))
       case Err(e) => Err(e))
  }

  /** SerializeJSONArray from element k on; an `undefined` element is written as null. */
  function SerializeArrayFrom(v: Json, k: nat, replace: bool): Result<seq<string>>
    requires v.JArr? && k <= |v.items|
    decreases v, 0, |v.items| - k
  {
    if k == |v.items| then Ok([])
    else
      match SerializeProperty(Decimal.BigIntToString(k), v.items[k], replace)
      case Err(e) => Err(e)
      case Ok(o) =>
        match SerializeArrayFrom(v, k + 1, replace)
        case Err(e) => Err(e)
        case Ok(rest) => Ok([if o.Some? then o.value else "null"] + rest)
  }

  /** SerializeJSONObject from member k on; a member whose value is `undefined` is omitted. */
  function SerializeObjectFrom(v: Json, k: nat, replace: bool): Result<seq<string>>
    requires v.JObj? && k <= |v.members|
    decreases v, 0, |v.members| - k
  {
    if k == |v.members| then Ok([])
    else
      var m := v.members[k];
      match SerializeProperty(m.key, m.value, replace)
      case Err(e) => Err(e)
      case Ok(o) =>
        match SerializeObjectFrom(v, k + 1, replace)
        case Err(e) => Err(e)
        case Ok(rest) => Ok(if o.Some? then [Quote(m.key) + ":" + o.value] + rest else rest)
  }

  /** JSON.stringify(v). */
  function Stringify(v: Json): Result<Option<string>> {
    SerializeProperty("", v, false)
  }

  /** JSON.stringify(v, BigIntReplacer). */
  function StringifyReplacingBigInts(v: Json): Result<Option<string>> {
    SerializeProperty("", v, true)
  }

  // ----- what the replacer buys -----

  lemma {:induction false} PropertyThrowsIffBig(key: string, v: Json)
    ensures SerializeProperty(key, v, false).Err? <==> ContainsBig(v)
    decreases v, 1, 0
  {
    match v
    case JArr(items) => ArrayThrowsIffBig(v, 0);
    case JObj(ms) => ObjectThrowsIffBig(v, 0);
    case _ =>
  }

  lemma {:induction false} ArrayThrowsIffBig(v: Json, k: nat)
    requires v.JArr? && k <= |v.items|
    ensures SerializeArrayFrom(v, k, false).Err? <==> exists j :: k <= j < |v.items| && ContainsBig(v.items[j])
    decreases v, 0, |v.items| - k
  {
    if k < |v.items| {
      PropertyThrowsIffBig(Decimal.BigIntToString(k), v.items[k]);
      ArrayThrowsIffBig(v, k + 1);
      assert (exists j :: k <= j < |v.items| && ContainsBig(v.items[j]))
        <==> ContainsBig(v.items[k]) || exists j :: k + 1 <= j < |v.items| && ContainsBig(v.items[j]);
    }
  }

  lemma {:induction false} ObjectThrowsIffBig(v: Json, k: nat)
    requires v.JObj? && k <= |v.members|
    ensures SerializeObjectFrom(v, k, false).Err? <==> exists j :: k <= j < |v.members| && ContainsBig(v.members[j].value)
    decreases v, 0, |v.members| - k
  {
    if k < |v.members| {
      PropertyThrowsIffBig(v.members[k].key, v.members[k].value);
      ObjectThrowsIffBig(v, k + 1);
      assert (exists j :: k <= j < |v.members| && ContainsBig(v.members[j].value))
        <==> ContainsBig(v.members[k].value) || exists j :: k + 1 <= j < |v.members| && ContainsBig(v.members[j].value);
    }
  }

  /** Without a replacer, JSON.stringify throws a TypeError exactly when a BigInt is present. */
  lemma StringifyThrowsIffBig(v: Json)
    ensures Stringify(v) == Err(TypeError) <==> ContainsBig(v)
  {
    PropertyThrowsIffBig("", v);
  }

  lemma {:induction false} PropertyReplacerIsReplaceAll(key: string, v: Json)
    ensures SerializeProperty(key, v, true) == SerializeProperty(key, ReplaceAll(v), false)
    decreases v, 1, 0
  {
    match v
    case JArr(items) => ArrayReplacerIsReplaceAll(v, 0);
    case JObj(ms) => ObjectReplacerIsReplaceAll(v, 0);
    case _ =>
  }

  lemma {:induction false} ArrayReplacerIsReplaceAll(v: Json, k: nat)
    requires v.JArr? && k <= |v.items|
    ensures ReplaceAll(v).JArr? && |ReplaceAll(v).items| == |v.items|
    ensures SerializeArrayFrom(v, k, true) == SerializeArrayFrom(ReplaceAll(v), k, false)
    decreases v, 0, |v.items| - k
  {
    if k < |v.items| {
      PropertyReplacerIsReplaceAll(Decimal.BigIntToString(k), v.items[k]);
      ArrayReplacerIsReplaceAll(v, k + 1);
    }
  }

  lemma {:induction false} ObjectReplacerIsReplaceAll(v: Json, k: nat)
    requires v.JObj? && k <= |v.members|
    ensures ReplaceAll(v).JObj? && |ReplaceAll(v).members| == |v.members|
    ensures SerializeObjectFrom(v, k, true) == SerializeObjectFrom(ReplaceAll(v), k, false)
    decreases v, 0, |v.members| - k
  {
    if k < |v.members| {
      PropertyReplacerIsReplaceAll(v.members[k].key, v.members[k].value);
      ObjectReplacerIsReplaceAll(v, k + 1);
    }
  }

  /**
   * Serialising with the replacer is serialising the value with every BigInt
   * already turned into its decimal string, and it never throws.
   */
  lemma StringifyReplacingBigIntsNeverThrows(v: Json)
    ensures StringifyReplacingBigInts(v) == Stringify(ReplaceAll(v))
    ensures StringifyReplacingBigInts(v).Ok?
  {
    PropertyReplacerIsReplaceAll("", v);
    ReplaceAllLeavesNoBig(v);
    StringifyThrowsIffBig(ReplaceAll(v));
  }

  // ----- what the text shows -----

  /** The n characters of s from position i. */
  function Window(s: string, i: nat, n: nat): string
    requires i + n <= |s|
  {
    s[i..i + n]
  }

  /** p occurs in s at some position. */
  predicate Occurs(p: string, s: string) {
    exists i: nat :: i + |p| <= |s| && Window(s, i, |p|) == p
  }

  lemma OccursWithin(p: string, s: string, a: string, b: string)
    requires Occurs(p, s)
    ensures Occurs(p, a + s + b)
  {
    var i: nat :| i + |p| <= |s| && Window(s, i, |p|) == p;
    assert Window(a + s + b, |a| + i, |p|) == p;
  }

  /** Every part is spelled out in the comma-joined text. */
  lemma {:induction false} JoinShowsPart(parts: seq<string>, j: nat)
    requires j < |parts|
    ensures Occurs(parts[j], Join(parts))
  {
    var s := Join(parts);
    if j == 0 {
      assert Window(s, 0, |parts[0]|) == parts[0];
    } else {
      assert parts[1..][j - 1] == parts[j];
      JoinShowsPart(parts[1..], j - 1);
      OccursWithin(parts[j], Join(parts[1..]), parts[0] + ",", "");
      assert s == parts[0] + "," + Join(parts[1..]) + "";
    }
  }

  /** A serialised object lists `"key":value` for each member whose value is not `undefined`. */
  lemma {:induction false} ObjectShowsMember(v: Json, k: nat, j: nat, t: string)
    requires v.JObj? && k <= j < |v.members|
    requires SerializeObjectFrom(v, k, false).Ok?
    requires SerializeProperty(v.members[j].key, v.members[j].value, false) == Ok(Some(t))
    ensures Quote(v.members[j].key) + ":" + t in SerializeObjectFrom(v, k, false).value
    decreases j - k
  {
    if k < j {
      ObjectShowsMember(v, k + 1, j, t);
    }
  }

  /** The text of an object shows `"key":value` for each member whose value serialises to text. */
  lemma StringifyShowsMember(v: Json, j: nat, t: string)
    requires v.JObj? && j < |v.members| && Stringify(v).Ok?
    requires SerializeProperty(v.members[j].key, v.members[j].value, false) == Ok(Some(t))
    ensures Stringify(v).value.Some? && Occurs(Quote(v.members[j].key) + ":" + t, Stringify(v).value.value)
  {
    var parts := SerializeObjectFrom(v, 0, false).value;
    ObjectShowsMember(v, 0, j, t);
    var p := Quote(v.members[j].key) + ":" + t;
    var i :| 0 <= i < |parts| && parts[i] == p;
    JoinShowsPart(parts, i);
    OccursWithin(p, Join(parts), "{", "}");
  }

  /** An integral Number is written as its decimal digits. */
  lemma SerializeNumber(key: string, n: int)
    ensures SerializeProperty(key, JNum(n), false) == Ok(Some(Decimal.BigIntToString(n)))
  {
  }
}
