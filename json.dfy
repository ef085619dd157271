/**
 * JavaScript values as the handlers see them: parsed JSON request bodies,
 * store rows and response bodies. An object is a map from keys to values, so
 * a key that is absent is JavaScript's `undefined`; key order is not kept.
 */
module Json {
  import opened Wrappers
  import Text

  /** Conversions the JavaScript runtime performs on a value before it is stored or sent. */
  datatype Conv =
    | ToDate       // new Date(arg)
    | ParseFloat   // parseFloat(arg)
    | IsoString    // new Date(arg).toISOString()

  datatype Json =
    | JNull
    | JBool(b: bool)
    | JNum(n: int)
    | JStr(s: string)
    | JArr(items: seq<Json>)
    | JObj(fields: map<string, Json>)
    | JConv(conv: Conv, arg: Json)

  /** A parsed JSON object: a request body, a create or an update payload. */
  type Body = map<string, Json>

  /** `obj.key`, with None for `undefined`. */
  function Get(obj: Body, key: string): (r: Option<Json>)
    ensures r.Some? <==> key in obj
    ensures r.Some? ==> r.value == obj[key]
  {
    if key in obj then Some(obj[key]) else None
  }

  /** `row.key` for a value that should be an object; anything else has no fields. */
  function Field(row: Json, key: string): Option<Json> {
    if row.JObj? then Get(row.fields, key) else None
  }

  /** JavaScript truthiness, with None standing for `undefined`. */
  predicate Truthy(v: Option<Json>) {
    match v
    case None => false
    case Some(JNull) => false
    case Some(JBool(b)) => b
    case Some(JNum(n)) => n != 0
    case Some(JStr(s)) => s != []
    case Some(_) => true
  }

  /** `a || b`. */
  function Or(a: Option<Json>, b: Option<Json>): (r: Option<Json>)
    ensures Truthy(a) ==> r == a
    ensures !Truthy(a) ==> r == b
  {
    if Truthy(a) then a else b
  }

  /** A destructuring default `{ key = d } = obj`: only `undefined` is replaced. */
  function GetOrDefault(obj: Body, key: string, d: Json): (r: Json)
    ensures key in obj ==> r == obj[key]
    ensures key !in obj ==> r == d
  {
    if key in obj then obj[key] else d
  }

  /** Adds member `key: v` to an object literal; an `undefined` member is left out,
      as the store and JSON.stringify treat it. */
  function Put(obj: Body, key: string, v: Option<Json>): (r: Body)
    ensures v.Some? ==> r == obj[key := v.value]
    ensures v.None? ==> r == obj
  {
    if v.Some? then obj[key := v.value] else obj
  }

  function Str(s: string): Json { JStr(s) }

  /** `{ error: msg }`. */
  function ErrorBody(msg: string): Json {
    JObj(map["error" := JStr(msg)])
  }

  /** Calls `toUpperCase()` on a value: only a string has it, so anything else throws. */
  function UpperValue(v: Json): (r: Fallible<Json>)
    ensures r.Ok? <==> v.JStr?
  {
    if v.JStr? then Ok(JStr(Text.Upper(v.s))) else Threw
  }

  /** The string inside a value on which a string method is called: anything else throws. */
  function StringValue(v: Option<Json>): (r: Fallible<string>)
    ensures r.Ok? <==> v.Some? && v.value.JStr?
  {
    if v.Some? && v.value.JStr? then Ok(v.value.s) else Threw
  }
  /** The white space and line terminators `Number(text)` strips from both ends. */
  predicate IsJsSpace(c: char) {
    c in {' ', '\t', '\n', '\r', '\U{000B}', '\U{000C}', '\U{00A0}', '\U{1680}', '\U{2028}', '\U{2029}',
          '\U{202F}', '\U{205F}', '\U{3000}', '\U{FEFF}'}
    || '\U{2000}' <= c <= '\U{200A}'
  }

  function TrimStart(s: string): (r: string)
    ensures |r| <= |s| && (r == [] || !IsJsSpace(r[0]))
    decreases |s|
  {
    if s != [] && IsJsSpace(s[0]) then TrimStart(s[1..]) else s
  }

  function TrimEnd(s: string): (r: string)
    ensures |r| <= |s| && (r == [] || !IsJsSpace(r[|r| - 1]))
    decreases |s|
  {
    if s != [] && IsJsSpace(s[|s| - 1]) then TrimEnd(s[..|s| - 1]) else s
  }

  /** `Number(text)` for an integer text: empty or blank text is 0, an optional sign and decimal
      digits are their value; None stands for NaN and for the number syntaxes not modelled
      (fractions, exponents, hexadecimal, octal and binary literals, `Infinity`). */
  function StringNumber(text: string): Option<int> {
    var t := TrimEnd(TrimStart(text));
    if t == [] then Some(0)
    else if Text.IsDecimal(t) then Some(Text.DecimalValue(t) as int)
    else if t[0] == '+' && Text.IsDecimal(t[1..]) then Some(Text.DecimalValue(t[1..]) as int)
    else if t[0] == '-' && Text.IsDecimal(t[1..]) then Some(-(Text.DecimalValue(t[1..]) as int))
    else None
  }

  /** The number a relational comparison such as `v > now` converts a parsed JSON value to: null and
      false are 0, true is 1, text as `Number(text)`, an array through its `join(',')` text (so an empty
      array is 0, one element is read as its own text and two or more are NaN); an object is NaN. */
  function NumberValue(v: Json): (r: Option<int>)
    ensures v.JNum? ==> r == Some(v.n)
    ensures v.JArr? && |v.items| >= 2 ==> r.None?
    decreases v
  {
    match v
    case JNull => Some(0)
    case JBool(b) => Some(if b then 1 else 0)
    case JNum(n) => Some(n)
    case JStr(s) => StringNumber(s)
    case JArr(items) =>
      if |items| == 0 then Some(0)
      else if |items| >= 2 then None
      else if items[0].JBool? then None
      else NumberValue(items[0])
    case JObj(_) => None
    case JConv(_, _) => None
  }


  /** Decimal digits are not white space, so a digit string is its own trimmed text. */
  lemma TrimDigits(t: string)
    requires Text.IsDecimal(t)
    ensures TrimEnd(TrimStart(t)) == t
  {
    assert Text.IsDigit(t[0]) && Text.IsDigit(t[|t| - 1]);
  }

  /** A digit string converts to its decimal value, and with a leading `-` to its negation. */
  lemma StringNumberOfDigits(t: string)
    requires Text.IsDecimal(t)
    ensures StringNumber(t) == Some(Text.DecimalValue(t))
    ensures StringNumber("-" + t) == Some(-(Text.DecimalValue(t) as int))
  {
    TrimDigits(t);
    var m := "-" + t;
    assert m[1..] == t;
    assert !IsJsSpace(m[0]) && m[|m| - 1] == t[|t| - 1] && Text.IsDigit(t[|t| - 1]);
    assert TrimEnd(TrimStart(m)) == m;
    assert !Text.IsDigit(m[0]);
  }

  /** A digit string, alone or as the single element of an array, converts to its value. */
  lemma NumberValueOfDigits(t: string)
    requires Text.IsDecimal(t)
    ensures NumberValue(JStr(t)) == Some(Text.DecimalValue(t) as int)
    ensures NumberValue(JArr([JStr(t)])) == Some(Text.DecimalValue(t) as int)
    ensures NumberValue(JStr("-" + t)) == Some(-(Text.DecimalValue(t) as int))
  {
    StringNumberOfDigits(t);
    assert [JStr(t)][0] == JStr(t);
  }

  /** A number's decimal text, alone or as the single element of an array, converts back to the
      number, and with a leading `-` to its negation. */
  lemma NumberValueOfDecimalText(n: nat)
    ensures NumberValue(JStr(Text.NatToString(n))) == Some(n)
    ensures NumberValue(JArr([JStr(Text.NatToString(n))])) == Some(n)
    ensures NumberValue(JStr("-" + Text.NatToString(n))) == Some(-(n as int))
    ensures NumberValue(JArr([JNum(n)])) == Some(n)
  {
    var t := Text.NatToString(n);
    Text.DecimalOfNatToString(n);
    NumberValueOfDigits(t);
    assert [JNum(n)][0] == JNum(n);
  }

  /** Blank text and an empty array compare as 0. */
  lemma NumberValueOfBlank()
    ensures NumberValue(JStr(" \t")) == Some(0) && NumberValue(JArr([])) == Some(0)
  {
    assert IsJsSpace(' ') && IsJsSpace('\t');
    assert TrimStart(" \t") == TrimStart("\t") == TrimStart([]) == [];
  }
}
