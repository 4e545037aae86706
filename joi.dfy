/** The part of the Joi validation library the handlers use: an object
    schema maps each allowed key to a rule, and `Accepts` is the verdict of
    `schema.validate(body)` (no `error` when it holds). */
module Joi {
  import opened Common

  /** A JSON value as it arrives in a parsed request body. Numbers are
      modelled as integers. */
  datatype Json =
    | JStr(s: string)
    | JNum(n: int)
    | JBool(b: bool)
    | JNull
    | JComposite   // an array or a nested object

  type Body = map<string, Json>

  /** `Joi.string()` with its `.min`, `.max` and `.email()` refinements, or
      `Joi.number()`. */
  datatype Kind =
    | JoiString(min: nat, max: Option<nat>, email: bool)
    | JoiNumber

  datatype Rule = Rule(kind: Kind, required: bool)

  type Schema = map<string, Rule>

  /** `value.length` of a JavaScript string: the number of UTF-16 code units,
      one for a character of the Basic Multilingual Plane and two (a
      surrogate pair) for a character above U+FFFF. */
  function Utf16Len(s: string): nat
  {
    if |s| == 0 then 0
    else (if s[0] as int > 0xFFFF then 2 else 1) + Utf16Len(s[1..])
  }

  /** A string has at least as many UTF-16 units as characters, and at most
      twice as many. */
  lemma {:induction false} Utf16LenBounds(s: string)
    ensures |s| <= Utf16Len(s) <= 2 * |s|
  {
    if s != [] {
      Utf16LenBounds(s[1..]);
    }
  }

  /** The two lengths agree exactly when no character lies above U+FFFF. */
  lemma {:induction false} Utf16LenBmp(s: string)
    ensures Utf16Len(s) == |s| <==> forall i :: 0 <= i < |s| ==> s[i] as int <= 0xFFFF
  {
    if s != [] {
      Utf16LenBmp(s[1..]);
      Utf16LenBounds(s[1..]);
      assert forall i :: 1 <= i < |s| ==> s[i] == s[1..][i - 1];
    }
  }

  /** `Number.MAX_SAFE_INTEGER`, 2^53 - 1. */
  const MaxSafeInteger: int := 0x1F_FFFF_FFFF_FFFF

  /** `Joi.number()` refuses a number outside the safe integer range
      (`number.unsafe`) unless told otherwise. */
  predicate SafeNumber(n: int)
  {
    -MaxSafeInteger <= n <= MaxSafeInteger
  }

  /** Whether one present value passes its rule. A Joi string must be a
      non-empty string (Joi refuses "" unless told otherwise), and `min` and
      `max` bound its JavaScript length; `null` passes no rule. */
  predicate Fits(isEmail: string -> bool, kind: Kind, v: Json)
  {
    match kind
    case JoiString(min, max, email) =>
      && v.JStr?
      && |v.s| > 0
      && min <= Utf16Len(v.s)
      && (max.Some? ==> Utf16Len(v.s) <= max.value)
      && (email ==> isEmail(v.s))
    case JoiNumber => v.JNum? && SafeNumber(v.n)
  }

  /** `Joi.object(schema).validate(body)` reports no error: every key of the
      body is declared (Joi refuses unknown keys by default), every present
      value fits its rule, and every required key is present. */
  predicate Accepts(isEmail: string -> bool, schema: Schema, body: Body)
  {
    && Admissible(isEmail, schema, body)
    && (forall k :: k in schema && schema[k].required ==> k in body)
  }

  /** Every key of the body is declared and its value fits its rule. */
  predicate Admissible(isEmail: string -> bool, schema: Schema, body: Body)
  {
    forall k :: k in body ==> k in schema && Fits(isEmail, schema[k].kind, body[k])
  }

  /** Adding a declared key with a value that fits its rule keeps a body
      admissible. */
  lemma AdmitKey(isEmail: string -> bool, schema: Schema, body: Body, k: string, v: Json)
    requires Admissible(isEmail, schema, body)
    requires k in schema && Fits(isEmail, schema[k].kind, v)
    ensures Admissible(isEmail, schema, body[k := v])
  {
  }

  /** What acceptance says of one declared key: present if required, and
      fitting its rule if present. */
  lemma AcceptedKey(isEmail: string -> bool, schema: Schema, body: Body, k: string)
    requires Accepts(isEmail, schema, body) && k in schema
    ensures schema[k].required ==> k in body
    ensures k in body ==> Fits(isEmail, schema[k].kind, body[k])
  {
  }

  /** Two admissible bodies merge into an admissible one. */
  lemma AdmissibleUnion(isEmail: string -> bool, schema: Schema, a: Body, b: Body)
    requires Admissible(isEmail, schema, a) && Admissible(isEmail, schema, b)
    ensures Admissible(isEmail, schema, a + b)
  {
  }

  /** The string a handler destructures from `req.body`, or "" when absent. */
  function StrAt(body: Body, k: string): (s: string)
    ensures k in body && body[k].JStr? ==> s == body[k].s
  {
    if k in body && body[k].JStr? then body[k].s else ""
  }

  /** An optional string field: `None` stands for `undefined`. */
  function OptStrAt(body: Body, k: string): (s: Option<string>)
    ensures s.Some? <==> k in body && body[k].JStr?
  {
    if k in body && body[k].JStr? then Some(body[k].s) else None
  }

  /** A number field, or 0 when absent. */
  function NumAt(body: Body, k: string): (n: int)
    ensures k in body && body[k].JNum? ==> n == body[k].n
  {
    if k in body && body[k].JNum? then body[k].n else 0
  }

  /** An optional number field: `None` stands for `undefined`. */
  function OptNumAt(body: Body, k: string): (n: Option<int>)
    ensures n.Some? <==> k in body && body[k].JNum?
  {
    if k in body && body[k].JNum? then Some(body[k].n) else None
  }
}
