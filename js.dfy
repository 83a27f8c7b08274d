/** The JavaScript value rules the handlers rely on: values that may be
    `undefined`, truthiness of strings, `||` defaulting, `toLowerCase` on
    the ASCII letters, `startsWith`, and property lookup on an object
    literal (which also finds the members every object inherits). */
module Js {

  /** A value that may be `undefined` (or `null`). */
  datatype Option<+T> = None | Some(value: T)

  /** A string-or-undefined is truthy when it is present and non-empty. */
  predicate Truthy(s: Option<string>) {
    s.Some? && s.value != ""
  }

  /** The result of decoding a body as JSON: the value, or the text of the
      exception `JSON.parse` (or `Response.json()`) throws. */
  datatype Decoded<+T> = Parsed(value: T) | Unparsable(description: string)

  /** `s || fallback` on a string-or-undefined. */
  function Or(s: Option<string>, fallback: string): string {
    if Truthy(s) then s.value else fallback
  }

  /** `s || null` (and `s || undefined`): a falsy string becomes absent. */
  function OrNull(s: Option<string>): Option<string> {
    if Truthy(s) then s else None
  }

  /** `s.startsWith(prefix)` */
  predicate StartsWith(s: string, prefix: string) {
    |prefix| <= |s| && s[..|prefix|] == prefix
  }

  /** `toLowerCase` on one character: ASCII upper-case letters only. */
  function LowerChar(c: char): char {
    if 'A' <= c <= 'Z' then (c as int + 32) as char else c
  }

  /** `s.toLowerCase()`: every character lowered, length kept. */
  function Lower(s: string): (r: string)
    ensures |r| == |s|
    ensures forall i :: 0 <= i < |s| ==> r[i] == LowerChar(s[i])
  {
    if s == [] then [] else [LowerChar(s[0])] + Lower(s[1..])
  }

  /** Lower-casing twice is lower-casing once. */
  lemma LowerIdempotent(s: string)
    ensures Lower(Lower(s)) == Lower(s)
  {
  }

  /** A string without upper-case ASCII letters is its own lower case. */
  lemma LowerOfLower(s: string)
    requires forall i :: 0 <= i < |s| ==> !('A' <= s[i] <= 'Z')
    ensures Lower(s) == s
  {
  }

  /** The names every plain object inherits from `Object.prototype`; reading
      one of them from an object literal that does not define it yields a
      function (or, for `__proto__`, the prototype object itself). */
  const ObjectPrototypeMembers: set<string> :=
    {"constructor", "hasOwnProperty", "isPrototypeOf", "propertyIsEnumerable",
     "toLocaleString", "toString", "valueOf", "__proto__",
     "__defineGetter__", "__defineSetter__", "__lookupGetter__", "__lookupSetter__"}

  /** What `obj[key]` yields on an object literal. */
  datatype Property<+T> = Own(value: T) | Inherited(name: string) | Missing

  /** `obj[key]` on an object literal whose own fields are `fields`. */
  function Lookup<T>(fields: map<string, T>, key: string): (p: Property<T>)
    ensures p.Own? <==> key in fields
    ensures p.Own? ==> p.value == fields[key]
    ensures p.Inherited? <==> key !in fields && key in ObjectPrototypeMembers
    ensures p.Inherited? ==> p.name == key
  {
    if key in fields then Own(fields[key])
    else if key in ObjectPrototypeMembers then Inherited(key)
    else Missing
  }

  /** `String(v)` for an inherited member `v`: a native function prints as
      its source text (the `constructor` member is the function `Object`),
      the prototype object as "[object Object]". */
  function InheritedToString(name: string): string {
    if name == "__proto__" then "[object Object]"
    else if name == "constructor" then "function Object() { [native code] }"
    else "function " + name + "() { [native code] }"
  }

  /** An inherited member never prints with a prefix that starts with
      neither 'f' nor '['. */
  lemma InheritedNotPrefixed(name: string, prefix: string)
    requires |prefix| > 0 && prefix[0] != 'f' && prefix[0] != '['
    ensures !StartsWith(InheritedToString(name), prefix)
  {
    var shown := InheritedToString(name);
    assert shown[0] == 'f' || shown[0] == '[';
  }
}

/** The process environment the handlers read, as one immutable record:
    every variable may be unset. */
module Config {
  import opened Js

  datatype Env = Env(
    stripeSecretKey: Option<string>,         // STRIPE_SECRET_KEY
    stripeWebhookSecret: Option<string>,     // STRIPE_WEBHOOK_SECRET
    supabaseUrl: Option<string>,             // SUPABASE_URL
    supabaseAnonKey: Option<string>,         // SUPABASE_ANON_KEY
    supabaseServiceRoleKey: Option<string>,  // SUPABASE_SERVICE_ROLE_KEY
    priceStarter: Option<string>,            // ICONYX_PRICE_STARTER
    pricePro: Option<string>,                // ICONYX_PRICE_PRO
    priceStudio: Option<string>,             // ICONYX_PRICE_STUDIO
    siteUrl: Option<string>                  // SITE_URL
  )

  /** The three purchasable plan keys, shared by checkout and webhook. */
  const PlanKeys: set<string> := {"starter", "pro", "studio"}
}

/** Extraction of the bearer token from an `Authorization` header, written
    identically in the balance and the spend handler. */
module Bearer {
  import opened Js

  const Prefix := "Bearer "

  /** `authHeader.startsWith("Bearer ") ? authHeader.slice(7) : null`,
      where `authHeader` is the header or "". */
  function Token(authorization: Option<string>): (t: Option<string>)
    ensures t.Some? <==> authorization.Some? && StartsWith(authorization.value, Prefix)
    ensures t.Some? ==> Prefix + t.value == authorization.value
  {
    var header := Or(authorization, "");
    if StartsWith(header, Prefix) then Some(header[|Prefix|..]) else None
  }

  /** The token that a client sends as "Bearer <t>" is the one extracted. */
  lemma TokenOfBearer(t: string)
    ensures Token(Some(Prefix + t)) == Some(t)
  {
    assert (Prefix + t)[|Prefix|..] == t;
  }

  /** A token is usable (truthy) exactly when the header is "Bearer "
      followed by at least one character. */
  lemma UsableToken(authorization: Option<string>)
    ensures Truthy(Token(authorization)) <==>
      authorization.Some? && |authorization.value| > |Prefix| && StartsWith(authorization.value, Prefix)
  {
  }
}
