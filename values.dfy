/** Values shared by every part of the bot: an optional value, decoded JSON
    as the webhook delivers it, and the few Python behaviours the handlers
    rely on when they look inside such a value. */
module Values {

  datatype Option<+T> = None | Some(value: T)

  /** A decoded JSON value. Numbers are integers only. */
  datatype Json =
    | JNull
    | JBool(b: bool)
    | JNum(n: int)
    | JStr(s: string)
    | JArr(items: seq<Json>)
    | JObj(fields: map<string, Json>)

  /** Python accepts a value as a dict key only when it is hashable; the
      lists and dicts a JSON decoder produces are not. */
  predicate Hashable(j: Json)
  {
    !j.JArr? && !j.JObj?
  }

  /** `j[key]`: None stands for the exception Python raises when `j` is not a
      dict (TypeError) or has no such key (KeyError). */
  function Index(j: Json, key: string): (r: Option<Json>)
    ensures r.Some? <==> j.JObj? && key in j.fields
    ensures r.Some? ==> r.value == j.fields[key]
  {
    if j.JObj? && key in j.fields then Some(j.fields[key]) else None
  }

  /** `j.get(key, default)`: None stands for the AttributeError Python raises
      when `j` is not a dict and so has no `get`. */
  function GetOr(j: Json, key: string, default: Json): (r: Option<Json>)
    ensures r.Some? <==> j.JObj?
    ensures j.JObj? && key !in j.fields ==> r == Some(default)
  {
    if !j.JObj? then None
    else if key in j.fields then Some(j.fields[key])
    else Some(default)
  }

  /** Lower-case mapping of one character, for Basic Latin and the Cyrillic
      capitals U+0400..U+042F (the scripts of the bot's start words). */
  function LowerChar(c: char): char
  {
    if 'A' <= c <= 'Z' then (c as int + 32) as char
    else if '\U{0410}' <= c <= '\U{042F}' then (c as int + 32) as char
    else if '\U{0400}' <= c <= '\U{040F}' then (c as int + 80) as char
    else c
  }

  /** Upper-case mapping of one character, the inverse of LowerChar on the
      letters LowerChar produces. */
  function UpperChar(c: char): char
  {
    if 'a' <= c <= 'z' then (c as int - 32) as char
    else if '\U{0430}' <= c <= '\U{044F}' then (c as int - 32) as char
    else if '\U{0450}' <= c <= '\U{045F}' then (c as int - 80) as char
    else c
  }

  /** `s.lower()`, character by character. */
  function Lower(s: string): (r: string)
    ensures |r| == |s|
  {
    seq(|s|, i requires 0 <= i < |s| => LowerChar(s[i]))
  }

  /** `s.upper()`, character by character. */
  function Upper(s: string): (r: string)
    ensures |r| == |s|
  {
    seq(|s|, i requires 0 <= i < |s| => UpperChar(s[i]))
  }

  /** Lower-casing is idempotent and ignores a prior upper-casing: a text,
      its upper-case form and its lower-case form all lower-case alike. */
  lemma LowerAbsorbs(s: string)
    ensures Lower(Lower(s)) == Lower(s)
    ensures Lower(Upper(s)) == Lower(s)
  {
  }
}
