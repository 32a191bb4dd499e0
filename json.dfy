/**
 * Decoded JSON values as the client sees them after `json.loads`, and the
 * few pieces of Python semantics the client applies to them: truthiness,
 * the `in` operator with a string on its left, and `text in str(value)`.
 *
 * Booleans, integers and strings are distinct constructors, so `true`, `1`
 * and `"true"` never compare equal. There are no floats.
 */
module Json {

  datatype Option<T> = None | Some(value: T)

  datatype Json =
    | JNull
    | JBool(b: bool)
    | JInt(i: int)
    | JStr(s: string)
    | JList(items: seq<Json>)
    | JObject(fields: map<string, Json>)

  /** Python's `bool(v)`: null, false, 0, "", [] and {} are falsy. */
  predicate Truthy(v: Json) {
    match v
    case JNull => false
    case JBool(b) => b
    case JInt(i) => i != 0
    case JStr(s) => s != []
    case JList(xs) => xs != []
    case JObject(m) => m != map[]
  }

  /** A value Python can use as a dict key (lists and dicts are unhashable). */
  predicate Hashable(v: Json) {
    !v.JList? && !v.JObject?
  }

  /** `sub` occurs in `s` starting at position `i`. */
  ghost predicate OccursAt(s: string, sub: string, i: int) {
    0 <= i && i + |sub| <= |s| && s[i..i + |sub|] == sub
  }

  /** Python's `sub in s` on two strings, by scanning `s` from the left. */
  function ContainsText(s: string, sub: string): bool
    decreases |s|
  {
    if sub <= s then true
    else if s == [] then false
    else ContainsText(s[1..], sub)
  }

  lemma {:induction false} ContainsTextIsSubstring(s: string, sub: string)
    ensures ContainsText(s, sub) <==> exists i :: OccursAt(s, sub, i)
    decreases |s|
  {
    if sub <= s {
      assert OccursAt(s, sub, 0);
    } else if s != [] {
      ContainsTextIsSubstring(s[1..], sub);
      if exists i :: OccursAt(s[1..], sub, i) {
        var i :| OccursAt(s[1..], sub, i);
        assert s[i + 1..i + 1 + |sub|] == s[1..][i..i + |sub|];
        assert OccursAt(s, sub, i + 1);
      }
      if exists i :: OccursAt(s, sub, i) {
        var i :| OccursAt(s, sub, i);
        assert s[1..][i - 1..i - 1 + |sub|] == s[i..i + |sub|];
        assert OccursAt(s[1..], sub, i - 1);
      }
    }
  }

  /**
   * Python's `needle in container` for a string needle: substring test on a
   * str, element test on a list, key test on a dict. On any other type
   * Python raises TypeError, modelled as None.
   */
  function PyIn(needle: string, container: Json): Option<bool> {
    match container
    case JStr(s) => Some(ContainsText(s, needle))
    case JList(xs) => Some(JStr(needle) in xs)
    case JObject(m) => Some(needle in m)
    case _ => None
  }

  /**
   * `text in str(v)` for a `text` made of letters and spaces (such as
   * "Session expired"): the repr of a JSON value contains such a text exactly
   * when one of the strings inside it, a dict key or a string value,
   * contains it, since quotes, brackets, commas and escapes separate them.
   */
  predicate Mentions(v: Json, text: string)
    decreases v
  {
    match v
    case JStr(s) => ContainsText(s, text)
    case JList(xs) => exists x :: x in xs && Mentions(x, text)
    case JObject(m) => exists k :: k in m && (ContainsText(k, text) || Mentions(m[k], text))
    case _ => false
  }

  /** The JSON list of the given strings, in order. */
  function JStrings(ss: seq<string>): Json {
    JList(seq(|ss|, i requires 0 <= i < |ss| => JStr(ss[i])))
  }

  /** The strings of a JSON list of strings; None for anything else. */
  function AsStrings(v: Json): Option<seq<string>> {
    match v
    case JList(xs) => StringsOf(xs)
    case _ => None
  }

  function StringsOf(xs: seq<Json>): Option<seq<string>>
    decreases |xs|
  {
    if xs == [] then Some([])
    else if !xs[0].JStr? then None
    else match StringsOf(xs[1..])
      case None => None
      case Some(rest) => Some([xs[0].s] + rest)
  }

  /** Decoding the encoded list gives back the same strings in the same order. */
  lemma {:induction false} StringsRoundTrip(ss: seq<string>)
    ensures AsStrings(JStrings(ss)) == Some(ss)
    decreases |ss|
  {
    var xs := JStrings(ss).items;
    if ss != [] {
      StringsRoundTrip(ss[1..]);
      assert xs[1..] == JStrings(ss[1..]).items;
      assert [ss[0]] + ss[1..] == ss;
    }
  }
}
