/** A small model of the Python values that configuration directives carry,
    and of the built-in operations the settings code applies to them:
    truthiness, `dict.get`, `str.upper` and `str.join`. */
module PyValues {

  /** A keyword-argument value: a string, a boolean, an integer, a float or None. */
  datatype Value =
    | Str(s: string)
    | Bool(b: bool)
    | Int(i: int)
    | Float(f: real)
    | NoneV

  /** Python truthiness, as tested by `if value:`. */
  predicate Truthy(v: Value) {
    match v
    case Str(s) => s != ""
    case Bool(b) => b
    case Int(i) => i != 0
    case Float(f) => f != 0.0
    case NoneV => false
  }

  /** `kwargs.get(key)`: the value under `key`, or None when the key is absent. */
  function Get(kwargs: map<string, Value>, key: string): Value {
    if key in kwargs then kwargs[key] else NoneV
  }

  /** Upper-casing of one character; only the ASCII letters change. */
  function UpperChar(c: char): char {
    if 'a' <= c <= 'z' then (c as int - 32) as char else c
  }

  /** `s.upper()`, restricted to ASCII letters. */
  function Upper(s: string): string {
    seq(|s|, i requires 0 <= i < |s| => UpperChar(s[i]))
  }

  /** `sep.join(parts)`. */
  function Join(parts: seq<string>, sep: string): string {
    if |parts| == 0 then ""
    else if |parts| == 1 then parts[0]
    else parts[0] + sep + Join(parts[1..], sep)
  }

  /** Joining a non-empty tail puts the separator after the head. */
  lemma JoinCons(head: string, tail: seq<string>, sep: string)
    requires tail != []
    ensures Join([head] + tail, sep) == head + sep + Join(tail, sep)
  {
    assert ([head] + tail)[1..] == tail;
  }

  /** Joining four parts interleaves three separators. */
  lemma JoinFour(a: string, b: string, c: string, d: string, sep: string)
    ensures Join([a, b, c, d], sep) == a + sep + b + sep + c + sep + d
  {
    JoinCons(c, [d], sep);
    assert [c] + [d] == [c, d];
    JoinCons(b, [c, d], sep);
    assert [b] + [c, d] == [b, c, d];
    JoinCons(a, [b, c, d], sep);
    assert [a] + [b, c, d] == [a, b, c, d];
  }

  /** Upper-casing keeps the length, so it keeps Python truthiness of a string. */
  lemma UpperKeepsTruthiness(s: string)
    ensures Truthy(Str(Upper(s))) <==> Truthy(Str(s))
  {
    assert |Upper(s)| == |s|;
  }
}
