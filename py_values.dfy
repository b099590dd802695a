/**
 * Python runtime values as the bot sees them: decoded JSON from the private
 * inbox endpoint, and the attribute values of client objects.  The helpers
 * model the handful of Python built-ins the decision logic relies on:
 * truthiness, `str()`, `dict.get`, `in`, iteration and hashing.
 */
module PyValues {

  datatype Option<+T> = None | Some(value: T)

  /** The result of running Python code that may raise: either a value, or an
      exception escaping the modelled code. */
  datatype Outcome<+T> = Ok(value: T) | Raised

  /** A dictionary is an association list in insertion order (the order
      `dict.items()` iterates in); lookup takes the first entry with the key. */
  datatype Value =
    | Null
    | Bool(b: bool)
    | Int(i: int)
    | Str(s: string)
    | List(elems: seq<Value>)
    | Dict(entries: seq<(string, Value)>)

  /** Python truthiness (`bool(v)`). */
  predicate Truthy(v: Value) {
    match v
    case Null => false
    case Bool(b) => b
    case Int(i) => i != 0
    case Str(s) => s != ""
    case List(es) => es != []
    case Dict(d) => d != []
  }

  /** `d[key]` when `key in d`: the value of the first entry with that key. */
  function Lookup(d: seq<(string, Value)>, key: string): (r: Option<Value>)
    ensures r.None? <==> forall i :: 0 <= i < |d| ==> d[i].0 != key
    ensures r.Some? ==> exists i :: 0 <= i < |d| && d[i] == (key, r.value)
  {
    if d == [] then None
    else if d[0].0 == key then Some(d[0].1)
    else Lookup(d[1..], key)
  }

  /** `key in d` */
  predicate HasKey(d: seq<(string, Value)>, key: string) {
    Lookup(d, key).Some?
  }

  /** `d.get(key, default)` */
  function Get(d: seq<(string, Value)>, key: string, default: Value): Value {
    match Lookup(d, key)
    case Some(v) => v
    case None => default
  }

  /** `key in d and d[key]` */
  predicate TruthyField(d: seq<(string, Value)>, key: string) {
    Lookup(d, key).Some? && Truthy(Lookup(d, key).value)
  }

  /** `x or y` on values: the first operand when truthy, else the second. */
  function Or(x: Value, y: Value): Value {
    if Truthy(x) then x else y
  }

  /** The value a Python function returning `Optional[str]` hands back. */
  function OptionValue(o: Option<string>): Value {
    match o
    case Some(s) => Str(s)
    case None => Null
  }

  /** Truthiness of an `Optional[str]` result: a non-empty string. */
  predicate Found(o: Option<string>) {
    o.Some? && o.value != ""
  }

  // ---------------------------------------------------------------- strings

  /** Text t occurs in s at position i. */
  predicate OccursAt(s: string, i: int, t: string) {
    0 <= i && i + |t| <= |s| && s[i..i + |t|] == t
  }

  /** `t in s` for two strings. */
  predicate IsSubstring(t: string, s: string) {
    exists i | 0 <= i <= |s| :: OccursAt(s, i, t)
  }

  /** `s.split('_')[0]`: the text before the first underscore. */
  function UpToUnderscore(s: string): (r: string)
    ensures r <= s
    ensures '_' !in r
    ensures |r| < |s| ==> s[|r|] == '_'
  {
    if s == [] || s[0] == '_' then [] else [s[0]] + UpToUnderscore(s[1..])
  }

  /** `s.lower()` restricted to ASCII letters. */
  function LowerAscii(s: string): (r: string)
    ensures |r| == |s|
  {
    seq(|s|, i requires 0 <= i < |s| =>
      if 'A' <= s[i] <= 'Z' then (s[i] as int + 32) as char else s[i])
  }

  function DigitChar(d: nat): char
    requires d < 10
  {
    "0123456789"[d]
  }

  /** Decimal digits of a natural number, without leading zeros. */
  function NatToDecimal(n: nat): (r: string)
    ensures r != []
    ensures forall c :: c in r ==> '0' <= c <= '9'
  {
    if n < 10 then [DigitChar(n)] else NatToDecimal(n / 10) + [DigitChar(n % 10)]
  }

  /** `str(i)` for an int. */
  function IntToDecimal(i: int): string {
    if i < 0 then "-" + NatToDecimal(-i) else NatToDecimal(i)
  }

  function Join(parts: seq<string>): string {
    if parts == [] then "" else if |parts| == 1 then parts[0] else parts[0] + ", " + Join(parts[1..])
  }

  /** `repr(v)` (quotes around strings are not escaped). */
  function Repr(v: Value): string {
    match v
    case Null => "None"
    case Bool(b) => if b then "True" else "False"
    case Int(i) => IntToDecimal(i)
    case Str(s) => "'" + s + "'"
    case List(es) => "[" + Join(seq(|es|, k requires 0 <= k < |es| => Repr(es[k]))) + "]"
    case Dict(d) =>
      "{" + Join(seq(|d|, k requires 0 <= k < |d| => "'" + d[k].0 + "': " + Repr(d[k].1))) + "}"
  }

  /** `str(v)`: a string is itself, everything else its repr.  Only `str(None)`
      is "None", and only an empty string gives the empty text. */
  function PyStr(v: Value): (r: string)
    ensures v.Str? ==> r == v.s
    ensures r == "" <==> v == Str("")
  {
    match v
    case Str(s) => s
    case _ => Repr(v)
  }

  // ------------------------------------------------------------- built-ins

  /** `for x in v`: the elements a loop over v visits, or the TypeError of a
      non-iterable.  Iterating a dict visits its keys, a string its characters. */
  function Iterate(v: Value): Outcome<seq<Value>> {
    match v
    case List(es) => Ok(es)
    case Dict(d) => Ok(seq(|d|, k requires 0 <= k < |d| => Str(d[k].0)))
    case Str(s) => Ok(seq(|s|, k requires 0 <= k < |s| => Str([s[k]])))
    case _ => Raised
  }

  /** `needle in container` with a string needle: substring for a string,
      element equality for a list, key membership for a dict, and a TypeError
      for None, bools and ints. */
  function Contains(container: Value, needle: string): Outcome<bool> {
    match container
    case Str(s) => Ok(IsSubstring(needle, s))
    case List(es) => Ok(Str(needle) in es)
    case Dict(d) => Ok(HasKey(d, needle))
    case _ => Raised
  }

  /** What a Python set compares: `True == 1` and hashes alike, so a bool is
      stored as its int. */
  datatype HashKey = HStr(s: string) | HInt(i: int) | HNone

  /** hash(v), or None for the unhashable list and dict. */
  function Hash(v: Value): (r: Option<HashKey>)
    ensures r.None? <==> v.List? || v.Dict?
  {
    match v
    case Null => Some(HNone)
    case Bool(b) => Some(HInt(if b then 1 else 0))
    case Int(i) => Some(HInt(i))
    case Str(s) => Some(HStr(s))
    case _ => None
  }

  /** `v in s` for a set s: a TypeError when v is unhashable. */
  function InSet(v: Value, s: set<HashKey>): (r: Outcome<bool>)
    ensures r.Raised? <==> v.List? || v.Dict?
    ensures r == Ok(true) ==> Hash(v).Some? && Hash(v).value in s
    ensures Hash(v).Some? ==> r == Ok(Hash(v).value in s)
  {
    match Hash(v)
    case Some(h) => Ok(h in s)
    case None => Raised
  }

  /** The JSON value `json.dump` writes for a set element. */
  function KeyValue(h: HashKey): (v: Value)
    ensures Hash(v) == Some(h)
  {
    match h
    case HStr(s) => Str(s)
    case HInt(i) => Int(i)
    case HNone => Null
  }
}
