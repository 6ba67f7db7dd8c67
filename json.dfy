/**
 * Decoded JSON values, and the few pieces of Python semantics the bot applies to
 * them: the `in` operator, subscripting with a string key or with 0, truthiness,
 * `dict.get` and `str()`.
 */
module Json {
  import opened Wrappers

  /** A value as Python's `json` module decodes it (objects become dicts). */
  datatype Json =
    | Null
    | Bool(b: bool)
    | Int(i: int)
    | Str(s: string)
    | Arr(items: seq<Json>)
    | Obj(fields: map<string, Json>)

  /** Built-in Python exceptions that the bot raises without meaning to. */
  datatype PyError =
    | TypeError   // `in` on a number, a string key into a list or a string, an unhashable dict key
    | KeyError    // a missing key in a dict
    | IndexError  // `[0]` on an empty list or string
    | NameError   // a local variable read before it was assigned (UnboundLocalError)

  /** `k` occurs in `s` starting at index `i`. */
  predicate OccursAt(k: string, s: string, i: int) {
    0 <= i <= |s| - |k| && s[i..i + |k|] == k
  }

  /** Python's `k in s` for two strings. */
  function IsSubstring(k: string, s: string): bool
    decreases |s|
  {
    |s| >= |k| && (s[..|k|] == k || IsSubstring(k, s[1..]))
  }

  /** `k in s` holds exactly when `k` occurs in `s` at some index. */
  lemma {:induction false} SubstringOccurs(k: string, s: string)
    ensures IsSubstring(k, s) <==> exists i :: OccursAt(k, s, i)
    decreases |s|
  {
    if |s| >= |k| && s[..|k|] != k {
      SubstringOccurs(k, s[1..]);
      if IsSubstring(k, s[1..]) {
        var j :| OccursAt(k, s[1..], j);
        assert s[j + 1..j + 1 + |k|] == s[1..][j..j + |k|];
        assert OccursAt(k, s, j + 1);
      }
      forall i | OccursAt(k, s, i) ensures IsSubstring(k, s[1..]) {
        assert i != 0;
        assert s[1..][i - 1..i - 1 + |k|] == s[i..i + |k|];
        assert OccursAt(k, s[1..], i - 1);
      }
    } else if |s| >= |k| {
      assert OccursAt(k, s, 0);
    }
  }

  /** `k` occurs in `s` at some index. */
  ghost predicate Occurs(k: string, s: string) {
    exists i :: OccursAt(k, s, i)
  }

  /** Some element of `xs` equals the string `k`. */
  ghost predicate HasElement(xs: seq<Json>, k: string) {
    exists j :: 0 <= j < |xs| && xs[j] == Str(k)
  }

  /**
   * Python's `key in container` for a string key: a key test on a dict, an equality
   * test against each element of a list, a substring test on a string, and a
   * TypeError on anything else.
   */
  function Contains(container: Json, key: string): (r: Result<bool, PyError>)
    ensures r.Success? <==> container.Obj? || container.Arr? || container.Str?
    ensures r.Failure? ==> r.error == TypeError
    ensures container.Obj? ==> r == Success(key in container.fields)
    ensures container.Arr? ==> (r == Success(true) <==> HasElement(container.items, key))
    ensures container.Str? ==> (r == Success(true) <==> Occurs(key, container.s))
  {
    match container
    case Obj(m) => Success(key in m)
    case Arr(xs) => Success(Str(key) in xs)
    case Str(s) => SubstringOccurs(key, s); Success(IsSubstring(key, s))
    case _ => Failure(TypeError)
  }

  /** Python's `container[key]` for a string key. */
  function Subscript(container: Json, key: string): (r: Result<Json, PyError>)
    ensures r.Success? <==> container.Obj? && key in container.fields
    ensures r.Success? ==> r.value == container.fields[key]
  {
    match container
    case Obj(m) => if key in m then Success(m[key]) else Failure(KeyError)
    case _ => Failure(TypeError)
  }

  /** Python's `value[0]`. A dict has no key 0, since JSON keys are strings. */
  function First(value: Json): (r: Result<Json, PyError>)
    ensures value.Arr? && value.items != [] ==> r == Success(value.items[0])
    ensures r.Success? ==> (value.Arr? || value.Str?) && Truthy(value)
  {
    match value
    case Arr(xs) => if xs != [] then Success(xs[0]) else Failure(IndexError)
    case Str(s) => if s != [] then Success(Str([s[0]])) else Failure(IndexError)
    case Obj(_) => Failure(KeyError)
    case _ => Failure(TypeError)
  }

  /** Python's truthiness: `None`, `False`, `0` and empty containers are false. */
  predicate Truthy(v: Json)
    ensures Truthy(v) <==>
      v != Null && v != Bool(false) && v != Int(0) && v != Str("") && v != Arr([]) && v != Obj(map[])
  {
    match v
    case Null => false
    case Bool(b) => b
    case Int(i) => i != 0
    case Str(s) => s != []
    case Arr(xs) => xs != []
    case Obj(m) => m != map[]
  }

  /** Python's `d.get(key, default)` on a dict. */
  function Get(d: map<string, Json>, key: string, default: Json): Json {
    if key in d then d[key] else default
  }

  /** Python's `str(v)`, as used by f-string interpolation. */
  function Render(v: Json): (r: string)
    ensures v.Str? ==> r == v.s
    ensures v.Int? && v.i >= 0 ==> r != [] && r[0] != '-' && DecimalValue(r) == v.i
    ensures v.Int? && v.i >= 0 ==> (forall c | c in r :: '0' <= c <= '9') && (|r| > 1 ==> r[0] != '0')
    ensures v.Int? && v.i < 0 ==> r != [] && r[0] == '-' && DecimalValue(r[1..]) == -v.i
    ensures v.Int? && v.i < 0 ==>
      |r| >= 2 && (forall c | c in r[1..] :: '0' <= c <= '9') && (|r| > 2 ==> r[1] != '0')
    ensures v.Arr? ==> |r| >= 2 && r[0] == '[' && r[|r| - 1] == ']'
    decreases v, 1
  {
    match v
    case Null => "None"
    case Bool(b) => if b then "True" else "False"
    case Int(i) =>
      if i < 0 then
        var digits := Digits(-i);
        assert ("-" + digits)[1..] == digits;
        "-" + digits
      else
        var digits := Digits(i);
        assert digits[0] in digits;
        digits
    case Str(s) => s
    case Arr(xs) => "[" + RenderItems(v, xs) + "]"
    case Obj(_) => "{...}"
  }

  /** The elements of a list, as Python's `str()` of the list joins them. */
  function RenderItems(whole: Json, xs: seq<Json>): string
    requires forall x | x in xs :: x < whole
    decreases whole, 0, |xs|
  {
    if xs == [] then ""
    else
      assert xs[0] in xs;
      assert forall x | x in xs[1..] :: x in xs;
      var head := if xs[0].Str? then "'" + xs[0].s + "'" else Render(xs[0]);
      if |xs| == 1 then head else head + ", " + RenderItems(whole, xs[1..])
  }

  /** The decimal digits of `n`, without a sign or leading zeros. */
  function Digits(n: nat): (s: string)
    ensures |s| >= 1 && (|s| > 1 ==> s[0] != '0')
    ensures forall c | c in s :: '0' <= c <= '9'
    ensures DecimalValue(s) == n
  {
    if n < 10 then
      DigitChar(n); ["0123456789"[n]]
    else
      var prefix := Digits(n / 10);
      var s := prefix + ["0123456789"[n % 10]];
      DigitChar(n % 10);
      assert s[..|s| - 1] == prefix;
      s
  }

  /** The number a string of decimal digits spells, read from the left. */
  function DecimalValue(s: string): nat {
    if s == [] then 0 else 10 * DecimalValue(s[..|s| - 1]) + DigitValue(s[|s| - 1])
  }

  function DigitValue(c: char): nat {
    if '0' <= c <= '9' then c as int - '0' as int else 0
  }

  lemma DigitChar(d: nat)
    requires d < 10
    ensures '0' <= "0123456789"[d] <= '9' && DigitValue("0123456789"[d]) == d
    ensures d == 0 <==> "0123456789"[d] == '0'
  {
  }
}
