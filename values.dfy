/** Python values as the assistant meets them: the fields of a parsed
    interpreter reply, and the text that `str()` (and so every f-string and
    `print`) gives for them. */
module Values {

  datatype Option<T> = None | Some(value: T)

  /** A JSON value after `json.loads`. The dispatcher only compares values
      with string constants and prints them, so floats, lists and objects are
      carried as the text Python prints for them. */
  datatype Value =
    | Null
    | Bool(b: bool)
    | Int(i: int)
    | Str(s: string)
    | Compound(printed: string)

  /** A parsed JSON object, that is a Python `dict` with string keys. */
  type Record = map<string, Value>

  /** `m.get(key, default)`; `m.get(key)` is `Get(m, key, Null)`. */
  function Get(m: Record, key: string, default: Value): (v: Value)
    ensures key in m ==> v == m[key]
    ensures key !in m ==> v == default
  {
    if key in m then m[key] else default
  }

  predicate IsDigit(c: char) {
    '0' <= c <= '9'
  }

  predicate AllDigits(s: string) {
    forall k :: 0 <= k < |s| ==> IsDigit(s[k])
  }

  function DigitChar(d: nat): (c: char)
    requires d < 10
    ensures IsDigit(c)
  {
    ('0' as int + d) as char
  }

  function DigitValue(c: char): nat
    requires IsDigit(c)
  {
    c as int - '0' as int
  }

  /** The decimal numeral of `n`, most significant digit first, without
      leading zeros: what `str(n)` writes for a non-negative int. */
  function NatText(n: nat): (s: string)
    ensures 0 < |s| && AllDigits(s)
    ensures n >= 10 <==> 1 < |s|
    decreases n
  {
    if n < 10 then [DigitChar(n)] else NatText(n / 10) + [DigitChar(n % 10)]
  }

  /** Reads a string of decimal digits back as the number it denotes. */
  function ParseDigits(s: string): nat
    requires AllDigits(s)
  {
    if s == [] then 0 else ParseDigits(s[..|s| - 1]) * 10 + DigitValue(s[|s| - 1])
  }

  /** The numeral written for a row id reads back as that id. */
  lemma {:induction false} ParseNatText(n: nat)
    ensures ParseDigits(NatText(n)) == n
  {
    if n >= 10 {
      var s := NatText(n);
      assert s[..|s| - 1] == NatText(n / 10);
      ParseNatText(n / 10);
    }
  }

  /** `str(v)`: what an f-string or `print` shows for a value. */
  function Text(v: Value): string {
    match v
    case Null => "None"
    case Bool(b) => if b then "True" else "False"
    case Int(i) => if i < 0 then "-" + NatText(-i) else NatText(i)
    case Str(s) => s
    case Compound(p) => p
  }

  /** A string field is shown verbatim, and an int as its numeral, which
      reads back as the int. */
  lemma TextOfInt(i: int)
    ensures i >= 0 ==> AllDigits(Text(Int(i))) && ParseDigits(Text(Int(i))) == i
    ensures i < 0 ==> Text(Int(i))[0] == '-' && AllDigits(Text(Int(i))[1..])
                      && ParseDigits(Text(Int(i))[1..]) == -i
  {
    if i >= 0 {
      ParseNatText(i);
    } else {
      assert Text(Int(i))[1..] == NatText(-i);
      ParseNatText(-i);
    }
  }
}
