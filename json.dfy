/** The values that `json.loads` produces and that the system stores in record
    fields, with the few Python operations the core applies to them
    (`dict.get`, `d[k]`, `in`, truthiness, `str.lower`, `str.strip`,
    `str.replace`, `int(...)`, `str(int)`), each with the exception it raises. */
module Json {

  datatype Option<+T> = None | Some(value: T)

  /** The Python exceptions that can escape from the core's operations.
      `RemoteError` stands for any failure of a call to a remote service. */
  datatype PyError = TypeError | AttributeError | KeyError | ValueError | RemoteError

  datatype Result<+T> = Ok(value: T) | Err(error: PyError) {
    predicate IsFailure() { Err? }
    function PropagateFailure<U>(): Result<U>
      requires Err?
    {
      Err(error)
    }
    function Extract(): T
      requires Ok?
    {
      value
    }
  }

  /** A JSON value. Numbers are integers only. */
  datatype Value =
    | Null
    | Bool(b: bool)
    | Num(n: int)
    | Str(s: string)
    | Arr(items: seq<Value>)
    | Obj(entries: map<string, Value>)

  /** Python truthiness. */
  predicate Truthy(v: Value) {
    match v
    case Null => false
    case Bool(b) => b
    case Num(n) => n != 0
    case Str(s) => s != ""
    case Arr(items) => items != []
    case Obj(m) => m != map[]
  }

  /** `fields.get(key, default)` on a record's field mapping. */
  function FieldOr(fields: map<string, Value>, key: string, default: Value): (v: Value)
    ensures key in fields ==> v == fields[key]
    ensures key !in fields ==> v == default
  {
    if key in fields then fields[key] else default
  }

  /** `d[key]` with a string key: a dict raises KeyError when the key is
      missing, anything else raises TypeError. */
  function Index(d: Value, key: string): (r: Result<Value>)
    ensures r.Ok? <==> d.Obj? && key in d.entries
    ensures r.Ok? ==> r.value == d.entries[key]
  {
    match d
    case Obj(m) => if key in m then Ok(m[key]) else Err(KeyError)
    case Arr(_) => Err(TypeError)
    case Str(_) => Err(TypeError)
    case _ => Err(TypeError)
  }

  /** `p in s` for two strings. */
  predicate IsSubstring(p: string, s: string)
    decreases |s|
  {
    p <= s || (|s| > 0 && IsSubstring(p, s[1..]))
  }

  /** `item in container` for a string item: key membership for a dict,
      element equality for a list, substring test for a string; any other
      container raises TypeError. */
  function Contains(container: Value, item: string): (r: Result<bool>)
    ensures container.Obj? ==> r == Ok(item in container.entries)
    ensures container.Arr? ==> r == Ok(Str(item) in container.items)
    ensures !container.Obj? && !container.Arr? && !container.Str? ==> r.Err?
  {
    match container
    case Obj(m) => Ok(item in m)
    case Arr(items) => Ok(Str(item) in items)
    case Str(s) => Ok(IsSubstring(item, s))
    case _ => Err(TypeError)
  }

  /** `str.lower()` on ASCII letters. */
  function LowerChar(c: char): char {
    if 'A' <= c <= 'Z' then (c as int + 32) as char else c
  }

  function Lower(s: string): (r: string)
    ensures |r| == |s|
    ensures forall i :: 0 <= i < |s| ==> r[i] == LowerChar(s[i])
  {
    seq(|s|, i requires 0 <= i < |s| => LowerChar(s[i]))
  }

  /** The characters `str.strip()` removes (those below U+0100). */
  predicate IsSpace(c: char) {
    c == ' ' || c == '\t' || c == '\n' || c == '\r' || c == '\U{B}' || c == '\U{C}'
    || c == '\U{1C}' || c == '\U{1D}' || c == '\U{1E}' || c == '\U{1F}'
    || c == '\U{85}' || c == '\U{A0}'
  }

  function StripLeft(s: string): (r: string)
    ensures |r| <= |s| && r == s[|s| - |r|..]
    ensures r == [] || !IsSpace(r[0])
  {
    if |s| > 0 && IsSpace(s[0]) then StripLeft(s[1..]) else s
  }

  function StripRight(s: string): (r: string)
    ensures |r| <= |s| && r == s[..|r|]
    ensures r == [] || !IsSpace(r[|r| - 1])
  {
    if |s| > 0 && IsSpace(s[|s| - 1]) then StripRight(s[..|s| - 1]) else s
  }

  /** `str.strip()`. */
  function Strip(s: string): (r: string)
    ensures r == [] || (!IsSpace(r[0]) && !IsSpace(r[|r| - 1]))
  {
    StripRight(StripLeft(s))
  }

  /** `s.replace(pat, '')`: removes every non-overlapping occurrence of `pat`,
      scanning left to right. */
  function RemoveAll(s: string, pat: string): (r: string)
    requires pat != []
    ensures |r| <= |s|
    decreases |s|
  {
    if pat <= s then RemoveAll(s[|pat|..], pat)
    else if s == [] then []
    else [s[0]] + RemoveAll(s[1..], pat)
  }

  /** `s.split('\n')`: the pieces between newlines; there is always one more
      piece than there are newlines. */
  function SplitLines(s: string): (r: seq<string>)
    ensures |r| >= 1
    ensures forall i :: 0 <= i < |r| ==> '\n' !in r[i]
    decreases |s|
  {
    if '\n' !in s then [s]
    else
      var k := FirstNewline(s);
      [s[..k]] + SplitLines(s[k + 1..])
  }

  function FirstNewline(s: string): (k: nat)
    requires '\n' in s
    ensures k < |s| && s[k] == '\n' && '\n' !in s[..k]
  {
    if s[0] == '\n' then 0
    else
      assert '\n' in s[1..] by {
        var j :| 0 <= j < |s| && s[j] == '\n';
        assert s[1..][j - 1] == '\n';
      }
      var k := 1 + FirstNewline(s[1..]);
      assert s[..k] == [s[0]] + s[1..][..k - 1];
      k
  }

  predicate IsDigit(c: char) { '0' <= c <= '9' }

  function DigitValue(c: char): (d: nat)
    requires IsDigit(c)
    ensures d <= 9
  {
    c as int - '0' as int
  }

  /** `str(n)` for a natural number. */
  function NatToString(n: nat): (s: string)
    ensures |s| >= 1 && forall i :: 0 <= i < |s| ==> IsDigit(s[i])
  {
    if n < 10 then ['0' + n as char]
    else NatToString(n / 10) + ['0' + (n % 10) as char]
  }

  /** `str(n)` for an integer. */
  function IntToString(n: int): (s: string)
    ensures |s| >= 1
  {
    if n < 0 then "-" + NatToString(-n) else NatToString(n)
  }

  /** The value of a run of digits and single underscores, as `int` reads it. */
  function DigitsValue(s: string): nat
    requires forall i :: 0 <= i < |s| ==> IsDigit(s[i]) || s[i] == '_'
  {
    if s == [] then 0
    else if s[|s| - 1] == '_' then DigitsValue(s[..|s| - 1])
    else DigitsValue(s[..|s| - 1]) * 10 + DigitValue(s[|s| - 1])
  }

  /** What `int` accepts after an optional sign: ASCII digits, where an
      underscore may stand only between two digits. */
  predicate WellFormedDigits(s: string) {
    && s != []
    && IsDigit(s[0]) && IsDigit(s[|s| - 1])
    && (forall i :: 0 <= i < |s| ==> IsDigit(s[i]) || s[i] == '_')
    && (forall i :: 0 <= i < |s| - 1 ==> !(s[i] == '_' && s[i + 1] == '_'))
  }

  /** `int(s)` on a string without surrounding whitespace; None where Python
      raises ValueError. */
  function ParseInt(s: string): (r: Option<int>)
    ensures r.Some? ==> s != []
  {
    if |s| > 0 && (s[0] == '+' || s[0] == '-') then
      var t := s[1..];
      if WellFormedDigits(t) then
        Some(if s[0] == '-' then -(DigitsValue(t) as int) else DigitsValue(t))
      else None
    else if WellFormedDigits(s) then Some(DigitsValue(s))
    else None
  }

  lemma {:induction false} DigitsValueOfNat(n: nat)
    ensures forall i :: 0 <= i < |NatToString(n)| ==> IsDigit(NatToString(n)[i]) || NatToString(n)[i] == '_'
    ensures DigitsValue(NatToString(n)) == n
  {
    if n >= 10 {
      DigitsValueOfNat(n / 10);
      var s := NatToString(n);
      assert s[..|s| - 1] == NatToString(n / 10);
    }
  }

  /** `int(str(n)) == n`: the score line the service writes for an integer is
      read back as that integer. */
  lemma IntRoundTrip(n: int)
    ensures ParseInt(IntToString(n)) == Some(n)
  {
    var t := NatToString(if n < 0 then -n else n);
    DigitsValueOfNat(if n < 0 then -n else n);
    assert WellFormedDigits(t);
    if n < 0 {
      assert IntToString(n)[1..] == t;
    }
  }
}
