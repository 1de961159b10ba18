/**
 * The Python values the pipeline passes around: decoded JSON documents, the
 * dictionaries built from them, Python truthiness, the text `str()` and
 * f-strings print for a value, the parse behind `int(...)`, and the
 * exceptions that reach a caller.
 */
module Values {

  datatype Option<T> = None | Some(value: T)

  /** A decoded JSON document, as `json.loads` returns it (floats are not modelled). */
  datatype Json =
    | JNull
    | JBool(b: bool)
    | JInt(n: int)
    | JStr(s: string)
    | JList(items: seq<Json>)
    | JObj(fields: map<string, Json>)

  /** A Python `dict[str, Any]`: an upstream record, an envelope or a queue message. */
  type Record = map<string, Json>

  /** The exceptions a pipeline step can raise to its caller. */
  datatype Error =
    | ValueError
    | TypeError
    | AttributeError
    | KeyError
    | ResourceExistsError
    | ResourceNotFoundError
    | ServiceError     // any other failure reported by a storage service
    | UpstreamError    // a failure of the upstream catalog client
    | DatabaseError    // a failure reported by the relational store

  /** How a step that returns nothing ended: normally, or by raising. */
  datatype Outcome = Completed | Raised(error: Error)

  /** A value, or the exception raised while computing it. */
  datatype Result<T> = Ok(value: T) | Failed(error: Error)

  /** `d.get(k)`: the value under `k`, or `None` when the key is absent. */
  function Get(d: Record, k: string): (v: Json)
    ensures k !in d ==> v == JNull
    ensures k in d ==> v == d[k]
  {
    if k in d then d[k] else JNull
  }

  /** `d.get(k, default)`. */
  function GetOr(d: Record, k: string, default: Json): (v: Json)
    ensures k !in d ==> v == default
    ensures k in d ==> v == d[k]
  {
    if k in d then d[k] else default
  }

  /** Python truthiness: `None`, `False`, `0`, `""`, `[]` and `{}` are falsy. */
  predicate Truthy(j: Json)
  {
    match j
    case JNull => false
    case JBool(b) => b
    case JInt(n) => n != 0
    case JStr(s) => s != []
    case JList(xs) => xs != []
    case JObj(m) => m != map[]
  }

  // ---------------------------------------------------------------------
  // Decimal text

  predicate IsDigit(c: char) { '0' <= c <= '9' }

  /** ASCII whitespace, as `str.strip()` removes it inside `int()`. */
  predicate IsSpace(c: char)
  {
    c == ' ' || c == '\t' || c == '\n' || c == '\r' || c == '\U{000B}' || c == '\U{000C}'
  }

  function DigitChar(d: nat): (c: char)
    requires d < 10
    ensures IsDigit(c) && c as int - '0' as int == d
  {
    ['0', '1', '2', '3', '4', '5', '6', '7', '8', '9'][d]
  }

  /** The decimal digits of `n`, most significant first, with no leading zeros. */
  function NatToString(n: nat): (s: string)
    decreases n
  {
    if n < 10 then [DigitChar(n)] else NatToString(n / 10) + [DigitChar(n % 10)]
  }

  /** `str(n)` for a Python int. */
  function IntToString(n: int): string
  {
    if n < 0 then "-" + NatToString(-n) else NatToString(n)
  }

  predicate DigitsOrUnderscores(s: string)
  {
    forall i | 0 <= i < |s| :: IsDigit(s[i]) || s[i] == '_'
  }

  /** The digit groups `int()` accepts: digits, with single underscores between digits. */
  predicate DigitGroups(s: string)
  {
    && |s| > 0
    && DigitsOrUnderscores(s)
    && IsDigit(s[0]) && IsDigit(s[|s| - 1])
    && forall i | 0 <= i < |s| - 1 :: !(s[i] == '_' && s[i + 1] == '_')
  }

  /** The number written by a string of digits and underscores (underscores are separators). */
  function DigitsValue(s: string): nat
    requires DigitsOrUnderscores(s)
    decreases |s|
  {
    if s == [] then 0
    else
      var last := s[|s| - 1];
      if last == '_' then DigitsValue(s[..|s| - 1])
      else DigitsValue(s[..|s| - 1]) * 10 + (last as int - '0' as int)
  }

  function TrimLeft(s: string): string
    decreases |s|
  {
    if s != [] && IsSpace(s[0]) then TrimLeft(s[1..]) else s
  }

  function TrimRight(s: string): string
    decreases |s|
  {
    if s != [] && IsSpace(s[|s| - 1]) then TrimRight(s[..|s| - 1]) else s
  }

  /**
   * `int(s)` for a string in base 10: surrounding whitespace is ignored, an
   * optional sign, then digit groups; anything else raises `ValueError`
   * (`None` here).
   */
  function ParseInt(s: string): Option<int>
  {
    var t := TrimRight(TrimLeft(s));
    if t != [] && (t[0] == '-' || t[0] == '+') then
      var body := t[1..];
      if DigitGroups(body) then
        var v: int := DigitsValue(body);
        Some(if t[0] == '-' then -v else v)
      else None
    else if DigitGroups(t) then Some(DigitsValue(t))
    else None
  }

  lemma {:induction false} NatToStringDigits(n: nat)
    ensures |NatToString(n)| > 0
    ensures forall i | 0 <= i < |NatToString(n)| :: IsDigit(NatToString(n)[i])
    ensures DigitsValue(NatToString(n)) == n
    decreases n
  {
    if n >= 10 {
      NatToStringDigits(n / 10);
      var s := NatToString(n / 10);
      var t := NatToString(n);
      assert t == s + [DigitChar(n % 10)];
      assert t[..|t| - 1] == s;
    }
  }

  lemma TrimDigits(s: string)
    requires |s| > 0 && !IsSpace(s[0]) && !IsSpace(s[|s| - 1])
    ensures TrimRight(TrimLeft(s)) == s
  {
  }

  /** The text of a nat is a digit group with no sign and no surrounding space, worth that nat. */
  lemma NatTextParses(m: nat)
    ensures var d := NatToString(m);
            && DigitGroups(d) && DigitsValue(d) == m
            && !IsSpace(d[0]) && !IsSpace(d[|d| - 1]) && d[0] != '-' && d[0] != '+'
  {
    NatToStringDigits(m);
  }

  /** Printing an int and parsing it back with `int()` gives the int back. */
  lemma ParseIntOfIntToString(n: int)
    ensures ParseInt(IntToString(n)) == Some(n)
  {
    var m: nat := if n < 0 then -n else n;
    NatTextParses(m);
    var d := NatToString(m);
    if n < 0 {
      var s := "-" + d;
      assert s[|s| - 1] == d[|d| - 1] && s[1..] == d;
      TrimDigits(s);
    } else {
      TrimDigits(d);
    }
  }

  /** Distinct ints print as distinct strings. */
  lemma IntToStringInjective(a: int, b: int)
    ensures IntToString(a) == IntToString(b) ==> a == b
  {
    ParseIntOfIntToString(a);
    ParseIntOfIntToString(b);
  }

  /** The text of an int is digits and a sign only: no `_` or `.` that could be read as a separator. */
  lemma IntToStringChars(n: int)
    ensures forall i | 0 <= i < |IntToString(n)| :: IsDigit(IntToString(n)[i]) || IntToString(n)[i] == '-'
  {
    NatToStringDigits(if n < 0 then -n else n);
  }

  // ---------------------------------------------------------------------
  // Python conversions

  /** The text an f-string interpolates for a value (containers get a fixed marker). */
  function Str(j: Json): string
  {
    match j
    case JNull => "None"
    case JBool(b) => if b then "True" else "False"
    case JInt(n) => IntToString(n)
    case JStr(s) => s
    case JList(_) => "[...]"
    case JObj(_) => "{...}"
  }

  /** `int(v)`: ints unchanged, bools as 0/1, strings parsed; anything else raises `TypeError`. */
  function PyInt(j: Json): (r: Result<int>)
    ensures j.JInt? ==> r == Ok(j.n)
    ensures j.JStr? ==> (r.Ok? <==> ParseInt(j.s).Some?)
    ensures j.JStr? && r.Ok? ==> ParseInt(j.s) == Some(r.value)
    ensures j.JNull? || j.JList? || j.JObj? ==> r == Failed(TypeError)
  {
    match j
    case JInt(n) => Ok(n)
    case JBool(b) => Ok(if b then 1 else 0)
    case JStr(s) => (match ParseInt(s) case Some(n) => Ok(n) case None => Failed(ValueError))
    case _ => Failed(TypeError)
  }

  /** `v + 1` as `message["page"] += 1` computes it; only numbers can be incremented. */
  function PlusOne(j: Json): (r: Result<Json>)
    ensures j.JInt? ==> r == Ok(JInt(j.n + 1))
    ensures j.JNull? || j.JStr? || j.JList? || j.JObj? ==> r == Failed(TypeError)
  {
    match j
    case JInt(n) => Ok(JInt(n + 1))
    case JBool(b) => Ok(JInt(if b then 2 else 1))
    case _ => Failed(TypeError)
  }

  /** `list(s)` for a finite set: each element once, in some order. */
  method Enumerate<T(==)>(s: set<T>) returns (xs: seq<T>)
    ensures forall x :: x in s <==> x in xs
    ensures forall i, j | 0 <= i < j < |xs| :: xs[i] != xs[j]
  {
    xs := [];
    var rest := s;
    while rest != {}
      invariant forall x :: x in s <==> x in xs || x in rest
      invariant forall x | x in xs :: x !in rest
      invariant forall i, j | 0 <= i < j < |xs| :: xs[i] != xs[j]
      decreases rest
    {
      var x :| x in rest;
      xs := xs + [x];
      rest := rest - {x};
    }
  }

  /** A list that names every element of a set exactly once is as long as the set is large. */
  lemma {:induction false} DistinctListingSize<T>(xs: seq<T>, s: set<T>)
    requires forall x :: x in s <==> x in xs
    requires forall i, j | 0 <= i < j < |xs| :: xs[i] != xs[j]
    ensures |xs| == |s|
    decreases |xs|
  {
    if xs == [] {
      assert s == {};
    } else {
      var rest := xs[1..];
      var s' := s - {xs[0]};
      forall x ensures x in s' <==> x in rest {
        if x in rest {
          var k :| 0 <= k < |rest| && rest[k] == x;
          assert xs[k + 1] == x;
        }
        if x in s' {
          var k :| 0 <= k < |xs| && xs[k] == x;
          assert rest[k - 1] == x;
        }
      }
      DistinctListingSize(rest, s');
    }
  }
}
