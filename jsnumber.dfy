/** JavaScript numbers as the calculator sees them, over exact reals.

    A JavaScript number is either finite or one of NaN, +Infinity and -Infinity;
    the calculator only ever asks which of the two it is (Number.isFinite), so
    the three non-finite values are one constructor here. Arithmetic on finite
    values is exact: rounding, overflow to Infinity and underflow to zero are
    not modelled. */
module JsNumber {

  datatype Num = Finite(value: real) | NonFinite

  /** The floating-point primitives of the JavaScript runtime, left abstract:
      `numberLiteral` is Number() applied to a trimmed, non-empty string,
      `pow10(e)` is Math.pow(10, e) and `sqrt` is Math.sqrt. */
  datatype Runtime = Runtime(numberLiteral: string -> Num, pow10: real -> Num, sqrt: real -> real)

  function Abs(x: real): real {
    if x < 0.0 then -x else x
  }

  /** `a * b`: any non-finite operand (NaN or an infinity, even times 0) gives a non-finite product. */
  function Mul(a: Num, b: Num): Num {
    if a.Finite? && b.Finite? then Finite(a.value * b.value) else NonFinite
  }

  /** `a / b` for a finite divisor: dividing by zero gives an infinity or NaN. */
  function Div(a: Num, b: real): Num {
    if a.Finite? && b != 0.0 then Finite(a.value / b) else NonFinite
  }

  /** The characters String.prototype.trim removes: WhiteSpace (tab, vertical tab,
      form feed, the Zs space separators, no-break space, byte order mark) and
      LineTerminator (line feed, carriage return, line and paragraph separators). */
  predicate IsJsSpace(c: char) {
    || c == '\t' || c == '\n' || c == '\U{000B}' || c == '\U{000C}' || c == '\r'
    || c == ' ' || c == '\U{00A0}' || c == '\U{1680}' || ('\U{2000}' <= c <= '\U{200A}')
    || c == '\U{2028}' || c == '\U{2029}' || c == '\U{202F}' || c == '\U{205F}'
    || c == '\U{3000}' || c == '\U{FEFF}'
  }

  /** `s` with its leading white space removed: what it keeps is preceded only by white space. */
  function TrimStart(s: string): (r: string)
    ensures |r| <= |s|
    ensures forall k :: 0 <= k < |s| - |r| ==> IsJsSpace(s[k])
    ensures r == [] || !IsJsSpace(r[0])
  {
    if s != [] && IsJsSpace(s[0]) then TrimStart(s[1..]) else s
  }

  /** `s` with its trailing white space removed: what it keeps is followed only by white space. */
  function TrimEnd(s: string): (r: string)
    ensures |r| <= |s|
    ensures forall k :: |r| <= k < |s| ==> IsJsSpace(s[k])
    ensures r == [] || !IsJsSpace(r[|r| - 1])
  {
    if s != [] && IsJsSpace(s[|s| - 1]) then TrimEnd(s[..|s| - 1]) else s
  }

  /** What TrimStart keeps is a suffix of its input. */
  lemma {:induction false} TrimStartIsSuffix(s: string)
    ensures TrimStart(s) == s[|s| - |TrimStart(s)|..]
  {
    if s != [] && IsJsSpace(s[0]) {
      TrimStartIsSuffix(s[1..]);
      assert s[1..][|s| - 1 - |TrimStart(s)|..] == s[|s| - |TrimStart(s)|..];
    }
  }

  /** What TrimEnd keeps is a prefix of its input. */
  lemma {:induction false} TrimEndIsPrefix(s: string)
    ensures TrimEnd(s) == s[..|TrimEnd(s)|]
  {
    if s != [] && IsJsSpace(s[|s| - 1]) {
      TrimEndIsPrefix(s[..|s| - 1]);
      assert s[..|s| - 1][..|TrimEnd(s)|] == s[..|TrimEnd(s)|];
    }
  }

  /** String.prototype.trim. */
  function Trim(s: string): (r: string)
    ensures r == [] || (!IsJsSpace(r[0]) && !IsJsSpace(r[|r| - 1]))
  {
    TrimEndIsPrefix(TrimStart(s));
    TrimEnd(TrimStart(s))
  }

  /** Trimming a string that has no white space at either end leaves it as it is. */
  lemma {:induction false} TrimmedIsFixed(s: string)
    requires s == [] || (!IsJsSpace(s[0]) && !IsJsSpace(s[|s| - 1]))
    ensures Trim(s) == s
  {
    assert TrimStart(s) == s;
    assert TrimEnd(s) == s;
  }

  /** The text Trim keeps is a contiguous piece of the input with only white space cut
      from either side; it is empty exactly when the input is all white space. */
  lemma {:induction false} TrimKeepsCore(s: string)
    ensures var i := |s| - |TrimStart(s)|;
      && i + |Trim(s)| <= |s|
      && Trim(s) == s[i..i + |Trim(s)|]
      && forall k :: 0 <= k < |s| && (k < i || i + |Trim(s)| <= k) ==> IsJsSpace(s[k])
    ensures (forall k :: 0 <= k < |s| ==> IsJsSpace(s[k])) <==> Trim(s) == []
  {
    var u := TrimStart(s);
    var i := |s| - |u|;
    var r := TrimEnd(u);
    TrimStartIsSuffix(s);
    TrimEndIsPrefix(u);
    assert r == s[i..i + |r|];
    forall k | 0 <= k < |s| && (k < i || i + |r| <= k) ensures IsJsSpace(s[k]) {
      if k >= i { assert s[k] == u[k - i]; }
    }
    if r != [] {
      assert !IsJsSpace(s[i]);
    }
  }

  /** trim is idempotent. */
  lemma {:induction false} TrimIdempotent(s: string)
    ensures Trim(Trim(s)) == Trim(s)
  {
    TrimmedIsFixed(Trim(s));
  }

  /** Number(s) on a string: white space around the text is ignored, a blank string
      is 0, and any other text is read by the runtime's literal parser. */
  function ToNumber(s: string, rt: Runtime): (r: Num)
    ensures Trim(s) == [] ==> r == Finite(0.0)
  {
    var t := Trim(s);
    if t == [] then Finite(0.0) else rt.numberLiteral(t)
  }

  /** Reading an already trimmed string gives the same number as reading the original. */
  lemma ToNumberOfTrimmed(s: string, rt: Runtime)
    ensures ToNumber(Trim(s), rt) == ToNumber(s, rt)
  {
    TrimIdempotent(s);
  }
}
