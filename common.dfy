/** Value-level helpers shared by the storefront modules: an optional value, the JavaScript notions of
    truthiness the source tests with `!x` and `x || y`, comma joining (`Array.prototype.join(',')`) and
    the decimal rendering of a template literal `${n}`. */
module Common {

  /** A value that may be absent (`undefined` or `null` in the source). */
  datatype Option<+T> = None | Some(value: T) {
    /** `x ?? default` */
    function GetOr(default: T): T {
      if Some? then value else default
    }
  }

  /** A string is truthy iff it is present and not empty. */
  predicate TruthyString(s: Option<string>) {
    s.Some? && s.value != ""
  }

  /** A number is truthy iff it is present and not zero (NaN is not modelled). */
  predicate TruthyNumber(n: Option<int>) {
    n.Some? && n.value != 0
  }

  /** `s || fallback` for an optional string. */
  function OrString(s: Option<string>, fallback: string): (r: string)
    ensures TruthyString(s) ==> r == s.value
    ensures !TruthyString(s) ==> r == fallback
  {
    if s.Some? && s.value != "" then s.value else fallback
  }

  /** `xs.join(',')` */
  function JoinComma(xs: seq<string>): string
  {
    if |xs| == 0 then ""
    else if |xs| == 1 then xs[0]
    else xs[0] + "," + JoinComma(xs[1..])
  }

  /** `s.split(',')`: as in JavaScript, the empty string splits into one empty part. */
  function SplitComma(s: string): (parts: seq<string>)
    ensures |parts| >= 1
  {
    if |s| == 0 then [""]
    else
      var rest := SplitComma(s[1..]);
      if s[0] == ',' then [""] + rest else [[s[0]] + rest[0]] + rest[1..]
  }

  predicate NoComma(s: string) {
    ',' !in s
  }

  lemma {:induction false} SplitWithoutComma(x: string)
    requires NoComma(x)
    ensures SplitComma(x) == [x]
  {
    if |x| > 0 {
      assert x[0] in x;
      assert forall c :: c in x[1..] ==> c in x;
      SplitWithoutComma(x[1..]);
      assert [x[0]] + x[1..] == x;
    }
  }

  lemma {:induction false} SplitAtFirstComma(x: string, t: string)
    requires NoComma(x)
    ensures SplitComma(x + "," + t) == [x] + SplitComma(t)
  {
    if |x| == 0 {
      assert x + "," + t == [','] + t;
      assert (x + "," + t)[1..] == t;
    } else {
      assert (x + "," + t)[1..] == x[1..] + "," + t;
      SplitAtFirstComma(x[1..], t);
      assert [x[0]] + x[1..] == x;
    }
  }

  /** Joining ids that contain no comma can be undone by splitting: the joined string loses nothing. */
  lemma {:induction false} SplitJoinRoundTrip(xs: seq<string>)
    requires |xs| >= 1
    requires forall i :: 0 <= i < |xs| ==> NoComma(xs[i])
    ensures SplitComma(JoinComma(xs)) == xs
  {
    if |xs| == 1 {
      SplitWithoutComma(xs[0]);
    } else {
      SplitJoinRoundTrip(xs[1..]);
      SplitAtFirstComma(xs[0], JoinComma(xs[1..]));
      assert [xs[0]] + xs[1..] == xs;
    }
  }

  /** The joined string contains a comma iff at least two comma-free parts were joined. */
  lemma {:induction false} JoinHasCommaIffSeveral(xs: seq<string>)
    requires forall i :: 0 <= i < |xs| ==> NoComma(xs[i])
    ensures ',' in JoinComma(xs) <==> |xs| >= 2
  {
    if |xs| >= 2 {
      var j := xs[0] + "," + JoinComma(xs[1..]);
      assert j[|xs[0]|] == ',';
    }
  }

  /** Dropping element `k > 0` of `s` is keeping `s[0]` and dropping element `k - 1` of the tail. */
  lemma DropInTail<T>(s: seq<T>, k: nat)
    requires 0 < k < |s|
    ensures s[..k] + s[k + 1..] == [s[0]] + (s[1..][..k - 1] + s[1..][k..])
  {
    assert s[..k] == [s[0]] + s[1..][..k - 1];
  }

  function DigitChar(d: nat): (c: char)
    requires d < 10
  {
    ('0' as int + d) as char
  }

  /** The decimal rendering of a natural number, as `${n}` prints it. */
  function DecimalString(n: nat): (s: string)
    ensures |s| >= 1
    ensures forall i :: 0 <= i < |s| ==> '0' <= s[i] <= '9'
  {
    if n < 10 then [DigitChar(n)] else DecimalString(n / 10) + [DigitChar(n % 10)]
  }

  /** Reads a string of decimal digits back as a number (the inverse of `DecimalString`). */
  function DecimalValue(s: string): nat
    requires forall i :: 0 <= i < |s| ==> '0' <= s[i] <= '9'
  {
    if |s| == 0 then 0 else 10 * DecimalValue(s[..|s| - 1]) + (s[|s| - 1] as int - '0' as int)
  }

  lemma {:induction false} DecimalRoundTrip(n: nat)
    ensures DecimalValue(DecimalString(n)) == n
  {
    if n >= 10 {
      DecimalRoundTrip(n / 10);
      var s, d := DecimalString(n / 10), DigitChar(n % 10);
      assert DecimalString(n) == s + [d];
      assert (s + [d])[..|s|] == s;
    }
  }
}
