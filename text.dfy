/** Character classes and string helpers shared by every component: the
    JavaScript library operations the source relies on (Array.join,
    String.split, toUpperCase, trim, number-to-string), restricted to what
    the source needs. */
module Text {

  datatype Option<+T> = None | Some(value: T)

  /** `\w` of a JavaScript regular expression (without the `u` flag). */
  predicate IsWordChar(c: char) {
    ('a' <= c <= 'z') || ('A' <= c <= 'Z') || ('0' <= c <= '9') || c == '_'
  }

  predicate IsDigit(c: char) {
    '0' <= c <= '9'
  }

  /** The ASCII white space that String.prototype.trim removes. */
  predicate IsSpace(c: char) {
    c == ' ' || c == '\t' || c == '\n' || c == '\r' || c == '\U{B}' || c == '\U{C}'
  }

  /** Array.prototype.join: the parts with `sep` between consecutive ones. */
  function Join(parts: seq<string>, sep: string): string
    decreases |parts|
  {
    if |parts| == 0 then ""
    else if |parts| == 1 then parts[0]
    else parts[0] + sep + Join(parts[1..], sep)
  }

  /** Joining two non-empty lists is joining each and putting the separator
      between. */
  lemma {:induction false} JoinAppend(xs: seq<string>, ys: seq<string>, sep: string)
    requires |xs| > 0 && |ys| > 0
    ensures Join(xs + ys, sep) == Join(xs, sep) + sep + Join(ys, sep)
    decreases |xs|
  {
    var all := xs + ys;
    if |xs| == 1 {
      assert all[1..] == ys;
    } else {
      assert all[1..] == xs[1..] + ys;
      JoinAppend(xs[1..], ys, sep);
      AppendAssoc(xs[0] + sep, Join(xs[1..], sep) + sep, Join(ys, sep));
      AppendAssoc(xs[0] + sep, Join(xs[1..], sep), sep);
    }
  }

  /** Concatenation regrouped, for proofs that must not look inside the
      parts. */
  lemma AppendAssoc<T>(a: seq<T>, b: seq<T>, c: seq<T>)
    ensures a + (b + c) == a + b + c
  {
  }

  /** The empty sequence is neutral for concatenation. */
  lemma AppendEmpty<T>(s: seq<T>)
    ensures [] + s == s && s + [] == s
  {
  }

  /** Two rewrites of what is left, chained onto what is built. */
  lemma Chain<T>(built: seq<T>, left: seq<T>, a: seq<T>, mid: seq<T>, b: seq<T>, rest: seq<T>, whole: seq<T>)
    requires built + left == whole && left == a + mid && mid == b + rest
    ensures built + a + b + rest == whole
  {
    AppendAssoc(a, b, rest);
    AppendAssoc(built, a + b, rest);
    AppendAssoc(built, a, b);
  }

  /** A rewrite of what is left, chained onto what is built. */
  lemma Chain2<T>(built: seq<T>, left: seq<T>, b: seq<T>, rest: seq<T>, whole: seq<T>)
    requires built + left == whole && left == b + rest
    ensures built + b + rest == whole
  {
    AppendAssoc(built, b, rest);
  }

  /** String.prototype.repeat. */
  function Repeat(s: string, n: nat): string
    decreases n
  {
    if n == 0 then "" else s + Repeat(s, n - 1)
  }

  function UpperChar(c: char): char {
    if 'a' <= c <= 'z' then (c as int - 32) as char else c
  }

  function LowerChar(c: char): char {
    if 'A' <= c <= 'Z' then (c as int + 32) as char else c
  }

  /** String.prototype.toUpperCase on ASCII letters. */
  function Upper(s: string): string {
    seq(|s|, i requires 0 <= i < |s| => UpperChar(s[i]))
  }

  /** String.prototype.toLowerCase on ASCII letters. */
  function Lower(s: string): string {
    seq(|s|, i requires 0 <= i < |s| => LowerChar(s[i]))
  }

  function DigitChar(d: nat): char
    requires d < 10
  {
    (48 + d) as char
  }

  /** The decimal text of a number, as `${n}` gives it. */
  function Decimal(n: nat): string
    decreases n
  {
    if n < 10 then [DigitChar(n)] else Decimal(n / 10) + [DigitChar(n % 10)]
  }

  lemma {:induction false} DecimalDigits(n: nat)
    ensures |Decimal(n)| > 0
    ensures n >= 10 ==> |Decimal(n)| >= 2
    ensures forall i :: 0 <= i < |Decimal(n)| ==> IsDigit(Decimal(n)[i])
    decreases n
  {
    if n >= 10 {
      DecimalDigits(n / 10);
    }
  }

  /** Different numbers have different decimal texts. */
  lemma {:induction false} DecimalInjective(a: nat, b: nat)
    requires Decimal(a) == Decimal(b)
    ensures a == b
    decreases a
  {
    DecimalDigits(a);
    DecimalDigits(b);
    if a >= 10 && b >= 10 {
      var da, db := Decimal(a), Decimal(b);
      assert da[..|da| - 1] == Decimal(a / 10);
      assert db[..|db| - 1] == Decimal(b / 10);
      assert DigitChar(a % 10) == da[|da| - 1] == db[|db| - 1] == DigitChar(b % 10);
      DecimalInjective(a / 10, b / 10);
    } else {
      assert a < 10 && b < 10;
      assert DigitChar(a) == Decimal(a)[0] == Decimal(b)[0] == DigitChar(b);
    }
  }

  /** The first position of `c` in `s`. */
  function IndexOf(s: string, c: char): (k: nat)
    requires c in s
    ensures k < |s| && s[k] == c && c !in s[..k]
  {
    if s[0] == c then 0
    else
      assert c in s[1..] by { var j :| 0 <= j < |s| && s[j] == c; assert s[1..][j - 1] == c; }
      1 + IndexOf(s[1..], c)
  }

  /** String.prototype.split with a one-character separator. */
  function Split(s: string, c: char): seq<string>
    decreases |s|
  {
    if c !in s then [s]
    else
      var k := IndexOf(s, c);
      [s[..k]] + Split(s[k + 1..], c)
  }

  /** Splitting a joined list at a separator that no part contains gives
      the parts back. */
  lemma {:induction false} SplitJoin(parts: seq<string>, c: char)
    requires |parts| > 0
    requires forall i :: 0 <= i < |parts| ==> c !in parts[i]
    ensures Split(Join(parts, [c]), c) == parts
    decreases |parts|
  {
    if |parts| > 1 {
      var rest := Join(parts[1..], [c]);
      var s := parts[0] + [c] + rest;
      assert s == Join(parts, [c]);
      assert s[|parts[0]|] == c;
      assert c in s;
      var k := IndexOf(s, c);
      assert k == |parts[0]|;
      assert s[..k] == parts[0];
      assert s[k + 1..] == rest;
      SplitJoin(parts[1..], c);
      assert Split(s, c) == [parts[0]] + parts[1..];
    }
  }

  function TrimStart(s: string): string
    decreases |s|
  {
    if |s| > 0 && IsSpace(s[0]) then TrimStart(s[1..]) else s
  }

  function TrimEnd(s: string): string
    decreases |s|
  {
    if |s| > 0 && IsSpace(s[|s| - 1]) then TrimEnd(s[..|s| - 1]) else s
  }

  /** String.prototype.trim (ASCII white space). */
  function Trim(s: string): string {
    TrimStart(TrimEnd(s))
  }

  /** path.join of a directory path and an entry name. */
  function PathJoin(dir: string, name: string): string {
    if |dir| == 0 then name
    else if dir[|dir| - 1] == '/' then dir + name
    else dir + "/" + name
  }
}
