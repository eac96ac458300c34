/**
 * The compact JSON text that digests are taken of: numbers and strings as in sections 6 and 7 of
 * RFC 8259, no white space, restricted to natural numbers and to strings that need no escape.
 */
module Json {

  datatype Json =
    | Null
    | Number(n: nat)
    | Text(s: string)
    | Array(items: seq<Json>)

  predicate IsDigit(c: char) {
    '0' <= c <= '9'
  }

  /** A character that JSON writes as itself and that cannot end a string. */
  predicate IsPlainChar(c: char) {
    ' ' <= c <= '~' && c != '"' && c != '\\'
  }

  predicate IsPlain(s: string) {
    forall i :: 0 <= i < |s| ==> IsPlainChar(s[i])
  }

  predicate Encodable(j: Json) {
    match j
    case Null => true
    case Number(_) => true
    case Text(s) => IsPlain(s)
    case Array(items) => forall i :: 0 <= i < |items| ==> Encodable(items[i])
  }

  function Digits(n: nat): (s: string)
    ensures |s| > 0 && forall i :: 0 <= i < |s| ==> IsDigit(s[i])
  {
    if n < 10 then [('0' as int + n) as char]
    else Digits(n / 10) + [('0' as int + n % 10) as char]
  }

  function Encode(j: Json): string
    decreases j, 1
  {
    match j
    case Null => "null"
    case Number(n) => Digits(n)
    case Text(s) => "\"" + s + "\""
    case Array(items) => "[" + EncodeItems(items) + "]"
  }

  function EncodeItems(items: seq<Json>): string
    decreases items, 0
  {
    if items == [] then ""
    else if |items| == 1 then Encode(items[0])
    else Encode(items[0]) + "," + EncodeItems(items[1..])
  }

  // ---------- No two values share an encoding ----------

  function ValueOf(digits: string): int {
    if digits == [] then 0
    else 10 * ValueOf(digits[..|digits| - 1]) + (digits[|digits| - 1] as int - '0' as int)
  }

  lemma {:induction false} DigitsRoundTrip(n: nat)
    ensures ValueOf(Digits(n)) == n
  {
    var s := Digits(n);
    if n < 10 {
      assert s[..0] == [];
    } else {
      assert s[..|s| - 1] == Digits(n / 10);
      DigitsRoundTrip(n / 10);
    }
  }

  /** What may follow a value inside a larger text. */
  predicate Stops(rest: string) {
    rest == [] || rest[0] == ',' || rest[0] == ']'
  }

  /** A longer run on one side means that the other side is followed by more of the run. */
  lemma ShorterRunContinues(inRun: char -> bool, s: string, x: string, t: string, y: string)
    requires s + x == t + y && |s| < |t|
    requires forall i :: 0 <= i < |t| ==> inRun(t[i])
    ensures x != [] && inRun(x[0])
  {
    assert |s| + |x| == |s + x| == |t + y| == |t| + |y|;
    assert x[0] == (s + x)[|s|] == (t + y)[|s|] == t[|s|];
  }

  /** A maximal run of one class of characters can be split off in one way only. */
  lemma RunIsMaximal(inRun: char -> bool, s: string, x: string, t: string, y: string)
    requires s + x == t + y
    requires forall i :: 0 <= i < |s| ==> inRun(s[i])
    requires forall i :: 0 <= i < |t| ==> inRun(t[i])
    requires (x == [] || !inRun(x[0])) && (y == [] || !inRun(y[0]))
    ensures s == t && x == y
  {
    if |s| < |t| {
      ShorterRunContinues(inRun, s, x, t, y);
    } else if |t| < |s| {
      ShorterRunContinues(inRun, t, y, s, x);
    } else {
      SameLengthSplit(s, x, t, y);
    }
  }

  lemma SameLengthSplit(s: string, x: string, t: string, y: string)
    requires s + x == t + y && |s| == |t|
    ensures s == t && x == y
  {
    assert s == (s + x)[..|s|] == (t + y)[..|t|] == t;
    assert x == (s + x)[|s|..] == (t + y)[|t|..] == y;
  }

  /** The first character tells the four kinds of value apart and never closes an array. */
  lemma FirstCharacter(j: Json)
    ensures var e := Encode(j);
            && |e| > 0
            && (e[0] == 'n' <==> j.Null?)
            && (e[0] == '"' <==> j.Text?)
            && (e[0] == '[' <==> j.Array?)
            && (IsDigit(e[0]) <==> j.Number?)
            && e[0] != ']'
  {
    if j.Number? {
      assert IsDigit(Digits(j.n)[0]);
    }
  }

  lemma SameKind(a: Json, x: string, b: Json, y: string)
    requires Encode(a) + x == Encode(b) + y
    ensures a.Null? == b.Null? && a.Number? == b.Number? && a.Text? == b.Text? && a.Array? == b.Array?
  {
    FirstCharacter(a);
    FirstCharacter(b);
    assert Encode(a)[0] == (Encode(a) + x)[0] == (Encode(b) + y)[0] == Encode(b)[0];
  }

  lemma NumbersArePrefixFree(n: nat, x: string, m: nat, y: string)
    requires Stops(x) && Stops(y)
    requires Digits(n) + x == Digits(m) + y
    ensures n == m && x == y
  {
    RunIsMaximal(c => IsDigit(c), Digits(n), x, Digits(m), y);
    DigitsRoundTrip(n);
    DigitsRoundTrip(m);
  }

  lemma TextsArePrefixFree(s: string, x: string, t: string, y: string)
    requires IsPlain(s) && IsPlain(t)
    requires ("\"" + s + "\"") + x == ("\"" + t + "\"") + y
    ensures s == t && x == y
  {
    var restS, restT := "\"" + x, "\"" + y;
    assert ("\"" + s + "\"") + x == "\"" + (s + restS);
    assert ("\"" + t + "\"") + y == "\"" + (t + restT);
    SameLengthSplit("\"", s + restS, "\"", t + restT);
    RunIsMaximal(c => IsPlainChar(c), s, restS, t, restT);
    SameLengthSplit("\"", x, "\"", y);
  }

  lemma {:induction false} EncodingIsPrefixFree(a: Json, x: string, b: Json, y: string)
    requires Encodable(a) && Encodable(b)
    requires Stops(x) && Stops(y)
    requires Encode(a) + x == Encode(b) + y
    ensures a == b && x == y
    decreases a, 1
  {
    hide IsPlain, Digits, Stops;
    SameKind(a, x, b, y);
    match a {
      case Null => SameLengthSplit("null", x, "null", y);
      case Number(n) => NumbersArePrefixFree(n, x, b.n, y);
      case Text(s) => TextsArePrefixFree(s, x, b.s, y);
      case Array(items) =>
        assert Encode(a) + x == "[" + (EncodeItems(items) + ("]" + x));
        assert Encode(b) + y == "[" + (EncodeItems(b.items) + ("]" + y));
        SameLengthSplit(
          "[", EncodeItems(items) + ("]" + x), "[", EncodeItems(b.items) + ("]" + y));
        ItemsArePrefixFree(items, x, b.items, y);
    }
  }

  lemma {:induction false} ItemsArePrefixFree(a: seq<Json>, x: string, b: seq<Json>, y: string)
    requires forall i :: 0 <= i < |a| ==> Encodable(a[i])
    requires forall i :: 0 <= i < |b| ==> Encodable(b[i])
    requires EncodeItems(a) + ("]" + x) == EncodeItems(b) + ("]" + y)
    ensures a == b && x == y
    decreases a, 0
  {
    ItemsStart(a, x);
    ItemsStart(b, y);
    if a == [] {
      assert EncodeItems(a) + ("]" + x) == "]" + x && EncodeItems(b) + ("]" + y) == "]" + y;
      SameLengthSplit("]", x, "]", y);
    } else {
      var restA, restB := AfterFirst(a, x), AfterFirst(b, y);
      EncodingIsPrefixFree(a[0], restA, b[0], restB);
      assert a == [a[0]] + a[1..] && b == [b[0]] + b[1..];
      if |a| == 1 {
        SameLengthSplit("]", x, "]", y);
      } else {
        SameLengthSplit(
          ",", EncodeItems(a[1..]) + ("]" + x), ",", EncodeItems(b[1..]) + ("]" + y));
        ItemsArePrefixFree(a[1..], x, b[1..], y);
      }
    }
  }

  /** What follows the first element inside the text of an array. */
  function AfterFirst(items: seq<Json>, x: string): (rest: string)
    requires items != []
    ensures Stops(rest) && rest != [] && (rest[0] == ']' <==> |items| == 1)
  {
    if |items| == 1 then "]" + x else "," + (EncodeItems(items[1..]) + ("]" + x))
  }

  lemma Regroup(a: string, b: string, c: string, d: string)
    ensures (a + b + c) + d == a + (b + (c + d))
  {
  }

  lemma SplitFirst(items: seq<Json>, x: string)
    requires items != []
    ensures EncodeItems(items) + ("]" + x) == Encode(items[0]) + AfterFirst(items, x)
  {
    if |items| > 1 {
      Regroup(Encode(items[0]), ",", EncodeItems(items[1..]), "]" + x);
    }
  }

  lemma ItemsStart(items: seq<Json>, x: string)
    ensures var text := EncodeItems(items) + ("]" + x);
            && |text| > 0
            && (text[0] == ']' <==> items == [])
            && (items != [] ==> text == Encode(items[0]) + AfterFirst(items, x))
  {
    if items != [] {
      SplitFirst(items, x);
      FirstCharacter(items[0]);
      var first, rest := Encode(items[0]), AfterFirst(items, x);
      assert (first + rest)[0] == first[0];
    }
  }

  /** Two values with the same text are the same value. */
  lemma EncodingIsInjective(a: Json, b: Json)
    requires Encodable(a) && Encodable(b)
    requires Encode(a) == Encode(b)
    ensures a == b
  {
    assert Encode(a) + [] == Encode(b) + [];
    EncodingIsPrefixFree(a, [], b, []);
  }
}
