/** Decimal numbers and whitespace-separated fields, as the standard library prints and parses them. */
module Text {
  import opened Wrappers

  // ---------------------------------------------------------------
  // Whitespace
  // ---------------------------------------------------------------

  /** The Unicode White_Space property, which `split_whitespace` goes by. */
  predicate IsSpace(c: char) {
    var n := c as int;
    || 0x09 <= n <= 0x0D || n == 0x20 || n == 0x85 || n == 0xA0 || n == 0x1680
    || 0x2000 <= n <= 0x200A || n == 0x2028 || n == 0x2029 || n == 0x202F || n == 0x205F || n == 0x3000
  }

  /** A word: not empty, no whitespace. */
  predicate IsWord(s: string) {
    s != "" && forall i :: 0 <= i < |s| ==> !IsSpace(s[i])
  }

  /** The rest of `split_whitespace` with `word` read so far. */
  function Fields(s: string, word: string): (fields: seq<string>)
    decreases |s|
  {
    if s == "" then (if word == "" then [] else [word])
    else if IsSpace(s[0]) then (if word == "" then [] else [word]) + Fields(s[1..], "")
    else Fields(s[1..], word + [s[0]])
  }

  function SplitWhitespace(s: string): (fields: seq<string>) {
    Fields(s, "")
  }

  /** Words with one space between them. */
  function Join(words: seq<string>): (s: string)
    decreases |words|
  {
    if words == [] then "" else if |words| == 1 then words[0] else words[0] + " " + Join(words[1..])
  }

  lemma {:induction false} FieldsOfWord(w: string, rest: string, word: string)
    requires forall i :: 0 <= i < |w| ==> !IsSpace(w[i])
    ensures Fields(w + rest, word) == Fields(rest, word + w)
    decreases |w|
  {
    if w == "" {
      assert w + rest == rest && word + w == word;
    } else {
      assert (w + rest)[1..] == w[1..] + rest;
      FieldsOfWord(w[1..], rest, word + [w[0]]);
      assert word + [w[0]] + w[1..] == word + w;
    }
  }

  /** Splitting undoes joining. */
  lemma {:induction false} SplitJoined(words: seq<string>)
    requires forall i :: 0 <= i < |words| ==> IsWord(words[i])
    ensures SplitWhitespace(Join(words)) == words
    decreases |words|
  {
    if |words| == 1 {
      FieldsOfWord(words[0], "", "");
      assert words[0] + "" == words[0] && "" + words[0] == words[0];
    } else if |words| > 1 {
      var rest := " " + Join(words[1..]);
      assert Join(words) == words[0] + rest;
      FieldsOfWord(words[0], rest, "");
      assert "" + words[0] == words[0] && rest[1..] == Join(words[1..]);
      SplitJoined(words[1..]);
    }
  }

  /** Every field is a word. */
  lemma {:induction false} FieldsAreWords(s: string, word: string)
    requires word == "" || IsWord(word)
    ensures forall i :: 0 <= i < |Fields(s, word)| ==> IsWord(Fields(s, word)[i])
    decreases |s|
  {
    if s == "" {
    } else if IsSpace(s[0]) {
      FieldsAreWords(s[1..], "");
    } else {
      FieldsAreWords(s[1..], word + [s[0]]);
    }
  }

  // ---------------------------------------------------------------
  // Decimal numbers
  // ---------------------------------------------------------------

  predicate IsDigit(c: char) {
    '0' <= c <= '9'
  }

  function Digit(n: nat): (c: char)
    requires n < 10
    ensures IsDigit(c) && DigitValue(c) == n
  {
    '0' + n as char
  }

  function DigitValue(c: char): (n: nat)
    requires IsDigit(c)
  {
    (c - '0') as nat
  }

  /** `Display` of an unsigned integer. */
  function Decimal(n: nat): (s: string) {
    if n < 10 then [Digit(n)] else Decimal(n / 10) + [Digit(n % 10)]
  }

  /** The value of a string of digits, or none. */
  function DigitsValue(s: string): (r: Option<nat>) {
    if s == "" then Some(0) else
      var last := |s| - 1;
      match DigitsValue(s[..last])
      case None => None
      case Some(high) => if IsDigit(s[last]) then Some(high * 10 + DigitValue(s[last])) else None
  }

  /** `FromStr` of an unsigned integer type with the given bound: a sign `+` is allowed, blanks are not. */
  function ParseUnsigned(s: string, bound: nat): (r: Option<nat>)
    ensures r.Some? ==> r.value < bound
  {
    var digits := if s != "" && s[0] == '+' then s[1..] else s;
    if digits == "" then None else
      match DigitsValue(digits)
      case None => None
      case Some(n) => if n < bound then Some(n) else None
  }

  lemma {:induction false} DecimalDigits(n: nat)
    ensures IsWord(Decimal(n)) && IsDigit(Decimal(n)[0]) && DigitsValue(Decimal(n)) == Some(n)
  {
    if n < 10 {
      assert Decimal(n)[..0] == "";
    } else {
      DecimalDigits(n / 10);
      var s := Decimal(n);
      assert s[..|s| - 1] == Decimal(n / 10) && s[|s| - 1] == Digit(n % 10);
    }
  }

  /** Parsing undoes printing. */
  lemma DecimalRoundTrip(n: nat, bound: nat)
    requires n < bound
    ensures ParseUnsigned(Decimal(n), bound) == Some(n)
  {
    DecimalDigits(n);
  }
}
