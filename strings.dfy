/** Python string behaviour the handlers rely on: str.strip(), str.lower(),
    the `in` substring test, first-match scans over ordered keyword tables,
    and str() of an integer. Restricted to ASCII (see README). */
module Strings {

  /** Python's str.isspace() on the ASCII range: space, \t \n \v \f \r and
      the four separators 0x1C-0x1F. */
  predicate IsSpace(c: char) {
    c == ' ' || ('\t' <= c <= '\r') || ('\U{1C}' <= c <= '\U{1F}')
  }

  /** The index of the first non-whitespace character at or after `from`
      (|s| when there is none). */
  function SkipSpaces(s: string, from: nat): (k: nat)
    requires from <= |s|
    ensures from <= k <= |s|
    ensures forall i :: from <= i < k ==> IsSpace(s[i])
    ensures k < |s| ==> !IsSpace(s[k])
    decreases |s| - from
  {
    if from < |s| && IsSpace(s[from]) then SkipSpaces(s, from + 1) else from
  }

  /** The end of `s[..upTo]` once trailing whitespace is dropped, never
      below `floor`. */
  function DropTrailing(s: string, floor: nat, upTo: nat): (e: nat)
    requires floor <= upTo <= |s|
    ensures floor <= e <= upTo
    ensures forall i :: e <= i < upTo ==> IsSpace(s[i])
    ensures e > floor ==> !IsSpace(s[e - 1])
    decreases upTo
  {
    if upTo > floor && IsSpace(s[upTo - 1]) then DropTrailing(s, floor, upTo - 1) else upTo
  }

  /** Number of leading whitespace characters that Strip removes. */
  function LeadingSpaces(s: string): (n: nat)
    ensures n <= |s|
  {
    SkipSpaces(s, 0)
  }

  /** Python's str.strip(): the longest infix of `s` that neither starts nor
      ends with whitespace, everything around it being whitespace. */
  function Strip(s: string): (r: string)
    ensures LeadingSpaces(s) + |r| <= |s|
    ensures r == s[LeadingSpaces(s)..LeadingSpaces(s) + |r|]
    ensures r == [] || (!IsSpace(r[0]) && !IsSpace(r[|r| - 1]))
    ensures forall i :: 0 <= i < LeadingSpaces(s) ==> IsSpace(s[i])
    ensures forall i :: LeadingSpaces(s) + |r| <= i < |s| ==> IsSpace(s[i])
  {
    var a := SkipSpaces(s, 0);
    var e := DropTrailing(s, a, |s|);
    s[a..e]
  }

  /** A string strips to nothing exactly when every character is whitespace:
      this is what makes "" and "   " both empty messages. */
  lemma {:induction false} StripEmptyIffBlank(s: string)
    ensures Strip(s) == [] <==> forall i :: 0 <= i < |s| ==> IsSpace(s[i])
  {
    var r := Strip(s);
    if r != [] {
      assert !IsSpace(s[LeadingSpaces(s)]);
    }
  }

  /** Python's str.lower() on ASCII letters; every other character is kept. */
  function LowerChar(c: char): char {
    if 'A' <= c <= 'Z' then (c as int + 32) as char else c
  }

  /** Python's str.lower(): no upper-case letter is left, and every character
      that was not an upper-case letter stays where it was. */
  function Lower(s: string): (r: string)
    ensures |r| == |s|
    ensures forall i :: 0 <= i < |r| ==> !('A' <= r[i] <= 'Z')
    ensures forall i :: 0 <= i < |s| && !('A' <= s[i] <= 'Z') ==> r[i] == s[i]
    ensures forall i :: 0 <= i < |s| && 'A' <= s[i] <= 'Z' ==> r[i] == (s[i] as int + 32) as char
  {
    seq(|s|, i requires 0 <= i < |s| => LowerChar(s[i]))
  }

  /** Lowering twice is lowering once, so a check on Lower(s) is case-blind. */
  lemma LowerIdempotent(s: string)
    ensures Lower(Lower(s)) == Lower(s)
  {
  }

  /** `key` occurs in `text` starting at position `i`. */
  predicate OccursAt(text: string, key: string, i: int) {
    0 <= i && i + |key| <= |text| && text[i..i + |key|] == key
  }

  /** Python's `key in text` for strings: `key` occurs as a contiguous infix. */
  predicate Contains(text: string, key: string)
    ensures Contains(text, key) ==> |key| <= |text|
  {
    exists i | 0 <= i <= |text| - |key| :: OccursAt(text, key, i)
  }

  lemma ContainsInfix(before: string, key: string, after: string)
    ensures Contains(before + key + after, key)
  {
    var t := before + key + after;
    assert OccursAt(t, key, |before|);
  }

  /** An occurrence survives adding text on either side. */
  lemma ContainsExtend(a: string, b: string, key: string)
    ensures Contains(a, key) ==> Contains(a + b, key)
    ensures Contains(b, key) ==> Contains(a + b, key)
  {
    if Contains(a, key) {
      var i :| 0 <= i <= |a| - |key| && OccursAt(a, key, i);
      assert (a + b)[i..i + |key|] == a[i..i + |key|];
      assert OccursAt(a + b, key, i);
    }
    if Contains(b, key) {
      var i :| 0 <= i <= |b| - |key| && OccursAt(b, key, i);
      assert (a + b)[|a| + i..|a| + i + |key|] == b[i..i + |key|];
      assert OccursAt(a + b, key, |a| + i);
    }
  }

  /** Python's any(key in text for key in keys). */
  function AnyOccurs(keys: seq<string>, text: string): (b: bool)
    ensures b <==> exists i :: 0 <= i < |keys| && Contains(text, keys[i])
  {
    if keys == [] then false
    else Contains(text, keys[0]) || AnyOccurs(keys[1..], text)
  }

  /** The index at which a `for key in table: if key in text: ...` scan
      stops: the first entry whose key occurs in `text`, or |table| when
      none does. */
  function FirstHit<V>(table: seq<(string, V)>, text: string): (r: nat)
    ensures r <= |table|
    ensures r < |table| ==> Contains(text, table[r].0)
    ensures forall j :: 0 <= j < r ==> !Contains(text, table[j].0)
  {
    if table == [] then 0
    else if Contains(text, table[0].0) then 0
    else 1 + FirstHit(table[1..], text)
  }

  /** FirstHit is determined by its contract: the first occurring key wins. */
  lemma FirstHitIsFirst<V>(table: seq<(string, V)>, text: string, i: nat)
    requires i <= |table|
    requires i < |table| ==> Contains(text, table[i].0)
    requires forall j :: 0 <= j < i ==> !Contains(text, table[j].0)
    ensures FirstHit(table, text) == i
  {
  }

  function DigitChar(d: nat): char
    requires d < 10
  {
    ('0' as int + d) as char
  }

  /** Python's str() of a non-negative integer: its decimal digits. */
  function NatToString(n: nat): (r: string)
    ensures |r| >= 1
    ensures forall i :: 0 <= i < |r| ==> '0' <= r[i] <= '9'
    ensures r[0] == '0' ==> n == 0 && r == "0"
  {
    if n < 10 then [DigitChar(n)] else NatToString(n / 10) + [DigitChar(n % 10)]
  }

  /** Python's str() of an integer, with a leading '-' when negative. */
  function IntToString(n: int): (r: string)
    ensures r != [] && (r[0] == '-' <==> n < 0)
  {
    if n < 0 then "-" + NatToString(-n) else NatToString(n)
  }

  /** The value a decimal numeral with an optional leading '-' denotes. */
  function IntValue(s: string): int {
    if s != [] && s[0] == '-' then -DecimalValue(s[1..]) else DecimalValue(s)
  }

  /** The value a string of decimal digits denotes. */
  function DecimalValue(s: string): int {
    if s == [] then 0
    else 10 * DecimalValue(s[..|s| - 1]) + (s[|s| - 1] as int - '0' as int)
  }

  /** Reading back the digits of NatToString gives the number. */
  lemma {:induction false} NatToStringRoundTrip(n: nat)
    ensures DecimalValue(NatToString(n)) == n
  {
    if n >= 10 {
      NatToStringRoundTrip(n / 10);
      var s := NatToString(n);
      assert s[..|s| - 1] == NatToString(n / 10);
    }
  }

  /** Reading back str() of any integer, sign included, gives the integer. */
  lemma IntToStringRoundTrip(n: int)
    ensures IntValue(IntToString(n)) == n
  {
    if n < 0 {
      NatToStringRoundTrip(-n);
      assert IntToString(n)[1..] == NatToString(-n);
    } else {
      NatToStringRoundTrip(n);
    }
  }
}
