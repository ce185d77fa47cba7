/**
 * The parts of Go's `strings` and `strconv` packages that the bot relies on.
 * A Dafny `string` stands for a Go string; one `char` stands for one unit of
 * Go's `len` and slicing.
 */
module GoStrings {
  import opened Wrappers

  /** strings.HasPrefix */
  predicate HasPrefix(s: string, prefix: string)
  {
    |prefix| <= |s| && s[..|prefix|] == prefix
  }

  /** strings.HasSuffix */
  predicate HasSuffix(s: string, suffix: string)
  {
    |suffix| <= |s| && s[|s| - |suffix|..] == suffix
  }

  /** strings.Contains, scanning start positions left to right. */
  predicate Contains(s: string, sub: string)
    decreases |s|
  {
    HasPrefix(s, sub) || (|s| > 0 && Contains(s[1..], sub))
  }

  /** `sub` occurs in `s` starting at position `i`. */
  predicate OccursAt(s: string, sub: string, i: int)
  {
    0 <= i <= |s| - |sub| && s[i..i + |sub|] == sub
  }

  /** An occurrence past the first position is an occurrence in the tail, one position earlier. */
  lemma OccursShift(s: string, sub: string, i: int)
    requires |s| > 0 && i >= 1
    ensures OccursAt(s, sub, i) <==> OccursAt(s[1..], sub, i - 1)
  {
    if 0 <= i - 1 <= |s| - 1 - |sub| {
      assert s[i..i + |sub|] == s[1..][i - 1..i - 1 + |sub|];
    }
  }

  /** Contains agrees with the positional definition "sub occurs at some position of s". */
  lemma {:induction false} ContainsIffOccurs(s: string, sub: string)
    ensures Contains(s, sub) <==> exists i :: OccursAt(s, sub, i)
    decreases |s|
  {
    if HasPrefix(s, sub) {
      assert OccursAt(s, sub, 0);
    } else if |s| == 0 {
      assert forall i :: !OccursAt(s, sub, i);
    } else {
      ContainsIffOccurs(s[1..], sub);
      if Contains(s[1..], sub) {
        var i :| OccursAt(s[1..], sub, i);
        OccursShift(s, sub, i + 1);
      } else {
        forall i | OccursAt(s, sub, i)
          ensures false
        {
          if i > 0 {
            OccursShift(s, sub, i);
          }
        }
      }
    }
  }

  /** Every character of a contained string occurs in the containing string. */
  lemma {:induction false} ContainsChar(s: string, sub: string, c: char)
    requires Contains(s, sub) && c in sub
    ensures c in s
    decreases |s|
  {
    if HasPrefix(s, sub) {
      assert c in s[..|sub|];
    } else {
      ContainsChar(s[1..], sub, c);
    }
  }

  /** A string contains itself and everything it starts with. */
  lemma {:induction false} PrefixContained(s: string, prefix: string)
    requires HasPrefix(s, prefix)
    ensures Contains(s, prefix)
  {
  }

  /** unicode.IsSpace, the predicate strings.TrimSpace uses. */
  predicate IsSpace(c: char)
  {
    c == ' ' || c == '\t' || c == '\n' || c == '\U{000B}' || c == '\U{000C}' || c == '\r'
    || c == '\U{0085}' || c == '\U{00A0}' || c == '\U{1680}'
    || ('\U{2000}' <= c <= '\U{200A}') || c == '\U{2028}' || c == '\U{2029}'
    || c == '\U{202F}' || c == '\U{205F}' || c == '\U{3000}'
  }

  /** The number of white-space characters at the start of a string. */
  function LeadingSpaces(s: string): (k: nat)
    ensures k <= |s|
    ensures forall j :: 0 <= j < k ==> IsSpace(s[j])
    ensures k < |s| ==> !IsSpace(s[k])
    decreases |s|
  {
    if |s| > 0 && IsSpace(s[0]) then
      var k := LeadingSpaces(s[1..]);
      assert forall j :: 1 <= j < k + 1 ==> s[j] == s[1..][j - 1];
      k + 1
    else 0
  }

  /** Where the white space at the end of a string begins. */
  function TrailingStart(s: string): (k: nat)
    ensures k <= |s|
    ensures forall j :: k <= j < |s| ==> IsSpace(s[j])
    ensures k > 0 ==> !IsSpace(s[k - 1])
    decreases |s|
  {
    if |s| > 0 && IsSpace(s[|s| - 1]) then
      var init := s[..|s| - 1];
      var k := TrailingStart(init);
      assert forall j :: k <= j < |init| ==> s[j] == init[j];
      k
    else |s|
  }

  /** Drops leading white space. */
  function TrimLeft(s: string): (r: string)
    ensures exists k :: 0 <= k <= |s| && r == s[k..] && forall j :: 0 <= j < k ==> IsSpace(s[j])
    ensures r == [] || !IsSpace(r[0])
  {
    s[LeadingSpaces(s)..]
  }

  /** Drops trailing white space. */
  function TrimRight(s: string): (r: string)
    ensures exists k :: 0 <= k <= |s| && r == s[..k] && forall j :: k <= j < |s| ==> IsSpace(s[j])
    ensures r == [] || !IsSpace(r[|r| - 1])
  {
    s[..TrailingStart(s)]
  }

  /** strings.TrimSpace: the longest infix with no white space at either end. */
  function TrimSpace(s: string): (r: string)
    ensures r == [] || (!IsSpace(r[0]) && !IsSpace(r[|r| - 1]))
    ensures exists i, j :: 0 <= i <= j <= |s| && r == s[i..j]
  {
    var i := LeadingSpaces(s);
    var k := TrailingStart(s[i..]);
    assert s[i..][..k] == s[i..i + k];
    TrimRight(TrimLeft(s))
  }

  /** TrimSpace leaves a string without surrounding white space unchanged. */
  lemma {:induction false} TrimSpaceKeeps(s: string)
    requires s == [] || (!IsSpace(s[0]) && !IsSpace(s[|s| - 1]))
    ensures TrimSpace(s) == s
  {
    assert LeadingSpaces(s) == 0;
    assert TrailingStart(s) == |s|;
    assert s[0..] == s && s[..|s|] == s;
  }

  /** strings.TrimPrefix */
  function TrimPrefix(s: string, prefix: string): string
  {
    if HasPrefix(s, prefix) then s[|prefix|..] else s
  }

  /** unicode.ToLower restricted to the ASCII letters. */
  function LowerChar(c: char): char
  {
    if 'A' <= c <= 'Z' then (c as int + 32) as char else c
  }

  /** strings.ToLower, letter by letter. */
  function ToLower(s: string): (r: string)
    ensures |r| == |s|
  {
    seq(|s|, i requires 0 <= i < |s| => LowerChar(s[i]))
  }

  /** strings.Join */
  function Join(parts: seq<string>, sep: string): string
  {
    if |parts| == 0 then ""
    else if |parts| == 1 then parts[0]
    else parts[0] + sep + Join(parts[1..], sep)
  }

  /** strings.Split around a one-character separator. */
  function Split(s: string, sep: char): (parts: seq<string>)
    ensures |parts| >= 1
    ensures forall p :: p in parts ==> sep !in p
    decreases |s|
  {
    if |s| == 0 then [""]
    else
      var rest := Split(s[1..], sep);
      if s[0] == sep then [""] + rest
      else [[s[0]] + rest[0]] + rest[1..]
  }

  /** Joining the pieces of a split with the separator gives back the string. */
  lemma {:induction false} JoinSplit(s: string, sep: char)
    ensures Join(Split(s, sep), [sep]) == s
    decreases |s|
  {
    if |s| > 0 {
      var rest := Split(s[1..], sep);
      JoinSplit(s[1..], sep);
      if s[0] != sep {
        if |rest| == 1 {
        } else {
          assert Join(rest, [sep]) == rest[0] + [sep] + Join(rest[1..], [sep]);
          assert rest[1..][1..] == rest[2..];
        }
      }
    }
  }

  /** The number of occurrences of a character. */
  function CountChar(s: string, c: char): nat
  {
    if |s| == 0 then 0 else (if s[0] == c then 1 else 0) + CountChar(s[1..], c)
  }

  /** Appending a character adds one to its own count and leaves every other count as it was. */
  lemma {:induction false} CountCharSnoc(s: string, x: char, c: char)
    ensures CountChar(s + [x], c) == CountChar(s, c) + (if x == c then 1 else 0)
    decreases |s|
  {
    if |s| > 0 {
      assert (s + [x])[1..] == s[1..] + [x];
      CountCharSnoc(s[1..], x, c);
    }
  }

  /** A split yields one more piece than there are separators. */
  lemma {:induction false} SplitCount(s: string, sep: char)
    ensures |Split(s, sep)| == CountChar(s, sep) + 1
    decreases |s|
  {
    if |s| > 0 {
      SplitCount(s[1..], sep);
    }
  }

  /** Counts add up over a concatenation. */
  lemma {:induction false} CountCharAppend(a: string, b: string, c: char)
    ensures CountChar(a + b, c) == CountChar(a, c) + CountChar(b, c)
    decreases |a|
  {
    if |a| == 0 {
      assert a + b == b;
    } else {
      assert (a + b)[0] == a[0] && (a + b)[1..] == a[1..] + b;
      CountCharAppend(a[1..], b, c);
    }
  }

  /** A character is counted exactly when it occurs. */
  lemma {:induction false} CountCharPositive(s: string, c: char)
    ensures CountChar(s, c) > 0 <==> c in s
    decreases |s|
  {
    if |s| > 0 {
      CountCharPositive(s[1..], c);
      assert s == [s[0]] + s[1..];
    }
  }

  /** `strings.Repeat(s, n)` holds n times the count of s. */
  lemma {:induction false} RepeatCount(s: string, n: nat, c: char)
    ensures CountChar(Repeat(s, n), c) == n * CountChar(s, c)
    decreases n
  {
    if n > 0 {
      var k := CountChar(s, c);
      CountCharAppend(s, Repeat(s, n - 1), c);
      RepeatCount(s, n - 1, c);
      assert n * k == k + (n - 1) * k;
    }
  }

  /** strings.Replace(s, old, new, 1): replaces the leftmost occurrence only. */
  function ReplaceFirst(s: string, target: string, replacement: string): string
    decreases |s|
  {
    if HasPrefix(s, target) then replacement + s[|target|..]
    else if |s| == 0 then s
    else [s[0]] + ReplaceFirst(s[1..], target, replacement)
  }

  /** Replacing a string that does not occur changes nothing. */
  lemma {:induction false} ReplaceFirstAbsent(s: string, target: string, replacement: string)
    requires !Contains(s, target)
    ensures ReplaceFirst(s, target, replacement) == s
    decreases |s|
  {
    if |s| > 0 {
      ReplaceFirstAbsent(s[1..], target, replacement);
    }
  }

  /** strings.Repeat */
  function Repeat(s: string, n: nat): (r: string)
    ensures |r| == |s| * n
  {
    if n == 0 then "" else s + Repeat(s, n - 1)
  }

  /** `s[:n] + note` when `len(s) > n`, and `s` otherwise: the bot's cut-and-mark idiom. */
  function CutWithNote(s: string, n: nat, note: string): (r: string)
    ensures |s| <= n ==> r == s
    ensures |s| > n ==> |r| == n + |note| && HasPrefix(r, s[..n]) && HasSuffix(r, note)
  {
    if |s| > n then s[..n] + note else s
  }

  /** The decimal digits of a natural number (strconv.Itoa for n >= 0). */
  function NatToDecimal(n: nat): (r: string)
    ensures |r| >= 1 && forall i :: 0 <= i < |r| ==> '0' <= r[i] <= '9'
    decreases n
  {
    if n < 10 then [('0' as int + n) as char]
    else NatToDecimal(n / 10) + [('0' as int + n % 10) as char]
  }

  /** strconv.Itoa */
  function IntToDecimal(n: int): (r: string)
    ensures |r| >= 1
    ensures n >= 0 ==> forall i :: 0 <= i < |r| ==> '0' <= r[i] <= '9'
    ensures n < 0 ==> r[0] == '-'
  {
    if n >= 0 then NatToDecimal(n) else "-" + NatToDecimal(-n)
  }

  /** The value of a string of decimal digits. */
  function DigitsValue(s: string): nat
    requires forall i :: 0 <= i < |s| ==> '0' <= s[i] <= '9'
  {
    if |s| == 0 then 0 else DigitsValue(s[..|s| - 1]) * 10 + (s[|s| - 1] as int - '0' as int)
  }

  /** Reading back the digits Itoa writes gives the number. */
  lemma {:induction false} DigitsValueOfDecimal(n: nat)
    ensures DigitsValue(NatToDecimal(n)) == n
    decreases n
  {
    if n >= 10 {
      var r := NatToDecimal(n);
      DigitsValueOfDecimal(n / 10);
      assert r[..|r| - 1] == NatToDecimal(n / 10);
    }
  }

  /** A decimal string starts with "-" exactly for a negative number. */
  lemma DecimalSign(n: int)
    ensures IntToDecimal(n)[0] == '-' <==> n < 0
  {
    if n >= 0 {
      assert '0' <= IntToDecimal(n)[0] <= '9';
    }
  }

  /** Different integers have different decimal strings. */
  lemma {:induction false} IntToDecimalInjective(a: int, b: int)
    requires IntToDecimal(a) == IntToDecimal(b)
    ensures a == b
  {
    DecimalSign(a);
    DecimalSign(b);
    if a >= 0 && b >= 0 {
      DigitsValueOfDecimal(a);
      DigitsValueOfDecimal(b);
    } else if a < 0 && b < 0 {
      assert NatToDecimal(-a) == IntToDecimal(a)[1..];
      assert NatToDecimal(-b) == IntToDecimal(b)[1..];
      DigitsValueOfDecimal(-a);
      DigitsValueOfDecimal(-b);
    }
  }

  /** The value of a hexadecimal digit, either case, as strconv reads it. */
  function HexDigit(c: char): Option<nat>
  {
    if '0' <= c <= '9' then Some(c as int - '0' as int)
    else if 'a' <= c <= 'f' then Some(c as int - 'a' as int + 10)
    else if 'A' <= c <= 'F' then Some(c as int - 'A' as int + 10)
    else None
  }

  predicate AllHex(s: string)
  {
    forall i :: 0 <= i < |s| ==> HexDigit(s[i]).Some?
  }

  /** The value of a string of hexadecimal digits. */
  function HexValue(s: string): nat
    requires AllHex(s)
  {
    if |s| == 0 then 0 else HexValue(s[..|s| - 1]) * 16 + HexDigit(s[|s| - 1]).value
  }

  /** Leading zeros do not change a hexadecimal value. */
  lemma {:induction false} HexValueZeros(k: nat, s: string)
    requires AllHex(s)
    ensures AllHex(Repeat("0", k) + s) && HexValue(Repeat("0", k) + s) == HexValue(s)
  {
    if k == 0 {
      assert Repeat("0", k) + s == s;
    } else {
      HexValueZeros(k - 1, s);
      var t := Repeat("0", k - 1) + s;
      assert Repeat("0", k) + s == "0" + t;
      HexValueZero(t);
    }
  }

  lemma {:induction false} HexValueZero(s: string)
    requires AllHex(s)
    ensures AllHex("0" + s) && HexValue("0" + s) == HexValue(s)
    decreases |s|
  {
    var z := "0" + s;
    assert forall i :: 0 < i < |z| ==> z[i] == s[i - 1];
    if |s| > 0 {
      assert z[..|z| - 1] == "0" + s[..|s| - 1];
      HexValueZero(s[..|s| - 1]);
    }
  }
}
