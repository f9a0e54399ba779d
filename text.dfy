/**
 * String helpers the source gets from Python: `str(n)` on an int,
 * `" ".join(form)`, and their inverses used to state round trips.
 */
module Text {
  import opened Wrappers
  import opened Chars

  function DigitChar(d: nat): (c: char)
    requires d < 10
    ensures IsDigit(c)
  {
    "0123456789"[d]
  }

  function DigitValue(c: char): (d: nat)
    ensures d < 10
    ensures IsDigit(c) ==> DigitChar(d) == c
  {
    if IsDigit(c) then c as int - '0' as int else 0
  }

  /** The decimal digits of `n`, most significant first, no leading zero. */
  function NatToString(n: nat): (s: string)
    ensures |s| >= 1
    ensures forall i :: 0 <= i < |s| ==> IsDigit(s[i])
    ensures |s| > 1 ==> s[0] != '0'
  {
    if n < 10 then [DigitChar(n)] else NatToString(n / 10) + [DigitChar(n % 10)]
  }

  /** Python's `str(i)` on an int: an optional minus sign, then the digits. */
  function IntToString(i: int): string {
    if i < 0 then "-" + NatToString(-i) else NatToString(i)
  }

  /** The value of a string of decimal digits. */
  function ParseNat(s: string): nat {
    if s == [] then 0 else ParseNat(s[..|s| - 1]) * 10 + DigitValue(s[|s| - 1])
  }

  /** Python's `int(s)` on what `str` produces. */
  function ParseInt(s: string): int {
    if |s| > 0 && s[0] == '-' then -(ParseNat(s[1..]) as int) else ParseNat(s)
  }

  lemma {:induction false} NatRoundTrip(n: nat)
    ensures ParseNat(NatToString(n)) == n
  {
    if n >= 10 {
      var s := NatToString(n);
      assert s[..|s| - 1] == NatToString(n / 10);
      NatRoundTrip(n / 10);
    }
  }

  /** `int(str(i)) == i` for every integer, negative ones included. */
  lemma IntRoundTrip(i: int)
    ensures ParseInt(IntToString(i)) == i
    ensures forall k :: 0 <= k < |IntToString(i)| ==> !IsSpace(IntToString(i)[k])
  {
    NatRoundTrip(if i < 0 then -i else i);
    if i < 0 {
      assert IntToString(i)[1..] == NatToString(-i);
    }
  }

  /** The index of the first `c` in `s`, or `|s|` when there is none. */
  function IndexOf(s: string, c: char): (r: nat)
    ensures r <= |s|
    ensures r < |s| ==> s[r] == c
    ensures c !in s[..r]
  {
    if s == [] then 0
    else if s[0] == c then 0
    else
      assert s[..IndexOf(s[1..], c) + 1] == [s[0]] + s[1..][..IndexOf(s[1..], c)];
      1 + IndexOf(s[1..], c)
  }

  /** The index of the last `c` in `s`, or `|s|` when there is none. */
  function LastIndexOf(s: string, c: char): (r: nat)
    ensures r <= |s|
    ensures r < |s| ==> s[r] == c && c !in s[r + 1..]
    ensures r == |s| ==> c !in s
  {
    if s == [] then 0
    else if s[|s| - 1] == c then |s| - 1
    else
      var r := LastIndexOf(s[..|s| - 1], c);
      if r == |s| - 1 then |s|
      else
        assert s[r + 1..] == s[..|s| - 1][r + 1..] + [s[|s| - 1]];
        r
  }

  /** `" ".join(words)` */
  function Join(words: seq<string>): string {
    if words == [] then ""
    else if |words| == 1 then words[0]
    else words[0] + " " + Join(words[1..])
  }

  /** `s.split(" ")` */
  function Split(s: string): (words: seq<string>)
    ensures |words| >= 1
    decreases |s|
  {
    var i := IndexOf(s, ' ');
    if i == |s| then [s] else [s[..i]] + Split(s[i + 1..])
  }

  /** A word that `Join` can separate again: non-empty, without a blank. */
  predicate IsWord(w: string) {
    |w| > 0 && ' ' !in w
  }

  /** Splitting a joined, non-empty list of blank-free words gives the words back. */
  lemma {:induction false} SplitJoin(words: seq<string>)
    requires |words| >= 1
    requires forall k :: 0 <= k < |words| ==> IsWord(words[k])
    ensures Split(Join(words)) == words
  {
    if |words| > 1 {
      var w, rest := words[0], Join(words[1..]);
      var s := w + " " + rest;
      assert s[..|w|] == w;
      assert IndexOf(s, ' ') == |w| by {
        assert s[|w|] == ' ';
        assert ' ' !in s[..IndexOf(s, ' ')];
      }
      assert s[|w| + 1..] == rest;
      SplitJoin(words[1..]);
    } else {
      assert IndexOf(words[0], ' ') == |words[0]|;
    }
  }

  /**
   * In `a + ", " + b + ", " + c` with blank-free `a` and `c`, the first blank
   * follows `a` and the last blank precedes `c`.
   */
  lemma FieldsAtBlanks(s: string, a: string, b: string, c: string)
    requires s == a + ", " + b + ", " + c
    requires ' ' !in a && ' ' !in c
    ensures IndexOf(s, ' ') == |a| + 1 && LastIndexOf(s, ' ') == |a| + |b| + 3
  {
    var first, last := |a| + 1, |a| + |b| + 3;
    assert forall k :: 0 <= k < first ==> s[k] != ' ' by {
      forall k | 0 <= k < first ensures s[k] != ' ' {
        if k < |a| { assert s[k] == a[k]; }
      }
    }
    IndexOfAt(s, ' ', first);
    assert forall k :: last < k < |s| ==> s[k] != ' ' by {
      forall k | last < k < |s| ensures s[k] != ' ' {
        assert s[k] == c[k - last - 1];
      }
    }
    LastIndexOfAt(s, ' ', last);
  }

  lemma {:induction false} IndexOfAt(s: string, c: char, k: nat)
    requires k < |s| && s[k] == c
    requires forall j :: 0 <= j < k ==> s[j] != c
    ensures IndexOf(s, c) == k
  {
    if k > 0 {
      IndexOfAt(s[1..], c, k - 1);
    }
  }

  lemma {:induction false} LastIndexOfAt(s: string, c: char, k: nat)
    requires k < |s| && s[k] == c
    requires forall j :: k < j < |s| ==> s[j] != c
    ensures LastIndexOf(s, c) == k
  {
    if k < |s| - 1 {
      LastIndexOfAt(s[..|s| - 1], c, k);
    }
  }

  /** `"[" + a + ", " + b + ", " + c + "]"` */
  function Bracketed(a: string, b: string, c: string): string {
    "[" + a + ", " + b + ", " + c + "]"
  }

  /**
   * Splits `a + ", " + b + ", " + c` back into its fields: the first runs up
   * to the first blank, the last follows the last blank, the middle lies between.
   */
  function SplitFields(s: string): Option<(string, string, string)> {
    var first, last := IndexOf(s, ' '), LastIndexOf(s, ' ');
    if first == 0 || last == |s| || last < first + 2 || s[first - 1] != ',' || s[last - 1] != ','
    then None
    else Some((s[..first - 1], s[first + 1..last - 1], s[last + 1..]))
  }

  /** Reads back what `Bracketed` writes. */
  function SplitBracketed(s: string): Option<(string, string, string)> {
    if |s| < 2 || s[0] != '[' || s[|s| - 1] != ']' then None else SplitFields(s[1..|s| - 1])
  }

  lemma FieldsRoundTrip(a: string, b: string, c: string)
    requires ' ' !in a && ' ' !in c
    ensures SplitFields(a + ", " + b + ", " + c) == Some((a, b, c))
  {
    var s := a + ", " + b + ", " + c;
    FieldsAtBlanks(s, a, b, c);
    var first, last := |a| + 1, |a| + |b| + 3;
    assert s[..first - 1] == a && s[first + 1..last - 1] == b && s[last + 1..] == c;
  }

  lemma BracketedRoundTrip(a: string, b: string, c: string)
    requires ' ' !in a && ' ' !in c
    ensures SplitBracketed(Bracketed(a, b, c)) == Some((a, b, c))
  {
    var s := Bracketed(a, b, c);
    assert s[1..|s| - 1] == a + ", " + b + ", " + c;
    FieldsRoundTrip(a, b, c);
  }
}
