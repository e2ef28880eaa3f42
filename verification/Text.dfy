/** The string operations of Go's `strings`, `strconv` and `sort` packages that the
    label parser and the gateway encoder rest on. A `char` stands for one byte. */
module Text {

  datatype Option<+T> = None | Some(value: T)

  // ---------- strings.Split and strings.Join on a one-byte separator ----------

  function Split(s: string, sep: char): (parts: seq<string>)
    ensures |parts| >= 1
  {
    if s == "" then [""]
    else
      var rest := Split(s[1..], sep);
      if s[0] == sep then [""] + rest else [[s[0]] + rest[0]] + rest[1..]
  }

  function Join(parts: seq<string>, sep: char): string {
    if parts == [] then ""
    else if |parts| == 1 then parts[0]
    else parts[0] + [sep] + Join(parts[1..], sep)
  }

  /** A separator-free block at the front of `s` lands at the front of the first part. */
  lemma {:induction false} SplitPrepend(head: string, s: string, sep: char)
    requires sep !in head
    ensures var parts := Split(s, sep);
            Split(head + s, sep) == [head + parts[0]] + parts[1..]
  {
    if head == "" {
      assert head + s == s && head + Split(s, sep)[0] == Split(s, sep)[0];
    } else {
      assert (head + s)[1..] == head[1..] + s;
      SplitPrepend(head[1..], s, sep);
      assert [head[0]] + (head[1..] + Split(s, sep)[0]) == head + Split(s, sep)[0];
    }
  }

  lemma {:induction false} SplitJoin(parts: seq<string>, sep: char)
    requires parts != []
    requires forall i :: 0 <= i < |parts| ==> sep !in parts[i]
    ensures Split(Join(parts, sep), sep) == parts
  {
    if |parts| == 1 {
      assert parts[0] + "" == parts[0];
      SplitPrepend(parts[0], "", sep);
    } else {
      var rest := Join(parts[1..], sep);
      SplitJoin(parts[1..], sep);
      assert ([sep] + rest)[1..] == rest;
      assert Join(parts, sep) == parts[0] + ([sep] + rest);
      SplitPrepend(parts[0], [sep] + rest, sep);
      assert parts[0] + "" == parts[0];
    }
  }

  /** Splitting never leaves a separator or introduces a byte, and joining undoes it. */
  lemma {:induction false} SplitParts(s: string, sep: char)
    ensures Join(Split(s, sep), sep) == s
    ensures forall i :: 0 <= i < |Split(s, sep)| ==> sep !in Split(s, sep)[i]
  {
    if s != "" {
      SplitParts(s[1..], sep);
      var rest := Split(s[1..], sep);
      var parts := Split(s, sep);
      if s[0] == sep {
        assert parts[1..] == rest;
      } else {
        assert parts[1..] == rest[1..];
        if |rest| > 1 {
          assert [s[0]] + (rest[0] + [sep] + Join(rest[1..], sep)) == ([s[0]] + rest[0]) + [sep] + Join(rest[1..], sep);
        }
      }
    }
  }

  // ---------- strings.TrimSpace, strings.Cut, prefixes ----------

  predicate IsSpace(c: char) { c in {' ', '\t', '\n', '\r', 11 as char, 12 as char} }

  function TrimLeft(s: string): (r: string)
    ensures |r| <= |s| && (r == "" || !IsSpace(r[0])) && r == s[|s| - |r|..]
  {
    if s != "" && IsSpace(s[0]) then TrimLeft(s[1..]) else s
  }

  function TrimRight(s: string): (r: string)
    ensures |r| <= |s| && (r == "" || !IsSpace(r[|r| - 1])) && r == s[..|r|]
  {
    if s != "" && IsSpace(s[|s| - 1]) then TrimRight(s[..|s| - 1]) else s
  }

  function TrimSpace(s: string): string { TrimRight(TrimLeft(s)) }

  predicate Trimmed(s: string) { s == "" || (!IsSpace(s[0]) && !IsSpace(s[|s| - 1])) }

  lemma TrimSpaceTrims(s: string)
    ensures Trimmed(TrimSpace(s))
    ensures forall c :: c in TrimSpace(s) ==> c in s
    ensures Trimmed(s) ==> TrimSpace(s) == s
  {
    var l := TrimLeft(s);
    var r := TrimRight(l);
    assert r != "" ==> r[0] == l[0];
  }

  predicate Blank(s: string) { forall i :: 0 <= i < |s| ==> IsSpace(s[i]) }

  lemma {:induction false} TrimLeftExact(s: string)
    ensures Blank(s[..|s| - |TrimLeft(s)|]) && (TrimLeft(s) == "" ==> Blank(s))
  {
    if s != "" && IsSpace(s[0]) {
      TrimLeftExact(s[1..]);
      var n := |s| - |TrimLeft(s)|;
      assert s[..n] == [s[0]] + s[1..][..n - 1];
    }
  }

  lemma {:induction false} TrimRightExact(s: string)
    ensures Blank(s[|TrimRight(s)|..])
  {
    if s != "" && IsSpace(s[|s| - 1]) {
      var init := s[..|s| - 1];
      TrimRightExact(init);
      assert s[|TrimRight(s)|..] == init[|TrimRight(s)|..] + [s[|s| - 1]];
    }
  }

  lemma TrimmedPart(s: string, l: string, r: string)
    requires |r| <= |l| <= |s| && l == s[|s| - |l|..] && r == l[..|r|]
    ensures var i := |s| - |l|; r == s[i..i + |r|] && s[i + |r|..] == l[|r|..]
  {
  }

  lemma BlankEnds(s: string, i: nat, j: nat)
    requires i <= j <= |s| && Blank(s[..i]) && Blank(s[j..])
    ensures i == j ==> Blank(s)
  {
    assert forall k :: 0 <= k < i ==> s[..i][k] == s[k];
    assert forall k :: j <= k < |s| ==> s[j..][k - j] == s[k];
  }

  /** TrimSpace takes blanks off both ends and nothing else. */
  lemma TrimSpaceExact(s: string)
    ensures exists i, j :: 0 <= i <= j <= |s| && TrimSpace(s) == s[i..j] && Blank(s[..i]) && Blank(s[j..])
    ensures TrimSpace(s) == "" <==> Blank(s)
  {
    var l := TrimLeft(s);
    var r := TrimRight(l);
    var i := |s| - |l|;
    TrimLeftExact(s);
    TrimRightExact(l);
    TrimmedPart(s, l, r);
    assert l != "" ==> s[i] == l[0] && !IsSpace(l[0]);
    BlankEnds(s, i, i + |r|);
  }

  /** strings.Cut: the text before and after the first separator. */
  function Cut(s: string, sep: char): Option<(string, string)> {
    if s == "" then None
    else if s[0] == sep then Some(("", s[1..]))
    else match Cut(s[1..], sep)
      case None => None
      case Some(p) => Some(([s[0]] + p.0, p.1))
  }

  lemma {:induction false} CutAt(before: string, after: string, sep: char)
    requires sep !in before
    ensures Cut(before + [sep] + after, sep) == Some((before, after))
  {
    var s := before + [sep] + after;
    if before == "" {
      assert s[1..] == after;
    } else {
      assert s[1..] == before[1..] + [sep] + after;
      CutAt(before[1..], after, sep);
      assert [before[0]] + before[1..] == before;
    }
  }

  lemma {:induction false} CutParts(s: string, sep: char)
    requires Cut(s, sep).Some?
    ensures var p := Cut(s, sep).value;
            sep !in p.0 && s == p.0 + [sep] + p.1
  {
    if s[0] == sep {
      assert s == "" + [sep] + s[1..];
    } else {
      CutParts(s[1..], sep);
    }
  }

  predicate HasPrefix(s: string, prefix: string) { prefix <= s }

  predicate HasSuffix(s: string, suffix: string) {
    |suffix| <= |s| && s[|s| - |suffix|..] == suffix
  }

  // ---------- decimal numbers ----------

  predicate IsDigit(c: char) { '0' <= c <= '9' }

  function Decimal(n: nat): (s: string)
    ensures s != "" && forall i :: 0 <= i < |s| ==> IsDigit(s[i])
  {
    if n < 10 then [('0' as int + n) as char]
    else Decimal(n / 10) + [('0' as int + n % 10) as char]
  }

  function DecimalValue(s: string): nat
    requires forall i :: 0 <= i < |s| ==> IsDigit(s[i])
  {
    if s == "" then 0
    else
      assert IsDigit(s[|s| - 1]);
      DecimalValue(s[..|s| - 1]) * 10 + (s[|s| - 1] as int - '0' as int)
  }

  /** strconv.ParseUint(s, 10, 16). */
  function ParseUint16(s: string): Option<nat> {
    if s == "" || exists i :: 0 <= i < |s| && !IsDigit(s[i]) then None
    else if DecimalValue(s) > 65535 then None
    else Some(DecimalValue(s))
  }

  lemma {:induction false} DecimalRoundTrip(n: nat)
    ensures DecimalValue(Decimal(n)) == n
  {
    var s := Decimal(n);
    if n >= 10 {
      DecimalRoundTrip(n / 10);
      assert s[..|s| - 1] == Decimal(n / 10);
    }
  }

  function Zeros(k: nat): (s: string)
    ensures |s| == k && forall i :: 0 <= i < k ==> s[i] == '0'
  {
    if k == 0 then "" else Zeros(k - 1) + "0"
  }

  /** The text is the number in decimal, leading zeros allowed. */
  ghost predicate Numeral(s: string, n: nat) { exists k: nat :: s == Zeros(k) + Decimal(n) }

  predicate Digits(s: string) { forall i :: 0 <= i < |s| ==> IsDigit(s[i]) }

  lemma {:induction false} ZerosValue(k: nat)
    ensures DecimalValue(Zeros(k)) == 0
  {
    if k > 0 {
      ZerosValue(k - 1);
      assert Zeros(k)[..k - 1] == Zeros(k - 1);
    }
  }

  lemma {:induction false} PaddedValue(k: nat, s: string)
    requires Digits(s)
    ensures Digits(Zeros(k) + s) && DecimalValue(Zeros(k) + s) == DecimalValue(s)
  {
    var z := Zeros(k) + s;
    if s == "" {
      ZerosValue(k);
      assert z == Zeros(k);
    } else {
      PaddedValue(k, s[..|s| - 1]);
      assert z[..|z| - 1] == Zeros(k) + s[..|s| - 1];
    }
  }

  lemma NumeralStep(s: string, n: nat, c: char)
    requires Numeral(s, n) && IsDigit(c)
    ensures Numeral(s + [c], 10 * n + (c as int - '0' as int))
  {
    var d := c as int - '0' as int;
    var k: nat :| s == Zeros(k) + Decimal(n);
    if n == 0 {
      assert s == Zeros(k + 1);
      assert s + [c] == Zeros(k + 1) + Decimal(d);
    } else {
      assert (10 * n + d) / 10 == n && (10 * n + d) % 10 == d;
      assert Decimal(10 * n + d) == Decimal(n) + [c];
      assert s + [c] == Zeros(k) + Decimal(10 * n + d);
    }
  }

  lemma {:induction false} ValueNumeral(s: string)
    requires s != "" && Digits(s)
    ensures Numeral(s, DecimalValue(s))
  {
    hide Numeral;
    var init, c := s[..|s| - 1], s[|s| - 1];
    assert s == init + [c];
    if init == "" {
      OneDigit(c);
    } else {
      ValueNumeral(init);
      NumeralStep(init, DecimalValue(init), c);
    }
  }

  lemma OneDigit(c: char)
    requires IsDigit(c)
    ensures Numeral([c], DecimalValue([c]))
  {
    var d := c as int - '0' as int;
    assert [c][..0] == "" && DecimalValue("") == 0;
    assert [c] == Zeros(0) + Decimal(d);
  }

  /** Exactly what ParseUint accepts. */
  lemma ParseUint16Iff(s: string, n: nat)
    ensures ParseUint16(s) == Some(n) <==> n <= 65535 && Numeral(s, n)
  {
    hide Decimal;
    hide DecimalValue;
    if ParseUint16(s).Some? {
      ValueNumeral(s);
    }
    if Numeral(s, n) {
      var k: nat :| s == Zeros(k) + Decimal(n);
      PaddedValue(k, Decimal(n));
      DecimalRoundTrip(n);
    }
  }

  // ---------- the byte-wise order of Go's `<` on strings ----------

  predicate Leq(a: string, b: string) {
    a == "" || (b != "" && (a[0] < b[0] || (a[0] == b[0] && Leq(a[1..], b[1..]))))
  }

  lemma {:induction false} LeqTotal(a: string, b: string)
    ensures Leq(a, b) || Leq(b, a)
    ensures Leq(a, b) && Leq(b, a) ==> a == b
    ensures Leq(a, a)
  {
    if a != "" {
      LeqTotal(a[1..], if b == "" then "" else b[1..]);
      if b != "" && a[0] == b[0] && a[1..] == b[1..] {
        assert a == [a[0]] + a[1..] && b == [b[0]] + b[1..];
      }
    }
  }

  lemma {:induction false} LeqTransitive(a: string, b: string, c: string)
    requires Leq(a, b) && Leq(b, c)
    ensures Leq(a, c)
  {
    if a != "" && a[0] == b[0] == c[0] {
      LeqTransitive(a[1..], b[1..], c[1..]);
    }
  }
}
