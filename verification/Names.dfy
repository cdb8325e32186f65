/** Ordinals in names: padding, printing and parsing. */
module Names {

  const MAX_ORDINAL: nat := 0x8000_0000

  // ---- Decimal ----

  function Digit(d: nat): char
    requires d < 10
  {
    '0' + d as char
  }

  predicate IsDigit(c: char) { '0' <= c <= '9' }

  ghost predicate AllDigits(s: string) { forall i :: 0 <= i < |s| ==> IsDigit(s[i]) }

  function Decimal(n: nat): (s: string)
    ensures |s| >= 1 && AllDigits(s)
  {
    if n < 10 then [Digit(n)] else Decimal(n / 10) + [Digit(n % 10)]
  }

  function Value(s: string): nat
    requires AllDigits(s)
  {
    if s == "" then 0 else 10 * Value(s[..|s| - 1]) + (s[|s| - 1] as int - '0' as int)
  }

  lemma {:induction false} DecimalValue(n: nat)
    ensures Value(Decimal(n)) == n
  {
    if n >= 10 {
      DecimalValue(n / 10);
      assert Decimal(n)[..|Decimal(n)| - 1] == Decimal(n / 10);
    }
  }

  function Zeros(k: nat): (s: string)
    ensures |s| == k && AllDigits(s)
  {
    if k == 0 then "" else "0" + Zeros(k - 1)
  }

  lemma {:induction false} ZerosValue(k: nat, s: string)
    requires AllDigits(s)
    ensures Value(Zeros(k) + s) == Value(s)
    decreases k + |s|
  {
    if s != "" {
      ZerosValue(k, s[..|s| - 1]);
      assert (Zeros(k) + s)[..k + |s| - 1] == Zeros(k) + s[..|s| - 1];
    } else if k > 0 {
      ZerosValue(k - 1, "");
      OnlyZeros(k);
      assert (Zeros(k) + s)[..k - 1] == Zeros(k - 1) + "";
    }
  }

  lemma {:induction false} OnlyZeros(k: nat)
    ensures forall i :: 0 <= i < k ==> Zeros(k)[i] == '0'
    ensures k > 0 ==> Zeros(k)[..k - 1] == Zeros(k - 1)
  {
    if k > 0 {
      OnlyZeros(k - 1);
    }
  }

  // ---- GetPaddedOrdinal, GetOrdinalPodName ----

  function Pad(width: int, digits: string): string {
    Zeros(if width > |digits| then width - |digits| else 0) + digits
  }

  /** A sign counts towards the width. */
  function PaddedOrdinal(padding: nat, ordinal: int): string {
    if ordinal >= 0 then Pad(padding, Decimal(ordinal)) else "-" + Pad(padding - 1, Decimal(-ordinal))
  }

  function OrdinalPodName(name: string, padding: nat, ordinal: int): string {
    name + "-" + PaddedOrdinal(padding, ordinal)
  }

  lemma PaddedDigits(padding: nat, ordinal: nat)
    ensures var s := PaddedOrdinal(padding, ordinal); s != "" && AllDigits(s) && Value(s) == ordinal
  {
    DecimalValue(ordinal);
    PadValue(padding, Decimal(ordinal));
  }

  lemma PadValue(width: int, digits: string)
    requires AllDigits(digits)
    ensures AllDigits(Pad(width, digits)) && Value(Pad(width, digits)) == Value(digits)
    ensures |Pad(width, digits)| >= |digits|
  {
    var k := if width > |digits| then width - |digits| else 0;
    DigitsConcat(Zeros(k), digits);
    ZerosValue(k, digits);
  }

  lemma DigitsConcat(a: string, b: string)
    requires AllDigits(a) && AllDigits(b)
    ensures AllDigits(a + b)
  {
  }

  /** Padding reaches its width and adds nothing beyond it; without it no ordinal begins with a zero but
      zero itself. */
  lemma PaddedWidth(padding: nat, ordinal: nat)
    ensures var s := PaddedOrdinal(padding, ordinal);
            && |s| == (if padding > |Decimal(ordinal)| then padding else |Decimal(ordinal)|)
            && (ordinal > 0 && |s| > padding ==> s[0] != '0')
            && (|s| > padding && ordinal == 0 ==> s == "0")
  {
    NoLeadingZero(ordinal);
    assert Zeros(0) + Decimal(ordinal) == Decimal(ordinal);
  }

  lemma {:induction false} NoLeadingZero(n: nat)
    ensures n > 0 ==> Decimal(n)[0] != '0'
  {
    if n >= 10 {
      NoLeadingZero(n / 10);
      assert Decimal(n)[0] == Decimal(n / 10)[0];
    }
  }

  /** Printing is decimal, zero padded, and a sign counts towards the width. */
  lemma PrintedExamples()
    ensures PaddedOrdinal(4, 42) == "0042" && PaddedOrdinal(0, 107) == "107" && PaddedOrdinal(3, -1) == "-01"
    ensures OrdinalPodName("gpu", 2, 7) == "gpu-07"
  {
    assert Decimal(4) == "4" && Decimal(42) == "42" && Decimal(1) == "1" && Decimal(7) == "7";
    assert Decimal(10) == "10" && Decimal(107) == "107";
    assert Zeros(0) == "" && Zeros(1) == "0" + Zeros(0) && Zeros(2) == "0" + Zeros(1);
  }

  // ---- GetParentNameAndOrdinal ----

  /** Index just after the last occurrence of c, 0 without one. */
  function AfterLast(s: string, c: char): (k: nat)
    ensures k <= |s|
    ensures k > 0 ==> s[k - 1] == c
    ensures forall i :: k <= i < |s| ==> s[i] != c
  {
    if s == "" then 0 else if s[|s| - 1] == c then |s| else AfterLast(s[..|s| - 1], c)
  }

  predicate IsNumber(s: string)
    ensures IsNumber(s) <==> s != "" && AllDigits(s)
  {
    s != "" && forall i :: 0 <= i < |s| ==> IsDigit(s[i])
  }

  /** What the expression (.*)-([0-9]+)$ captures, and the 32-bit parse of the second group. The
      first group does not reach back over a line break. */
  function ParentAndOrdinal(podName: string): (string, int) {
    var k := AfterLast(podName, '-');
    if k == 0 || !IsNumber(podName[k..]) then ("", -1)
    else
      var front := podName[..k - 1];
      var value := Value(podName[k..]);
      (front[AfterLast(front, '\n')..], if value < MAX_ORDINAL then value else -1)
  }

  lemma LastDash(name: string, tail: string)
    requires forall i :: 0 <= i < |tail| ==> tail[i] != '-'
    ensures AfterLast(name + "-" + tail, '-') == |name| + 1
  {
    var s := name + "-" + tail;
    assert s[|name|] == '-';
    LastIs(s, '-', |name| + 1);
  }

  lemma LastIs(s: string, c: char, k: nat)
    requires 0 < k <= |s| && s[k - 1] == c && forall i :: k <= i < |s| ==> s[i] != c
    ensures AfterLast(s, c) == k
  {
  }

  lemma ParsedName(name: string, padding: nat, ordinal: nat)
    ensures ParentAndOrdinal(OrdinalPodName(name, padding, ordinal)) ==
            (name[AfterLast(name, '\n')..], if ordinal < MAX_ORDINAL then ordinal else -1)
  {
    PaddedDigits(padding, ordinal);
    var tail := PaddedOrdinal(padding, ordinal);
    LastDash(name, tail);
    var s := OrdinalPodName(name, padding, ordinal);
    assert s[|name| + 1..] == tail && s[..|name|] == name;
    assert IsNumber(tail);
  }

  /** The round trip holds exactly for ordinals of 31 bits and names of one line. */
  lemma RoundTripIff(name: string, padding: nat, ordinal: nat)
    ensures ParentAndOrdinal(OrdinalPodName(name, padding, ordinal)) == (name, ordinal) <==>
            ordinal < MAX_ORDINAL && '\n' !in name
  {
    ParsedName(name, padding, ordinal);
    var k := AfterLast(name, '\n');
    if '\n' in name {
      assert k > 0 && |name[k..]| < |name|;
    } else {
      assert k == 0 && name[0..] == name;
    }
  }

  /** Every parse comes from a name that prints back to it, up to leading zeros: the parsed
      parts are those of the text before and after the last dash. */
  lemma ParsedFromOwnText(podName: string)
    requires ParentAndOrdinal(podName).1 >= 0
    ensures exists front, digits :: IsNumber(digits) && podName == front + "-" + digits
              && Value(digits) == ParentAndOrdinal(podName).1
              && ('\n' !in front ==> ParentAndOrdinal(podName).0 == front)
  {
    var k := AfterLast(podName, '-');
    var front, digits := podName[..k - 1], podName[k..];
    assert podName == front + "-" + digits;
    assert '\n' !in front ==> AfterLast(front, '\n') == 0 && front[0..] == front;
  }

  /** Exactly when a name has no ordinal: nothing of it reads as a dash and digits of 31 bits at the
      end. */
  lemma NoOrdinalIff(podName: string)
    ensures ParentAndOrdinal(podName).1 == -1 <==>
            !exists front, digits :: podName == front + "-" + digits && IsNumber(digits) && Value(digits) < 0x8000_0000
  {
    if ParentAndOrdinal(podName).1 != -1 { ParsedFromOwnText(podName); }
    forall front, digits | podName == front + "-" + digits && IsNumber(digits) && Value(digits) < 0x8000_0000
      ensures ParentAndOrdinal(podName).1 != -1
    {
      ParsesBack(front, digits);
    }
  }

  lemma ParsesBack(front: string, digits: string)
    requires IsNumber(digits) && Value(digits) < MAX_ORDINAL
    ensures ParentAndOrdinal(front + "-" + digits).1 == Value(digits)
  {
    LastDash(front, digits);
    assert (front + "-" + digits)[|front| + 1..] == digits;
  }

  // ---- Injectivity ----

  lemma DashSplit(a: string, x: string, b: string, y: string)
    requires a + "-" + x == b + "-" + y
    requires '-' !in x && '-' !in y
    ensures a == b && x == y
  {
    LastDash(a, x);
    LastDash(b, y);
    var s, t := a + "-" + x, b + "-" + y;
    assert s[..|a|] == a && s[|a| + 1..] == x;
    assert t[..|b|] == b && t[|b| + 1..] == y;
  }

  lemma PaddedInjective(p: nat, n: nat, q: nat, m: nat)
    ensures '-' !in PaddedOrdinal(p, n)
    ensures PaddedOrdinal(p, n) == PaddedOrdinal(q, m) ==> n == m
  {
    PaddedDigits(p, n);
    PaddedDigits(q, m);
  }

  /** Pod names tell NodeSets and ordinals apart, whatever the paddings. */
  lemma PodNamesInjective(a: string, p: nat, n: nat, b: string, q: nat, m: nat)
    requires OrdinalPodName(a, p, n) == OrdinalPodName(b, q, m)
    ensures a == b && n == m
  {
    PaddedInjective(p, n, q, m);
    PaddedInjective(q, m, p, n);
    DashSplit(a, PaddedOrdinal(p, n), b, PaddedOrdinal(q, m));
  }

  function ClaimName(template: string, nodeSet: string, suffix: string): string {
    template + "-" + nodeSet + "-" + suffix
  }

  /** Two claims share a name exactly when their ordinals print alike and "template-NodeSet" reads
      the same; within one NodeSet that is the same template and the same ordinal. */
  lemma ClaimNamesEqualIff(c: string, a: string, p: nat, n: nat, d: string, b: string, q: nat, m: nat)
    ensures ClaimName(c, a, PaddedOrdinal(p, n)) == ClaimName(d, b, PaddedOrdinal(q, m)) <==>
            c + "-" + a == d + "-" + b && PaddedOrdinal(p, n) == PaddedOrdinal(q, m)
  {
    PaddedInjective(p, n, q, m);
    PaddedInjective(q, m, p, n);
    if ClaimName(c, a, PaddedOrdinal(p, n)) == ClaimName(d, b, PaddedOrdinal(q, m)) {
      DashSplit(c + "-" + a, PaddedOrdinal(p, n), d + "-" + b, PaddedOrdinal(q, m));
    }
  }

  lemma ClaimNamesInjective(c: string, d: string, nodeSet: string, p: nat, n: nat, m: nat)
    requires ClaimName(c, nodeSet, PaddedOrdinal(p, n)) == ClaimName(d, nodeSet, PaddedOrdinal(p, m))
    ensures c == d && n == m
  {
    ClaimNamesEqualIff(c, nodeSet, p, n, d, nodeSet, p, m);
    PaddedInjective(p, n, p, m);
    var s, t := c + "-" + nodeSet, d + "-" + nodeSet;
    assert |c| == |d|;
    assert s[..|c|] == c && t[..|d|] == d;
  }

  /** Across NodeSets claim names can clash. */
  lemma ClaimNamesClash(n: nat)
    ensures ClaimName("data-a", "b", PaddedOrdinal(0, n)) == ClaimName("data", "a-b", PaddedOrdinal(0, n))
  {
    assert "data-a" + "-" + "b" == "data" + "-" + "a-b";
  }

  /** The Slurm node of a pod without host networking: a prefix of its own and the padded
      ordinal, or the pod name. */
  function HostnameFor(prefix: string, name: string, padding: nat, ordinal: int): string {
    if prefix != "" then prefix + PaddedOrdinal(padding, ordinal) else OrdinalPodName(name, padding, ordinal)
  }

  /** What a hostname is made of: the prefix and digits of the ordinal, or name, dash and such digits. */
  lemma HostnameReads(prefix: string, name: string, padding: nat, ordinal: nat)
    ensures var h := HostnameFor(prefix, name, padding, ordinal);
            var front := if prefix != "" then prefix else name + "-";
            |front| < |h| && h[..|front|] == front && IsNumber(h[|front|..]) && Value(h[|front|..]) == ordinal
  {
    PaddedDigits(padding, ordinal);
    var h, front := HostnameFor(prefix, name, padding, ordinal), if prefix != "" then prefix else name + "-";
    assert h == front + PaddedOrdinal(padding, ordinal);
    assert h[|front|..] == PaddedOrdinal(padding, ordinal);
  }

  lemma HostnamesInjective(prefix: string, name: string, padding: nat, n: nat, m: nat)
    requires HostnameFor(prefix, name, padding, n) == HostnameFor(prefix, name, padding, m)
    ensures n == m
  {
    PaddedInjective(padding, n, padding, m);
    if prefix != "" {
      var s, t := HostnameFor(prefix, name, padding, n), HostnameFor(prefix, name, padding, m);
      assert s[|prefix|..] == PaddedOrdinal(padding, n) && t[|prefix|..] == PaddedOrdinal(padding, m);
    } else {
      PodNamesInjective(name, padding, n, name, padding, m);
    }
  }
}
