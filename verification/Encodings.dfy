/**
 The texts that are hashed into payload hashes and request ids, and exactly when
 two inputs share a text. A string is a sequence of UTF-16 code units.
 */
module Encodings {
  import opened Common
  import opened Hex

  predicate AllDigits(s: string) {
    forall i :: 0 <= i < |s| ==> '0' <= s[i] <= '9'
  }

  predicate Lacks(s: string, sep: char) {
    forall i :: 0 <= i < |s| ==> s[i] != sep
  }

  /** JavaScript's rendering of a non-negative integer. */
  function Decimal(n: nat): (s: string)
    ensures |s| > 0 && AllDigits(s)
  {
    if n < 10 then [('0' as int + n) as char]
    else Decimal(n / 10) + [('0' as int + n % 10) as char]
  }

  lemma {:induction false} DecimalInjective(m: nat, n: nat)
    requires Decimal(m) == Decimal(n)
    ensures m == n
  {
    var s := Decimal(m);
    assert m >= 10 <==> |s| >= 2;
    assert n >= 10 <==> |s| >= 2;
    if m >= 10 && n >= 10 {
      assert Decimal(m / 10) == s[..|s| - 1] == Decimal(n / 10);
      DecimalInjective(m / 10, n / 10);
      assert s[|s| - 1] as int - '0' as int == m % 10 == n % 10;
    }
  }

  lemma Reassociate(a: string, b: string, c: string)
    ensures a + b + c == a + (b + c)
  {
  }

  /** A field that cannot contain its separator can be cut off in only one way. */
  lemma FirstFieldUnique(a: string, x: string, b: string, y: string, sep: char)
    requires Lacks(a, sep) && Lacks(b, sep)
    requires a + [sep] + x == b + [sep] + y
    ensures a == b && x == y
  {
    var s := a + [sep] + x;
    assert s == b + [sep] + y;
    assert s[|a|] == sep && s[|b|] == sep;
    assert forall i :: 0 <= i < |a| ==> s[i] == a[i];
    assert forall i :: 0 <= i < |b| ==> s[i] == b[i];
    assert |a| == |b|;
    assert a == s[..|a|] && b == s[..|b|];
    assert x == s[|a| + 1..] && y == s[|b| + 1..];
  }

  /** Nor in from the right. */
  lemma LastFieldUnique(x: string, a: string, y: string, b: string, sep: char)
    requires Lacks(a, sep) && Lacks(b, sep)
    requires x + [sep] + a == y + [sep] + b
    ensures a == b && x == y
  {
    var s := x + [sep] + a;
    assert s == y + [sep] + b;
    assert s[|x|] == sep && s[|y|] == sep;
    assert forall i :: |x| < i < |s| ==> s[i] == a[i - |x| - 1];
    assert forall i :: |y| < i < |s| ==> s[i] == b[i - |y| - 1];
    assert |x| == |y|;
    assert x == s[..|x|] && y == s[..|y|];
    assert a == s[|x| + 1..] && b == s[|y| + 1..];
  }

  // ---- Payload hash ----

  /** The text of `computeNwcRequestPayloadHash`. */
  function PayloadText(walletId: string, invoice: string, paymentHash: string): string {
    Decimal(|walletId|) + ":" + walletId + Decimal(|invoice|) + ":" + invoice + ToLower(paymentHash)
  }

  lemma DigitsHaveNoColon(s: string)
    requires AllDigits(s)
    ensures Lacks(s, ':') && Lacks(s, '|')
  {
  }

  /** A length-prefixed field in front of arbitrary text determines the field and the rest. */
  lemma LengthPrefixUnique(f: string, x: string, g: string, y: string)
    requires Decimal(|f|) + ":" + f + x == Decimal(|g|) + ":" + g + y
    ensures f == g && x == y
  {
    DigitsHaveNoColon(Decimal(|f|));
    DigitsHaveNoColon(Decimal(|g|));
    Reassociate(Decimal(|f|) + ":", f, x);
    Reassociate(Decimal(|g|) + ":", g, y);
    FirstFieldUnique(Decimal(|f|), f + x, Decimal(|g|), g + y, ':');
    DecimalInjective(|f|, |g|);
    assert f == (f + x)[..|f|] == (g + y)[..|g|] == g;
    assert x == (f + x)[|f|..] == y;
  }

  /** Two payloads share a text exactly when they are the same payload, up to the letter case of the hash. */
  lemma PayloadTextInjective(w1: string, i1: string, h1: string, w2: string, i2: string, h2: string)
    ensures PayloadText(w1, i1, h1) == PayloadText(w2, i2, h2)
            <==> w1 == w2 && i1 == i2 && ToLower(h1) == ToLower(h2)
  {
    if PayloadText(w1, i1, h1) == PayloadText(w2, i2, h2) {
      var r1 := Decimal(|i1|) + ":" + i1 + ToLower(h1);
      var r2 := Decimal(|i2|) + ":" + i2 + ToLower(h2);
      assert PayloadText(w1, i1, h1) == Decimal(|w1|) + ":" + w1 + r1;
      assert PayloadText(w2, i2, h2) == Decimal(|w2|) + ":" + w2 + r2;
      LengthPrefixUnique(w1, r1, w2, r2);
      LengthPrefixUnique(i1, ToLower(h1), i2, ToLower(h2));
    }
  }

  // ---- Request id ----

  function ScopeSuffix(scope: Option<string>): string {
    if scope.None? then "" else "|" + scope.value
  }

  function RetrySuffix(attemptNo: Option<nat>): string {
    if attemptNo.None? then "" else "|" + Decimal(attemptNo.value)
  }

  /** The text of `computeNwcPaymentRequestId`. */
  function RequestIdText(walletId: string, paymentHash: string, attemptNo: Option<nat>, scope: Option<string>): string {
    walletId + "|" + ToLower(paymentHash) + ScopeSuffix(scope) + RetrySuffix(attemptNo)
  }

  /** A scope of decimal digits alone reads like the attempt number of an unscoped request. */
  predicate Confusable(s1: Option<string>, a1: Option<nat>, s2: Option<string>, a2: Option<nat>) {
    s1.Some? && a1.None? && s2.None? && a2.Some? && s1.value == Decimal(a2.value)
  }

  lemma HexHasNoBar(s: string)
    requires AllHex(s)
    ensures Lacks(ToLower(s), '|')
  {
    forall i | 0 <= i < |s| ensures ToLower(s)[i] != '|' {
      assert IsHexDigit(s[i]);
    }
  }

  /** A bar-free text followed by a suffix that is empty or starts with a bar. */
  lemma TailUnique(a: string, x: string, b: string, y: string)
    requires Lacks(a, '|') && Lacks(b, '|')
    requires x == "" || x[0] == '|'
    requires y == "" || y[0] == '|'
    requires a + x == b + y
    ensures a == b && x == y
  {
    var s := a + x;
    assert s == b + y;
    assert |a| == |s| || s[|a|] == '|';
    assert |b| == |s| || s[|b|] == '|';
    assert forall i :: 0 <= i < |a| ==> s[i] == a[i];
    assert forall i :: 0 <= i < |b| ==> s[i] == b[i];
    assert |a| == |b|;
    assert a == s[..|a|] && b == s[..|b|];
    assert x == s[|a|..] && y == s[|b|..];
  }

  lemma SuffixesUnique(s1: Option<string>, a1: Option<nat>, s2: Option<string>, a2: Option<nat>)
    requires s1.Some? ==> Lacks(s1.value, '|')
    requires s2.Some? ==> Lacks(s2.value, '|')
    requires ScopeSuffix(s1) + RetrySuffix(a1) == ScopeSuffix(s2) + RetrySuffix(a2)
    ensures (s1 == s2 && a1 == a2) || Confusable(s1, a1, s2, a2) || Confusable(s2, a2, s1, a1)
  {
    var t := ScopeSuffix(s1) + RetrySuffix(a1);
    assert t == "" <==> s1.None? && a1.None?;
    assert t == "" <==> s2.None? && a2.None?;
    if t != "" {
      SplitSuffix(s1, a1);
      SplitSuffix(s2, a2);
      TailUnique(FirstSuffixField(s1, a1), RestOfSuffix(s1, a1), FirstSuffixField(s2, a2), RestOfSuffix(s2, a2));
      if s1.Some? && s2.Some? {
        RetrySuffixUnique(a1, a2);
      } else if s1.None? && s2.None? {
        DecimalInjective(a1.value, a2.value);
      }
    }
  }

  function FirstSuffixField(scope: Option<string>, attemptNo: Option<nat>): string
    requires scope.Some? || attemptNo.Some?
  {
    if scope.Some? then scope.value else Decimal(attemptNo.value)
  }

  function RestOfSuffix(scope: Option<string>, attemptNo: Option<nat>): string {
    if scope.Some? then RetrySuffix(attemptNo) else ""
  }

  lemma SplitSuffix(scope: Option<string>, attemptNo: Option<nat>)
    requires scope.Some? || attemptNo.Some?
    requires scope.Some? ==> Lacks(scope.value, '|')
    ensures ScopeSuffix(scope) + RetrySuffix(attemptNo)
            == "|" + (FirstSuffixField(scope, attemptNo) + RestOfSuffix(scope, attemptNo))
    ensures Lacks(FirstSuffixField(scope, attemptNo), '|')
    ensures (ScopeSuffix(scope) + RetrySuffix(attemptNo))[1..]
            == FirstSuffixField(scope, attemptNo) + RestOfSuffix(scope, attemptNo)
  {
    if attemptNo.Some? {
      DigitsHaveNoColon(Decimal(attemptNo.value));
    }
  }

  lemma RetrySuffixUnique(a1: Option<nat>, a2: Option<nat>)
    requires RetrySuffix(a1) == RetrySuffix(a2)
    ensures a1 == a2
  {
    if a1.Some? && a2.Some? {
      assert Decimal(a1.value) == RetrySuffix(a1)[1..] == RetrySuffix(a2)[1..] == Decimal(a2.value);
      DecimalInjective(a1.value, a2.value);
    }
  }

  /**
   For wallet ids without a bar, two requests share an id text exactly when they
   name the same operation, or one uses as scope the digits the other uses as
   attempt number.
   */
  lemma RequestIdTextUnique(w1: string, h1: string, a1: Option<nat>, s1: Option<string>,
                            w2: string, h2: string, a2: Option<nat>, s2: Option<string>)
    requires Lacks(w1, '|') && Lacks(w2, '|')
    requires AllHex(h1) && AllHex(h2)
    requires s1.Some? ==> Lacks(s1.value, '|')
    requires s2.Some? ==> Lacks(s2.value, '|')
    ensures RequestIdText(w1, h1, a1, s1) == RequestIdText(w2, h2, a2, s2)
            <==> && w1 == w2
                 && ToLower(h1) == ToLower(h2)
                 && ((s1 == s2 && a1 == a2) || Confusable(s1, a1, s2, a2) || Confusable(s2, a2, s1, a1))
  {
    var u1 := ScopeSuffix(s1) + RetrySuffix(a1);
    var u2 := ScopeSuffix(s2) + RetrySuffix(a2);
    hide RequestIdText, ScopeSuffix, RetrySuffix, ToLower, Confusable;
    RequestIdFields(w1, h1, a1, s1);
    RequestIdFields(w2, h2, a2, s2);
    SuffixStart(s1, a1);
    SuffixStart(s2, a2);
    if Confusable(s1, a1, s2, a2) { ConfusableSuffixes(s1, a1, s2, a2); }
    if Confusable(s2, a2, s1, a1) { ConfusableSuffixes(s2, a2, s1, a1); }
    if RequestIdText(w1, h1, a1, s1) == RequestIdText(w2, h2, a2, s2) {
      FirstFieldUnique(w1, ToLower(h1) + u1, w2, ToLower(h2) + u2, '|');
      HexHasNoBar(h1);
      HexHasNoBar(h2);
      TailUnique(ToLower(h1), u1, ToLower(h2), u2);
      SuffixesUnique(s1, a1, s2, a2);
    }
  }

  lemma SuffixStart(scope: Option<string>, attemptNo: Option<nat>)
    ensures var u := ScopeSuffix(scope) + RetrySuffix(attemptNo); u == "" || u[0] == '|'
  {
  }

  lemma ConfusableSuffixes(s1: Option<string>, a1: Option<nat>, s2: Option<string>, a2: Option<nat>)
    requires Confusable(s1, a1, s2, a2)
    ensures ScopeSuffix(s1) + RetrySuffix(a1) == ScopeSuffix(s2) + RetrySuffix(a2)
  {
    assert ScopeSuffix(s1) == RetrySuffix(a2);
  }

  lemma RequestIdFields(w: string, h: string, a: Option<nat>, s: Option<string>)
    ensures RequestIdText(w, h, a, s) == w + ['|'] + (ToLower(h) + (ScopeSuffix(s) + RetrySuffix(a)))
  {
    Reassociate(w + "|" + ToLower(h), ScopeSuffix(s), RetrySuffix(a));
    Reassociate(w + "|", ToLower(h), ScopeSuffix(s) + RetrySuffix(a));
  }

  /** Lacks the wallet id condition the text is ambiguous: a bar in one wallet id shifts the fields. */
  lemma BarInWalletIdCollides(w: string, h: string)
    requires AllHex(h)
    ensures RequestIdText(w + "|" + ToLower(h), h, None, None) == RequestIdText(w, h, None, Some(ToLower(h)))
    ensures w + "|" + ToLower(h) != w
  {
    assert |w + "|" + ToLower(h)| > |w|;
  }

  // ---- Event key ----

  /** The text of `computeEventKey`. */
  function EventText(walletId: string, kind: string, paymentHash: string): string {
    walletId + "|" + kind + "|" + paymentHash
  }

  /**
   For types without a bar, two events share a text exactly when they are the same, as soon as the
   wallet ids or the payment hashes hold no bar either.
   */
  lemma EventTextUnique(w1: string, k1: string, h1: string, w2: string, k2: string, h2: string)
    requires Lacks(k1, '|') && Lacks(k2, '|')
    requires (Lacks(w1, '|') && Lacks(w2, '|')) || (Lacks(h1, '|') && Lacks(h2, '|'))
    ensures EventText(w1, k1, h1) == EventText(w2, k2, h2) <==> w1 == w2 && k1 == k2 && h1 == h2
  {
    if EventText(w1, k1, h1) == EventText(w2, k2, h2) {
      EventFields(w1, k1, h1);
      EventFields(w2, k2, h2);
      if Lacks(w1, '|') && Lacks(w2, '|') {
        FirstFieldUnique(w1, k1 + ['|'] + h1, w2, k2 + ['|'] + h2, '|');
        FirstFieldUnique(k1, h1, k2, h2, '|');
      } else {
        LastFieldUnique(w1 + ['|'] + k1, h1, w2 + ['|'] + k2, h2, '|');
        LastFieldUnique(w1, k1, w2, k2, '|');
      }
    }
  }

  lemma EventFields(w: string, k: string, h: string)
    ensures EventText(w, k, h) == w + ['|'] + (k + ['|'] + h)
    ensures EventText(w, k, h) == w + ['|'] + k + ['|'] + h
  {
    Reassociate(w + "|", k + "|", h);
    Reassociate(w + "|", k, "|");
  }

  /** With a bar in one wallet id and in the other payment hash the text is ambiguous: the fields shift. */
  lemma BarShiftsEvents(w: string, k: string, h: string, x: string)
    ensures EventText(w + "|" + k, h, x) == EventText(w, k, h + "|" + x)
    ensures w + "|" + k != w
  {
    Reassociate(w + "|" + k + "|", h, "|" + x);
    assert EventText(w + "|" + k, h, x) == w + "|" + k + "|" + h + ("|" + x);
    assert |w + "|" + k| > |w|;
  }
}
