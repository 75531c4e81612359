/** NTAG424 taps: signing, verification and the counter that stops replays. */
module Tap {
  import opened Common
  import opened Hex

  /** AES-128 on one block and AES-CMAC (section 2.4 of RFC 4493), both with the key first. */
  datatype Crypto = Crypto(
    encrypt: (seq<byte>, seq<byte>) -> seq<byte>,
    decrypt: (seq<byte>, seq<byte>) -> seq<byte>,
    cmac: (seq<byte>, seq<byte>) -> seq<byte>)

  const IDENTITY := Crypto((key, block) => block, (key, block) => block, (key, message) => seq(16, _ => 0))

  /** The only law: decryption inverts encryption, and sizes are right. */
  ghost predicate Lawful(c: Crypto) {
    && (forall key, block :: |key| == 16 && |block| == 16 ==>
          |c.encrypt(key, block)| == 16 && c.decrypt(key, c.encrypt(key, block)) == block)
    && (forall key, block :: |key| == 16 && |block| == 16 ==> |c.decrypt(key, block)| == 16)
    && (forall key, message :: |key| == 16 ==> |c.cmac(key, message)| == 16)
  }

  type Cipher = c: Crypto | Lawful(c) ghost witness IDENTITY

  /** The card's record: texts in hexadecimal and the last counter accepted. */
  datatype Card = Card(cid: string, k1: string, k2: string, ctr: int)

  datatype TapError = MalformedP | MalformedC | WrongMarker | CounterTooOld | MacMismatch | NoSuitableCard

  datatype TapResult = Accepted(ctrNew: int) | Refused(error: TapError)

  /** Node's ciphers throw on keys of another size. */
  predicate KeysOk(card: Card) {
    |FromHex(card.k1)| == 16 && |FromHex(card.k2)| == 16
  }

  const SV2_PREFIX: seq<byte> := [0x3c, 0xc3, 0x00, 0x01, 0x00, 0x80]

  function OddBytes(bs: seq<byte>): seq<byte>
    requires |bs| == 16
  {
    [bs[1], bs[3], bs[5], bs[7], bs[9], bs[11], bs[13], bs[15]]
  }

  /** `sdmmac`: a CMAC under the session key that a CMAC over card id and counter gives. */
  function Sdmmac(crypto: Cipher, k2: string, cid: seq<byte>, ctr: seq<byte>): string
    requires |FromHex(k2)| == 16
  {
    ToHex(OddBytes(crypto.cmac(crypto.cmac(FromHex(k2), SV2_PREFIX + cid + ctr), [])))
  }

  // ---- The counter in three bytes ----

  const WORD := 0x1_0000_0000
  const COUNTER_SPAN := 0x100_0000

  /** What the bit operators of the language see of a number: its low 32 bits, signed. */
  function ToInt32(n: int): (r: int)
    ensures -(WORD / 2) <= r < WORD / 2 && r % WORD == n % WORD
  {
    var low := n % WORD;
    if low >= WORD / 2 then low - WORD else low
  }

  /** `(n >> bits) & 0xff` for a shift by `256` to some power. */
  function ByteAt(n: int, divisor: int): byte
    requires divisor > 0
  {
    (ToInt32(n) / divisor) % 256
  }

  function CounterBytes(ctr: int): (bs: seq<byte>)
    ensures |bs| == 3
  {
    [ByteAt(ctr, 1), ByteAt(ctr, 256), ByteAt(ctr, 65536)]
  }

  function CounterOf(bs: seq<byte>): int
    requires |bs| == 3
  {
    var b0: int, b1: int, b2: int := bs[0], bs[1], bs[2];
    65536 * b2 + 256 * b1 + b0
  }

  /** Three bytes hold a counter modulo 2^24, and every three bytes are those of their counter. */
  lemma CounterRoundTrip(ctr: int, bs: seq<byte>)
    requires |bs| == 3
    ensures CounterOf(CounterBytes(ctr)) == ctr % COUNTER_SPAN
    ensures CounterBytes(CounterOf(bs)) == bs && 0 <= CounterOf(bs) < COUNTER_SPAN
  {
    LowBytes(ToInt32(ctr));
    assert ctr % COUNTER_SPAN == ToInt32(ctr) % COUNTER_SPAN by { LowBits(ctr, ToInt32(ctr)); }
    var n := CounterOf(bs);
    assert ToInt32(n) == n;
    var b0: int, b1: int, b2: int := bs[0], bs[1], bs[2];
    assert n / 256 == 256 * b2 + b1 && n / 65536 == b2;
  }

  lemma LowBits(a: int, b: int)
    requires a % WORD == b % WORD
    ensures a % COUNTER_SPAN == b % COUNTER_SPAN
  {
    var qa, qb := a / WORD, b / WORD;
    assert a == WORD * qa + a % WORD && b == WORD * qb + b % WORD;
    assert a == COUNTER_SPAN * (256 * qa) + a % WORD && b == COUNTER_SPAN * (256 * qb) + b % WORD;
    ModShift(a % WORD, 256 * qa);
    ModShift(b % WORD, 256 * qb);
  }

  lemma ModShift(r: int, q: int)
    ensures (COUNTER_SPAN * q + r) % COUNTER_SPAN == r % COUNTER_SPAN
  {
  }

  lemma Quotients(n: int)
    ensures n / 65536 == n / 256 / 256
    ensures n / COUNTER_SPAN == n / 65536 / 256
  {
  }

  lemma LowBytes(n: int)
    ensures 65536 * ((n / 65536) % 256) + 256 * ((n / 256) % 256) + n % 256 == n % COUNTER_SPAN
  {
    var q1, q2 := n / 256, n / 256 / 256;
    var q3 := q2 / 256;
    Quotients(n);
    assert n == 256 * q1 + n % 256 && q1 == 256 * q2 + q1 % 256 && q2 == 256 * q3 + q2 % 256;
  }

  // ---- Signing and verifying ----

  /** The plaintext of a tap: marker, card id, counter, zeros. */
  function Block(cid: seq<byte>, ctr: seq<byte>, tail: seq<byte>): seq<byte> {
    [0xc7] + cid + ctr + tail
  }

  datatype Signed = Signed(p: string, c: string)

  /** `signNtag424Tap` for a seven-byte card id, the only size that fills one block. */
  function Sign(crypto: Cipher, card: Card, ctr: int): Signed
    requires KeysOk(card) && |FromHex(card.cid)| == 7
  {
    var cid, counter := FromHex(card.cid), CounterBytes(ctr);
    Signed(ToUpper(ToHex(crypto.encrypt(FromHex(card.k1), Block(cid, counter, [0, 0, 0, 0, 0])))),
           ToUpper(Sdmmac(crypto, card.k2, cid, counter)))
  }

  predicate UpperHexOf(s: Option<string>, length: nat) {
    s.Some? && |s.value| == length && AllUpperHex(s.value)
  }

  lemma UpperHexIsHex(s: string)
    requires AllUpperHex(s)
    ensures AllHex(s)
  {
    forall i | 0 <= i < |s| ensures IsHexDigit(s[i]) {
      assert IsUpperHexDigit(s[i]);
    }
  }

  /** The decrypted p. */
  function Plain(crypto: Cipher, card: Card, p: string): (bs: seq<byte>)
    requires KeysOk(card) && |p| == 32 && AllUpperHex(p)
    ensures |bs| == 16
  {
    UpperHexIsHex(p);
    ToHexFromHex(p);
    crypto.decrypt(FromHex(card.k1), FromHex(p))
  }

  /** `verifyNtag424FromPC`. */
  function Verify(crypto: Cipher, card: Card, p: Option<string>, c: Option<string>): TapResult
    requires KeysOk(card)
  {
    if !UpperHexOf(p, 32) then Refused(MalformedP)
    else if !UpperHexOf(c, 16) then Refused(MalformedC)
    else
      var plain := Plain(crypto, card, p.value);
      var cid, ctr := plain[1..8], plain[8..11];
      if plain[0] != 0xc7 then Refused(WrongMarker)
      else if ToUpper(card.cid) != ToUpper(ToLower(ToHex(cid))) then Refused(NoSuitableCard)
      else if ToLower(c.value) != ToLower(Sdmmac(crypto, card.k2, cid, ctr)) then Refused(MacMismatch)
      else Accepted(CounterOf(ctr))
  }

  /** `consumeNtag424FromPC`: a verified tap must also be newer than the counter on record. */
  function Consume(crypto: Cipher, card: Card, p: Option<string>, c: Option<string>): TapResult
    requires KeysOk(card)
  {
    var verified := Verify(crypto, card, p, c);
    if verified.Accepted? && verified.ctrNew <= card.ctr then Refused(CounterTooOld) else verified
  }

  // ---- Texts of bytes ----

  /** Upper-case hexadecimal of some bytes passes the format check and decodes to them. */
  lemma UpperHexOfBytes(bs: seq<byte>)
    ensures AllUpperHex(ToUpper(ToHex(bs))) && |ToUpper(ToHex(bs))| == 2 * |bs|
    ensures FromHex(ToUpper(ToHex(bs))) == bs
    ensures ToLower(ToUpper(ToHex(bs))) == ToHex(bs)
  {
    ToHexIsLower(bs);
    UpperHexRoundTrip(ToHex(bs));
    FromHexIgnoresCase(ToHex(bs));
    FromHexToHex(bs);
  }

  lemma {:induction false} UpperOfLower(s: string)
    ensures ToUpper(ToLower(s)) == ToUpper(s)
  {
    forall i | 0 <= i < |s| ensures UpperChar(LowerChar(s[i])) == UpperChar(s[i]) {}
    assert ToUpper(ToLower(s)) == ToUpper(s);
  }

  lemma SameUpperSameLength(s: string, t: string)
    requires ToUpper(s) == ToUpper(t)
    ensures |s| == |t|
  {
    assert |s| == |ToUpper(s)| == |ToUpper(t)| == |t|;
  }

  lemma {:induction false} DecodedPrefix(s: string)
    ensures forall i :: 0 <= i < 2 * |FromHex(s)| ==> IsHexDigit(s[i])
  {
    if |s| >= 2 && IsHexDigit(s[0]) && IsHexDigit(s[1]) {
      DecodedPrefix(s[2..]);
      forall i | 0 <= i < 2 * |FromHex(s)| ensures IsHexDigit(s[i]) {
        if i >= 2 { assert s[i] == s[2..][i - 2]; }
      }
    }
  }

  /** The card id text matches its own bytes exactly when it is fourteen characters long. */
  lemma CidMatchesItself(cid: string)
    requires |FromHex(cid)| == 7
    ensures ToUpper(cid) == ToUpper(ToLower(ToHex(FromHex(cid)))) <==> |cid| == 14
  {
    var text := ToHex(FromHex(cid));
    UpperOfLower(text);
    DecodedPrefix(cid);
    if |cid| == 14 {
      ToHexFromHex(cid);
      UpperOfLower(cid);
    } else if ToUpper(cid) == ToUpper(text) {
      SameUpperSameLength(cid, text);
    }
  }

  // ---- Round trip ----

  lemma SignedPlain(crypto: Cipher, card: Card, ctr: int)
    requires KeysOk(card) && |FromHex(card.cid)| == 7
    ensures var s := Sign(crypto, card, ctr);
            && UpperHexOf(Some(s.p), 32) && UpperHexOf(Some(s.c), 16)
            && Plain(crypto, card, s.p) == Block(FromHex(card.cid), CounterBytes(ctr), [0, 0, 0, 0, 0])
            && ToLower(s.c) == Sdmmac(crypto, card.k2, FromHex(card.cid), CounterBytes(ctr))
  {
    var block := Block(FromHex(card.cid), CounterBytes(ctr), [0, 0, 0, 0, 0]);
    var key := FromHex(card.k1);
    assert |block| == 16;
    UpperHexOfBytes(crypto.encrypt(key, block));
    assert crypto.decrypt(key, crypto.encrypt(key, block)) == block;
    UpperHexOfBytes(OddBytes(
      crypto.cmac(crypto.cmac(FromHex(card.k2), SV2_PREFIX + FromHex(card.cid) + CounterBytes(ctr)), [])));
  }

  lemma BlockParts(cid: seq<byte>, ctr: seq<byte>, tail: seq<byte>)
    requires |cid| == 7 && |ctr| == 3 && |tail| == 5
    ensures var b := Block(cid, ctr, tail); |b| == 16 && b[0] == 0xc7 && b[1..8] == cid && b[8..11] == ctr
  {
  }

  /**
   A signed tap verifies with the counter modulo 2^24, for every integer counter,
   exactly when the card id text is its fourteen hexadecimal digits; with
   anything after them the card is not found.
   */
  lemma RoundTripIsExact(crypto: Cipher, card: Card, ctr: int)
    requires KeysOk(card) && |FromHex(card.cid)| == 7
    ensures var s := Sign(crypto, card, ctr);
            Verify(crypto, card, Some(s.p), Some(s.c))
            == if |card.cid| == 14 then Accepted(ctr % COUNTER_SPAN) else Refused(NoSuitableCard)
  {
    hide Sdmmac, Plain, Sign, ToUpper, ToLower, ToHex, FromHex, AllUpperHex;
    SignedPlain(crypto, card, ctr);
    BlockParts(FromHex(card.cid), CounterBytes(ctr), [0, 0, 0, 0, 0]);
    CidMatchesItself(card.cid);
    CounterRoundTrip(ctr, CounterBytes(ctr));
    MacIsLower(crypto, card.k2, FromHex(card.cid), CounterBytes(ctr));
  }

  lemma MacIsLower(crypto: Cipher, k2: string, cid: seq<byte>, ctr: seq<byte>)
    requires |FromHex(k2)| == 16
    ensures ToLower(Sdmmac(crypto, k2, cid, ctr)) == Sdmmac(crypto, k2, cid, ctr)
  {
    ToHexIsLower(OddBytes(crypto.cmac(crypto.cmac(FromHex(k2), SV2_PREFIX + cid + ctr), [])));
  }

  /** A fresh signed tap is consumed exactly when its counter, modulo 2^24, is above the one on record. */
  lemma SignedTapIsConsumed(crypto: Cipher, card: Card, ctr: int)
    requires KeysOk(card) && |FromHex(card.cid)| == 7 && |card.cid| == 14
    ensures var s := Sign(crypto, card, ctr);
            Consume(crypto, card, Some(s.p), Some(s.c))
            == if ctr % COUNTER_SPAN > card.ctr then Accepted(ctr % COUNTER_SPAN) else Refused(CounterTooOld)
  {
    RoundTripIsExact(crypto, card, ctr);
  }

  lemma {:induction false} UpperUnique(s: string, t: string)
    requires AllUpperHex(s) && AllUpperHex(t) && ToLower(s) == ToLower(t)
    ensures s == t
  {
    assert |s| == |ToLower(s)| == |t|;
    forall i | 0 <= i < |s| ensures s[i] == t[i] {
      assert IsUpperHexDigit(s[i]) && IsUpperHexDigit(t[i]);
      assert LowerChar(s[i]) == ToLower(s)[i] == ToLower(t)[i] == LowerChar(t[i]);
    }
  }

  /** Whatever is accepted carries, for its counter, the one c that signing gives: no other c passes. */
  lemma AcceptedIsSigned(crypto: Cipher, card: Card, p: Option<string>, c: Option<string>)
    requires KeysOk(card) && Verify(crypto, card, p, c).Accepted?
    ensures var n := Verify(crypto, card, p, c).ctrNew;
            && 0 <= n < COUNTER_SPAN
            && |FromHex(card.cid)| == 7
            && c == Some(Sign(crypto, card, n).c)
  {
    var plain := Plain(crypto, card, p.value);
    var cid, ctr := plain[1..8], plain[8..11];
    CidFromText(card.cid, cid);
    CounterRoundTrip(0, ctr);
    SignedPlain(crypto, card, CounterOf(ctr));
    MacIsLower(crypto, card.k2, cid, ctr);
    UpperUnique(c.value, Sign(crypto, card, CounterOf(ctr)).c);
  }

  lemma CidFromText(text: string, cid: seq<byte>)
    requires ToUpper(text) == ToUpper(ToLower(ToHex(cid)))
    ensures FromHex(text) == cid
  {
    UpperOfLower(ToHex(cid));
    FromHexIgnoresCase(text);
    FromHexIgnoresCase(ToHex(cid));
    FromHexToHex(cid);
  }

  /** The sixteen hexadecimal digits of a card's signature over its id and a counter. */
  function SignatureOf(crypto: Cipher, card: Card, ctr: int): string
    requires KeysOk(card)
  {
    var session := crypto.cmac(FromHex(card.k2),
                               [0x3c, 0xc3, 0x00, 0x01, 0x00, 0x80] + FromHex(card.cid) + CounterBytes(ctr));
    var mac := crypto.cmac(session, []);
    ToUpper(ToHex([mac[1], mac[3], mac[5], mac[7], mac[9], mac[11], mac[13], mac[15]]))
  }

  lemma CidIsCards(text: string, cid: seq<byte>)
    requires |cid| == 7
    ensures ToUpper(text) == ToUpper(ToLower(ToHex(cid))) <==> |text| == 14 && FromHex(text) == cid
  {
    if ToUpper(text) == ToUpper(ToLower(ToHex(cid))) {
      CidFromText(text, cid);
      SameUpperSameLength(text, ToLower(ToHex(cid)));
    } else if |text| == 14 && FromHex(text) == cid {
      CidMatchesItself(text);
    }
  }

  lemma MacIsSignature(crypto: Cipher, card: Card, c: string, ctr: int)
    requires KeysOk(card) && |c| == 16 && AllUpperHex(c)
    ensures ToLower(c) == ToLower(Sdmmac(crypto, card.k2, FromHex(card.cid), CounterBytes(ctr)))
            <==> c == SignatureOf(crypto, card, ctr)
  {
    var mac := crypto.cmac(crypto.cmac(FromHex(card.k2), SV2_PREFIX + FromHex(card.cid) + CounterBytes(ctr)), []);
    MacIsLower(crypto, card.k2, FromHex(card.cid), CounterBytes(ctr));
    UpperHexOfBytes(OddBytes(mac));
    assert SignatureOf(crypto, card, ctr) == ToUpper(ToHex(OddBytes(mac)));
    if ToLower(c) == ToHex(OddBytes(mac)) {
      UpperUnique(c, SignatureOf(crypto, card, ctr));
    }
  }

  lemma CounterText(bs: seq<byte>, n: int)
    requires |bs| == 3
    ensures CounterOf(bs) == n <==> 0 <= n < COUNTER_SPAN && bs == CounterBytes(n)
  {
    CounterRoundTrip(n, bs);
  }

  /** The plaintext and the signature an accepted tap must have. */
  ghost predicate Genuine(crypto: Cipher, card: Card, p: string, c: string, n: int)
    requires KeysOk(card) && |FromHex(p)| == 16
  {
    var plain := crypto.decrypt(FromHex(card.k1), FromHex(p));
    && |card.cid| == 14 && |FromHex(card.cid)| == 7 && 0 <= n < 0x100_0000
    && plain[0] == 0xc7 && plain[1..8] == FromHex(card.cid) && plain[8..11] == CounterBytes(n)
    && c == SignatureOf(crypto, card, n)
  }

  lemma ThirtyTwoDigits(p: string)
    requires |p| == 32 && AllUpperHex(p)
    ensures |FromHex(p)| == 16
  {
    UpperHexIsHex(p);
    ToHexFromHex(p);
  }

  /**
   A tap is accepted with a counter exactly when p is thirty-two upper-case digits
   that decrypt to the marker, the card's id and that counter, and c is the card's
   signature over both.
   */
  lemma AcceptedExactly(crypto: Cipher, card: Card, p: Option<string>, c: Option<string>, n: int)
    requires KeysOk(card)
    ensures Verify(crypto, card, p, c) == Accepted(n)
            <==> && p.Some? && |p.value| == 32 && AllUpperHex(p.value) && |FromHex(p.value)| == 16
                 && c.Some? && Genuine(crypto, card, p.value, c.value, n)
  {
    hide ToUpper, ToLower, ToHex, FromHex, AllUpperHex, Sdmmac, SignatureOf, CounterOf, CounterBytes;
    if p.Some? && |p.value| == 32 && AllUpperHex(p.value) && c.Some? {
      ThirtyTwoDigits(p.value);
      var plain := crypto.decrypt(FromHex(card.k1), FromHex(p.value));
      SignatureIsUpper(crypto, card, n);
      if |c.value| == 16 && AllUpperHex(c.value) {
        CidIsCards(card.cid, plain[1..8]);
        CounterText(plain[8..11], n);
        MacIsSignature(crypto, card, c.value, n);
      }
    }
  }

  lemma SignatureIsUpper(crypto: Cipher, card: Card, n: int)
    requires KeysOk(card)
    ensures |SignatureOf(crypto, card, n)| == 16 && AllUpperHex(SignatureOf(crypto, card, n))
  {
    var session := crypto.cmac(FromHex(card.k2),
                               [0x3c, 0xc3, 0x00, 0x01, 0x00, 0x80] + FromHex(card.cid) + CounterBytes(n));
    var mac := crypto.cmac(session, []);
    assert |[0x3c, 0xc3, 0x00, 0x01, 0x00, 0x80] + FromHex(card.cid) + CounterBytes(n)| >= 0;
    UpperHexOfBytes([mac[1], mac[3], mac[5], mac[7], mac[9], mac[11], mac[13], mac[15]]);
  }

  /** Which refusal a tap meets: its form, its marker, its card, its signature, and last its age, in this order. */
  lemma RefusalsInOrder(crypto: Cipher, card: Card, p: Option<string>, c: Option<string>)
    requires KeysOk(card)
    ensures var r := Consume(crypto, card, p, c);
            && (r == Refused(MalformedP) <==> !(p.Some? && |p.value| == 32 && AllUpperHex(p.value)))
            && (r != Refused(MalformedP) ==>
                  && |FromHex(p.value)| == 16
                  && var plain := crypto.decrypt(FromHex(card.k1), FromHex(p.value));
                     && (r == Refused(MalformedC) <==> !(c.Some? && |c.value| == 16 && AllUpperHex(c.value)))
                     && (r != Refused(MalformedC) ==>
                           && (r == Refused(WrongMarker) <==> plain[0] != 0xc7)
                           && (r == Refused(NoSuitableCard) <==>
                                 plain[0] == 0xc7 && !(|card.cid| == 14 && FromHex(card.cid) == plain[1..8]))
                           && (r.Accepted? || r == Refused(CounterTooOld) <==>
                                 Genuine(crypto, card, p.value, c.value, CounterOf(plain[8..11])))
                           && (r == Refused(CounterTooOld) ==> CounterOf(plain[8..11]) <= card.ctr)
                           && (r.Accepted? ==> r.ctrNew == CounterOf(plain[8..11]) && r.ctrNew > card.ctr)))
  {
    hide ToUpper, ToLower, ToHex, FromHex, AllUpperHex, Sdmmac, SignatureOf, CounterOf, CounterBytes;
    if p.Some? && |p.value| == 32 && AllUpperHex(p.value) {
      ThirtyTwoDigits(p.value);
      var plain := crypto.decrypt(FromHex(card.k1), FromHex(p.value));
      CidIsCards(card.cid, plain[1..8]);
      AcceptedExactly(crypto, card, p, c, CounterOf(plain[8..11]));
    }
  }

  // ---- No replay ----

  datatype Tap = Tap(p: Option<string>, c: Option<string>)

  /** Taps one after the other; each accepted counter is stored before the next. */
  function TapAll(crypto: Cipher, card: Card, taps: seq<Tap>): (results: seq<TapResult>)
    requires KeysOk(card)
    ensures |results| == |taps|
    decreases |taps|
  {
    if taps == [] then []
    else
      var r := Consume(crypto, card, taps[0].p, taps[0].c);
      [r] + TapAll(crypto, if r.Accepted? then card.(ctr := r.ctrNew) else card, taps[1..])
  }

  /** Accepted counters are above the one on record and strictly increase. */
  lemma {:induction false} CountersIncrease(crypto: Cipher, card: Card, taps: seq<Tap>, i: nat, j: nat)
    requires KeysOk(card) && i < |taps| && j < |taps|
    requires TapAll(crypto, card, taps)[i].Accepted?
    ensures TapAll(crypto, card, taps)[i].ctrNew > card.ctr
    ensures i < j && TapAll(crypto, card, taps)[j].Accepted? ==>
              TapAll(crypto, card, taps)[i].ctrNew < TapAll(crypto, card, taps)[j].ctrNew
    decreases |taps|
  {
    hide Verify;
    var r := Consume(crypto, card, taps[0].p, taps[0].c);
    var card' := if r.Accepted? then card.(ctr := r.ctrNew) else card;
    var rest := TapAll(crypto, card', taps[1..]);
    assert TapAll(crypto, card, taps) == [r] + rest;
    if i > 0 {
      CountersIncrease(crypto, card', taps[1..], i - 1, if j > 0 then j - 1 else 0);
    } else if j > 0 && rest[j - 1].Accepted? {
      CountersIncrease(crypto, card', taps[1..], j - 1, j - 1);
    }
  }

  /** The counter of an accepted tap depends on the card's fixed record only. */
  lemma {:induction false} AcceptedCounter(crypto: Cipher, card: Card, taps: seq<Tap>, i: nat)
    requires KeysOk(card) && i < |taps| && TapAll(crypto, card, taps)[i].Accepted?
    ensures TapAll(crypto, card, taps)[i] == Verify(crypto, card, taps[i].p, taps[i].c)
    decreases |taps|
  {
    var r := Consume(crypto, card, taps[0].p, taps[0].c);
    var card' := if r.Accepted? then card.(ctr := r.ctrNew) else card;
    if i > 0 {
      AcceptedCounter(crypto, card', taps[1..], i - 1);
    }
  }

  /** No tap is accepted twice, whatever comes in between and whatever c accompanies the second p. */
  lemma NoReplay(crypto: Cipher, card: Card, taps: seq<Tap>, i: nat, j: nat)
    requires KeysOk(card) && i < j < |taps| && taps[i].p == taps[j].p
    ensures !(TapAll(crypto, card, taps)[i].Accepted? && TapAll(crypto, card, taps)[j].Accepted?)
  {
    if TapAll(crypto, card, taps)[i].Accepted? && TapAll(crypto, card, taps)[j].Accepted? {
      CountersIncrease(crypto, card, taps, i, j);
      AcceptedCounter(crypto, card, taps, i);
      AcceptedCounter(crypto, card, taps, j);
    }
  }
}
