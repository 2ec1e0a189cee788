/**
 * The gift announcement read out directly by the voice engine: who gave
 * how many of which gift and, for a paid gift, its price in yuan written
 * without trailing zeros. The voice lookup and the speech call are outside
 * the model.
 */
module GiftVoice {
  import opened Text
  import Events

  /** `strconv.FormatFloat(cents / 100, 'f', 2, 64)` for a whole number of cents, which it renders exactly. */
  function TwoDecimals(cents: int): (r: string)
    ensures |r| >= 4 && r[|r| - 3] == '.' && IsDigit(r[|r| - 2]) && IsDigit(r[|r| - 1])
  {
    var m: nat := if cents < 0 then -cents else cents;
    (if cents < 0 then "-" else "") + NatToString(m / 100) + "." + [DigitChar(m % 100 / 10), DigitChar(m % 10)]
  }

  /**
   * The price text of `GetGiftVoiceText`: the price in thousandths of a
   * yuan as a two-decimal number, then trailing '0's cut, then a trailing
   * '.' cut. Only prices in whole cents are covered, see `GetGiftVoiceText`.
   */
  function PriceText(price: int): string
    requires price % 10 == 0
  {
    TrimRightChar(TrimRightChar(TwoDecimals(price / 10), '0'), '.')
  }

  /** `w` followed by one character `c`: cutting `c` from the right starts by dropping that character. */
  lemma TrimLast(w: string, c: char)
    ensures TrimRightChar(w + [c], c) == TrimRightChar(w, c)
  {
    assert (w + [c])[..|w|] == w;
  }

  /** Cutting the zeros and then the point from "w.00" leaves `w`, when `w` does not end with a point. */
  lemma StripZeroDecimals(w: string)
    requires |w| > 0 && w[|w| - 1] != '.'
    ensures TrimRightChar(TrimRightChar(w + ".00", '0'), '.') == w
  {
    var a := w + ['.'];
    var b := a + ['0'];
    AppendAssoc(w, ['.'], ['0']);
    assert ['.'] + ['0'] == ['.', '0'] && ['.', '0'] + ['0'] == ".00";
    AppendAssoc(w, ['.', '0'], ['0']);
    TrimLast(b, '0');
    TrimLast(a, '0');
    TrimNone(a, '0');
    TrimLast(w, '.');
    TrimNone(w, '.');
  }

  lemma AppendAssoc(a: string, b: string, c: string)
    ensures a + (b + c) == (a + b) + c
  {
  }

  lemma TrimNone(w: string, c: char)
    requires |w| > 0 && w[|w| - 1] != c
    ensures TrimRightChar(w, c) == w
  {
  }

  lemma WholeCents(y: int)
    ensures (1000 * y) / 10 == 100 * y
  {
  }

  lemma HundredsDigits(a: nat)
    ensures (100 * a) % 100 == 0 && (100 * a) / 100 == a
  {
  }

  /** A whole number of yuan is written as that number, with no decimals. */
  lemma PriceTextWhole(price: int)
    requires price % 1000 == 0
    ensures PriceText(price) == Itoa(price / 1000)
  {
    var y := price / 1000;
    assert price == 1000 * y;
    var cents := price / 10;
    WholeCents(y);
    var m: nat := if cents < 0 then -cents else cents;
    assert m == 100 * (if y < 0 then -y else y);
    HundredsDigits(if y < 0 then -y else y);
    assert TwoDecimals(cents) == Itoa(y) + ".00" by {
      assert DigitChar(0) == '0';
    }
    var digits := NatToString(m / 100);
    assert Itoa(y)[|Itoa(y)| - 1] == digits[|digits| - 1];
    StripZeroDecimals(Itoa(y));
  }

  /** A price with pennies keeps both decimals. */
  lemma PriceTextCents(price: int)
    requires price % 10 == 0 && price % 100 != 0
    ensures PriceText(price) == TwoDecimals(price / 10)
  {
    var cents := price / 10;
    var m: nat := if cents < 0 then -cents else cents;
    assert m % 10 != 0;
    var s := TwoDecimals(cents);
    assert s[|s| - 1] != '0';
    assert s[|s| - 1] != '.';
  }

  /** A price in tenths of a yuan has a zero for its pennies and a non-zero tenth. */
  lemma TenthsDigits(price: int)
    requires price % 100 == 0 && price % 1000 != 0
    ensures var cents := price / 10; var m := if cents < 0 then -cents else cents;
            m % 10 == 0 && m % 100 / 10 != 0
  {
    var t := price / 100;
    assert price == 100 * t;
    TimesTen(t);
    NonZeroTenth(t);
    var a := if t < 0 then -t else t;
    AbsKeepsLastDigit(t);
    LastDigitsOfTens(a);
  }

  lemma TimesTen(t: int)
    ensures (100 * t) / 10 == 10 * t
  {
  }

  lemma NonZeroTenth(t: int)
    requires (100 * t) % 1000 != 0
    ensures t % 10 != 0
  {
    var q := t / 10;
    var r := t % 10;
    assert 100 * t == 1000 * q + 100 * r;
    assert (100 * t) % 1000 == 100 * r;
  }

  lemma AbsKeepsLastDigit(t: int)
    requires t % 10 != 0
    ensures (if t < 0 then -t else t) % 10 != 0
  {
    if t < 0 {
      var q := t / 10;
      var r := t % 10;
      assert -t == 10 * (-q - 1) + (10 - r);
    }
  }

  lemma LastDigitsOfTens(a: int)
    requires a >= 0 && a % 10 != 0
    ensures var m := if 10 * a < 0 then -(10 * a) else 10 * a; m % 10 == 0 && m % 100 / 10 != 0
  {
    var q := a / 10;
    var r := a % 10;
    assert 10 * a == 100 * q + 10 * r;
    assert (10 * a) % 100 == 10 * r;
  }

  /** A price in tenths of a yuan drops its last zero and keeps one decimal. */
  lemma PriceTextTenths(price: int)
    requires price % 10 == 0 && price % 100 == 0 && price % 1000 != 0
    ensures var s := TwoDecimals(price / 10); PriceText(price) == s[..|s| - 1] && s[|s| - 1] == '0'
  {
    var cents := price / 10;
    var m: nat := if cents < 0 then -cents else cents;
    TenthsDigits(price);
    var d1 := m % 100 / 10;
    var pre := (if cents < 0 then "-" else "") + NatToString(m / 100) + ".";
    var s := TwoDecimals(cents);
    assert s == pre + [DigitChar(d1)] + [DigitChar(0)];
    var w := pre + [DigitChar(d1)];
    assert s[..|s| - 1] == w;
    TrimLast(w, '0');
    assert DigitChar(d1) != '0' && DigitChar(d1) != '.';
    assert w[|w| - 1] == DigitChar(d1);
    assert TrimRightChar(w, '0') == w;
    assert TrimRightChar(w, '.') == w;
  }

  /** The gift part every gift announcement starts with. */
  function GiftPart(gift: Events.GiftData): string {
    gift.uname + "赠送了 " + Itoa(gift.giftNum) + "个" + gift.giftName
  }

  /**
   * `GetGiftVoiceText`: who gave how many of what and, for a paid gift, its
   * value; the voice it returns is never assigned and so is always empty.
   */
  function GetGiftVoiceText(gift: Events.GiftData): (r: (string, string))
    requires gift.paid ==> gift.price % 10 == 0
    ensures r.1 == ""
    ensures !gift.paid ==> r.0 == GiftPart(gift)
    ensures gift.paid ==> r.0 == GiftPart(gift) + "，价值" + PriceText(gift.price) + "元"
    ensures gift.paid ==> HasPrefix(r.0, GiftPart(gift) + "，价值") && HasSuffix(r.0, PriceText(gift.price) + "元")
  {
    var voiceID := "";
    if gift.paid then
      var giftPrice := PriceText(gift.price);
      var text := gift.uname + "赠送了 " + Itoa(gift.giftNum) + "个" + gift.giftName + "，价值" + giftPrice + "元";
      assert text == (GiftPart(gift) + "，价值") + (giftPrice + "元");
      ConcatAffixes(GiftPart(gift) + "，价值", giftPrice + "元");
      (text, voiceID)
    else
      (gift.uname + "赠送了 " + Itoa(gift.giftNum) + "个" + gift.giftName, voiceID)
  }
}
