/** The phone normalisation of the Telegram bot
    (server/services/telegram-bot.ts): a shared contact's phone number is
    reduced to its digits and given a leading "+", with an 11-digit number
    beginning with 8 rewritten to the +7 form. Unlike the sheet importer's
    version it never refuses a number. */
module TelegramBot {
  import opened Wrappers
  import XlsxProcessor

  /** `normalizePhone(phone)` as written: total, and with no special case
      for ten digits. */
  function NormalizePhone(phone: string): string
  {
    var d := XlsxProcessor.Digits(phone);
    if |d| == 11 && d[0] == '8' then "+7" + d[1..]
    else "+" + d
  }

  /** The result is "+" and only digits, as many as the input has; only an
      11-digit number led by 8 has its first digit changed, to 7. */
  lemma NormalizePhoneShape(phone: string)
    ensures var d := XlsxProcessor.Digits(phone);
      var r := NormalizePhone(phone);
      && |r| == |d| + 1 && r[0] == '+' && XlsxProcessor.AllDigits(r[1..])
      && (|d| > 0 ==> r[2..] == d[1..] && r[1] == (if |d| == 11 && d[0] == '8' then '7' else d[0]))
  {
    var d := XlsxProcessor.Digits(phone);
    var r := NormalizePhone(phone);
    if |d| == 11 && d[0] == '8' {
      assert r == "+7" + d[1..];
    } else {
      assert r == "+" + d;
    }
  }

  /** Only the digits of the input matter: any text around or between them
      is dropped before the number is classified. */
  lemma NormalizePhoneIgnoresNonDigits(phone: string, noise: string)
    requires forall i :: 0 <= i < |noise| ==> !XlsxProcessor.IsDigit(noise[i])
    ensures NormalizePhone(noise + phone) == NormalizePhone(phone)
    ensures NormalizePhone(phone + noise) == NormalizePhone(phone)
  {
    NoDigits(noise);
    XlsxProcessor.DigitsAppend(noise, phone);
    XlsxProcessor.DigitsAppend(phone, noise);
    assert [] + XlsxProcessor.Digits(phone) == XlsxProcessor.Digits(phone);
    assert XlsxProcessor.Digits(phone) + [] == XlsxProcessor.Digits(phone);
  }

  lemma {:induction false} NoDigits(s: string)
    requires forall i :: 0 <= i < |s| ==> !XlsxProcessor.IsDigit(s[i])
    ensures XlsxProcessor.Digits(s) == []
  {
    if s != [] {
      NoDigits(s[1..]);
    }
  }

  /** Normalising a normalised number changes nothing. */
  lemma NormalizePhoneIdempotent(phone: string)
    ensures NormalizePhone(NormalizePhone(phone)) == NormalizePhone(phone)
  {
    var r := NormalizePhone(phone);
    NormalizePhoneShape(phone);
    XlsxProcessor.DigitsOfPhone(r);
    var d := XlsxProcessor.Digits(phone);
    if |d| == 11 && d[0] == '8' {
      assert r[1..] == "7" + d[1..];
    } else {
      assert r[1..] == d;
    }
  }

  /** With at least 11 digits the bot and the sheet importer produce the
      same number, so a driver found by phone in one is found in the other. */
  lemma AgreesWithImporter(phone: string)
    requires |XlsxProcessor.Digits(phone)| >= 11
    ensures XlsxProcessor.NormalizeDigits(XlsxProcessor.Digits(phone)) == Some(NormalizePhone(phone))
  {
  }

  /** With exactly ten digits (a Russian mobile number without its country
      code, such as 9161234567) the two disagree: the importer stores
      "+7" and the ten digits, the bot looks up "+" and the ten digits, so
      the bot cannot find the driver the sheet was imported for. */
  lemma TenDigitsDisagree(phone: string)
    requires |XlsxProcessor.Digits(phone)| == 10
    ensures XlsxProcessor.NormalizeDigits(XlsxProcessor.Digits(phone)) == Some("+7" + XlsxProcessor.Digits(phone))
    ensures NormalizePhone(phone) == "+" + XlsxProcessor.Digits(phone)
    ensures XlsxProcessor.NormalizeDigits(XlsxProcessor.Digits(phone)) != Some(NormalizePhone(phone))
  {
    assert |"+7" + XlsxProcessor.Digits(phone)| != |NormalizePhone(phone)|;
  }

  /** The normalisation the comment at the head of `normalizePhone` asks for,
      "+7" for a ten-digit Russian number as the importer does. */
  function NormalizePhoneRussian(phone: string): string
  {
    var d := XlsxProcessor.Digits(phone);
    if |d| == 11 && d[0] == '8' then "+7" + d[1..]
    else if |d| == 10 then "+7" + d
    else "+" + d
  }

  /** The corrected version agrees with the importer on every number the
      importer accepts, and differs from the bot as written only at ten
      digits. */
  lemma NormalizePhoneRussianAgrees(phone: string)
    ensures |XlsxProcessor.Digits(phone)| >= 10 ==>
      XlsxProcessor.NormalizeDigits(XlsxProcessor.Digits(phone)) == Some(NormalizePhoneRussian(phone))
    ensures |XlsxProcessor.Digits(phone)| != 10 ==> NormalizePhoneRussian(phone) == NormalizePhone(phone)
  {
  }

  /** The corrected version is idempotent too. */
  lemma NormalizePhoneRussianIdempotent(phone: string)
    ensures NormalizePhoneRussian(NormalizePhoneRussian(phone)) == NormalizePhoneRussian(phone)
  {
    var d := XlsxProcessor.Digits(phone);
    var r := NormalizePhoneRussian(phone);
    var q := if |d| == 11 && d[0] == '8' then "7" + d[1..] else if |d| == 10 then "7" + d else d;
    assert r == "+" + q;
    assert XlsxProcessor.AllDigits(q);
    XlsxProcessor.DigitsOfPhone(r);
  }
}
