/**
 * The text handling of the SMS service: the `name=` registration command,
 * E.164-style phone normalisation and the length cap applied before a
 * message is handed to the SMS provider.
 */
module SmsService {
  import opened Wrappers
  import opened PyText
  import opened NameCommand

  /** `SMSService.parse_name_command`: only the `name=<name>` shape. */
  function ParseNameCommand(message: string): (r: Option<string>)
    ensures r.Some? ==> r.value != [] && '\n' !in r.value
    ensures r.Some? ==> StartsWithIgnoreCase(Strip(message), "name")
  {
    var m := Strip(message);
    var g := MatchNameEquals(m);
    NameOf(g)
  }

  /** `SMSService.is_name_command` */
  predicate IsNameCommand(message: string) {
    ParseNameCommand(message).Some?
  }

  /** A plain name texted as `name=<n>` registers exactly `n`. */
  lemma ParseNamePlain(n: string)
    requires PlainName(n)
    ensures ParseNameCommand("name=" + n) == Some(n)
    ensures IsNameCommand("name=" + n)
  {
    StripNameEqualsPlain(n);
    MatchNameEqualsPlain(n);
    ParseKnown("name=" + n, n);
  }

  /** A stripped message whose match is a plain name registers that name. */
  lemma ParseKnown(m: string, n: string)
    requires Strip(m) == m && MatchNameEquals(m) == Some(n) && PlainName(n)
    ensures ParseNameCommand(m) == Some(n)
  {
    NameOfPlain(n);
  }

  /** The command is decided on the stripped message. */
  lemma ParseStripped(message: string, m: string)
    requires Strip(message) == m
    ensures ParseNameCommand(message) == NameOf(MatchNameEquals(m))
  {
  }

  /** Surrounding whitespace makes no difference to the command. */
  lemma ParseNameIgnoresPadding(message: string)
    ensures ParseNameCommand(Strip(message)) == ParseNameCommand(message)
  {
    StripIdempotent(message);
  }

  /**
   * `normalize_phone_number`: a leading `+` keeps only the digits after it;
   * otherwise the digits alone get `+1` in front when there are exactly ten
   * of them and `+` in front otherwise.
   */
  function NormalizePhoneNumber(phone: string): (r: string)
    ensures |r| >= 1 && r[0] == '+' && AllDigits(r[1..])
    ensures StartsWith(phone, "+") ==> r == "+" + Digits(phone[1..])
    ensures !StartsWith(phone, "+") && |Digits(phone)| == 10 ==> r == "+1" + Digits(phone)
    ensures !StartsWith(phone, "+") && |Digits(phone)| != 10 ==> r == "+" + Digits(phone)
  {
    if StartsWith(phone, "+") then
      "+" + Digits(phone[1..])
    else
      var digits := Digits(phone);
      if |digits| == 10 then "+1" + digits
      else if StartsWith(digits, "+") then digits
      else "+" + digits
  }

  /** A normalised number is already normal: normalising twice is normalising once. */
  lemma NormalizeIdempotent(phone: string)
    ensures NormalizePhoneNumber(NormalizePhoneNumber(phone)) == NormalizePhoneNumber(phone)
  {
    var r := NormalizePhoneNumber(phone);
    assert StartsWith(r, "+");
    DigitsOfDigits(r[1..]);
  }

  /** Ten national digits, however they are punctuated, become the `+1` number. */
  lemma NormalizeUsNumber(phone: string)
    requires !StartsWith(phone, "+") && |Digits(phone)| == 10
    ensures NormalizePhoneNumber(phone) == "+1" + Digits(phone)
    ensures |NormalizePhoneNumber(phone)| == 12
  {
  }

  const MaxSmsLength := 1600

  /** The body `send_sms` hands over: longer text is cut to 1597 characters and `...`. */
  function TruncateSms(message: string): (body: string)
    ensures |message| <= MaxSmsLength ==> body == message
    ensures |message| > MaxSmsLength ==>
      |body| == MaxSmsLength && body[..MaxSmsLength - 3] == message[..MaxSmsLength - 3]
      && body[MaxSmsLength - 3..] == "..."
  {
    if |message| > MaxSmsLength then message[..MaxSmsLength - 3] + "..." else message
  }

  /** Every body handed to the provider fits in ten segments, and a fitting one is never cut. */
  lemma TruncateSmsBound(message: string)
    ensures |TruncateSms(message)| <= MaxSmsLength
    ensures TruncateSms(TruncateSms(message)) == TruncateSms(message)
  {
  }
}
