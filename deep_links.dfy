/** The WhatsApp, phone and e-mail links of src/lib/api.ts (`openWhatsApp`, `openPhoneDialer`, `openEmail`). */
module DeepLinks {
  import opened Wrappers
  import opened Seqs
  import opened Strings

  // ---------------------------------------------------------------------------
  // Deep links
  // ---------------------------------------------------------------------------

  const DefaultWhatsAppMessage := "Olá! Vi seu contato e gostaria de conversar sobre sua consulta jurídica."

  /** `telefone.replace(/\D/g, '')` */
  function PhoneDigits(telefone: string): string
  {
    Filter(telefone, IsAsciiDigit)
  }

  /** The URL `openWhatsApp` opens. */
  function WhatsAppUrl(telefone: string, mensagem: Option<string>, encode: string -> string): string
  {
    var text := if Present(mensagem) then mensagem.value else DefaultWhatsAppMessage;
    "https://wa.me/" + PhoneDigits(telefone) + "?text=" + encode(text)
  }

  /** The URL `openPhoneDialer` navigates to. */
  function PhoneDialerUrl(telefone: string): string
  {
    "tel:" + PhoneDigits(telefone)
  }

  /** The URL `openEmail` navigates to; the address itself is not encoded. */
  function EmailUrl(email: string, assunto: Option<string>, encode: string -> string): string
  {
    var encoded := if Present(assunto) then encode(assunto.value) else "";
    "mailto:" + email + (if Present(assunto) then "?subject=" + encoded else "")
  }

  /** The phone part keeps exactly the ASCII digits of the number, in order. */
  lemma {:induction false} PhoneDigitsSpec(telefone: string)
    ensures IsSubsequence(PhoneDigits(telefone), telefone)
    ensures forall c :: c in PhoneDigits(telefone) ==> IsAsciiDigit(c)
    ensures forall c :: IsAsciiDigit(c) ==> multiset(PhoneDigits(telefone))[c] == multiset(telefone)[c]
    ensures PhoneDigits(PhoneDigits(telefone)) == PhoneDigits(telefone)
  {
    FilterSubsequence(telefone, IsAsciiDigit);
    FilterMembers(telefone, IsAsciiDigit);
    FilterMultiset(telefone, IsAsciiDigit);
    FilterIdempotent(telefone, IsAsciiDigit);
  }

  lemma PhoneDigitsCountryArea()
    ensures PhoneDigits("+55 (11) ") == "5511"
  {}

  lemma PhoneDigitsExchange()
    ensures PhoneDigits("98765") == "98765"
  {}

  lemma PhoneDigitsLine()
    ensures PhoneDigits("-4321") == "4321"
  {}

  lemma PhoneDigitsSubscriber()
    ensures PhoneDigits("98765-4321") == "987654321"
  {
    assert "98765-4321" == "98765" + "-4321";
    PhoneDigitsExchange();
    PhoneDigitsLine();
    FilterConcat("98765", "-4321", IsAsciiDigit);
    assert "98765" + "4321" == "987654321";
  }

  lemma PhoneDigitsScenario()
    ensures PhoneDigits("+55 (11) " + "98765-4321") == "5511" + "987654321"
    ensures PhoneDialerUrl("+55 (11) " + "98765-4321") == "tel:" + "5511" + "987654321"
  {
    PhoneDigitsCountryArea();
    PhoneDigitsSubscriber();
    FilterConcat("+55 (11) ", "98765-4321", IsAsciiDigit);
  }

  /** `s` up to (not including) its first `c`. */
  function Before(s: string, c: char): string
  {
    if |s| == 0 || s[0] == c then [] else [s[0]] + Before(s[1..], c)
  }

  lemma {:induction false} BeforeConcat(a: string, b: string, c: char)
    requires c !in a && |b| > 0 && b[0] == c
    ensures Before(a + b, c) == a
  {
    if |a| > 0 {
      assert (a + b)[1..] == a[1..] + b;
      BeforeConcat(a[1..], b, c);
    } else {
      assert a + b == b;
    }
  }

  /**
   * The WhatsApp URL can be taken apart again: after the fixed prefix, the text up to the
   * first `?` is the phone's digits, and what follows `?text=` is the encoded message
   * (the caller's when it is non-empty, the default otherwise).
   */
  lemma {:induction false} WhatsAppUrlParts(telefone: string, mensagem: Option<string>, encode: string -> string)
    ensures var url := WhatsAppUrl(telefone, mensagem, encode);
            var rest := url[|"https://wa.me/"|..];
            && url[..|"https://wa.me/"|] == "https://wa.me/"
            && Before(rest, '?') == PhoneDigits(telefone)
            && rest[|PhoneDigits(telefone)|..] == "?text=" + encode(if Present(mensagem) then mensagem.value else DefaultWhatsAppMessage)
  {
    var d := PhoneDigits(telefone);
    var tail := "?text=" + encode(if Present(mensagem) then mensagem.value else DefaultWhatsAppMessage);
    var url := WhatsAppUrl(telefone, mensagem, encode);
    assert url == "https://wa.me/" + (d + tail);
    FilterMembers(telefone, IsAsciiDigit);
    assert '?' !in d;
    BeforeConcat(d, tail, '?');
  }

  /** The address appears verbatim, and `?subject=` is appended iff a subject is given. */
  lemma EmailUrlSpec(email: string, assunto: Option<string>, encode: string -> string)
    ensures var url := EmailUrl(email, assunto, encode);
            && url[..7 + |email|] == "mailto:" + email
            && (url == "mailto:" + email <==> !Present(assunto))
            && (Present(assunto) ==> url[7 + |email|..] == "?subject=" + encode(assunto.value))
  {
    var url := EmailUrl(email, assunto, encode);
    if Present(assunto) {
      assert |url| > |"mailto:" + email|;
    }
  }

}
