/** The contact form's send button: the message text built from the four
    inputs, the WhatsApp number chosen from the stored credentials, and the
    `wa.me` link. `encodeURIComponent` is a parameter. */
module ContactSection {
  import opened Wrappers
  import opened Records
  import opened LocalStore
  import opened JsText
  import AuthService

  /** The number used when none is stored. */
  const DefaultNumber: string := "5521977434614"

  /** The four inputs; `None` when the element is not in the page. */
  datatype ContactForm = ContactForm(
    name: Option<string>,
    email: Option<string>,
    organization: Option<string>,
    message: Option<string>)

  /** `element?.value || ""`: a missing element contributes the empty text. */
  function InputText(el: Option<string>): string {
    el.GetOr("")
  }

  /** `lead + v`, a line break, then the rest of the text. */
  function Line(lead: string, v: string, rest: string): string {
    lead + v + "\n" + rest
  }

  /** The message sent: one labelled line per field, the message last, i.e.
      "Nome: " + name + "\nEmail: " + email + "\nOrganização: " + org + "\nMensagem: " + msg. */
  function MessageText(name: string, email: string, org: string, msg: string): string {
    Line("Nome: ", name, Line("Email: ", email, Line("Organização: ", org, "Mensagem: " + msg)))
  }

  /** The number the button uses: the stored `whatsappNumber` when the stored
      credentials parse and the number is non-empty, `DefaultNumber` otherwise. */
  function ContactNumber(s: Store): (r: string)
    ensures AuthKey !in s || !s[AuthKey].Credentials? || s[AuthKey].auth.whatsappNumber == "" ==> r == DefaultNumber
    ensures AuthKey in s && s[AuthKey].Credentials? && s[AuthKey].auth.whatsappNumber != ""
            ==> r == s[AuthKey].auth.whatsappNumber
    ensures r != ""
  {
    if AuthKey in s && s[AuthKey].Credentials? && s[AuthKey].auth.whatsappNumber != "" then
      s[AuthKey].auth.whatsappNumber
    else
      DefaultNumber
  }

  /** The link opened in a new window. */
  function WhatsAppUrl(number: string, text: string, encode: string -> string): string {
    "https://wa.me/" + number + "?text=" + encode(text)
  }

  /** The send button's `onClick`: the link for the form's current values. */
  function SendMessage(form: ContactForm, s: Store, encode: string -> string): string
  {
    var text := MessageText(InputText(form.name), InputText(form.email),
                            InputText(form.organization), InputText(form.message));
    WhatsAppUrl(ContactNumber(s), text, encode)
  }

  /** The button and `getWhatsAppNumber` agree exactly when the latter is
      non-empty: a stored empty number is returned verbatim by the service
      but replaced by `DefaultNumber` here. */
  lemma ContactNumberVersusService(s: Store)
    ensures ContactNumber(s) == AuthService.GetWhatsAppNumber(s) <==> AuthService.GetWhatsAppNumber(s) != ""
  {
  }

  /** A labelled single line followed by the rest of the text splits uniquely. */
  lemma LineSplit(lead: string, v1: string, r1: string, v2: string, r2: string)
    requires '\n' !in v1 && '\n' !in v2
    requires Line(lead, v1, r1) == Line(lead, v2, r2)
    ensures v1 == v2 && r1 == r2
  {
    assert Line(lead, v1, r1) == lead + (v1 + ['\n'] + r1);
    assert Line(lead, v2, r2) == lead + (v2 + ['\n'] + r2);
    PrefixCancel(lead, v1 + ['\n'] + r1, v2 + ['\n'] + r2);
    SplitUnique(v1, r1, v2, r2, '\n');
  }

  /** The message text determines the fields it was built from, provided
      name, e-mail and organisation are single lines (the message may span
      several). */
  lemma MessageTextInjective(n1: string, e1: string, o1: string, m1: string,
                             n2: string, e2: string, o2: string, m2: string)
    requires '\n' !in n1 && '\n' !in e1 && '\n' !in o1
    requires '\n' !in n2 && '\n' !in e2 && '\n' !in o2
    requires MessageText(n1, e1, o1, m1) == MessageText(n2, e2, o2, m2)
    ensures n1 == n2 && e1 == e2 && o1 == o2 && m1 == m2
  {
    var u1 := Line("Organização: ", o1, "Mensagem: " + m1);
    var u2 := Line("Organização: ", o2, "Mensagem: " + m2);
    LineSplit("Nome: ", n1, Line("Email: ", e1, u1), n2, Line("Email: ", e2, u2));
    LineSplit("Email: ", e1, u1, e2, u2);
    LineSplit("Organização: ", o1, "Mensagem: " + m1, o2, "Mensagem: " + m2);
    PrefixCancel("Mensagem: ", m1, m2);
  }

  /** The link determines the number and the encoded text, for numbers
      without a `?`. */
  lemma WhatsAppUrlInjective(n1: string, n2: string, t1: string, t2: string, encode: string -> string)
    requires '?' !in n1 && '?' !in n2
    requires WhatsAppUrl(n1, t1, encode) == WhatsAppUrl(n2, t2, encode)
    ensures n1 == n2 && encode(t1) == encode(t2)
  {
    var base := "https://wa.me/";
    var r1 := "text=" + encode(t1);
    var r2 := "text=" + encode(t2);
    assert WhatsAppUrl(n1, t1, encode) == base + (n1 + ['?'] + r1);
    assert WhatsAppUrl(n2, t2, encode) == base + (n2 + ['?'] + r2);
    PrefixCancel(base, n1 + ['?'] + r1, n2 + ['?'] + r2);
    SplitUnique(n1, r1, n2, r2, '?');
    PrefixCancel("text=", encode(t1), encode(t2));
  }

  /** With a one-to-one encoder and a number without `?`, the link the
      button opens determines the four texts it was built from, provided
      name, e-mail and organisation are single lines. */
  lemma SendMessageInjective(f1: ContactForm, f2: ContactForm, s: Store, encode: string -> string)
    requires '\n' !in InputText(f1.name) && '\n' !in InputText(f1.email) && '\n' !in InputText(f1.organization)
    requires '\n' !in InputText(f2.name) && '\n' !in InputText(f2.email) && '\n' !in InputText(f2.organization)
    requires '?' !in ContactNumber(s)
    requires forall a, b :: encode(a) == encode(b) ==> a == b
    requires SendMessage(f1, s, encode) == SendMessage(f2, s, encode)
    ensures InputText(f1.name) == InputText(f2.name) && InputText(f1.email) == InputText(f2.email)
    ensures InputText(f1.organization) == InputText(f2.organization) && InputText(f1.message) == InputText(f2.message)
  {
    var t1 := MessageText(InputText(f1.name), InputText(f1.email), InputText(f1.organization), InputText(f1.message));
    var t2 := MessageText(InputText(f2.name), InputText(f2.email), InputText(f2.organization), InputText(f2.message));
    WhatsAppUrlInjective(ContactNumber(s), ContactNumber(s), t1, t2, encode);
    MessageTextInjective(InputText(f1.name), InputText(f1.email), InputText(f1.organization), InputText(f1.message),
                         InputText(f2.name), InputText(f2.email), InputText(f2.organization), InputText(f2.message));
  }
}
