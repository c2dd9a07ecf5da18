/** The `/send` route of HTML_Mail-JS/app.js: the recipient field is
    normalised into a comma-separated list of addresses and the mail options
    put the message under `html` or `text`. Sending the mail itself is the
    parameter `deliver`, and `encodeURIComponent` the parameter `encode`. */
module MailSend {
  import opened Common
  import opened Strings

  /** `recipient.split(',').map(email => email.trim()).filter(email => email)`. */
  function Recipients(recipient: string): (r: seq<string>)
    ensures forall k :: 0 <= k < |r| ==> IsEntry(r[k])
    ensures forall x :: x in r <==> x != "" && exists p :: p in Split(recipient, ',') && Trim(p) == x
  {
    CommaListEntries(recipient);
    forall x ensures x in CommaList(recipient) <==> x != "" && exists p :: p in Split(recipient, ',') && Trim(p) == x {
      CommaListMembership(recipient, x);
    }
    CommaList(recipient)
  }

  /** The `to` field: the addresses joined by `", "`, which lists the same
      addresses again. */
  function To(recipient: string): (r: string)
    ensures Recipients(r) == Recipients(recipient)
  {
    CommaListJoin(Recipients(recipient));
    Join(Recipients(recipient), ", ")
  }

  /** The addresses keep the order of the field: the list of two fields
      joined by a comma is the list of the first followed by that of the
      second. */
  lemma RecipientsInOrder(a: string, b: string)
    ensures Recipients(a + "," + b) == Recipients(a) + Recipients(b)
  {
    CommaListAppend(a, b);
  }

  /** Normalising the `to` field again gives back the same addresses, so
      normalising is idempotent. */
  lemma ToIdempotent(recipient: string)
    ensures Recipients(To(recipient)) == Recipients(recipient)
    ensures To(To(recipient)) == To(recipient)
  {
    CommaListJoin(Recipients(recipient));
  }

  /** The mail the route hands to the transporter; `bodyKey` is the
      computed property name under which `body` is stored. */
  datatype MailOptions = MailOptions(from: string, to: string, subject: string, bodyKey: string, body: string)

  /** `mailOptions`: the message goes under `html` exactly when the content
      type is `'html'`, under `text` otherwise (also when it is missing). */
  function OptionsFor(from: string, recipient: string, subject: string, message: string,
                      contentType: Option<string>): (r: MailOptions)
    ensures r.bodyKey == "html" <==> contentType == Some("html")
    ensures r.bodyKey == "text" <==> contentType != Some("html")
    ensures r.body == message && r.from == from && r.subject == subject
    ensures r.to == Join(Recipients(recipient), ", ")
    ensures Recipients(r.to) == Recipients(recipient)
  {
    MailOptions(from, To(recipient), subject, if contentType == Some("html") then "html" else "text", message)
  }

  /** The redirect the route answers with. */
  datatype Answer = Redirect(location: string)

  /** `POST /send`. A missing recipient field makes `split` throw, whose
      `typeError` message ends up in the error redirect, as does the error
      message of a failed delivery; otherwise the answer reports success. */
  function Send(from: string, recipient: Option<string>, subject: string, message: string,
                contentType: Option<string>, deliver: MailOptions -> Option<string>,
                typeError: string, encode: string -> string): (r: Answer)
    ensures recipient.None? ==> r == Redirect("/?error=" + encode(typeError))
    ensures recipient.Some? ==>
      var opts := OptionsFor(from, recipient.value, subject, message, contentType);
      r == (if deliver(opts).None? then Redirect("/?success=true") else Redirect("/?error=" + encode(deliver(opts).value)))
  {
    if recipient.None? then Redirect("/?error=" + encode(typeError))
    else
      var opts := OptionsFor(from, recipient.value, subject, message, contentType);
      match deliver(opts)
      case None => Redirect("/?success=true")
      case Some(error) => Redirect("/?error=" + encode(error))
  }

  /** Two forms that differ only in the spacing, blank entries or the
      trailing commas of the recipient field send the same mail. */
  lemma SameRecipientsSameMail(from: string, r1: string, r2: string, subject: string, message: string,
                               contentType: Option<string>)
    requires Recipients(r1) == Recipients(r2)
    ensures OptionsFor(from, r1, subject, message, contentType) == OptionsFor(from, r2, subject, message, contentType)
  {
  }
}
