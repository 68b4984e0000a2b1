/** The mail sender of lib/email.js: recipient parsing and the guarded
    hand-over of one message to the SMTP transport. The transport is a
    collaborator whose answer for the n-th message it receives is given by
    `transport`; the mailer keeps the list of messages handed over, so that
    "no message was sent" can be stated. */
module Email {
  import opened Wrappers
  import opened Lists
  import opened Strings
  import opened EmailTemplate

  predicate IsComma(c: char) { c == ',' }

  /** `parseRecipients(raw)`: the comma-separated addresses, trimmed, empty
      ones dropped. */
  function ParseRecipients(raw: string): (r: seq<string>)
    ensures forall t :: t in r ==> IsToken(t, IsComma)
  {
    TokensShape(raw, IsComma);
    Tokens(raw, IsComma)
  }

  /** Every parsed address is non-empty, trimmed and free of commas, and
      the addresses come in the order of their segments. */
  lemma ParseRecipientsShape(raw: string)
    ensures forall t :: t in ParseRecipients(raw) ==> IsToken(t, IsComma)
    ensures IsSubsequence(ParseRecipients(raw), Map(Split(raw, IsComma), Trim))
  {
    TokensShape(raw, IsComma);
    TokensInOrder(raw, IsComma);
  }

  /** A list of clean addresses written comma-separated parses back to
      itself. */
  lemma ParseRecipientsOfJoin(addresses: seq<string>)
    requires addresses != []
    requires forall k :: 0 <= k < |addresses| ==> IsToken(addresses[k], IsComma)
    ensures ParseRecipients(Join(addresses, ",")) == addresses
  {
    TokensOfJoin(addresses, IsComma, ',');
  }

  /** What `sendAlertEmail` accepts besides the ignored `recipients`; the
      html part is kept as the document `BuildEmailHtml` renders. */
  datatype Content = Content(subject: string, text: string, html: EmailDocument)

  /** What is handed to the transport. */
  datatype Message = Message(from: string, to: seq<string>, subject: string, text: string, html: EmailDocument)

  const NoRecipientError: string := "ALERT_EMAIL_TO must include at least one recipient."

  /** The `sendMail` argument for `content`. */
  function MessageFor(from: string, to: seq<string>, content: Content): (m: Message)
    ensures m.from == from && m.to == to
    ensures m.subject == content.subject && m.text == content.text && m.html == content.html
  {
    Message(from, to, content.subject, content.text, content.html)
  }

  class Mailer {
    /** GMAIL_USER and ALERT_EMAIL_TO, read from the environment when the
        mailer is set up, and the addressees parsed from ALERT_EMAIL_TO. */
    const gmailUser: string
    const alertEmailTo: string
    const addressees: seq<string>
    /** The transport's answer to the n-th message it is given: the message
        id, or the error it throws. */
    const transport: (nat, Message) -> Result<string, string>
    /** Every message handed to the transport so far. */
    var handedOver: seq<Message>

    constructor (gmailUser: string, alertEmailTo: string, transport: (nat, Message) -> Result<string, string>)
      ensures this.gmailUser == gmailUser && this.alertEmailTo == alertEmailTo
      ensures addressees == ParseRecipients(alertEmailTo)
      ensures this.transport == transport && handedOver == []
    {
      this.gmailUser := gmailUser;
      this.alertEmailTo := alertEmailTo;
      addressees := ParseRecipients(alertEmailTo);
      this.transport := transport;
      handedOver := [];
    }

    /** `sendAlertEmail`: refuses before touching the transport when
        ALERT_EMAIL_TO names nobody; otherwise hands over one message whose
        addressees come from ALERT_EMAIL_TO whatever `recipients` says, and
        returns the transport's answer. */
    method SendAlertEmail(content: Content, recipients: seq<string>) returns (r: Result<string, string>)
      modifies this
      ensures addressees == [] ==> r == Err(NoRecipientError) && handedOver == old(handedOver)
      ensures addressees != [] ==>
        handedOver == old(handedOver) + [MessageFor(gmailUser, addressees, content)]
        && r == transport(|old(handedOver)|, MessageFor(gmailUser, addressees, content))
    {
      if |addressees| == 0 {
        return Err(NoRecipientError);
      }
      var message := MessageFor(gmailUser, addressees, content);
      r := transport(|handedOver|, message);
      handedOver := handedOver + [message];
    }
  }
}
