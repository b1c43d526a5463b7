/** The tax-refund consultation page: its form, and the chat link a valid request opens. */
module TaxRefund {
  import opened Wrappers
  import opened Text
  import PercentCoding

  const WhatsAppNumber: string := "+1234567890"
  const Greeting: string := "Hi! I'm interested in a tax refund consultation.\n\n"

  /** The chat link without a message, as the "Chat on WhatsApp" button opens it. */
  const ContactLink: string := "https://wa.me/" + WhatsAppNumber

  /** Everything in a chat link before the encoded message. */
  const ChatPrefix: string := ContactLink + "?text="

  const InitialForm: map<string, string> := map[
    "fullName" := "", "email" := "", "phone" := "", "taxYear" := "2025",
    "estimatedIncome" := "", "filingStatus" := "", "message" := ""]

  /** A field interpolated into the message; a key the form lacks prints as "undefined". */
  function Field(data: map<string, string>, key: string): string {
    if key in data then data[key] else "undefined"
  }

  /** `!formData[key]` is false: the field is present and not empty. */
  predicate Filled(data: map<string, string>, key: string) {
    key in data && data[key] != ""
  }

  /** The message's opening: the greeting and the name line. */
  function MessageHead(fullName: string): string {
    Greeting + "Name: " + fullName + "\n"
  }

  /** The contact lines between the name and the free-text message. */
  function MessageMiddle(email: string, phone: string, taxYear: string, filingStatus: string): string {
    "Email: " + email + "\n" +
    "Phone: " + phone + "\n" +
    "Tax Year: " + taxYear + "\n" +
    "Filing Status: " + filingStatus + "\n"
  }

  /** The message's last line: the user's own text. */
  function MessageTail(message: string): string {
    "Message: " + message
  }

  /** The request's text: the greeting, then one line per field, ending with the free-text message. */
  function Message(data: map<string, string>): (m: string)
    ensures IsPrefix(MessageHead(Field(data, "fullName")), m)
    ensures |m| >= |MessageTail(Field(data, "message"))|
    ensures m[|m| - |MessageTail(Field(data, "message"))|..] == MessageTail(Field(data, "message"))
  {
    var head := MessageHead(Field(data, "fullName"));
    var middle := MessageMiddle(Field(data, "email"), Field(data, "phone"),
                                Field(data, "taxYear"), Field(data, "filingStatus"));
    var tail := MessageTail(Field(data, "message"));
    assert (head + middle + tail)[..|head|] == head;
    assert (head + middle + tail)[|head + middle|..] == tail;
    head + middle + tail
  }

  /** The estimated income typed into the form never reaches the message. */
  lemma MessageIgnoresEstimatedIncome(data: map<string, string>, income: string)
    ensures Message(data["estimatedIncome" := income]) == Message(data)
  {
    var d := data["estimatedIncome" := income];
    assert Field(d, "fullName") == Field(data, "fullName");
    assert Field(d, "email") == Field(data, "email");
    assert Field(d, "phone") == Field(data, "phone");
    assert Field(d, "taxYear") == Field(data, "taxYear");
    assert Field(d, "filingStatus") == Field(data, "filingStatus");
    assert Field(d, "message") == Field(data, "message");
  }

  /** `https://wa.me/${WHATSAPP_NUMBER}?text=${encodeURIComponent(message)}`. */
  function ChatLink(message: string): (r: string)
    ensures IsPrefix(ChatPrefix, r) && r[|ChatPrefix|..] == PercentCoding.Encode(message)
  {
    var encoded := PercentCoding.Encode(message);
    assert (ChatPrefix + encoded)[|ChatPrefix|..] == encoded;
    ChatPrefix + encoded
  }

  /** After the prefix a chat link holds only unreserved characters and percent escapes. */
  lemma ChatLinkIsUrlSafe(message: string)
    ensures forall i :: |ChatPrefix| <= i < |ChatLink(message)| ==> PercentCoding.IsEncodedChar(ChatLink(message)[i])
  {
    var r := ChatLink(message);
    PercentCoding.EncodeIsUrlSafe(message);
    forall i | |ChatPrefix| <= i < |r| ensures PercentCoding.IsEncodedChar(r[i]) {
      assert r[i] == r[|ChatPrefix|..][i - |ChatPrefix|];
    }
  }

  /** The chat application recovers the message from the link's `text` parameter (for ASCII text). */
  lemma ChatLinkCarriesMessage(message: string)
    requires forall i :: 0 <= i < |message| ==> message[i] as int < 0x80
    ensures PercentCoding.Decode(ChatLink(message)[|ChatPrefix|..]) == Some(message)
  {
    PercentCoding.DecodeEncode(message);
  }

  /** The contact button's link is every chat link with its query cut off. */
  lemma ContactLinkIsChatLinkWithoutText(message: string)
    ensures IsPrefix(ContactLink, ChatLink(message))
  {
    var r := ChatLink(message);
    assert r[..|ChatPrefix|] == ChatPrefix;
    assert r[..|ContactLink|] == ChatPrefix[..|ContactLink|];
  }

  class RefundForm {
    var data: map<string, string>
    var submitted: bool

    constructor ()
      ensures data == InitialForm && !submitted
    {
      data, submitted := InitialForm, false;
    }

    /** `updateField`: the named key gets the text, every other key keeps its own. */
    method UpdateField(field: string, text: string)
      modifies this`data
      ensures data == old(data)[field := text]
    {
      data := data[field := text];
    }

    /**
     * `handleSubmit`: with name, e-mail and phone filled in, the page switches
     * to its confirmation view and opens the chat link; otherwise nothing
     * changes. Once shown, the confirmation view stays.
     */
    method HandleSubmit() returns (link: Option<string>)
      modifies this`submitted
      ensures link.Some? <==> Filled(data, "fullName") && Filled(data, "email") && Filled(data, "phone")
      ensures link.Some? ==> link.value == ChatLink(Message(data))
      ensures submitted == (old(submitted) || link.Some?)
    {
      if !Filled(data, "fullName") || !Filled(data, "email") || !Filled(data, "phone") {
        return None;
      }
      var message := Message(data);
      submitted := true;
      link := Some(ChatLink(message));
    }
  }
}
