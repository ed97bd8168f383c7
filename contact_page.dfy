/** The contact form: required fields, the inquiry message and the reset after
    sending. The two timers of `handleSubmit` are separate steps here; the
    form values the first timer's callback sees are the ones captured when
    the form was submitted. */
module ContactPage {
  import opened Common
  import opened WhatsApp

  datatype ContactFields = ContactFields(name: string, email: string, whatsapp: string, message: string)

  datatype ContactField = NameField | EmailField | WhatsAppField | MessageField

  const EmptyFields: ContactFields := ContactFields("", "", "", "")
  const FillRequiredMessage: string := "Please fill in all required fields"
  const InquiryHeader: string := "New inquiry from website:"
  const NotProvided: string := "Not provided"
  const NameTag: string := "Name: "
  const EmailTag: string := "Email: "
  const MessageTag: string := "Message: "

  /** Name, WhatsApp number and message are required; the email is not. */
  predicate RequiredFieldsFilled(fields: ContactFields) {
    fields.name != "" && fields.whatsapp != "" && fields.message != ""
  }

  /** `formData.email || 'Not provided'`. */
  function ShownEmail(email: string): (shown: string)
    ensures shown != ""
    ensures email != "" ==> shown == email
  {
    if email == "" then NotProvided else email
  }

  /** The inquiry text, before encoding. */
  function ContactMessage(fields: ContactFields): string {
    InquiryHeader + "\n\n" + NameTag + fields.name + "\n" + EmailTag + ShownEmail(fields.email)
    + "\n" + MessageTag + fields.message
  }

  /** The link the first timer opens. */
  function ContactUrl(encode: string -> string, fields: ContactFields): string {
    LinkPrefix + ContactNumber + TextParam + encode(ContactMessage(fields))
  }

  /** The WhatsApp field is asked for but never sent. */
  lemma MessageIgnoresWhatsApp(fields: ContactFields, whatsapp: string)
    ensures ContactMessage(fields.(whatsapp := whatsapp)) == ContactMessage(fields)
  {
  }

  datatype Inquiry = Inquiry(name: string, shownEmail: string, message: string)

  /** Reads name, shown email and message back out of an inquiry text. */
  function ParseContactMessage(m: string): Option<Inquiry> {
    match SplitFiveLines(m)
    case None => None
    case Some(lines) =>
      if lines.0 == InquiryHeader && lines.1 == "" && StartsWith(lines.2, NameTag)
         && StartsWith(lines.3, EmailTag) && StartsWith(lines.4, MessageTag)
      then Some(Inquiry(lines.2[|NameTag|..], lines.3[|EmailTag|..], lines.4[|MessageTag|..]))
      else None
  }

  /** The inquiry text is its five lines joined by newlines. */
  lemma ContactMessageLines(fields: ContactFields)
    ensures ContactMessage(fields) == InquiryHeader + "\n" + ("" + "\n" + ((NameTag + fields.name) + "\n"
      + ((EmailTag + ShownEmail(fields.email)) + "\n" + (MessageTag + fields.message))))
  {
  }

  /** The message carries the name, the email or 'Not provided', and the
      message text, in that order and recoverably when name and email are
      single lines. */
  lemma ContactMessageRoundTrip(fields: ContactFields)
    requires '\n' !in fields.name && '\n' !in fields.email
    ensures ParseContactMessage(ContactMessage(fields))
      == Some(Inquiry(fields.name, ShownEmail(fields.email), fields.message))
  {
    var nameLine := NameTag + fields.name;
    var emailLine := EmailTag + ShownEmail(fields.email);
    var messageLine := MessageTag + fields.message;
    ContactMessageLines(fields);
    assert '\n' !in nameLine && '\n' !in emailLine;
    SplitFiveLinesAt(InquiryHeader, "", nameLine, emailLine, messageLine);
    assert nameLine[|NameTag|..] == fields.name;
    assert emailLine[|EmailTag|..] == ShownEmail(fields.email);
    assert messageLine[|MessageTag|..] == fields.message;
  }

  /** The contact link goes to the same number the checkout link does. */
  lemma ContactUrlRecipient(encode: string -> string, fields: ContactFields)
    ensures LinkParts(ContactUrl(encode, fields)) == Some((ContactNumber, encode(ContactMessage(fields))))
    ensures ContactNumber == FormatWhatsAppNumber(StoreNumber)
  {
    StoreNumberNormalised();
    LinkPartsOf(ContactNumber, encode(ContactMessage(fields)));
  }

  class ContactForm {
    var fields: ContactFields
    var isSubmitting: bool
    var isSuccess: bool

    constructor ()
      ensures fields == EmptyFields && !isSubmitting && !isSuccess
    {
      fields := EmptyFields;
      isSubmitting := false;
      isSuccess := false;
    }

    /** `handleInputChange`: one field takes the input's value. */
    method InputChanged(field: ContactField, value: string)
      modifies this
      ensures field == NameField ==> fields == old(fields).(name := value)
      ensures field == EmailField ==> fields == old(fields).(email := value)
      ensures field == WhatsAppField ==> fields == old(fields).(whatsapp := value)
      ensures field == MessageField ==> fields == old(fields).(message := value)
      ensures isSubmitting == old(isSubmitting) && isSuccess == old(isSuccess)
    {
      match field {
        case NameField => fields := fields.(name := value);
        case EmailField => fields := fields.(email := value);
        case WhatsAppField => fields := fields.(whatsapp := value);
        case MessageField => fields := fields.(message := value);
      }
    }

    /** `handleSubmit`: a missing required field raises the alert and changes
        nothing; otherwise the form turns busy and the send step is scheduled
        with the values as they are now. */
    method HandleSubmit() returns (alert: Option<string>, scheduled: Option<ContactFields>)
      modifies this
      ensures fields == old(fields) && isSuccess == old(isSuccess)
      ensures !RequiredFieldsFilled(fields) ==>
        alert == Some(FillRequiredMessage) && scheduled == None && isSubmitting == old(isSubmitting)
      ensures RequiredFieldsFilled(fields) ==> alert == None && scheduled == Some(fields) && isSubmitting
    {
      if fields.name == "" || fields.whatsapp == "" || fields.message == "" {
        return Some(FillRequiredMessage), None;
      }
      isSubmitting := true;
      return None, Some(fields);
    }

    /** The first timer: opens the link for the captured values, empties all
        four fields and shows the success message. */
    method SendTimerFired(captured: ContactFields, encode: string -> string) returns (url: string)
      modifies this
      ensures url == ContactUrl(encode, captured)
      ensures fields == EmptyFields && !isSubmitting && isSuccess
    {
      var message := encode(ContactMessage(captured));
      url := LinkPrefix + ContactNumber + TextParam + message;
      fields := EmptyFields;
      isSubmitting := false;
      isSuccess := true;
    }

    /** The second timer hides the success message. */
    method SuccessTimerFired()
      modifies this
      ensures !isSuccess && fields == old(fields) && isSubmitting == old(isSubmitting)
    {
      isSuccess := false;
    }
  }
}
