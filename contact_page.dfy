/**
 * The form of the contact page: one change handler for all inputs, keyed by
 * the input's `name`, a character counter under the message, and the
 * page's own success toast.
 */
module ContactPage {
  import opened Wrappers
  import opened EmailForm

  const SuccessToast: Toast := Toast("Message sent successfully!", "I'll get back to you as soon as possible.", false)

  /** The figure the counter under the message names as its limit. */
  const CounterLimit: nat := 1000

  /** The `name` attribute of an input, read back as the field it edits. */
  function FieldNamed(name: string): (f: Option<Field>)
    ensures name == "name" <==> f == Some(Name)
    ensures name == "email" <==> f == Some(Email)
    ensures name == "subject" <==> f == Some(Subject)
    ensures name == "message" <==> f == Some(Message)
  {
    if name == "name" then Some(Name)
    else if name == "email" then Some(Email)
    else if name == "subject" then Some(Subject)
    else if name == "message" then Some(Message)
    else None
  }

  /** `handleInputChange` for an event from one of the four inputs. */
  function HandleInputChange(fd: FormData, name: string, value: string): (r: FormData)
    requires FieldNamed(name).Some?
    ensures Get(r, FieldNamed(name).value) == value
    ensures forall g :: g != FieldNamed(name).value ==> Get(r, g) == Get(fd, g)
  {
    Update(fd, FieldNamed(name).value, value)
  }

  datatype Counter = Counter(used: nat, limit: nat)

  /** `{formData.message.length}/1000 characters`. */
  function MessageCounter(fd: FormData): (c: Counter)
    ensures c.used == |fd.message| && c.limit == CounterLimit
  {
    Counter(|fd.message|, CounterLimit)
  }

  /**
   * The limit is only displayed: the textarea has no `maxLength` and the
   * submit handler does not look at the length, so a longer message is
   * accepted and submitted as it is.
   */
  lemma CounterLimitNotEnforced(fd: FormData, message: string)
    requires fd.name != "" && fd.email != "" && fd.subject != ""
    requires |message| > CounterLimit
    ensures HandleInputChange(fd, "message", message).message == message
    ensures MessageCounter(HandleInputChange(fd, "message", message)).used > CounterLimit
    ensures Filled(HandleInputChange(fd, "message", message))
    ensures Params(HandleInputChange(fd, "message", message)).message == message
  {
    var r := HandleInputChange(fd, "message", message);
    assert Get(r, Name) == fd.name && Get(r, Email) == fd.email && Get(r, Subject) == fd.subject;
    assert Get(r, Message) == message;
  }

  /** The page's form as it is mounted. */
  method NewForm() returns (form: ContactForm)
    ensures fresh(form)
    ensures form.formData == EmptyForm && !form.isSubmitting && form.lastToast == None
    ensures form.successToast == SuccessToast
  {
    form := new ContactForm(SuccessToast);
  }
}
