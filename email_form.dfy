/**
 * What the two contact forms share: the four-field form data and its
 * field-by-field update, the template parameters handed to the e-mail
 * service, the credential guard in front of the service, the toasts, and
 * the form component's submit cycle (start: mark as submitting and hand
 * over the parameters; finish: reset on success, keep on failure, and
 * always leave the submitting state).
 */
module EmailForm {
  import opened Wrappers

  datatype FormData = FormData(name: string, email: string, subject: string, message: string)

  /** The `name` attributes of the four inputs. */
  datatype Field = Name | Email | Subject | Message

  const EmptyForm: FormData := FormData("", "", "", "")

  function Get(fd: FormData, f: Field): string
  {
    match f
    case Name => fd.name
    case Email => fd.email
    case Subject => fd.subject
    case Message => fd.message
  }

  /** `{ ...prev, [name]: value }`: one field replaced, the other three kept. */
  function Update(fd: FormData, f: Field, value: string): (r: FormData)
    ensures Get(r, f) == value
    ensures forall g :: g != f ==> Get(r, g) == Get(fd, g)
  {
    match f
    case Name => fd.(name := value)
    case Email => fd.(email := value)
    case Subject => fd.(subject := value)
    case Message => fd.(message := value)
  }

  /** Two forms with the same four field values are the same form. */
  lemma FormDataByFields(a: FormData, b: FormData)
    requires forall f :: Get(a, f) == Get(b, f)
    ensures a == b
  {
    assert Get(a, Name) == Get(b, Name);
    assert Get(a, Email) == Get(b, Email);
    assert Get(a, Subject) == Get(b, Subject);
    assert Get(a, Message) == Get(b, Message);
  }

  /** The last update of a field wins; updates of different fields commute. */
  lemma UpdateLaws(fd: FormData, f: Field, g: Field, v: string, w: string)
    ensures Update(Update(fd, f, v), f, w) == Update(fd, f, w)
    ensures f != g ==> Update(Update(fd, f, v), g, w) == Update(Update(fd, g, w), f, v)
    ensures Update(fd, f, Get(fd, f)) == fd
  {
    FormDataByFields(Update(Update(fd, f, v), f, w), Update(fd, f, w));
    if f != g {
      FormDataByFields(Update(Update(fd, f, v), g, w), Update(Update(fd, g, w), f, v));
    }
    FormDataByFields(Update(fd, f, Get(fd, f)), fd);
  }

  /**
   * Every input carries `required`, so the browser only lets the form submit
   * once all four fields are non-empty.
   */
  predicate Filled(fd: FormData)
  {
    forall f :: Get(fd, f) != ""
  }

  /** The template parameters passed to `sendEmail`. */
  datatype EmailParams = EmailParams(toName: string, fromName: string, fromEmail: string, subject: string, message: string)

  const Recipient: string := "Swetank"

  function Params(fd: FormData): (p: EmailParams)
    ensures p.toName == Recipient
    ensures p.fromName == fd.name && p.fromEmail == fd.email && p.subject == fd.subject && p.message == fd.message
  {
    EmailParams(Recipient, fd.name, fd.email, fd.subject, fd.message)
  }

  /** The template parameters determine the form they were built from. */
  lemma ParamsInjective(a: FormData, b: FormData)
    requires Params(a) == Params(b)
    ensures a == b
  {
  }

  datatype Config = Config(serviceId: string, templateId: string, publicKey: string)

  /** The credentials shipped with the site. */
  const ShippedConfig: Config := Config("service_pdhyi1i", "template_z2n2i69", "yD2FaBQNw9hgalWNP")

  /** Any one placeholder value left in the configuration makes `sendEmail` throw. */
  predicate HasPlaceholder(c: Config)
  {
    c.serviceId == "YOUR_SERVICE_ID" || c.templateId == "YOUR_TEMPLATE_ID" || c.publicKey == "YOUR_PUBLIC_KEY"
  }

  /** What the e-mail service reports for a request that reached it. */
  datatype Delivery = Delivered | Rejected

  datatype SendResult = Sent | NotConfigured | ServiceError

  /**
   * `sendEmail`: the credential guard, then the service call, whose answer
   * is a parameter here. Only `Sent` resolves the promise; the other two reject it.
   */
  function SendEmail(c: Config, delivery: Delivery): (r: SendResult)
    ensures r == NotConfigured <==> HasPlaceholder(c)
    ensures r == Sent <==> !HasPlaceholder(c) && delivery == Delivered
  {
    if HasPlaceholder(c) then NotConfigured
    else if delivery == Delivered then Sent
    else ServiceError
  }

  /** The shipped credentials pass the guard, so every outcome comes from the service. */
  lemma ShippedConfigReachesService(delivery: Delivery)
    ensures !HasPlaceholder(ShippedConfig)
    ensures SendEmail(ShippedConfig, delivery) == (if delivery == Delivered then Sent else ServiceError)
  {
    assert ShippedConfig.serviceId[0] == 's';
    assert ShippedConfig.templateId[0] == 't';
    assert ShippedConfig.publicKey[0] == 'y';
  }

  datatype Toast = Toast(title: string, description: string, destructive: bool)

  /** The toast both forms show when `sendEmail` rejects. */
  const ErrorToast: Toast := Toast("Error sending message", "Please check your EmailJS configuration in src/lib/email.ts", true)

  /**
   * A contact form component: `formData`, `isSubmitting`, the toast it
   * raised last, and the success toast its page shows.
   */
  class ContactForm {
    var formData: FormData
    var isSubmitting: bool
    var lastToast: Option<Toast>
    const successToast: Toast

    constructor (successToast: Toast)
      ensures formData == EmptyForm && !isSubmitting && lastToast == None
      ensures this.successToast == successToast
    {
      formData := EmptyForm;
      isSubmitting := false;
      lastToast := None;
      this.successToast := successToast;
    }

    /** An input's `onChange`. The inputs stay editable while a message is being sent. */
    method Change(f: Field, value: string)
      modifies this
      ensures formData == Update(old(formData), f, value)
      ensures isSubmitting == old(isSubmitting) && lastToast == old(lastToast)
    {
      formData := Update(formData, f, value);
    }

    /**
     * A submit event up to the `await`: refused while the submit button is
     * disabled or a required field is empty; otherwise the form enters the
     * submitting state and the parameters built from its current data are
     * handed to `sendEmail`.
     */
    method StartSubmit() returns (request: Option<EmailParams>)
      modifies this
      ensures formData == old(formData) && lastToast == old(lastToast)
      ensures old(isSubmitting) || !Filled(old(formData)) ==> request == None && isSubmitting == old(isSubmitting)
      ensures !old(isSubmitting) && Filled(old(formData)) ==> request == Some(Params(formData)) && isSubmitting
      ensures old(SubmitDisabled()) ==> request == None
      ensures request.Some? ==> SubmitDisabled()
    {
      if isSubmitting || !Filled(formData) {
        request := None;
      } else {
        isSubmitting := true;
        request := Some(Params(formData));
      }
    }

    /**
     * The rest of `handleSubmit` once `sendEmail` settles: on success the
     * success toast and a cleared form (edits made while sending are cleared
     * too); on failure the error toast and the form as it is; in both cases
     * the submitting state ends.
     */
    method FinishSubmit(result: SendResult)
      modifies this
      ensures !isSubmitting
      ensures result == Sent ==> formData == EmptyForm && lastToast == Some(successToast)
      ensures result != Sent ==> formData == old(formData) && lastToast == Some(ErrorToast)
    {
      if result == Sent {
        lastToast := Some(successToast);
        formData := EmptyForm;
      } else {
        lastToast := Some(ErrorToast);
      }
      isSubmitting := false;
    }

    /**
     * `handleSubmit` when nothing is typed while the message is in flight:
     * the start, the service's answer for `config`, and the finish.
     */
    method HandleSubmit(config: Config, delivery: Delivery) returns (request: Option<EmailParams>)
      modifies this
      ensures old(isSubmitting) || !Filled(old(formData)) ==>
                request == None && formData == old(formData) && isSubmitting == old(isSubmitting) && lastToast == old(lastToast)
      ensures !old(isSubmitting) && Filled(old(formData)) ==>
                && request == Some(Params(old(formData)))
                && !isSubmitting
                && (SendEmail(config, delivery) == Sent ==> formData == EmptyForm && lastToast == Some(successToast))
                && (SendEmail(config, delivery) != Sent ==> formData == old(formData) && lastToast == Some(ErrorToast))
    {
      request := StartSubmit();
      if request.Some? {
        var result := SendEmail(config, delivery);
        FinishSubmit(result);
      }
    }

    /** The submit button's `disabled`: on exactly while a message is in flight. */
    function SubmitDisabled(): (disabled: bool)
      reads this
      ensures disabled <==> isSubmitting
    {
      isSubmitting
    }
  }
}
