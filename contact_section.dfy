/**
 * The contact form of the home page's contact section: one change handler
 * per input, and its own success toast. Everything else is the shared form.
 */
module ContactSection {
  import opened Wrappers
  import opened EmailForm
  import ContactPage

  const SuccessToast: Toast := Toast("Message sent!", "Thanks for reaching out. I'll get back to you soon!", false)

  /** The section's `onChange` of the input for `f`: `{ ...formData, [f]: value }`. */
  function OnChange(fd: FormData, f: Field, value: string): (r: FormData)
    ensures Get(r, f) == value
    ensures forall g :: g != f ==> Get(r, g) == Get(fd, g)
  {
    Update(fd, f, value)
  }

  /**
   * The two forms differ only in their success toast: it is a different
   * message, neither success toast is destructive, and the shared error
   * toast is. That both forms edit alike holds by construction, since each
   * handler is the shared `Update`; the first clause records it for the
   * name-keyed handler of the contact page.
   */
  lemma FormsAgree(fd: FormData, name: string, value: string)
    requires ContactPage.FieldNamed(name).Some?
    ensures OnChange(fd, ContactPage.FieldNamed(name).value, value) == ContactPage.HandleInputChange(fd, name, value)
    ensures SuccessToast != ContactPage.SuccessToast
    ensures !SuccessToast.destructive && !ContactPage.SuccessToast.destructive && ErrorToast.destructive
  {
    assert SuccessToast.title[12] == '!';
    assert ContactPage.SuccessToast.title[12] == ' ';
  }

  /** The section's form as it is mounted. */
  method NewForm() returns (form: ContactForm)
    ensures fresh(form)
    ensures form.formData == EmptyForm && !form.isSubmitting && form.lastToast == None
    ensures form.successToast == SuccessToast
  {
    form := new ContactForm(SuccessToast);
  }
}
