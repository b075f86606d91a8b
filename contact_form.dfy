/** The contact form controller: the state of the `Contact` component in
    src/components/sections/Contact.tsx and the handlers that change it. The
    three pieces of React state become the fields of class `Contact`; each
    handler becomes a method. The form does not talk to the endpoint: its
    submit handler only waits and then shows the confirmation. */
module ContactForm {

  datatype InputType = Text | EmailInput | Textarea

  /** One entry of `FORM_FIELDS`; an absent `required` is false. */
  datatype FormField = FormField(
    id: string,
    labelText: string,
    kind: InputType,
    placeholder: string,
    required: bool)

  /** The inputs rendered in a loop. The message textarea is not among them. */
  const FormFields: seq<FormField> := [
    FormField("name", "Name", Text, "Your name", true),
    FormField("email", "Email", EmailInput, "your@email.com", true),
    FormField("subject", "What's this about?", Text, "Animation project, branding, website\U{2026}", false)
  ]

  /** The message textarea, rendered on its own and always required. */
  const MessageId := "message"
  const MessageRequired := true

  /** The keys of `INITIAL_VALUES`. */
  const FieldIds: set<string> := {"name", "email", "subject", "message"}

  /** `INITIAL_VALUES`: every field known, every value empty. */
  function InitialValues(): (m: map<string, string>)
    ensures m.Keys == FieldIds
    ensures forall k :: k in m ==> m[k] == ""
  {
    map["name" := "", "email" := "", "subject" := "", "message" := ""]
  }

  /** The ids `FORM_FIELDS` renders inputs for. Together with the message
      textarea they are exactly the keys of the initial values, so every
      rendered input reads a value that exists. */
  function FormFieldIds(): (ids: set<string>)
    ensures ids + {MessageId} == FieldIds
    ensures MessageId !in ids
  {
    var ids := set i | 0 <= i < |FormFields| :: FormFields[i].id;
    assert FormFields[0].id in ids && FormFields[1].id in ids && FormFields[2].id in ids;
    ids
  }

  /** The fields `FORM_FIELDS` marks required: name and email, not subject. */
  function RequiredFormFieldIds(): (ids: set<string>)
    ensures ids == {"name", "email"}
    ensures "subject" in FormFieldIds() - ids
  {
    var ids := set i | 0 <= i < |FormFields| && FormFields[i].required :: FormFields[i].id;
    assert FormFields[0].id in ids && FormFields[1].id in ids;
    ids
  }

  /** The fields the browser insists on before it lets the form submit: the
      required `FORM_FIELDS` entries and the message textarea. */
  function RequiredIds(): (ids: set<string>)
    ensures ids == {"name", "email", "message"}
    ensures ids <= FieldIds && "subject" !in ids
  {
    RequiredFormFieldIds() + (if MessageRequired then {MessageId} else {})
  }

  class Contact {
    var values: map<string, string>
    var submitted: bool
    var loading: bool

    /** The key set stays that of the initial values, and a sent form is never
        still loading. */
    ghost predicate Valid()
      reads this
    {
      values.Keys == FieldIds && !(submitted && loading)
    }

    /** The form (and its submit button) is rendered only before submission. */
    predicate FormShown()
      reads this
    {
      !submitted
    }

    /** The submit button is disabled while a submission is in flight. */
    predicate SubmitDisabled()
      reads this
    {
      loading
    }

    /** A submit can be triggered only from a rendered form whose button is
        enabled. */
    predicate CanSubmit()
      reads this
    {
      FormShown() && !SubmitDisabled()
    }

    /** Every required field holds non-empty text. The form has no
        `noValidate`, so the browser fires `onSubmit` only when this holds. */
    predicate RequiredFilled()
      reads this
    {
      forall k :: k in RequiredIds() ==> k in values && values[k] != ""
    }

    /** The component's first render: initial values, not submitted, not loading. */
    constructor ()
      ensures Valid()
      ensures values == InitialValues() && !submitted && !loading
    {
      values := InitialValues();
      submitted := false;
      loading := false;
    }

    /** `handleChange(id)(value)`, fired by an input of the rendered form:
        replaces the value of `id` and no other. The key set stays fixed
        exactly when `id` is one of the known fields, as every `FORM_FIELDS`
        id is. */
    method HandleChange(id: string, value: string)
      requires Valid() && FormShown()
      modifies this
      ensures values == old(values)[id := value]
      ensures forall k :: k in old(values) && k != id ==> k in values && values[k] == old(values)[k]
      ensures submitted == old(submitted) && loading == old(loading)
      ensures Valid() <==> id in FieldIds
    {
      values := values[id := value];
    }

    /** The message textarea's `onChange`, also inside the rendered form: the
        same replacement, for `message`. */
    method ChangeMessage(value: string)
      requires Valid() && FormShown()
      modifies this
      ensures Valid()
      ensures values == old(values)[MessageId := value]
      ensures forall k :: k in old(values) && k != MessageId ==> values[k] == old(values)[k]
      ensures submitted == old(submitted) && loading == old(loading)
    {
      values := values[MessageId := value];
    }

    /** `handleSubmit` up to its `await`: loading starts, nothing else changes,
        and no second submit can be triggered. The browser calls it only from
        an enabled form whose required fields are filled. */
    method BeginSubmit()
      requires Valid() && CanSubmit() && RequiredFilled()
      modifies this
      ensures Valid()
      ensures loading && !submitted
      ensures values == old(values)
      ensures !CanSubmit()
    {
      loading := true;
    }

    /** `handleSubmit` after its `await`: loading ends and the confirmation is
        shown. There is no failure path, and the values are kept. */
    method CompleteSubmit()
      requires Valid() && loading && !submitted
      modifies this
      ensures Valid()
      ensures !loading && submitted
      ensures values == old(values)
      ensures !FormShown()
    {
      loading := false;
      submitted := true;
    }

    /** The whole `handleSubmit`: loading first, then submitted with loading
        cleared; the delay between the two is not modelled. */
    method HandleSubmit()
      requires Valid() && CanSubmit() && RequiredFilled()
      modifies this
      ensures Valid()
      ensures !loading && submitted
      ensures values == old(values)
    {
      BeginSubmit();
      CompleteSubmit();
    }

    /** "Send another", a button shown only after submission: back to the
        editable form, with the values as they were. */
    method SendAnother()
      requires Valid() && submitted
      modifies this
      ensures Valid()
      ensures !submitted && !loading && CanSubmit()
      ensures values == old(values)
    {
      submitted := false;
    }
  }

  /** A visitor fills in name, email and message, sends the form, and asks to
      send another: the form is enabled again and the text typed before the
      first submission is still there. */
  method VisitAndResend(name: string, email: string, message: string)
    returns (enabled: bool, kept: map<string, string>)
    requires name != "" && email != "" && message != ""
    ensures enabled
    ensures kept == InitialValues()["name" := name]["email" := email][MessageId := message]
  {
    var c := new Contact();
    c.HandleChange("name", name);
    c.HandleChange("email", email);
    c.ChangeMessage(message);
    c.HandleSubmit();
    c.SendAnother();
    enabled := c.CanSubmit();
    kept := c.values;
  }
}
