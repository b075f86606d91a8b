# Contact submission for a studio marketing site

Most of this site is presentation. It has two pieces with behaviour worth stating:

- **The contact endpoint**: `POST` in `src/app/api/contact/route.ts`. It decodes the JSON body and rejects it with 400 unless `name`, `email` and `message` are all truthy. Otherwise it builds one email and hands it to the email provider (Resend). The subject is the submitted one, or `"New contact from " + name` when none was given. The reply-to is the submitter's email. The plain-text body is a list of labelled lines with the falsy ones dropped, joined with newlines. The provider's error message is returned with 500. Any exception is answered with a fixed 500 message. Success is `{ success: true }` with the default status 200.
- **The contact form controller**: the `Contact` component in `src/components/sections/Contact.tsx`. It holds three pieces of state: `values`, a map from field id to text; `submitted`; and `loading`. Its handlers replace one field, submit (loading, then submitted), and "Send another".

`contact_route.dfy` (module `ContactRoute`) models the endpoint with functions and lemmas. The provider is a parameter `send: Email -> SendResult`. The handler's result `Outcome` holds the response and the list of emails handed to `send`. So "never sent when invalid" and "sent at most once" are statements about that list. `SendResult` has three cases: accepted, `{ error }` with a message, or a thrown exception. The send call sits inside the `try`, so a throw there lands in the same `catch` as a body that does not decode.

`contact_form.dfy` (module `ContactForm`) models the controller as class `Contact`. Its fields are `values`, `submitted` and `loading`, and each handler is a method. `Valid()` holds two facts: the key set of `values` stays `name`, `email`, `subject`, `message`, and the form is never both submitted and loading. The rendering conditions are predicates. `FormShown()` holds when `!submitted`, because the form and its button exist only then. `SubmitDisabled()` holds when `loading`. `CanSubmit()` holds when both allow a submit. `RequiredFilled()` holds when name, email and message are non-empty. Those inputs carry `required` and the form has no `noValidate`, so the browser fires `onSubmit` only then. `handleSubmit` contains an `await`, so it is split in two. `BeginSubmit` is the part before the `await` and `CompleteSubmit` the part after it. `HandleSubmit` runs both in order. Each handler requires the state in which the page can trigger it: the change handlers only while the form is shown; submit from an enabled, filled-in form; the continuation only while loading; "Send another" only after submission.

Submitting does not clear the values. The form's submit handler does not call the endpoint; it waits one second and then shows the confirmation.

## Model

| member | source | states |
|---|---|---|
| `ContactRoute.Validate` | src/app/api/contact/route.ts:8-15 | accepts exactly when name, email and message are each present and non-empty; the accepted submission carries those three values unchanged, and its subject is empty exactly when the submitted subject is falsy |
| `ContactRoute.EmailSubject` | src/app/api/contact/route.ts:20 | the subject is never empty; it is the submitted subject when there is one, otherwise `"New contact from "` followed by the name |
| `ContactRoute.FilterNonEmpty` | src/app/api/contact/route.ts:30 | `filter(Boolean)` never returns an empty line and never returns more lines than it was given |
| `ContactRoute.FilterKeepsNonEmpty` | src/app/api/contact/route.ts:30 | a string is kept iff it occurs in the input and is non-empty, and an input with no empty line comes back unchanged |
| `ContactRoute.FilterAppend` | src/app/api/contact/route.ts:30 | filtering a concatenation is the concatenation of the filtered parts, so the filter keeps the order of the lines |
| `ContactRoute.KeptLines` | src/app/api/contact/route.ts:22-30 | the lines that survive the filter are Name, Email, Subject (only when a subject was given), `Message:` and the message; the blank separator is always dropped |
| `ContactRoute.TextBodyWithSubject` | src/app/api/contact/route.ts:22-31 | with a subject the body is `Name: …\nEmail: …\nSubject: …\nMessage:\n…` |
| `ContactRoute.TextBodyWithoutSubject` | src/app/api/contact/route.ts:22-31 | without a subject the Subject line is omitted and no blank line takes its place: `Name: …\nEmail: …\nMessage:\n…` |
| `ContactRoute.Respond` | src/app/api/contact/route.ts:34-44 | the status is the default 200 and the body `{ success: true }` exactly when the provider accepted; a provider error gives 500 with its message; a throw gives 500 with the generic message |
| `ContactRoute.Post` | src/app/api/contact/route.ts:6-45 | every response is 200, 400 or 500; at most one email is sent, and one is sent exactly when the body decoded and validated; the status is 400 exactly when the body decoded but did not validate; 200 goes with `{ success: true }` and only after the provider accepted the one email sent |
| `ContactRoute.PostRejectsMissingFields` | src/app/api/contact/route.ts:10-15 | a falsy name, email or message gives 400 with `"Name, email, and message are required."` and nothing is sent |
| `ContactRoute.PostMalformedBody` | src/app/api/contact/route.ts:39-44 | a body that does not decode (or is `null`) gives 500 with `"Failed to send message. Please try again."` and nothing is sent |
| `ContactRoute.PostSendsOnce` | src/app/api/contact/route.ts:17-21 | a valid payload is sent exactly once, with reply-to equal to the submitted email, sender and recipient from the configuration, and the subject rule applied |
| `ContactRoute.PostSentTextWithSubject` | src/app/api/contact/route.ts:22-31 | with a subject, the text of the email actually sent is `Name: …\nEmail: …\nSubject: …\nMessage:\n…` |
| `ContactRoute.PostSentTextWithoutSubject` | src/app/api/contact/route.ts:22-31 | without a subject, the text of the email actually sent is `Name: …\nEmail: …\nMessage:\n…`, with no Subject line and no blank line |
| `ContactRoute.PostAddressesFromConfig` | src/app/api/contact/route.ts:18-19 | for every request, every email sent has the configured sender and recipient |
| `ContactRoute.PostMapsDeliveryResult` | src/app/api/contact/route.ts:34-44 | after validation, the one email sent is the one built from the submission; a provider error gives 500 with the provider's message, a throw gives 500 with the generic message, and acceptance gives `{ success: true }` with 200 |
| `ContactRoute.AdaWithoutSubject` | src/app/api/contact/route.ts:20 | Ada's message without a subject is sent once, with the subject `"New contact from "` followed by `"Ada"` |
| `ContactRoute.MissingEmail` | src/app/api/contact/route.ts:10-15 | a payload without an email gets 400 with the fixed message |
| `ContactRoute.QuotaExceeded` | src/app/api/contact/route.ts:34-36 | a provider answering `"quota exceeded"` gives 500 with `{ error: "quota exceeded" }` |
| `ContactForm.InitialValues` | src/components/sections/Contact.tsx:82-87 | the initial values have exactly the keys name, email, subject and message, all `""` |
| `ContactForm.FormFieldIds` | src/components/sections/Contact.tsx:13-34 | the looped inputs and the separate message textarea together cover exactly the keys of the initial values, and the message is not among the looped inputs |
| `ContactForm.RequiredFormFieldIds` | src/components/sections/Contact.tsx:13-34 | name and email are marked required and subject is not |
| `ContactForm.RequiredIds` | src/components/sections/Contact.tsx:13-221 | the fields that must be filled before the form submits are exactly name, email and message, the two `FORM_FIELDS` marked required plus the message textarea; subject is optional |
| `ContactForm.Contact.constructor` | src/components/sections/Contact.tsx:90-92 | the state starts as the initial values, not submitted and not loading |
| `ContactForm.Contact.HandleChange` | src/components/sections/Contact.tsx:94-95 | while the form is shown, the new values are the old ones with `id` replaced; every other key keeps its value; submitted and loading are unchanged; the key set stays fixed exactly when `id` is a known field |
| `ContactForm.Contact.ChangeMessage` | src/components/sections/Contact.tsx:218-219 | while the form is shown, the same single-key replacement for `message`, keeping the key set fixed |
| `ContactForm.Contact.BeginSubmit` | src/components/sections/Contact.tsx:97-99 | from an enabled form whose name, email and message are filled, loading becomes true and values stay as they were; no second submit can be triggered |
| `ContactForm.Contact.CompleteSubmit` | src/components/sections/Contact.tsx:105-107 | only while a submit is loading: loading becomes false and submitted true, with no failure path; values stay as they were and the form is hidden |
| `ContactForm.Contact.HandleSubmit` | src/components/sections/Contact.tsx:97-108 | from an enabled form whose required fields are filled, submitting ends with the form submitted, not loading, and the values unchanged |
| `ContactForm.Contact.SendAnother` | src/components/sections/Contact.tsx:187-188 | only after submission: "Send another" clears submitted and shows the enabled form again; values stay as they were |
| `ContactForm.VisitAndResend` | src/components/sections/Contact.tsx:94-219 | after typing a name, an email and a message, submitting and pressing "Send another", the form is enabled again and holds what was typed |

## Left out

- The Resend client and the environment variables. The client is a foreign network service, so it is the `send` parameter. The addresses are the opaque strings of `Config`. The API key is not modelled.
- Decoding the request body. `request.json()` is the `Request` value: a payload of optional strings, or `Malformed`. `Malformed` covers every body that throws before validation: one that does not decode, and a JSON `null`, which decodes but cannot be destructured. A JSON field that is not a string (a number, an object, `false`) is not modelled, and "falsy" means absent or `""`.
- A provider error object without a `message`. The model always has a message string, so the case where the JSON body would have no `error` key is not modelled.
- HTML email bodies, escaping and bot-verification tokens. None of these is in the code modelled here.
- The one-second `setTimeout` in `handleSubmit`. It is the gap between `BeginSubmit` and `CompleteSubmit`; timing is not modelled.
- `e.preventDefault()` and React's batching and rendering. A second submit squeezed in before React re-renders the disabled button is not modelled; `BeginSubmit` requires the button to be enabled.
- The browser's `type="email"` format check on the email input. `RequiredFilled()` captures only the `required` attribute (a non-empty value), not whether the text looks like an email address.
- All JSX markup and styling: labels, placeholders as shown, the `Sending…`/`Send Message` button text, and the `Divisions`, `Philosophy`, `Hero`, `Footer` and page sections. `FormFields` keeps the labels and placeholders as data only.
- The Navbar scroll and menu toggling, the HeroImage fallback, the footer year (it reads the clock), fonts and metadata. These are UI concerns or environment-dependent.
- `ContactRoute.TemplateLines` (src/app/api/contact/route.ts:22-29, the six-element array) has no contract of its own. What it yields after filtering is stated by `KeptLines`.
- `ContactRoute.Join` has no contract of its own. What the model claims about the joined body is stated by `TextBodyWithSubject` and `TextBodyWithoutSubject` for the six-line template the handler actually joins.
- `ContactRoute.TextBody` (src/app/api/contact/route.ts:22-31, `[…].filter(Boolean).join("\n")`) has no contract of its own. Its exact value is stated by `TextBodyWithSubject` and `TextBodyWithoutSubject`, and the text actually sent by `PostSentTextWithSubject` and `PostSentTextWithoutSubject`.
- `ContactRoute.BuildEmail` (src/app/api/contact/route.ts:17-32, the argument of `resend.emails.send`) has no contract of its own. Its fields are stated by `PostSendsOnce` (reply-to, sender, recipient, subject) and `PostAddressesFromConfig`, its text by the `PostSentText` lemmas, and `PostMapsDeliveryResult` says it is the one email sent.
