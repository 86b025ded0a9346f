# Lead-capture form of the NOCTA.I SALES AI landing page, in Dafny

The landing page is mostly static markup. It holds one stateful component,
the contact form that captures a sales lead. The form keeps five input
values: name, email, phone, company and message. It also keeps a record of
per-field error messages, an `isSubmitting` flag that disables the submit
button, and a `submitStatus` banner (`idle`, `success` or `error`).

Three handlers act on that state:

- `validateForm` requires name, email, phone and company to be non-blank after
  `trim()`. It tests the email against `^[^\s@]+@[^\s@]+\.[^\s@]+$` and the
  phone against `^[\d\s()\-+]+$`, and records at most one message per field.
- `handleInputChange` overwrites one input. It drops that input's error if one
  is shown.
- `handleSubmit` validates first. It stops if the form is invalid. Otherwise it
  posts the lead to a webhook and shows success or failure. On success it
  empties the form.

The model has four modules, one per file:

- `JsText` (`js_text.dfy`): the ECMAScript white-space class shared by `\s`
  and `String.prototype.trim`, and `trim` itself.
- `FieldPatterns` (`field_patterns.dfy`): both regular expressions as
  predicates over strings. Each also gets a reference reading, proved equal to
  the executable check: for the email, the grammar `local "@" domain "." tld`;
  for the phone, "non-empty, every character in the class".
- `LeadForm` (`lead_form.dfy`): the form record, the error map and
  `Validate`. `Validate`'s contract states each field's rule without reference
  to how it is computed.
- `FormController` (`form_controller.dfy`): the component state, typing
  (`InputChange`) and submitting. Submitting is split at its one `await` into
  `BeginSubmit` and `FinishSubmit`, composed as `HandleSubmit`. The webhook's
  answer is an input, `Delivered` or `Failed`. `Settled` is the invariant of
  states between events.

## Model

| member | source | states |
|---|---|---|
| JsText.SkipLeading | src/App.tsx:55 | the scan `trim` starts with: every character it passes is white space, and it stops at the end or at a non-white-space character |
| JsText.SkipTrailing | src/App.tsx:55 | the backward scan of `trim`: every character it drops is white space, and it stops at the lower bound or after a non-white-space character |
| JsText.Trim | src/App.tsx:55 | `trim()` returns the infix left after removing white space at both ends; it is empty exactly when the whole value is white space, and otherwise starts and ends with a non-white-space character |
| JsText.IsBlank | src/App.tsx:55-57 | `!value.trim()` holds exactly when every character of the value is white space, including the empty value |
| FieldPatterns.IsEmail | src/App.tsx:61 | the email test splits the value at its first `@`; it accepts exactly when the part before is a non-empty run of `[^\s@]` and the part after is such a run with a `.` neither first nor last, which is exactly the strings of the form local@domain.tld with each part a non-empty run free of white space and `@` |
| FieldPatterns.FirstAtSplitIffShape | src/App.tsx:61 | the split at the first `@` succeeds exactly for the strings local@domain.tld whose three parts are non-empty runs free of white space and `@` |
| FieldPatterns.SplitGivesShape | src/App.tsx:61 | a successful split at an `@` yields a local part, a domain and a final label, cut at a dot of the domain |
| FieldPatterns.ShapeSplitsAtFirstAt | src/App.tsx:61 | in any string assembled as local@domain.tld from such runs, the first `@` is the one after the local part, and the split there succeeds |
| FieldPatterns.IsPhone | src/App.tsx:67 | the phone test accepts exactly the non-empty values whose every character is a decimal digit, white space, `(`, `)`, `-` or `+` |
| FieldPatterns.WhitespaceIsNoEmail | src/App.tsx:59-63 | the validator tests the email expression on the value as the handler receives it, untrimmed, so a white-space character anywhere in that value, including a leading or trailing space, makes the email invalid |
| FieldPatterns.NoAtIsNoEmail | src/App.tsx:61 | a value without `@` fails the email expression |
| LeadForm.Validate | src/App.tsx:52-77 | name and company get their required message exactly when blank; email gets the required message when blank, otherwise the invalid message exactly when it is not local@domain.tld; phone gets the required message when blank, otherwise the invalid message exactly when some character is not a digit, white space, `(`, `)`, `-` or `+`; message never gets an error; the returned boolean is true exactly when no error was recorded, and exactly when the form meets all of these rules |
| LeadForm.ValidateMessagesBelong | src/App.tsx:52-77 | every recorded message is one of the messages written for that field |
| LeadForm.MessageIgnored | src/App.tsx:52-77 | changing the message input never changes the validator's errors or its verdict |
| LeadForm.OnlyEmailRejected | src/App.tsx:52-77 | a form whose only fault is a filled-in but malformed email gets exactly one error, `Email inválido`, on the email field |
| LeadForm.EmptyFormErrors | src/App.tsx:42-77 | validating the empty initial form records exactly the four required messages for name, email, phone and company |
| LeadForm.RejectsNotAnEmail | src/App.tsx:61 | `"not-an-email"` fails the email expression |
| LeadForm.AcceptsUserAtExample | src/App.tsx:61 | `"user@example.com"` passes the email expression |
| LeadForm.RejectsAbcPhone | src/App.tsx:67 | `"abc"` fails the phone expression |
| LeadForm.AcceptsFormattedPhone | src/App.tsx:67 | `"(11) 99999-9999"` passes the phone expression |
| LeadForm.FormData.With | src/App.tsx:81-84 | the spread `{ ...prev, [name]: value }` gives the named input the new value and leaves the other four as they were |
| FormController.InputChange | src/App.tsx:79-93 | the named input takes the new value and no other input changes; that input's error is removed exactly when it holds a truthy message; no other error, the flag or the banner changes |
| FormController.BeginSubmit | src/App.tsx:95-104 | a request is issued exactly when the form meets the validation rules, and it carries the current values; the validator's errors are recorded on both paths; an invalid form keeps `isSubmitting` and `submitStatus`; a valid one raises `isSubmitting` and resets the banner to idle; the flag is never consulted |
| FormController.FinishSubmit | src/App.tsx:125-141 | a delivered request shows success and empties all five inputs; a failed one shows the error banner and keeps the inputs; `isSubmitting` is false on both paths and errors are untouched |
| FormController.HandleSubmit | src/App.tsx:95-142 | an invalid form changes only the recorded errors; a valid one ends with `isSubmitting` false and no errors, with success and empty inputs when delivered, or the error banner and unchanged inputs when failed |
| FormController.InitialSettled | src/App.tsx:42-50 | the mounted form has no request in flight and no stray error |
| FormController.InputChangeKeepsSettled | src/App.tsx:79-93 | typing never introduces an error and never raises the flag |
| FormController.HandleSubmitKeepsSettled | src/App.tsx:95-142 | a whole submission ends with the flag lowered and only validator messages recorded, whatever the outcome |
| FormController.TypingClearsError | src/App.tsx:86-92 | in a settled form, typing into an input clears that input's error exactly when it has one and leaves every other error in place |
| FormController.InvalidFormSendsNothing | src/App.tsx:98-100 | an invalid form issues no request and leaves `isSubmitting` and `submitStatus` as they were |
| FormController.SecondSubmitWhilePending | src/App.tsx:95-104 | the handler itself does not consult `isSubmitting`: a second submit event that reaches it while a request is pending sends the same values again |
| FormController.TypingWhilePending | src/App.tsx:125-141 | the request carries the values of submit time; a delivery then empties the inputs, including anything typed meanwhile, and a failure keeps what was typed |
| FormController.RetryAfterFailureResends | src/App.tsx:134-141 | after a failure the error banner shows and a new submit sends exactly the same values |
| FormController.SubmitAfterDeliveryBlocked | src/App.tsx:125-133 | after a delivery the emptied form cannot be resent: the next submit is blocked with the four required messages |
| FormController.ExampleAddress | src/App.tsx:61 | `"ana@x.com"` passes the email expression |
| FormController.DeliveredLeadScenario | src/App.tsx:95-133 | the lead Ana / ana@x.com / 11999999999 / Acme, once delivered, leaves the success banner, five empty inputs, no errors and the flag lowered |
| FormController.BadEmailScenario | src/App.tsx:95-100 | when the handler receives the same lead with the email `"bad"`, it sends nothing and records only `Email inválido`, on the email field |

## Left out

- The webhook request itself is not modelled: the `fetch` call, its URL and headers, the JSON body, the `source` and `lead_type` tags and the `new Date().toISOString()` timestamp (src/App.tsx:105-123). This is network I/O, serialisation and the wall clock. The request is represented by its payload, the form values at submit time, and its result by the input `Outcome`.
- The model does not distinguish a non-2xx response from a thrown network error (src/App.tsx:134-138). The source folds both into the same error path, so both are `Failed`.
- `console.error` (src/App.tsx:137) is not modelled. It is logging with no effect on state.
- `e.preventDefault()` (src/App.tsx:96) is not modelled. It only stops the browser's own form submission.
- `scrollToSection`, the DOM lookups and the mobile-menu toggle (src/App.tsx:144-150, 185) are not modelled. They are page plumbing unrelated to the form's state.
- The JSX markup, styling, icons and copy (src/App.tsx:152-715) are not modelled. Apart from the three attributes in the next line, they are presentation only.
- The browser's own checks are not modelled: the sanitisation of the `type="email"` input's value (src/App.tsx:568), native constraint validation of the `<form>`, which has no `noValidate` (src/App.tsx:541), and the submit button's `disabled={isSubmitting}` (src/App.tsx:643). The model takes the input values and the submit events as the handlers receive them. In a browser some of them never reach the handlers: an email with surrounding spaces arrives stripped, a value such as `bad` in the email input is stopped before `onSubmit` fires, and the disabled button sends no second submit while a request is pending. The handler-level statements (WhitespaceIsNoEmail, BadEmailScenario, SecondSubmitWhilePending) describe the handlers, not what a browser user can trigger.
- React batches `setState` calls asynchronously. The model treats each handler, and each half of `handleSubmit`, as one atomic transition.
- InputChange takes the input's name as a `Field`. Only the five inputs declared with those `name` attributes call the handler, so an arbitrary event name cannot arise.
- The error object writes `[name]: undefined` to clear a key. The model removes the key instead, since nothing reads the keys of the stored error object. `Object.keys(errors).length === 0` is applied only to the fresh map that `validateForm` builds, where every key holds a string.
- JavaScript strings are UTF-16 code units, while Dafny's `string` here is a sequence of Unicode scalar values. Every character class involved lies in the Basic Multilingual Plane. A supplementary character fails `[\d\s()\-+]` and satisfies `[^\s@]+` either way, so no verdict depends on the difference.
- The repository also holds a second variant of the landing page, in another component with its own lead form (WhatsApp, segment and revenue fields). That component is not part of this model; src/App.tsx holds exactly one form.
