# Portfolio contact form and project filter, modelled in Dafny

The portfolio is a single page of static sections. Two pieces of it have
behaviour worth stating, and they are what this project models:

- **The contact form** (`contact.dfy`, module `Contact`). The form checks four
  rules before it sends anything. The name needs at least 2 characters, the
  email must pass an email-syntax check, the subject needs at least 5 and the
  message at least 10. The form then runs a small lifecycle with two flags,
  `isSubmitting` and `isSuccess`: Idle → Submitting → Success → Idle.
  The "request" is a fixed 1500 ms wait. A second timer, 3000 ms after success,
  hides the success view and resets the fields to their empty defaults.
  The validator is a function (`Errors`) checked against a rule-by-rule
  reference (`MeetsSchema`). The lifecycle is a class, `ContactForm`, whose
  methods are the user's actions (`Edit`, `Submit`) and the two timer firings
  (`DelayElapsed`, `ResetElapsed`). Its object invariant `Valid()` says the two
  flags are never both set. It also says that exactly one acknowledgment
  ("toast") has been shown per completed submission. The ghost counter
  `started` records the submissions started since mount.
- **The project filter** (`projects.dfy`, module `Projects`). The three tabs
  "all", "web" and "ai" show the result of filtering the hard-coded list of four
  projects. "all" shows the list unchanged. Any other tab keeps, in order, the
  projects tagged with that category.

Modelling decisions:

- The email check is zod's `.email()`, a library whose pattern is not part of
  this model. It is an uninterpreted parameter `isEmail: string -> bool`, fixed
  per form in the `const` field `ContactForm.isEmail`.
- Lengths are counted the way the code counts them. zod's `.min(n)` compares
  JavaScript's `length`, which counts UTF-16 code units. `Utf16Length` counts a
  character outside the Basic Multilingual Plane as two units. So a name made
  of one such character (an emoji) passes the two-character name rule
  (`AstralNameMeetsNameRule`), although the rules' own messages speak of
  "characters". The model follows the code.
- Validation errors form a map from field to error (kind and text), as the
  form library keeps them. A message is valid exactly when that map is empty.
- The two timers are event methods, not time. `DelayElapsed` requires
  `isSubmitting`, because the 1500 ms wait is pending exactly while that flag is
  set. `ResetElapsed` requires `isSuccess`, because the 3000 ms timer is pending
  exactly while the success view shows.
- The submit control is disabled while `isSubmitting` holds. The whole form,
  its inputs included, is replaced by the success view while `isSuccess` holds.
  So `Submit` returns `Blocked` and changes nothing in either case, and `Edit`
  changes nothing while the success view shows.
- There is no failure path (Submitting → Idle without success): the simulated
  request always succeeds, so neither the code nor the model has one.

## Model

| member | source | states |
|---|---|---|
| Contact.Utf16Length | components/sections/Contact.tsx:21-32 | a string's length as the length rules count it lies between its character count and twice that, and equals the character count when no character lies outside the Basic Multilingual Plane |
| Contact.ContactMessage.With | components/sections/Contact.tsx:206-258 | typing into one input sets that field to the typed value and leaves the other three fields as they were |
| Contact.Errors | components/sections/Contact.tsx:20-33 | validation reports no error exactly when all four rules hold together; the name, subject and message each have an error exactly when shorter than 2, 5 and 10; the email has one exactly when the email check refuses it; each error carries that field's kind and text |
| Contact.ContactForm.constructor | components/sections/Contact.tsx:37-48 | a mounted form is idle, with no errors, no acknowledgments and all four fields at the default "" |
| Contact.ContactForm.Edit | components/sections/Contact.tsx:184-258 | a keystroke changes only the field typed into and only while the form is on screen; flags, errors and acknowledgments are untouched |
| Contact.ContactForm.Submit | components/sections/Contact.tsx:50-54 | a press while submitting (control disabled) or while the success view shows changes nothing; invalid values set the field errors and start nothing; valid values clear the errors, raise isSubmitting at once and leave isSuccess and the fields unchanged; no started submission carries invalid values |
| Contact.ContactForm.DelayElapsed | components/sections/Contact.tsx:54-68 | when the request delay ends, isSubmitting is cleared and isSuccess set, one acknowledgment is appended, the number shown equals the submissions started, and the fields are kept |
| Contact.ContactForm.ResetElapsed | components/sections/Contact.tsx:59-63 | when the reset timer fires, isSuccess is cleared, isSubmitting stays cleared, all four fields return to the default "" and the errors are cleared |
| Contact.HappyPath | components/sections/Contact.tsx:50-69 | a valid message starts a submission, reaches Success with exactly one acknowledgment after the delay, and is Idle with empty fields after the reset |
| Contact.ShortNameRejected | components/sections/Contact.tsx:21-23 | a one-character name, with all other fields valid, is refused with the name's error alone and the form does not become busy |
| Contact.BadEmailRejected | components/sections/Contact.tsx:24-26 | an address the email check refuses is refused with an email error and the form does not become busy |
| Contact.DoubleClick | components/sections/Contact.tsx:259 | a second press while the first submission is in flight is blocked, and exactly one acknowledgment follows |
| Contact.AstralNameMeetsNameRule | components/sections/Contact.tsx:21-23 | a name of one character outside the Basic Multilingual Plane counts as two and raises no name error |
| Projects.KeepCategory | components/sections/Projects.tsx:112 | the filter result is never longer than the list, and every project in it is from the list and carries the category |
| Projects.ProjectsByCategory | components/sections/Projects.tsx:110-113 | "all" returns the list unchanged; any other category returns only projects of that category; the result is never longer than the list |
| Projects.KeepCategoryCount | components/sections/Projects.tsx:112 | each project occurs in the filter result as often as in the list if it carries the category, and not at all otherwise |
| Projects.KeepCategoryPositions | components/sections/Projects.tsx:112 | the filter result is the list read at increasing positions that include every position of the category, so the relative order is kept and none of the category is dropped |
| Projects.KeepCategoryIdempotent | components/sections/Projects.tsx:112 | filtering a filter result again by the same category changes nothing |
| Projects.WebAndAiPartition | components/sections/Projects.tsx:112 | when no project is tagged "all", the web and ai results together hold every project exactly once |
| Projects.KeepCategoryAppend | components/sections/Projects.tsx:112 | filtering a concatenation is concatenating the filtered parts |
| Projects.KeepCategoryAll | components/sections/Projects.tsx:112 | a list whose projects all carry the category passes the filter whole |
| Projects.KeepCategoryNone | components/sections/Projects.tsx:112 | a list with no project of the category filters to nothing |
| Projects.SplitTabs | components/sections/Projects.tsx:110-113 | a list of web projects followed by ai projects is split at that point by the two tabs, and the two results together are the list |
| Projects.CatalogTabs | components/sections/Projects.tsx:34-92 | for the page's own four projects, "all" shows all four, "web" the first two, "ai" the last two, and the web and ai tabs partition the list |

## Left out

- The email pattern of zod's `.email()` is not part of this model: it is the parameter `isEmail`.
- Contact.ContactForm.Submit: the click, the asynchronous schema check and `setIsSubmitting(true)` are one atomic step. The model does not capture a second press that would land between the first press and the re-render that disables the control.
- Live re-validation of a field as it changes after the first submit attempt is not modelled. It is form-library behaviour, not code of this page. `Edit` keeps the errors as they are.
- `form.reset()` also resets the form library's own bookkeeping (submitted, touched and dirty states). Only the values and the errors are modelled.
- A timer that fires after the contact section has been unmounted is not modelled. The page renders the section unconditionally (app/page.tsx:21), so it is never unmounted while a timer is pending. Were it unmounted during the 1500 ms wait, the code after the wait would still show the acknowledgment through the toaster in the root layout (app/layout.tsx:29); that late toast is what the model does not capture.
- Rendering is not modelled: cards, the success animation, the toast display and the button's spinner. The toast surface is the log `toasts` of acknowledgments shown.
- The `selectedProject` dialog state in the projects section only chooses what a dialog displays. It is not modelled.
- The remaining sections are not modelled: skills count-up animation, scroll-linked transforms, particle background, hero, education, page layout and build configuration. They are presentation with no state that feeds back into the page.
