# Buffet site: verified model of its client-side logic

This project models, in Dafny, the logic behind the pages of a buffet's web site
(a React application). It covers the public home page and the administration panel:

- **Login box** (`login.dfy`, module `Login`): the administrator login and its
  password-recovery flow. The flow is a three-step state machine (e-mail, four-digit
  code, new password) with a 600-second countdown. The component is the class
  `LoginBox`. Each handler is proved to move its state exactly as a pure transition
  function says, and the lemmas state what the flow promises. That includes an
  invariant held by every run of user events.
- **Quote form** (`contact.dfy`, module `Contact`): the five field validators. The
  phone and e-mail regular expressions are hand-written recognisers, each proved to
  accept exactly the strings a grammar of the pattern's parts produces. The form's
  submission runs every validator and composes the message.
- **Cart** (`cart.dfy`, module `Cart`): lines are appended with a minted id and
  removed by id.
- **Administration panel** (`admin.dfy`, module `Admin`): covers the following.
  - The login gate and its persisted flag.
  - The category form: create, edit and delete.
  - The mapping from store snapshots to the listed dishes and categories.
- **Dish screen** (`admin_menu.dfy`, module `Menu`): the dish forms, the edit
  start, save and cancel actions, and the category badge lookup.
- **Photo screen** (`admin_photos.dfy`, module `Photos`): adding and deleting
  photos, and the rule that every change is written back to browser storage.
- **Gallery** (`gallery.dfy`, module `Gallery`): the icon lookup, the category
  chips and the photo filter.
- **FAQ** (`faq.dfy`, module `Faq`): the case-insensitive search and the
  accordion, in which one item at most is open.

The shared modules are:

- `Wrappers`: `Option`.
- `Seqs`: JavaScript's `filter` and `find` over sequences.
- `Strings`: `trim`, digits and decimal text, `includes`, and `toLowerCase`.

The store, browser storage, the clock, the random source and the file reader are
outside the model:

- **Document store.** The requests sent to the store are kept in a log field. Each
  awaited call takes an `ok` parameter that says whether it resolved.
- **Browser storage.** It is a field holding the decoded value.
- **Clock, random source and encoded image.** These are parameters.
- **Alerts, toasts and `window.confirm`.** Alerts and toasts become returned values
  or a message field, and `window.confirm` becomes a boolean parameter.

## Model

| member | source | states |
|---|---|---|
| Login.CodigoChangeOnlyTouchesSlot | src/components/admin/Login/Login.tsx:69-76 | an input longer than one character, or one that is not a digit, leaves the state unchanged; an accepted input changes only its own slot, which then holds it; every slot stays empty or one digit |
| Login.CodeCompleteIff | src/components/admin/Login/Login.tsx:107-111 | with well-formed slots, the joined code has length 4 exactly when all four slots are filled |
| Login.SubmitEmailStep | src/components/admin/Login/Login.tsx:152-160 | in step 1, submitting moves to step 2 with a 600-second countdown exactly when the e-mail is non-empty, not blank and contains `@`; otherwise only the "invalid e-mail" toast changes; no login call is made |
| Login.SameEmailGuards | src/components/admin/Login/Login.tsx:154 | the submit's e-mail test and the "Enviar Código" button's test (line 386) accept exactly the same e-mails |
| Login.VerificarCodigoOutcomes | src/components/admin/Login/Login.tsx:106-122 | an incomplete code only shows a toast; the complete code "1234" moves to step 3; any other complete code shows a toast and raises the modal, keeping the step, the digits and the countdown |
| Login.ConfirmarNovaSenhaOutcomes | src/components/admin/Login/Login.tsx:124-145 | an empty or mismatched password field changes only the toast; matching passwords leave recovery mode, clear the e-mail, code and passwords, go back to step 1 and reset the countdown to 600, keeping the credentials and the modal |
| Login.ToggleResets | src/components/admin/Login/Login.tsx:201-211 | the toggle flips the mode and always resets the step, the recovery fields and the countdown; toggling twice restores the mode with every recovery field cleared |
| Login.CountdownStep | src/components/admin/Login/Login.tsx:49-61 | a tick decrements the countdown only in step 2 of recovery with time left, and changes nothing else; at 0 in step 2 the expiry returns to step 1 with 600 seconds; both keep the countdown within 0..600 |
| Login.CodeExpiresAfterCountdown | src/components/admin/Login/Login.tsx:49-61 | left alone in step 2, the countdown reaches 0 after exactly as many ticks as seconds remain, and the expiry then returns to step 1 with a fresh countdown |
| Login.Pad2 | src/components/admin/Login/Login.tsx:66 | `padStart(2, "0")` of a number below 100 is two digits whose value is that number |
| Login.FormatarTempoRoundTrip | src/components/admin/Login/Login.tsx:63-67 | the text is minutes, a colon and two digits of seconds below 60; reading both back gives the original number of seconds |
| Login.FormatarTempoExamples | src/components/admin/Login/Login.tsx:63-67 | 600 seconds read "10:00" and 59 seconds read "0:59" |
| Login.SubmitKeepsReachable | src/components/admin/Login/Login.tsx:147-199 | submitting the form keeps the reachable-state invariant |
| Login.VerificarKeepsReachable | src/components/admin/Login/Login.tsx:106-122 | the "verify" button keeps the reachable-state invariant |
| Login.TypeDigitoKeepsReachable | src/components/admin/Login/Login.tsx:69-81 | typing into a code slot keeps the reachable-state invariant |
| Login.StepKeepsReachable | src/components/admin/Login/Login.tsx:34-61 | every user event keeps the invariant; the `disabled` attributes (lines 377, 393, 430, 443, 464, 486, 510) make controls of other steps inert; the invariant says: well-formed state, a step other than 1 only in recovery mode, initial recovery fields outside it, and step 3 only with the code "1234" |
| Login.RunKeepsReachable | src/components/admin/Login/Login.tsx:34-61 | any sequence of events from a reachable state ends in a reachable state |
| Login.EveryRunReachable | src/components/admin/Login/Login.tsx:34-47 | every run from the initial state satisfies the invariant; in particular no run reaches the new-password step without the code "1234" |
| Login.OnlyExpectedCodeOpensStep3 | src/components/admin/Login/Login.tsx:113-116 | the only events that enter step 3 are the code check, by its button or by the form submit, with the code "1234" |
| Login.LoginBox.constructor | src/components/admin/Login/Login.tsx:28-47 | the initial state: empty fields, recovery off, step 1, four empty slots, 600 seconds |
| Login.LoginBox.HandleCodigoChange | src/components/admin/Login/Login.tsx:69-81 | the new state is the code-change transition of the old one, and the state stays well formed |
| Login.LoginBox.VerificarCodigo | src/components/admin/Login/Login.tsx:106-122 | the new state is `AfterVerificarCodigo` of the old one |
| Login.LoginBox.ConfirmarNovaSenha | src/components/admin/Login/Login.tsx:124-145 | the new state is `AfterConfirmarNovaSenha` of the old one |
| Login.LoginBox.ResetRecovery | src/components/admin/Login/Login.tsx:137-144 | every recovery field returns to its initial value, with the mode as given |
| Login.LoginBox.HandleSubmit | src/components/admin/Login/Login.tsx:147-199 | the new state, and the credentials handed to `onLogin` if any, are `AfterSubmit` of the old state |
| Login.LoginBox.SubmitRecovery | src/components/admin/Login/Login.tsx:150-170 | the recovery branch acts as the current step's action |
| Login.LoginBox.SubmitEmail | src/components/admin/Login/Login.tsx:152-161 | step 1 of recovery acts as `AfterSubmitEmail` |
| Login.LoginBox.SubmitLogin | src/components/admin/Login/Login.tsx:173-198 | the trimmed credentials go to `onLogin` only when both are present, and recovery is then reset |
| Login.LoginBox.EnviarCodigo | src/components/admin/Login/Login.tsx:384-393 | the button's guard, then step 2 with a fresh countdown |
| Login.LoginBox.ToggleRecuperacao | src/components/admin/Login/Login.tsx:201-211 | the new state is the toggle transition of the old one |
| Login.LoginBox.Tick | src/components/admin/Login/Login.tsx:50-54 | one firing of the interval, as `AfterTick`; the state stays well formed |
| Login.LoginBox.ExpiryEffect | src/components/admin/Login/Login.tsx:56-60 | the expiry branch of the effect, as `AfterExpiry`; the state stays well formed |
| Login.LoginBox.CloseModal | src/components/admin/Login/Login.tsx:224-226 | clicking the overlay (or the OK button, line 248) only clears the modal flag |
| Contact.Message | src/components/ContactSection.tsx:23-54 | a validator's text is empty exactly for a valid field |
| Contact.ValidateNome | src/components/ContactSection.tsx:23-27 | valid exactly when the trimmed name has at least 3 characters; "required" when it is blank, "too short" when it has 1 or 2 characters |
| Contact.PhonePattern | src/components/ContactSection.tsx:30 | the phone recogniser accepts exactly the strings built from the regular expression's pieces: optional "(", two digits, optional ")", optional white space, 4 or 5 digits, optional "-", 4 digits |
| Contact.PhoneSound | src/components/ContactSection.tsx:30 | every accepted phone is the rendering of well-formed pieces |
| Contact.PhoneRoundTrip | src/components/ContactSection.tsx:30 | recognising the rendering of well-formed pieces gives those pieces back, so the pattern reads each accepted string in one way only |
| Contact.PhoneDigitCount | src/components/ContactSection.tsx:30 | every accepted phone has exactly 10 or 11 digits |
| Contact.PhoneRejectsDigitCount | src/components/ContactSection.tsx:30-31 | whatever the punctuation, fewer than 10 digits or more than 11 are rejected |
| Contact.PhoneNotBlank | src/components/ContactSection.tsx:30-32 | an accepted phone is never blank, so the "required" test never hides a match |
| Contact.PhoneAcceptsHint | src/components/ContactSection.tsx:31 | the example in the format message, "(11) 99999-9999", is accepted |
| Contact.PhoneAcceptsBareDigits | src/components/ContactSection.tsx:30 | "11999999999" is accepted |
| Contact.PhoneUnbalancedParenthesis | src/components/ContactSection.tsx:30 | the two parentheses are independent options, so "(11 99999-9999" is accepted |
| Contact.ValidateTelefone | src/components/ContactSection.tsx:29-34 | valid exactly when the untrimmed value matches the phone pattern; otherwise "required" for a blank value and "invalid format" for anything else |
| Contact.EmailPattern | src/components/ContactSection.tsx:37 | the e-mail recogniser accepts exactly the strings that are a run, "@", a run, "." and a run, where no run holds white space or "@" |
| Contact.EmailSound | src/components/ContactSection.tsx:37 | every accepted e-mail is the rendering of three well-formed runs |
| Contact.EmailComplete | src/components/ContactSection.tsx:37 | the rendering of any three well-formed runs is accepted |
| Contact.EmailShape | src/components/ContactSection.tsx:37 | an accepted e-mail has no white space, exactly one "@", and after it a "." with text on both sides |
| Contact.EmailNotBlank | src/components/ContactSection.tsx:37-39 | an accepted e-mail is never blank |
| Contact.EmailAcceptsAddress | src/components/ContactSection.tsx:37 | "a@b.com" is accepted |
| Contact.EmailRejectsNoAt | src/components/ContactSection.tsx:37 | a text without "@" is rejected, including the empty text |
| Contact.EmailRejectsWord | src/components/ContactSection.tsx:37 | "not-an-email" is rejected |
| Contact.ValidateEmail | src/components/ContactSection.tsx:36-41 | valid exactly when the value matches the e-mail pattern; otherwise "required" for a blank value and "invalid" for anything else |
| Contact.ParseNumber | src/components/ContactSection.tsx:45 | `Number` on decimal literals: a blank text reads as 0, and a parsed value is always a well-formed literal |
| Contact.BelowOneIsValueBelowOne | src/components/ContactSection.tsx:46 | the test on the parsed literal is exactly "the number, read as an exact decimal, is below 1" |
| Contact.ValidateNumConvidados | src/components/ContactSection.tsx:43-48 | valid exactly for the empty text or a number of at least 1; "not a number" when `Number` gives NaN |
| Contact.GuestCountOfWholeNumber | src/components/ContactSection.tsx:43-48 | a whole number written in digits is accepted exactly when it is at least 1 |
| Contact.GuestCountBlank | src/components/ContactSection.tsx:44-46 | the empty text is accepted, while a text of spaces reads as 0 and is reported as not positive |
| Contact.GuestCountRejectsText | src/components/ContactSection.tsx:45 | a text whose first non-blank character cannot start a number is reported as not a number |
| Contact.ValidateAlergias | src/components/ContactSection.tsx:50-54 | an error exactly when the allergy answer is "sim" and the details are blank |
| Contact.ErrorMapEntries | src/components/ContactSection.tsx:60-72 | the error object has the five fields, each holding its own verdict; it has an error exactly when one of the verdicts is not valid |
| Contact.SubmitReportsEveryField | src/components/ContactSection.tsx:57-72 | submission stores every field's own verdict, whatever the others say, and goes through exactly when all five fields pass |
| Contact.MessageAllergyLine | src/components/ContactSection.tsx:74-84 | the message ends with the allergy line, which adds the details in parentheses exactly when the answer is "sim" |
| Contact.ContactSection.constructor | src/components/ContactSection.tsx:9-20 | every field empty except the allergy answer, "não", and no errors |
| Contact.ContactSection.HandleSubmit | src/components/ContactSection.tsx:57-92 | the stored errors are the five verdicts on the current form; a message is produced exactly when none of them is an error, and it is the composed text |
| Cart.AddAppendsOne | src/Home.tsx:24-30 | adding grows the cart by one line at the end; earlier lines are unchanged and in order |
| Cart.MintedLineFields | src/Home.tsx:25-28 | the new line keeps every field of the dish except its id; the id starts with the dish id followed by "-", so it never equals the dish id |
| Cart.RemoveKeepsOthers | src/Home.tsx:32-34 | removal keeps exactly the lines with another id, each as often as it occurred, in the original order |
| Cart.RemoveAbsentId | src/Home.tsx:32-34 | removing an id no line carries changes nothing |
| Cart.RemoveIdempotent | src/Home.tsx:32-34 | after a removal no line carries the id, so removing it again changes nothing |
| Cart.AddThenRemove | src/Home.tsx:24-34 | when the minted id is new to the cart, removing it undoes the addition |
| Cart.Home.constructor | src/Home.tsx:22 | the cart starts empty |
| Cart.Home.AdicionarAoCarrinho | src/Home.tsx:24-30 | the new cart is the old one with the minted line added |
| Cart.Home.RemoverDoCarrinho | src/Home.tsx:32-34 | the new cart is the old one with the lines of that id removed |
| Admin.MountedGate | src/Admin.tsx:88-91 | on mount the gate opens exactly when the stored flag is the string "true", so gate and flag agree |
| Admin.LoginOutcomes | src/Admin.tsx:94-101 | only "Admin" with "12345678" opens the gate and sets the flag; anything else changes nothing and raises the error alert; no other field changes |
| Admin.LogoutOutcome | src/Admin.tsx:103-106 | logging out closes the gate, removes the flag and touches nothing else |
| Admin.AdicionarCategoriaOutcomes | src/Admin.tsx:129-145 | a category is created only when both fields are filled, and carries the form; only an accepted create empties the form and shows the success alert; a rejected create changes nothing but the log; the edit id is never touched |
| Admin.SalvarCategoriaEditadaOutcomes | src/Admin.tsx:148-166 | an update needs both fields and an id being edited, and goes to that id; an accepted update empties the form and ends the edit; a rejected one changes only the log |
| Admin.SubmitCategoriaDispatch | src/Admin.tsx:279 | the form sends an update only while an id is being edited, and a create only while none is |
| Admin.ExcluirCategoriaOutcomes | src/Admin.tsx:168-181 | nothing happens unless confirmed; an accepted delete clears the form and the edit id exactly when the deleted category is the one being edited; otherwise the edit state is untouched |
| Admin.SnapshotMapping | src/Admin.tsx:66-86 | a snapshot gives one listed entry per document, in order, each with the document's id and data |
| Admin.StepKeepsGate | src/Admin.tsx:94-106 | every handler keeps gate and flag in agreement, and only login and logout touch either |
| Admin.RunKeepsGate | src/Admin.tsx:88-106 | after mounting and any sequence of handlers, the gate is open exactly when storage holds "true" |
| Admin.RunFromAgreeing | src/Admin.tsx:94-106 | agreement of gate and flag survives any sequence of handlers |
| Admin.AdminPanel.constructor | src/Admin.tsx:38-91 | the mounted state for the stored flag |
| Admin.AdminPanel.HandleLogin | src/Admin.tsx:94-101 | state and alert as `AfterLogin` |
| Admin.AdminPanel.HandleLogout | src/Admin.tsx:103-106 | state as `AfterLogout` |
| Admin.AdminPanel.HandleAddPrato | src/Admin.tsx:109-116 | the dish is sent to the store |
| Admin.AdminPanel.AdicionarCategoria | src/Admin.tsx:129-145 | state and alert as `AfterAdicionarCategoria` |
| Admin.AdminPanel.SalvarCategoriaEditada | src/Admin.tsx:148-166 | state and alert as `AfterSalvarCategoriaEditada` |
| Admin.AdminPanel.SubmitCategoria | src/Admin.tsx:279 | state and alert as `AfterSubmitCategoria` |
| Admin.AdminPanel.ExcluirCategoria | src/Admin.tsx:168-181 | state and alert as `AfterExcluirCategoria` |
| Admin.AdminPanel.StartEdit | src/Admin.tsx:311-314 | the category's fields are loaded into the form and its id is the one edited |
| Admin.AdminPanel.TypeNome | src/Admin.tsx:287 | only the form's name changes |
| Admin.AdminPanel.TypeDescricao | src/Admin.tsx:295-297 | only the form's description changes |
| Admin.AdminPanel.OnPratosSnapshot | src/Admin.tsx:66-75 | the dish list is replaced by the snapshot's mapping; nothing else changes |
| Admin.AdminPanel.OnCategoriasSnapshot | src/Admin.tsx:77-86 | the category list is replaced by the snapshot's mapping; nothing else changes |
| Menu.AdicionarPratoOutcomes | src/components/admin/Menu/AdminMenu.tsx:48-61 | a dish is sent only when name, price and category are filled, and it is the form that is sent; only a resolved call empties the form and shows the success toast; a rejected call changes nothing but the log; the edit state is never touched |
| Menu.SalvarEdicaoOutcomes | src/components/admin/Menu/AdminMenu.tsx:63-76 | an edit is sent only with a dish being edited and all three fields filled, and goes to that dish; a resolved call ends the edit and empties the edit form; the new-dish form is never touched |
| Menu.StartEditLoads | src/components/admin/Menu/AdminMenu.tsx:154-160 | the dish is selected and its fields copied, and a missing category id becomes "" |
| Menu.CancelKeepsForm | src/components/admin/Menu/AdminMenu.tsx:146 | cancelling ends the edit and keeps what was typed |
| Menu.BadgeLookup | src/components/admin/Menu/AdminMenu.tsx:118 | the badge is the first category whose id is the dish's category id; there is none exactly when no category has it, and in particular for a dish without a category |
| Menu.AdminMenu.constructor | src/components/admin/Menu/AdminMenu.tsx:34-46 | empty forms, no edit and no calls |
| Menu.AdminMenu.AdicionarPrato | src/components/admin/Menu/AdminMenu.tsx:48-61 | state and toast as `AfterAdicionarPrato` |
| Menu.AdminMenu.SalvarEdicao | src/components/admin/Menu/AdminMenu.tsx:63-76 | state and toast as `AfterSalvarEdicao` |
| Menu.AdminMenu.StartEdit | src/components/admin/Menu/AdminMenu.tsx:154-160 | state as `AfterStartEdit` |
| Menu.AdminMenu.CancelEdit | src/components/admin/Menu/AdminMenu.tsx:146 | state as `AfterCancelEdit` |
| Menu.AdminMenu.DeletePrato | src/components/admin/Menu/AdminMenu.tsx:165 | the delete callback is called with the dish id; nothing else changes |
| Photos.AddPhotoOutcomes | src/components/admin/Photos/AdminPhotos.tsx:41-61 | adding raises the alert and changes nothing exactly when the file, name or category is missing; otherwise one photo with the form's fields, the time in milliseconds as its id and the encoded image is appended after the unchanged earlier ones, and the form is emptied |
| Photos.DescriptionOptional | src/components/admin/Photos/AdminPhotos.tsx:42 | an empty description does not stop an add |
| Photos.DeleteKeepsOthers | src/components/admin/Photos/AdminPhotos.tsx:63-65 | deleting keeps exactly the photos with another id, each as often as before and in order; deleting again changes nothing |
| Photos.SameMillisecondShareId | src/components/admin/Photos/AdminPhotos.tsx:51 | two photos added in the same millisecond share an id, and deleting that id removes both |
| Photos.StepKeepsPersisted | src/components/admin/Photos/AdminPhotos.tsx:32-34 | when storage holds the list, it still does after any handler |
| Photos.AlwaysPersisted | src/components/admin/Photos/AdminPhotos.tsx:26-34 | after mounting and any sequence of handlers, storage holds the current list |
| Photos.RunKeepsPersisted | src/components/admin/Photos/AdminPhotos.tsx:32-34 | the list stays persisted over any sequence of handlers |
| Photos.AdminPhotos.constructor | src/components/admin/Photos/AdminPhotos.tsx:17-34 | the stored list, when there is one, replaces the list handed in, and the result is written back |
| Photos.AdminPhotos.TypeName | src/components/admin/Photos/AdminPhotos.tsx:78 | only the form's name changes |
| Photos.AdminPhotos.TypeDescription | src/components/admin/Photos/AdminPhotos.tsx:84-86 | only the form's description changes |
| Photos.AdminPhotos.TypeCategory | src/components/admin/Photos/AdminPhotos.tsx:94 | only the form's category changes |
| Photos.AdminPhotos.HandleFileChange | src/components/admin/Photos/AdminPhotos.tsx:36-39 | only the form's file changes |
| Photos.AdminPhotos.HandleAddPhoto | src/components/admin/Photos/AdminPhotos.tsx:41-61 | state and alert as `AfterAddPhoto`; a persisted list stays persisted |
| Photos.AdminPhotos.HandleDelete | src/components/admin/Photos/AdminPhotos.tsx:63-65 | state as `AfterDelete`, and storage holds the new list |
| Gallery.LabelsDistinct | src/components/Photos.tsx:13-20 | no two icon options share a label |
| Gallery.IconByLabel | src/components/Photos.tsx:23-25 | a known label gives its own icon, and any other label gives Cake |
| Gallery.ChipList | src/components/Photos.tsx:90-114 | the chips are "Todas" followed by one chip per stored category, in order, each with its label and the icon its icon label names |
| Gallery.FilterByCategory | src/components/Photos.tsx:116-119 | "Todas" shows every photo; any other label shows exactly the photos of that category, as often as they occur and in their order |
| Gallery.ChipShowsCategory | src/components/Photos.tsx:132-138 | clicking a stored category's chip shows that category's photos, or all of them when the category is itself labelled "Todas" |
| Gallery.AbsentKeyLoadsNothing | src/components/Photos.tsx:81-87 | with no stored photo list no photo is shown under any chip, and with no stored category list the only chip is "Todas"; a stored list is shown as it is, filtered by the active chip |
| Faq.BlankTermShowsAll | src/components/FaqSection.tsx:56-57 | a term of white space only shows every item |
| Faq.SearchKeepsMentions | src/components/FaqSection.tsx:58-65 | otherwise exactly the items whose question or answer contains the term, ignoring case, are kept, each as often as it occurs |
| Faq.SearchIsSubsequence | src/components/FaqSection.tsx:55-67 | what is shown is the items in their original order, some left out |
| Faq.SearchIgnoresCase | src/components/FaqSection.tsx:59-63 | a lower-cased term shows the same items as the term itself |
| Faq.TermNotTrimmed | src/components/FaqSection.tsx:59 | the term is not trimmed: a question finds its item, while the question followed by a space does not |
| Faq.ToggleOutcome | src/components/FaqSection.tsx:69-71 | toggling opens the item unless it is the open one, which it closes; one item at most is ever open |
| Faq.ToggleTwice | src/components/FaqSection.tsx:69-71 | toggling twice restores the state exactly when nothing or that item was open; if another item was open, all end up closed |
| Faq.FaqSection.constructor | src/components/FaqSection.tsx:51-53 | an empty term, every item shown, none open |
| Faq.FaqSection.SetSearchTerm | src/components/FaqSection.tsx:55-67 | the shown items are the search result for the new term |
| Faq.FaqSection.ToggleItem | src/components/FaqSection.tsx:69-71 | the open item is the toggle of the old one; nothing else changes |
| Seqs.Filter | src/Home.tsx:33 | `filter` keeps only elements that pass and keeps every element that passes |
| Seqs.Find | src/components/admin/Menu/AdminMenu.tsx:118 | `find` gives nothing exactly when no element passes, and otherwise the first element that passes |
| Strings.TrimEmptyIff | src/components/FaqSection.tsx:56 | `trim()` gives "" exactly for a string of white space only |
| Strings.ContainsIff | src/components/FaqSection.tsx:62-63 | `includes` holds exactly when the text occurs at some position |
| Strings.LowerIdempotent | src/components/FaqSection.tsx:59 | lower-casing twice is lower-casing once |
| Strings.NatToStringRoundTrip | src/components/admin/Photos/AdminPhotos.tsx:51 | the decimal text of a number reads back as that number |

## Left out

- **Document store.** Calls to the store, their subscriptions and their failure
  paths are not modelled. The model keeps the log of requests sent; a resolved
  or rejected await is the `ok` parameter; logged errors are not modelled.
- **Browser storage and JSON.** Storage holds the decoded value or nothing. JSON
  encoding, a stored value that fails to parse, and the empty-string case of the
  `if (saved)` tests are not modelled.
- **Photos.AdminPhotos.HandleAddPhoto**: the file reader's completion is taken as
  synchronous, with the encoded image as a parameter. A second add started before
  the first read completes is not modelled.
- **Timers and effects.** The countdown's `setInterval`, toast timers and the
  3-second toast visibility are left out. The countdown is one `Tick` per second
  and an `ExpiryEffect` event; toasts are the last message shown.
- **Login.LoginBox.SubmitLogin**: `onLogin` is taken not to throw. The
  "Erro no login." toast of the `catch` branch is not modelled.
- **Login.LoginBox.ExpiryEffect**: the "code expired" `alert` is not modelled.
- **Focus and dialogs.** Focus movement in `handleCodigoChange` and
  `handleCodigoKeyDown` and `scrollIntoView` are UI effects and are left out.
  `alert` and toasts become returned values. `window.confirm` is a boolean
  parameter.
- **Browser form validation.** In recovery mode the login form validates natively
  (`noValidate` is off, and the inputs carry `required` and `type="email"`), so
  the browser can block a submit before `handleSubmit` runs; it blocks "a@", for
  example. The model's `Submit` event always runs `handleSubmit`, which
  over-approximates what the form allows.
- **Messaging link.** `window.open` and `encodeURIComponent` in the quote form are
  left out; HandleSubmit returns the composed message instead.
- **Contact.ParseNumber**: covers `Number` only for decimal literals (sign,
  digits, one "."). Exponents, hexadecimal, "Infinity" and other JavaScript numeric
  syntax read as NaN here.
- **Contact.ParseNumber**: literals are read as exact decimals, not rounded to
  doubles. A literal that rounds up to 1.0, such as "0.99999999999999999", is
  rejected here as below 1, while the source accepts it.
- **Contact.ValidateNumConvidados**: inherits the exact-decimal reading of
  `Contact.ParseNumber`, so it rejects literals that round to 1.0 as doubles.
- **Admin.AdminPanel.AdicionarCategoria**: the awaited create is taken as atomic.
  Text typed while it is pending is erased by the reset after it; that is not
  captured.
- **Admin.AdminPanel.SalvarCategoriaEditada**: the awaited update is taken as
  atomic. The reset of text typed while it is pending is not captured.
- **Admin.AdminPanel.ExcluirCategoria**: the awaited delete is taken as atomic.
  The source compares the edit id captured at the click. An edit of the same
  category started while the delete is pending is therefore not cleared; that is
  not captured.
- **Menu.AdminMenu.AdicionarPrato**: the awaited `onAddPrato` is taken as atomic.
  The reset of text typed while it is pending is not captured.
- **Menu.AdminMenu.SalvarEdicao**: the awaited `onEditPrato` is taken as atomic.
  The reset of an edit started or typed while it is pending is not captured.
- **Contact.ContactSection**: the field setters are left out. They only copy
  the typed text into a field.
- **Login typing handlers.** The text inputs' setters appear only as events of
  `Login.Step`, not as methods of `LoginBox`.
- **Floating-point prices.** Dish prices are not computed. The form keeps the
  price text, and `parseFloat` is left out. `toString` and `toFixed` are left out
  too; `Menu.AdminMenu.StartEdit` takes the rendered price as the `precoTexto`
  parameter. The header's cart total is left out as well.
- **Clock and random source.** `Date.now()` and `Math.random()` are parameters,
  and the rendering of the random number is a string parameter. The source does
  not guarantee unique ids, so neither does the model (see
  `Photos.SameMillisecondShareId`).
- **Strings.Lower**: lower-cases ASCII and Latin-1 letters only. Full Unicode case
  mapping is not modelled, and strings are sequences of characters rather than
  UTF-16 code units.
- **FAQ texts.** The fixed FAQ texts are not copied; the section takes its list as
  a constructor parameter.
- **Cart.MenuItem**: the ReactNode fields `nome` and `preco` are not modelled; the
  spread that builds a cart line copies them unchanged.
- **Gallery.Category**: the gallery imports a `Category` type that the photo
  screen's file does not declare. The model uses the two fields the gallery reads.
  The gallery's chip click and active-category state are covered by
  `Gallery.FilteredPhotos` on the clicked label.
- **Snapshot documents.** A snapshot document whose data has its own `id` field
  would override the document id in the spread. The model's documents have no
  such field.
- **Wiring between components.** Prop wiring between components, the dashboard
  counters and page navigation of the panel (`setFotos`, `setPagina`), and the
  static presentation components are not part of this model.
