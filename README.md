# Registration wizards and root view state of a construction-services marketplace

This project models the sign-up logic of a React front end for a marketplace of
rented construction vehicles and building materials, and proves properties of
that model in Dafny.

There are two six-step registration wizards. Each holds three pieces of state:
a step index `currentStep`, a fixed-shape record `formData`, and an error map
`errors`. Handlers edit a field, toggle a material type, attach or remove
files, go forward and back, and submit. Going forward is gated by a per-step
rule table (`validateStep`); submitting re-checks only the last step and tags
the record with a role. The root component `App` is a small state machine. It
holds the current view, the signed-in user and partner, the record waiting on
the confirmation page, and the menu and modal flags. Its `renderCurrentView`
falls back to the home page when a view's session value is missing.

Layout, one module per file:

- `wrappers.dfy` (`Wrappers`): `Option`.
- `text.dfy` (`Text`): blankness as `trim()` sees it, `Number(...)` on a string
  (None stands for NaN), and the unanchored e-mail pattern `\S+@\S+\.\S+`. The
  pattern is written as a predicate over indices and proved equivalent to a
  literal reading of the regular expression.
- `lists.dfy` (`Lists`): the `filter`/spread list updates, namely toggling a
  material type and removing an image by index.
- `forms.dfy` (`Forms`): file tokens, field values, clearing one error entry,
  and one assignment `newErrors.x = message`.
- `field_rules.dfy` (`FieldRules`): the per-field `if … else if` chains both
  wizards share, with their messages.
- `material_supplier.dfy` (`MaterialSupplier`): the supplier wizard. It has
  its record, its rule table and the class `MaterialSupplierRegistration`.
- `vehicle_owner.dfy` (`VehicleOwner`): the vehicle-owner wizard. It has its
  record, its rule table and the class `VehicleOwnerRegistration`.
- `root.dfy` (`Root`): the `App` class, its pure page selection `Render`, and
  the user and partner built on confirmation.

Each handler is a method on the component's class. Its `ensures` gives the new
state: the new record is tied to the pure update functions, and routing
follows the role. The rule table of each step is a pure function. It assigns
one field at a time, in the order of the source's assignments, so a later
assignment to the same key overwrites an earlier one, as the step-4 ordering
rule does. A step passes when that map has no key.

Each wizard also carries a reachability invariant, `EarlierStepsPass`: every
step before the current one passes on the current record. The invariant holds
because:

- a field can be edited only while its own step's page is shown;
- a step's rules read only that step's fields (`StepErrorsLocal`);
- going forward validates the step being left.

The class methods keep the invariant under those conditions. `HandleSubmit`
concludes from it that a record submitted from step 6 satisfies all six steps.
It concludes nothing about a record submitted from an earlier page (see
"## Left out").

Two behaviours of the source that its field names do not suggest, which the model keeps:

- In the supplier wizard, when the maximum price is blank, the ordering rule
  still fires. It replaces "Maximum price is required" whenever the minimum is
  a number of at least 0, a blank minimum included (`BlankMaxReportsOrder`).
- The confirmation handler reads `name`, `phone` and `businessName`. Both
  wizards send `fullName` and `mobileNumber` instead. The supplier record
  sends `businessBrandName`, and the vehicle-owner record has no business-name
  key at all. A user created from either wizard's record therefore has no name
  and no phone, and its partner has no owner name and an empty business name
  (`WizardUserLacksNameAndPhone`).

## Model

| member | source | states |
|---|---|---|
| Text.TrimEmptyIffBlank | src/components/MaterialSupplierRegistration.tsx:135-138 | `s.trim()` is empty exactly when every character of `s` is whitespace, which is how the `!x.trim()` checks read |
| Text.TrimStart | src/components/MaterialSupplierRegistration.tsx:135 | removes a blank prefix and leaves a string that is empty or starts with a non-space |
| Text.TrimEnd | src/components/MaterialSupplierRegistration.tsx:135 | removes a blank suffix and leaves a string that is empty or ends with a non-space |
| Text.Trim | src/components/MaterialSupplierRegistration.tsx:135 | `s.trim()` is the blank-prefix removal followed by the blank-suffix removal (no contract of its own; its meaning is stated by `Text.TrimEmptyIffBlank` and `Text.TrimUnpadded`) |
| Text.TrimUnpadded | src/components/MaterialSupplierRegistration.tsx:135 | a string with no whitespace at either end is its own trim |
| Text.FractionValue | src/components/MaterialSupplierRegistration.tsx:158 | the digits after a decimal point denote a value in [0, 1) |
| Text.IndexOfDot | src/components/MaterialSupplierRegistration.tsx:158 | finds the first '.' (or the end), with no '.' before it |
| Text.ParseUnsigned | src/components/MaterialSupplierRegistration.tsx:158 | an unsigned decimal literal denotes a number of at least 0 |
| Text.ParseNumber | src/components/MaterialSupplierRegistration.tsx:157-165 | `Number(s)` of a blank string is 0, so a blank price compares as 0 in the ordering rule |
| Text.ParseNumberOfDigits | src/components/MaterialSupplierRegistration.tsx:158 | a non-empty string of digits denotes the integer it spells |
| Text.UnsignedDigits | src/components/MaterialSupplierRegistration.tsx:158 | a string of digits without a point is a valid unsigned literal with that integer value |
| Text.Utf16Length | src/components/MaterialSupplierRegistration.tsx:140 | `password.length` counts UTF-16 code units: between one and two per character, and 0 exactly for the empty string |
| Text.BmpUtf16Length | src/components/MaterialSupplierRegistration.tsx:140 | for characters of the Basic Multilingual Plane the length is the number of characters |
| Text.AstralUtf16Length | src/components/MaterialSupplierRegistration.tsx:140 | characters outside the Basic Multilingual Plane count two units each |
| Text.TenThousandParses | src/components/MaterialSupplierRegistration.tsx:158-165 | `Number("10000")` is 10000 |
| Text.FiveThousandParses | src/components/MaterialSupplierRegistration.tsx:158-165 | `Number("5000")` is 5000 |
| Text.DigitLiterals | src/components/MaterialSupplierRegistration.tsx:158 | the digit strings "10000" and "5000" spell 10000 and 5000 |
| Text.WordIsNaN | src/components/VehicleOwnerRegistration.tsx:130 | `Number("abc")` is NaN |
| Text.EmailShapedIffRegex | src/components/MaterialSupplierRegistration.tsx:138 | the index predicate used for the e-mail rule holds exactly when some substring matches `\S+@\S+\.\S+` |
| Text.EmailShapedImpliesRegex | src/components/MaterialSupplierRegistration.tsx:138 | each e-mail-shaped string contains a match of the pattern |
| Text.RegexImpliesEmailShaped | src/components/MaterialSupplierRegistration.tsx:138 | each string containing a match of the pattern is e-mail-shaped |
| Text.EmailShapedMatchesRegex | src/components/MaterialSupplierRegistration.tsx:138 | a witness '@' and '.' give a concrete match of the pattern |
| Text.RegexMatchIsEmailShaped | src/components/MaterialSupplierRegistration.tsx:138 | a concrete match of the pattern gives a witness '@' and '.' |
| Text.NoAtNotEmail | src/components/MaterialSupplierRegistration.tsx:138 | a string without '@' never passes the pattern |
| Lists.Without | src/components/MaterialSupplierRegistration.tsx:95 | `filter(type => type !== x)` drops every occurrence of x and keeps every other element with its multiplicity |
| Lists.Toggle | src/components/MaterialSupplierRegistration.tsx:94-96 | after a toggle, x is present exactly when it was absent before; an absent x is appended at the end; removing a present x keeps every other element with its multiplicity |
| Lists.WithoutAbsent | src/components/MaterialSupplierRegistration.tsx:95 | filtering out an absent element changes nothing |
| Lists.WithoutAppend | src/components/MaterialSupplierRegistration.tsx:95 | filtering distributes over concatenation |
| Lists.WithoutKeepsDistinct | src/components/MaterialSupplierRegistration.tsx:95 | filtering keeps a duplicate-free list duplicate-free |
| Lists.ToggleTwiceRestores | src/components/MaterialSupplierRegistration.tsx:91-97 | toggling an absent type twice restores the original list |
| Lists.ToggleTwiceMovesToEnd | src/components/MaterialSupplierRegistration.tsx:91-97 | toggling a present type twice leaves it once, at the end |
| Lists.ToggleKeepsDistinct | src/components/MaterialSupplierRegistration.tsx:91-97 | the material-type list never gains a duplicate |
| Lists.RemoveAtFromSpec | src/components/MaterialSupplierRegistration.tsx:126 | index-filtering a suffix that starts at `pos` drops exactly the element numbered `index`, or nothing |
| Lists.RemoveAtSpec | src/components/MaterialSupplierRegistration.tsx:123-128 | `removeMaterialImage(i)` drops exactly index i, keeps the order of the rest, and changes nothing for an index out of range |
| Lists.RemoveAt | src/components/MaterialSupplierRegistration.tsx:126 | `filter((_, i) => i !== index)` over the whole list (no contract of its own; `Lists.RemoveAtSpec` states its meaning) |
| Forms.FirstOrNull | src/components/MaterialSupplierRegistration.tsx:114 | `files?.[0] \|\| null` is the first file when one was chosen, null otherwise |
| Forms.ClearError | src/components/MaterialSupplierRegistration.tsx:86-88 | a truthy entry for the edited field becomes `''`; no key is added or removed; every other entry is unchanged |
| Forms.Put | src/components/MaterialSupplierRegistration.tsx:135 | `newErrors.x = message` adds key x exactly when a rule produced a message, stores that message under x, and keeps every other entry |
| Forms.LookupPut | src/components/MaterialSupplierRegistration.tsx:135 | after the assignment, the assigned key holds the new message when there is one, and every key otherwise holds its old entry or none |
| Forms.NoKeysIffEmpty | src/components/MaterialSupplierRegistration.tsx:181 | `Object.keys(newErrors).length === 0` holds exactly when the map has no key |
| FieldRules.RequiredText | src/components/MaterialSupplierRegistration.tsx:135 | a message exactly when the value is blank after trimming |
| FieldRules.RequiredChoice | src/components/MaterialSupplierRegistration.tsx:146 | a message exactly when the select is still empty |
| FieldRules.EmailError | src/components/MaterialSupplierRegistration.tsx:137-138 | "Email is required" exactly when blank; "Email is invalid" exactly when non-blank and not matching the pattern; no error otherwise |
| FieldRules.PasswordError | src/components/MaterialSupplierRegistration.tsx:139-140 | "Password is required" exactly when empty (untrimmed); the length message exactly when its `length`, in UTF-16 code units, is 1 to 5; no error from 6 units |
| FieldRules.ConfirmError | src/components/MaterialSupplierRegistration.tsx:141-142 | the confirmation is required first, then must equal the password |
| FieldRules.PersonalRuleExamples | src/components/MaterialSupplierRegistration.tsx:137-142 | "a@b.com" passes and "not-an-email" is invalid; a blank e-mail is required; matching, differing and missing confirmations |
| FieldRules.PasswordLengthExamples | src/components/MaterialSupplierRegistration.tsx:139-140 | "abc12" is too short and "abc123" long enough |
| FieldRules.EmojiPasswordExample | src/components/MaterialSupplierRegistration.tsx:140 | three emoji make six code units, so they pass the length rule |
| FieldRules.PriceError | src/components/MaterialSupplierRegistration.tsx:157-160 | the required message exactly when blank; the invalid message exactly when non-blank and not a number above 0; no error exactly for a number above 0 |
| FieldRules.PriceRuleExamples | src/components/VehicleOwnerRegistration.tsx:129-132 | "abc" is an invalid price, "5000" a valid one, and an empty input a missing one |
| FieldRules.PriceOrderBroken | src/components/MaterialSupplierRegistration.tsx:165 | `Number(min) >= Number(max)`: true only when both sides are numbers, a blank side counting as 0 (no contract of its own; `MaterialSupplier.PricingErrorsSpec` and `MaterialSupplier.BlankMaxReportsOrder` state its effect) |
| MaterialSupplier.StepOf | src/components/MaterialSupplierRegistration.tsx:256-743 | each field's input is shown on exactly one of the pages 1 to 6 |
| MaterialSupplier.InStepFieldsIffStepOf | src/components/MaterialSupplierRegistration.tsx:256-743 | the fields listed for a step are exactly those whose input that step's page shows |
| MaterialSupplier.WithText | src/components/MaterialSupplierRegistration.tsx:82 | `{...prev, [name]: value}` sets the named field and leaves every other field unchanged |
| MaterialSupplier.ApplyInput | src/components/MaterialSupplierRegistration.tsx:75-83 | a text event sets the named field to the value; a checkbox event sets it to `checked`; no other field changes |
| MaterialSupplier.PersonalErrors | src/components/MaterialSupplierRegistration.tsx:134-143 | the step-1 chain of assignments, in source order (meaning stated by `PersonalEntries`, `CredentialEntries` and `PassesIffSatisfied`) |
| MaterialSupplier.LocationErrors | src/components/MaterialSupplierRegistration.tsx:145-149 | the step-2 chain (meaning stated by `LocationEntries`) |
| MaterialSupplier.MaterialErrors | src/components/MaterialSupplierRegistration.tsx:151-154 | the step-3 chain (meaning stated by `MaterialEntries`) |
| MaterialSupplier.PricingErrors | src/components/MaterialSupplierRegistration.tsx:156-168 | the step-4 chain with the ordering assignment last (meaning stated by `PricingErrorsSpec`) |
| MaterialSupplier.DocumentErrors | src/components/MaterialSupplierRegistration.tsx:170-173 | the step-5 chain (meaning stated by `DocumentEntries`) |
| MaterialSupplier.TermsErrors | src/components/MaterialSupplierRegistration.tsx:175-177 | the step-6 rule (meaning stated by `TermsEntries`) |
| MaterialSupplier.StepErrors | src/components/MaterialSupplierRegistration.tsx:130-178 | `newErrors` for a step: the step's chain, and no entry for a step outside 1 to 6 |
| MaterialSupplier.Passes | src/components/MaterialSupplierRegistration.tsx:181 | `Object.keys(newErrors).length === 0` for the step |
| MaterialSupplier.PersonalEntries | src/components/MaterialSupplierRegistration.tsx:134-136 | step 1: full name and mobile number each hold their own "required" message exactly when blank, or no entry; the NIC number never has one |
| MaterialSupplier.CredentialEntries | src/components/MaterialSupplierRegistration.tsx:137-142 | step 1: e-mail, password and confirmation each hold the first message of their own chain, or no entry when it passes, independently of the other fields |
| MaterialSupplier.LocationEntries | src/components/MaterialSupplierRegistration.tsx:145-149 | step 2: district, city and address each hold their own message, or no entry |
| MaterialSupplier.MaterialEntries | src/components/MaterialSupplierRegistration.tsx:151-154 | step 3: material types and description each hold their own message, or no entry; the brand name never has one |
| MaterialSupplier.PricingUncheckedFields | src/components/MaterialSupplierRegistration.tsx:156-168 | step 4 never reports delivery or the schedule |
| MaterialSupplier.DocumentEntries | src/components/MaterialSupplierRegistration.tsx:170-173 | step 5: images and licence each hold their own message exactly when missing |
| MaterialSupplier.TermsEntries | src/components/MaterialSupplierRegistration.tsx:175-177 | step 6: the terms entry holds its message exactly when the box is unticked |
| MaterialSupplier.PricingErrorsSpec | src/components/MaterialSupplierRegistration.tsx:156-167 | the minimum keeps its own message; the maximum gets the ordering message whenever both bounds are numbers and min ≥ max, whatever its own chain said, and its own message otherwise |
| MaterialSupplier.ValidPricesOutOfOrder | src/components/MaterialSupplierRegistration.tsx:156-167 | two valid prices with min ≥ max give exactly one message, the ordering one on the maximum |
| MaterialSupplier.OutOfOrderPricesExample | src/components/MaterialSupplierRegistration.tsx:156-167 | min "10000" and max "5000" give only the ordering message, on the maximum |
| MaterialSupplier.InOrderPricesExample | src/components/MaterialSupplierRegistration.tsx:156-167 | min "5000" and max "10000" give no message |
| MaterialSupplier.BlankMaxReportsOrder | src/components/MaterialSupplierRegistration.tsx:161-167 | a blank maximum against a minimum that is a number ≥ 0 reports the ordering message, not "Maximum price is required" |
| MaterialSupplier.StepErrorsKeys | src/components/MaterialSupplierRegistration.tsx:130-178 | a step reports messages only for fields shown on that step |
| MaterialSupplier.PassesIffSatisfied | src/components/MaterialSupplierRegistration.tsx:130-181 | a step's map is empty exactly when its demands hold. Step 1: non-blank name, mobile and a well-formed e-mail, a password of at least 6 UTF-16 code units, an equal confirmation; the NIC is not checked. Step 4: two positive prices with min < max |
| MaterialSupplier.AgreeOnStepFields | src/components/MaterialSupplierRegistration.tsx:130-178 | agreeing on a step's fields means agreeing on the record components its rules read |
| MaterialSupplier.StepErrorsLocal | src/components/MaterialSupplierRegistration.tsx:130-178 | a step's messages depend only on that step's fields |
| MaterialSupplier.EditKeepsEarlierSteps | src/components/MaterialSupplierRegistration.tsx:256-743 | editing a field of the current step or a later one keeps every earlier step passing |
| MaterialSupplier.AllStepsPassIffSatisfied | src/components/MaterialSupplierRegistration.tsx:130-181 | all six steps pass exactly when all six steps' demands hold |
| MaterialSupplier.MaterialSupplierRegistration.constructor | src/components/MaterialSupplierRegistration.tsx:15-51 | starts at step 1: empty strings and lists, no licence, delivery included, terms not agreed, no errors |
| MaterialSupplier.MaterialSupplierRegistration.HandleInputChange | src/components/MaterialSupplierRegistration.tsx:75-89 | the record becomes `ApplyInput`; only the edited field's error is blanked; editing a field of the current or a later step keeps the invariant |
| MaterialSupplier.MaterialSupplierRegistration.HandleMaterialTypeToggle | src/components/MaterialSupplierRegistration.tsx:91-102 | only `materialTypes` changes, to its toggle; only its error is blanked |
| MaterialSupplier.MaterialSupplierRegistration.ToggleDeliveryIncluded | src/components/MaterialSupplierRegistration.tsx:591 | flips `deliveryIncluded` and nothing else |
| MaterialSupplier.MaterialSupplierRegistration.HandleFileUpload | src/components/MaterialSupplierRegistration.tsx:104-121 | images: every chosen file is appended in order; licence: replaced by the first file, or null; only that field's error is blanked |
| MaterialSupplier.MaterialSupplierRegistration.RemoveMaterialImage | src/components/MaterialSupplierRegistration.tsx:123-128 | the image list becomes `RemoveAt(images, index)`; errors are untouched |
| MaterialSupplier.MaterialSupplierRegistration.ValidateStep | src/components/MaterialSupplierRegistration.tsx:130-182 | `errors` is replaced wholesale by the step's map, and the result is true exactly when the step passes |
| MaterialSupplier.MaterialSupplierRegistration.NextStep | src/components/MaterialSupplierRegistration.tsx:184-188 | errors become the current step's map; the step advances by one, capped at 6, exactly when that map is empty, and stays otherwise; the invariant is kept |
| MaterialSupplier.MaterialSupplierRegistration.PrevStep | src/components/MaterialSupplierRegistration.tsx:190-192 | the step goes back by one, floored at 1, without validating; errors and the record are untouched |
| MaterialSupplier.MaterialSupplierRegistration.HandleSubmit | src/components/MaterialSupplierRegistration.tsx:194-203 | re-checks only step 6. The record is emitted with role and type `material_supplier` exactly when the terms are agreed. Submitted from step 6 after being reached through the steps, an emitted record passes all six steps; from an earlier page nothing is concluded |
| VehicleOwner.StepOf | src/components/VehicleOwnerRegistration.tsx:221-668 | each field's input is shown on exactly one of the pages 1 to 6 |
| VehicleOwner.InStepFieldsIffStepOf | src/components/VehicleOwnerRegistration.tsx:221-668 | the fields listed for a step are exactly those whose input that step's page shows |
| VehicleOwner.WithText | src/components/VehicleOwnerRegistration.tsx:82 | `{...prev, [name]: value}` sets the named field and leaves every other field unchanged |
| VehicleOwner.ApplyInput | src/components/VehicleOwnerRegistration.tsx:75-83 | a text event sets the named field; a checkbox event sets `checked`; no other field changes |
| VehicleOwner.PersonalErrors | src/components/VehicleOwnerRegistration.tsx:104-114 | the step-1 chain of assignments, in source order (meaning stated by `PersonalEntries`, `CredentialEntries` and `PassesIffSatisfied`) |
| VehicleOwner.LocationErrors | src/components/VehicleOwnerRegistration.tsx:116-120 | the step-2 chain (meaning stated by `LocationEntries`) |
| VehicleOwner.VehicleErrors | src/components/VehicleOwnerRegistration.tsx:122-126 | the step-3 chain (meaning stated by `VehicleEntries`) |
| VehicleOwner.RentalErrors | src/components/VehicleOwnerRegistration.tsx:128-133 | the step-4 chain (meaning stated by `RentalEntries`) |
| VehicleOwner.MediaErrors | src/components/VehicleOwnerRegistration.tsx:135-138 | the step-5 chain (meaning stated by `MediaEntries`) |
| VehicleOwner.TermsErrors | src/components/VehicleOwnerRegistration.tsx:140-142 | the step-6 rule (meaning stated by `TermsEntries`) |
| VehicleOwner.StepErrors | src/components/VehicleOwnerRegistration.tsx:100-143 | `newErrors` for a step: the step's chain, and no entry for a step outside 1 to 6 |
| VehicleOwner.Passes | src/components/VehicleOwnerRegistration.tsx:146 | `Object.keys(newErrors).length === 0` for the step |
| VehicleOwner.PersonalEntries | src/components/VehicleOwnerRegistration.tsx:105-107 | step 1: full name, NIC number and mobile number each hold their own "required" message exactly when blank, or no entry |
| VehicleOwner.CredentialEntries | src/components/VehicleOwnerRegistration.tsx:108-113 | step 1: e-mail, password and confirmation each hold the first message of their own chain, or no entry when it passes |
| VehicleOwner.LocationEntries | src/components/VehicleOwnerRegistration.tsx:116-120 | step 2: district, city and address each hold their own message, or no entry |
| VehicleOwner.VehicleEntries | src/components/VehicleOwnerRegistration.tsx:122-126 | step 3: type, model and description each hold their own message, or no entry; the registration number never has one |
| VehicleOwner.RentalEntries | src/components/VehicleOwnerRegistration.tsx:128-133 | step 4: the price holds the first message of its chain, or no entry |
| VehicleOwner.RentalUncheckedFields | src/components/VehicleOwnerRegistration.tsx:128-133 | step 4 never reports the unit or the schedule |
| VehicleOwner.MediaEntries | src/components/VehicleOwnerRegistration.tsx:135-138 | step 5: each image holds its own message exactly when missing |
| VehicleOwner.TermsEntries | src/components/VehicleOwnerRegistration.tsx:140-142 | step 6: the terms entry holds its message exactly when the box is unticked |
| VehicleOwner.StepErrorsKeys | src/components/VehicleOwnerRegistration.tsx:100-143 | a step reports messages only for fields shown on that step |
| VehicleOwner.PassesIffSatisfied | src/components/VehicleOwnerRegistration.tsx:100-146 | a step's map is empty exactly when its demands hold. Step 1 also needs a non-blank NIC. Step 3 needs a vehicle type, a model and a description, not a registration number. Step 4 needs one positive price; the unit is never checked. Step 5 needs both images |
| VehicleOwner.ValidPriceExample | src/components/VehicleOwnerRegistration.tsx:128-133 | a price of "5000" passes step 4 |
| VehicleOwner.BlankPriceExample | src/components/VehicleOwnerRegistration.tsx:128-133 | an empty price gets "Price is required" |
| VehicleOwner.WordPriceExample | src/components/VehicleOwnerRegistration.tsx:128-133 | a price of "abc" gets "Please enter a valid price" |
| VehicleOwner.AgreeOnStepFields | src/components/VehicleOwnerRegistration.tsx:100-143 | agreeing on a step's fields means agreeing on the record components its rules read |
| VehicleOwner.StepErrorsLocal | src/components/VehicleOwnerRegistration.tsx:100-143 | a step's messages depend only on that step's fields |
| VehicleOwner.EditKeepsEarlierSteps | src/components/VehicleOwnerRegistration.tsx:221-668 | editing a field of the current step or a later one keeps every earlier step passing |
| VehicleOwner.AllStepsPassIffSatisfied | src/components/VehicleOwnerRegistration.tsx:100-146 | all six steps pass exactly when all six steps' demands hold |
| VehicleOwner.VehicleOwnerRegistration.constructor | src/components/VehicleOwnerRegistration.tsx:15-51 | starts at step 1: empty strings, unit "hour", null files, terms not agreed, no errors |
| VehicleOwner.VehicleOwnerRegistration.HandleInputChange | src/components/VehicleOwnerRegistration.tsx:75-89 | the record becomes `ApplyInput`; only the edited field's error is blanked; the invariant is kept for edits on the current or a later step |
| VehicleOwner.VehicleOwnerRegistration.HandleFileUpload | src/components/VehicleOwnerRegistration.tsx:91-98 | the named image field becomes the first chosen file, or null; only its error is blanked |
| VehicleOwner.VehicleOwnerRegistration.ValidateStep | src/components/VehicleOwnerRegistration.tsx:100-147 | `errors` is replaced wholesale by the step's map, and the result is true exactly when the step passes |
| VehicleOwner.VehicleOwnerRegistration.NextStep | src/components/VehicleOwnerRegistration.tsx:149-153 | errors become the current step's map; the step advances by one, capped at 6, exactly when that map is empty; the invariant is kept |
| VehicleOwner.VehicleOwnerRegistration.PrevStep | src/components/VehicleOwnerRegistration.tsx:155-157 | the step goes back by one, floored at 1, without validating; errors are untouched |
| VehicleOwner.VehicleOwnerRegistration.HandleSubmit | src/components/VehicleOwnerRegistration.tsx:159-168 | re-checks only step 6. It emits the record with role and type `vehicle_owner` exactly when the terms are agreed. Submitted from step 6 after being reached through the steps, an emitted record passes all six steps; from an earlier page nothing is concluded |
| Root.FromSupplier | src/App.tsx:80-98 | of the supplier record the handler finds role, e-mail, address and district, and no `name`, `phone` or `businessName` |
| Root.FromVehicleOwner | src/App.tsx:80-98 | of the vehicle-owner record the handler finds role, e-mail, address and district, and no `name`, `phone` or `businessName` |
| Root.OrEmpty | src/App.tsx:94-99 | `value \|\| ''` is the value when present, `''` otherwise |
| Root.NewUser | src/App.tsx:78-85 | the new user is authenticated, takes the clock value as its id, and copies name, e-mail, phone and role from the record |
| Root.NewPartner | src/App.tsx:91-122 | the new partner has type equal to the role, status "pending", rating 0, 0 jobs, the record's contact data, `''` for a missing business name, address or district, and empty lists and documents |
| Root.Merge | src/App.tsx:151 | `{...user, ...updatedData}`: each key present in the patch overrides, the others are kept |
| Root.MergeEmpty | src/App.tsx:151 | an empty patch leaves the user unchanged |
| Root.MergeIdempotent | src/App.tsx:151 | applying the same patch twice is the same as applying it once |
| Root.Render | src/App.tsx:155-197 | `renderCurrentView`: the page for the current view, with the home page when its session value is missing (meaning stated by `RenderFallsBackHome`, `RenderShowsHeldValues`, `RenderSelectsView`, `RenderPageKind` and `RenderDistinguishesViews`) |
| Root.RenderFallsBackHome | src/App.tsx:155-197 | the home page is shown exactly for the home view, for dashboard or profile without a user, for the partner dashboard without a partner, and for vehicle details without a selected vehicle |
| Root.RenderShowsHeldValues | src/App.tsx:176-193 | the dashboard, profile, partner and vehicle pages show exactly the user, partner or vehicle held in the state |
| Root.RenderSelectsView | src/App.tsx:157-193 | every other view with its session value present gets a page other than the home page, and that page belongs to the view (`ViewOf`, the independent page-to-view table); confirmation gets the stored record |
| Root.RenderPageKind | src/App.tsx:155-197 | the page shown belongs to the current view, or is the home page exactly on a missing session value |
| Root.RenderDistinguishesViews | src/App.tsx:157-193 | two different views, each with its session value present, show different pages |
| Root.WizardUserLacksNameAndPhone | src/App.tsx:80-98 | a user confirmed from either wizard's record has no name and no phone; the partner has no owner name and an empty business name |
| Root.WizardRecordsAreBusiness | src/App.tsx:89 | both wizard roles are business roles, so confirming their records creates a partner |
| Root.App.constructor | src/App.tsx:24-32 | starts on the home view with no user, partner, vehicle or record, and every flag false |
| Root.App.HandleLogin | src/App.tsx:34-38 | sets the user, closes the auth modal and shows that user's dashboard; nothing else changes |
| Root.App.HandleLogout | src/App.tsx:40-45 | clears user and partner, goes home, closes the menu; nothing else changes |
| Root.App.HandleNavigation | src/App.tsx:47-50 | sets the view and closes the menu |
| Root.App.HandleShowLogin | src/App.tsx:52-54 | opens the auth modal |
| Root.App.HandleShowSignUp | src/App.tsx:56-58 | shows the sign-up view |
| Root.App.HandleShowVehicleRegistration | src/App.tsx:60-62 | opens the vehicle-owner wizard |
| Root.App.HandleShowMaterialRegistration | src/App.tsx:64-66 | opens the supplier wizard |
| Root.App.HandleRegistration | src/App.tsx:68-71 | stores the record and shows the confirmation page with it |
| Root.App.HandleConfirmationAction | src/App.tsx:73-130 | Home goes home and clears the record, creating no user. The dashboard creates the user from the record, with the first clock read as its id, and clears the record. A business role also gets a pending partner, with the second clock read as its id, and the partner dashboard; any other role gets the dashboard and keeps the partner. The dashboard action with no record changes nothing |
| Root.App.HandleVehicleOwnerRegistration | src/App.tsx:132-136 | stores the wizard's record, closes only that wizard, shows confirmation |
| Root.App.HandleMaterialSupplierRegistration | src/App.tsx:138-142 | stores the wizard's record, closes only that wizard, shows confirmation |
| Root.App.HandleVehicleSelect | src/App.tsx:144-147 | remembers the vehicle and shows its details page |
| Root.App.HandleUpdateProfile | src/App.tsx:149-153 | merges the patch over the user when one exists, otherwise changes nothing |
| Root.App.ToggleMenu | src/App.tsx:205 | flips the menu flag |
| Root.App.CloseAuthModal | src/App.tsx:217 | closes the auth modal |
| Root.App.CloseVehicleRegistration | src/App.tsx:223 | closes the vehicle-owner wizard; its state is not reset |
| Root.App.CloseMaterialRegistration | src/App.tsx:229 | closes the supplier wizard; its state is not reset |
| Root.App.BackToDashboard | src/App.tsx:183 | the back buttons of the vehicle-details and profile pages show the dashboard |

## Left out

- JSX, styling, icons, the progress bar, the step titles and the show-password toggles are rendering only.
- `isOpen` gating: a closed wizard renders nothing but keeps its state. The model keeps the state and does not model rendering.
- `IsSpace` covers the ASCII whitespace only. `trim()` and `\S` also treat the Unicode spaces and line separators as whitespace.
- `Number(...)` is modelled for blank strings and signed decimal literals. Hex, binary and octal literals, exponents, `Infinity` and floating-point rounding are not modelled; prices are exact reals.
- Files are opaque tokens. Their contents, the previews made with `URL.createObjectURL` and the browser's `FileList` are not modelled. `HandleFileUpload` always receives a list of files. The supplier's `files` null case would set `materialImages` to null and is not modelled.
- `Date.now()` and `new Date().toISOString()` are parameters of `HandleConfirmationAction`. The two `Date.now()` reads, for the user's id and for the partner's id, are two parameters, `now` and `partnerNow`, so the ids need not be equal; `isoNow` is the registration date.
- The district, vehicle-type and material-type catalogues are left out, because no rule checks membership.
- `registrationData` is kept as the seven keys the confirmation handler reads. The rest of the submitted record is passed to the confirmation page only for display.
- `AuthModal`, `ConfirmationPage`, `UserDashboard` and the child pages imported by `App` are not part of this model. They only render or simulate a login, which reaches the model as `HandleLogin`.
- A handler that throws is modelled only for the confirmation dashboard branch with no record, where nothing changes.
- ValidateStep: `validateStep` fills `newErrors` one assignment at a time. The model writes those assignments as the chain of `Put` calls in the step's error function, which the method assigns to `errors`, rather than as statements of the method.
- HandleSubmit: both forms send `onSubmit` to `handleSubmit`, and before step 6 the footer has only a `type="button"` button. On a page whose only text-like input is the supplier's city (step 2) or brand name (step 3), or the vehicle owner's city (step 2) or price (step 4), pressing Enter submits the form implicitly. `handleSubmit` checks only step 6, so from such a page a record that fails an earlier step is emitted once the terms have been ticked. HTML implicit submission is not modelled: the method's contract holds from any step, but its all-steps conclusion is stated only when `currentStep` is 6.
- HandleInputChange: the model accepts only the events the pages emit: text for text, select and text-area fields, and the checkbox for `agreeToTerms`.
