# Finrp core, modelled in Dafny

Finrp is a Next.js/React back office for Indian small businesses. It covers invoicing, customers, compliance filings, payments, company documents, an AI "virtual CFO" report and an AI business-advisor chat. This project models the parts of it that carry rules, one Dafny module per source file:

- **Invoice numbering and the invoice store.**
  - `BillingService` models the id scan in `services/billingService.ts`: ids that split into three parts contribute their maximum sequence, and the next id is `INV-<year>-<max+1, padded>`.
  - `MockApi` models the in-memory upserting store and its own next-id rule in `services/mockApi.ts`. On the seed data, that rule collides with an existing id.
- **Amounts.**
  - `Amounts` defines one recursive subtotal with 18% tax.
  - `ItemsTable`, `PdfPreview` and `BillingPage` prove that each copy of the formula agrees with it.
- **Invoice editing and listing.**
  - Item rows (`ItemsTable`).
  - The invoice editor and its save rule (`InvoiceCreator`).
  - Search, status filter, sort, the sort-toggle rule and the outstanding totals (`BillingPage`).
- **Tenant-scoped server routes.**
  - `InvoicesRoute`, `CustomersRoute`, `BusinessProfileRoute` and `ProfileRoute`, plus `OnboardingStatus` for `lib/onboarding.ts`.
  - Each route is an authentication gate, then validation, then reads and writes on a per-user table held in `Store`.
  - The signed-in user is an `Option` and a failing database is a flag.
  - `Js` models the dynamic values a JSON body carries: `undefined`, `null`, falsy strings, `Number`, `parseFloat` and `parseInt` with no radix (where a `0x` prefix switches to hexadecimal). Numbers and arrays are read through the text they print.
- **Validators.**
  - The onboarding form, including its e-mail pattern as an explicit matcher (`OnboardingForm`).
  - The payment form: card, expiry, CVC, account number and IFSC rules (`Payment`).
- **Small state machines.**
  - Profile-driven compliance tasks, sync and payment success (`Compliance`).
  - Document upload statuses (`Documents`).
  - The advisor chat history (`AdvisorChat`).
  - Hash routing with its sign-in guard (`AppRouting`).
  - The theme toggle and its storage (`Theme`).
  - The stored business profile and page dispatch (`DashboardLayout`).
  - Deadline selection (`ServicesDashboard`).
  - The progress bar (`ProgressBar`).
- **The CFO report parser** (`CfoParser`): line-anchored field matches, marker-delimited sections and bullet-list cleaning.

Shared modules:
- `Wrappers`: `Option` and `Result`.
- `Text`: string helpers with JavaScript semantics, such as `trim`, `split`, `toLowerCase` and `padStart`.
- `Domain`: the records of `types.ts`.
- `Sorting`: an insertion sort specified by sortedness and permutation.

Components whose state the source updates in place are classes with `modifies` clauses. Pure derivations are functions with lemmas.

Some modelling choices:
- Amounts are `real`s.
- The current year, the clock, `Math.random` and every network, database or AI answer are parameters.
- Timers and awaited promises become sequential steps.

## Model

| member | source | states |
|---|---|---|
| BillingService.GetInvoices | services/billingService.ts:3-16 | the listing on an OK response; `[]` on a non-OK response or a thrown error |
| BillingService.GetCustomers | services/billingService.ts:18-28 | the customers on an OK response; `[]` otherwise |
| BillingService.SaveInvoice | services/billingService.ts:30-50 | the payload is the invoice plus `customerId = invoice.customer.id`; success exactly on an OK response, with the server's body; a non-OK response fails |
| BillingService.NextInvoiceId | services/billingService.ts:52-72 | the loop computes `INV-<year>-<max+1 padded>`, with the maximum at least 0 and every parsed sequence below the new number |
| BillingService.MaxSequenceBounds | services/billingService.ts:58-69 | the maximum is at least 0 and at least every sequence parsed from a three-part id |
| BillingService.MaxSequenceAttained | services/billingService.ts:58-69 | the maximum is 0 or the sequence of some id in the listing |
| BillingService.MaxSequenceIgnores | services/billingService.ts:62-66 | an id that does not split into three parts, or whose third part is not a number, leaves the maximum unchanged |
| BillingService.SplitThree | services/billingService.ts:62-63 | three dash-free parts joined by dashes split back into exactly those three parts |
| BillingService.FormatIdParts | services/billingService.ts:71 | a generated id splits into `INV`, the year and the padded number |
| BillingService.SequenceOfFormatId | services/billingService.ts:62-71 | round trip: the sequence parsed back from a generated id is the number it was made from |
| BillingService.NextIdIsFresh | services/billingService.ts:58-71 | the new id carries max+1, which exceeds every parsed sequence, so no listed id equals it |
| BillingService.PadNeverTruncates | services/billingService.ts:71 | a number of three or more digits is printed whole |
| BillingService.FormatOneThousand | services/billingService.ts:71 | sequence 1000 prints as `INV-2024-1000` |
| BillingService.NoYearFilter | services/billingService.ts:57-71 | `INV-2023-007` in 2024 gives `INV-2024-008` |
| BillingService.MaxNotCount | services/billingService.ts:58-71 | `INV-2024-001` and `INV-2024-003` give `INV-2024-004`: max+1, not count+1 |
| BillingService.FailureGivesFirstNumber | services/billingService.ts:3-16 | for every year, any failed fetch yields an empty listing and hence `INV-<year>-001` |
| MockApi.SeedCustomers | services/mockApi.ts:4-9 | the four seed customers |
| MockApi.SeedInvoices | services/mockApi.ts:11-55 | the four seed invoices |
| MockApi.FindIndex | services/mockApi.ts:68 | `findIndex`: the first position holding the id, or none when no entry has it |
| MockApi.UpsertExisting | services/mockApi.ts:68-70 | saving an existing id replaces the entry at its index; length and every other entry unchanged |
| MockApi.UpsertNew | services/mockApi.ts:71-72 | saving a new id prepends it: one longer, at index 0, the old list after it |
| MockApi.UpsertKeepsIdsUnique | services/mockApi.ts:68-73 | unique ids stay unique, and the saved invoice is in the store |
| MockApi.InvoiceStore.constructor | services/mockApi.ts:11-55 | the store starts with the seed invoices |
| MockApi.InvoiceStore.GetInvoices | services/mockApi.ts:57-59 | returns the store's invoices in store order and changes nothing; the copy is of the list only (see Left out) |
| MockApi.InvoiceStore.GetCustomers | services/mockApi.ts:61-63 | returns the seed customers |
| MockApi.InvoiceStore.SaveInvoice | services/mockApi.ts:65-77 | resolves with its argument; the store becomes the upsert of the old store |
| MockApi.InvoiceStore.GetNextInvoiceId | services/mockApi.ts:79-87 | the id built from `invoices[0]` only, in year 2024; `INV-2024-001` on an empty store |
| MockApi.MockFormat | services/mockApi.ts:83 | the mock's format is the listing rule's format for year 2024 |
| MockApi.MockNextIdEmpty | services/mockApi.ts:82-83 | an empty store gives `INV-2024-001` |
| MockApi.LastSequenceAgrees | services/mockApi.ts:82 | where the first id has three parts, the mock reads the same sequence as the listing rule |
| MockApi.MockNextIdReadsFirstOnly | services/mockApi.ts:82 | two stores with the same first entry give the same next id |
| MockApi.MockNextIdNaN | services/mockApi.ts:82-83 | a first id without a third part gives `INV-2024-NaN` |
| MockApi.SeedIdsUnique | services/mockApi.ts:11-55 | the seed ids are distinct |
| MockApi.SeedNextIdCollides | services/mockApi.ts:11-87 | on the seed data the next id is `INV-2024-002`, the id of the second invoice, so saving under it overwrites that invoice in place |
| MockApi.SeedFirstSequence | services/mockApi.ts:13 | the first seed id carries sequence 1 |
| Amounts.SubtotalAppend | components/InvoiceItemsTable.tsx:35 | the subtotal of a concatenation is the sum of the two subtotals |
| Amounts.ReduceIsSubtotal | components/InvoiceItemsTable.tsx:35 | the `reduce` fold started at `acc` equals `acc` plus the reference subtotal |
| Amounts.SubtotalNonNegative | components/InvoiceItemsTable.tsx:35-37 | with non-negative quantities and rates, subtotal and tax are non-negative and the total is at least the subtotal |
| Amounts.CopiesAgree | components/BillingPage.tsx:108-110 | the item table's totals, the preview's `calculateTotal(false/true)`, the list's `× 1.18` total and the reminder's total (components/AIAssistant.tsx:25) all equal the reference subtotal and total |
| Amounts.EmptyIsZero | components/InvoiceItemsTable.tsx:35-37 | an empty item list gives subtotal, tax and total of 0 in every copy |
| Amounts.WebDevelopmentExample | services/mockApi.ts:18 | the 40 × 500 row gives 20000 + 3600 = 23600 |
| ItemsTable.NumericInput | components/InvoiceItemsTable.tsx:55-56 | `parseFloat(value) \|\| 0`: text that does not parse stores 0, otherwise the parsed number |
| ItemsTable.ChangeItem | components/InvoiceItemsTable.tsx:13-17 | `handleItemChange`: only item `index` changes, the length is kept, its id is kept; an index with no item is an error |
| ItemsTable.ChangeItemKeepsOtherFields | components/InvoiceItemsTable.tsx:13-17 | the edited field takes the new value and the other two fields of the row are kept |
| ItemsTable.AddItem | components/InvoiceItemsTable.tsx:19-24 | `handleAddItem`: the old items unchanged, then one item with description '', quantity 1, rate 0 |
| ItemsTable.AddItemKeepsSubtotal | components/InvoiceItemsTable.tsx:19-24 | adding the blank row leaves the subtotal unchanged |
| ItemsTable.RemoveItem | components/InvoiceItemsTable.tsx:26-29 | `handleRemoveItem(i)`: exactly position `i` removed, the others in order; an out-of-range `i` changes nothing |
| ItemsTable.RemoveItemSubtotal | components/InvoiceItemsTable.tsx:26-37 | removing a row takes exactly its amount off the subtotal |
| ItemsTable.RowAmountsSum | components/InvoiceItemsTable.tsx:31-37 | the table's subtotal is the sum of the row amounts, tax is 18% of it and the total is their sum |
| PdfPreview.Issuer | components/InvoicePDFPreview.tsx:55-130 | with no profile, every issuer line shows its fixed placeholder; a profile's non-empty name is shown in the header, the From block and the footer |
| PdfPreview.PrintedTotals | components/InvoicePDFPreview.tsx:20-25 | printed subtotal plus printed tax equals the printed total, and they are the reference subtotal and total |
| PdfPreview.RowAmountsAddUp | components/InvoicePDFPreview.tsx:20-100 | the printed row amounts, added up, give exactly the printed subtotal |
| BillingPage.RequestSort | components/BillingPage.tsx:162-168 | the new key is the requested one; the direction is descending exactly when the same key was ascending |
| BillingPage.RequestSortCycles | components/BillingPage.tsx:162-168 | clicking the same column goes ascending, descending, ascending |
| BillingPage.EmptyQueryMatchesAll | components/BillingPage.tsx:116-122 | the empty query is a substring of every lower-cased id, so an empty search keeps everything |
| BillingPage.KeyLessAsymmetric | components/BillingPage.tsx:149-155 | no two invoices are each smaller than the other under a column |
| BillingPage.KeyLessComparable | components/BillingPage.tsx:149-155 | the column's strict order is negatively transitive |
| BillingPage.CompareIsTotalPreorder | components/BillingPage.tsx:130-156 | the comparator, in either direction and for every column, is total and transitive |
| BillingPage.SortedIsOrdered | components/BillingPage.tsx:130-156 | a list sorted by the comparator has no smaller key after a larger one (ascending), nor a larger after a smaller (descending) |
| BillingPage.InvoiceList.constructor | components/BillingPage.tsx:87-92 | the list starts empty, with filter 'All', an empty search and issue date descending |
| BillingPage.InvoiceList.SetInvoices | components/BillingPage.tsx:101-104 | the loaded listing replaces the invoices; the view settings are kept |
| BillingPage.InvoiceList.SetSearchQuery | components/BillingPage.tsx:91 | only the query changes |
| BillingPage.InvoiceList.SetFilter | components/BillingPage.tsx:90 | only the status filter changes |
| BillingPage.InvoiceList.RequestSortBy | components/BillingPage.tsx:162-168 | only the sort configuration changes, as `RequestSort` says |
| BillingPage.InvoiceList.ProcessedInvoices | components/BillingPage.tsx:112-160 | the result holds exactly the invoices matching the search and the status filter, as a permutation of the filtered list, ordered by the chosen column and direction |
| BillingPage.SortResult | components/BillingPage.tsx:112-160 | the sorted visible list is a permutation of the filtered list, holds exactly the visible invoices, and is ordered |
| BillingPage.FilterTwice | components/BillingPage.tsx:115-127 | applying the search filter then the status filter keeps what the combined test keeps |
| BillingPage.OutstandingSplits | components/BillingPage.tsx:191-193 | Total Outstanding counts and sums the Pending and Overdue invoices; its count and worth are the Overdue card's plus those of the Pending invoices |
| BillingPage.FilterPartition | components/BillingPage.tsx:191-193 | outstanding is exactly Overdue or Pending, never both, so counts and sums split |
| InvoiceCreator.Creator.constructor | components/InvoiceCreator.tsx:20-29 | an existing invoice is edited as given; a new one starts as a Draft with one item {id '1', description '', quantity 1, rate 0}; no customers yet; a next number is awaited exactly when the invoice has no non-empty id |
| InvoiceCreator.Creator.CustomersLoaded | components/InvoiceCreator.tsx:27 | the fetched customers replace the list; the invoice is untouched |
| InvoiceCreator.Creator.NextIdLoaded | components/InvoiceCreator.tsx:25-30 | when a number was awaited, it is written into the id and nothing else changes; an invoice that already had an id keeps it; afterwards nothing is awaited |
| InvoiceCreator.Creator.InputChange | components/InvoiceCreator.tsx:33-35 | exactly the named field is replaced |
| InvoiceCreator.Creator.CustomerChange | components/InvoiceCreator.tsx:37-42 | an unknown customer id leaves the invoice unchanged; a known one sets the first customer with that id |
| InvoiceCreator.Creator.NewCustomerAdded | components/InvoiceCreator.tsx:44-47 | the new customer is appended to the list and becomes the invoice's customer |
| InvoiceCreator.Creator.Save | components/InvoiceCreator.tsx:49-56 | an invoice is handed on exactly when id, customer and a non-empty item list are present; it carries the status argument and the form's other fields; dates are not required |
| InvoiceCreator.Creator.AiAssist | components/InvoiceCreator.tsx:58-61 | remembers the target of the generated text |
| InvoiceCreator.Creator.GeneratedText | components/InvoiceCreator.tsx:63-71 | notes text is appended to the existing notes; item text replaces only that item's description; a missing item throws and changes nothing |
| InvoiceCreator.SaveExistingInvoice | components/InvoiceCreator.tsx:21-56 | an existing invoice with a number and an item passes the save check |
| InvoiceCreator.NewDraftNotSaveable | components/InvoiceCreator.tsx:21-56 | a new form, before a number and a customer are set, cannot be saved |
| InvoicesRoute.FindCustomer | app/api/invoices/route.ts:17-19 | the attached customer is one whose id the invoice names, or none when no customer has it |
| InvoicesRoute.Attach | app/api/invoices/route.ts:17-20 | one view per row, in order, each carrying its row |
| InvoicesRoute.NewestFirstIsTotalPreorder | app/api/invoices/route.ts:21 | ordering by `createdAt` descending is total and transitive |
| InvoicesRoute.UserInvoicesSpec | app/api/invoices/route.ts:15-22 | the listing is a permutation of the caller's rows, holds exactly the rows with the caller's `userId`, newest first |
| InvoicesRoute.CreatedRowListed | app/api/invoices/route.ts:15-22 | a created row appears in its owner's listing and leaves every other tenant's listing unchanged |
| InvoicesRoute.HandleGet | app/api/invoices/route.ts:7-29 | 401 without a session; 500 when the store fails; otherwise the body is exactly the caller's invoices, newest first, each with the customer its `customerId` names |
| InvoicesRoute.CreateItems | app/api/invoices/route.ts:52-56 | `items.map(...)` succeeds exactly on an array with no null or undefined element, with one row per input item |
| InvoicesRoute.ItemRows | app/api/invoices/route.ts:52-56 | one row per element, and none when an element cannot be read |
| InvoicesRoute.ItemRowsFields | app/api/invoices/route.ts:52-56 | each item row keeps its input's description and quantity, takes `Number(rate)`, and has no client id |
| InvoicesRoute.HandlePost | app/api/invoices/route.ts:31-70 | 401 before the body is read; 500 for an unusable body (e.g. no items array) or a store failure, with nothing written; otherwise exactly one new row appended, owned by the session's user |
| InvoicesRoute.OwnerFromSession | app/api/invoices/route.ts:40-50 | a `userId` in the body has no effect on the created row |
| InvoicesRoute.EmptyItemsAccepted | app/api/invoices/route.ts:42-63 | a body with an empty item list is accepted: there is no validation |
| CustomersRoute.SeedRows | app/api/customers/route.ts:28-33 | four rows, each a mock customer's name, email and address under the caller's `userId` |
| CustomersRoute.ByNameIsTotalPreorder | app/api/customers/route.ts:24 | ordering by name ascending is total and transitive |
| CustomersRoute.UserCustomersSpec | app/api/customers/route.ts:22-25 | the listing is a permutation of the caller's rows, holds exactly the rows with the caller's `userId`, in name order |
| CustomersRoute.SeedingResult | app/api/customers/route.ts:27-39 | after seeding a tenant with no customers, its listing is exactly the four seeded rows, and every other tenant's listing is unchanged |
| CustomersRoute.HandleGet | app/api/customers/route.ts:14-46 | 401 with the store unchanged without a session; a tenant with customers gets them in name order and nothing is written; a tenant without gets exactly the four mock customers created once and listed; each store failure gives 500 |
| OnboardingStatus.CheckOnboardingStatus | lib/onboarding.ts:4-20 | signed out gives {false, false} with no lookup; signed in gives needsOnboarding exactly when no profile is stored, the profile or null; a failing lookup is not caught |
| OnboardingStatus.NeedsOnboardingImpliesAuthenticated | lib/onboarding.ts:7-19 | needsOnboarding implies isAuthenticated, with profile null |
| OnboardingStatus.SavingEndsOnboarding | lib/onboarding.ts:11-19 | storing a profile for a user ends that user's onboarding and changes no one else's |
| BusinessProfileRoute.HandleGet | app/api/business-profile/route.ts:7-49 | 401 without a session; otherwise `exists` is true exactly when the caller has a stored profile and the lookup did not fail, with that profile; a lookup error answers `exists: false`; nothing is written |
| BusinessProfileRoute.NormaliseCanonical | app/api/business-profile/route.ts:83-87 | every stored profile has industry and business type truthy or null, `hasEmployees` truthy or false, numbers (whole for the employee count), NaN or null for the two numeric columns |
| BusinessProfileRoute.NormaliseBlankFields | app/api/business-profile/route.ts:99-103 | empty industry and business type become null, a missing `hasEmployees` false, missing numbers null |
| BusinessProfileRoute.TurnoverBandIsNaN | app/api/business-profile/route.ts:85 | a turnover band such as "< 20 Lakh" is stored as NaN |
| BusinessProfileRoute.WhitespaceNamePasses | app/api/business-profile/route.ts:63-65 | whitespace-only required fields are truthy, so they pass the check |
| BusinessProfileRoute.HandlePost | app/api/business-profile/route.ts:51-131 | 401 before the body is read; 500 for an unreadable body; 400 for a falsy name, email or address, before any store access; a store error gives 500 with nothing written; otherwise the caller's profile becomes the normalised body, whether updated or created |
| BusinessProfileRoute.SaveKeepsOneProfile | app/api/business-profile/route.ts:69-106 | after a save the caller has exactly one profile, the one written, and other owners' profiles are untouched |
| ProfileRoute.DefaultName | app/api/profile/route.ts:29 | a non-empty name: the trimmed "first last", or 'My Business' |
| ProfileRoute.BlankNameDefault | app/api/profile/route.ts:29 | a user with no name parts, or blank ones, gets 'My Business' |
| ProfileRoute.NamedUserKeepsName | app/api/profile/route.ts:29 | a non-blank first name gives the trimmed "first last" |
| ProfileRoute.HandleGet | app/api/profile/route.ts:7-42 | 401 without a session or a user; the stored profile when found; otherwise, and also on a store error, the default profile |
| ProfileRoute.AddIfGivenMeaning | app/api/profile/route.ts:72-76 | one conditional assignment adds its field exactly when the body gives it, and keeps every other entry |
| ProfileRoute.DataToSaveMeaning | app/api/profile/route.ts:65-76 | `dataToSave` always holds name, email and address, and each optional field exactly when the body does not leave it undefined, with the body's value |
| ProfileRoute.UpdateMeaning | app/api/profile/route.ts:65-82 | after the update each column holds the body's value when the body gives one (even null or empty), and keeps its stored value otherwise |
| ProfileRoute.GivenOfObject | app/api/profile/route.ts:53-62 | a destructured field is undefined exactly when the body lacks the key or holds undefined under it |
| ProfileRoute.CreateDefaults | app/api/profile/route.ts:83-93 | creating from an empty body stores 'My Business', '', '', 'Services', 'Sole Proprietorship', '< 20 Lakh', false, 0 |
| ProfileRoute.CreateKeepsTruthy | app/api/profile/route.ts:85-92 | a truthy body field is created as given |
| ProfileRoute.DefaultsDiffer | app/api/profile/route.ts:28-37 | the GET default and the POST create defaults differ on business type and turnover band, and agree on industry |
| ProfileRoute.HandlePost | app/api/profile/route.ts:44-101 | 401 without a session; 500 for an unreadable body or a store error, with nothing written; otherwise the caller's one profile is updated with `dataToSave` or created with defaults |
| OnboardingForm.SetFieldOnly | app/onboarding/business-profile/page.tsx:107-111 | an edit sets the named field to the given value and no other field |
| OnboardingForm.MatchEmailIff | app/onboarding/business-profile/page.tsx:83 | the left-to-right matcher accepts exactly the addresses the pattern `^[^\s@]+@[^\s@]+\.[^\s@]+$` describes |
| OnboardingForm.EmailPatternShape | app/onboarding/business-profile/page.tsx:83 | a matching address has no whitespace anywhere and exactly one '@' |
| OnboardingForm.BlankNotEmail | app/onboarding/business-profile/page.tsx:81-85 | blank text never matches the pattern |
| OnboardingForm.PaddedEmailRejected | app/onboarding/business-profile/page.tsx:81-85 | the pattern is tested on the untrimmed value, so leading or trailing whitespace makes a non-blank address invalid |
| OnboardingForm.SimpleEmailAccepted | app/onboarding/business-profile/page.tsx:83 | `a@b.c` matches |
| OnboardingForm.TestEmail | app/onboarding/business-profile/page.tsx:83 | the loop that runs the matcher returns true exactly for addresses the pattern describes |
| OnboardingForm.Form.constructor | app/onboarding/business-profile/page.tsx:47-58 | an empty form, no errors, not loading |
| OnboardingForm.Form.ValidateForm | app/onboarding/business-profile/page.tsx:74-105 | the error map names exactly the failing fields (blank name or address; blank email 'required', else an email failing the pattern 'invalid'; empty industry or business type; a missing employee count only when `hasEmployees`), each with its message; the result is true iff the map is empty |
| OnboardingForm.Form.HandleInputChange | app/onboarding/business-profile/page.tsx:107-120 | exactly one field is set, and only that field's error is removed |
| OnboardingForm.Form.HandleSubmit | app/onboarding/business-profile/page.tsx:122-155 | nothing is sent when validation fails, and then the error map names exactly the failing fields and is not empty; otherwise the payload is sent, a success redirects with no field errors, a refusal records the submit error, and loading ends |
| OnboardingForm.ReportsFails | app/onboarding/business-profile/page.tsx:74-103 | the checks, one after another, report exactly the failing fields with their messages and nothing under `submit` |
| OnboardingForm.ValidFormIff | app/onboarding/business-profile/page.tsx:103-104 | the error map is empty exactly when no field fails |
| OnboardingForm.ValidPayloadAccepted | app/onboarding/business-profile/page.tsx:125-138 | a form that passes validation passes the server's required-field check |
| OnboardingForm.NoEmployeesStoresNull | app/onboarding/business-profile/page.tsx:135-138 | without employees the count is sent as null, and the server stores null |
| OnboardingForm.IndustryKept | app/onboarding/business-profile/page.tsx:135-138 | a selected industry reaches the stored profile unchanged |
| Compliance.TaskIdsDistinct | components/CompliancePage.tsx:52-60 | every catalogue entry's id leads back to that entry, so no two filings share an id |
| Compliance.TasksOf | components/CompliancePage.tsx:180-194 | one task per selected filing, in the same order |
| Compliance.GenerateApplicableTasks | components/CompliancePage.tsx:176-198 | the loop that pushes tasks produces exactly the tasks of the selected filings |
| Compliance.TasksOfGroup | components/CompliancePage.tsx:184-194 | a conditional push adds its one or two tasks when its condition holds and nothing otherwise |
| Compliance.TasksOfAppend | components/CompliancePage.tsx:180-194 | pushing groups one after another gives the tasks of the concatenated filings |
| Compliance.SelectedTasks | components/CompliancePage.tsx:180-194 | the generated list is ITR and TDS, then GST when turnover is not '< 20 Lakh', then AOC-4 and MGT-7 for a 'Private Limited Company', then PF and ESI when the business has employees |
| Compliance.SelectedIff | components/CompliancePage.tsx:181-194 | a filing is generated exactly when it applies to the profile |
| Compliance.GeneratedBounds | components/CompliancePage.tsx:180-194 | between two and seven tasks, always starting with ITR and TDS, both Pending |
| Compliance.SelectedInOrder | components/CompliancePage.tsx:180-194 | the generated filings follow the catalogue order strictly |
| Compliance.GeneratedIdsDistinct | components/CompliancePage.tsx:180-194 | no two generated tasks share an id |
| Compliance.GeneratedStatuses | components/CompliancePage.tsx:181-193 | GST starts Overdue, PF starts Completed, every other generated task starts Pending |
| Compliance.MarkCompleted | components/CompliancePage.tsx:235 | the list keeps its length; tasks with the given id become Completed and all others are unchanged |
| Compliance.MarkCompletedOne | components/CompliancePage.tsx:219 | with distinct ids, completing task `k`'s id changes that task alone and keeps the ids distinct |
| Compliance.MarkCompletedAbsent | components/CompliancePage.tsx:233-236 | an id no task carries leaves the list unchanged |
| Compliance.CountsPartition | components/CompliancePage.tsx:241-245 | every task has exactly one of the four statuses, so the four counts add up to the total |
| Compliance.StatsBounded | components/CompliancePage.tsx:241-245 | the Completed, Pending and Overdue cards together count the total less the tasks in 'Payment Processing', hence never more than the total |
| Compliance.CompliancePage.constructor | components/CompliancePage.tsx:165-171 | no tasks, no task chosen for payment, payment modal closed |
| Compliance.CompliancePage.ProfileChanged | components/CompliancePage.tsx:200-206 | with a profile the tasks are regenerated from it; without one the list is emptied |
| Compliance.CompliancePage.HandleOpenPaymentModal | components/CompliancePage.tsx:228-231 | remembers the task and opens the payment modal |
| Compliance.CompliancePage.HandlePaymentSuccess | components/CompliancePage.tsx:233-239 | completes the chosen task's id (nothing when none is chosen), clears the choice and closes the modal |
| Compliance.CompliancePage.HandleSync | components/CompliancePage.tsx:212-226 | with no Pending or Overdue task nothing changes; otherwise exactly one such task becomes Completed, and ids stay distinct |
| Payment.SetField | components/PaymentModal.tsx:51-54 | the named detail takes the typed value and every other detail keeps its value |
| Payment.StripSpaces | components/PaymentModal.tsx:30 | removing whitespace leaves no whitespace and never lengthens the text |
| Payment.StripSpacesAppend | components/PaymentModal.tsx:30 | removing whitespace distributes over concatenation |
| Payment.StripSpacesNone | components/PaymentModal.tsx:30 | text without whitespace is left as it is |
| Payment.CardNumberIgnoresSpaces | components/PaymentModal.tsx:30 | inserting a whitespace character anywhere in a card number does not change whether it is accepted |
| Payment.CardNumberDigits | components/PaymentModal.tsx:30 | sixteen digits are accepted, and an accepted card number has at least sixteen characters |
| Payment.ExpiryMeaning | components/PaymentModal.tsx:31 | an expiry is accepted iff it is four characters, or five with '/' in the middle, the first two and the last two are digits, and the month they give lies in 1..12 |
| Payment.IfscIgnoresCase | components/PaymentModal.tsx:35 | the IFSC check is blind to letter case, and an accepted code has eleven characters with '0' fifth |
| Payment.AccountNumberDigits | components/PaymentModal.tsx:34 | nine or more digits are accepted; text of fewer than nine UTF-16 code units is refused |
| Payment.AccountNumberValidMeaning | components/PaymentModal.tsx:34 | an account number is accepted iff its trimmed text is at least nine UTF-16 code units long |
| Payment.AccountNumberCountsCodeUnits | components/PaymentModal.tsx:34 | five characters outside the Basic Multilingual Plane (ten code units) are accepted |
| Payment.CreditCardErrors | components/PaymentModal.tsx:29-32 | the card error set is the union of the card-number, expiry and CVC failures |
| Payment.BankTransferErrors | components/PaymentModal.tsx:33-35 | the bank error set is the union of the account-number and IFSC failures |
| Payment.CheckCreditCard | components/PaymentModal.tsx:29-32 | the checks in sequence build exactly the card error set |
| Payment.CheckBankTransfer | components/PaymentModal.tsx:33-35 | the checks in sequence build exactly the bank error set |
| Payment.ErrorsMeaning | components/PaymentModal.tsx:27-39 | a field is in error iff the selected method checks it and it fails its rule; no errors iff every checked field passes |
| Payment.ErrorsExactly | components/PaymentModal.tsx:27-36 | any set holding exactly the failing checked fields is the error set |
| Payment.OtherMethodIgnored | components/PaymentModal.tsx:29-36 | editing a field the selected method does not check leaves the errors as they were |
| Payment.TotalAmount | components/PaymentModal.tsx:98-101 | the total is the compliance fee plus the platform fee of 50, so at least 50 for a non-negative fee |
| Payment.PaymentModal.constructor | components/PaymentModal.tsx:14-25 | credit card selected, all details empty, no errors, not paying, not paid |
| Payment.PaymentModal.ValidatePayment | components/PaymentModal.tsx:27-39 | stores exactly the error set of the selected method and answers true iff it is empty |
| Payment.PaymentModal.HandleConfirmPayment | components/PaymentModal.tsx:41-49 | a failed validation changes nothing but the errors; a passed one ends in the success state and reports payment |
| Payment.PaymentModal.HandlePaymentDetailChange | components/PaymentModal.tsx:51-54 | one detail takes the typed value, the others keep theirs |
| Payment.PaymentModal.SelectMethod | components/PaymentModal.tsx:72-73 | the chosen method becomes the selected one |
| Documents.WithStatus | components/CompanyDocumentsCard.tsx:32 | the list keeps its length; documents with the given id take the new status and all others are unchanged |
| Documents.ButtonLabel | components/CompanyDocumentsCard.tsx:61-68 | no button while uploading; "View / Replace" exactly for Uploaded or Verified; "Upload" exactly for Not Uploaded |
| Documents.InitialState | components/CompanyDocumentsCard.tsx:16-21 | four documents, the GST certificate Uploaded and the other three Not Uploaded |
| Documents.InitialIdsDistinct | components/CompanyDocumentsCard.tsx:16-21 | the four initial documents have distinct ids |
| Documents.WithStatusKeepsIds | components/CompanyDocumentsCard.tsx:32-36 | a status update keeps the ids in order, so distinct ids stay distinct |
| Documents.WithStatusTwice | components/CompanyDocumentsCard.tsx:32-36 | of two updates of the same document the later one counts |
| Documents.NeverVerified | components/CompanyDocumentsCard.tsx:29-38 | neither transition produces 'Verified', so a list with no verified document keeps none |
| Documents.UploadButtons | components/CompanyDocumentsCard.tsx:29-68 | during an upload the chosen document's button disappears and afterwards reads "View / Replace"; the other documents keep their buttons |
| Documents.DocumentsCard.constructor | components/CompanyDocumentsCard.tsx:16-21 | starts with the four initial documents |
| Documents.DocumentsCard.HandleFileSelect | components/CompanyDocumentsCard.tsx:29-32 | no file changes nothing; a file marks the document Uploading; ids are kept |
| Documents.DocumentsCard.UploadFinished | components/CompanyDocumentsCard.tsx:35-37 | the upload timer marks the document Uploaded; ids are kept |
| CfoParser.FirstLineMatch | components/VirtualCFOPage.tsx:153 | the first position at or after `from` where a line starts with the prefix (and a digit when one is required); no earlier position matches, and None means no position matches |
| CfoParser.LineEnd | components/VirtualCFOPage.tsx:163 | the end of the line holding `a`: no line terminator before it, and it is the end of the text or a terminator |
| CfoParser.StripDash | components/VirtualCFOPage.tsx:160 | removing a leading "- " and the spaces after it leaves a suffix of the line |
| CfoParser.StripNumber | components/VirtualCFOPage.tsx:160 | removing a leading "N." and the spaces after it leaves a suffix of the line |
| CfoParser.CleanLineClean | components/VirtualCFOPage.tsx:160 | a cleaned line has no whitespace at either end |
| CfoParser.CleanItemsClean | components/VirtualCFOPage.tsx:160 | every kept item is non-empty, has no outer whitespace and is the cleaning of some line |
| CfoParser.ListItemsClean | components/VirtualCFOPage.tsx:158-161 | a missing or empty section gives no items; otherwise at most one item per line, each non-empty with no outer whitespace |
| CfoParser.StripDashOf | components/VirtualCFOPage.tsx:160 | "- " before an item is removed and the item kept |
| CfoParser.StripNumberOf | components/VirtualCFOPage.tsx:160 | "N. " before an item is removed and the item kept |
| CfoParser.BulletAndNumber | components/VirtualCFOPage.tsx:160 | a line "- N. item" cleans to the item |
| CfoParser.HealthScoreMeaning | components/VirtualCFOPage.tsx:164 | with no "Summary Score:" line the score is 0; otherwise it is the value of the non-empty run of digits that follows |
| CfoParser.LeadingScoreDigits | components/VirtualCFOPage.tsx:164 | a report opening with "Summary Score: " and digits yields exactly those digits |
| CfoParser.LeadingScoreLine | components/VirtualCFOPage.tsx:164 | and its health score is their decimal value |
| CfoParser.SectionBetween | components/VirtualCFOPage.tsx:154-157 | the text between a start marker and the first following end marker, trimmed |
| CfoParser.LastSection | components/VirtualCFOPage.tsx:154-157 | without an end marker the section runs to the end of the text, trimmed |
| CfoParser.ParseReportMeaning | components/VirtualCFOPage.tsx:151-193 | the report is refused iff the score is 0, the forecast is empty and there is no strengths section; a missing business type becomes "N/A" and a missing field or section becomes empty |
| CfoParser.ScoreColor | components/VirtualCFOPage.tsx:14-18 | green iff the score is above 75, yellow iff in 41..75, red iff at most 40 |
| AdvisorChat.Reply | components/AIBusinessAdvisorChat.tsx:52-57 | the reply is always from the model: the response text when the call succeeds, the fixed apology when it fails |
| AdvisorChat.SendAppends | components/AIBusinessAdvisorChat.tsx:47-54 | a send keeps the earlier history as a prefix, appends the user's message then a model reply, and keeps the roles alternating from the greeting |
| AdvisorChat.Chat.constructor | components/AIBusinessAdvisorChat.tsx:30-34 | the history holds only the greeting, the input is empty, nothing is loading |
| AdvisorChat.Chat.SetUserInput | components/AIBusinessAdvisorChat.tsx:33 | only the input changes |
| AdvisorChat.Chat.StartSend | components/AIBusinessAdvisorChat.tsx:44-50 | a blank input or a pending reply changes nothing; otherwise the user's message is appended, the input cleared and loading begins |
| AdvisorChat.Chat.ReceiveReply | components/AIBusinessAdvisorChat.tsx:52-60 | the reply is appended and loading ends |
| AdvisorChat.Chat.HandleSendMessage | components/AIBusinessAdvisorChat.tsx:44-61 | a refused send changes nothing; an accepted one appends the user's message and the reply, clears the input and ends loading |
| ServicesDashboard.ByDeadlineIsTotalPreorder | components/dashboards/ServicesDashboard.tsx:57 | the deadline comparator is total and transitive |
| ServicesDashboard.ActiveProjectsMeaning | components/dashboards/ServicesDashboard.tsx:111 | a project is listed as active iff it is not Completed; the filter keeps order and distributes over concatenation |
| ServicesDashboard.UpcomingIsPrefix | components/dashboards/ServicesDashboard.tsx:53-59 | the upcoming list is the first (at most three) of the open projects sorted by deadline, the sort being a permutation |
| ServicesDashboard.UpcomingDeadlinesCount | components/dashboards/ServicesDashboard.tsx:53-59 | nothing before the data loads; then the smaller of three and the number of open projects |
| ServicesDashboard.UpcomingDeadlinesDrawn | components/dashboards/ServicesDashboard.tsx:55-58 | every upcoming project is an open project of the data |
| ServicesDashboard.UpcomingDeadlinesSorted | components/dashboards/ServicesDashboard.tsx:57 | the upcoming list is in deadline order |
| ServicesDashboard.UpcomingDeadlinesEarliest | components/dashboards/ServicesDashboard.tsx:53-59 | an open project left out is due no earlier than any project shown |
| DashboardLayout.PageDispatch | components/DashboardLayout.tsx:51-124 | each of the seven navigation paths shows its own page; any other path shows the overview |
| DashboardLayout.AtMostOneActive | components/DashboardLayout.tsx:135-141 | at most one navigation item is highlighted, and it is the one for the page shown |
| DashboardLayout.ReloadAfterPersist | components/DashboardLayout.tsx:65-95 | a persisted profile whose JSON reads back as itself is loaded again after a reload and stays stored; no profile leaves nothing to load |
| DashboardLayout.LoadTouchesOnlyItsKey | components/DashboardLayout.tsx:65-83 | loading touches no other storage key, and a stored value that yields no profile is removed unless it is JSON null |
| DashboardLayout.Layout.constructor | components/DashboardLayout.tsx:61-83 | the profile and storage are what loading yields; the chat is closed |
| DashboardLayout.Layout.SetBusinessProfile | components/DashboardLayout.tsx:65 | only the profile changes |
| DashboardLayout.Layout.PersistProfile | components/DashboardLayout.tsx:85-95 | a profile is written as JSON under its key, no profile removes the key, a failing storage changes nothing |
| DashboardLayout.Layout.OpenAdvisorChat | components/DashboardLayout.tsx:209-212 | the chat opens only when the button is shown, that is, when there is a profile |
| DashboardLayout.Layout.CloseAdvisorChat | components/DashboardLayout.tsx:171 | the chat closes; profile and storage are unchanged |
| AppRouting.InitialRoute | App.tsx:7 | the route read from the location fragment is never empty: an absent or empty fragment gives "/" |
| AppRouting.RouteGuard | App.tsx:25-40 | the dashboard is shown exactly for a '/dashboard' route while signed in, with that route as its path; the sign-in page exactly for a dashboard route while signed out or for "/login" |
| AppRouting.ReloadKeepsRoute | App.tsx:7-13 | a route written into the fragment by navigation reads back as the same route on reload |
| AppRouting.LoginShowsOverview | App.tsx:15-18 | after signing in the overview page of the dashboard is shown |
| AppRouting.App.constructor | App.tsx:6-8 | the route comes from the fragment and the user is signed out |
| AppRouting.App.Navigate | App.tsx:10-13 | the route and the fragment both become the path; sign-in state is unchanged |
| AppRouting.App.HandleLogin | App.tsx:15-18 | signed in, at the overview, which is then shown |
| AppRouting.App.HandleLogout | App.tsx:20-23 | signed out, at "/", which shows the home page |
| Theme.InitialTheme | hooks/useTheme.ts:17-27 | a non-empty stored theme is taken as it is, whatever its value; with no window, a failing storage or nothing stored the theme is 'light' |
| Theme.Toggle | hooks/useTheme.ts:45-47 | the result is 'dark' exactly from 'light', and 'light' from anything else |
| Theme.ToggleTwice | hooks/useTheme.ts:45-47 | toggling twice restores 'light' or 'dark'; any other stored value goes to 'light' and then 'dark' |
| Theme.UseTheme | hooks/useTheme.ts:53-59 | outside a provider the hook fails; inside it yields the provider's theme |
| Theme.ThemeProvider.constructor | hooks/useTheme.ts:16-27 | the theme is the initial one; storage and the root element are untouched |
| Theme.ThemeProvider.ApplyTheme | hooks/useTheme.ts:30-42 | the root is dark exactly when the theme is 'dark', and the theme is stored unless storage fails |
| Theme.ThemeProvider.ToggleTheme | hooks/useTheme.ts:45-47 | the theme toggles; root and storage wait for the effect |
| Theme.StoredThemeReloads | hooks/useTheme.ts:17-42 | a stored theme is read back as itself on reload |
| ProgressBar.Width | components/ui/ProgressBar.tsx:15 | the width lies in 0..100, equals the progress inside that range, and is clamped outside it |
| ProgressBar.Color | components/ui/ProgressBar.tsx:9 | emerald iff above 75, yellow iff in (40, 75], red iff at most 40 |
| ProgressBar.ColorIgnoresClamp | components/ui/ProgressBar.tsx:9-15 | the colour is computed from the unclamped progress yet agrees with the colour of the clamped width |
| ProgressBar.SameBandsAsGauge | components/ui/ProgressBar.tsx:9 | on whole numbers the bar uses the same three bands as the health-score gauge |
| Text.ScientificNumber | app/api/invoices/route.ts:55 | `Number` of digits followed by a whole exponent part (`e` or `E`, an optional sign, digits) is the digits' value times ten to that exponent |
| Text.ScientificParseFloat | components/InvoiceItemsTable.tsx:55-56 | `parseFloat` reads the same value from digits followed by a whole exponent part |
| Text.IncompleteExponent | components/InvoiceItemsTable.tsx:55-56 | an `e` with no digit after it is not part of the literal: `parseFloat` reads the digits before it, while `Number` of the text is NaN |
| Text.TrailingTextRejected | app/api/invoices/route.ts:55 | `Number` is NaN when anything follows the decimal literal |
| Text.RadixReadsBack | app/api/invoices/route.ts:55 | `Number` reads `0x`, `0o` or `0b` (either case) followed by digits of that radix as an unsigned integer, and is NaN when any character is outside the radix |
| Text.SignedRadixRejected | app/api/invoices/route.ts:55 | a sign before a radix prefix makes `Number` NaN |
| Text.ThousandExample | components/InvoiceItemsTable.tsx:55-56 | `1e3` is 1000 to both `parseFloat` and `Number` |
| Text.NegativeExponentExample | components/InvoiceItemsTable.tsx:55-56 | `parseFloat("25e-1")` is 2.5 |
| Text.IncompleteExponentExample | components/InvoiceItemsTable.tsx:55-56 | `parseFloat("1e")` is 1 and `Number("1e")` is NaN |
| Text.HexExample | app/api/invoices/route.ts:55 | `Number("0x1A")` is 26 |
| Text.BinaryExample | app/api/invoices/route.ts:55 | `Number("0b101")` is 5 |
| Text.OctalExample | app/api/invoices/route.ts:55 | `Number("0o17")` is 15 |
| Text.EmptyRadixExample | app/api/invoices/route.ts:55 | `Number("0x")` is NaN |
| Text.DigitOutsideRadixExample | app/api/invoices/route.ts:55 | `Number("0b2")` is NaN |
| Text.SignedRadixExample | app/api/invoices/route.ts:55 | `Number("-0x1A")` is NaN |
| Text.HexParseInt | app/api/business-profile/route.ts:87 | `parseInt` with no radix reads `0x` or `0X` followed by hexadecimal digits, up to the first other character, as a hexadecimal integer |
| Text.HexWithoutDigits | app/api/business-profile/route.ts:87 | `0x` with no hexadecimal digit after it is NaN to `parseInt`, although `0` alone is zero |
| Text.LeadingDigitPrinted | app/api/business-profile/route.ts:87 | `LeadingDigit(n)` is the first digit `String(n)` prints |
| Text.LeadingDigitScaled | app/api/business-profile/route.ts:87 | a digit followed by zeros leads with that digit |
| Text.CodeUnitOrderExample | components/BillingPage.tsx:149 | `<` on strings compares UTF-16 code units, so U+1F600 sorts before U+FFFD |
| Js.ParseIntOf | app/api/business-profile/route.ts:87 | `parseInt` of any value is a whole number or NaN |
| Js.ParseIntOfNumber | app/api/business-profile/route.ts:87 | `parseInt` of a number keeps its sign, is its integer part from 1e-6 up to 1e21, and is the single digit before the exponent outside that range |
| Js.NumberOfDigits | app/api/business-profile/route.ts:87 | digits followed by a non-digit, without a `0x` prefix, read as their decimal value |
| Js.HexTextExample | app/api/business-profile/route.ts:87 | `parseInt("0x1A")` is 26 |
| Js.HexWithoutDigitsExample | app/api/business-profile/route.ts:87 | `parseInt("0xg")` is NaN |
| Js.ArrayReadsFirst | app/api/business-profile/route.ts:85-87 | `parseInt` and `parseFloat` read an array as its first element |
| Js.ArrayOfDigits | app/api/business-profile/route.ts:87 | `parseInt(["12", 3])` is 12, and likewise for any digits leading the first element |
| Js.ArrayOfIncompleteExponent | app/api/business-profile/route.ts:85 | `parseFloat(["1e", "x"])` is 1, and likewise for any digits and a bare `e` in the first element |
| Js.SmallNumberExample | app/api/business-profile/route.ts:87 | `parseInt(5e-7)` is 5 |
| Js.LargeNumberExample | app/api/business-profile/route.ts:87 | `parseInt(2e21)` is 2 |

## Left out

- Network, database and sign-in plumbing. `fetch`, the Prisma client and Clerk's `auth()`/`currentUser()` are not modelled. A fetch outcome, the signed-in user id (an `Option`), the user record and a failing store (a flag) are parameters. Tables are fields of `Store.Database`.
- The database stub in `lib/db.ts` is not part of this model. It answers `[]` to every call; the routes are modelled against the store they are written for.
- Generative-AI calls and prompts (`services/geminiService.ts` and the prompt strings). The AI's answer is an arbitrary string, and a failed call is `None`.
- Floating point and formatting. Amounts are exact `real`s, and `toFixed`/`toLocaleString` are not modelled. `×1.18` and `subtotal + 0.18 × subtotal` agree in exact arithmetic, not bit for bit in doubles.
- Chart geometry: the chart components, the health-score gauge arc and dashboard bar heights.
- Wall clock and randomness.
  - The current year and `new Date()` are parameters.
  - The pick in the compliance sync is a `choice` parameter, reduced modulo the number of open tasks.
  - Days-left calculations and the random dashboard fixture are not modelled.
  - ISO `YYYY-MM-DD` dates are compared as strings. Invalid dates, for which `getTime()` is `NaN`, are not modelled.
- Timers and promises. Each `setTimeout` and awaited call becomes sequential steps. Where the source splits an operation around a timer, the two halves are separate methods (`Documents.DocumentsCard.HandleFileSelect` and `UploadFinished`, `AdvisorChat.Chat.StartSend` and `ReceiveReply`). Concurrent interleavings such as the next-id race are not modelled.
- `Compliance.GenerateApplicableTasks` does not model the loading flag or the 1.5 s delay before the list appears. The conditional pushes are written as conditional appends to the list.
- `Compliance.CompliancePage.HandleSync` does not model the `lastSynced` time stamp or the syncing flag.
- `AdvisorChat.Chat.ReceiveReply` appends the reply to the current history. The source appends it to the history captured at the send; the two are the same because nothing else writes the history while a reply is awaited.
- Regular expressions are written as explicit character predicates. Only ASCII letters are case-mapped by `toUpperCase`/`toLowerCase`.
- `CfoParser.ParseReportMeaning` does not model the `catch` branch of `parseCFOResponse`. The modelled helpers cannot throw, so that branch returning null is unreachable here.
- `JSON.parse` and `JSON.stringify` in the dashboard layout are parameters. Any parseable value is taken as the profile with no shape check, as in the source.
- The dashboard layout does not listen to `hashchange`, and neither does the model. The sidebar's open/closed state and the user's avatar and name are not modelled.
- The services dashboard's loading effect is not modelled. `None` stands for data not yet loaded.
- `ItemsTable.NumericInput`: `parseFloat` reads `Infinity`, `+Infinity` and `-Infinity` as infinite numbers; here they are NaN and store 0. Literals too large for a double, which become infinite, and the rounding of a decimal literal to the nearest double are not modelled either, because values are exact reals.
- `InvoicesRoute.ItemRowsFields`: `Number(rate)` of `Infinity`, `+Infinity` or `-Infinity` is NaN here rather than infinite. Overflow to infinity and rounding to a double are not modelled.
- `BusinessProfileRoute.HandlePost`: `parseFloat(annualTurnover)` of an `Infinity` form is NaN here rather than infinite. Overflow to infinity and rounding to a double are not modelled.
- `Js.ParseIntOf`: a number is read through the digits of its exact value, not of the shortest text that prints its binary64 value; the two can differ in the first digit when a double lies just below a power of ten. `parseInt(-0.5)` is `-0` in the source and 0 here.
- `CustomersRoute.UserCustomersSpec`: `orderBy: { name: 'asc' }` sorts in the database's collation. The model orders names by UTF-16 code units, as JavaScript's `<` does.
- The invoice preview's Notes & Terms block and the rest of its layout are presentation; only the printed values are modelled.
- `Text.ParseFloat` and `Text.StringToNumber` read decimal literals (sign, digits, fraction, exponent) and, for `Number`, the `0x`/`0o`/`0b` forms, as exact reals. The `Infinity` forms are NaN here, and binary64 overflow and rounding are not modelled.
- `ItemsTable.ChangeItem`: items are values here. In the source, `handleItemChange` copies the list but then assigns the field on the item object itself, and that object is shared with the list the caller holds. An edit therefore also reaches the invoice object the store holds, even when the edit is later cancelled; the model does not capture this aliasing.
- `InvoiceCreator.Creator.GeneratedText`: the generated item description is written into the shared item object in the source, with the same leak into the stored invoice as `handleItemChange`; the model replaces the item by value.
- `MockApi.InvoiceStore.GetInvoices`: `[...invoices]` copies the list, not the invoices in it. The model returns invoices as values, so changes made through a returned invoice object are not modelled.
- `InvoiceCreator.Creator.Save`: a missing issue or due date is handed on as the empty string; the source leaves the property undefined.
- `Sorting.Sort`: the sort is specified by sortedness and permutation. That equal elements keep their order, as `Array.prototype.sort` guarantees, is not proved.
- `OnboardingForm.Form.HandleSubmit`: the `isLoaded` redirect of the onboarding page is not modelled. The server's answer is a parameter.
- Presentational files are not modelled: home, login, finance, CRM, ERP and overview pages, dashboard cards, UI primitives, the page header, route wrappers and config.
- The dashboard fixtures in `services/mockApi.ts` after the invoice store are not modelled.
- The customer and business-profile modals call service functions that `services/billingService.ts` does not define (`createCustomer`, `updateBusinessProfile`, `getBusinessProfile`). They are external and not modelled. The invoice preview's profile fetch is replaced by an optional profile parameter.
- `ProfileRoute.UpdateMeaning` models Prisma's rule that an `undefined` value in update data leaves the column as it was, by leaving such a key out of the update map.
