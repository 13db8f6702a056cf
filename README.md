# Billing entitlements and upload rules of the FromE chat platform

This project models the part of the platform that decides what a user is
entitled to, plus the small pure rules around it. It is written in Dafny, and
the properties below are proved about the model.

- **Webhook** (`Webhook`). The payment provider's webhook checks a delivery's
  signature, then dispatches one of five event kinds. The handler for each
  kind finds a user and overwrites a fixed set of columns on that user's
  record: `plan`, `messagesLimit`, `messagesUsed`, `stripeSubscriptionId`,
  `subscriptionStatus`.
- **Checkout** (`Checkout`). Opening a checkout runs an ordered chain of
  guards. It then creates a provider customer, or reuses the stored one, and
  asks for a session. The session's metadata is what the webhook reads back.
- **Account page** (`Account`). The figures the page derives from a user's
  usage: which upgrades it offers, how many messages remain, and whether the
  manage-subscription button is shown.
- **Exports** (`Export`). The plain-text and Markdown exports of a
  conversation, and the download file names.
- **Document processing** (`FileUtils`). The content sent to the chat for an
  attached document, chosen by first match on its MIME type.
- **Upload widgets** (`DocumentUpload`, `ImageUpload`). Their type and size
  guards, the first-file rule for drops, a table lookup with a fallback, and
  the printed size of small files.

The user table is a class, `Users.UserStore`, that the route methods update in
place. Each state-changing method is proved equal to a function on table
values: `Webhook.Post` to `Webhook.Process`, and `Checkout.Post` to
`Checkout.Checkout`. The lemmas are then proved about those functions.

A table value (`Users.Table`) holds two things:
- the rows in the order `findFirst` scans them. Without an `orderBy` the
  database promises only some fixed but unspecified order, and the model takes
  that order as given;
- a map from each user id to its record.

`Users.WellFormed` says four things about a table:
- ids are unique;
- the ids are the map's keys;
- each record carries its own id;
- emails are unique.

Prisma's `update` is a `Users.Patch`: one optional value per column.

Calls outside the code become parameters of the model:
- The provider's signature check (`constructEvent`) is a function parameter.
  It returns `None` where the SDK throws.
- What `customers.create` and `checkout.sessions.create` reply is a `Reply`:
  a value, or the message of the error thrown.
- The price ids from the environment are a `PriceIds` value, `""` when a
  variable is unset (`lib/stripe.ts:16`, `21`, `26`).
- `NEXTAUTH_URL` is the `baseUrl` parameter.
- What `file.text()` resolves to, and what the image reader returns, are
  `Option` parameters.

JavaScript truthiness is modelled: a missing value and `""` are both falsy.
This applies to the signature header, the metadata fields, the session
email, the plan, the price id, the stored customer id and the stored status.

Behaviour of the code worth knowing, all of it modelled as written:
- A subscription update gives ACTIVE only when the provider status is exactly
  `active`. Every other status, `trialing` and `past_due` included, gives
  INACTIVE.
- Cancellation applies from any prior status, CANCELED included.
- `PLAN_LIMITS` has no FREE entry. FREE gets 50 only through the `|| 50`
  fallback.
- A checkout completion whose `userId` names no user makes `update` throw. The
  webhook then answers 500 and writes nothing.
- The customer of an invoice event is cast `as string` but can be `null`.
  The lookup then finds a user with no customer id stored, so a
  customer-less `invoice.payment_succeeded` resets the usage of such a user
  and marks them ACTIVE (`Webhook.NullCustomerPaymentResetsUnlinkedUser`).
  Subscription events carry the same optional customer in the model, which
  allows more than the provider sends.
- The XLSX type contains `document`, so document processing gives it the Word
  placeholder, not the spreadsheet one.

## Model

| member | source | states |
|---|---|---|
| Users.StatusNamesDistinct | app/api/stripe/webhook/route.ts:108-113 | The four status values are stored as four distinct strings. |
| Users.ApplyPatch | app/api/stripe/webhook/route.ts:85-94 | A write never changes the record's id or email. `ApplyPatchFrame` states what it does to every other column. |
| Users.ApplyPatchFrame | app/api/stripe/webhook/route.ts:85-94 | After an update, each column named in `data` holds the written value. Every other column keeps its old value. |
| Users.ApplyPatchIdempotent | app/api/stripe/webhook/route.ts:85-94 | Writing the same columns twice leaves the record as writing them once did. |
| Users.FirstIndex | app/api/stripe/webhook/route.ts:102-104 | Gives the position of the first row, in scan order, whose record matches. No earlier row matches, and there is no position when no row matches. |
| Users.FirstIndexStable | app/api/stripe/webhook/route.ts:102-104 | Two tables whose rows answer the filter alike give the same first match. |
| Users.FindFirst | app/api/stripe/webhook/route.ts:102-106 | `findFirst` returns a stored id whose record matches the filter. It returns nothing only when no record matches. |
| Users.FindByCustomer | app/api/stripe/webhook/route.ts:100-106 | Returns a user whose stored customer id is the given one, or nothing when no user has it. A `null` customer finds a user with no customer id stored. |
| Users.FindByCustomerStable | app/api/stripe/webhook/route.ts:123-127 | Tables that agree on rows and customer ids resolve every customer id to the same user. |
| Users.FindByEmail | app/api/stripe/checkout/route.ts:21-23 | Returns the only user with that email, or nothing when no user has it. |
| Users.Updated | app/api/stripe/webhook/route.ts:110-115 | `update` fails exactly when no record has the id. Otherwise only that record changes, as the patch says, and the table stays well formed. |
| Users.UpdatedIdempotent | app/api/stripe/webhook/route.ts:110-115 | Writing the same patch to the same record twice leaves what writing it once left. |
| Users.UpdatedKeepsIdentity | app/api/stripe/webhook/route.ts:110-115 | A write that does not set the customer id keeps the rows, the ids, and every record's email and customer id. |
| Users.UserStore.Update | app/api/stripe/checkout/route.ts:47-50 | Writes the patch on the record in place, with the effect `Updated` specifies. Reports a missing id and writes nothing in that case. |
| Webhook.LimitFor | app/api/stripe/webhook/route.ts:79-89 | The limit is positive, and is 50 for any plan `PLAN_LIMITS` does not list. |
| Webhook.LimitTable | app/api/stripe/webhook/route.ts:79-89 | PRO gets 500, PREMIUM 2000 and ENTERPRISE 10000. FREE and every other string get 50. |
| Webhook.StatusFromProvider | app/api/stripe/webhook/route.ts:108 | ACTIVE exactly when the provider status is `active`, INACTIVE otherwise. |
| Webhook.CheckoutTarget | app/api/stripe/webhook/route.ts:74-77 | The handler proceeds exactly when both `userId` and `plan` metadata are truthy, and uses their values. |
| Webhook.CheckoutCompleted | app/api/stripe/webhook/route.ts:73-97 | The checkout handler keeps the table well formed, or fails. |
| Webhook.ForCustomer | app/api/stripe/webhook/route.ts:99-179 | A customer-keyed handler keeps the table well formed. |
| Webhook.Dispatch | app/api/stripe/webhook/route.ts:29-64 | Every handled event keeps the table well formed. |
| Webhook.Process | app/api/stripe/webhook/route.ts:7-71 | A delivery always leaves a well-formed table. |
| Webhook.HandleCheckoutCompleted | app/api/stripe/webhook/route.ts:73-97 | Updates the store in place as `CheckoutCompleted` says, or writes nothing and reports failure. |
| Webhook.UpdateByCustomer | app/api/stripe/webhook/route.ts:100-106 | Resolves the customer id and writes the patch on the user found, if any. |
| Webhook.HandleSubscriptionUpdated | app/api/stripe/webhook/route.ts:99-118 | Writes the mapped status on the customer's user, in place. |
| Webhook.HandleSubscriptionCanceled | app/api/stripe/webhook/route.ts:120-139 | Writes FREE, 50 and CANCELED on the customer's user, in place. |
| Webhook.HandlePaymentSucceeded | app/api/stripe/webhook/route.ts:141-160 | Writes zero usage and ACTIVE on the customer's user, in place. |
| Webhook.HandlePaymentFailed | app/api/stripe/webhook/route.ts:162-179 | Writes PAST_DUE on the customer's user, in place. |
| Webhook.Post | app/api/stripe/webhook/route.ts:7-71 | The route's reply and the store it leaves are those `Process` specifies. |
| Webhook.SignatureGate | app/api/stripe/webhook/route.ts:11-26 | A missing or empty signature header gets 400, and so does a body the check rejects. Nothing is written in either case. A missing header is answered before the check is consulted. |
| Webhook.VerifiedEventDispatched | app/api/stripe/webhook/route.ts:28-70 | A verified event gets 200 and the dispatched table. A failing handler gets 500 and writes nothing. Only the checkout handler can fail. |
| Webhook.CheckoutCompletedEffect | app/api/stripe/webhook/route.ts:73-94 | With both metadata fields, the user gets the plan, the plan's limit, zero usage, the session's subscription and ACTIVE. Customer id, email and all other users are unchanged. A missing field changes nothing, and an unknown user id fails. |
| Webhook.CheckoutIgnoresPriorEntitlement | app/api/stripe/webhook/route.ts:85-94 | A completed checkout leaves the same record whatever plan, usage or status it held before. |
| Webhook.CustomerEventEffect | app/api/stripe/webhook/route.ts:99-176 | Covers the four customer-keyed events. Updated writes only the mapped status. Deleted writes FREE, 50 and CANCELED and keeps usage and subscription. Succeeded resets usage and writes ACTIVE. Failed writes only PAST_DUE. An unknown customer changes nothing. |
| Webhook.NullCustomerPaymentResetsUnlinkedUser | app/api/stripe/webhook/route.ts:141-157 | When some user has no customer id, an invoice without a customer resolves to such a user, who gets zero usage and ACTIVE. |
| Webhook.UnhandledEventIgnored | app/api/stripe/webhook/route.ts:29-66 | An event type the switch does not list changes nothing. |
| Webhook.DispatchFollowsTransitionTable | app/api/stripe/webhook/route.ts:29-64 | Events follow a status transition table from any prior status. Only the addressed user changes, and its new status is the table's target. |
| Webhook.DispatchKeepsIdentity | app/api/stripe/webhook/route.ts:85-176 | No event changes the set of users, anyone's email or anyone's customer id. |
| Webhook.ForCustomerKeepsIdentity | app/api/stripe/webhook/route.ts:99-179 | A customer-keyed handler keeps the rows, the ids, and every record's email and customer id. |
| Webhook.ForCustomerKeepsLimitsMatchingPlans | app/api/stripe/webhook/route.ts:99-179 | A customer-keyed handler whose write sets a plan only together with that plan's limit keeps every stored limit matching its plan. |
| Webhook.DispatchKeepsLimitsMatchingPlans | app/api/stripe/webhook/route.ts:79-176 | If every stored limit matches its plan before an event, every limit still matches after it. |
| Webhook.ForCustomerIdempotent | app/api/stripe/webhook/route.ts:99-179 | Running a customer-keyed handler twice leaves what running it once left. |
| Webhook.CheckoutCompletedIdempotent | app/api/stripe/webhook/route.ts:73-97 | Completing the same checkout twice leaves what completing it once left. |
| Webhook.DispatchIdempotent | app/api/stripe/webhook/route.ts:29-64 | Applying the same event twice yields the table applying it once yields. |
| Webhook.ProcessIdempotent | app/api/stripe/webhook/route.ts:7-71 | Processing the identical request twice, under a signature check that answers it alike both times, gives the same table and the same reply. |
| Webhook.ProcessKeepsLimitsMatchingPlans | app/api/stripe/webhook/route.ts:7-71 | Every delivery keeps the plan/limit invariant. |
| Checkout.ServerError | app/api/stripe/checkout/route.ts:73-79 | The catch block answers 500 with the error's message, or with the default when that message is empty. |
| Checkout.Guard | app/api/stripe/checkout/route.ts:9-33 | A request passes the guards exactly when it has a session email, a readable body naming a purchasable plan, a user with that email, and a non-empty price for that plan. It then passes that user, exactly the plan the body asks for, and that plan's price. |
| Checkout.Checkout | app/api/stripe/checkout/route.ts:7-80 | A checkout request leaves the table well formed. |
| Checkout.Post | app/api/stripe/checkout/route.ts:7-80 | The route's reply, its SDK calls and the store it leaves are those `Checkout` specifies. |
| Checkout.UnauthenticatedRejected | app/api/stripe/checkout/route.ts:9-13 | Without a session email the answer is 401. The body is not read, and nothing is looked up, created or written. |
| Checkout.InvalidPlanRejected | app/api/stripe/checkout/route.ts:15-19 | A missing plan, or one that is not PRO, PREMIUM or ENTERPRISE, gets 400. FREE is included, and nothing else happens. |
| Checkout.MalformedBodyFails | app/api/stripe/checkout/route.ts:15 | With a session email, a body that cannot be parsed gets the catch's 500 with the parser's message. Nothing is looked up, created or written. |
| Checkout.SessionReply | app/api/stripe/checkout/route.ts:72-78 | The answer after the session call: 200 with the session's URL, or the catch's 500. `CustomerCreateOrReuse` states which. |
| Checkout.UnknownUserRejected | app/api/stripe/checkout/route.ts:21-27 | A valid plan for an email no user has gets 404, and nothing happens. |
| Checkout.UnconfiguredPriceRejected | app/api/stripe/checkout/route.ts:29-33 | When the requested plan's price id is empty, the answer is 500 "Precio no configurado", whatever the other prices are. No customer is created and nothing is written. |
| Checkout.CustomerCreateOrReuse | app/api/stripe/checkout/route.ts:36-70 | A stored customer id is reused: no customer is created and nothing is written. Otherwise a customer is created for the user's email and id. A creation that throws gets the catch's 500 with the error's message, or the default, and no session. A new id is stored on that user only. The session requested is `SessionFor` of the customer id used, the user, the plan and its price. It charges the requested plan's price, and its metadata is exactly the user's id and the requested plan. The answer is 200 with the session's URL, or the catch's 500 when session creation throws. |
| Checkout.SessionFor | app/api/stripe/checkout/route.ts:54-70 | The session requested: the given customer, mode `subscription`, card payment only, the given price with quantity 1, return URLs `/account?success=true` and `/account?canceled=true` under the base URL, which differ, and metadata with exactly the keys `userId` and `plan`, holding the user and the plan. |
| Checkout.MetadataReadByWebhook | app/api/stripe/checkout/route.ts:66-69 | The session metadata holds exactly `userId` and `plan`, and the webhook's checkout handler reads them back unchanged. |
| Checkout.CheckoutThenWebhook | app/api/stripe/checkout/route.ts:15-70 | Assuming user ids are non-empty: when the requested session completes, the user who asked has the plan they asked for, its limit (500, 2000 or 10000), zero usage and ACTIVE. |
| Checkout.SessionRequested | app/api/stripe/checkout/route.ts:15-70 | A checkout that asks for a session passed the guards, for the plan the body names, and the session's metadata names that user and that plan. |
| Checkout.CompletionGrantsPlan | app/api/stripe/webhook/route.ts:73-94 | Completing a session whose metadata names an existing user (with a non-empty id) and a purchasable plan gives that user the plan, its limit (500, 2000 or 10000), zero usage and ACTIVE. |
| Account.IndexOf | app/account/page.tsx:143 | `indexOf` on the plan order. `IndexOfSpec` states its meaning. |
| Account.LaterThan | app/account/page.tsx:141-144 | The `filter` over the `PLANS` entries. `LaterThanMembers` and `LaterThanSuffix` state what it keeps. |
| Account.AvailablePlans | app/account/page.tsx:141-144 | The offered upgrades. `OffersForKnownPlan`, `OffersForUnknownPlan`, `OffersPerPlan` and `OfferedIffLater` state which plans they are. |
| Account.ShowsUpgrades | app/account/page.tsx:255 | Whether the upgrade section renders. `UpgradesShownUnlessEnterprise` states when. |
| Account.RemainingMessages | app/account/page.tsx:229 | The remaining figure, not clamped at zero. `RemainingUnclamped` states its meaning. |
| Account.ShowsManageButton | app/account/page.tsx:233 | Whether the manage button renders. `ManageButtonPerStatus` states when. |
| Account.IndexOfSpec | app/account/page.tsx:143 | `indexOf` gives the first position of the key, or -1 exactly when the key is absent. |
| Account.LaterThanMembers | app/account/page.tsx:141-144 | The filter keeps an entry exactly when its key is strictly later in the plan order than the bound. |
| Account.PlanKeysInOrder | app/account/page.tsx:15-40 | The keys of `PLANS` stand at positions 0 to 3 of the plan order. |
| Account.LaterThanSuffix | app/account/page.tsx:141-144 | Filtering a suffix of `PLANS` keeps exactly its entries past the bound, in declaration order. |
| Account.OffersForKnownPlan | app/account/page.tsx:141-144 | For a plan in the order, the offers are exactly the later plans, in declaration order. |
| Account.OffersForUnknownPlan | app/account/page.tsx:142-143 | An unrecognised plan string is offered all four plans, FREE included. |
| Account.OffersPerPlan | app/account/page.tsx:141-144 | FREE is offered PRO, PREMIUM and ENTERPRISE; PRO is offered PREMIUM and ENTERPRISE; PREMIUM only ENTERPRISE; ENTERPRISE nothing. |
| Account.UpgradesShownUnlessEnterprise | app/account/page.tsx:255 | The upgrade section is rendered if and only if the current plan is not ENTERPRISE; an unrecognised plan string shows it too. |
| Account.OfferedIffLater | app/account/page.tsx:141-144 | A plan is offered if and only if it is strictly later in the order than the current plan. |
| Account.RemainingUnclamped | app/account/page.tsx:229 | The remaining figure and the usage add up to the limit. It is negative exactly when usage exceeds the limit. |
| Account.ManageButtonPerStatus | app/account/page.tsx:233 | The button is shown exactly when a status is stored and it is not INACTIVE. ACTIVE, CANCELED and PAST_DUE all show it. |
| Account.ReportedUsageHidesManageButton | app/account/page.tsx:233 | The usage that the `getUsage` branch of the alternative chat route reports (used, limit and plan only) never shows the manage button, even for an ACTIVE subscription. The remaining figure is unaffected. |
| Account.PlansAgreeWithWebhook | app/account/page.tsx:15-40 | The message counts shown (50, 500, 2000, 10000) are the webhook's limits, FREE's fallback included. |
| Account.RenewalRestoresRemaining | app/api/stripe/webhook/route.ts:141-157 | After a renewal payment the page shows the whole limit as remaining, and shows the manage button. |
| Export.TxtBlock | app/utils/exportUtils.ts:10-12 | One message's text block. `TxtBlockShape` states its layout. |
| Export.TxtBlocks | app/utils/exportUtils.ts:10-12 | The `map` to text blocks: one block per message, in order. |
| Export.Concat | app/utils/exportUtils.ts:13 | `join('')`. `ConcatAppend` states how it splits. |
| Export.ExportTxt | app/utils/exportUtils.ts:9-15 | The text export. `EmptyConversation`, `TxtAppendMessage` and `TxtBlockInPlace` state its contents. |
| Export.MdBlock | app/utils/exportUtils.ts:21-23 | One message's Markdown block. |
| Export.MdBlocks | app/utils/exportUtils.ts:21-23 | The `map` to Markdown blocks: one block per message, in order. |
| Export.Join | app/utils/exportUtils.ts:24 | `join(sep)`. `JoinAppend` states how it grows. |
| Export.ExportMarkdown | app/utils/exportUtils.ts:20-24 | The Markdown export. `EmptyConversation` and `MarkdownAppendMessage` state its contents. |
| Export.Repeat | app/utils/exportUtils.ts:15 | `repeat(n)` gives `n` copies of the character and nothing else. |
| Export.ConcatAppend | app/utils/exportUtils.ts:10-13 | `join('')` of two lists is the concatenation of their joins. |
| Export.JoinAppend | app/utils/exportUtils.ts:21-24 | Joining one more block adds the separator and the block, except after an empty list. |
| Export.RuleIsFiftyEquals | app/utils/exportUtils.ts:15 | The rule under the title is exactly fifty `=`. |
| Export.EmptyConversation | app/utils/exportUtils.ts:15-24 | An empty conversation exports to its header alone in both formats. |
| Export.TxtAppendMessage | app/utils/exportUtils.ts:10-15 | Each message adds its block at the end of the text export, with no separator. |
| Export.MarkdownAppendMessage | app/utils/exportUtils.ts:21-24 | Each message adds a newline, except the first, and then its block at the end of the Markdown export. |
| Export.TxtBlockInPlace | app/utils/exportUtils.ts:10-15 | The text export is the header, then the blocks of the messages in input order, each in its place. |
| Export.BlocksInPlace | app/utils/exportUtils.ts:10-13 | The joined blocks are those of the earlier messages, this message's block, then those of the later ones. |
| Export.TxtBlocksAppend | app/utils/exportUtils.ts:10-12 | Mapping messages to blocks commutes with appending message lists. |
| Export.TxtBlockShape | app/utils/exportUtils.ts:11-12 | A block is the role tag and a newline, the content unchanged, then `\n\n---\n\n`. |
| Export.MdBlockShape | app/utils/exportUtils.ts:22-23 | A Markdown block is the role heading and a blank line, the content unchanged, then `\n\n---\n`. |
| Export.FileName | app/utils/exportUtils.ts:16 | The file name starts with the title and ends with the format's extension. |
| Export.FileNamesPerFormat | app/utils/exportUtils.ts:16-114 | The names are exactly `title.txt`, `title.md`, `title.html` and `title.json`. |
| Export.FileNamesDistinct | app/utils/exportUtils.ts:16-114 | For one title, two formats give the same name exactly when they are the same format. |
| FileUtils.Classify | app/utils/fileUtils.ts:8-20 | The branch a type takes, first match first. `BranchOrder` states the order. |
| FileUtils.Content | app/utils/fileUtils.ts:5-33 | The content each branch sets. The per-branch lemmas below state it. |
| FileUtils.ProcessDocument | app/utils/fileUtils.ts:22-33 | The result always echoes the file's name and type unchanged. |
| FileUtils.OnlyPlainTextReads | app/utils/fileUtils.ts:8-20 | Only the plain-text branch reads the file; the other branches give the same result whatever the read would yield. |
| FileUtils.TextContent | app/utils/fileUtils.ts:8-34 | `text/plain` and `text/csv` give the file's text. When reading fails they give the error message naming the file, which is returned rather than thrown. |
| FileUtils.PdfContent | app/utils/fileUtils.ts:11-13 | `application/pdf` gives the PDF placeholder naming the file. |
| FileUtils.WordContent | app/utils/fileUtils.ts:14-16 | Any other type containing `word` or `document` gives the Word placeholder naming the file. |
| FileUtils.SpreadsheetContent | app/utils/fileUtils.ts:17-19 | A type containing `sheet` or `excel`, and neither `word` nor `document`, gives the spreadsheet placeholder. |
| FileUtils.OtherContent | app/utils/fileUtils.ts:5-20 | A type matching no branch gives empty content. |
| FileUtils.BranchOrder | app/utils/fileUtils.ts:14-19 | A type reaches the spreadsheet branch exactly when it contains `sheet` or `excel`, contains neither `word` nor `document`, and is not an exact text or PDF type. Any such type containing `word` or `document` goes to Word. |
| FileUtils.ContainsMiddle | app/utils/fileUtils.ts:14 | `includes` finds a substring placed anywhere in the string. |
| FileUtils.ContainsHasChars | app/utils/fileUtils.ts:14 | A string lacking a character of the substring does not include it. |
| FileUtils.XlsxTakesWordBranch | app/utils/fileUtils.ts:14-19 | The XLSX type contains `sheet`, yet gets the Word placeholder, because it also contains `document`. |
| FileUtils.XlsTakesSpreadsheetBranch | app/utils/fileUtils.ts:17-19 | The legacy Excel type gets the spreadsheet placeholder. |
| FileUtils.DocxTakesWordBranch | app/utils/fileUtils.ts:14-16 | The DOCX type gets the Word placeholder. |
| FileUtils.DocTakesWordBranch | app/utils/fileUtils.ts:14-16 | The legacy Word type gets the Word placeholder. |
| DocumentUpload.HandleFileSelect | app/components/DocumentUpload.tsx:26-39 | The type check, then the size check. `SelectionRule` and `SizeBoundary` state the outcome. |
| DocumentUpload.HandleDrop | app/components/DocumentUpload.tsx:41-49 | A drop. `DropUsesFirstFile` states the outcome. |
| DocumentUpload.GetFileInfo | app/components/DocumentUpload.tsx:60-63 | The shown entry. `FileInfoRule` states which. |
| DocumentUpload.FormatFileSize | app/components/DocumentUpload.tsx:65-69 | The printed size. `SmallSizeShown` states the bytes branch. |
| DocumentUpload.AcceptedKeys | app/components/DocumentUpload.tsx:12-20 | The keys are those of `ACCEPTED_TYPES`, in declaration order. |
| DocumentUpload.Lookup | app/components/DocumentUpload.tsx:61 | The lookup finds an entry exactly when the key is in the table, and returns that key's entry. |
| DocumentUpload.SelectionRule | app/components/DocumentUpload.tsx:26-39 | The file is handed on, unchanged, exactly when its type is accepted and its size is at most 25 MiB. An unsupported type gets the type alert whatever its size. Otherwise an oversize file gets the size alert. |
| DocumentUpload.SizeBoundary | app/components/DocumentUpload.tsx:33-36 | Exactly 25 MiB passes, and one byte more is rejected. |
| DocumentUpload.AcceptedKeysAreSeven | app/components/DocumentUpload.tsx:12-20 | Exactly seven types are accepted: PDF, DOCX, DOC, TXT, XLSX, XLS and CSV, in that order. |
| DocumentUpload.DropUsesFirstFile | app/components/DocumentUpload.tsx:41-49 | A drop is judged by its first file alone, and an empty drop does nothing. |
| DocumentUpload.FileInfoRule | app/components/DocumentUpload.tsx:60-63 | An accepted type shows its own table entry, never the generic one. Any other type shows the generic entry. |
| DocumentUpload.NatToString | app/components/DocumentUpload.tsx:66 | A byte count prints as a non-empty string of decimal digits: `0` for zero, and otherwise with no leading zero. |
| DocumentUpload.NatToStringRoundTrip | app/components/DocumentUpload.tsx:66 | The printed digits read back as the byte count. |
| DocumentUpload.SmallSizeShown | app/components/DocumentUpload.tsx:65-66 | Below 1024 bytes the size shows as the byte count in decimal, without leading zeros, followed by ` B`. |
| DocumentUpload.AcceptedTypeProcessed | app/utils/fileUtils.ts:8-20 | Each accepted document type reaches a non-empty branch of the processor. Text and CSV are read, PDF is PDF, XLS is a spreadsheet, and DOCX, DOC and XLSX are Word. |
| ImageUpload.HandleFileSelect | app/components/ImageUpload.tsx:17-28 | The type check, then the size check, then the read. `SelectionRule` and `SizeBoundary` state the outcome. |
| ImageUpload.Delivered | app/components/ImageUpload.tsx:29-33 | The `onImageSelect` call after the read. `CallbackRule` states when it happens. |
| ImageUpload.HandleDrop | app/components/ImageUpload.tsx:36-44 | A drop. `DropUsesFirstFile` states the outcome. |
| ImageUpload.SelectionRule | app/components/ImageUpload.tsx:17-28 | A file is read exactly when its type starts with `image/` and it is at most 10 MiB. A non-image gets the type alert whatever its size. |
| ImageUpload.SizeBoundary | app/components/ImageUpload.tsx:24-27 | Exactly 10 MiB is read, and one byte more is rejected. |
| ImageUpload.CallbackRule | app/components/ImageUpload.tsx:29-33 | `onImageSelect` is called exactly when both checks pass and the read succeeds. It gets that same file and the reader's data URL. |
| ImageUpload.DropUsesFirstFile | app/components/ImageUpload.tsx:36-44 | A drop is judged by its first file alone, and an empty drop does nothing. |
| DocumentUpload.OfficeTypesHead | app/components/DocumentUpload.tsx:14-17 | The DOCX and XLSX types begin with `a`. |
| DocumentUpload.DocumentTypeHead | app/components/DocumentUpload.tsx:12-20 | Every accepted document type begins with `a` or `t`. |
| ImageUpload.WidgetsDisjoint | app/components/ImageUpload.tsx:18 | No file passes both the image widget's guards and the document widget's. |

## Left out

- The payment provider's SDK is not modelled: signature verification, `customers.create`, `checkout.sessions.create` and the portal. Its results are parameters. The signature check is a fixed function of body and header, so the model has no clock: the SDK's timestamp tolerance, which rejects a late replay of the same request, is not modelled, and a real redelivery carries a new header anyway.
- Prisma is modelled as an in-memory table. The database shows nothing else: no persistence, no connection failures other than a missing id, and no transactions.
- Prisma's validation of the status enum is not modelled. The schema is not part of this model, and the model takes the four values the code writes.
- `app/api/stripe/webhook/route.ts:91`: `session.subscription as string` is stored as received. A missing subscription is stored as `None`.
- `PLAN_LIMITS` and `ACCEPTED_TYPES` are plain objects. Lookups of inherited keys such as `constructor` are not modelled.
- `Account.UsageOf`: the usage endpoint the page calls, `/api/chat?getUsage=true`, is not part of this model. `UsageOf` assumes it reports the stored used, limit, plan and status. The variant in `app/api/chat/route(1).js` reports no status; `ReportedUsage` models that variant.
- `app/account/page(1).tsx` is an alternative version of the page and is not modelled. Its rules differ: it shows the manage button whenever the plan is not FREE, and offers every paid plan other than the current one, not only the later ones.
- The quota enforcer is not part of this model. It is in the chat route (`app/api/chat/route(1).js`, lines 119-129 and 184-190): it answers 429 once `messagesUsed` reaches the plan's limit and counts each answered message.
- Chat, login, portal and registration are not modelled: the chat proxy to the model provider, `app/api/auth/login/route.ts`, `app/api/stripe/portal/route.ts` and the `crear-usuario-juan.js` script. They are outside the billing rules. The script's ENTERPRISE limit of 999999 is outside the plan/limit invariant.
- `lib/stripe.ts` and `next.config.js` contribute only their constants: the price ids default to `''`, and the base URL is a parameter.
- The UI is not modelled: rendering, navigation, React state, drag highlighting, theme and the export menu.
- Floating-point figures are not modelled: the KB and MB branches of `formatFileSize`, the usage percentage and its colour threshold, and prices.
- `DocumentUpload.FormatFileSize`: gives `None` for 1024 bytes and more, because those branches print `toFixed(1)` fractions.
- The HTML and JSON exports are not modelled (`escapeHtml` uses the DOM, and `JSON.stringify` and `Date` are runtime). Only their file names are modelled.
- `downloadBlob`, `FileReader`, `file.text()` and `processImage` are runtime I/O. Their results are parameters.
- Concurrency between webhook deliveries and chat requests is not modelled.
- Feature lists and display names beyond the plan keys are not modelled.
