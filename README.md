# QR generator: payloads, subscriptions and the Firestore store

This project models the logic of a Next.js QR-code generator with a paid plan, and proves properties of that model. It has five parts:

- **The payload encoder** of the generator form. The active tab and the form fields become the exact text put in the QR code: a URL, plain text, a `tel:` URI, a `WIFI:T:…;S:…;P:…;;` network, or a vCard 3.0 card.
- **The Firestore service layer.** This covers `cleanUndefinedValues`, creating or updating a user profile with defaults filled in, the whole-record replacement of the subscription sub-record, the read-then-increment counters, and the QR-code document operations.
- **The Stripe webhook route.** It checks configuration and the signature, then turns each event into at most one `updateSubscription` write.
- **The checkout-session and billing-portal routes.** Each is a chain of guards. The checkout route assigns a Stripe customer id to a profile once, and builds the Checkout Session for a premium plan. The portal route opens a billing-portal session for the stored customer.
- **The `useQRCodes` hook.** It holds the signed-in user's list of QR codes, with load, save, delete and update.

## How it is modelled

- **Documents.** A document is a `map<string, Json>`, and `Json` distinguishes JavaScript's `undefined` (`Undef`) from `null`. Timestamps (`serverTimestamp()`, `Timestamp`) are opaque millisecond values. The current time is a `now` parameter.
- **The store.** `Database.Firestore` is a class with the `users` and `qr-codes` collections as map fields. Its methods state the whole new state of both. An `updateDoc` on a missing document fails (`Failed(NotFound)`), and the routes answer that with 500.
- **Routes.** Each route is a function of its inputs: configuration, request body, origin, the store, and the replies of the Stripe calls it makes. Methods perform the same steps on the store and are proved equal to those functions. The webhook's retrieve calls are given as `Lookups`. Signature verification is given as the event it yields, or None when `constructEvent` throws.
- **Form validity.** What `getFieldState(name).invalid` reports for the url, email and website fields is an input (`FieldStates`). These flags are where the zod checks come in.
- **The hook.** Each awaited service call is an input reply: a value, or a thrown value.

The plan key is stored verbatim. The checkout route tags each session with the plan key it sold (`PREMIUM_MONTHLY` or `PREMIUM_YEARLY`), and the webhook's checkout handler stores that key as the profile's `plan`. The profile type's `'free' | 'premium'` is therefore not maintained: after a purchase, the pricing cards' `currentPlan === "premium"` test does not hold until a subscription-update event writes `premium`. The model keeps `plan` a string and shows this in `PlanConsistency`.

## Model

| member | source | states |
|---|---|---|
| QrPayload.GenerateQrData | src/components/qr-code-generator.tsx:80-102 | the definition of `generateQrData` over the tab, the form values and the field states; the `*TabPayload` lemmas, `ContactNeedsBothNames` and `ContactLines` state what it gives |
| QrPayload.WifiPayload | src/components/qr-code-generator.tsx:90 | the definition of the `WIFI:` template; `WifiRoundTrip` proves the decoder inverts it, and `WifiPayloadAmbiguous` that it escapes nothing |
| QrPayload.ContactPayload | src/components/qr-code-generator.tsx:92-98 | the definition of the card appended to step by step; `ContactFraming`, `ContactPayloadIsJoinedLines` and `ContactLines` state its shape |
| QrPayload.UrlTabPayload | src/components/qr-code-generator.tsx:83-84 | the URL tab gives the URL verbatim when it is non-empty and its field is not flagged invalid, and "" otherwise |
| QrPayload.TextTabPayload | src/components/qr-code-generator.tsx:85-86 | the text tab gives the text verbatim, which is "" when the text is empty |
| QrPayload.PhoneTabPayload | src/components/qr-code-generator.tsx:87-88 | the phone tab gives "tel:" followed by the phone when the phone is non-empty, and "" otherwise |
| QrPayload.WifiTabPayload | src/components/qr-code-generator.tsx:89-90 | the Wi-Fi tab gives "" for an empty SSID; otherwise it gives exactly `WIFI:T:`+encryption+`;S:`+ssid+`;P:`+password+`;;`, which starts with `WIFI:T:` and ends with `;;` |
| QrPayload.OtherTabPayload | src/components/qr-code-generator.tsx:99-100 | a tab value outside the five tabs gives "" |
| QrPayload.PayloadReadsOnlyItsTab | src/components/qr-code-generator.tsx:80-102 | two form states that agree on the active tab's fields give the same payload |
| QrPayload.ParseEncryption | src/components/qr-code-generator.tsx:44 | decodes exactly the three encryption names of the schema: WPA, WEP and nopass |
| QrPayload.WifiRoundTrip | src/components/qr-code-generator.tsx:90 | for an SSID without `;`, decoding the Wi-Fi text gives back the encryption, the SSID and the password |
| QrPayload.NetworkRoundTrip | src/components/qr-code-generator.tsx:90 | the `S:…;P:…` part decodes to the SSID and password when the SSID holds no `;` |
| QrPayload.FieldsRoundTrip | src/components/qr-code-generator.tsx:90 | the text after `WIFI:T:` decodes to the encryption, SSID and password when the SSID holds no `;` |
| QrPayload.WifiPayloadFramed | src/components/qr-code-generator.tsx:90 | the Wi-Fi text is the prefix `WIFI:T:`, the fields with single-character `;` separators, and the suffix `;;` |
| QrPayload.WifiPayloadAmbiguous | src/components/qr-code-generator.tsx:90 | nothing is escaped: two different networks, one with a `;` in its SSID, give the same Wi-Fi text |
| QrPayload.IndexOf | src/components/qr-code-generator.tsx:90 | helper of the Wi-Fi decoder used by `WifiRoundTrip`: finds the first occurrence of a separator, or reports that there is none |
| QrPayload.ContactNeedsBothNames | src/components/qr-code-generator.tsx:92 | the contact tab gives "" whenever the first or last name is empty |
| QrPayload.ContactFraming | src/components/qr-code-generator.tsx:93-97 | a contact payload starts with `BEGIN:VCARD`, `VERSION:3.0`, `N:last;first` and `FN:first last`, each ended by a line feed, and ends with `END:VCARD` and no line feed after it |
| QrPayload.HeaderTerminated | src/components/qr-code-generator.tsx:93 | helper of `ContactFraming` and `ContactPayloadIsJoinedLines`: the card's header text is its four header lines, each followed by a line feed |
| QrPayload.ContactPayloadIsJoinedLines | src/components/qr-code-generator.tsx:93-97 | the card is its lines joined by line feeds: the header, then TEL, EMAIL and URL in that order, each only when present, then `END:VCARD` |
| QrPayload.ContactLines | src/components/qr-code-generator.tsx:93-97 | when no field holds a line feed, splitting the card at line feeds gives exactly the header lines, then TEL iff a phone is given, EMAIL iff an e-mail is given and valid, URL iff a web site is given and valid, then `END:VCARD` |
| QrPayload.LinesHaveNoLineFeed | src/components/qr-code-generator.tsx:93-97 | helper of `ContactLines`: no card line holds a line feed when no field does |
| QrPayload.SplitJoin | src/components/qr-code-generator.tsx:93-97 | splitting lines joined by line feeds gives those lines back, when none of them holds a line feed |
| QrPayload.BuildVCard | src/components/qr-code-generator.tsx:92-98 | the card built step by step with `+=` is the contact payload |
| QrPayload.ComputeQrData | src/components/qr-code-generator.tsx:80-102 | the switch on the active tab computes the payload of that tab |
| QrPayload.QrCodeGenerator.constructor | src/components/qr-code-generator.tsx:54-74 | the generator starts on the URL tab with the default form and `https://firebase.google.com` as its data, which is also the payload the defaults give |
| QrPayload.QrCodeGenerator.Refresh | src/components/qr-code-generator.tsx:103-105 | the effect sets `qrData` to the payload of the current tab and form |
| QrPayload.QrCodeGenerator.SelectTab | src/components/qr-code-generator.tsx:54-105 | changing tab keeps the form and recomputes `qrData` for the new tab |
| QrPayload.QrCodeGenerator.Edit | src/components/qr-code-generator.tsx:77-105 | an edit keeps the tab and recomputes `qrData` for the new form |
| Database.CleanObject | src/lib/database.ts:91-104 | the cleaned object keeps exactly the keys whose value is not `undefined`, and every non-object value unchanged |
| Database.CleanUndefinedValues | src/lib/database.ts:91-104 | the loop over the entries, descending into nested objects, computes the cleaned object |
| Database.CleanLeavesNoUndefined | src/lib/database.ts:90-104 | after cleaning, no object level holds `undefined` |
| Database.CleanKeepsDefinedObject | src/lib/database.ts:90-104 | cleaning an object without `undefined` at any level changes nothing |
| Database.CleanIdempotent | src/lib/database.ts:90-104 | cleaning twice is cleaning once |
| Database.CleanValueTruthy | src/lib/database.ts:95-100 | cleaning a defined value keeps it defined and keeps its truthiness, so the `||` defaults read it the same way |
| Database.NoUndefinedUpdate | src/lib/database.ts:182-204 | adding a defined entry to an object without `undefined` keeps it so |
| Database.ParseStatus | src/lib/database.ts:49 | reads back exactly the three local status names |
| Database.SubscriptionJson | src/lib/database.ts:47-53 | the sub-record literal has `plan` and `status`, and each optional part exactly when it is given |
| Database.SubscriptionRoundTrip | src/lib/database.ts:47-53 | a written sub-record reads back as the record that was written |
| Database.DefaultsDefined | src/lib/database.ts:184-201 | the default subscription, preferences and usage hold no `undefined`, so cleaning leaves them unchanged |
| Database.DefaultSubscriptionDefined | src/lib/database.ts:184-187 | the default subscription holds no `undefined` and is unchanged by cleaning |
| Database.DefaultPreferencesDefined | src/lib/database.ts:188-196 | the default preferences hold no `undefined` and are unchanged by cleaning |
| Database.DefaultUsageDefined | src/lib/database.ts:197-201 | the default usage holds no `undefined` and is unchanged by cleaning |
| Database.NewUserDataDefined | src/lib/database.ts:182-204 | the new-user literal built from a cleaned profile holds no `undefined` |
| Database.NewUserDataParts | src/lib/database.ts:182-204 | the new-user literal: its keys, each defaulted part as `supplied or default`, both timestamps, and every other cleaned field unchanged |
| Database.NewUserData | src/lib/database.ts:182-204 | the definition of the `newUserData` literal; `NewUserDataParts` and `NewUserDataDefined` state its keys and values |
| Database.FieldOr | src/lib/database.ts:184-201 | the definition of `part || default`; `NewUserDoc` states its effect for each defaulted part |
| Database.NewUserDoc | src/lib/database.ts:180-206 | a new profile holds no `undefined`; it takes each of subscription, preferences and usage as supplied (cleaned) when truthy, otherwise the free/active, system/256/#000000/#ffffff/M and 0/0 defaults; both timestamps are now; every other defined field of the profile is kept, and no other key appears |
| Database.WrittenKeysDistinct | src/lib/database.ts:182-204 | helper of `NewUserDoc`: the five keys the new-user literal writes are distinct, so none overrides another |
| Database.ExistingUserDoc | src/lib/database.ts:174-179 | an existing profile takes every supplied defined field, cleaned, keeps every other stored field, and gets `updatedAt` = now |
| Database.SubscriptionWrite | src/lib/database.ts:220-226 | the subscription sub-record is replaced as a whole, `updatedAt` becomes now, and every other field is unchanged |
| Database.ProfileOf | src/lib/database.ts:210-218 | the definition of what `getById` gives, as a value; `GetUser` returns it and `StoredCustomerIdReadsBack` reads through it |
| Database.CustomerIdOf | src/app/api/stripe/create-checkout-session/route.ts:40-41 | the customer id read through `?.` is Some only for a truthy `stripeCustomerId` of an object sub-record of an existing profile, and is that value |
| Database.StoredCustomerIdReadsBack | src/app/api/stripe/create-checkout-session/route.ts:40-59 | a customer id just written into the sub-record reads back through `getById` |
| Database.UsageIncremented | src/lib/database.ts:228-237 | incrementing raises only the named counter, to its old value plus one (an absent counter counting as 0), sets `updatedAt`, and keeps every other field; it fails exactly when `usage` is null or absent |
| Database.Count | src/lib/database.ts:231 | the definition of `counter || 0` on a stored counter (also `scanCount || 0` at line 159); `UsageIncremented` and `ScanCountIncremented` state the increment |
| Database.ScanCountIncremented | src/lib/database.ts:155-162 | `scanCount` becomes its old value plus one (absent counting as 0), `updatedAt` becomes now, and every other field is unchanged |
| Database.InitialProfile | src/lib/database.ts:267-294 | the profile handed on has the uid, the e-mail, the free/active subscription, the default preferences and usage, and `displayName` exactly when a non-empty one is given |
| Database.InitializedProfileIsFree | src/lib/database.ts:267-296 | a newly initialised profile reads back as free and active with no processor ids, with both counters at 0, and has a display name exactly when a non-empty one was given |
| Database.DisplayNameIsPlain | src/lib/database.ts:292-294 | helper of `InitializedProfileIsFree`: `displayName` is neither a defaulted part nor a timestamp key |
| Database.DefaultSubscriptionReadsFree | src/lib/database.ts:184-187 | the default sub-record reads back as free, active and without processor ids |
| Database.InitializeOverwritesSubscription | src/lib/database.ts:267-296 | run on an existing profile, initialisation overwrites its subscription with the free default |
| Database.Firestore.constructor | src/lib/database.ts:84-88 | the store starts with the given `users` and `qr-codes` collections |
| Database.Firestore.GetUser | src/lib/database.ts:210-218 | returns the stored fields with the document id added as `id`, or None when there is no document |
| Database.Firestore.CreateOrUpdate | src/lib/database.ts:167-208 | writes `ExistingUserDoc` for an existing uid and `NewUserDoc` for a new one; nothing else changes |
| Database.Firestore.UpdateSubscription | src/lib/database.ts:220-226 | replaces the sub-record of an existing profile, or fails with NotFound and changes nothing |
| Database.Firestore.IncrementUsage | src/lib/database.ts:228-237 | a missing user is a no-op; a null or absent `usage` throws and changes nothing; otherwise the profile becomes `UsageIncremented` |
| Database.StorableHasNoUndefined | src/lib/database.ts:108-113 | data Firestore accepts (no `undefined` in any object or array) holds no `undefined` at any object level |
| Database.CreatedQrCode | src/lib/database.ts:109-113 | the `addDoc` data has the record's keys plus both timestamps, set to now, and the record's other values unchanged |
| Database.CreatedQrCodeStorable | src/lib/database.ts:108-113 | `addDoc` accepts the new code exactly when no value of the record other than the two overridden timestamps holds `undefined` |
| Database.UntitledQrCodeRejected | src/lib/database.ts:26 | a code whose optional `title` is `undefined` is rejected |
| Database.NestedUndefinedRejected | src/lib/database.ts:32 | a code whose optional `customizations.logoUrl` is `undefined` is rejected |
| Database.Firestore.CreateQrCode | src/lib/database.ts:108-115 | adds the code under a fresh id with both timestamps set to now; data holding `undefined` anywhere fails with UndefinedValue and nothing is stored |
| Database.Firestore.GetQrCode | src/lib/database.ts:117-125 | returns the stored fields with the id added, or None |
| Database.Firestore.UpdateQrCode | src/lib/database.ts:142-148 | updates holding `undefined` anywhere fail with UndefinedValue; otherwise it merges the updates and `updatedAt` into an existing code, or fails with NotFound; a failure changes nothing |
| Database.Firestore.DeleteQrCode | src/lib/database.ts:150-153 | removes the code with that id, if any |
| Database.Firestore.IncrementScanCount | src/lib/database.ts:155-162 | an existing code becomes `ScanCountIncremented`; a missing code is a no-op |
| Database.InitializeUserProfile | src/lib/database.ts:267-297 | hands the initial profile to `createOrUpdate`, with the resulting new state of both collections |
| StripeWebhooks.StatusCode | src/app/api/stripe/webhooks/route.ts:11-89 | 200 exactly for disabled processing and received events, 400 exactly for a missing or invalid signature, 500 exactly for a processing failure |
| StripeWebhooks.MetadataValue | src/app/api/stripe/webhooks/route.ts:93-96 | a metadata value is read only when the metadata exists and holds a non-empty value for the key |
| StripeWebhooks.MapStatus | src/app/api/stripe/webhooks/route.ts:147-163 | active and trialing map to active; canceled and unpaid to cancelled; every other status, past_due, incomplete and incomplete_expired included, to expired |
| StripeWebhooks.PlanFor | src/app/api/stripe/webhooks/route.ts:166 | the plan is "premium" exactly when the mapped status is active, and "free" otherwise |
| StripeWebhooks.CheckoutAction | src/app/api/stripe/webhooks/route.ts:92-119 | the definition of `handleCheckoutCompleted` as the write it decides; `CheckoutWritesMetadataPlan` and `CheckoutWithoutMetadataIsIgnored` state it |
| StripeWebhooks.UpdatedAction | src/app/api/stripe/webhooks/route.ts:121-174 | the definition of `handleSubscriptionUpdated`; `UpdatePlanFollowsStatus`, `SubscriptionHandlersNeedCustomerUid` and `PastDueExpires` state it |
| StripeWebhooks.DeletedAction | src/app/api/stripe/webhooks/route.ts:176-195 | the definition of `handleSubscriptionDeleted`; `DeletionClearsPeriodEnd` and `SubscriptionHandlersNeedCustomerUid` state it |
| StripeWebhooks.EventAction | src/app/api/stripe/webhooks/route.ts:46-81 | the definition of the switch on the event type; `LoggedEventsChangeNothing` states its no-op branches |
| StripeWebhooks.ApplyAction | src/app/api/stripe/webhooks/route.ts:82-89 | the definition of the decided write applied to the store, answered 500 when it throws; `ActionTouchesOneRecord`, `ActionIsIdempotent` and `ActionRedelivered` state it |
| StripeWebhooks.Webhook | src/app/api/stripe/webhooks/route.ts:9-90 | the definition of the whole route; `RejectedRequestsChangeNothing` and `HandleWebhook` state it |
| StripeWebhooks.HandleWebhook | src/app/api/stripe/webhooks/route.ts:9-90 | handling a request on the store gives the response and the `users` collection of `Webhook`; `qr-codes` is unchanged |
| StripeWebhooks.RejectedRequestsChangeNothing | src/app/api/stripe/webhooks/route.ts:11-44 | an unconfigured route (200), a missing signature or a failed verification (400) changes nothing |
| StripeWebhooks.LoggedEventsChangeNothing | src/app/api/stripe/webhooks/route.ts:66-206 | invoice events and unhandled event types are answered as received and change nothing |
| StripeWebhooks.ActionTouchesOneRecord | src/app/api/stripe/webhooks/route.ts:110-192 | a handler changes at most the one named profile, and in it only `subscription` and `updatedAt` |
| StripeWebhooks.WebhookTouchesOneRecord | src/app/api/stripe/webhooks/route.ts:46-82 | the same for every event |
| StripeWebhooks.WrittenRecordReadsBack | src/app/api/stripe/webhooks/route.ts:110-192 | a written sub-record reads back as exactly the decided subscription, whatever the profile held before |
| StripeWebhooks.ActionIsIdempotent | src/app/api/stripe/webhooks/route.ts:165-192 | applying the same decided write twice at the same instant leaves the store as applying it once |
| StripeWebhooks.ReplayIsIdempotent | src/app/api/stripe/webhooks/route.ts:46-89 | delivering the same event twice at the same instant leaves the store and the response as delivering it once |
| StripeWebhooks.ActionRedelivered | src/app/api/stripe/webhooks/route.ts:165-192 | applying a decided write again later gives the same response and changes only the written profile's `updatedAt`, to the later time |
| StripeWebhooks.ReplayMovesOnlyUpdatedAt | src/app/api/stripe/webhooks/route.ts:46-89 | a later redelivery of an event gives the same response, and its only change to the store is the written profile's `updatedAt` |
| StripeWebhooks.DeletionClearsPeriodEnd | src/app/api/stripe/webhooks/route.ts:187-192 | a deleted subscription writes plan free, status cancelled, the processor ids, and no `currentPeriodEnd` |
| StripeWebhooks.CheckoutWritesMetadataPlan | src/app/api/stripe/webhooks/route.ts:93-116 | a checkout writes for the metadata's user the metadata `planId` verbatim, active, with the retrieved subscription's period end times 1000 |
| StripeWebhooks.CheckoutExample | src/app/api/stripe/webhooks/route.ts:92-116 | a concrete checkout writes a period end of 1700000000 seconds as 1700000000000 milliseconds |
| StripeWebhooks.CheckoutWithoutMetadataIsIgnored | src/app/api/stripe/webhooks/route.ts:96-99 | a checkout without a truthy `firebaseUid` or `planId` writes nothing and is acknowledged |
| StripeWebhooks.UpdatePlanFollowsStatus | src/app/api/stripe/webhooks/route.ts:147-171 | an update writes premium exactly for an active or trialing subscription, active exactly with premium, the processor ids, and `current_period_end` times 1000 as the period end |
| StripeWebhooks.SubscriptionHandlersNeedCustomerUid | src/app/api/stripe/webhooks/route.ts:137-185 | a failed customer retrieve throws; a deleted customer, or a live one without a truthy `firebaseUid`, writes nothing; the two handlers write for the same customers, and each write goes to the customer's non-empty `firebaseUid` |
| StripeWebhooks.PastDueExpires | src/app/api/stripe/webhooks/route.ts:156-167 | a past-due update writes plan free, status expired |
| CheckoutRoute.StatusCode | src/app/api/stripe/create-checkout-session/route.ts:10-88 | 200 exactly for a created session, 400 exactly for missing fields or an invalid plan, 503 exactly when not configured, 500 for anything thrown |
| CheckoutRoute.Checkout | src/app/api/stripe/create-checkout-session/route.ts:7-89 | the definition of the route as its response, its Stripe calls and the `users` collection after it; `RejectedRequestsChangeNothing`, `ReachesPurchase`, `SessionParameters` and `SuccessCarriesSessionId` state it |
| CheckoutRoute.Validate | src/app/api/stripe/create-checkout-session/route.ts:19-37 | the definition of the field and plan checks; `RequestValidation` states them |
| CheckoutRoute.PurchasablePrice | src/app/api/stripe/create-checkout-session/route.ts:26-37 | the definition of the plan test against `PLANS`; `PurchasablePlans` states which plans pass |
| CheckoutRoute.CustomerRecord | src/app/api/stripe/create-checkout-session/route.ts:53-58 | the definition of the spread sub-record; `NewCustomerRecordFields` states it field by field |
| CheckoutRoute.SessionParamsFor | src/app/api/stripe/create-checkout-session/route.ts:62-79 | the definition of the session parameters; `SessionParamsForIsSessionFor` and `SessionParameters` state them |
| CheckoutRoute.PurchasablePlans | src/app/api/stripe/create-checkout-session/route.ts:26-37 | with the plan table, a plan can be bought exactly when it is PREMIUM_MONTHLY or PREMIUM_YEARLY, at `price_premium_monthly` and `price_premium_yearly`, which are their table prices |
| CheckoutRoute.Purchase | src/app/api/stripe/create-checkout-session/route.ts:40-88 | after validation the route makes at most one customer call and then one session call, for one unit of the plan's price, tagged with the user and the plan key; success carries the created session's id |
| CheckoutRoute.EnsureCustomer | src/app/api/stripe/create-checkout-session/route.ts:40-59 | the only Stripe call before the session is one customer creation tagged `firebaseUid` = the user |
| CheckoutRoute.CreateCheckoutSession | src/app/api/stripe/create-checkout-session/route.ts:9-89 | the route on the store gives the response, calls and `users` collection of `Checkout`; `qr-codes` is unchanged |
| CheckoutRoute.PurchaseSteps | src/app/api/stripe/create-checkout-session/route.ts:40-81 | the steps after validation give the outcome of `Purchase` |
| CheckoutRoute.AssignCustomer | src/app/api/stripe/create-checkout-session/route.ts:40-59 | reading and, when needed, reassigning and storing the customer id gives the outcome of `EnsureCustomer` |
| CheckoutRoute.RejectedRequestsChangeNothing | src/app/api/stripe/create-checkout-session/route.ts:10-37 | 503 exactly when not configured; the 503, 400 and unreadable-body answers call Stripe for nothing and write nothing |
| CheckoutRoute.RequestValidation | src/app/api/stripe/create-checkout-session/route.ts:19-37 | 400 "missing" exactly when `planId` or `userId` is falsy; 400 "invalid plan" exactly when both are given and the plan is neither premium key; neither calls Stripe nor writes |
| CheckoutRoute.ExistingCustomerReused | src/app/api/stripe/create-checkout-session/route.ts:40-79 | a stored customer id is reused: no customer is created, nothing is written, and the one session is charged to that id |
| CheckoutRoute.NewCustomerFailure | src/app/api/stripe/create-checkout-session/route.ts:44-88 | without a stored id, a failed customer creation or a missing profile document gives 500 after the one customer call, with nothing written |
| CheckoutRoute.NewCustomerRecorded | src/app/api/stripe/create-checkout-session/route.ts:44-79 | otherwise a customer tagged with the user is created, only this profile's sub-record changes, keeping its prior fields but with the new customer id, plan free and status active, and the session is charged to the new customer |
| CheckoutRoute.NewCustomerRecordFields | src/app/api/stripe/create-checkout-session/route.ts:53-58 | the written sub-record is the prior one's fields with `stripeCustomerId`, `plan` and `status` set over them |
| CheckoutRoute.CustomerAssignedOnce | src/app/api/stripe/create-checkout-session/route.ts:40-59 | after a checkout that stored a new customer id, the next checkout by the same user reuses it, creates no customer and writes nothing |
| CheckoutRoute.ReachesPurchase | src/app/api/stripe/create-checkout-session/route.ts:10-37 | a request that calls Stripe or succeeds was configured, had both fields as non-empty strings and named a purchasable plan |
| CheckoutRoute.SessionParameters | src/app/api/stripe/create-checkout-session/route.ts:62-79 | every session the route creates is its last call, for one unit of the premium plan's price, in subscription mode, by card with a required billing address, returning to the subscribe pages, with metadata `{firebaseUid: userId, planId}` |
| CheckoutRoute.SessionParamsForIsSessionFor | src/app/api/stripe/create-checkout-session/route.ts:62-79 | the parameters built for a premium plan meet those requirements |
| CheckoutRoute.SuccessCarriesSessionId | src/app/api/stripe/create-checkout-session/route.ts:81 | a success response carries the id Stripe gave the session, and comes only after that session was requested |
| PortalRoute.StatusCode | src/app/api/stripe/customer-portal/route.ts:9-49 | 200 exactly for a portal URL, 400 for a missing user id, 404 for no customer, 503 when not configured, 500 for anything thrown |
| PortalRoute.Portal | src/app/api/stripe/customer-portal/route.ts:9-49 | a portal session is requested only for the stored truthy customer id of the named user, returning to origin + "/subscribe"; the answer is a URL exactly when one was requested and created, and it is the created session's URL |
| PortalRoute.PortalGuards | src/app/api/stripe/customer-portal/route.ts:9-34 | 503 exactly when not configured, 400 exactly without a truthy `userId`, 404 exactly when the profile is absent or has no truthy customer id; none of them requests a session |
| PortalRoute.PortalForStoredCustomer | src/app/api/stripe/customer-portal/route.ts:26-49 | for a stored customer id the session is requested for exactly that id, and the answer is its URL, or 500 when the call throws |
| PlanConsistency.CheckedOutPlanIsPlanKey | src/app/api/stripe/create-checkout-session/route.ts:75-78 | the completed checkout of a session the route created writes, when the subscription can be retrieved, the user's plan as the plan key PREMIUM_MONTHLY or PREMIUM_YEARLY verbatim, which the pricing cards do not show as premium |
| PlanConsistency.TaggedCheckoutWritesKey | src/app/api/stripe/webhooks/route.ts:93-116 | a completed session tagged with a user and a premium plan key writes that key as the plan for that user exactly when the subscription can be retrieved |
| PlanConsistency.ActiveUpdateShowsPremium | src/app/api/stripe/webhooks/route.ts:165-166 | an active subscription update writes the one plan, "premium", that the pricing cards show as current |
| PlanConsistency.CurrentPlan | src/components/pricing-cards.tsx:26 | the definition of the plan the cards show: the stored `plan`, or "free" when it is falsy; `CheckedOutPlanIsPlanKey` and `ActiveUpdateShowsPremium` use it |
| PlanConsistency.ShowsPremium | src/components/pricing-cards.tsx:148 | the definition of `currentPlan === "premium"`, the premium card's "Current Plan" badge |
| QrCodesHook.RemoveId | src/hooks/use-qr-codes.ts:55 | the filtered list is no longer than the list and holds only codes of the list without the id |
| QrCodesHook.RemoveIdKeepsOthers | src/hooks/use-qr-codes.ts:55 | a code is in the filtered list exactly when it was in the list and does not have the deleted id |
| QrCodesHook.RemoveIdAppend | src/hooks/use-qr-codes.ts:55 | the filter works piece by piece, so the kept codes keep their order |
| QrCodesHook.RemoveAbsentId | src/hooks/use-qr-codes.ts:55 | a list without the id is unchanged |
| QrCodesHook.RemoveIdIdempotent | src/hooks/use-qr-codes.ts:55 | deleting twice is deleting once |
| QrCodesHook.MergeMatching | src/hooks/use-qr-codes.ts:66-69 | the updated list has the list's length |
| QrCodesHook.Merge | src/hooks/use-qr-codes.ts:68 | the definition of `{ ...code, ...updates }`; `MergeMatchingPointwise` states its fields |
| QrCodesHook.HasId | src/hooks/use-qr-codes.ts:55 | the definition of `code.id === id`: a code without a string `id` matches no id; `RemoveIdKeepsOthers` and `MergeMatchingPointwise` use it |
| QrCodesHook.MergeMatchingPointwise | src/hooks/use-qr-codes.ts:66-69 | a code with another id is unchanged; a code with the id takes every update field and keeps its other fields |
| QrCodesHook.MergeMatchingIdempotent | src/hooks/use-qr-codes.ts:66-69 | applying the same update twice is applying it once, even when it changes the id |
| QrCodesHook.MergeAbsentId | src/hooks/use-qr-codes.ts:66-69 | an update for an id no code has leaves the list unchanged |
| QrCodesHook.QrCodeList.constructor | src/hooks/use-qr-codes.ts:8-11 | the hook starts with an empty list, loading, and no error |
| QrCodesHook.QrCodeList.LoadQrCodes | src/hooks/use-qr-codes.ts:13-31 | signed out, the list is emptied without a fetch; a fetch replaces the list and clears the error, a failed one sets the error and keeps the list; loading ends either way |
| QrCodesHook.QrCodeList.SaveQrCode | src/hooks/use-qr-codes.ts:33-49 | signed out, it throws before creating anything; otherwise the created record is the data with `userId` = the user; success reloads and returns the id; failure keeps the list and sets the error |
| QrCodesHook.QrCodeList.DeleteQrCode | src/hooks/use-qr-codes.ts:51-60 | after a successful delete the list is the filtered list; on failure the list is kept and the error is set and rethrown |
| QrCodesHook.QrCodeList.UpdateQrCode | src/hooks/use-qr-codes.ts:62-75 | after a successful update the list is the merged list; on failure the list is kept and the error is set and rethrown |
| Requests.Field | src/app/api/stripe/create-checkout-session/route.ts:17 | destructuring a field gives its value, or `undefined` when it is absent or the body is not an object |
| Requests.OriginText | src/app/api/stripe/create-checkout-session/route.ts:73-74 | a missing `origin` header is interpolated as "null" |

## Left out

- **Not part of this model.** The pages and components, the AI flows and server actions, the auth context, and the construction of the Firebase and Stripe clients. Of the pricing cards, only the `currentPlan` test (src/components/pricing-cards.tsx) is modelled, in `PlanConsistency`.
- **Foreign libraries.**
  - Stripe signature verification is an input: the event, or None when verification throws.
  - The zod URL and e-mail checks are inputs: the field-state flags.
  - QR symbol rendering is not modelled.
- **`AIUsageService` and `QRCodeService.getByUserId`.** These are not modelled. The query's `where`, `orderBy` and `limit` are provider behaviour, so the codes a fetch returns are an input of `LoadQrCodes`.
- **Timestamps.** `serverTimestamp()` and `Timestamp` are opaque values of the current time `now`. Date conversion is modelled only as the multiplication by 1000.
- Database.NewUserDoc and Database.ExistingUserDoc: their "timestamps are now" clauses rest on treating the `serverTimestamp()` sentinel as a value that `cleanUndefinedValues` copies unchanged. In the source the sentinel is an object that is not null and not an array, so the test at src/lib/database.ts:95 sends it into the recursive branch, and line 97 writes a plain-object copy of its own fields. This affects `updatedAt` (line 178), `createdAt` and `updatedAt` (lines 202-203), and `lastResetDate` (lines 200 and 287). What that copy holds depends on the Firebase SDK, which is not part of this model.
- **Firestore value rules.**
  - Firestore rejects data holding `undefined` in any write. The store is built with plain `getFirestore(app)` (src/lib/firebase.ts:44), without `ignoreUndefinedProperties`. `Database.Firestore.CreateQrCode` and `Database.Firestore.UpdateQrCode` model the rejection. The writes to `users` do not. There, `cleanUndefinedValues` removes `undefined` from every object level of a profile but not from inside its arrays, and a profile whose array holds `undefined` is stored rather than rejected.
  - A dotted-path update into a `usage` value that is not an object is treated as writing into an empty object.
- Database.Count: a truthy counter that is not a number is read as 0. JavaScript would add or concatenate instead: `true + 1` is 2 and `"3" + 1` is `"31"`.
- **Store failures other than a missing document.** The store fails only with `NotFound` (an `updateDoc` on a missing document) or `UsageMissing`. A `getDoc`, `setDoc`, `updateDoc` or `deleteDoc` that Firestore rejects for an existing document (permission denied, unavailable) is not modelled. The routes would answer such a failure with 500, and the hook would set its error.
- **Document ids.** A document id is any string. `doc(db, 'users', id)` throws for an id that does not name a document, such as one holding a `/`. So a checkout whose `userId` is `"a/b"` fails with 500 in `getById`, before any Stripe call. `CheckoutRoute.EnsureCustomer` instead records a `CreateCustomer` call for it. The same applies to the portal route and to the `firebaseUid` the webhook handlers write for. The routes' truthiness guards keep the empty id from reaching the store; the QR-code operations take their ids as given.
- **Concurrency.** Concurrent requests, React's batching of state updates, and re-renders are not modelled. Each operation runs to completion on the state it reads.
- **Stripe replies.** Each Stripe call is given as its reply, and the HTTP plumbing is reduced to response variants.
- **The `!stripe` guards** of the routes and handlers are dead code: the client is always constructed (src/lib/stripe.ts:5-8). The routes keep `configured` as a parameter. The webhook handlers' throw on a missing client is not modelled.
- **Spreading a non-object.** In the checkout route, spreading a string or array `subscription` would copy index keys. `CheckoutRoute.CustomerRecord` treats any non-object as empty.
- **An array `planId`.** `PLANS[planId]` would coerce an array to a key; the model treats any non-string `planId` as naming no plan.
- **Stripe object shapes.**
  - `current_period_end` is assumed present on the subscription (read at src/app/api/stripe/webhooks/route.ts:115 and 170). This may not hold for the pinned API version `2025-07-30.basil` (src/lib/stripe.ts:6). Stripe's API changelog (not part of this model) moves the field onto the subscription items in the basil versions. The read would then give `undefined`, and `Timestamp.fromDate(new Date(NaN))` would be called on it.
  - `session.customer` is assumed to be a string id.
  - A checkout without a subscription id counts as a failed retrieve.
- **Floats.** Plan prices and feature text are not modelled. Plan limits are kept only as integers in `Plans.Table`. Stored numbers are integers (`Json.Num`). A fractional counter (`scanCount` 1.5 would become 2.5 at src/lib/database.ts:159) and NaN (falsy, so `NaN || 0` is 0) cannot be represented.
- **The plan key.** The profile type declares the plan as `'free' | 'premium'` (src/lib/database.ts:48), and the pricing cards test for "premium" (src/components/pricing-cards.tsx:148). The code stores the checkout's plan key verbatim instead, and the model follows the code (see `PlanConsistency`).
