# Puro Suco newsletter: a Dafny model of its core

This project models the core of the Puro Suco newsletter site.

- **Subscriber lifecycle.** A subscriber entity moves through pending confirmation, confirmed and unsubscribed. It has guarded `confirm` and `unsubscribe` transitions and a persistence round trip.
- **Subscriber store.** An in-memory repository keeps a primary map plus email and token indexes.
- **Subscription use case.** It subscribes, confirms and unsubscribes over that store and an email service.
- **Newsletter sending.** The use case sends one email per confirmed subscriber and counts sent and failed deliveries.
- **Newsletter issues and the content collection.** Issues are validated, drafts are filtered out, lists are sorted newest first, the newest issue is marked featured, and the finders filter by date, tag and slug.
- **Migration manager.** It splits SQL text into statements, applies pending migrations, rolls them back and validates checksums.
- **Smaller pieces.** The dependency-injection container, the two error hierarchies and their HTTP handlers, the security-header builder, the URL helpers of the email templates, and the file watcher that sends new issues with a bounded retry.

**How each part is modelled**
- Code that mutates objects in place is modelled as Dafny classes whose methods state their exact new state:
  - the subscriber, the repository, the use cases and the email service;
  - the migration manager and its database;
  - the container, the header builder and the watcher.
- These methods are proved against pure specification functions. The properties the code promises are proved about those functions as lemmas.
- The pure parts are functions and lemmas: issues, the content collection, the error mappers and the URL helpers.

**What is passed in rather than modelled**
- The clock is a parameter `now`, in milliseconds.
- Generated ids and tokens are parameters.
- SHA-256 is an uninterpreted function.
- Whether an email is delivered is an oracle `delivers(attempt, message)`.
- Whether the database accepts a statement is an oracle `accepts(sql)`.
- The content collection, the Markdown renderer and the reading-time estimate form a `ContentSource`.
- The watcher's file-existence checks are fields of its events, and the HTTP replies to its send requests come from an oracle indexed by attempt.
- `PUBLIC_SITE_URL` is an `Option<string>`.

The `Email` value object is not part of this model. `EmailAddress.ValidEmail` stands in for it with the usual shape of a simple address pattern: one `@`, no whitespace, and a dot in the domain. Lemmas check it against the addresses the Subscriber tests accept and reject.

## Model

| member | source | states |
|---|---|---|
| SubscriberEntity.ExactlyOneStatus | src/domain/entities/Subscriber.ts:105-115 | exactly one of `isPending`, `isActive`, `isUnsubscribed` holds for every status |
| SubscriberEntity.CreatedRecord | src/domain/entities/Subscriber.ts:29-37 | `create` succeeds iff the email is valid; the new subscriber is pending, with no confirmation or unsubscription time, the given email, the clock's time and the generated id and token; an invalid email throws |
| SubscriberEntity.ConfirmedRecord | src/domain/entities/Subscriber.ts:89-95 | `confirm` succeeds iff the subscriber is pending; it then becomes confirmed with `confirmedAt` = now and keeps its identity fields and `unsubscribedAt`; otherwise it throws "Subscriber must be pending confirmation to be confirmed" |
| SubscriberEntity.UnsubscribedRecord | src/domain/entities/Subscriber.ts:97-103 | `unsubscribe` succeeds iff the subscriber is not already unsubscribed; it then becomes unsubscribed with `unsubscribedAt` = now and keeps its identity fields and `confirmedAt`; otherwise it throws "Subscriber is already unsubscribed" |
| SubscriberEntity.RestoredRecord | src/domain/entities/Subscriber.ts:39-57 | `fromPersistence` succeeds iff the stored email is valid; it keeps a stored id and token unless empty, in which case the generated one replaces it, so the keys are never empty |
| SubscriberEntity.PersistenceRoundTrip | src/domain/entities/Subscriber.ts:39-57 | restoring the persisted record of a well-formed subscriber gives back exactly that record |
| SubscriberEntity.RestoreReplacesEmptyKeys | src/domain/entities/Subscriber.ts:48-56 | a record with an empty id or token does not survive the round trip: the value objects replace the empty key |
| SubscriberEntity.TransitionsKeepWellFormed | src/domain/entities/Subscriber.ts:89-103 | `confirm` and `unsubscribe` keep non-empty keys and a valid email |
| SubscriberEntity.ConfirmedAtRecordedOnce | src/domain/entities/Subscriber.ts:89-103 | a confirmed subscriber cannot be confirmed again, even after unsubscribing, and unsubscribing keeps the recorded confirmation time |
| SubscriberEntity.Subscriber.Of | src/domain/entities/Subscriber.ts:19-27 | the private constructor holds exactly the fields it is given |
| SubscriberEntity.Subscriber.ToPersistence | src/domain/entities/Subscriber.ts:118-128 | the flat record carries every field of the object: id, email, status, subscription time, token, confirmation and unsubscription times |
| SubscriberEntity.Subscriber.Create | src/domain/entities/Subscriber.ts:29-37 | a fresh object whose persisted form is `CreatedRecord`, or the invalid-email error |
| SubscriberEntity.Subscriber.FromPersistence | src/domain/entities/Subscriber.ts:39-57 | a fresh object whose persisted form is `RestoredRecord`, or the invalid-email error |
| SubscriberEntity.Subscriber.Confirm | src/domain/entities/Subscriber.ts:89-95 | updates the object in place to `ConfirmedRecord` of its old state; on failure it throws and changes nothing |
| SubscriberEntity.Subscriber.Unsubscribe | src/domain/entities/Subscriber.ts:97-103 | updates the object in place to `UnsubscribedRecord` of its old state; on failure it throws and changes nothing |
| EmailAddress.SingleAt | src/domain/entities/Subscriber.ts:31 | a valid address splits at its only '@' into a plain local part and a dotted domain |
| EmailAddress.AcceptedTestExample1 | src/domain/entities/__tests__/Subscriber.test.ts:130 | "test@example.com" is accepted |
| EmailAddress.AcceptedTestExample2 | src/domain/entities/__tests__/Subscriber.test.ts:131 | "user.name+tag@example.co.uk" is accepted |
| EmailAddress.AcceptedTestExample3 | src/domain/entities/__tests__/Subscriber.test.ts:132 | "123@456.com" is accepted |
| EmailAddress.RejectsMisplacedAt | src/domain/entities/__tests__/Subscriber.test.ts:122-127 | an address with no '@', or with '@' first or last, is rejected |
| EmailAddress.RejectedTestExamples | src/domain/entities/__tests__/Subscriber.test.ts:122-127 | "invalid-email", "", "test@" and "@example.com" are rejected |
| SubscriberStore.WithStatus | src/infrastructure/storage/InMemorySubscriberRepository.ts:42-48 | the status filter keeps exactly the listed subscribers with that status, and no more of them than the list holds |
| SubscriberStore.WithStatusConcat | src/infrastructure/storage/InMemorySubscriberRepository.ts:42-48 | the status filter of a concatenation is the concatenation of the filters, so the kept subscribers come out in list order, each as often as listed |
| SubscriberStore.StatusFiltersPartition | src/infrastructure/storage/InMemorySubscriberRepository.ts:70-80 | the confirmed, pending and unsubscribed filters of a list together have its length |
| SubscriberStore.SubscribedBetween | src/infrastructure/storage/InMemorySubscriberRepository.ts:50-55 | keeps exactly the listed subscribers whose subscription time lies between the two bounds, both inclusive |
| SubscriberStore.SubscribedBetweenConcat | src/infrastructure/storage/InMemorySubscriberRepository.ts:50-55 | the date filter of a concatenation is the concatenation of the filters, so it keeps list order and multiplicity |
| SubscriberStore.Lookup | src/infrastructure/storage/InMemorySubscriberRepository.ts:22-32 | an index lookup finds a subscriber iff the key is indexed under a non-empty id that is stored, and then returns that stored object |
| SubscriberStore.SameEmailRepointsIndex | src/infrastructure/storage/InMemorySubscriberRepository.ts:12-20 | saving a second subscriber with the email of a stored one re-points the email index to the newcomer, while the first stays stored and findable by id and token |
| SubscriberStore.InOrder | src/infrastructure/storage/InMemorySubscriberRepository.ts:38-40 | lists the map's values in the order of the given keys |
| SubscriberStore.Without | src/infrastructure/storage/InMemorySubscriberRepository.ts:64 | removes exactly the key from the insertion order and keeps the order free of repetitions |
| SubscriberStore.InMemorySubscriberRepository.constructor | src/infrastructure/storage/InMemorySubscriberRepository.ts:8-10 | the repository starts with three empty maps |
| SubscriberStore.InMemorySubscriberRepository.Save | src/infrastructure/storage/InMemorySubscriberRepository.ts:12-20 | stores the object under its id (a new id goes last in iteration order, a known one keeps its place) and points both indexes at it; afterwards it is found by id, email and token |
| SubscriberStore.InMemorySubscriberRepository.UpdateSubscriber | src/infrastructure/storage/InMemorySubscriberRepository.ts:57-59 | the same new state as `Save` |
| SubscriberStore.InMemorySubscriberRepository.FindByEmail | src/infrastructure/storage/InMemorySubscriberRepository.ts:22-26 | finds a subscriber iff the email is indexed under a non-empty id that is still stored, and then it is the object stored under that id |
| SubscriberStore.InMemorySubscriberRepository.FindByToken | src/infrastructure/storage/InMemorySubscriberRepository.ts:28-32 | finds a subscriber iff the token is indexed under a non-empty id that is still stored, and then it is the object stored under that id |
| SubscriberStore.InMemorySubscriberRepository.FindById | src/infrastructure/storage/InMemorySubscriberRepository.ts:34-36 | finds a subscriber iff its id is stored, and then it is the object stored under that id |
| SubscriberStore.InMemorySubscriberRepository.FindAll | src/infrastructure/storage/InMemorySubscriberRepository.ts:38-40 | the i-th subscriber returned is the one stored under the i-th id in insertion order, so every stored subscriber appears, each once, in insertion order |
| SubscriberStore.InMemorySubscriberRepository.FindAllActive | src/infrastructure/storage/InMemorySubscriberRepository.ts:42-44 | the status filter of `findAll` for confirmed subscribers: exactly the stored confirmed subscribers, in insertion order |
| SubscriberStore.InMemorySubscriberRepository.FindAllPending | src/infrastructure/storage/InMemorySubscriberRepository.ts:46-48 | the status filter of `findAll` for pending subscribers: exactly the stored pending subscribers, in insertion order |
| SubscriberStore.InMemorySubscriberRepository.FindBySubscriptionDate | src/infrastructure/storage/InMemorySubscriberRepository.ts:50-55 | the date filter of `findAll`: exactly the stored subscribers subscribed between the two dates, both inclusive, in insertion order |
| SubscriberStore.InMemorySubscriberRepository.GetActiveCount | src/infrastructure/storage/InMemorySubscriberRepository.ts:70-72 | the length of `findAllActive`, at most the number stored |
| SubscriberStore.InMemorySubscriberRepository.GetPendingCount | src/infrastructure/storage/InMemorySubscriberRepository.ts:74-76 | the length of `findAllPending`, at most the number stored |
| SubscriberStore.InMemorySubscriberRepository.GetUnsubscribedCount | src/infrastructure/storage/InMemorySubscriberRepository.ts:78-80 | the number of unsubscribed subscribers in `findAll`, at most the number stored |
| SubscriberStore.InMemorySubscriberRepository.GetTotalCount | src/infrastructure/storage/InMemorySubscriberRepository.ts:82-84 | the size of the primary map equals the length of `findAll` |
| SubscriberStore.InMemorySubscriberRepository.CountsAddUp | src/infrastructure/storage/InMemorySubscriberRepository.ts:70-84 | the active, pending and unsubscribed counts add up to the total count |
| SubscriberStore.InMemorySubscriberRepository.DeleteSubscriber | src/infrastructure/storage/InMemorySubscriberRepository.ts:61-68 | an unknown id changes nothing; a known one loses its record, its place in the order and the index entries under its email and token; afterwards it is not found |
| SubscriberStore.InMemorySubscriberRepository.Clear | src/infrastructure/storage/InMemorySubscriberRepository.ts:87-91 | all maps are empty afterwards |
| Text.Trim | src/domain/entities/NewsletterIssue.ts:31-35 | `trim()`: the result is trimmed, is an infix of the input, and is empty exactly when the input is all whitespace |
| Text.TrimmedIsFixpoint | src/domain/entities/NewsletterIssue.ts:45-46 | trimming a trimmed string changes nothing |
| Text.TrimIdempotent | src/domain/entities/NewsletterIssue.ts:45-46 | trimming twice is trimming once |
| Text.NatToString | src/domain/entities/NewsletterIssue.ts:104 | the decimal rendering of a number is a non-empty run of digits with no leading zero |
| Text.NatToStringValue | src/domain/entities/NewsletterIssue.ts:104 | the decimal rendering reads back as the same number |
| Text.NatToStringInjective | src/domain/entities/NewsletterIssue.ts:104 | distinct numbers render differently |
| Issues.Create | src/domain/entities/NewsletterIssue.ts:19-55 | `create` succeeds iff title and content are not blank and the issue number is positive; each error message arises exactly when its check is the first to fail; on success title, description and preview text are trimmed and every other field is kept |
| Issues.CreateIdempotent | src/domain/entities/NewsletterIssue.ts:19-55 | a created issue satisfies the entity's invariant, and creating from it again gives it back unchanged |
| Issues.GetTags | src/domain/entities/NewsletterIssue.ts:86-88 | the tags element by element, as a value the caller cannot use to change the issue |
| Issues.GetPreviewText | src/domain/entities/NewsletterIssue.ts:94-96 | the preview text when it is set and non-empty, the description otherwise |
| Issues.IsPublished | src/domain/entities/NewsletterIssue.ts:99-101 | published iff the publication time is at or before `now` |
| Issues.PublishedStaysPublished | src/domain/entities/NewsletterIssue.ts:99-101 | an issue published at some time stays published at every later time |
| Issues.GetEmailSubject | src/domain/entities/NewsletterIssue.ts:103-105 | the subject is the title, then " - Puro Suco #", then the issue number in decimal |
| Issues.DigitRunAfterHash | src/domain/entities/NewsletterIssue.ts:103-105 | after the '#' of a subject, the issue digits are exactly the trailing digit run |
| Issues.EmailSubjectInjective | src/domain/entities/NewsletterIssue.ts:103-105 | two issues with non-negative numbers have the same email subject only when they have the same title and number |
| Issues.ToEmailData | src/domain/entities/NewsletterIssue.ts:108-116 | each field of the email data equals the matching getter: title, content, effective preview text, issue number and slug |
| Issues.EmailDataOfCreated | src/domain/entities/NewsletterIssue.ts:108-116 | the email data of a created issue carries its trimmed non-empty title, its content, the trimmed preview text or else the trimmed description, its positive number and its slug |
| Sequences.Filter | src/infrastructure/repositories/AstroNewsletterRepository.ts:10-12 | a filter keeps exactly the elements that satisfy the predicate, never more of each than the input holds |
| Sequences.FilterOne | src/infrastructure/repositories/AstroNewsletterRepository.ts:10-12 | a one-element list is kept exactly when its element satisfies the predicate |
| Sequences.FilterConcat | src/infrastructure/repositories/AstroNewsletterRepository.ts:45-50 | the filter of a concatenation is the concatenation of the filters; with `FilterOne` this fixes the order and the multiplicity of every filter result |
| Content.FilterDrafts | src/infrastructure/repositories/AstroNewsletterRepository.ts:10-12 | the collection without its drafts: exactly the entries whose slug does not start with "_" |
| Content.FilterDraftsCons | src/infrastructure/repositories/AstroNewsletterRepository.ts:10-12 | the draft filter one entry at a time: the head is kept exactly when it is not a draft, in front of the filtered rest, so collection order is kept |
| Content.Insert | src/infrastructure/repositories/AstroNewsletterRepository.ts:33-35 | an insertion adds exactly that entry: the result is the old entries plus the new one, one longer |
| Content.InsertSorted | src/infrastructure/repositories/AstroNewsletterRepository.ts:33-35 | inserting into a list sorted newest first keeps it sorted, and the head is either the new entry or the old head |
| Content.SortNewestFirst | src/infrastructure/repositories/AstroNewsletterRepository.ts:33-35 | the sort by publication date, newest first: sorted and a permutation of its input |
| Content.InsertKeepsTies | src/infrastructure/repositories/AstroNewsletterRepository.ts:33-35 | an insertion places the new entry before the entries with its own date, leaving their order alone |
| Content.SortIsStable | src/infrastructure/repositories/AstroNewsletterRepository.ts:33-35 | entries with the same publication date keep their collection order, as the stable `Array.prototype.sort` keeps them |
| Content.FirstIsNewest | src/lib/newsletter-utils.ts:21-23 | no non-draft entry is newer than the head of the sorted list |
| AstroRepository.Convert | src/infrastructure/repositories/AstroNewsletterRepository.ts:55-75 | a successful conversion keeps the entry's slug and publication date |
| AstroRepository.ConversionDefaults | src/infrastructure/repositories/AstroNewsletterRepository.ts:55-75 | a conversion fails exactly when `create` rejects the entry; otherwise a falsy reading time becomes the estimate, a falsy preview text becomes the description, absent tags become `[]`, and the rest is trimmed or kept as `create` does |
| AstroRepository.MapAll | src/infrastructure/repositories/AstroNewsletterRepository.ts:37 | mapping a throwing conversion gives every result in order, or the error of the first entry that fails |
| AstroRepository.Listed | src/infrastructure/repositories/AstroNewsletterRepository.ts:31-35 | the entries `findAll` converts are sorted newest first and are a permutation of the non-draft entries |
| AstroRepository.FindAll | src/infrastructure/repositories/AstroNewsletterRepository.ts:31-38 | `findAll` succeeds exactly when every non-draft entry converts, and then converts each listed entry in place, so it is sorted newest first and holds no draft; otherwise it fails with the error of the first listed entry that does not convert |
| AstroRepository.ConvertedKeepsOrder | src/infrastructure/repositories/AstroNewsletterRepository.ts:37 | a list converted entry by entry stays sorted newest first and free of drafts |
| AstroRepository.FindLatest | src/infrastructure/repositories/AstroNewsletterRepository.ts:40-43 | `findLatest` is the head of `findAll`, or null exactly when that is empty, and no issue is newer |
| AstroRepository.FilterKeepsNewestFirst | src/infrastructure/repositories/AstroNewsletterRepository.ts:45-50 | filtering a list sorted newest first keeps it sorted |
| AstroRepository.FindPublished | src/infrastructure/repositories/AstroNewsletterRepository.ts:45-50 | `findPublished` is the filter of `findAll` by publication at `now`: exactly those issues, in `findAll` order (so newest first), with no draft |
| AstroRepository.FindByTag | src/infrastructure/repositories/AstroNewsletterRepository.ts:99-102 | `findByTag` is the filter of `findAll` by the tag: exactly the issues whose tags contain it, in `findAll` order (so newest first) |
| AstroRepository.FindByDateRange | src/infrastructure/repositories/AstroNewsletterRepository.ts:107-113 | `findByDateRange` is the filter of `findAll` by the date range: exactly the issues published between the two dates, both inclusive, in `findAll` order (so newest first) |
| AstroRepository.FirstWithSlug | src/infrastructure/repositories/AstroNewsletterRepository.ts:21 | `find` by slug returns the first entry with that slug, or nothing exactly when no entry has it |
| AstroRepository.FindBySlug | src/infrastructure/repositories/AstroNewsletterRepository.ts:19-29 | `findBySlug` never returns a draft and returns null for a slug no entry has; for a slug not starting with "_" it returns the conversion of the first entry with that slug in collection order, or that conversion's error |
| AstroRepository.FirstWithSlugSkipsDrafts | src/infrastructure/repositories/AstroNewsletterRepository.ts:19-21 | for a slug not starting with "_", dropping the drafts does not change which entry is the first with that slug |
| NewsletterUtils.MarkFeatured | src/lib/newsletter-utils.ts:26-33 | exactly the first entry is featured, whatever the original flags, and nothing else in any entry changes |
| NewsletterUtils.GetNewslettersWithAutoFeatured | src/lib/newsletter-utils.ts:17-34 | as many entries as the non-drafts, newest first, with exactly the first one featured |
| NewsletterUtils.AutoFeaturedSpec | src/lib/newsletter-utils.ts:17-34 | the list holds the non-draft entries, newest first, with only the first featured and every other field as in the collection |
| NewsletterUtils.FeaturedHead | src/lib/newsletter-utils.ts:26-42 | when some entry is not a draft, the list is non-empty and its head is featured, not a draft, and as new as the newest of the sorted entries |
| NewsletterUtils.GetFeaturedNewsletter | src/lib/newsletter-utils.ts:39-42 | the first entry of `getNewslettersWithAutoFeatured`, or null exactly when that list is empty, which is when every entry is a draft; the entry returned is featured, not a draft, and no non-draft entry is newer |
| Mail.EmailService.constructor | src/domain/services/EmailService.ts:1-15 | a new service has attempted no sends |
| Mail.EmailService.Send | src/domain/services/EmailService.ts:1-15 | every attempt is appended to the log, and it succeeds as the delivery oracle decides for that attempt |
| Mail.EmailService.SendConfirmationEmail | src/domain/services/EmailService.ts:3 | logs one confirmation email to that address with that link |
| Mail.EmailService.SendWelcomeEmail | src/domain/services/EmailService.ts:2 | logs one welcome email to that address with that link |
| Mail.EmailService.SendNewsletter | src/domain/services/EmailService.ts:4-14 | logs one newsletter email to those recipients with that data and link |
| Subscription.SubscribeEffect | src/domain/usecases/SubscriptionUseCase.ts:35-84 | `subscribe` fails for a confirmed or pending address with its own message and touches nothing; it saves exactly for a valid address that is new or unsubscribed, mails exactly for a valid new address, succeeds exactly when it saves without a failed delivery, and every other failure is "Erro interno" |
| Subscription.SubscribeMailsOnlyAfterSaving | src/domain/usecases/SubscriptionUseCase.ts:67-83 | no confirmation email without a saved record, and a failed delivery keeps the record while reporting the internal error |
| Subscription.SubscribeEffectCorrected | src/domain/usecases/SubscriptionUseCase.ts:39-52 | the corrected `subscribe` still refuses confirmed and pending addresses without touching anything |
| Subscription.CorrectedSubscribeAlwaysConfirms | src/domain/usecases/SubscriptionUseCase.ts:54-71 | with the correction, a subscription saves exactly when it mails, and succeeds only when the mail was delivered |
| Subscription.ResubscribeSendsNoConfirmation | src/domain/usecases/SubscriptionUseCase.ts:54-64 | as written, an unsubscribed address that subscribes again is saved and told it succeeded, but is sent no confirmation email; a pending address is refused as already mailed; the corrected version mails on reactivation |
| Subscription.ConfirmEffect | src/domain/usecases/SubscriptionUseCase.ts:89-127 | confirmation succeeds exactly for a confirmed or pending subscriber, saves exactly for a pending one, sends nothing, and an unknown token gives "Token de confirmação inválido" |
| Subscription.ConfirmTwice | src/domain/usecases/SubscriptionUseCase.ts:100-105 | following a confirmation link again succeeds and changes nothing |
| Subscription.UnsubscribeEffect | src/domain/usecases/SubscriptionUseCase.ts:132-165 | unsubscribing succeeds exactly when a subscriber is found, saves exactly when it was not yet unsubscribed, sends nothing, and a missing one gives "Subscriber não encontrado" |
| Subscription.UnsubscribeTwice | src/domain/usecases/SubscriptionUseCase.ts:145-150 | a second unsubscribe succeeds and saves nothing |
| Subscription.SubscriptionUseCase.constructor | src/domain/usecases/SubscriptionUseCase.ts:26-29 | the use case holds the given repository and email service |
| Subscription.SubscriptionUseCase.ByEmail | src/domain/usecases/SubscriptionUseCase.ts:37 | the subscriber found by email is one of the stored ones |
| Subscription.SubscriptionUseCase.ByToken | src/domain/usecases/SubscriptionUseCase.ts:91 | the subscriber found by token is one of the stored ones |
| Subscription.SubscriptionUseCase.Subscribe | src/domain/usecases/SubscriptionUseCase.ts:35-84 | follows `SubscribeEffect` on the status found by email: the result, the email log (one confirmation to `baseUrl + "/api/confirm/" + token` or none), and either an untouched store or exactly one fresh pending subscriber saved |
| Subscription.SubscriptionUseCase.SubscribeCorrected | src/domain/usecases/SubscriptionUseCase.ts:54-77 | the same, following `SubscribeEffectCorrected`: the reactivation path also sends the confirmation email |
| Subscription.SubscriptionUseCase.SubscribeTwiceAfterUnsubscribing | src/domain/usecases/SubscriptionUseCase.ts:35-64 | through the subscribe flow, with the in-memory store: an unsubscribed address that subscribes twice is told the first time that it succeeded and the second time that a confirmation email was already sent, and neither call sends an email |
| Subscription.SubscriptionUseCase.ConfirmSubscription | src/domain/usecases/SubscriptionUseCase.ts:89-127 | follows `ConfirmEffect` on the status found by token; a pending subscriber is confirmed in place and saved again, and nothing else changes |
| Subscription.SubscriptionUseCase.Unsubscribe | src/domain/usecases/SubscriptionUseCase.ts:132-165 | looks up by a non-empty token, else by email, and follows `UnsubscribeEffect`; the subscriber is unsubscribed in place and saved again, and nothing else changes |
| Subscription.SubscriptionUseCase.GetStats | src/domain/usecases/SubscriptionUseCase.ts:170-173 | the number of confirmed subscribers, which never exceeds the total |
| NewsletterSending.FinalBaseUrl | src/domain/usecases/NewsletterSendingUseCase.ts:121 | the base URL argument unless empty, then the site URL unless unset or empty, then "http://localhost:3000" |
| NewsletterSending.BatchMessages | src/domain/usecases/NewsletterSendingUseCase.ts:123-128 | one newsletter email per active subscriber, in repository order, addressed to that subscriber alone, all with the same data, each with the unsubscribe link built from that subscriber's token |
| NewsletterSending.DeliveredCount | src/domain/usecases/NewsletterSendingUseCase.ts:117-137 | the number of delivered sends is at most the number of sends |
| NewsletterSending.DeliveredStep | src/domain/usecases/NewsletterSendingUseCase.ts:123-137 | one more send raises the delivered count by one exactly when that send is delivered |
| NewsletterSending.BatchResult | src/domain/usecases/NewsletterSendingUseCase.ts:106-158 | no active subscriber gives failure with `sentCount` 0; otherwise the counts are the delivered and the failed sends, and success holds exactly when something was sent |
| NewsletterSending.BatchResultMessage | src/domain/usecases/NewsletterSendingUseCase.ts:139-158 | the counts add up to the active subscribers, the message announces success exactly when something was sent, and ends with " emails falharam." exactly when a send failed |
| NewsletterSending.NewsletterSendingUseCase.constructor | src/domain/usecases/NewsletterSendingUseCase.ts:18-22 | the use case holds the given repository, collection, email service and site URL |
| NewsletterSending.NewsletterSendingUseCase.SendNewsletterToAll | src/domain/usecases/NewsletterSendingUseCase.ts:102-159 | logs exactly the batch of sends and returns the batch result for the delivered count |
| NewsletterSending.NewsletterSendingUseCase.SendEach | src/domain/usecases/NewsletterSendingUseCase.ts:123-137 | the loop sends one email per subscriber in order, counts the delivered ones as sent, and sent plus failed equals the number of subscribers |
| NewsletterSending.NewsletterSendingUseCase.SendToAllSubscribers | src/domain/usecases/NewsletterSendingUseCase.ts:56-68 | the same sends and result as the batch send with that base URL |
| NewsletterSending.NewsletterSendingUseCase.SendNewsletterBySlug | src/domain/usecases/NewsletterSendingUseCase.ts:27-51 | a failing lookup, a missing issue or an unpublished one gives its own failure and sends nothing; a published issue is sent as a batch |
| NewsletterSending.NewsletterSendingUseCase.SendLatestNewsletter | src/domain/usecases/NewsletterSendingUseCase.ts:73-97 | the same decisions for the latest issue, with its own messages |
| NewsletterSending.NewsletterSendingUseCase.SendConfirmationEmail | src/domain/usecases/NewsletterSendingUseCase.ts:164-181 | sends only to a pending subscriber, with the link `base + "/confirm/" + token`, and is true exactly when that send is delivered; otherwise false and nothing is sent |
| NewsletterSending.NewsletterSendingUseCase.SendWelcomeEmail | src/domain/usecases/NewsletterSendingUseCase.ts:186-203 | sends only to a confirmed subscriber, with the link `base + "/unsubscribe/" + token`, and is true exactly when that send is delivered; otherwise false and nothing is sent |
| SqlSplit.LineRest | src/infrastructure/database/MigrationManager.ts:133 | a line comment runs up to, not including, the first line terminator |
| SqlSplit.StripLineComments | src/infrastructure/database/MigrationManager.ts:133 | after removing line comments no "--" is left, and nothing grows |
| SqlSplit.FindCloser | src/infrastructure/database/MigrationManager.ts:134 | finds the first "*/", or nothing exactly when there is none |
| SqlSplit.StripBlockComments | src/infrastructure/database/MigrationManager.ts:134 | removing block comments never lengthens the text |
| SqlSplit.NoCloserUnchanged | src/infrastructure/database/MigrationManager.ts:134 | an opener without a closer is not a comment: the text stays as it is |
| SqlSplit.Scanned | src/infrastructure/database/MigrationManager.ts:142-165 | the statements closed so far are slices of the text read before the open statement |
| SqlSplit.ScannedOrdered | src/infrastructure/database/MigrationManager.ts:158-165 | the statements closed so far lie in order, without overlap, each ending before the open statement begins |
| SqlSplit.StatementBounds | src/infrastructure/database/MigrationManager.ts:142-171 | every statement bound is a slice of the text |
| SqlSplit.BoundsOrdered | src/infrastructure/database/MigrationManager.ts:158-171 | the statement bounds are ordered, non-overlapping slices of the text |
| SqlSplit.Pieces | src/infrastructure/database/MigrationManager.ts:158-171 | one trimmed slice per statement bound |
| SqlSplit.OpenShape | src/infrastructure/database/MigrationManager.ts:146-165 | the open statement never holds a separator |
| SqlSplit.ClosedShape | src/infrastructure/database/MigrationManager.ts:158-165 | every closed statement is a non-blank slice without separators, ended by a separator |
| SqlSplit.CoverShape | src/infrastructure/database/MigrationManager.ts:158-165 | every character before the open statement is in a closed statement, a separator or whitespace |
| SqlSplit.BoundsArePieces | src/infrastructure/database/MigrationManager.ts:158-171 | every statement bound is a non-blank slice without separators |
| SqlSplit.BoundsCoverText | src/infrastructure/database/MigrationManager.ts:158-171 | every character is in a statement, a separator or whitespace: nothing else is dropped |
| SqlSplit.SplitCleanedSpec | src/infrastructure/database/MigrationManager.ts:136-173 | the statements are the trimmed pieces between separators, in order, each non-empty and trimmed, and they cover every character that is neither whitespace nor a separator |
| SqlSplit.NoSemicolonAtMostOne | src/infrastructure/database/MigrationManager.ts:158-173 | text without ";" yields at most one statement |
| SqlSplit.ScanStep | src/infrastructure/database/MigrationManager.ts:158-165 | a separator closes the open statement, if it is not blank, and starts the next one after it; any other character extends the open statement |
| SqlSplit.LastStatementBlank | src/infrastructure/database/MigrationManager.ts:168-171 | a blank trailing statement is dropped |
| SqlSplit.LastStatementKept | src/infrastructure/database/MigrationManager.ts:168-171 | a trailing statement that is not blank is added, trimmed, after the others |
| SqlSplit.StatementsNonEmpty | src/infrastructure/database/MigrationManager.ts:158-171 | every statement is non-empty and trimmed |
| SqlSplit.ReadFlags | src/infrastructure/database/MigrationManager.ts:146-156 | one step of the quote and `BEGIN`/`END` flags agrees with the position-by-position mode function |
| SqlSplit.LoopStep | src/infrastructure/database/MigrationManager.ts:158-165 | one pass of the loop keeps the open statement and the collected statements equal to the scan's |
| SqlSplit.LoopEnd | src/infrastructure/database/MigrationManager.ts:168-171 | adding the trailing statement, when not blank, completes the statements of the whole text |
| SqlSplit.SplitSqlStatements | src/infrastructure/database/MigrationManager.ts:130-174 | the loop returns exactly the specified statements of the comment-stripped text, each non-empty and trimmed |
| Migrations.FirstRejected | src/infrastructure/database/MigrationManager.ts:41-45 | the index of the first statement the database rejects: every one before it was accepted |
| Migrations.ApplyRecordsOnlyAfterStatements | src/infrastructure/database/MigrationManager.ts:33-58 | a migration is recorded only after every statement was accepted, under its own version with its name, rollback SQL and checksum; a failure records nothing |
| Migrations.PendingOf | src/infrastructure/database/MigrationManager.ts:90 | the pending migrations are exactly the listed ones whose version is not applied |
| Migrations.PendingOfConcat | src/infrastructure/database/MigrationManager.ts:90-98 | the pending filter of a concatenation is the concatenation of the filters, so pending migrations keep list order, the order in which they are applied |
| Migrations.RunRecordsPending | src/infrastructure/database/MigrationManager.ts:88-102 | a successful run records every pending migration, keeps every row already there, and adds no other version |
| Migrations.RunLeavesNothingPending | src/infrastructure/database/MigrationManager.ts:88-102 | after a successful run nothing is pending, so running again applies nothing |
| Migrations.AllRecordedNothingPending | src/infrastructure/database/MigrationManager.ts:90-95 | when every version is applied nothing is pending |
| Migrations.FirstWithVersion | src/infrastructure/database/MigrationManager.ts:180 | finds the first migration with that version in list order, or nothing exactly when none has it |
| Migrations.Database.constructor | src/infrastructure/database/MigrationManager.ts:12-23 | an empty history table and an empty statement log |
| Migrations.Database.Execute | src/infrastructure/database/MigrationManager.ts:43 | a statement is logged, leaves the history alone, and succeeds as the database decides |
| Migrations.Database.Insert | src/infrastructure/database/MigrationManager.ts:48-51 | the history insert fails exactly when the version is already recorded (the UNIQUE constraint), and otherwise adds that row |
| Migrations.Database.RollbackTransaction | src/infrastructure/database/MigrationManager.ts:73-79 | the transaction runs the rollback SQL and deletes the row only when the database accepts it |
| Migrations.MigrationManager.constructor | src/infrastructure/database/MigrationManager.ts:11 | the manager holds the given database and checksum |
| Migrations.MigrationManager.GetAppliedMigrations | src/infrastructure/database/MigrationManager.ts:25-31 | every recorded version, each once |
| Migrations.MigrationManager.GetMigrationStatus | src/infrastructure/database/MigrationManager.ts:104-124 | the version and name of every recorded migration, each once, and their number |
| Migrations.MigrationManager.RunStatements | src/infrastructure/database/MigrationManager.ts:41-45 | the statements are run in order up to and including the first one rejected, which is reported; the history is untouched |
| Migrations.MigrationManager.ApplyMigration | src/infrastructure/database/MigrationManager.ts:33-58 | follows the specification of `applyMigration`, whose properties are `ApplyRecordsOnlyAfterStatements` |
| Migrations.MigrationManager.ApplyLoggedStatements | src/infrastructure/database/MigrationManager.ts:41-57 | the same once the `up` SQL is split |
| Migrations.MigrationManager.RollbackMigration | src/infrastructure/database/MigrationManager.ts:60-86 | an unknown version fails with "not found" and changes nothing; a known one runs its rollback SQL and is removed exactly when the database accepts it |
| Migrations.MigrationManager.RunPendingMigrations | src/infrastructure/database/MigrationManager.ts:88-102 | applies exactly the pending migrations in list order, stopping at the first failure, and does nothing when none is pending |
| Migrations.MigrationManager.ValidateMigrations | src/infrastructure/database/MigrationManager.ts:176-203 | true exactly when every recorded version that has a migration file stores the checksum of that file's `up` SQL; versions without a file are skipped |
| DependencyInjection.RegisterEffect | src/lib/container/DIContainer.ts:9-14 | registers the factory; a singleton registration resets the cached instance to null; other tokens, instances and the call log are untouched |
| DependencyInjection.RegisterInstanceEffect | src/lib/container/DIContainer.ts:20-22 | stores the instance and touches nothing else |
| DependencyInjection.ResolveEffect | src/lib/container/DIContainer.ts:24-48 | resolving succeeds exactly when the token has an instance, a factory or a cached value; a failure is "Service '…' not found" and changes nothing; a factory is called at most once per resolve, and a call adds one entry to the log of factory calls |
| DependencyInjection.HasToken | src/lib/container/DIContainer.ts:50-52 | a token not in any map cannot be resolved, and in a consistent container `has` holds exactly when the token resolves |
| DependencyInjection.ClearEffect | src/lib/container/DIContainer.ts:54-58 | after `clear`, `has` is false for every token |
| DependencyInjection.SingletonResolvedOnce | src/lib/container/DIContainer.ts:29-40 | a singleton factory is called on the first resolve only; the second returns the same instance and changes nothing |
| DependencyInjection.TransientResolvedEachTime | src/lib/container/DIContainer.ts:42-47 | a transient factory is called again on every resolve (one more entry in the log of factory calls each time); a `registerClass` factory gives a different instance each time |
| DependencyInjection.TransientAfterSingletonStaysCached | src/lib/container/DIContainer.ts:9-14 | re-registering a resolved singleton as transient keeps handing out the cached instance |
| DependencyInjection.InstanceTakesPriority | src/lib/container/DIContainer.ts:25-27 | a registered instance wins over any factory for the token, in either registration order |
| DependencyInjection.ClearedResolvesNothing | src/lib/container/DIContainer.ts:54-58 | after `clear` nothing resolves |
| DependencyInjection.DIContainer.constructor | src/lib/container/DIContainer.ts:4-7 | an empty container |
| DependencyInjection.DIContainer.Register | src/lib/container/DIContainer.ts:9-14 | updates the maps as `RegisterEffect` |
| DependencyInjection.DIContainer.RegisterClass | src/lib/container/DIContainer.ts:16-18 | registers a constructing factory as `RegisterEffect` |
| DependencyInjection.DIContainer.RegisterInstance | src/lib/container/DIContainer.ts:20-22 | updates the maps as `RegisterInstanceEffect` |
| DependencyInjection.DIContainer.Resolve | src/lib/container/DIContainer.ts:24-48 | returns and updates the maps as `ResolveEffect` |
| DependencyInjection.DIContainer.Has | src/lib/container/DIContainer.ts:50-52 | agrees with `HasToken` |
| DependencyInjection.DIContainer.Clear | src/lib/container/DIContainer.ts:54-58 | updates the maps as `ClearEffect` |
| AppErrors.StatusCode | src/lib/errors/AppError.ts:15-107 | every status is between 400 and 599, and below 500 exactly for the validation, not-found, rate-limit, authentication, authorization and conflict errors |
| AppErrors.IsOperational | src/lib/errors/AppError.ts:100-107 | `InternalServerError` is the only non-operational class |
| AppErrors.DefaultMessage | src/lib/errors/AppError.ts:33-107 | exactly the rate-limit, email-delivery, database-connection, template-render and internal-server errors have a default message |
| AppErrors.Make | src/lib/errors/AppError.ts:1-13 | an error keeps its class, context and the given message, or takes its class's default |
| AppErrors.ClientStatusNamesClass | src/lib/errors/AppError.ts:15-98 | the client-error classes have pairwise distinct status codes |
| AppErrors.NonOperationalIsServerError | src/lib/errors/AppError.ts:100-107 | a non-operational error has status 500 and every client error is operational |
| ApiErrors.NewAppError | src/lib/utils/errors.ts:1-9 | the base error keeps its message and code, and its status defaults to 500 |
| ApiErrors.NewValidationError | src/lib/utils/errors.ts:12-20 | status 400, code "VALIDATION_ERROR", with its errors |
| ApiErrors.NewNotFoundError | src/lib/utils/errors.ts:22-27 | status 404, code "NOT_FOUND", message the resource (default "Resource") followed by " not found" |
| ApiErrors.NewDuplicateError | src/lib/utils/errors.ts:29-34 | status 409, code "DUPLICATE_ERROR", message the resource followed by " already exists" |
| ApiErrors.NewExternalServiceError | src/lib/utils/errors.ts:36-41 | status 502, code "EXTERNAL_SERVICE_ERROR", message the service, ": " and the message (default "External service error") |
| ApiErrors.SubclassCodesDistinct | src/lib/utils/errors.ts:12-41 | the four subclasses have distinct status codes and distinct codes |
| ApiErrors.ExternalServiceNameRecoverable | src/lib/utils/errors.ts:36-41 | a service name without a colon, and the message after it, can be read back from the error message |
| ApiErrors.FirstColon | src/lib/utils/errors.ts:39 | the first colon of the message follows the service name |
| ErrorHandling.HandleError | src/lib/errors/ErrorHandler.ts:12-36 | an error of the hierarchy keeps its status, message and context, with `errors` only for a validation error; anything else is a bare 500 "Internal server error"; the body never reports success and repeats the status |
| ErrorHandling.ClientStatusFromOperationalError | src/lib/errors/ErrorHandler.ts:13-24 | a status below 500 always comes from an operational error of the hierarchy |
| ErrorHandling.GenericResponseForForeignErrors | src/lib/errors/ErrorHandler.ts:26-35 | the generic message comes exactly from values outside the hierarchy, unless an error of the hierarchy carries that very message |
| ErrorHandling.HandleAsyncError | src/lib/errors/ErrorHandler.ts:56-66 | the operation's value on success, the same error on failure |
| ApiErrorHandling.HandleApiError | src/lib/utils/errors.ts:43-65 | an error of this hierarchy keeps its status, message and code, with `errors` only for a validation error; anything else is a 500 "Internal server error" with code "INTERNAL_ERROR" |
| ApiErrorHandling.HierarchiesDoNotMix | src/lib/utils/errors.ts:43-65 | each handler treats the other hierarchy's errors as unknown and answers 500 |
| ApiErrorHandling.SubclassStatusKept | src/lib/utils/errors.ts:44-55 | the handled not-found, duplicate and external-service errors keep 404, 409 and 502 and their messages |
| EmailUrls.SiteUrl | emails/utils/env.ts:9-12 | the site URL variable when set and non-empty, else "http://localhost:4321" |
| EmailUrls.CleanPath | emails/utils/env.ts:18 | the path with exactly one leading slash added when it has none |
| EmailUrls.CreateSiteUrl | emails/utils/env.ts:17-21 | the base followed by the path when it starts with "/", else by "/" and the path |
| EmailUrls.CleanPathIdempotent | emails/utils/env.ts:17-21 | adding the slash beforehand changes nothing |
| EmailUrls.DefaultPathIsRoot | emails/utils/env.ts:17-20 | the default path gives the base followed by "/" |
| EmailUrls.TokenUrl | emails/utils/env.ts:17-35 | a token link is the base, then the path segment, then the token, with no extra slash |
| EmailUrls.CreateUnsubscribeUrl | emails/utils/env.ts:26-28 | the base followed by "/unsubscribe/" and the token |
| EmailUrls.CreateConfirmationUrl | emails/utils/env.ts:33-35 | the base followed by "/confirm/" and the token |
| EmailUrls.LogoUrl | emails/utils/env.ts:40-42 | the base followed by "/logo.svg" |
| EmailUrls.TokenRecoverable | emails/utils/env.ts:26-35 | the token can be read back from a token link, so distinct tokens give distinct unsubscribe links and distinct confirmation links |
| EmailUrls.UnsubscribeIsNotConfirmation | emails/utils/env.ts:26-35 | an unsubscribe link is never a confirmation link |
| SecurityHeaders.Defaults | src/lib/middleware/SecurityHeaders.ts:16-31 | exactly the eight default headers, with no Content-Security-Policy and Content-Type "application/json" |
| SecurityHeaders.CorsSet | src/lib/middleware/SecurityHeaders.ts:39-48 | sets only the three Access-Control headers, with defaults "*", "GET, POST, OPTIONS" and "Content-Type, Authorization" |
| SecurityHeaders.CorsDefaultsAreDefaults | src/lib/middleware/SecurityHeaders.ts:16-48 | `withCORS()` on a new builder changes nothing |
| SecurityHeaders.SecurityHeadersBuilder.constructor | src/lib/middleware/SecurityHeaders.ts:16-31 | a new builder holds the defaults |
| SecurityHeaders.SecurityHeadersBuilder.WithCSP | src/lib/middleware/SecurityHeaders.ts:34-37 | sets only Content-Security-Policy and returns the same builder |
| SecurityHeaders.SecurityHeadersBuilder.WithCORS | src/lib/middleware/SecurityHeaders.ts:39-48 | sets the headers as `CorsSet` and returns the same builder |
| SecurityHeaders.SecurityHeadersBuilder.WithContentType | src/lib/middleware/SecurityHeaders.ts:50-53 | overwrites only Content-Type and returns the same builder |
| SecurityHeaders.SecurityHeadersBuilder.Build | src/lib/middleware/SecurityHeaders.ts:55-57 | the current headers |
| SecurityHeaders.Json | src/lib/middleware/SecurityHeaders.ts:59-61 | exactly the defaults: no Content-Security-Policy and JSON content type |
| SecurityHeaders.Api | src/lib/middleware/SecurityHeaders.ts:63-68 | the defaults plus Content-Security-Policy "default-src 'self'", and nothing else |
| SecurityHeaders.ChainedCallsAccumulate | src/lib/middleware/SecurityHeaders.ts:34-53 | chained calls act on one builder: later writes win and earlier headers survive |
| Watcher.LastIndexOf | scripts/watch-newsletter.ts:72 | the last position of a character, or nothing exactly when it is absent |
| Watcher.Basename | scripts/watch-newsletter.ts:72 | the basename holds no slash and is the name itself when it has none |
| Watcher.Extname | scripts/watch-newsletter.ts:72 | the extension is empty or a proper suffix that starts with its only dot |
| Watcher.SlugOf | scripts/watch-newsletter.ts:71-73 | the slug followed by the extension is the basename |
| Watcher.IsValidNewsletterFile | scripts/watch-newsletter.ts:76-78 | a valid newsletter file has a name longer than ".md" and is never a draft |
| Watcher.IsDraftFile | scripts/watch-newsletter.ts:81-83 | a draft file starts with "_" and has a name longer than ".md" |
| Watcher.DraftIsNotValid | scripts/watch-newsletter.ts:76-83 | a file is never both a draft and a valid newsletter file |
| Watcher.ValidFileSlug | scripts/watch-newsletter.ts:71-78 | the slug of a valid file name is the name without ".md" |
| Watcher.WatchStep | scripts/watch-newsletter.ts:86-122 | a created valid file is scheduled exactly when its slug is new, and the slug is added; a removed one drops its slug; other events change nothing |
| Watcher.ScheduledAtMostOnce | scripts/watch-newsletter.ts:104-121 | while its file is not removed a slug is scheduled at most once, and not at all if already processed, and stays processed |
| Watcher.RecreatedFileIsScheduledAgain | scripts/watch-newsletter.ts:104-121 | removing a file and creating it again schedules it again |
| Watcher.NewsletterWatcher.constructor | scripts/watch-newsletter.ts:25 | no processed file and nothing scheduled |
| Watcher.NewsletterWatcher.OnEvent | scripts/watch-newsletter.ts:86-122 | the callback updates `processedFiles` as `WatchStep` and schedules its slug, keeping every processed slug scheduled |
| Watcher.SendNewsletter | scripts/watch-newsletter.ts:28-63 | at most `retries + 1` requests; true exactly when the last reply is ok with success; every earlier reply was a retryable failure; stopping early means the last reply was delivered or not retryable |
| Watcher.RetriesExhausted | scripts/watch-newsletter.ts:46-61 | when every reply is a retryable failure, exactly `retries + 1` requests are made and the result is false |

## Left out

- Database and network I/O are not modelled: the Turso client, the Resend email provider, HTTP requests and file-system watching. They are replaced by the maps, oracles and event parameters described above.
- Concurrency is not modelled. Asynchronous calls run to completion one after the other. Races are out of scope: two `resolve` calls building the same singleton, or two `subscribe` calls for the same new address.
- Pauses are not modelled: the 100 ms pause between newsletter sends, the watcher's 10 s delay before sending and its 5 s delay between retries.
- Logging is not modelled (`console.*` and `logError`), nor are the `name` and stack fields of errors.
- `markdownToHtml` and the reading-time estimate are parameters of the content source, since both are regular-expression text processing.
- `formatDate` in src/lib/newsletter-utils.ts is not modelled; it is locale formatting of a date.
- `initMigrationTable` is not modelled: the history table always exists in the model. `CREATE TABLE IF NOT EXISTS` makes the call idempotent.
- Migrations.MigrationManager.GetAppliedMigrations: the `ORDER BY version` of the query is not modelled. The versions are returned in an unspecified order, and no caller depends on it.
- Migrations.MigrationManager.GetMigrationStatus: the `applied_at` timestamp and the row id are not modelled.
- Migrations.Database.Insert: the history insert fails only on the UNIQUE constraint. Other insert failures are not modelled.
- Issues.GetTags: returning a copy of the tags has no counterpart over values. Sequences are immutable, so later calls are unaffected by construction.
- DependencyInjection.ResolveEffect: factories are opaque and always return a value. A factory that returns `null` and so leaves the placeholder in place is not modelled. Each factory call's result is tagged with its call number, so the model states nothing about whether a function factory (`register`) returns a shared object or a new one; only `registerClass` factories are promised distinct instances.
- SecurityHeaders.SecurityHeadersBuilder.Build: `build()` returns the builder's own header object, so later builder calls change a map obtained earlier. The model returns a value, so that aliasing is not captured.
- Watcher.Basename: trailing slashes and Windows separators are not handled. The watcher only receives plain file names.
- Subscription.SubscriptionUseCase.Subscribe: a repository call that throws is not modelled, and neither is the "Erro interno" result its `catch` gives (src/domain/usecases/SubscriptionUseCase.ts:78-83). The in-memory store never throws. With the SQL store, the reactivation save would insert a second row with the same email, break the UNIQUE constraint and end in that `catch`.
- Subscription.SubscriptionUseCase.ConfirmSubscription: a repository call that throws, and the "Erro interno" result of its `catch` (src/domain/usecases/SubscriptionUseCase.ts:121-126), are not modelled, because the in-memory store never throws.
- Subscription.SubscriptionUseCase.Unsubscribe: a repository call that throws, and the "Erro interno" result of its `catch` (src/domain/usecases/SubscriptionUseCase.ts:159-164), are not modelled, because the in-memory store never throws.
- NewsletterSending.NewsletterSendingUseCase.SendNewsletterBySlug, NewsletterSending.NewsletterSendingUseCase.SendToAllSubscribers and NewsletterSending.NewsletterSendingUseCase.SendLatestNewsletter: a subscriber repository call that throws, and the "Erro interno ao enviar newsletter" result of their `catch` blocks (src/domain/usecases/NewsletterSendingUseCase.ts:45-50, 61-66, 90-95), are not modelled, because the in-memory store never throws.
- The watcher's start-up, its process signals and the health-check spawn are not modelled.
- The stale wrapper src/lib/services/SubscriptionService.ts, the API routes, the container bindings and the email templates are not part of this model.
- Numbers are unbounded integers. JavaScript numbers are doubles, so counts above 2^53 would differ; none of the counts here can get that large. The content schema's `z.number()` also admits fractional issue numbers and reading times; the model's `issue` and `readingTime` are integers, so fractional values are not modelled.

## Findings

| source | as written | input that shows it | evidently intended | confidence | as-written member | corrected member |
|---|---|---|---|---|---|---|
| src/domain/usecases/SubscriptionUseCase.ts:54-64 | with the in-memory store, an unsubscribed address that subscribes again gets a new pending record and a success message, but no confirmation email | subscribe, unsubscribe, then subscribe again with the same valid address | the reactivation path sends the confirmation email like the new-address path at lines 67-71. Without it, every further `subscribe` through this flow is refused with "Já enviamos um email de confirmação" although no such email was sent; only a separate `sendConfirmationEmail` call (src/domain/usecases/NewsletterSendingUseCase.ts:164-181) would mail the link | not executed | Subscription.ResubscribeSendsNoConfirmation | Subscription.CorrectedSubscribeAlwaysConfirms |
