# Restock Radar, modelled in Dafny

Restock Radar is a once-per-run stock checker for the Amul protein shop. One run does these steps in order:

1. Load the last known stock snapshot from `last-known-stock.json`.
2. Fetch the current product list from the Amul API, under a retry executor with exponential backoff.
3. Diff the two snapshots on `Product.isInStock`.
4. Show the current status.
5. E-mail an alert for the products that came back in stock, then one for the products that sold out.
6. Save the new snapshot with a temp-write-then-move discipline, and log a summary.

This project models that core and proves what the code promises about it.

- `text.dfy` (`Text`): strings, containment, lower-casing and decimal rendering used by the messages.
- `nullable.dfy` (`Nullable`): Java `null` as `Option`.
- `errors.dfy` (`Errors`): exceptions as values. An exception has a class, a message and an optional cause. `WrapInRuntime` is `new RuntimeException(e)`, whose message is `"<qualified class name>: <message>"`.
- `product.dfy` (`Products`): the `Product` record, `isInStock`, `toSummary` and the in-stock counts.
- `retry.dfy` (`RetryUtility`, `RetryProperties`): the presets, the keyword classifier and `executeWithRetry`.
  - An operation is a function of the attempt number and a "world" it may change.
  - `Thread.sleep` appends its delay to a trace.
  - An interrupted sleep is a per-attempt flag.
  - The `double` multiplier is an exact ratio, applied with truncation.
  - The method `ExecuteWithRetry` keeps the Java loop. It is proved equal to the recursive function `Retry`, and the properties are lemmas about `Retry`.
- `state_service.dfy` (`StateService`): the snapshot map, `productsToStateMap`, the two diffs, the comparison counts, and `loadState`/`saveState`.
  - The file system is a map from path to file content. The `Disk` class holds it and is updated in place.
  - A file's content is its size and what JSON parsing yields.
  - HashMap iteration order is an explicit enumeration of the keys. `IterationOrder` picks one arbitrarily.
- `notification.dfy` (`Notifications`): the `Notification` record, its two enums, and the alert and test factories. The alert body is built by a `StringBuilder` loop.
- `extractor.dfy` (`AmulApiStockExtractor`): HTTP status classification, the body checks, `transformToProduct`, alias filtering, and `checkStock` under retries.
- `configuration.dfy` (`Configuration`): the mutable `RestockRadarConfiguration` and `EmailConfiguration` objects, their defaults, the null-normalising setters and `isValid`. The SMTP credentials are parameters.
- `email_notifier.dfy` (`EmailNotifiers`): the notifier and its constructor guards, the Gmail and Outlook presets, `isConfigured` and the priority header.
  - It also models `send` (type check, retries, cause unwrapping), the SMTP error rewriting and `testConnection`.
  - The mail transport's behaviour at each attempt is an input.
- `check_stock.dfy` (`CheckStockCommand`): `executeStockCheckWorkflow` and `sendNotificationsIfNeeded` as methods.
  - The API replies, mail transports, file faults, credentials and interrupted sleeps come in as an `Environment`.
  - A run returns the list of observable steps it took.
  - The contract of a successful run reads the e-mail settings (enabled, valid, recipients) as they were when the run started; nothing in the run changes them.

## Model

| member | source | states |
|---|---|---|
| Products.OutOfStockCases | src/main/java/com/radar/stock/models/Product.java:18-20 | a product that is not available, or has quantity <= 0, is never in stock; in stock implies quantity >= 1 |
| Products.ToSummary | src/main/java/com/radar/stock/models/Product.java:26-29 | the summary starts with name + " [", shows "] - Stock: " and the quantity, and ends with "(Available: Yes/No)" |
| Products.SummaryShowsAvailability | src/main/java/com/radar/stock/models/Product.java:26-29 | the summary ends in "Yes)" exactly when the product is available |
| Products.CountsPartition | src/main/java/com/radar/stock/commands/CheckStockCommand.java:262-263 | the in-stock and out-of-stock counts of a list sum to its length |
| Errors.WrapFailure | src/main/java/com/radar/stock/extractors/AmulApiStockExtractor.java:100-105 | a retried lambda passes a value through and rethrows a failure wrapped in a RuntimeException |
| RetryUtility.NextDelay | src/main/java/com/radar/stock/core/RetryUtility.java:113-116 | the next delay is the minimum of maxDelay and the truncated product of the delay and the multiplier: at most each, and equal to maxDelay or to the largest value not above the product |
| RetryUtility.DelayCapped | src/main/java/com/radar/stock/core/RetryUtility.java:113-116 | every sleep after the first is at most maxDelay |
| RetryUtility.DelaysNonDecreasing | src/main/java/com/radar/stock/core/RetryUtility.java:113-116 | with multiplier >= 1 and initialDelay <= maxDelay the delays never decrease and stay within maxDelay |
| RetryUtility.PresetSchedules | src/main/java/com/radar/stock/core/RetryUtility.java:39-49 | the presets' schedules: 1000, 2000, 4000 ms for API calls; 2000, 3000, 4500 ms for e-mail; 500, 1000, ..., 2000 ms for state files |
| RetryUtility.IsRetryableException | src/main/java/com/radar/stock/core/RetryUtility.java:151-196 | a failure is retryable iff a retryable keyword is in the lower-cased message, a network word is in the class name, or no non-retryable keyword is in the message |
| RetryUtility.RetryableKeywordWins | src/main/java/com/radar/stock/core/RetryUtility.java:155-185 | any retryable keyword makes the failure retryable, even beside "invalid" or another non-retryable word |
| RetryUtility.TerminalOnlyOnNonRetryableKeyword | src/main/java/com/radar/stock/core/RetryUtility.java:187-195 | a non-retryable verdict means a non-retryable keyword is present and no retryable one |
| RetryUtility.WrappedKeywordRetryable | src/main/java/com/radar/stock/core/RetryUtility.java:151-153 | a failure whose message holds a retryable keyword in any case stays retryable once wrapped in a RuntimeException |
| RetryUtility.ExecuteWithRetry | src/main/java/com/radar/stock/core/RetryUtility.java:74-126 | the loop with its breaks, sleeps and backoff computes exactly the run `Retry` defines |
| RetryProperties.RetryFromShape | src/main/java/com/radar/stock/core/RetryUtility.java:80-122 | from any attempt number on, every attempt but the last failed retryably and was not interrupted, and the run ends in success, an interrupted sleep, or the exhausted error caused by the last failure |
| RetryProperties.RetryShape | src/main/java/com/radar/stock/core/RetryUtility.java:80-122 | at most maxAttempts attempts; every attempt but the last failed retryably and uninterrupted; the run ends in success, interruption, or the exhausted error caused by the last failure without a further sleep |
| RetryProperties.RetrySleeps | src/main/java/com/radar/stock/core/RetryUtility.java:105-116 | the i-th sleep is the i-th delay of the backoff schedule |
| RetryProperties.RetrySucceedsAt | src/main/java/com/radar/stock/core/RetryUtility.java:80-106 | first success at attempt k returns that value after exactly k attempts and k - 1 sleeps |
| RetryProperties.TerminalFirstFailure | src/main/java/com/radar/stock/core/RetryUtility.java:117-120 | a non-retryable first failure stops at once: one attempt, no sleep, the exhausted error caused by it |
| RetryProperties.NoSleepAfterFinalAttempt | src/main/java/com/radar/stock/core/RetryUtility.java:94-98 | a run that used every attempt slept maxAttempts - 1 times, never after the last |
| RetryProperties.ExhaustedNamesMaxAttempts | src/main/java/com/radar/stock/core/RetryUtility.java:124-125 | the thrown message names maxAttempts and its cause is the last failure |
| RetryProperties.RetryPreserves | src/main/java/com/radar/stock/core/RetryUtility.java:80-92 | a property of the world that every attempt keeps holds after the run |
| RetryProperties.RetryEstablishes | src/main/java/com/radar/stock/core/RetryUtility.java:80-122 | a property of the world that every attempt establishes, whatever it started from, holds after a run with maxAttempts >= 1 |
| RetryProperties.RetrySuccessFromOp | src/main/java/com/radar/stock/core/RetryUtility.java:83-89 | a successful run returns a value some attempt returned |
| RetryProperties.RetryFailure | src/main/java/com/radar/stock/core/RetryUtility.java:107-125 | a failed run threw the interruption error after an interrupted sleep, or the exhausted error caused by one of the operation's failures |
| RetryProperties.RetryFailureWrapped | src/main/java/com/radar/stock/core/RetryUtility.java:124-125 | when every failure is a wrapped exception of one class, a failed run's cause is the last attempt's wrapper |
| StateService.IterationOrder | src/main/java/com/radar/stock/services/StateService.java:233-234 | the order lists every key of the map exactly once |
| StateService.ProductsToStateMap | src/main/java/com/radar/stock/services/StateService.java:213-219 | the loop builds the map `StateMapOf` defines |
| StateService.StateMapOfKeys | src/main/java/com/radar/stock/services/StateService.java:213-219 | the keys are exactly the aliases of the list |
| StateService.StateMapOfLastWins | src/main/java/com/radar/stock/services/StateService.java:213-219 | each key holds the last product in the list with that alias |
| StateService.StateMapOfAliasKeyed | src/main/java/com/radar/stock/services/StateService.java:213-219 | every product is stored under its own alias |
| Products.FilterMembers | src/main/java/com/radar/stock/services/StateService.java:233-256 | a stream filter keeps exactly the elements of the list that its predicate accepts |
| Products.FilterAppend | src/main/java/com/radar/stock/services/StateService.java:233-256 | a stream filter keeps list order: filtering a concatenation concatenates the filtered parts |
| Products.FilterSnoc | src/main/java/com/radar/stock/services/StateService.java:233-256 | filtering a list with one more element appends that element exactly when the predicate accepts it |
| StateService.FindNewlyInStockProducts | src/main/java/com/radar/stock/services/StateService.java:231-257 | a product is in the list iff it is a current value, its alias has a previous entry, that entry was out of stock and the product is in stock |
| StateService.FindNewlyOutOfStockProducts | src/main/java/com/radar/stock/services/StateService.java:269-295 | a product is in the list iff it is a current value, its alias has a previous entry, that entry was in stock and the product is out of stock |
| StateService.DiffContents | src/main/java/com/radar/stock/services/StateService.java:231-294 | newly in stock iff a current value with a previous entry that was out of stock and is in stock now; newly out of stock iff the reverse |
| StateService.NoPreviousEntryNoChange | src/main/java/com/radar/stock/services/StateService.java:237-242 | a product whose alias has no previous entry is in neither list |
| StateService.DiffInIterationOrder | src/main/java/com/radar/stock/services/StateService.java:231-295 | both lists are empty for no keys; one more key in the iteration order appends its product to a list exactly when it fires for that list, so the lists are in iteration order with every firing value |
| StateService.DiffDisjoint | src/main/java/com/radar/stock/services/StateService.java:231-294 | no product is in both lists |
| StateService.SelfDiffEmpty | src/main/java/com/radar/stock/services/StateService.java:231-294 | diffing an alias-keyed snapshot against itself gives two empty lists |
| StateService.ChangedCounts | src/main/java/com/radar/stock/services/StateService.java:304-318 | newly in stock are at most those in stock now; newly out of stock at most the rest |
| StateService.StateComparisonCounts | src/main/java/com/radar/stock/services/StateService.java:304-319 | the four counts are the numbers of in-stock keys of each snapshot and of current keys that came back in stock or sold out, so no count depends on the iteration order; newly in stock <= in stock now, newly out of stock <= the rest |
| StateService.StateComparisonSummary | src/main/java/com/radar/stock/services/StateService.java:317-319 | the text starts with the previous in-stock count, then shows the current in-stock count, the newly-in-stock count, and ends with the newly-out-of-stock count |
| StateService.ValidProductsMembers | src/main/java/com/radar/stock/services/StateService.java:108-115 | every kept product has a non-null alias and is an entry of the file, and every non-null entry with a non-null alias is kept |
| StateService.ValidProductsAppend | src/main/java/com/radar/stock/services/StateService.java:108-115 | the kept products keep file order: the products kept from a concatenation are those kept from each part |
| StateService.ValidProductsSnoc | src/main/java/com/radar/stock/services/StateService.java:108-115 | one more entry is appended to the kept products exactly when it is non-null with a non-null alias |
| StateService.LoadedMapWellFormed | src/main/java/com/radar/stock/services/StateService.java:107-115 | the loaded map has no null key and keys every product by its alias |
| StateService.LoadStateFromFile | src/main/java/com/radar/stock/services/StateService.java:78-121 | fails, with an IOException, iff the file is non-empty and over 10 MiB or unparseable; otherwise a well-formed map |
| StateService.LoadResult | src/main/java/com/radar/stock/services/StateService.java:42-67 | whatever the file and the faults, loadState returns a map without a null key that keys every product by its alias |
| StateService.LoadEmptyCases | src/main/java/com/radar/stock/services/StateService.java:81-105 | an empty, oversized or null-document file gives an empty map |
| StateService.LoadWellFormedFile | src/main/java/com/radar/stock/services/StateService.java:42-67 | a readable well-formed file gives the map of its valid products |
| StateService.LoadState | src/main/java/com/radar/stock/services/StateService.java:42-67 | the method returns the retried load's map, an empty map on a missing file or persistent failure |
| StateService.SavedProducts | src/main/java/com/radar/stock/services/StateService.java:170-172 | a product is written iff it is a value of the state with a non-null alias |
| StateService.SavedInIterationOrder | src/main/java/com/radar/stock/services/StateService.java:170-172 | no keys write nothing; one more key in the iteration order appends its product exactly when the product has an alias |
| StateService.SaveStateToFile | src/main/java/com/radar/stock/services/StateService.java:157-204 | one attempt succeeds iff state non-null, non-empty write, and working move; success leaves the new document at the destination; the destination holds old or new content; a null state changes nothing; no temp file unless its delete failed; other files untouched |
| StateService.SaveStateFacts | src/main/java/com/radar/stock/services/StateService.java:128-147 | after the retried save the destination holds old or complete new content, and the new content when it succeeded |
| StateService.SaveLeavesNoTempFile | src/main/java/com/radar/stock/services/StateService.java:196-203 | when every delete works no `.tmp` file is left behind, even a stale one from an earlier run |
| StateService.SaveNullState | src/main/java/com/radar/stock/services/StateService.java:165-168 | saving a null state fails and changes no file |
| StateService.SaveLoadRoundTrip | src/main/java/com/radar/stock/services/StateService.java:166-173 | loading what was saved from an alias-keyed snapshot without a null key gives the snapshot back |
| StateService.SaveState | src/main/java/com/radar/stock/services/StateService.java:128-147 | returns true iff the retried save succeeded; the disk becomes the save's result, old-or-new at the destination |
| Notifications.AlertSubject | src/main/java/com/radar/stock/models/Notification.java:28-29 | the subject embeds the count and ends with the plural "s" iff the count is not 1 |
| Notifications.AlertSubjectDeterminesCount | src/main/java/com/radar/stock/models/Notification.java:28-29 | two subjects of one kind are equal only for equal counts |
| Notifications.ProductBlock | src/main/java/com/radar/stock/models/Notification.java:35-37 | each block starts with the marker and the name, and ends with the product link |
| Notifications.BlocksLinkEveryProduct | src/main/java/com/radar/stock/models/Notification.java:34-38 | every product's shop link is in the blocks |
| Notifications.AlertMessageLinksEveryProduct | src/main/java/com/radar/stock/models/Notification.java:31-43 | every product's shop link is in the alert body |
| Notifications.BuildAlertMessage | src/main/java/com/radar/stock/models/Notification.java:31-43 | the StringBuilder loop builds header, one block per product in order, footer |
| Notifications.Alert | src/main/java/com/radar/stock/models/Notification.java:45-53 | an alert is an e-mail with the given recipients and products, HIGH for back in stock, NORMAL for sold out |
| Notifications.CreateStockAlert | src/main/java/com/radar/stock/models/Notification.java:27-54 | an EMAIL of priority HIGH with the recipients and products unchanged |
| Notifications.CreateOutOfStockAlert | src/main/java/com/radar/stock/models/Notification.java:63-91 | an EMAIL of priority NORMAL with the recipients and products unchanged |
| Notifications.CreateStockAlertFor | src/main/java/com/radar/stock/models/Notification.java:131-133 | equals the list version with a one-element list |
| Notifications.CreateOutOfStockAlertFor | src/main/java/com/radar/stock/models/Notification.java:142-144 | equals the list version with a one-element list |
| Notifications.CreateTestNotification | src/main/java/com/radar/stock/models/Notification.java:99-112 | an EMAIL of priority LOW, no products, body ending with the send time |
| Notifications.CreateTestNotificationFor | src/main/java/com/radar/stock/models/Notification.java:120-122 | the one-recipient test notification |
| AmulApiStockExtractor.ClassifyStatus | src/main/java/com/radar/stock/extractors/AmulApiStockExtractor.java:147-170 | 200 succeeds; >= 500 server error; 429 rate limit; other 4xx client error; anything else unexpected, each iff |
| AmulApiStockExtractor.StatusError | src/main/java/com/radar/stock/extractors/AmulApiStockExtractor.java:147-170 | a StockExtractionException with no cause; the server error says "temporary", the rate limit "status 429" |
| AmulApiStockExtractor.TransformToProduct | src/main/java/com/radar/stock/extractors/AmulApiStockExtractor.java:236-243 | copies name, alias and quantity; available iff the API value is 1 |
| AmulApiStockExtractor.TransformedInStock | src/main/java/com/radar/stock/extractors/AmulApiStockExtractor.java:236-243 | a transformed product is in stock iff available == 1 and quantity > 0 |
| AmulApiStockExtractor.TransformAll | src/main/java/com/radar/stock/extractors/AmulApiStockExtractor.java:203-205 | succeeds iff no element is null, and then maps every element in order |
| AmulApiStockExtractor.FilterByAliases | src/main/java/com/radar/stock/extractors/AmulApiStockExtractor.java:211-213 | keeps exactly the products whose alias is watched |
| AmulApiStockExtractor.SelectProducts | src/main/java/com/radar/stock/extractors/AmulApiStockExtractor.java:209-219 | a null or empty alias list keeps all products; otherwise exactly the watched ones |
| AmulApiStockExtractor.SelectInOrder | src/main/java/com/radar/stock/extractors/AmulApiStockExtractor.java:209-219 | the selection keeps API order and every occurrence: nothing from nothing, one more product is appended exactly when it is watched or nothing is filtered, and selecting from a concatenation concatenates the selections |
| AmulApiStockExtractor.FetchStockDataFromApi | src/main/java/com/radar/stock/extractors/AmulApiStockExtractor.java:126-228 | every failure is a StockExtractionException; success needs status 200, a non-blank body and non-null data; a non-200 status gives its status error |
| AmulApiStockExtractor.BlankBodyFails | src/main/java/com/radar/stock/extractors/AmulApiStockExtractor.java:175-177 | a null or blank body fails with "Received empty response from API" |
| AmulApiStockExtractor.WellFormedReply | src/main/java/com/radar/stock/extractors/AmulApiStockExtractor.java:203-219 | a well-formed 200 reply yields the transformed products, filtered by the aliases |
| AmulApiStockExtractor.ServerErrorRetryable | src/main/java/com/radar/stock/extractors/AmulApiStockExtractor.java:147-152 | a wrapped server error is retried |
| AmulApiStockExtractor.RateLimitRetryable | src/main/java/com/radar/stock/extractors/AmulApiStockExtractor.java:153-157 | a wrapped rate-limit error is retried |
| AmulApiStockExtractor.FetchFailuresWrapped | src/main/java/com/radar/stock/extractors/AmulApiStockExtractor.java:99-106 | every failed fetch attempt is a RuntimeException wrapping a StockExtractionException |
| AmulApiStockExtractor.FetchRunFailure | src/main/java/com/radar/stock/extractors/AmulApiStockExtractor.java:98-106 | a failed fetch run was interrupted, or its cause is the last attempt's wrapper |
| AmulApiStockExtractor.FetchSuccess | src/main/java/com/radar/stock/extractors/AmulApiStockExtractor.java:98-107 | a successful run returns the result of some reply |
| AmulApiStockExtractor.CheckStockAsWritten | src/main/java/com/radar/stock/extractors/AmulApiStockExtractor.java:108-115 | as written: every failure is re-wrapped as "Failed to fetch stock data after retries" |
| AmulApiStockExtractor.CheckStock | src/main/java/com/radar/stock/extractors/AmulApiStockExtractor.java:93-116 | corrected: failures are StockExtractionExceptions; the fetch's own exception is rethrown unchanged; an interruption is wrapped; success comes from some reply |
| AmulApiStockExtractor.CheckStockAgreesWithAsWritten | src/main/java/com/radar/stock/extractors/AmulApiStockExtractor.java:93-116 | the corrected and as-written checkStock agree on whether the fetch succeeded and, when it did, on the products |
| AmulApiStockExtractor.ServerErrorNotPreserved | src/main/java/com/radar/stock/extractors/AmulApiStockExtractor.java:108-115 | with every reply 503, the as-written code re-wraps while the corrected one rethrows the server error |
| Configuration.EmailConfiguration.constructor | src/main/java/com/radar/stock/RestockRadarConfiguration.java:74-94 | defaults smtp.gmail.com, 587, TLS on, SSL off, no recipients, enabled |
| Configuration.EmailConfiguration.SetHost | src/main/java/com/radar/stock/RestockRadarConfiguration.java:101-103 | sets the host, nothing else changes |
| Configuration.EmailConfiguration.SetPort | src/main/java/com/radar/stock/RestockRadarConfiguration.java:109-111 | sets the port, nothing else changes |
| Configuration.EmailConfiguration.SetEnabled | src/main/java/com/radar/stock/RestockRadarConfiguration.java:149-151 | sets the flag, nothing else changes |
| Configuration.EmailConfiguration.SetRecipients | src/main/java/com/radar/stock/RestockRadarConfiguration.java:133-135 | null stores an empty list; nothing else changes |
| Configuration.RestockRadarConfiguration.constructor | src/main/java/com/radar/stock/RestockRadarConfiguration.java:20-23 | a fresh default e-mail section and no watched products |
| Configuration.RestockRadarConfiguration.SetWatchedProducts | src/main/java/com/radar/stock/RestockRadarConfiguration.java:48-60 | null stores an empty list; selective monitoring iff the list given is non-null and non-empty |
| Configuration.EmailConfiguration.IsValid | src/main/java/com/radar/stock/RestockRadarConfiguration.java:179-187 | a disabled configuration is valid; a valid enabled one has at least one recipient, a positive port, a host and both credentials |
| Configuration.RestockRadarConfiguration.IsSelectiveMonitoring | src/main/java/com/radar/stock/RestockRadarConfiguration.java:58-60 | selective monitoring iff the watched list holds some alias |
| Configuration.NoRecipientsInvalid | src/main/java/com/radar/stock/RestockRadarConfiguration.java:179-187 | an enabled configuration without recipients is invalid |
| Configuration.CredentialsRequiredWhenEnabled | src/main/java/com/radar/stock/RestockRadarConfiguration.java:179-187 | a disabled configuration is valid; an enabled one is invalid without either credential |
| EmailNotifiers.ForGmail | src/main/java/com/radar/stock/notifiers/EmailNotifier.java:95-97 | smtp.gmail.com, 587, TLS on, SSL off, the credentials given |
| EmailNotifiers.ForOutlook | src/main/java/com/radar/stock/notifiers/EmailNotifier.java:106-108 | smtp-mail.outlook.com, 587, TLS on, SSL off, the credentials given |
| EmailNotifiers.PresetsConfigured | src/main/java/com/radar/stock/notifiers/EmailNotifier.java:234-239 | a preset notifier is configured iff both credentials are non-null and non-blank |
| EmailNotifiers.MissingCredentials | src/main/java/com/radar/stock/notifiers/EmailNotifier.java:65-71 | lists " SMTP_USERNAME" iff the username is null and " SMTP_PASSWORD" iff the password is null |
| EmailNotifiers.MissingListed | src/main/java/com/radar/stock/notifiers/EmailNotifier.java:65-71 | the list is empty iff both credentials are present, starts with " SMTP_USERNAME" iff the username is missing and ends with " SMTP_PASSWORD" iff the password is missing |
| EmailNotifiers.FromConfiguration | src/main/java/com/radar/stock/notifiers/EmailNotifier.java:59-86 | disabled fails first; invalid fails listing the missing credentials; succeeds iff enabled and valid, copying the settings |
| EmailNotifiers.PriorityHeader | src/main/java/com/radar/stock/notifiers/EmailNotifier.java:330-336 | URGENT and HIGH give "1", NORMAL "3", LOW "5", each iff |
| EmailNotifiers.MatchedRule | src/main/java/com/radar/stock/notifiers/EmailNotifier.java:194-200 | the first matching rewrite rule in order: credentials, connection, invalid address |
| EmailNotifiers.ConnectionFailureRetried | src/main/java/com/radar/stock/notifiers/EmailNotifier.java:196-197 | a rewritten connection failure is retried |
| EmailNotifiers.UnmatchedSmtpFailureRetried | src/main/java/com/radar/stock/notifiers/EmailNotifier.java:189-190 | an SMTP failure no rule rewrites is retried |
| EmailNotifiers.SmtpFailure | src/main/java/com/radar/stock/notifiers/EmailNotifier.java:188-202 | a NotificationException with the rewritten text, caused by the MessagingException |
| EmailNotifiers.UnexpectedFailure | src/main/java/com/radar/stock/notifiers/EmailNotifier.java:203-207 | a NotificationException naming the error, caused by it |
| EmailNotifiers.SendEmailWithoutRetry | src/main/java/com/radar/stock/notifiers/EmailNotifier.java:166-208 | no recipients fails before any connection; succeeds iff recipients exist and the transport delivered |
| EmailNotifiers.SendFailuresWrapped | src/main/java/com/radar/stock/notifiers/EmailNotifier.java:134-140 | every failed delivery attempt is a RuntimeException wrapping a NotificationException |
| EmailNotifiers.SendRunSuccess | src/main/java/com/radar/stock/notifiers/EmailNotifier.java:134-143 | a successful delivery run had recipients and a delivering transport |
| EmailNotifiers.SendAsWritten | src/main/java/com/radar/stock/notifiers/EmailNotifier.java:122-157 | as written: non-EMAIL rejected before delivery; every failure re-wrapped as "Failed to send email" |
| EmailNotifiers.Send | src/main/java/com/radar/stock/notifiers/EmailNotifier.java:122-157 | corrected: non-EMAIL rejected; failures are NotificationExceptions, the delivery's own one rethrown; success needs recipients and a delivery |
| EmailNotifiers.SendAgreesWithAsWritten | src/main/java/com/radar/stock/notifiers/EmailNotifier.java:122-157 | the corrected and as-written send agree on whether the e-mail went out |
| EmailNotifiers.NoRecipientsNeverDelivered | src/main/java/com/radar/stock/notifiers/EmailNotifier.java:297-299 | an e-mail without recipients always fails |
| EmailNotifiers.TestConnection | src/main/java/com/radar/stock/notifiers/EmailNotifier.java:211-221 | true iff the test notification's delivery run succeeded; never throws |
| EmailNotifiers.NotificationFailureNotPreserved | src/main/java/com/radar/stock/notifiers/EmailNotifier.java:145-155 | with every transport failing unexpectedly, the as-written code re-wraps while the corrected one rethrows the delivery error |
| CheckStockCommand.NotifyAlert | src/main/java/com/radar/stock/commands/CheckStockCommand.java:187-188 | builds the alert and records it with its send outcome |
| CheckStockCommand.AlertSentFields | src/main/java/com/radar/stock/commands/CheckStockCommand.java:183-202 | a recorded send carries the alert HIGH for back in stock and NORMAL for sold out, addressed to the configured recipients |
| CheckStockCommand.AlertsSentFirst | src/main/java/com/radar/stock/commands/CheckStockCommand.java:183-213 | with something newly in stock, the HIGH alert with exactly the newly-in-stock list is sent first, and a failure of it ends the sending |
| CheckStockCommand.AlertsSentLast | src/main/java/com/radar/stock/commands/CheckStockCommand.java:193-213 | with something newly out of stock, and no failed in-stock send before it, the NORMAL alert with exactly the newly-out-of-stock list is sent last |
| CheckStockCommand.SendNotificationsIfNeeded | src/main/java/com/radar/stock/commands/CheckStockCommand.java:156-226 | nothing is sent unless enabled and valid (so recipients exist); then the sends `AlertsSent` describes, at most two |
| CheckStockCommand.DisplayCounts | src/main/java/com/radar/stock/commands/CheckStockCommand.java:262-263 | the in-stock and out-of-stock counts sum to the number of products |
| CheckStockCommand.ProcessFetchedProducts | src/main/java/com/radar/stock/commands/CheckStockCommand.java:113-150 | the snapshot of the fetched list alone is diffed against the loaded one, the comparison records the in-stock key counts of both snapshots and the numbers of keys that came back in stock and sold out, the list is shown, notified about when e-mail is enabled and valid, saved exactly once whatever the sends did (the disk becomes the retried save's result, old or new content at the state file), then summarised |
| CheckStockCommand.ExecuteStockCheckWorkflow | src/main/java/com/radar/stock/commands/CheckStockCommand.java:60-151 | the load comes first; a failed fetch ends the run with the disk untouched; otherwise the run is the successful run of the fetched list, its comparison step carrying the order-independent key-set counts |

## Left out

- HTTP (the Jersey client, the trust-all SSL context, URLs and headers) is left out. A reply is an input: status, reason phrase, body and what JSON parsing yields.
- Jackson parsing and serialisation are left out. A file is its size and its parsed document. The byte size a write produces is a fault input, not computed from the JSON.
- Jakarta Mail (session, `MimeMessage`, address parsing, `connect`/`sendMessage`) is left out. Each delivery attempt's transport outcome is an input.
- `createMessage`'s address loop is not modelled. The only failure kept from it is the empty-recipient check.
- Wall-clock time is left out. `LocalDateTime.now()` is a `now` string parameter, and run durations and sleep lengths in real time are not modelled.
- `System.getenv` is left out. The SMTP username and password are parameters.
- Logging and the `System.out` status table are left out. The display step keeps only its counts.
- `Thread.sleep` is left out. A sleep is an entry in a trace, and an interruption is an environment flag. The thread's interrupt status is not modelled.
- `getConfigSummary`, `getSummary`, `getConfigurationSummary`, `getNotifierName`, `getExtractorName`, `getApiUrl` and `getHeaders` are left out: they are logging or plumbing text.
- `setEnableTLS`, `setEnableSSL`, `setSenderName` and `setEmailConfiguration` are left out. They are plain field assignments like the setters that are modelled.
- `RetryableErrorType` is unused in the source and is left out.
- `Notifier.java` and `StockExtractor.java` are not part of this model. The workflow calls the concrete extractor and notifier models directly.
- `RestockRadarApplication.java` and the integration test are not part of this model.
- RetryUtility.NextDelay: the `double` multiplier is an exact ratio with floor division (1.5 is 3/2). It does not model floating-point rounding of `currentDelay * multiplier` or the `long` cast's saturation.
- AmulApiStockExtractor.FetchStockDataFromApi: a failure inside the HTTP client or while reading the body is not modelled. Only a client failure before the status check (`ClientFailed`) is kept, as "Unexpected error during API call".
- StateService.SaveStateToFile: `Files.createDirectories` is not modelled, and a parent directory is assumed to exist. The null check, which the source makes after creating the directories, comes first.
- CheckStockCommand.ExecuteStockCheckWorkflow: an exception escaping `saveState` is not modelled. `saveState` catches everything itself, so the outer catch at CheckStockCommand.java:144-147 cannot fire in the model.
- Product counts use unbounded `nat` where the source uses `long`. No list is long enough for the difference to matter.
- Text.Lower lower-cases ASCII letters only, not Unicode case mapping. Every keyword the classifier looks for is ASCII.
- CheckStockCommand.AlertSent, CheckStockCommand.NotifyAlert and CheckStockCommand.SendNotificationsIfNeeded: each send goes through the corrected `EmailNotifiers.Send` (see "## Findings"), not the code as written. When a send fails, the recorded outcome holds the delivery's own NotificationException. The program as written holds the generic "Failed to send email" exception instead. Whether a send succeeded is the same either way (`EmailNotifiers.SendAgreesWithAsWritten`), and no later step depends on the exception.
- CheckStockCommand.ProcessFetchedProducts: its notification steps carry the corrected send outcomes described in the line above. Every other step is the same as in the program as written.
- CheckStockCommand.ExecuteStockCheckWorkflow: the fetch goes through the corrected `AmulApiStockExtractor.CheckStock`, and its notifications through the corrected send. When the fetch fails, `FetchFailed` holds the fetch's own StockExtractionException. The program as written holds "Failed to fetch stock data after retries" instead. Both agree on whether the fetch succeeded and, when it did, on the products (`AmulApiStockExtractor.CheckStockAgreesWithAsWritten`). So the run takes the same steps either way, and only the exception recorded in a failure step differs.
- Configuration.EmailConfiguration.SetRecipients: a recipient list is a list of non-null addresses. A null element inside a non-null list is not modelled, because the source declares the elements `@NotEmpty @Email` (RestockRadarConfiguration.java:88). A null watched alias, which nothing excludes, is modelled (`AmulApiStockExtractor.Watched`).

## Behaviour the model follows from the code

The design description of the project and the code differ in a few places. The model follows the code.

- A 4xx reply other than 429 is retried unless its wrapped message contains a non-retryable keyword. For example, "Not Found", "Bad Request", "Unauthorized" and "Forbidden" stop the retries, but a 409 "Conflict" is retried. This is the classifier's default-retryable rule (RetryUtility.java:194-195).
- An interrupted sleep ends the run only when it happens in the fetch.
  - In `loadState` it gives an empty map.
  - In `saveState` it gives `false`.
  - In `send` it becomes a NotificationException, which `sendNotificationsIfNeeded` swallows.
- Diffing a snapshot against itself reports nothing only when every entry is keyed by its own alias. That holds for every map built by `productsToStateMap` and `loadState` (`StateService.SelfDiffEmpty`).
- The empty-recipients check in `sendNotificationsIfNeeded` (CheckStockCommand.java:177-180) can never fire. `isValid` already requires recipients, and the method asserts this.
- `fromConfiguration` cannot fail inside `sendNotificationsIfNeeded`, because both of its guards were checked just before. The method asserts this too.
- The SMTP error rewriting matches case-sensitively on the exception's own message (EmailNotifier.java:194-200). The retry classifier lower-cases its input.
- A state file over 10 MiB raises "State file is too large". That message has no keyword, so the load is retried before it falls back to an empty map.

## Findings

| source | as written | input that shows it | evidently intended | confidence | as-written member | corrected member |
|---|---|---|---|---|---|---|
| src/main/java/com/radar/stock/extractors/AmulApiStockExtractor.java:108-115 | tests whether `e.getCause()` is a StockExtractionException, but that cause is the RuntimeException the retried lambda threw (or the InterruptedException), so the check never holds and every failure is re-wrapped as "Failed to fetch stock data after retries" | every reply HTTP 503, no interruption (`AmulApiStockExtractor.ServerErrorNotPreserved`) | rethrow the StockExtractionException that the fetch raised, one wrapper further down | not executed; high | AmulApiStockExtractor.CheckStockAsWritten | AmulApiStockExtractor.CheckStock |
| src/main/java/com/radar/stock/notifiers/EmailNotifier.java:145-155 | tests whether `e.getCause()` is a NotificationException, but that cause is the RuntimeException wrapper, so the delivery's own exception is never rethrown and its message is buried in "Failed to send email ... after retries" | an EMAIL with recipients whose transport fails unexpectedly at every attempt, no interruption (`EmailNotifiers.NotificationFailureNotPreserved`) | rethrow the NotificationException that delivery raised, one wrapper further down | not executed; high | EmailNotifiers.SendAsWritten | EmailNotifiers.Send |
