/** One run of the stock check: load the previous snapshot, fetch the current
    products, diff the two, show the status, send the alerts, save the new
    snapshot and log a summary. The collaborators' behaviour (the state file's
    faults, the API's replies, the SMTP transport, interrupted sleeps) comes in
    as an environment, and the run reports the steps it took, in order. */
module CheckStockCommand {
  import opened Nullable
  import opened Errors
  import opened Products
  import opened RetryUtility
  import opened StateService
  import opened Notifications
  import opened AmulApiStockExtractor
  import opened EmailNotifiers
  import opened Configuration

  const StateFilePath: string := "last-known-stock.json"

  /** What the SMTP transport does for one send, attempt by attempt. */
  datatype Delivery = Delivery(transports: nat -> Transport, interrupted: nat -> bool)

  /** Everything outside the program that a run meets. */
  datatype Environment = Environment(
    username: Option<string>,
    password: Option<string>,
    readErrors: nat -> Option<Exc>,
    loadInterrupted: nat -> bool,
    replies: nat -> HttpReply,
    fetchInterrupted: nat -> bool,
    inStockDelivery: Delivery,
    outOfStockDelivery: Delivery,
    saveFaults: nat -> SaveFaults,
    saveInterrupted: nat -> bool,
    now: string)

  /** The observable steps of a run. */
  datatype Effect =
    | Loaded(previousState: Snapshot)
    | FetchFailed(error: Exc)
    | Compared(counts: ComparisonCounts)
    | Displayed(total: nat, inStock: nat, outOfStock: nat)
    | Notified(notification: Notification, outcome: Outcome)
    | SaveAttempted(state: Snapshot, order: seq<Key>, saved: bool)
    | Summarised(total: nat, newlyInStock: nat, newlyOutOfStock: nat, currentlyInStock: nat)

  /** The send of one alert and what came of it. */
  function AlertSent(kind: AlertKind, recipients: seq<string>, products: seq<Product>, now: string,
                     delivery: Delivery): (e: Effect)
    ensures e.Notified? && e.notification.products == products
  {
    var n := Alert(kind, recipients, products, now);
    Notified(n, Send(n, delivery.transports, delivery.interrupted))
  }

  /** Builds one alert and sends it through the e-mail notifier. */
  method NotifyAlert(kind: AlertKind, recipients: seq<string>, products: seq<Product>, now: string,
                     delivery: Delivery) returns (e: Effect)
    ensures e == AlertSent(kind, recipients, products, now, delivery)
  {
    var alert;
    if kind == InStockAlert {
      alert := CreateStockAlert(recipients, products, now);
    } else {
      alert := CreateOutOfStockAlert(recipients, products, now);
    }
    e := Notified(alert, Send(alert, delivery.transports, delivery.interrupted));
  }

  /** The alert that AlertSent sends: HIGH priority for products back in stock,
      NORMAL for products sold out, addressed to the recipients given. */
  lemma AlertSentFields(kind: AlertKind, recipients: seq<string>, products: seq<Product>, now: string,
                        delivery: Delivery)
    ensures var e := AlertSent(kind, recipients, products, now, delivery);
      && e.notification.priority == (if kind == InStockAlert then High else Normal)
      && e.notification.recipients == recipients
  {
    assert AlertSent(kind, recipients, products, now, delivery).notification == Alert(kind, recipients, products, now);
  }

  /** The order of the two sends: the first goes out when `sendFirst`, the
      second when `sendSecond`, and a failed first send ends the sending. */
  function SendPlan(sendFirst: bool, sendSecond: bool, first: Effect, second: Effect): (plan: seq<Effect>)
    requires first.Notified?
    ensures |plan| <= 2
    ensures sendFirst ==> |plan| >= 1 && plan[0] == first
    ensures |plan| == 2 ==> plan == [first, second] && first.outcome == Pass
    ensures sendFirst && first.outcome.Fail? ==> plan == [first]
    ensures sendSecond && (!sendFirst || first.outcome == Pass) ==> |plan| >= 1 && plan[|plan| - 1] == second
    ensures !sendSecond ==> |plan| <= 1 && (plan == [] || plan == [first])
    ensures !sendFirst && !sendSecond ==> plan == []
  {
    var tail := if sendSecond then [second] else [];
    if !sendFirst then tail
    else if first.outcome.Fail? then [first]
    else [first] + tail
  }

  /** The sends that the notification step makes once e-mail is enabled and
      the configuration valid: the in-stock alert first, when there is something
      newly in stock, and the out-of-stock alert after it, when there is
      something newly out of stock and the first send did not fail. */
  function AlertsSent(recipients: seq<string>, newlyInStock: seq<Product>, newlyOutOfStock: seq<Product>,
                      now: string, inStockDelivery: Delivery, outOfStockDelivery: Delivery): (sent: seq<Effect>)
    ensures |sent| <= 2
    ensures newlyOutOfStock == [] ==> |sent| <= 1
    ensures newlyInStock == [] && newlyOutOfStock == [] ==> sent == []
  {
    SendPlan(newlyInStock != [], newlyOutOfStock != [],
             AlertSent(InStockAlert, recipients, newlyInStock, now, inStockDelivery),
             AlertSent(OutOfStockAlert, recipients, newlyOutOfStock, now, outOfStockDelivery))
  }

  /** The first send: when something is newly in stock, the HIGH-priority
      in-stock alert with exactly the newly-in-stock list goes first, and if it
      fails nothing else is sent. */
  lemma AlertsSentFirst(recipients: seq<string>, newlyInStock: seq<Product>, newlyOutOfStock: seq<Product>,
                        now: string, inStockDelivery: Delivery, outOfStockDelivery: Delivery)
    requires newlyInStock != []
    ensures var sent := AlertsSent(recipients, newlyInStock, newlyOutOfStock, now, inStockDelivery, outOfStockDelivery);
      && |sent| >= 1 && sent[0].Notified? && sent[0].notification.priority == High
      && sent[0].notification.products == newlyInStock && sent[0].notification.recipients == recipients
      && (sent[0].outcome.Fail? ==> |sent| == 1)
  {
    AlertSentFields(InStockAlert, recipients, newlyInStock, now, inStockDelivery);
  }

  /** The last send: when something is newly out of stock and the first send,
      if any, passed, the NORMAL-priority out-of-stock alert with exactly the
      newly-out-of-stock list goes last. */
  lemma AlertsSentLast(recipients: seq<string>, newlyInStock: seq<Product>, newlyOutOfStock: seq<Product>,
                       now: string, inStockDelivery: Delivery, outOfStockDelivery: Delivery)
    requires newlyOutOfStock != []
    ensures var sent := AlertsSent(recipients, newlyInStock, newlyOutOfStock, now, inStockDelivery, outOfStockDelivery);
      newlyInStock == [] || sent[0].outcome == Pass ==>
        && |sent| >= 1 && sent[|sent| - 1].Notified? && sent[|sent| - 1].notification.priority == Normal
        && sent[|sent| - 1].notification.products == newlyOutOfStock
        && sent[|sent| - 1].notification.recipients == recipients
  {
    AlertSentFields(OutOfStockAlert, recipients, newlyOutOfStock, now, outOfStockDelivery);
  }

  /** sendNotificationsIfNeeded: nothing is sent unless e-mail is enabled and the
      configuration is valid (which implies recipients). Then the in-stock alert,
      when there is something newly in stock, goes first, with priority HIGH; the
      out-of-stock alert follows only if the first send did not fail. Failures
      are caught and end the sending. */
  method SendNotificationsIfNeeded(emailConfig: EmailConfiguration, username: Option<string>, password: Option<string>,
                                   newlyInStock: seq<Product>, newlyOutOfStock: seq<Product>, now: string,
                                   inStockDelivery: Delivery, outOfStockDelivery: Delivery)
    returns (sent: seq<Effect>)
    ensures |sent| <= 2
    ensures !emailConfig.enabled || !emailConfig.IsValid(username, password) ==> sent == []
    ensures sent != [] ==> emailConfig.recipients != []
    ensures emailConfig.enabled && emailConfig.IsValid(username, password) ==>
      sent == AlertsSent(emailConfig.recipients, newlyInStock, newlyOutOfStock, now, inStockDelivery, outOfStockDelivery)
  {
    sent := [];
    if !emailConfig.enabled {
      return;
    }
    if !emailConfig.IsValid(username, password) {
      return;
    }
    var notifier := FromConfiguration(emailConfig, username, password);
    assert notifier.Ok?;
    var recipients := emailConfig.recipients;
    // the configuration is valid, so the empty-recipients guard never fires
    assert recipients != [];
    if newlyInStock != [] {
      var first := NotifyAlert(InStockAlert, recipients, newlyInStock, now, inStockDelivery);
      sent := [first];
      if first.outcome.Fail? {
        return;
      }
    }
    if newlyOutOfStock != [] {
      var second := NotifyAlert(OutOfStockAlert, recipients, newlyOutOfStock, now, outOfStockDelivery);
      sent := sent + [second];
    }
  }

  /** The products that are in stock now and out of stock now, as the status
      display counts them: the second is the total minus the first. */
  function DisplayCounts(products: seq<Product>): (e: Effect)
    ensures e.Displayed? && e.total == |products|
    ensures e.inStock == CountInStock(products) && e.outOfStock == CountOutOfStock(products)
    ensures e.inStock + e.outOfStock == e.total
  {
    CountsPartition(products);
    var inStock := CountInStock(products);
    Displayed(|products|, inStock, |products| - inStock)
  }

  /** The order of a successful run's steps: the load and the comparison, the
      display of the counts, the sends, the save of the snapshot built from
      `products` in the given order, and the summary. */
  ghost predicate RunLayout(effects: seq<Effect>, products: seq<Product>, sent: seq<Effect>, order: seq<Key>,
                            saved: bool, newlyInStock: nat, newlyOutOfStock: nat)
  {
    && |effects| == |sent| + 5 && effects[0].Loaded? && effects[1].Compared?
    && effects[2] == DisplayCounts(products)
    && effects[3..|effects| - 2] == sent
    && effects[|effects| - 2] == SaveAttempted(StateMapOf(products), order, saved)
    && effects[|effects| - 1] == Summarised(|products|, newlyInStock, newlyOutOfStock, CountInStock(products))
  }

  /** The counts the comparison step records: the in-stock keys of each
      snapshot, and the current keys whose product came back in stock or sold
      out. None of them depends on an iteration order. */
  ghost function KeySetCounts(previousState: Snapshot, currentState: Snapshot): ComparisonCounts
  {
    ComparisonCounts(|InStockKeys(previousState)|, |InStockKeys(currentState)|,
                     |FiringKeys(previousState, currentState, CameBackInStock)|,
                     |FiringKeys(previousState, currentState, WentOutOfStock)|)
  }

  /** The steps of a run whose fetch returned `products`: the comparison of the
      loaded snapshot with the new one (its KeySetCounts), the display, the notifications about the diff of the new snapshot against the
      loaded one (sent to `recipients` when `notify`, that is when e-mail is
      enabled and configured), one save of the snapshot built from `products`
      alone (its disk effect is the retried save's), and the summary. */
  ghost predicate SuccessfulRun(effects: seq<Effect>, products: seq<Product>, recipients: seq<string>, notify: bool,
                                env: Environment, before: FileSystem, after: FileSystem)
  {
    var n := |effects|;
    && n >= 5 && effects[0].Loaded? && effects[n - 2].SaveAttempted?
    && var currentState := StateMapOf(products);
       var order := effects[n - 2].order;
       var previousState := effects[0].previousState;
       var newlyInStock := FindNewlyInStockProducts(previousState, currentState, order);
       var newlyOutOfStock := FindNewlyOutOfStockProducts(previousState, currentState, order);
       var run := SaveRun(before, StateFilePath, Some(currentState), order, env.saveFaults, env.saveInterrupted);
       && Enumerates(order, currentState)
       && effects[1] == Compared(KeySetCounts(previousState, currentState))
       && RunLayout(effects, products,
                    if notify then AlertsSent(recipients, newlyInStock, newlyOutOfStock, env.now,
                                              env.inStockDelivery, env.outOfStockDelivery)
                    else [],
                    order, run.result.Ok?, |newlyInStock|, |newlyOutOfStock|)
       && after == run.world
       && OldOrNew(before, after, StateFilePath, SavedDoc(currentState, order))
  }

  /** The steps a successful run records, put together, have its layout. */
  lemma {:induction false} RunLayoutIntro(effects: seq<Effect>, head: seq<Effect>, sent: seq<Effect>,
                                          products: seq<Product>, order: seq<Key>, saved: bool,
                                          newlyInStock: nat, newlyOutOfStock: nat)
    requires |head| == 3 && head[0].Loaded? && head[1].Compared? && head[2] == DisplayCounts(products)
    requires effects == head + sent + [SaveAttempted(StateMapOf(products), order, saved),
                                       Summarised(|products|, newlyInStock, newlyOutOfStock, CountInStock(products))]
    ensures RunLayout(effects, products, sent, order, saved, newlyInStock, newlyOutOfStock)
    ensures effects[0] == head[0] && effects[1] == head[1]
  {
    var n := |effects|;
    assert n == |sent| + 5;
    assert effects[..3] == head;
    assert effects[3..n - 2] == sent;
  }

  /** A run laid out as RunLayout says, whose sends, save and disk are those of
      its snapshot and order, is a SuccessfulRun. */
  lemma {:induction false} SuccessfulRunIntro(effects: seq<Effect>, products: seq<Product>, recipients: seq<string>,
                                              notify: bool, env: Environment, before: FileSystem, after: FileSystem,
                                              previousState: Snapshot, order: seq<Key>, sent: seq<Effect>, saved: bool)
    requires var currentState := StateMapOf(products);
      RunLayout(effects, products, sent, order, saved,
                |FindNewlyInStockProducts(previousState, currentState, order)|,
                |FindNewlyOutOfStockProducts(previousState, currentState, order)|)
    requires effects[0] == Loaded(previousState)
    requires effects[1] == Compared(KeySetCounts(previousState, StateMapOf(products)))
    requires Enumerates(order, StateMapOf(products))
    requires var currentState := StateMapOf(products);
      sent == (if notify then AlertsSent(recipients, FindNewlyInStockProducts(previousState, currentState, order),
                                         FindNewlyOutOfStockProducts(previousState, currentState, order), env.now,
                                         env.inStockDelivery, env.outOfStockDelivery)
               else [])
    requires var run := SaveRun(before, StateFilePath, Some(StateMapOf(products)), order, env.saveFaults, env.saveInterrupted);
      saved == run.result.Ok? && after == run.world
    requires OldOrNew(before, after, StateFilePath, SavedDoc(StateMapOf(products), order))
    ensures SuccessfulRun(effects, products, recipients, notify, env, before, after)
  {
    assert effects[|effects| - 2].order == order;
    assert effects[0].previousState == previousState;
  }

  /** Steps 3 to 8 of executeStockCheckWorkflow, once the fetch has returned
      `currentProducts`: the new snapshot is built from the fetched list alone,
      compared with the loaded one, shown, notified about (when e-mail is
      enabled and valid), and saved exactly once after the notifications
      whatever they did, and the run ends with its summary. */
  method ProcessFetchedProducts(previousState: Snapshot, currentProducts: seq<Product>,
                                emailConfig: EmailConfiguration, env: Environment, disk: Disk)
    returns (effects: seq<Effect>)
    modifies disk
    ensures 5 <= |effects| <= 7 && effects[0] == Loaded(previousState)
    ensures SuccessfulRun(effects, currentProducts, old(emailConfig.recipients),
                          old(emailConfig.enabled && emailConfig.IsValid(env.username, env.password)),
                          env, old(disk.files), disk.files)
  {
    var notify := emailConfig.enabled && emailConfig.IsValid(env.username, env.password);
    var recipients := emailConfig.recipients;
    var currentState := ProductsToStateMap(currentProducts);
    var order := IterationOrder(currentState);
    var previousOrder := IterationOrder(previousState);
    var newlyInStock := FindNewlyInStockProducts(previousState, currentState, order);
    var newlyOutOfStock := FindNewlyOutOfStockProducts(previousState, currentState, order);
    var head := [Loaded(previousState),
                 Compared(StateComparisonCounts(previousState, previousOrder, currentState, order)),
                 DisplayCounts(currentProducts)];
    var sent := SendNotificationsIfNeeded(emailConfig, env.username, env.password,
                                          newlyInStock, newlyOutOfStock, env.now,
                                          env.inStockDelivery, env.outOfStockDelivery);
    assert sent == (if notify then AlertsSent(recipients, newlyInStock, newlyOutOfStock, env.now,
                                              env.inStockDelivery, env.outOfStockDelivery) else []);
    var saved := SaveState(disk, StateFilePath, Some(currentState), order, env.saveFaults, env.saveInterrupted);
    effects := head + sent + [SaveAttempted(currentState, order, saved),
                              Summarised(|currentProducts|, |newlyInStock|, |newlyOutOfStock|, CountInStock(currentProducts))];
    RunLayoutIntro(effects, head, sent, currentProducts, order, saved, |newlyInStock|, |newlyOutOfStock|);
    SuccessfulRunIntro(effects, currentProducts, recipients, notify, env, old(disk.files), disk.files,
                       previousState, order, sent, saved);
  }

  /** executeStockCheckWorkflow. A failed fetch ends the run after loading, with
      the disk untouched; otherwise the run goes on as ProcessFetchedProducts
      says. */
  method ExecuteStockCheckWorkflow(configuration: RestockRadarConfiguration, env: Environment, disk: Disk)
    returns (effects: seq<Effect>)
    modifies disk
    ensures |effects| >= 2 && effects[0] == Loaded(LoadResult(old(disk.files), StateFilePath, env.readErrors, env.loadInterrupted))
    ensures var fetched := CheckStock(Some(configuration.watchedProducts), env.replies, env.fetchInterrupted);
      fetched.Err? ==> effects == [effects[0], FetchFailed(fetched.error)] && disk.files == old(disk.files)
    ensures var fetched := CheckStock(Some(configuration.watchedProducts), env.replies, env.fetchInterrupted);
      fetched.Ok? ==>
        5 <= |effects| <= 7
        && SuccessfulRun(effects, fetched.value, old(configuration.emailConfiguration.recipients),
                         old(configuration.emailConfiguration.enabled
                             && configuration.emailConfiguration.IsValid(env.username, env.password)),
                         env, old(disk.files), disk.files)
  {
    var previousState := LoadState(disk, StateFilePath, env.readErrors, env.loadInterrupted);
    var fetched := CheckStock(Some(configuration.watchedProducts), env.replies, env.fetchInterrupted);
    if fetched.Err? {
      effects := [Loaded(previousState), FetchFailed(fetched.error)];
      return;
    }
    effects := ProcessFetchedProducts(previousState, fetched.value, configuration.emailConfiguration, env, disk);
  }
}
