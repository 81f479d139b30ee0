/** The Notification record and its factories: the in-stock alert, the
    out-of-stock alert and the test notification, each with a list-of-recipients
    and a single-recipient form. The clock reading LocalDateTime.now() is a
    parameter `now`, already rendered as text. */
module Notifications {
  import opened Text
  import opened Nullable
  import opened Products

  datatype NotificationType = Email | Sms | Slack | Push | Webhook

  datatype NotificationPriority = Low | Normal | High | Urgent

  datatype Notification = Notification(
    recipients: seq<string>,
    subject: string,
    message: string,
    notificationType: NotificationType,
    priority: NotificationPriority,
    products: seq<Product>,
    timestamp: string)

  /** The plural suffix of "Product". */
  function Plural(n: nat): string
  {
    if n == 1 then "" else "s"
  }

  const ProductLinkPrefix: string := "https://shop.amul.com/products/"

  /** The shop page of a product; a null alias prints as "null". */
  function ProductLink(alias: Option<string>): string
  {
    ProductLinkPrefix + OrNull(alias)
  }

  // ---------------------------------------------------------------------------
  // Subjects

  const StockAlertSubjectHead: string := "\U{1F389} Amul Stock Alert - "
  const StockAlertSubjectTail: string := " Now Available!"
  const OutOfStockSubjectHead: string := "\U{1F4C9} Amul Stock Alert - "
  const OutOfStockSubjectTail: string := " Sold Out"

  /** The subject of an alert about `n` products: the head, the count, "Product",
      an "s" unless the count is 1, and the tail. */
  function AlertSubject(head: string, n: nat, tail: string): (r: string)
    ensures StartsWith(r, head + NatToString(n) + " Product")
    ensures EndsWith(r, "s" + tail) <==> n != 1
  {
    var first := head + NatToString(n) + " Product";
    ConcatEnds(first, Plural(n) + tail);
    PluralSuffix(first, n, tail);
    assert first + Plural(n) + tail == first + (Plural(n) + tail);
    first + Plural(n) + tail
  }

  lemma PluralSuffix(first: string, n: nat, tail: string)
    requires EndsWith(first, "t")
    ensures EndsWith(first + Plural(n) + tail, "s" + tail) <==> n != 1
  {
    var r := first + Plural(n) + tail;
    if n == 1 {
      assert r == first + tail;
      assert r[|r| - |tail| - 1] == first[|first| - 1];
    } else {
      assert r == first + ("s" + tail);
      ConcatEnds(first, "s" + tail);
    }
  }

  function StockAlertSubject(n: nat): string
  {
    AlertSubject(StockAlertSubjectHead, n, StockAlertSubjectTail)
  }

  function OutOfStockSubject(n: nat): string
  {
    AlertSubject(OutOfStockSubjectHead, n, OutOfStockSubjectTail)
  }

  /** The length of the leading run of digits. */
  function LeadingDigits(s: string): nat
  {
    if s != [] && '0' <= s[0] <= '9' then 1 + LeadingDigits(s[1..]) else 0
  }

  lemma {:induction false} LeadingDigitsOf(a: string, x: string)
    requires forall i | 0 <= i < |a| :: '0' <= a[i] <= '9'
    requires |x| > 0 && !('0' <= x[0] <= '9')
    ensures LeadingDigits(a + x) == |a|
  {
    if a != [] {
      assert (a + x)[1..] == a[1..] + x;
      LeadingDigitsOf(a[1..], x);
    } else {
      assert a + x == x;
    }
  }

  /** Two digit strings followed by text that starts with a non-digit are
      equal when the concatenations are. */
  lemma DigitsPrefixUnique(a: string, x: string, b: string, y: string)
    requires forall i | 0 <= i < |a| :: '0' <= a[i] <= '9'
    requires forall i | 0 <= i < |b| :: '0' <= b[i] <= '9'
    requires |x| > 0 && !('0' <= x[0] <= '9') && |y| > 0 && !('0' <= y[0] <= '9')
    requires a + x == b + y
    ensures a == b
  {
    LeadingDigitsOf(a, x);
    LeadingDigitsOf(b, y);
    assert a == (a + x)[..|a|];
    assert b == (b + y)[..|b|];
  }

  /** The subject split after its head: the count, then text that starts with a space. */
  lemma SubjectAfterHead(head: string, n: nat, tail: string)
    ensures AlertSubject(head, n, tail) == head + (NatToString(n) + (" Product" + Plural(n) + tail))
  {
    var d := NatToString(n);
    var x := " Product" + Plural(n) + tail;
    assert head + d + " Product" + Plural(n) + tail == head + d + x;
    ConcatAssoc(head, d, x);
  }

  lemma CancelHead(head: string, x: string, y: string)
    requires head + x == head + y
    ensures x == y
  {
    assert x == (head + x)[|head|..];
    assert y == (head + y)[|head|..];
  }

  /** A subject tells its product count: different counts give different subjects. */
  lemma AlertSubjectDeterminesCount(head: string, tail: string, m: nat, n: nat)
    requires AlertSubject(head, m, tail) == AlertSubject(head, n, tail)
    ensures m == n
  {
    var xm := " Product" + Plural(m) + tail;
    var xn := " Product" + Plural(n) + tail;
    SubjectAfterHead(head, m, tail);
    SubjectAfterHead(head, n, tail);
    CancelHead(head, NatToString(m) + xm, NatToString(n) + xn);
    assert xm[0] == ' ' && xn[0] == ' ';
    DigitsPrefixUnique(NatToString(m), xm, NatToString(n), xn);
    NatToStringInjective(m, n);
  }

  // ---------------------------------------------------------------------------
  // Bodies

  datatype AlertKind = InStockAlert | OutOfStockAlert

  const StockAvailableLabel: string := "   Stock Available: "
  const OutOfStockLabel: string := "   Status: Out of Stock ("
  const RemainingSuffix: string := " units remaining)\n"
  const ProductLinkLabel: string := "   Product Link: "

  /** The mark that opens a product's block. */
  function Mark(kind: AlertKind): string
  {
    if kind == InStockAlert then "✅ " else "❌ "
  }

  /** The three lines the body gives each product, the last one its shop link. */
  function ProductBlock(kind: AlertKind, p: Product): (r: string)
    ensures EndsWith(r, ProductLink(p.alias) + "\n\n")
    ensures StartsWith(r, Mark(kind) + p.name + "\n")
  {
    var first := Mark(kind) + p.name + "\n";
    var second := match kind
      case InStockAlert => StockAvailableLabel + IntToString(p.inventoryQuantity) + " units\n"
      case OutOfStockAlert => OutOfStockLabel + IntToString(p.inventoryQuantity) + RemainingSuffix;
    var third := ProductLinkLabel + ProductLink(p.alias) + "\n\n";
    FourParts(first, second, ProductLinkLabel, ProductLink(p.alias) + "\n\n");
    assert third == ProductLinkLabel + (ProductLink(p.alias) + "\n\n");
    first + second + third
  }

  /** The blocks of the products, in list order. */
  function ProductBlocks(kind: AlertKind, ps: seq<Product>): string
  {
    if ps == [] then "" else ProductBlocks(kind, ps[..|ps| - 1]) + ProductBlock(kind, ps[|ps| - 1])
  }

  lemma BlocksSnoc(kind: AlertKind, ps: seq<Product>, p: Product)
    ensures ProductBlocks(kind, ps + [p]) == ProductBlocks(kind, ps) + ProductBlock(kind, p)
  {
    assert (ps + [p])[..|ps|] == ps;
  }

  /** Every product's shop link appears in the blocks. */
  lemma {:induction false} BlocksLinkEveryProduct(kind: AlertKind, ps: seq<Product>, i: nat)
    requires i < |ps|
    ensures Contains(ProductBlocks(kind, ps), ProductLink(ps[i].alias))
  {
    var init := ps[..|ps| - 1];
    var block := ProductBlock(kind, ps[|ps| - 1]);
    assert ProductBlocks(kind, ps) == ProductBlocks(kind, init) + block;
    if i < |ps| - 1 {
      assert init[i] == ps[i];
      BlocksLinkEveryProduct(kind, init, i);
      ContainsLeft(ProductBlocks(kind, init), block, ProductLink(ps[i].alias));
    } else {
      ContainsBeforeSuffix(block, ProductLink(ps[i].alias), "\n\n");
      ContainsRight(ProductBlocks(kind, init), block, ProductLink(ps[i].alias));
    }
  }

  const InStockHeader: string := "Great news! The following Amul protein products are now back in stock:\n\n"
  const OutOfStockHeader: string := "The following Amul protein products have gone out of stock:\n\n"
  const InStockClosing: string := "Don't miss out - these products tend to sell out quickly!\n"
  const OutOfStockClosing: string := "These products were previously available but have now sold out.\nYou'll receive another notification when they're back in stock.\n"
  const Signature: string := "\n---\nThis is an automated notification from Amul Stock Radar.\nGenerated at: "

  function AlertHeader(kind: AlertKind): string
  {
    match kind
    case InStockAlert => InStockHeader
    case OutOfStockAlert => OutOfStockHeader
  }

  function AlertFooter(kind: AlertKind, now: string): string
  {
    var closing := match kind
      case InStockAlert => InStockClosing
      case OutOfStockAlert => OutOfStockClosing;
    closing + Signature + now
  }

  /** The body of an alert: the header, one block per product in order, the footer. */
  function AlertMessage(kind: AlertKind, ps: seq<Product>, now: string): string
  {
    AlertHeader(kind) + ProductBlocks(kind, ps) + AlertFooter(kind, now)
  }

  /** Every product of the alert has its shop link in the body. */
  lemma AlertMessageLinksEveryProduct(kind: AlertKind, ps: seq<Product>, now: string, i: nat)
    requires i < |ps|
    ensures Contains(AlertMessage(kind, ps, now), ProductLink(ps[i].alias))
  {
    BlocksLinkEveryProduct(kind, ps, i);
    ContainsWithin(ProductBlocks(kind, ps), ProductLink(ps[i].alias), AlertHeader(kind), AlertFooter(kind, now));
  }

  lemma BuildStep(kind: AlertKind, header: string, products: seq<Product>, i: nat)
    requires i < |products|
    ensures header + ProductBlocks(kind, products[..i]) + ProductBlock(kind, products[i])
         == header + ProductBlocks(kind, products[..i + 1])
  {
    assert products[..i + 1] == products[..i] + [products[i]];
    BlocksSnoc(kind, products[..i], products[i]);
    ConcatAssoc(header, ProductBlocks(kind, products[..i]), ProductBlock(kind, products[i]));
  }

  /** The StringBuilder loop of the alert factories. */
  method BuildAlertMessage(kind: AlertKind, products: seq<Product>, now: string) returns (message: string)
    ensures message == AlertMessage(kind, products, now)
  {
    var header := AlertHeader(kind);
    message := header;
    for i := 0 to |products|
      invariant message == header + ProductBlocks(kind, products[..i])
    {
      BuildStep(kind, header, products, i);
      message := message + ProductBlock(kind, products[i]);
    }
    assert products[..|products|] == products;
    message := message + AlertFooter(kind, now);
  }

  // ---------------------------------------------------------------------------
  // Factories

  /** The alert for `kind`: an e-mail, HIGH priority for products back in stock
      and NORMAL for products sold out, carrying the recipients and products given. */
  function Alert(kind: AlertKind, recipients: seq<string>, products: seq<Product>, now: string): (n: Notification)
    ensures n.notificationType == Email && n.recipients == recipients && n.products == products
    ensures n.priority == (if kind == InStockAlert then High else Normal)
  {
    Notification(
      recipients,
      match kind
        case InStockAlert => StockAlertSubject(|products|)
        case OutOfStockAlert => OutOfStockSubject(|products|),
      AlertMessage(kind, products, now),
      Email,
      if kind == InStockAlert then High else Normal,
      products,
      now)
  }

  /** createStockAlert(List, List). */
  method CreateStockAlert(recipients: seq<string>, products: seq<Product>, now: string) returns (n: Notification)
    ensures n == Alert(InStockAlert, recipients, products, now)
    ensures n.priority == High && n.notificationType == Email
    ensures n.recipients == recipients && n.products == products
  {
    var message := BuildAlertMessage(InStockAlert, products, now);
    n := Notification(recipients, StockAlertSubject(|products|), message, Email, High, products, now);
  }

  /** createOutOfStockAlert(List, List). */
  method CreateOutOfStockAlert(recipients: seq<string>, products: seq<Product>, now: string) returns (n: Notification)
    ensures n == Alert(OutOfStockAlert, recipients, products, now)
    ensures n.priority == Normal && n.notificationType == Email
    ensures n.recipients == recipients && n.products == products
  {
    var message := BuildAlertMessage(OutOfStockAlert, products, now);
    n := Notification(recipients, OutOfStockSubject(|products|), message, Email, Normal, products, now);
  }

  /** createStockAlert(String, List): the list form with a one-element recipient list. */
  method CreateStockAlertFor(recipient: string, products: seq<Product>, now: string) returns (n: Notification)
    ensures n == Alert(InStockAlert, [recipient], products, now)
    ensures n.recipients == [recipient]
  {
    n := CreateStockAlert([recipient], products, now);
  }

  /** createOutOfStockAlert(String, List): the list form with a one-element recipient list. */
  method CreateOutOfStockAlertFor(recipient: string, products: seq<Product>, now: string) returns (n: Notification)
    ensures n == Alert(OutOfStockAlert, [recipient], products, now)
    ensures n.recipients == [recipient]
  {
    n := CreateOutOfStockAlert([recipient], products, now);
  }

  const TestSubject: string := "\U{1F9EA} Amul Stock Radar - Test Notification"

  const TestLead: string :=
    "This is a test notification to verify that the Amul Stock Radar notification system is working correctly.\n\n"
    + "If you receive this message, your notification setup is functioning properly!\n\n"
    + "---\n"

  /** createTestNotification(List): a LOW-priority e-mail about no product. */
  function CreateTestNotification(recipients: seq<string>, now: string): (n: Notification)
    ensures n.notificationType == Email && n.priority == Low && n.products == []
    ensures n.recipients == recipients && EndsWith(n.message, "Test sent at: " + now)
  {
    ConcatEnds(TestLead, "Test sent at: " + now);
    Notification(recipients, TestSubject, TestLead + ("Test sent at: " + now), Email, Low, [], now)
  }

  /** createTestNotification(String): the list form with a one-element recipient list. */
  function CreateTestNotificationFor(recipient: string, now: string): (n: Notification)
    ensures n.recipients == [recipient] && n.priority == Low && n.products == []
  {
    CreateTestNotification([recipient], now)
  }
}
