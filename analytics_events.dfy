/**
 * The event records js/analytics.js hands to `gtag('event', name, params)`,
 * and the pure rules that build them from attribute reads: the defaults
 * ('unknown', 'unnamed_form', 'donation', '0'), trimmed labels, and the
 * page-path gates of the two thank-you pages.
 */
module AnalyticsEvents {
  import opened Js

  /** One line of the checkout's `items` list. */
  datatype Item = Item(name: string, category: string, price: real, quantity: nat)

  /** A parameter value: a string, a number, JavaScript `null`, or a list of items. */
  datatype Value = Str(s: string) | Num(x: real) | Null | Items(items: seq<Item>)

  /** One `gtag('event', name, params)` call as it lands in the data layer. */
  datatype EventRecord = EventRecord(name: string, params: map<string, Value>)

  const ThankYouPath := "/thank-you.html"
  const ContactThankYouPath := "/thank-you-contact.html"
  const Currency := "GBP"

  /** An attribute read used as a parameter value: the string, or `null` when it is missing. */
  function AttrValue(a: Option<string>): Value {
    if a.Some? then Str(a.value) else Null
  }

  /**
   * A CTA click: the trimmed text as label; the destination is the `href`
   * when it is a non-empty string, else `data-destination` (possibly null).
   */
  function CtaClick(text: string, href: Option<string>, dataDestination: Option<string>): (r: EventRecord)
    ensures r.name == "cta_click"
    ensures r.params.Keys == {"event_category", "event_label", "destination"}
    ensures r.params["event_category"] == Str("engagement")
    ensures "event_label" in r.params && r.params["event_label"] == Str(Trim(text))
    ensures "destination" in r.params
    ensures Truthy(href) ==> r.params["destination"] == Str(href.value)
    ensures !Truthy(href) && dataDestination.Some? ==> r.params["destination"] == Str(dataDestination.value)
    ensures !Truthy(href) && dataDestination.None? ==> r.params["destination"] == Null
  {
    EventRecord("cta_click", map[
      "event_category" := Str("engagement"),
      "event_label" := Str(Trim(text)),
      "destination" := AttrValue(Or(href, dataDestination))])
  }

  /** A social click: the platform, or "unknown" when it is missing or empty, and the raw `href`. */
  function SocialClick(platform: Option<string>, href: Option<string>): (r: EventRecord)
    ensures r.name == "social_click"
    ensures r.params.Keys == {"event_category", "event_label", "destination"}
    ensures r.params["event_category"] == Str("engagement")
    ensures "event_label" in r.params
    ensures Truthy(platform) ==> r.params["event_label"] == Str(platform.value)
    ensures !Truthy(platform) ==> r.params["event_label"] == Str("unknown")
    ensures href.Some? ==> r.params["destination"] == Str(href.value)
    ensures href.None? ==> r.params["destination"] == Null
  {
    EventRecord("social_click", map[
      "event_category" := Str("engagement"),
      "event_label" := Str(OrDefault(platform, "unknown")),
      "destination" := AttrValue(href)])
  }

  /** `parseFloat(s) || 0`: a failed parse (NaN) and zero both give zero. */
  function NumberOrZero(parsed: Option<real>): (x: real)
    ensures parsed.None? ==> x == 0.0
    ensures parsed.Some? ==> x == parsed.value
  {
    if parsed.Some? && parsed.value != 0.0 then parsed.value else 0.0
  }

  /**
   * A checkout start. `parseFloat` is the browser's number parser, `None`
   * standing for NaN. The amount defaults to "0", product and category to
   * "donation"; the record is priced in GBP and holds exactly one item of
   * quantity one whose price is the record's value.
   */
  function BeginCheckout(amount: Option<string>, product: Option<string>, category: Option<string>,
                         parseFloat: string -> Option<real>): (r: EventRecord)
    ensures r.name == "begin_checkout"
    ensures r.params.Keys == {"event_category", "currency", "value", "items"}
    ensures r.params["event_category"] == Str("ecommerce")
    ensures "currency" in r.params && r.params["currency"] == Str(Currency)
    ensures "items" in r.params && r.params["items"].Items? && |r.params["items"].items| == 1
    ensures var item := r.params["items"].items[0];
      item.quantity == 1 &&
      item.name == OrDefault(product, "donation") &&
      item.category == OrDefault(category, "donation") &&
      item.price == NumberOrZero(parseFloat(OrDefault(amount, "0"))) &&
      "value" in r.params && r.params["value"] == Num(item.price)
  {
    var price := NumberOrZero(parseFloat(OrDefault(amount, "0")));
    EventRecord("begin_checkout", map[
      "event_category" := Str("ecommerce"),
      "currency" := Str(Currency),
      "value" := Num(price),
      "items" := Items([Item(OrDefault(product, "donation"), OrDefault(category, "donation"), price, 1)])])
  }

  /** With no amount attribute the checkout is worth zero, provided "0" parses as zero. */
  lemma MissingAmountIsFree(product: Option<string>, category: Option<string>, parseFloat: string -> Option<real>)
    requires parseFloat("0").None? || parseFloat("0") == Some(0.0)
    ensures BeginCheckout(None, product, category, parseFloat).params["value"] == Num(0.0)
    ensures BeginCheckout(Some(""), product, category, parseFloat).params["value"] == Num(0.0)
  {
  }

  /**
   * The purchase record of a page load: only on the thank-you page, only
   * with a non-empty `session_id`, which becomes the transaction id.
   */
  function PurchaseRecords(path: string, sessionId: Option<string>): (r: seq<EventRecord>)
    ensures |r| <= 1
    ensures |r| == 1 <==> path == ThankYouPath && Truthy(sessionId)
    ensures |r| == 1 ==> (
      r[0].name == "purchase" &&
      r[0].params.Keys == {"event_category", "transaction_id", "currency"} &&
      r[0].params["event_category"] == Str("ecommerce") &&
      "transaction_id" in r[0].params && r[0].params["transaction_id"] == Str(sessionId.value) &&
      "currency" in r[0].params && r[0].params["currency"] == Str(Currency))
  {
    if path == ThankYouPath && Truthy(sessionId) then
      [EventRecord("purchase", map[
        "event_category" := Str("ecommerce"),
        "transaction_id" := Str(sessionId.value),
        "currency" := Str(Currency)])]
    else []
  }

  /** The form-success record of a page load: only on the contact thank-you page. */
  function SuccessRecords(path: string): (r: seq<EventRecord>)
    ensures |r| <= 1
    ensures |r| == 1 <==> path == ContactThankYouPath
    ensures |r| == 1 ==> (
      r[0].name == "form_submit_success" &&
      r[0].params.Keys == {"event_category", "event_label"} &&
      r[0].params["event_category"] == Str("engagement") &&
      r[0].params["event_label"] == Str("contact"))
  {
    if path == ContactThankYouPath then
      [EventRecord("form_submit_success", map[
        "event_category" := Str("engagement"),
        "event_label" := Str("contact")])]
    else []
  }

  /** What a page load emits, in script order: the purchase check, then the success check. */
  function PageLoadRecords(path: string, sessionId: Option<string>): (r: seq<EventRecord>)
    ensures |r| <= 2
  {
    PurchaseRecords(path, sessionId) + SuccessRecords(path)
  }

  /**
   * The two thank-you gates exclude each other: a page load emits at most one
   * record, a purchase exactly on the thank-you page with a session id and a
   * success exactly on the contact thank-you page.
   */
  lemma PageLoadEmitsAtMostOne(path: string, sessionId: Option<string>)
    ensures |PageLoadRecords(path, sessionId)| <= 1
    ensures |PageLoadRecords(path, sessionId)| == 1 <==>
      (path == ThankYouPath && Truthy(sessionId)) || path == ContactThankYouPath
  {
    if path == ThankYouPath {
      assert ThankYouPath[10] != ContactThankYouPath[10];
    }
  }

  /** A form's name for both form records: its `name` attribute, or "unnamed_form". */
  function FormLabel(name: Option<string>): (l: string)
    ensures l != ""
    ensures Truthy(name) ==> l == name.value
    ensures !Truthy(name) ==> l == "unnamed_form"
  {
    OrDefault(name, "unnamed_form")
  }

  /** The first focus on a field of a form. */
  function FormStart(name: Option<string>): (r: EventRecord)
    ensures r.name == "form_start"
    ensures r.params.Keys == {"event_category", "event_label"}
    ensures r.params["event_category"] == Str("engagement")
    ensures "event_label" in r.params && r.params["event_label"] == Str(FormLabel(name))
  {
    EventRecord("form_start", map[
      "event_category" := Str("engagement"),
      "event_label" := Str(FormLabel(name))])
  }

  /**
   * A form submission. `inquiryField` is the value of the form's
   * `[name="inquiry_type"]` element, `None` when the form has none: only a
   * missing element gives "unknown", an empty selection stays empty.
   */
  function FormSubmit(name: Option<string>, inquiryField: Option<string>): (r: EventRecord)
    ensures r.name == "form_submit"
    ensures r.params.Keys == {"event_category", "event_label", "inquiry_type"}
    ensures r.params["event_category"] == Str("engagement")
    ensures "event_label" in r.params && r.params["event_label"] == Str(FormLabel(name))
    ensures "inquiry_type" in r.params
    ensures inquiryField.Some? ==> r.params["inquiry_type"] == Str(inquiryField.value)
    ensures inquiryField.None? ==> r.params["inquiry_type"] == Str("unknown")
  {
    EventRecord("form_submit", map[
      "event_category" := Str("engagement"),
      "event_label" := Str(FormLabel(name)),
      "inquiry_type" := Str(if inquiryField.Some? then inquiryField.value else "unknown")])
  }

  /** A navigation click: trimmed text and the raw `href`. */
  function NavigationClick(text: string, href: Option<string>): (r: EventRecord)
    ensures r.name == "navigation_click"
    ensures r.params.Keys == {"event_category", "event_label", "destination"}
    ensures r.params["event_category"] == Str("navigation")
    ensures "event_label" in r.params && r.params["event_label"] == Str(Trim(text))
    ensures href.Some? ==> r.params["destination"] == Str(href.value)
    ensures href.None? ==> r.params["destination"] == Null
  {
    EventRecord("navigation_click", map[
      "event_category" := Str("navigation"),
      "event_label" := Str(Trim(text)),
      "destination" := AttrValue(href)])
  }

  /** An image view: `data-title` when non-empty, else `alt` (possibly null). */
  function ImageView(dataTitle: Option<string>, alt: Option<string>): (r: EventRecord)
    ensures r.name == "image_view"
    ensures r.params.Keys == {"event_category", "event_label"}
    ensures r.params["event_category"] == Str("engagement")
    ensures Truthy(dataTitle) ==> r.params["event_label"] == Str(dataTitle.value)
    ensures !Truthy(dataTitle) && alt.Some? ==> r.params["event_label"] == Str(alt.value)
    ensures !Truthy(dataTitle) && alt.None? ==> r.params["event_label"] == Null
  {
    EventRecord("image_view", map[
      "event_category" := Str("engagement"),
      "event_label" := AttrValue(Or(dataTitle, alt))])
  }

  /** A scroll-depth record, labelled with the depth and a percent sign. */
  function ScrollDepth(depth: string): (r: EventRecord)
    ensures r.name == "scroll_depth"
    ensures r.params.Keys == {"event_category", "event_label"}
    ensures r.params["event_category"] == Str("engagement")
    ensures "event_label" in r.params && r.params["event_label"] == Str(depth + "%")
  {
    EventRecord("scroll_depth", map[
      "event_category" := Str("engagement"),
      "event_label" := Str(depth + "%")])
  }
}
