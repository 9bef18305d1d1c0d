/**
 * The stateful side of js/analytics.js: the data layer the records are
 * appended to, and the three fire-once latches (scroll-depth thresholds, the
 * per-form start flag, the per-image observer), with the listeners that
 * read and set them.
 */
module AnalyticsTracker {
  import opened Js
  import opened AnalyticsEvents

  // ---------------------------------------------------------------------
  // Scroll depth
  // ---------------------------------------------------------------------

  /** `parseInt` of the threshold strings '25', '50', '75', '100', in the order the listener visits them. */
  const Thresholds: seq<nat> := [25, 50, 75, 100]

  /** The threshold string a value was parsed from, as it appears in the record's label. */
  function DepthText(v: nat): string {
    if v == 25 then "25" else if v == 50 then "50" else if v == 75 then "75" else "100"
  }

  /** Every element is one of the thresholds. */
  predicate AllThresholds(vs: seq<nat>) {
    forall k | 0 <= k < |vs| :: vs[k] in Thresholds
  }

  /** Strictly increasing order. */
  predicate Ascending(vs: seq<nat>) {
    forall j, k | 0 <= j < k < |vs| :: vs[j] < vs[k]
  }

  /** The scroll map holds a flag for every threshold. */
  predicate HasAllDepths(tracked: map<nat, bool>) {
    forall v | v in Thresholds :: v in tracked
  }

  /** `v` is among the first `n` thresholds the listener visits. */
  predicate Among(v: nat, n: nat)
    requires n <= |Thresholds|
  {
    v in Thresholds && (n < |Thresholds| ==> v < Thresholds[n])
  }

  /** The first `n` thresholds are the first `n - 1` and the `n`-th, which is not among the earlier ones. */
  lemma AmongStep(v: nat, n: nat)
    requires 0 < n <= |Thresholds|
    ensures Among(v, n) <==> Among(v, n - 1) || v == Thresholds[n - 1]
    ensures !Among(Thresholds[n - 1], n - 1)
  {
  }

  /**
   * What the listener's `forEach` has done so far: the thresholds it fired,
   * the records it handed to `gtag`, and the flags.
   */
  datatype ScrollOutcome = ScrollOutcome(fired: seq<nat>, records: seq<EventRecord>, tracked: map<nat, bool>)

  /**
   * The listener's loop over its first `n` thresholds at integer percent `p`:
   * a threshold fires when `p` reaches it and its flag is still false, and
   * then its flag is set.
   */
  function ScrollUpTo(tracked: map<nat, bool>, p: int, n: nat): (o: ScrollOutcome)
    requires n <= |Thresholds| && HasAllDepths(tracked)
    ensures HasAllDepths(o.tracked) && o.tracked.Keys == tracked.Keys
    ensures AllThresholds(o.fired)
  {
    if n == 0 then ScrollOutcome([], [], tracked)
    else
      var o := ScrollUpTo(tracked, p, n - 1);
      var v := Thresholds[n - 1];
      if p >= v && !o.tracked[v] then ScrollOutcome(o.fired + [v], o.records + [ScrollDepth(DepthText(v))], o.tracked[v := true])
      else o
  }

  /** One whole pass of the listener. */
  function ScrollPass(tracked: map<nat, bool>, p: int): (o: ScrollOutcome)
    requires HasAllDepths(tracked)
    ensures HasAllDepths(o.tracked) && o.tracked.Keys == tracked.Keys
    ensures AllThresholds(o.fired)
  {
    ScrollUpTo(tracked, p, |Thresholds|)
  }

  /** The records are one "scroll_depth" record per fired threshold, labelled "25%" and so on. */
  lemma {:induction false} ScrollRecordsMatch(tracked: map<nat, bool>, p: int, n: nat)
    requires n <= |Thresholds| && HasAllDepths(tracked)
    ensures var o := ScrollUpTo(tracked, p, n);
      |o.records| == |o.fired| &&
      forall k | 0 <= k < |o.fired| :: o.records[k] == ScrollDepth(DepthText(o.fired[k]))
  {
    if n > 0 {
      ScrollRecordsMatch(tracked, p, n - 1);
    }
  }

  /** After `n` steps, a flag is set exactly when it was set before or it is among them and `p` reaches it. */
  lemma {:induction false} ScrollFlagAfter(tracked: map<nat, bool>, p: int, n: nat, v: nat)
    requires n <= |Thresholds| && HasAllDepths(tracked) && v in tracked
    ensures ScrollUpTo(tracked, p, n).tracked[v] == (tracked[v] || (Among(v, n) && p >= v))
  {
    if n > 0 {
      var last := Thresholds[n - 1];
      AmongStep(v, n);
      ScrollFlagAfter(tracked, p, n - 1, v);
      ScrollFlagAfter(tracked, p, n - 1, last);
    }
  }

  /** The first `n` steps fire exactly the thresholds among them that `p` reaches and whose flag was false. */
  lemma {:induction false} ScrollFired(tracked: map<nat, bool>, p: int, n: nat, v: nat)
    requires n <= |Thresholds| && HasAllDepths(tracked)
    ensures v in ScrollUpTo(tracked, p, n).fired <==> Among(v, n) && p >= v && !tracked[v]
  {
    if n > 0 {
      var last := Thresholds[n - 1];
      var prev := ScrollUpTo(tracked, p, n - 1);
      AmongStep(v, n);
      ScrollFired(tracked, p, n - 1, v);
      ScrollFlagAfter(tracked, p, n - 1, last);
      if p >= last && !prev.tracked[last] {
        assert ScrollUpTo(tracked, p, n).fired == prev.fired + [last];
        assert v in prev.fired + [last] <==> v in prev.fired || v == last;
      } else {
        assert ScrollUpTo(tracked, p, n).fired == prev.fired;
      }
    }
  }

  /** What the first `n` steps fire lies below the next threshold. */
  lemma FiredBelow(tracked: map<nat, bool>, p: int, n: nat, j: nat)
    requires n < |Thresholds| && HasAllDepths(tracked)
    requires j < |ScrollUpTo(tracked, p, n).fired|
    ensures ScrollUpTo(tracked, p, n).fired[j] < Thresholds[n]
  {
    ScrollFired(tracked, p, n, ScrollUpTo(tracked, p, n).fired[j]);
  }

  /** The steps fire their thresholds in ascending order. */
  lemma {:induction false} ScrollFiredAscending(tracked: map<nat, bool>, p: int, n: nat)
    requires n <= |Thresholds| && HasAllDepths(tracked)
    ensures Ascending(ScrollUpTo(tracked, p, n).fired)
  {
    if n > 0 {
      var last := Thresholds[n - 1];
      ScrollFiredAscending(tracked, p, n - 1);
      var prev := ScrollUpTo(tracked, p, n - 1).fired;
      var fired := ScrollUpTo(tracked, p, n).fired;
      if fired != prev {
        assert fired == prev + [last];
        forall j, k | 0 <= j < k < |fired| ensures fired[j] < fired[k] {
          if k == |prev| {
            assert fired[j] == prev[j] && fired[k] == last;
            FiredBelow(tracked, p, n - 1, j);
          } else {
            assert fired[j] == prev[j] && fired[k] == prev[k];
          }
        }
      }
    }
  }

  /**
   * One scroll event at integer percent `p` fires exactly the thresholds up to
   * `p` whose flag was false, in ascending order, one "scroll_depth" record
   * each; afterwards every threshold up to `p` is flagged and no other flag
   * has changed.
   */
  lemma ScrollPassEmits(tracked: map<nat, bool>, p: int)
    requires HasAllDepths(tracked)
    ensures var o := ScrollPass(tracked, p);
      (forall v: nat :: v in o.fired <==> v in Thresholds && v <= p && !tracked[v]) &&
      Ascending(o.fired) &&
      |o.records| == |o.fired| &&
      (forall k | 0 <= k < |o.fired| :: o.records[k] == ScrollDepth(DepthText(o.fired[k]))) &&
      (forall v | v in Thresholds :: o.tracked[v] == (tracked[v] || v <= p))
  {
    var o := ScrollPass(tracked, p);
    forall v: nat ensures v in o.fired <==> v in Thresholds && v <= p && !tracked[v] {
      ScrollFired(tracked, p, |Thresholds|, v);
    }
    ScrollFiredAscending(tracked, p, |Thresholds|);
    ScrollRecordsMatch(tracked, p, |Thresholds|);
    forall v | v in Thresholds ensures o.tracked[v] == (tracked[v] || v <= p) {
      ScrollFlagAfter(tracked, p, |Thresholds|, v);
    }
  }

  /** From a fresh page, a scroll to 60% fires 25 and 50, in that order. */
  lemma ScrollExample()
    ensures ScrollPass(map[25 := false, 50 := false, 75 := false, 100 := false], 60).fired == [25, 50]
  {
    var t := map[25 := false, 50 := false, 75 := false, 100 := false];
    var o1 := ScrollUpTo(t, 60, 1);
    assert o1.fired == [25] && o1.tracked == t[25 := true];
    var o2 := ScrollUpTo(t, 60, 2);
    assert o2.fired == [25, 50] && o2.tracked == t[25 := true][50 := true];
    assert ScrollUpTo(t, 60, 3) == o2;
    assert ScrollUpTo(t, 60, 4) == o2;
  }

  /** The thresholds fired by a sequence of scroll events, each at its integer percent. */
  function ScrollRun(tracked: map<nat, bool>, ps: seq<int>): (fired: seq<nat>)
    requires HasAllDepths(tracked)
    ensures AllThresholds(fired)
    decreases |ps|
  {
    if ps == [] then []
    else
      var o := ScrollPass(tracked, ps[0]);
      o.fired + ScrollRun(o.tracked, ps[1..])
  }

  /** No threshold appears twice in a sequence. */
  predicate NoRepeats(s: seq<nat>) {
    forall j, k | 0 <= j < k < |s| :: s[j] != s[k]
  }

  /** Some scroll of the run reaches threshold `v`. */
  predicate Reached(ps: seq<int>, v: int) {
    exists k :: 0 <= k < |ps| && ps[k] >= v
  }

  /** A run reaches `v` when its first scroll does or the rest of it does. */
  lemma ReachedStep(ps: seq<int>, v: int)
    requires ps != []
    ensures Reached(ps, v) <==> ps[0] >= v || Reached(ps[1..], v)
  {
    if Reached(ps[1..], v) {
      var k :| 0 <= k < |ps[1..]| && ps[1..][k] >= v;
      assert ps[k + 1] >= v;
    }
    if Reached(ps, v) && ps[0] < v {
      var k :| 0 <= k < |ps| && ps[k] >= v;
      assert ps[1..][k - 1] >= v;
    }
  }

  /**
   * Over any sequence of scroll events a threshold fires exactly when its
   * flag was still false and some scroll reached it.
   */
  lemma {:induction false} ScrollFiresWhenReached(tracked: map<nat, bool>, ps: seq<int>)
    requires HasAllDepths(tracked)
    decreases |ps|
    ensures forall v: nat :: v in ScrollRun(tracked, ps) <==> v in Thresholds && !tracked[v] && Reached(ps, v)
  {
    if ps != [] {
      var o := ScrollPass(tracked, ps[0]);
      ScrollFiresWhenReached(o.tracked, ps[1..]);
      var rest := ScrollRun(o.tracked, ps[1..]);
      var all := ScrollRun(tracked, ps);
      assert all == o.fired + rest;
      forall v: nat ensures v in all <==> v in Thresholds && !tracked[v] && Reached(ps, v) {
        assert v in all <==> v in o.fired || v in rest;
        ScrollFired(tracked, ps[0], |Thresholds|, v);
        if v in tracked {
          ScrollFlagAfter(tracked, ps[0], |Thresholds|, v);
        }
        ReachedStep(ps, v);
      }
    }
  }

  /** Each threshold fires at most once per page load, whatever the scroll events. */
  lemma {:induction false} ScrollFiresOnce(tracked: map<nat, bool>, ps: seq<int>)
    requires HasAllDepths(tracked)
    decreases |ps|
    ensures NoRepeats(ScrollRun(tracked, ps))
  {
    if ps != [] {
      ScrollFiredAscending(tracked, ps[0], |Thresholds|);
      var o := ScrollPass(tracked, ps[0]);
      ScrollFiresOnce(o.tracked, ps[1..]);
      var rest := ScrollRun(o.tracked, ps[1..]);
      var all := ScrollRun(tracked, ps);
      assert all == o.fired + rest;
      forall j, k | 0 <= j < k < |all| ensures all[j] != all[k] {
        if k < |o.fired| {
          assert o.fired[j] < o.fired[k];
        } else if j >= |o.fired| {
          assert all[j] == rest[j - |o.fired|] && all[k] == rest[k - |o.fired|];
        } else {
          assert all[j] == o.fired[j] && all[k] == rest[k - |o.fired|];
          FiredOnceThenSilent(tracked, ps, o.fired[j]);
        }
      }
    }
  }

  /** A threshold the first scroll fires is not fired again by the rest of the run. */
  lemma FiredOnceThenSilent(tracked: map<nat, bool>, ps: seq<int>, v: nat)
    requires HasAllDepths(tracked) && ps != []
    requires v in ScrollPass(tracked, ps[0]).fired
    ensures v !in ScrollRun(ScrollPass(tracked, ps[0]).tracked, ps[1..])
  {
    var o := ScrollPass(tracked, ps[0]);
    ScrollFired(tracked, ps[0], |Thresholds|, v);
    ScrollFlagAfter(tracked, ps[0], |Thresholds|, v);
    ScrollFiresWhenReached(o.tracked, ps[1..]);
  }

  /** Flags only ever go from false to true. */
  lemma ScrollFlagsOnlyRise(tracked: map<nat, bool>, p: int, v: nat)
    requires HasAllDepths(tracked) && v in tracked && tracked[v]
    ensures ScrollPass(tracked, p).tracked[v]
  {
    ScrollFlagAfter(tracked, p, |Thresholds|, v);
  }

  // ---------------------------------------------------------------------
  // Form start
  // ---------------------------------------------------------------------

  /** The kind of element a focus event targets. */
  datatype ElementKind = Input | Select | TextArea | Other

  /** `e.target.matches('input, select, textarea')`. */
  predicate IsFormField(k: ElementKind) {
    k != Other
  }

  /** Whether a focus on `target` emits form_start, given the form's latch. */
  predicate StartsForm(tracked: bool, target: ElementKind) {
    !tracked && IsFormField(target)
  }

  /** How many form_start records a form emits over a sequence of focus events. */
  function FormStartCount(tracked: bool, targets: seq<ElementKind>): (n: nat)
    ensures n <= |targets|
    decreases |targets|
  {
    if targets == [] then 0
    else if StartsForm(tracked, targets[0]) then 1 + FormStartCount(true, targets[1..])
    else FormStartCount(tracked, targets[1..])
  }

  /** A latched form never emits again. */
  lemma {:induction false} LatchedFormIsSilent(targets: seq<ElementKind>)
    ensures FormStartCount(true, targets) == 0
  {
    if targets != [] {
      LatchedFormIsSilent(targets[1..]);
    }
  }

  /**
   * A form emits form_start at most once, and exactly once when it had not
   * yet done so and some focus event targets an input, select or textarea.
   */
  lemma {:induction false} FormStartOnce(tracked: bool, targets: seq<ElementKind>)
    ensures FormStartCount(tracked, targets) <= 1
    ensures FormStartCount(tracked, targets) == 1 <==>
      !tracked && exists k :: 0 <= k < |targets| && IsFormField(targets[k])
  {
    if targets != [] {
      if StartsForm(tracked, targets[0]) {
        LatchedFormIsSilent(targets[1..]);
      } else {
        FormStartOnce(tracked, targets[1..]);
        if exists k :: 0 <= k < |targets| && IsFormField(targets[k]) {
          var k :| 0 <= k < |targets| && IsFormField(targets[k]);
          if !tracked {
            assert targets[1..][k - 1] == targets[k];
          }
        }
        if exists k :: 0 <= k < |targets[1..]| && IsFormField(targets[1..][k]) {
          var k :| 0 <= k < |targets[1..]| && IsFormField(targets[1..][k]);
          assert targets[k + 1] == targets[1..][k];
        }
      }
    }
  }

  // ---------------------------------------------------------------------
  // Image views
  // ---------------------------------------------------------------------

  /** A `[data-track="image_view"]` image's two label attributes. */
  datatype Image = Image(dataTitle: Option<string>, alt: Option<string>)

  /** Number of entries of a callback batch that report the image intersecting. */
  function CountIntersecting(entries: seq<bool>): (n: nat)
    ensures n <= |entries|
  {
    if entries == [] then 0
    else CountIntersecting(entries[..|entries| - 1]) + (if entries[|entries| - 1] then 1 else 0)
  }

  /**
   * The image_view records of one callback batch as the observer callback is
   * written: the batch's `forEach` goes on after `unobserve`, so every
   * intersecting entry of the batch emits. An image no longer observed
   * receives no batch.
   */
  function ImageViewsAsWritten(observing: bool, entries: seq<bool>): (n: nat)
    ensures n <= |entries|
  {
    if observing then CountIntersecting(entries) else 0
  }

  /** A batch holding two intersecting entries for the image emits two views. */
  lemma ImageViewedTwiceAsWritten()
    ensures ImageViewsAsWritten(true, [true, true]) == 2
  {
    assert [true, true][1..] == [true];
  }

  /** The image_view records of one batch under the one-shot intent: one, at the first intersecting entry. */
  function ImageViews(observing: bool, entries: seq<bool>): (n: nat)
    ensures n <= 1
    ensures n == 1 <==> observing && true in entries
  {
    if observing && true in entries then 1 else 0
  }

  /** How many views an image emits over a sequence of callback batches, one-shot. */
  function ImageViewRun(observing: bool, batches: seq<seq<bool>>): (n: nat)
    ensures n <= |batches|
  {
    if batches == [] then 0
    else ImageViews(observing, batches[0]) + ImageViewRun(observing && true !in batches[0], batches[1..])
  }

  /**
   * With the one-shot callback an image is viewed at most once per page load,
   * and exactly once when it is observed and some batch reports it intersecting.
   */
  lemma {:induction false} ImageViewedOnce(observing: bool, batches: seq<seq<bool>>)
    ensures ImageViewRun(observing, batches) <= 1
    ensures ImageViewRun(observing, batches) == 1 <==>
      observing && exists k :: 0 <= k < |batches| && true in batches[k]
  {
    if batches != [] {
      ImageViewedOnce(observing && true !in batches[0], batches[1..]);
      if observing && true !in batches[0] {
        if exists k :: 0 <= k < |batches| && true in batches[k] {
          var k :| 0 <= k < |batches| && true in batches[k];
          assert true in batches[1..][k - 1];
        }
        if exists k :: 0 <= k < |batches[1..]| && true in batches[1..][k] {
          var k :| 0 <= k < |batches[1..]| && true in batches[1..][k];
          assert batches[k + 1] == batches[1..][k];
        }
      }
    }
  }

  // ---------------------------------------------------------------------
  // The page's tracker
  // ---------------------------------------------------------------------

  /** The analytics state of one page load. */
  class PageTracker {
    /** The event records `gtag` has pushed, oldest first. */
    var dataLayer: seq<EventRecord>
    /** `scrollTracked`: one flag per threshold, keyed by its value. */
    var scrollTracked: map<nat, bool>
    /** The `name` attribute of each form on the page. */
    const formNames: seq<Option<string>>
    /** Each form's `formStartTracked` flag. */
    var formStartTracked: seq<bool>
    /** The tracked images. */
    const images: seq<Image>
    /** Whether each image's observer still observes it. */
    var observing: seq<bool>

    ghost predicate Valid()
      reads this
    {
      HasAllDepths(scrollTracked) &&
      |formStartTracked| == |formNames| && |observing| == |images|
    }

    /**
     * The state before the DOMContentLoaded handler's page-path checks: no
     * event record yet, every threshold and form flag false, every image
     * observed.
     */
    constructor (formNames: seq<Option<string>>, images: seq<Image>)
      ensures Valid()
      ensures dataLayer == [] && this.formNames == formNames && this.images == images
      ensures scrollTracked == map[25 := false, 50 := false, 75 := false, 100 := false]
      ensures formStartTracked == seq(|formNames|, _ => false)
      ensures observing == seq(|images|, _ => true)
    {
      this.formNames := formNames;
      this.images := images;
      dataLayer := [];
      scrollTracked := map[25 := false, 50 := false, 75 := false, 100 := false];
      formStartTracked := seq(|formNames|, _ => false);
      observing := seq(|images|, _ => true);
    }

    /** `gtag('event', ...)`: the record is appended to the data layer. */
    method Emit(r: EventRecord)
      modifies this`dataLayer
      ensures dataLayer == old(dataLayer) + [r]
    {
      dataLayer := dataLayer + [r];
    }

    method OnCtaClick(text: string, href: Option<string>, dataDestination: Option<string>)
      modifies this`dataLayer
      ensures dataLayer == old(dataLayer) + [CtaClick(text, href, dataDestination)]
    {
      Emit(CtaClick(text, href, dataDestination));
    }

    method OnSocialClick(platform: Option<string>, href: Option<string>)
      modifies this`dataLayer
      ensures dataLayer == old(dataLayer) + [SocialClick(platform, href)]
    {
      Emit(SocialClick(platform, href));
    }

    method OnCheckoutClick(amount: Option<string>, product: Option<string>, category: Option<string>,
                           parseFloat: string -> Option<real>)
      modifies this`dataLayer
      ensures dataLayer == old(dataLayer) + [BeginCheckout(amount, product, category, parseFloat)]
    {
      Emit(BeginCheckout(amount, product, category, parseFloat));
    }

    method OnNavigationClick(text: string, href: Option<string>)
      modifies this`dataLayer
      ensures dataLayer == old(dataLayer) + [NavigationClick(text, href)]
    {
      Emit(NavigationClick(text, href));
    }

    /** The two page-path checks of the DOMContentLoaded handler, in script order. */
    method OnPageLoad(path: string, sessionId: Option<string>)
      modifies this`dataLayer
      ensures dataLayer == old(dataLayer) + PageLoadRecords(path, sessionId)
    {
      if path == ThankYouPath {
        if Truthy(sessionId) {
          Emit(EventRecord("purchase", map[
            "event_category" := Str("ecommerce"),
            "transaction_id" := Str(sessionId.value),
            "currency" := Str(Currency)]));
        }
      }
      if path == ContactThankYouPath {
        Emit(EventRecord("form_submit_success", map[
          "event_category" := Str("engagement"),
          "event_label" := Str("contact")]));
      }
    }

    /**
     * The scroll listener at integer percent `p`: it appends a record for
     * each threshold the pass fires, in order, and sets their flags.
     */
    method OnScroll(p: int)
      requires Valid()
      modifies this`dataLayer, this`scrollTracked
      ensures Valid()
      ensures dataLayer == old(dataLayer) + ScrollPass(old(scrollTracked), p).records
      ensures scrollTracked == ScrollPass(old(scrollTracked), p).tracked
    {
      ghost var tracked0 := scrollTracked;
      for i := 0 to |Thresholds|
        invariant scrollTracked == ScrollUpTo(tracked0, p, i).tracked
        invariant dataLayer == old(dataLayer) + ScrollUpTo(tracked0, p, i).records
      {
        var depth := Thresholds[i];
        if p >= depth && !scrollTracked[depth] {
          Emit(ScrollDepth(DepthText(depth)));
          scrollTracked := scrollTracked[depth := true];
        }
      }
    }

    /**
     * The focus listener (capture phase) of form `i`: the first focus on an
     * input, select or textarea emits form_start and latches the form's flag;
     * every other focus changes nothing.
     */
    method OnFormFocus(i: nat, target: ElementKind)
      requires Valid() && i < |formNames|
      modifies this`dataLayer, this`formStartTracked
      ensures Valid()
      ensures StartsForm(old(formStartTracked[i]), target) ==>
        dataLayer == old(dataLayer) + [FormStart(formNames[i])] &&
        formStartTracked == old(formStartTracked)[i := true]
      ensures !StartsForm(old(formStartTracked[i]), target) ==>
        dataLayer == old(dataLayer) && formStartTracked == old(formStartTracked)
    {
      if StartsForm(formStartTracked[i], target) {
        var formName := OrDefault(formNames[i], "unnamed_form");
        Emit(EventRecord("form_start", map[
          "event_category" := Str("engagement"),
          "event_label" := Str(formName)]));
        formStartTracked := formStartTracked[i := true];
      }
    }

    /**
     * The submit listener of form `i`: every submission emits form_submit,
     * with no latch. `inquiryField` is the value of the form's inquiry
     * element, `None` when it has none.
     */
    method OnFormSubmit(i: nat, inquiryField: Option<string>)
      requires i < |formNames|
      modifies this`dataLayer
      ensures dataLayer == old(dataLayer) + [FormSubmit(formNames[i], inquiryField)]
    {
      var formName := OrDefault(formNames[i], "unnamed_form");
      var inquiryValue := if inquiryField.Some? then inquiryField.value else "unknown";
      Emit(EventRecord("form_submit", map[
        "event_category" := Str("engagement"),
        "event_label" := Str(formName),
        "inquiry_type" := Str(inquiryValue)]));
    }

    /**
     * The observer callback of image `i` for one batch of entries, as it is
     * written: every intersecting entry emits image_view and unobserves the
     * image, and the batch's `forEach` goes on to the end.
     */
    method OnImageEntriesAsWritten(i: nat, entries: seq<bool>)
      requires Valid() && i < |images|
      modifies this`dataLayer, this`observing
      ensures Valid()
      ensures dataLayer == old(dataLayer) +
        seq(ImageViewsAsWritten(old(observing[i]), entries), _ => ImageView(images[i].dataTitle, images[i].alt))
      ensures observing == old(observing)[i := old(observing[i]) && true !in entries]
    {
      if !observing[i] {
        // An image that is no longer observed receives no callback.
        return;
      }
      var view := ImageView(images[i].dataTitle, images[i].alt);
      for k := 0 to |entries|
        invariant |observing| == |images|
        invariant observing == old(observing)[i := true !in entries[..k]]
        invariant dataLayer == old(dataLayer) + seq(CountIntersecting(entries[..k]), _ => view)
      {
        assert entries[..k + 1] == entries[..k] + [entries[k]];
        assert entries[..k + 1][..k] == entries[..k];
        if entries[k] {
          ghost var n := CountIntersecting(entries[..k]);
          assert seq(n, _ => view) + [view] == seq(n + 1, _ => view);
          Emit(view);
          observing := observing[i := false];
        }
      }
      assert entries[..|entries|] == entries;
    }

    /**
     * The observer callback of image `i` for one batch of entries, each
     * entry saying whether the image is intersecting. One-shot: the first
     * intersecting entry emits image_view and stops the observation, and no
     * later entry of the batch emits.
     */
    method OnImageEntries(i: nat, entries: seq<bool>)
      requires Valid() && i < |images|
      modifies this`dataLayer, this`observing
      ensures Valid()
      ensures dataLayer == old(dataLayer) +
        (if ImageViews(old(observing[i]), entries) == 1 then [ImageView(images[i].dataTitle, images[i].alt)] else [])
      ensures observing == old(observing)[i := old(observing[i]) && true !in entries]
    {
      if !observing[i] {
        // An image that is no longer observed receives no callback.
        return;
      }
      for k := 0 to |entries|
        invariant |observing| == |images|
        invariant observing == old(observing)[i := true !in entries[..k]]
        invariant dataLayer == old(dataLayer) +
          (if true in entries[..k] then [ImageView(images[i].dataTitle, images[i].alt)] else [])
      {
        assert entries[..k + 1] == entries[..k] + [entries[k]];
        if entries[k] && observing[i] {
          Emit(ImageView(images[i].dataTitle, images[i].alt));
          observing := observing[i := false];
        }
      }
      assert entries[..|entries|] == entries;
    }
  }
}
