/**
 * The plan cards, as the markup each side emits (field by field, escaped) and as
 * a reader sees it. The server renders them in render_plan_cards with esc_html;
 * the client re-renders them from the JSON payload with its own escapeHtml.
 */
module Cards {
  import opened Base
  import opened Store
  import opened Plans
  import opened Html

  /**
   * One card: the starred flag (which adds the modifier class and the
   * "Recommended" badge), the title, the price, the feature items (none means no
   * list), and the call to action as (href, text) when there is a button.
   */
  datatype Card = Card(
    starred: bool,
    title: string,
    price: string,
    features: seq<string>,
    cta: Option<(string, string)>)

  /** The grid, or the "No plans available for this period." message. */
  datatype CardsHtml = EmptyMessage | Grid(cards: seq<Card>)

  // ---------------------------------------------------------------------------
  // Server

  function EscAll(fs: seq<string>): (r: seq<string>)
    ensures |r| == |fs| && forall i :: 0 <= i < |fs| ==> r[i] == EscHtml(fs[i])
  {
    seq(|fs|, i requires 0 <= i < |fs| => EscHtml(fs[i]))
  }

  /** One card as render_plan_cards writes it; the button needs both fields non-empty in PHP's sense. */
  function ServerCard(v: PlanView): Card {
    Card(v.starred, EscHtml(v.title), EscHtml(v.price), EscAll(ArrayValues(v.features)),
      if !PhpEmpty(v.buttonText) && !PhpEmpty(v.buttonLink) then Some((EscHtml(v.buttonLink), EscHtml(v.buttonText)))
      else None)
  }

  function ServerCards(plans: seq<PlanView>): (r: seq<Card>)
    ensures |r| == |plans| && forall i :: 0 <= i < |plans| ==> r[i] == ServerCard(plans[i])
  {
    seq(|plans|, i requires 0 <= i < |plans| => ServerCard(plans[i]))
  }

  /** The inner loop of render_plan_cards: one escaped item per feature, in order. */
  method RenderFeatures(values: seq<string>) returns (items: seq<string>)
    ensures items == EscAll(values)
  {
    items := [];
    var j := 0;
    while j < |values|
      invariant 0 <= j <= |values|
      invariant items == EscAll(values[..j])
    {
      assert values[..j + 1] == values[..j] + [values[j]];
      items := items + [EscHtml(values[j])];
      j := j + 1;
    }
    assert values[..j] == values;
  }

  /** render_plan_cards: the empty message for no plans, otherwise one card per plan in order. */
  method RenderPlanCards(plans: seq<PlanView>) returns (out: CardsHtml)
    ensures plans == [] ==> out == EmptyMessage
    ensures plans != [] ==> out == Grid(ServerCards(plans))
  {
    if |plans| == 0 {
      return EmptyMessage;
    }
    var cards := [];
    var i := 0;
    while i < |plans|
      invariant 0 <= i <= |plans|
      invariant |cards| == i && forall k :: 0 <= k < i ==> cards[k] == ServerCard(plans[k])
    {
      var plan := plans[i];
      var features := RenderFeatures(ArrayValues(plan.features));
      var cta := None;
      if !PhpEmpty(plan.buttonText) && !PhpEmpty(plan.buttonLink) {
        cta := Some((EscHtml(plan.buttonLink), EscHtml(plan.buttonText)));
      }
      cards := cards + [Card(plan.starred, EscHtml(plan.title), EscHtml(plan.price), features, cta)];
      i := i + 1;
    }
    out := Grid(cards);
  }

  // ---------------------------------------------------------------------------
  // Client

  /** The client's `plan.features && plan.features.length > 0`: a JSON object has no length, so no list. */
  function ClientFeatures(j: JsonStrings): seq<string> {
    match j
    case JsonList(items) => items
    case JsonObject(_) => []
  }

  function EscapeAll(fs: seq<string>): (r: seq<string>)
    ensures |r| == |fs| && forall i :: 0 <= i < |fs| ==> r[i] == EscapeHtml(fs[i])
  {
    seq(|fs|, i requires 0 <= i < |fs| => EscapeHtml(fs[i]))
  }

  /** One card as renderPlanCards writes it from the plan's JSON; the button needs both strings non-empty. */
  function ClientCard(v: PlanView): Card {
    Card(v.starred, EscapeHtml(v.title), EscapeHtml(v.price), EscapeAll(ClientFeatures(JsonEncode(v.features))),
      if v.buttonText != "" && v.buttonLink != "" then Some((EscapeHtml(v.buttonLink), EscapeHtml(v.buttonText)))
      else None)
  }

  function ClientCards(plans: seq<PlanView>): (r: CardsHtml)
    ensures plans == [] ==> r == EmptyMessage
    ensures plans != [] ==> r.Grid? && |r.cards| == |plans|
    ensures plans != [] ==> forall i :: 0 <= i < |plans| ==> r.cards[i] == ClientCard(plans[i])
  {
    if plans == [] then EmptyMessage
    else Grid(seq(|plans|, i requires 0 <= i < |plans| => ClientCard(plans[i])))
  }

  // ---------------------------------------------------------------------------
  // What a reader sees

  function ShownAll(fs: seq<string>): (r: seq<string>)
    ensures |r| == |fs| && forall i :: 0 <= i < |fs| ==> r[i] == Shown(fs[i])
  {
    seq(|fs|, i requires 0 <= i < |fs| => Shown(fs[i]))
  }

  /** A card as displayed: every emitted string decoded by the browser. */
  function Seen(c: Card): Card {
    Card(c.starred, Shown(c.title), Shown(c.price), ShownAll(c.features),
      match c.cta
      case Some(b) => Some((Shown(b.0), Shown(b.1)))
      case None => None)
  }

  /**
   * What the plugin means a card to show for a stored plan: its title, the display
   * price, the non-empty features, and a button when both button fields are set.
   */
  function Intended(p: PlanRecord): Card {
    Card(p.starred, p.title, FormatPrice(p.price, p.customLabel, p.priceCents), FilterFeatures(p.features),
      if !PhpEmpty(p.buttonText) && !PhpEmpty(p.buttonLink) then Some((p.buttonLink, p.buttonText)) else None)
  }

  /** Plain text: nothing in the plan's own strings looks like a character reference already. */
  predicate PlainText(p: PlanRecord) {
    && NoEntityRefs(p.title) && NoEntityRefs(p.customLabel)
    && NoEntityRefs(p.buttonText) && NoEntityRefs(p.buttonLink)
    && (forall i :: 0 <= i < |p.features| ==> NoEntityRefs(p.features[i]))
  }

  lemma NoAmpersandNoRefs(s: string)
    requires forall i :: 0 <= i < |s| ==> s[i] != '&'
    ensures NoEntityRefs(s)
  {
    forall i | 0 <= i < |s| ensures MatchEntity(s[i..]) == None {
      MatchEntityFacts(s[i..]);
    }
  }

  /** The display price of a plain-text plan is plain text too. */
  lemma FormatPricePlain(p: PlanRecord)
    requires NoEntityRefs(p.customLabel)
    ensures NoEntityRefs(FormatPrice(p.price, p.customLabel, p.priceCents))
  {
    if PhpEmpty(p.customLabel) {
      if PhpEmpty(p.price) || p.priceCents == None {
        NoAmpersandNoRefs("Free");
      } else {
        DollarAmountPlain(p.priceCents.value);
      }
    }
  }

  lemma DollarAmountPlain(cents: int)
    ensures NoEntityRefs("$" + FormatAmount(cents))
  {
    var amount := FormatAmount(cents);
    var r := "$" + amount;
    FormatAmountChars(cents);
    assert forall i :: 1 <= i < |r| ==> r[i] == amount[i - 1];
    NoAmpersandNoRefs(r);
  }

  lemma ShownEscAll(fs: seq<string>)
    requires forall i :: 0 <= i < |fs| ==> NoEntityRefs(fs[i])
    ensures ShownAll(EscAll(fs)) == fs
  {
    forall i | 0 <= i < |fs| ensures ShownAll(EscAll(fs))[i] == fs[i] {
      EscHtmlShown(fs[i]);
    }
  }

  lemma ShownEscapeAll(fs: seq<string>)
    ensures ShownAll(EscapeAll(fs)) == fs
  {
    forall i | 0 <= i < |fs| ensures ShownAll(EscapeAll(fs))[i] == fs[i] {
      EscapeHtmlShown(fs[i]);
    }
  }

  /**
   * The server shows every plain-text plan exactly as intended, both from the payload
   * get_single_plan_data builds as written and from the corrected one.
   */
  lemma ServerShowsIntended(p: PlanRecord)
    requires PlainText(p)
    ensures Seen(ServerCard(SinglePlanData(p))) == Intended(p)
    ensures Seen(ServerCard(SinglePlanDataAsWritten(p))) == Intended(p)
  {
    ServerAsWrittenSame(p);
    ServerShowsCorrected(p);
  }

  /**
   * On the server the two payloads render the same card: foreach visits array_filter's
   * values in order whatever their keys, and esc_html over the pre-escaped label
   * changes nothing.
   */
  lemma ServerAsWrittenSame(p: PlanRecord)
    ensures ServerCard(SinglePlanDataAsWritten(p)) == ServerCard(SinglePlanData(p))
  {
    SameFeatureValues(p);
    SamePriceEscaped(p.price, p.customLabel, p.priceCents);
  }

  lemma SameFeatureValues(p: PlanRecord)
    ensures ArrayValues(SinglePlanDataAsWritten(p).features) == ArrayValues(SinglePlanData(p).features)
  {
    FilterFeaturesKeepsFilteredValues(p.features, 0);
  }

  lemma SamePriceEscaped(price: string, customLabel: string, cents: Option<int>)
    ensures EscHtml(FormatPriceAsWritten(price, customLabel, cents)) == EscHtml(FormatPrice(price, customLabel, cents))
  {
    if !PhpEmpty(customLabel) {
      EscHtmlIdempotent(customLabel);
    }
  }

  lemma ServerShowsCorrected(p: PlanRecord)
    requires PlainText(p)
    ensures Seen(ServerCard(SinglePlanData(p))) == Intended(p)
  {
    var v := SinglePlanData(p);
    SinglePlanDataFields(p);
    EscHtmlShown(p.title);
    FormatPricePlain(p);
    EscHtmlShown(v.price);
    ShownEscAll(FilterFeatures(p.features));
    EscHtmlShown(p.buttonLink);
    EscHtmlShown(p.buttonText);
  }

  /**
   * The client shows every plan exactly as intended, except that it keeps a button
   * whose text or link is "0", which PHP's empty() drops.
   */
  lemma ClientShowsIntended(p: PlanRecord)
    requires p.buttonText != "0" && p.buttonLink != "0"
    ensures Seen(ClientCard(SinglePlanData(p))) == Intended(p)
  {
    var v := SinglePlanData(p);
    SinglePlanDataFields(p);
    EscapeHtmlShown(p.title);
    EscapeHtmlShown(v.price);
    ShownEscapeAll(FilterFeatures(p.features));
    EscapeHtmlShown(p.buttonLink);
    EscapeHtmlShown(p.buttonText);
  }

  /** Re-rendering a cached page on the client shows what the server rendered for it. */
  lemma ClientMatchesServer(ps: seq<PlanRecord>)
    requires forall i :: 0 <= i < |ps| ==> PlainText(ps[i]) && ps[i].buttonText != "0" && ps[i].buttonLink != "0"
    ensures var vs := Views(SinglePlanData, ps);
      (ps == [] <==> ClientCards(vs) == EmptyMessage)
      && (ps != [] ==> forall i :: 0 <= i < |ps| ==>
            Seen(ClientCards(vs).cards[i]) == Seen(ServerCards(vs)[i]) == Intended(ps[i]))
  {
    var vs := Views(SinglePlanData, ps);
    forall i | 0 <= i < |ps|
      ensures Seen(ClientCard(vs[i])) == Seen(ServerCard(vs[i])) == Intended(ps[i])
    {
      ServerShowsIntended(ps[i]);
      ClientShowsIntended(ps[i]);
    }
  }

  /** A button text of "0": PHP's empty() hides the button, the client's truthiness test shows it. */
  lemma ZeroButtonTextDiverges(v: PlanView)
    requires v.buttonText == "0" && v.buttonLink != "" && v.buttonLink != "0"
    ensures ServerCard(v).cta == None
    ensures ClientCard(v).cta == Some((EscapeHtml(v.buttonLink), EscapeHtml("0")))
  {
  }

  // ---------------------------------------------------------------------------
  // The payload as written

  /** Features ["", "A"] as written: the server lists "A", the client lists nothing. */
  lemma BlankFirstFeatureLostOnClient(p: PlanRecord)
    requires p.features == ["", "A"]
    ensures Seen(ServerCard(SinglePlanDataAsWritten(p))).features == ["A"]
    ensures ClientCard(SinglePlanDataAsWritten(p)).features == []
  {
    BlankFirstKeepsKeyOne(p.features);
    BlankFirstOnServer(p);
    BlankFirstOnClient(p);
  }

  lemma BlankFirstOnServer(p: PlanRecord)
    requires FilterFeaturesAsWritten(p.features, 0) == [(1, "A")]
    ensures Seen(ServerCard(SinglePlanDataAsWritten(p))).features == ["A"]
  {
    var v, kv := SinglePlanDataAsWritten(p), [(1, "A")];
    assert v.features == Keyed(kv);
    assert ValuesOf(kv) == ["A"];
    assert Seen(ServerCard(v)).features == ShownAll(EscAll(["A"]));
    PlainFeatureShown();
  }

  lemma BlankFirstOnClient(p: PlanRecord)
    requires FilterFeaturesAsWritten(p.features, 0) == [(1, "A")]
    ensures ClientCard(SinglePlanDataAsWritten(p)).features == []
  {
    var v, kv := SinglePlanDataAsWritten(p), [(1, "A")];
    assert v.features == Keyed(kv);
    assert JsonEncode(v.features) == JsonObject(kv);
  }

  lemma PlainFeatureShown()
    ensures ShownAll(EscAll(["A"])) == ["A"]
  {
    assert EscHtml("A") == "A" by { PlainFirst('A', []); }
    assert Shown("A") == "A" by { PlainFirst('A', []); }
  }

  /** array_filter over ["", "A"] keeps "A" under key 1, so json_encode gives an object. */
  lemma BlankFirstKeepsKeyOne(features: seq<string>)
    requires features == ["", "A"]
    ensures FilterFeaturesAsWritten(features, 0) == [(1, "A")]
    ensures !KeysSequential(FilterFeaturesAsWritten(features, 0))
  {
    FilterSkipsBlank(features, 0);
    assert features[1..] == ["A"];
    FilterKeepsSingle("A", 1);
    var kv := FilterFeaturesAsWritten(features, 0);
    assert kv[0].0 != 0;
  }

  lemma FilterSkipsBlank(features: seq<string>, from: nat)
    requires features != [] && PhpEmpty(features[0])
    ensures FilterFeaturesAsWritten(features, from) == FilterFeaturesAsWritten(features[1..], from + 1)
  {
  }

  lemma FilterKeepsSingle(feature: string, from: nat)
    requires !PhpEmpty(feature)
    ensures FilterFeaturesAsWritten([feature], from) == [(from, feature)]
  {
    assert [feature][1..] == [];
  }

  /** As written, a feature list keeps its JSON list form only when no blank precedes a kept entry. */
  lemma AsWrittenFeaturesReachClient(p: PlanRecord)
    requires forall i :: 0 <= i < |p.features| ==> !PhpEmpty(p.features[i])
    ensures ClientCard(SinglePlanDataAsWritten(p)).features == EscapeAll(p.features)
  {
    KeptFeaturesKeepKeys(p.features, 0);
  }

  lemma {:induction false} KeptFeaturesKeepKeys(features: seq<string>, from: nat)
    requires forall i :: 0 <= i < |features| ==> !PhpEmpty(features[i])
    ensures FilterFeaturesAsWritten(features, from) == seq(|features|, i requires 0 <= i < |features| => (from + i, features[i]))
  {
    if features != [] {
      KeptFeaturesKeepKeys(features[1..], from + 1);
    }
  }

  /** A custom label "R&D" as written: the server shows it as typed, the client shows "R&amp;D". */
  lemma LabelDoubleEscapedOnClient(p: PlanRecord)
    requires p.customLabel == "R&D"
    ensures Shown(ServerCard(SinglePlanDataAsWritten(p)).price) == "R&D"
    ensures Shown(ClientCard(SinglePlanDataAsWritten(p)).price) == "R&amp;D"
  {
    EscapesRandD();
    EscHtmlIdempotent("R&D");
    EscapeHtmlShown("R&amp;D");
    ShowsRandD();
  }

  lemma EscapesRandD()
    ensures EscHtml("R&D") == "R&amp;D"
  {
    assert EscHtml("D") == "D" by { PlainFirst('D', []); }
    assert EscHtml("&D") == "&amp;D" by {
      assert MatchEntity("&D") == None;
      assert "&D"[1..] == "D";
    }
    PlainFirst('R', "&D");
    assert "R&D" == ['R'] + "&D";
    assert "R&D"[1..] == "&D";
  }

  lemma ShowsRandD()
    ensures Shown("R&amp;D") == "R&D"
  {
    assert Shown("D") == "D" by { PlainFirst('D', []); }
    assert Shown("&amp;D") == "&D" by {
      EntityFirst("&amp;", '&', "D");
      assert "&amp;" + "D" == "&amp;D";
      assert "&amp;D"[5..] == "D";
    }
    PlainFirst('R', "&amp;D");
    assert "R&amp;D" == ['R'] + "&amp;D";
    assert "R&amp;D"[1..] == "&amp;D";
  }

  /** As written, the server still shows a plain label as typed: esc_html does not encode twice. */
  lemma AsWrittenLabelOnServer(p: PlanRecord)
    requires !PhpEmpty(p.customLabel) && NoEntityRefs(p.customLabel)
    ensures Shown(ServerCard(SinglePlanDataAsWritten(p)).price) == p.customLabel
    ensures Shown(ClientCard(SinglePlanDataAsWritten(p)).price) == EscHtml(p.customLabel)
  {
    EscHtmlIdempotent(p.customLabel);
    EscHtmlShown(p.customLabel);
    EscapeHtmlShown(EscHtml(p.customLabel));
  }
}
