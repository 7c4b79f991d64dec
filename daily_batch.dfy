/**
 * The daily batch: one piece of video content per niche, with a template,
 * a tone and a platform picked by the niche's position, and a product picked
 * so that a product already used by an earlier batch is not used again.
 *
 * The set of used product keys is state of the server process that survives
 * from one batch to the next; it is the one field of `Batcher`. The trending
 * product store, the content generator and the safeguard verdict are
 * parameters; the webhook and the delays between niches are not modelled.
 */
module DailyBatch {
  import opened Wrappers
  import opened Collections
  import opened ScheduledJobs

  const DailyNiches: seq<string> := ["beauty", "tech", "fashion", "fitness", "food", "travel", "pet"]
  const HighConversionTemplates: seq<string> := ["influencer_caption", "viral_hook", "trending_explainer", "bullet_points", "buyer_persona"]
  const SalesFocusedTones: seq<string> := ["enthusiastic", "trendy", "friendly", "luxurious", "casual"]
  const Platforms: seq<string> := ["TikTok", "Instagram", "YouTube Shorts"]

  /** How many products the store is asked for per niche. */
  const ProductsPerNiche: nat := 5

  /** A trending product as the store returns it (only the fields the batch reads). */
  datatype Product = Product(title: string, mentions: int)

  /** The key under which a product counts as used: its title, a dash, the niche. */
  function ProductKey(p: Product, niche: string): string {
    p.title + "-" + niche
  }

  /** The template of the niche at position `i`: the templates are cycled through. */
  function TemplateFor(i: nat): (t: string)
    ensures t in HighConversionTemplates
  {
    HighConversionTemplates[i % |HighConversionTemplates|]
  }

  /** The tone of the niche at position `i`: the tones are cycled through. */
  function ToneFor(i: nat): (t: string)
    ensures t in SalesFocusedTones
  {
    SalesFocusedTones[i % |SalesFocusedTones|]
  }

  /** The platform of the niche at position `i`: the platforms are cycled through. */
  function PlatformFor(i: nat): (p: string)
    ensures p in Platforms
  {
    Platforms[i % |Platforms|]
  }

  /** The choices repeat with the length of their lists: five for templates and tones, three for platforms. */
  lemma PlanCycles(i: nat)
    ensures TemplateFor(i + 5) == TemplateFor(i) && ToneFor(i + 5) == ToneFor(i)
    ensures PlatformFor(i + 3) == PlatformFor(i)
  {
    assert (i + 5) % 5 == i % 5;
    assert (i + 3) % 3 == i % 3;
  }

  /** A batch over all seven niches uses every template and every tone at least once. */
  lemma BatchUsesEveryTemplateAndTone(t: nat)
    requires t < 5
    ensures t < |DailyNiches| && TemplateFor(t) == HighConversionTemplates[t] && ToneFor(t) == SalesFocusedTones[t]
  {
  }

  /**
   * The position of the first product, in list order, whose key is not yet
   * used; `None` when every product's key is used (or there is none).
   */
  function FirstUnused(ps: seq<Product>, niche: string, used: set<string>): (r: Option<nat>)
    ensures r.Some? ==> r.value < |ps| && ProductKey(ps[r.value], niche) !in used
    ensures r.Some? ==> forall j :: 0 <= j < r.value ==> ProductKey(ps[j], niche) in used
    ensures r.None? <==> forall j :: 0 <= j < |ps| ==> ProductKey(ps[j], niche) in used
    decreases |ps|
  {
    if ps == [] then None
    else if ProductKey(ps[0], niche) !in used then Some(0)
    else match FirstUnused(ps[1..], niche, used)
      case None => None
      case Some(j) => Some(j + 1)
  }

  /**
   * Once the selected product's key is recorded, the next selection from the
   * same list moves strictly past it: the same product is not picked twice.
   */
  lemma {:induction false} SelectionMovesOn(ps: seq<Product>, niche: string, used: set<string>)
    requires FirstUnused(ps, niche, used).Some?
    ensures var k := FirstUnused(ps, niche, used).value;
            var next := FirstUnused(ps, niche, used + {ProductKey(ps[k], niche)});
            next.None? || next.value > k
  {
    var k := FirstUnused(ps, niche, used).value;
    var used' := used + {ProductKey(ps[k], niche)};
    var next := FirstUnused(ps, niche, used');
    if next.Some? {
      assert ProductKey(ps[next.value], niche) !in used';
      assert forall j :: 0 <= j <= k ==> ProductKey(ps[j], niche) in used';
    }
  }

  /**
   * The title the batch generates for: the selected product's title, else the
   * first listed product's title, else a name made from the niche. Empty
   * strings count as missing, as `||` treats them.
   */
  function TopProduct(selected: Option<Product>, ps: seq<Product>, niche: string): (r: string)
    ensures r != ""
    ensures selected.Some? && selected.value.title != "" ==> r == selected.value.title
    ensures (selected.Some? && r == selected.value.title) || (ps != [] && r == ps[0].title) || r == "Top " + niche + " Product"
    ensures (selected.None? || selected.value.title == "") && ps != [] && ps[0].title != "" ==> r == ps[0].title
    ensures (selected.None? || selected.value.title == "") && (ps == [] || ps[0].title == "") ==> r == "Top " + niche + " Product"
  {
    if selected.Some? && selected.value.title != "" then selected.value.title
    else if ps != [] && ps[0].title != "" then ps[0].title
    else "Top " + niche + " Product"
  }

  /**
   * The mention count reported with the item: the selected product's, else the
   * first listed product's, else 0. A count of 0 counts as missing, as `||` treats it.
   */
  function Mentions(selected: Option<Product>, ps: seq<Product>): (r: int)
    ensures selected.Some? && selected.value.mentions != 0 ==> r == selected.value.mentions
    ensures r == 0 || (selected.Some? && r == selected.value.mentions) || (ps != [] && r == ps[0].mentions)
    ensures r == 0 <==> (selected.None? || selected.value.mentions == 0) && (ps == [] || ps[0].mentions == 0)
  {
    if selected.Some? && selected.value.mentions != 0 then selected.value.mentions
    else if ps != [] && ps[0].mentions != 0 then ps[0].mentions
    else 0
  }

  /**
   * When every listed product is already used, nothing is selected and the
   * item falls back to the first listed product.
   */
  lemma AllUsedFallsBack(ps: seq<Product>, niche: string, used: set<string>)
    requires ps != [] && ps[0].title != "" && ps[0].mentions != 0
    requires forall j :: 0 <= j < |ps| ==> ProductKey(ps[j], niche) in used
    ensures FirstUnused(ps, niche, used).None?
    ensures TopProduct(None, ps, niche) == ps[0].title && Mentions(None, ps) == ps[0].mentions
  {
  }

  /**
   * The arguments handed to the content generator, by the role the generator
   * gives each position: product, template type, tone, the trending-products
   * list and the niche.
   */
  datatype ContentCall = ContentCall(product: string, templateType: string, tone: string, trendingSlot: Option<string>, niche: Option<string>)

  /**
   * The call as the batch writes it: the niche lands in the template-type
   * position, "viral_hook" in the trending-products position, and the niche
   * position is left empty.
   */
  function AsWrittenCall(topProduct: string, niche: string, tone: string): ContentCall {
    ContentCall(topProduct, niche, tone, Some("viral_hook"), None)
  }

  /** As written, no niche of the batch is ever passed as the niche, nor "viral_hook" as the template type. */
  lemma AsWrittenCallMisplacesArguments(i: nat, topProduct: string)
    requires i < |DailyNiches|
    ensures var call := AsWrittenCall(topProduct, DailyNiches[i], ToneFor(i));
            call.niche.None? && call.templateType != "viral_hook" && call.templateType !in HighConversionTemplates
  {
  }

  /** The call the batch evidently means: template type "viral_hook", the niche in the niche position. */
  function ContentRequest(topProduct: string, niche: string, tone: string): (call: ContentCall)
    ensures call.product == topProduct && call.tone == tone
    ensures call.templateType == "viral_hook" && call.templateType in HighConversionTemplates
    ensures call.niche == Some(niche) && call.trendingSlot.None?
  {
    ContentCall(topProduct, "viral_hook", tone, None, Some(niche))
  }

  /** What the generator does with a call: returns content (possibly empty) or throws. */
  datatype GenOutcome = Generated(content: string) | Threw(message: string)

  /** One entry of the batch's results; `error` is present exactly on the entries of failed niches. */
  datatype BatchItem = BatchItem(
    niche: string, product: string, template: string, tone: string, mentions: int,
    platform: Option<string>, script: string, error: Option<string>)

  /**
   * The entry for one niche: on non-empty content a success entry with the
   * platform and the script; on empty content or a thrown error an entry
   * carrying the error and an empty script.
   */
  function ItemOf(niche: string, product: string, template: string, tone: string, mentions: int, platform: string, outcome: GenOutcome): (item: BatchItem)
    ensures item.niche == niche && item.product == product && item.template == template
    ensures item.tone == tone && item.mentions == mentions
    ensures item.error.None? <==> outcome.Generated? && outcome.content != ""
    ensures item.error.None? ==> item.platform == Some(platform) && item.script == outcome.content
    ensures item.error.Some? ==> item.platform.None? && item.script == ""
    ensures outcome.Threw? ==> item.error == Some(outcome.message)
  {
    match outcome
    case Generated(content) =>
      if content != "" then BatchItem(niche, product, template, tone, mentions, Some(platform), content, None)
      else BatchItem(niche, product, template, tone, mentions, None, "", Some("Content generation failed"))
    case Threw(message) =>
      BatchItem(niche, product, template, tone, mentions, None, "", Some(message))
  }

  predicate Succeeded(item: BatchItem) {
    item.error.None?
  }

  /** `successCount`: the number of entries without an error. */
  function SuccessCount(results: seq<BatchItem>): (n: nat)
    ensures n <= |results|
  {
    |Filter(results, Succeeded)|
  }

  /** Every entry succeeded exactly when the count is the number of entries, and none did exactly when it is zero. */
  lemma {:induction false} SuccessCountExtremes(results: seq<BatchItem>)
    ensures SuccessCount(results) == |results| <==> forall k :: 0 <= k < |results| ==> results[k].error.None?
    ensures SuccessCount(results) == 0 <==> forall k :: 0 <= k < |results| ==> results[k].error.Some?
  {
    if results != [] {
      SuccessCountExtremes(results[1..]);
      assert Filter(results, Succeeded) == (if Succeeded(results[0]) then [results[0]] else []) + Filter(results[1..], Succeeded);
      assert forall k :: 1 <= k < |results| ==> results[k] == results[1..][k - 1];
    }
  }

  /** The store: the trending products of a niche, at most `limit` of them, best first. */
  type Store = (string, nat) -> seq<Product>

  /**
   * The used keys once the first `n` niches have been processed, starting
   * from `used`: each niche adds at most its selected product's key.
   */
  function UsedAfter(niches: seq<string>, n: nat, used: set<string>, store: Store, generate: ContentCall -> GenOutcome): (r: set<string>)
    requires n <= |niches|
    ensures used <= r
  {
    if n == 0 then used
    else NicheStep(niches, n - 1, UsedAfter(niches, n - 1, used, store, generate), store, generate).1
  }

  /**
   * The entries of a whole batch: entry `k` is niche `k`'s, computed from
   * the used keys the niches before it left behind.
   */
  function Batch(niches: seq<string>, used: set<string>, store: Store, generate: ContentCall -> GenOutcome): (r: seq<BatchItem>)
    ensures |r| == |niches|
  {
    seq(|niches|, k requires 0 <= k < |niches| => NicheStep(niches, k, UsedAfter(niches, k, used, store, generate), store, generate).0)
  }

  /** One more niche: its entry and the used keys it leaves, from those the niches before it left. */
  lemma BatchStep(niches: seq<string>, used: set<string>, store: Store, generate: ContentCall -> GenOutcome, i: nat)
    requires i < |niches|
    ensures var step := NicheStep(niches, i, UsedAfter(niches, i, used, store, generate), store, generate);
            Batch(niches, used, store, generate)[i] == step.0 && UsedAfter(niches, i + 1, used, store, generate) == step.1
  {
  }

  /**
   * Entry `k` of a batch belongs to niche `k` and carries that position's
   * template, tone and, when it succeeded, platform.
   */
  lemma BatchEntries(niches: seq<string>, used: set<string>, store: Store, generate: ContentCall -> GenOutcome)
    ensures var r := Batch(niches, used, store, generate);
      forall k :: 0 <= k < |r| ==>
        r[k].niche == niches[k] && r[k].template == TemplateFor(k) && r[k].tone == ToneFor(k) &&
        (r[k].platform.Some? ==> r[k].platform.value == PlatformFor(k))
  {
  }

  /**
   * The niche at position `i`: select a product, fall back for its title and
   * mentions, generate, and build the entry; also the used keys afterwards,
   * which gain at most the one selected key.
   */
  function NicheStep(niches: seq<string>, i: nat, used: set<string>, store: Store, generate: ContentCall -> GenOutcome): (r: (BatchItem, set<string>))
    requires i < |niches|
    ensures r.0.niche == niches[i] && r.0.template == TemplateFor(i) && r.0.tone == ToneFor(i)
    ensures r.0.platform.Some? ==> r.0.platform.value == PlatformFor(i)
    ensures used <= r.1
  {
    var niche := niches[i];
    var ps := store(niche, ProductsPerNiche);
    var k := FirstUnused(ps, niche, used);
    var selected := if k.Some? then Some(ps[k.value]) else None;
    var used' := if k.Some? then used + {ProductKey(ps[k.value], niche)} else used;
    var topProduct := TopProduct(selected, ps, niche);
    var outcome := generate(ContentRequest(topProduct, niche, ToneFor(i)));
    var item := ItemOf(niche, topProduct, TemplateFor(i), ToneFor(i), Mentions(selected, ps), PlatformFor(i), outcome);
    assert k.Some? ==> used' - used <= {ProductKey(ps[k.value], niche)};
    (item, used')
  }

  /** What the batch handler answers. */
  datatype BatchReply =
    | Forbidden(error: string, reason: string, source: string)
    | Done(results: seq<BatchItem>, totalNiches: nat, successCount: nat)

  /** The process-wide record of used product keys, shared by all batches. */
  class Batcher {
    var usedProducts: set<string>

    constructor ()
      ensures usedProducts == {}
    {
      usedProducts := {};
    }

    /**
     * The selection loop: the first listed product whose key is unused is
     * selected and exactly its key is recorded; when there is none, nothing
     * is selected and nothing is recorded.
     */
    method SelectProduct(niche: string, ps: seq<Product>) returns (selected: Option<Product>)
      modifies this
      ensures var k := FirstUnused(ps, niche, old(usedProducts));
              selected == (if k.Some? then Some(ps[k.value]) else None)
      ensures selected.Some? ==> usedProducts == old(usedProducts) + {ProductKey(selected.value, niche)}
      ensures selected.None? ==> usedProducts == old(usedProducts)
    {
      var i := 0;
      while i < |ps|
        invariant 0 <= i <= |ps|
        invariant usedProducts == old(usedProducts)
        invariant forall j :: 0 <= j < i ==> ProductKey(ps[j], niche) in usedProducts
      {
        var key := ProductKey(ps[i], niche);
        if key !in usedProducts {
          usedProducts := usedProducts + {key};
          FirstUnusedAt(ps, niche, old(usedProducts), i);
          return Some(ps[i]);
        }
        i := i + 1;
      }
      return None;
    }

    /**
     * One pass of the loop body for the niche at position `i`: select a
     * product, fall back for its title and mentions, generate with the
     * position's tone, and build the entry.
     */
    method ProcessNiche(niches: seq<string>, i: nat, store: Store, generate: ContentCall -> GenOutcome) returns (item: BatchItem)
      requires i < |niches|
      modifies this
      ensures (item, usedProducts) == NicheStep(niches, i, old(usedProducts), store, generate)
    {
      var niche := niches[i];
      var template := TemplateFor(i);
      var tone := ToneFor(i);
      var nicheProducts := store(niche, ProductsPerNiche);
      var selected := SelectProduct(niche, nicheProducts);
      var topProduct := TopProduct(selected, nicheProducts, niche);
      var mentions := Mentions(selected, nicheProducts);
      var platform := PlatformFor(i);
      var outcome := generate(ContentRequest(topProduct, niche, tone));
      item := ItemOf(niche, topProduct, template, tone, mentions, platform, outcome);
    }

    /**
     * The loop over the niches: each niche in order gets one entry, and the
     * used keys advance as the niches select products.
     */
    method RunNiches(niches: seq<string>, store: Store, generate: ContentCall -> GenOutcome) returns (results: seq<BatchItem>)
      modifies this
      ensures results == Batch(niches, old(usedProducts), store, generate)
      ensures usedProducts == UsedAfter(niches, |niches|, old(usedProducts), store, generate)
    {
      results := [];
      ghost var batch := Batch(niches, old(usedProducts), store, generate);
      for i := 0 to |niches|
        invariant usedProducts == UsedAfter(niches, i, old(usedProducts), store, generate)
        invariant results == batch[..i]
      {
        var item := ProcessNiche(niches, i, store, generate);
        BatchStep(niches, old(usedProducts), store, generate, i);
        PrefixExtend(batch, i);
        results := results + [item];
      }
      PrefixAll(batch);
    }

    /**
     * `generateDailyBatch`: a blocked verdict answers 403 with its reason and
     * source and processes nothing; otherwise every daily niche is processed
     * in order and the answer counts the entries without an error.
     */
    method GenerateDailyBatch(validation: Verdict, store: Store, generate: ContentCall -> GenOutcome) returns (reply: BatchReply)
      modifies this
      ensures validation.Blocked? ==> reply == Forbidden("Daily batch generation blocked by security safeguards", validation.reason, validation.source)
      ensures validation.Blocked? ==> usedProducts == old(usedProducts)
      ensures validation.Allowed? ==>
        var batch := Batch(DailyNiches, old(usedProducts), store, generate);
        reply == Done(batch, |DailyNiches|, SuccessCount(batch)) &&
        usedProducts == UsedAfter(DailyNiches, |DailyNiches|, old(usedProducts), store, generate)
      ensures old(usedProducts) <= usedProducts
    {
      if validation.Blocked? {
        return Forbidden("Daily batch generation blocked by security safeguards", validation.reason, validation.source);
      }
      var results := RunNiches(DailyNiches, store, generate);
      reply := Done(results, |DailyNiches|, SuccessCount(results));
    }
  }

  /** `FirstUnused` names position `i` when the products before it are used and it is not. */
  lemma {:induction false} FirstUnusedAt(ps: seq<Product>, niche: string, used: set<string>, i: nat)
    requires i < |ps| && ProductKey(ps[i], niche) !in used
    requires forall j :: 0 <= j < i ==> ProductKey(ps[j], niche) in used
    ensures FirstUnused(ps, niche, used) == Some(i)
  {
    var r := FirstUnused(ps, niche, used);
    assert r.Some?;
    assert !(r.value < i);
    assert !(r.value > i);
  }

  /** Two batches in a row: the second starts from the keys the first recorded, so the record only grows. */
  method TwoBatches(b: Batcher, store: Store, generate: ContentCall -> GenOutcome) returns (first: BatchReply, second: BatchReply)
    modifies b
    ensures first.Done? && second.Done?
    ensures |first.results| == |second.results| == |DailyNiches|
    ensures old(b.usedProducts) <= UsedAfter(DailyNiches, |DailyNiches|, old(b.usedProducts), store, generate) <= b.usedProducts
  {
    first := b.GenerateDailyBatch(Allowed, store, generate);
    second := b.GenerateDailyBatch(Allowed, store, generate);
  }
}
