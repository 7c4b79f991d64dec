/**
 * The decision logic of the interactive generation endpoint (`POST /`):
 * request defaults and validation, the tone check, template resolution with
 * its fallbacks, the merged template list, the normalised cache key, the
 * cache-hit short-circuit, the model-fallback tiers, hashtag extraction and
 * the webhook rows. The language model, the template store, the AI template
 * selector and the platform-content service are oracle parameters.
 */
module GenerateContent {
  import opened Wrappers
  import opened Text
  import opened Collections
  import opened ContentCache

  // ---------------------------------------------------------------------
  // Hashtags: `text.match(/#[\w]+/g)`, each match without its `#`.
  // ---------------------------------------------------------------------

  predicate AllWord(s: string) {
    forall i :: 0 <= i < |s| ==> IsWordChar(s[i])
  }

  /** The longest prefix of `s` made of word characters. */
  function WordRun(s: string): (r: string)
    ensures IsPrefix(r, s) && AllWord(r)
    ensures |r| == |s| || !IsWordChar(s[|r|])
  {
    if s != [] && IsWordChar(s[0]) then [s[0]] + WordRun(s[1..]) else []
  }

  /**
   * The global match of `#\w+`: scanning left to right, a `#` followed by a
   * word character starts a match that runs as long as word characters do;
   * scanning resumes after the match.
   */
  function ExtractHashtags(text: string): (tags: seq<string>)
    ensures forall i :: 0 <= i < |tags| ==> |tags[i]| > 0 && AllWord(tags[i])
    decreases |text|
  {
    if text == [] then []
    else if text[0] == '#' && |text| > 1 && IsWordChar(text[1]) then
      var tag := WordRun(text[1..]);
      [tag] + ExtractHashtags(text[1 + |tag|..])
    else ExtractHashtags(text[1..])
  }

  /** A text without `#` has no hashtags. */
  lemma {:induction false} NoHashNoTags(text: string)
    requires '#' !in text
    ensures ExtractHashtags(text) == []
    decreases |text|
  {
    if text != [] {
      assert '#' !in text[1..];
      NoHashNoTags(text[1..]);
    }
  }

  /** Each tag written as `#tag` followed by a space. */
  function RenderHashtags(tags: seq<string>): string {
    if tags == [] then "" else "#" + tags[0] + " " + RenderHashtags(tags[1..])
  }

  /** A word run stops at the first non-word character. */
  lemma {:induction false} WordRunStops(t: string, c: char, rest: string)
    requires AllWord(t) && !IsWordChar(c)
    ensures WordRun(t + [c] + rest) == t
    decreases |t|
  {
    if t != [] {
      assert (t + [c] + rest)[1..] == t[1..] + [c] + rest;
      WordRunStops(t[1..], c, rest);
    }
  }

  /** Extraction recovers every rendered tag, in order. */
  lemma {:induction false} ExtractRenderRoundTrip(tags: seq<string>)
    requires forall i :: 0 <= i < |tags| ==> |tags[i]| > 0 && AllWord(tags[i])
    ensures ExtractHashtags(RenderHashtags(tags)) == tags
  {
    if tags != [] {
      var rest := RenderHashtags(tags[1..]);
      assert RenderHashtags(tags) == "#" + tags[0] + " " + rest;
      ExtractRenderStep(tags[0], rest);
      ExtractRenderRoundTrip(tags[1..]);
      assert tags == [tags[0]] + tags[1..];
    }
  }

  /** A rendered `#t ` in front of a text contributes exactly the tag `t`. */
  lemma ExtractRenderStep(t: string, rest: string)
    requires |t| > 0 && AllWord(t)
    ensures ExtractHashtags("#" + t + " " + rest) == [t] + ExtractHashtags(rest)
  {
    var text := "#" + t + " " + rest;
    assert WordRun(text[1..]) == t by {
      assert text[1..] == t + [' '] + rest;
      WordRunStops(t, ' ', rest);
    }
    assert text[1 + |t|..] == [' '] + rest;
    assert ExtractHashtags([' '] + rest) == ExtractHashtags(rest) by {
      assert ([' '] + rest)[1..] == rest;
    }
  }

  // ---------------------------------------------------------------------
  // Request validation (`generateContentSchema.safeParse`).
  // ---------------------------------------------------------------------

  datatype ContentType = Video | Photo
  datatype VideoLength = Thirty | FortyFive | Sixty
  {
    function Text(): string {
      match this
      case Thirty => "30"
      case FortyFive => "45"
      case Sixty => "60"
    }
  }

  /** The request body as received: an absent field is None. */
  datatype RawBody = RawBody(
    product: Option<string>,
    templateType: Option<string>,
    tone: Option<string>,
    niche: Option<string>,
    platforms: Option<seq<string>>,
    contentType: Option<string>,
    isVideoContent: Option<bool>,
    videoDuration: Option<string>,
    customHook: Option<string>,
    affiliateUrl: Option<string>,
    useSmartStyle: Option<bool>,
    userId: Option<int>)

  /** The validated data, with every default applied. */
  datatype Request = Request(
    product: string,
    templateType: string,
    tone: string,
    niche: string,
    platforms: seq<string>,
    contentType: ContentType,
    isVideoContent: bool,
    videoDuration: Option<VideoLength>,
    customHook: Option<string>,
    affiliateUrl: Option<string>,
    useSmartStyle: bool,
    userId: Option<int>)

  function ParseContentType(s: Option<string>): Option<ContentType> {
    if s.None? || s.value == "video" then Some(Video)
    else if s.value == "photo" then Some(Photo)
    else None
  }

  function ParseVideoLength(s: string): Option<VideoLength> {
    if s == "30" then Some(Thirty)
    else if s == "45" then Some(FortyFive)
    else if s == "60" then Some(Sixty)
    else None
  }

  /**
   * The schema: `product` is trimmed and must then be non-empty; a given
   * `platforms` list must be non-empty; `contentType` and `videoDuration`
   * must be among their literals. Absent fields take their defaults.
   */
  function ParseRequest(b: RawBody): (r: Option<Request>)
    ensures r.Some? <==>
      && b.product.Some? && Trim(b.product.value) != ""
      && (b.platforms.None? || |b.platforms.value| > 0)
      && ParseContentType(b.contentType).Some?
      && (b.videoDuration.None? || ParseVideoLength(b.videoDuration.value).Some?)
    ensures r.Some? ==>
      && r.value.product == Trim(b.product.value) && |r.value.product| > 0
      && r.value.templateType == b.templateType.GetOr("original")
      && r.value.tone == b.tone.GetOr("friendly")
      && r.value.niche == b.niche.GetOr("skincare")
      && r.value.platforms == b.platforms.GetOr(["Instagram"]) && |r.value.platforms| > 0
      && r.value.contentType == (if b.contentType == Some("photo") then Photo else Video)
      && r.value.isVideoContent == b.isVideoContent.GetOr(false)
      && r.value.useSmartStyle == b.useSmartStyle.GetOr(false)
  {
    if b.product.None? || Trim(b.product.value) == "" then None
    else if b.platforms.Some? && |b.platforms.value| == 0 then None
    else
      var contentType := ParseContentType(b.contentType);
      if contentType.None? then None
      else if b.videoDuration.Some? && ParseVideoLength(b.videoDuration.value).None? then None
      else
        var videoDuration := if b.videoDuration.Some? then ParseVideoLength(b.videoDuration.value) else None;
        Some(Request(
          Trim(b.product.value), b.templateType.GetOr("original"), b.tone.GetOr("friendly"),
          b.niche.GetOr("skincare"), b.platforms.GetOr(["Instagram"]), contentType.value,
          b.isVideoContent.GetOr(false), videoDuration, b.customHook, b.affiliateUrl,
          b.useSmartStyle.GetOr(false), b.userId))
  }

  /** A body with only `product` gets every default. */
  lemma DefaultsApply(product: string)
    requires Trim(product) != ""
    ensures var r := ParseRequest(RawBody(Some(product), None, None, None, None, None, None, None, None, None, None, None));
      && r.Some?
      && r.value.templateType == "original" && r.value.tone == "friendly" && r.value.niche == "skincare"
      && r.value.platforms == ["Instagram"] && r.value.contentType == Video
      && !r.value.isVideoContent && r.value.videoDuration.None? && !r.value.useSmartStyle
  {
  }

  // ---------------------------------------------------------------------
  // Tones and templates.
  // ---------------------------------------------------------------------

  /** `isValidTone`: the tone is one of the keys of the tone table. */
  predicate IsValidTone(tone: string, tones: seq<string>) {
    tone in tones
  }

  function ToneError(tone: string, tones: seq<string>): string {
    "Invalid tone \"" + tone + "\". Available: " + Join(tones, ", ")
  }

  /**
   * The prompt-template table: niche (or "default") to its template keys, in
   * key order. None when loading the table throws.
   */
  type TemplateTable = map<string, seq<string>>

  function KeysOf(t: TemplateTable, group: string): seq<string> {
    if group in t then t[group] else []
  }

  /**
   * `isValidTemplateType`: the template is a key of the niche's group or of
   * the default group; false when the table cannot be loaded.
   */
  predicate IsValidTemplateType(templateType: string, niche: string, loaded: Option<TemplateTable>) {
    && loaded.Some?
    && (templateType in KeysOf(loaded.value, niche) || templateType in KeysOf(loaded.value, "default"))
  }

  /** The keys of `keys` not in `present`, in order. */
  function Missing(keys: seq<string>, present: seq<string>): seq<string>
    decreases |keys|
  {
    if keys == [] then []
    else
      var before := Missing(keys[..|keys| - 1], present);
      var key := keys[|keys| - 1];
      if key in present then before else before + [key]
  }

  /** When nothing is present, every key is missing. */
  lemma {:induction false} MissingFromNothing(keys: seq<string>)
    ensures Missing(keys, []) == keys
    decreases |keys|
  {
    if keys != [] {
      MissingFromNothing(keys[..|keys| - 1]);
      assert keys == keys[..|keys| - 1] + [keys[|keys| - 1]];
    }
  }

  /** The reference definition of `getAvailableTemplateTypes`. */
  function AvailableTemplateTypes(niche: string, loaded: Option<TemplateTable>): seq<string> {
    if loaded.None? then []
    else AppendNew(AppendNew([], KeysOf(loaded.value, niche)), KeysOf(loaded.value, "default"))
  }

  /** On distinct keys the push loop appends exactly the missing ones. */
  lemma {:induction false} AppendNewIsMissing(acc: seq<string>, keys: seq<string>)
    requires Distinct(keys)
    ensures AppendNew(acc, keys) == acc + Missing(keys, acc)
    decreases |keys|
  {
    if keys != [] {
      var init := keys[..|keys| - 1];
      var key := keys[|keys| - 1];
      assert Distinct(init);
      AppendNewIsMissing(acc, init);
      AppendNewMembers(acc, init);
      assert key !in init;
    }
  }

  /** The merged list holds no duplicates. */
  lemma AvailableTemplateTypesDistinct(niche: string, loaded: Option<TemplateTable>)
    ensures Distinct(AvailableTemplateTypes(niche, loaded))
  {
    if loaded.Some? {
      var nicheKeys := KeysOf(loaded.value, niche);
      AppendNewDistinct([], nicheKeys);
      AppendNewDistinct(AppendNew([], nicheKeys), KeysOf(loaded.value, "default"));
    }
  }

  /** The merged list holds exactly the valid templates: none when the table cannot be loaded. */
  lemma AvailableTemplateTypesValid(niche: string, loaded: Option<TemplateTable>)
    ensures forall k :: k in AvailableTemplateTypes(niche, loaded) <==> IsValidTemplateType(k, niche, loaded)
  {
    if loaded.Some? {
      var nicheKeys := KeysOf(loaded.value, niche);
      AppendNewMembers([], nicheKeys);
      AppendNewMembers(AppendNew([], nicheKeys), KeysOf(loaded.value, "default"));
    }
  }

  /**
   * The groups' own keys being distinct, as an object's keys are, the merged
   * list is the niche keys in order followed by the default keys they lack.
   */
  lemma AvailableTemplateTypesOrder(niche: string, table: TemplateTable)
    requires Distinct(KeysOf(table, niche)) && Distinct(KeysOf(table, "default"))
    ensures AvailableTemplateTypes(niche, Some(table))
         == KeysOf(table, niche) + Missing(KeysOf(table, "default"), KeysOf(table, niche))
  {
    var nicheKeys := KeysOf(table, niche);
    AppendNewIsMissing([], nicheKeys);
    MissingFromNothing(nicheKeys);
    assert AppendNew([], nicheKeys) == [] + nicheKeys == nicheKeys;
    AppendNewIsMissing(nicheKeys, KeysOf(table, "default"));
  }

  /** The two `forEach` loops of `getAvailableTemplateTypes`. */
  method GetAvailableTemplateTypes(niche: string, loaded: Option<TemplateTable>) returns (all: seq<string>)
    ensures all == AvailableTemplateTypes(niche, loaded)
  {
    if loaded.None? {
      return [];
    }
    var nicheKeys := KeysOf(loaded.value, niche);
    var defaultKeys := KeysOf(loaded.value, "default");
    all := [];
    for i := 0 to |nicheKeys|
      invariant all == AppendNew([], nicheKeys[..i])
    {
      assert nicheKeys[..i + 1][..i] == nicheKeys[..i];
      if nicheKeys[i] !in all {
        all := all + [nicheKeys[i]];
      }
    }
    assert nicheKeys[..|nicheKeys|] == nicheKeys;
    ghost var afterNiche := all;
    for i := 0 to |defaultKeys|
      invariant all == AppendNew(afterNiche, defaultKeys[..i])
    {
      assert defaultKeys[..i + 1][..i] == defaultKeys[..i];
      if defaultKeys[i] !in all {
        all := all + [defaultKeys[i]];
      }
    }
    assert defaultKeys[..|defaultKeys|] == defaultKeys;
  }

  /** What the AI template selector answered; None when it threw. */
  datatype Selection = Selection(template: string, reasoning: string)

  /**
   * The template the request is served with. "surprise_me" asks the
   * selector, falling back to "influencer_caption"; any other template is
   * kept when valid, else replaced by the first available one, else by
   * "skincare_routine".
   */
  function ResolveTemplate(requested: string, niche: string, loaded: Option<TemplateTable>, selection: Option<Selection>): (r: string)
    ensures requested == "surprise_me" && selection.Some? ==> r == selection.value.template
    ensures requested == "surprise_me" && selection.None? ==> r == "influencer_caption"
    ensures requested != "surprise_me" ==> r == requested || r in AvailableTemplateTypes(niche, loaded) || r == "skincare_routine"
    ensures requested != "surprise_me" && !IsValidTemplateType(requested, niche, loaded) && |AvailableTemplateTypes(niche, loaded)| > 0
      ==> r == AvailableTemplateTypes(niche, loaded)[0]
  {
    if requested == "surprise_me" then
      (if selection.Some? then selection.value.template else "influencer_caption")
    else if IsValidTemplateType(requested, niche, loaded) then requested
    else
      var available := AvailableTemplateTypes(niche, loaded);
      if |available| > 0 then available[0] else "skincare_routine"
  }

  /**
   * Outside "surprise_me": the requested template survives exactly when it
   * is valid (or is the ultimate fallback itself and nothing is available),
   * and a replacement is always an existing template when one exists.
   */
  lemma ResolveTemplateProperties(requested: string, niche: string, loaded: Option<TemplateTable>, selection: Option<Selection>)
    requires requested != "surprise_me"
    ensures var r := ResolveTemplate(requested, niche, loaded, selection);
      && (r == requested <==>
            IsValidTemplateType(requested, niche, loaded)
            || (requested == "skincare_routine" && AvailableTemplateTypes(niche, loaded) == []))
      && (|AvailableTemplateTypes(niche, loaded)| > 0 ==> IsValidTemplateType(r, niche, loaded))
      && (var available := AvailableTemplateTypes(niche, loaded);
          !IsValidTemplateType(requested, niche, loaded) && |available| > 0 ==> r == available[0])
      && (AvailableTemplateTypes(niche, loaded) == [] && !IsValidTemplateType(requested, niche, loaded) ==> r == "skincare_routine")
  {
    AvailableTemplateTypesValid(niche, loaded);
    var available := AvailableTemplateTypes(niche, loaded);
    var r := ResolveTemplate(requested, niche, loaded, selection);
    if IsValidTemplateType(requested, niche, loaded) {
      assert r == requested;
    } else if |available| > 0 {
      assert r == available[0] && r in available;
      assert requested !in available;
    } else {
      assert r == "skincare_routine";
    }
  }

  // ---------------------------------------------------------------------
  // The cache key.
  // ---------------------------------------------------------------------

  datatype CacheParams = CacheParams(product: string, templateType: string, tone: string, niche: string, useSmartStyle: bool)

  /** `product.toLowerCase().trim()` on the already trimmed product. */
  function KeyProduct(raw: string): string {
    Trim(Lower(Trim(raw)))
  }

  function CacheParamsFor(req: Request, templateType: string): (k: CacheParams)
    ensures k.product == Lower(Trim(req.product))
    ensures k.templateType == templateType && k.tone == req.tone && k.niche == req.niche
    ensures k.useSmartStyle == req.useSmartStyle
  {
    LowerTrimCommute(req.product);
    CacheParams(Trim(Lower(req.product)), templateType, req.tone, req.niche, req.useSmartStyle)
  }

  /** The key product is the trimmed, lower-cased product. */
  lemma KeyProductIsLowerTrim(a: string)
    ensures KeyProduct(a) == Lower(Trim(a))
  {
    LowerTrimCommute(Trim(a));
    TrimIdempotent(a);
  }

  /** Products differing only in case share a cache entry. */
  lemma KeyProductIgnoresCase(a: string)
    ensures KeyProduct(Lower(a)) == KeyProduct(a)
  {
    KeyProductIsLowerTrim(a);
    KeyProductIsLowerTrim(Lower(a));
    LowerTrimCommute(a);
    LowerIdempotent(Trim(a));
  }

  /** Products differing only in surrounding white space share a cache entry. */
  lemma KeyProductIgnoresSpace(a: string)
    ensures KeyProduct(Trim(a)) == KeyProduct(a)
  {
    KeyProductIsLowerTrim(a);
    KeyProductIsLowerTrim(Trim(a));
    TrimIdempotent(a);
  }

  /** Raw products that agree after lower-casing and trimming share a cache entry. */
  lemma KeyProductNormalises(a: string, b: string)
    requires Trim(Lower(a)) == Trim(Lower(b))
    ensures KeyProduct(a) == KeyProduct(b)
  {
    KeyProductIsLowerTrim(a);
    KeyProductIsLowerTrim(b);
    LowerTrimCommute(a);
    LowerTrimCommute(b);
  }

  /** A parsed request's cache key carries its normalised product. */
  lemma RequestKeyProduct(b: RawBody, templateType: string)
    requires ParseRequest(b).Some?
    ensures CacheParamsFor(ParseRequest(b).value, templateType).product == KeyProduct(b.product.value)
  {
  }

  // ---------------------------------------------------------------------
  // Generation with model fallback.
  // ---------------------------------------------------------------------

  datatype FallbackLevel = Exact | Default | Generic

  datatype CachedContent = CachedContent(content: string, fallbackLevel: Option<FallbackLevel>, generatedAt: int)

  /** One call of the content generator: what it returned, or the error it threw. */
  datatype Attempt =
    | Produced(content: string, fallbackLevel: Option<FallbackLevel>, prompt: Option<string>, model: Option<string>, tokens: Option<int>)
    | Threw(status: Option<int>, code: Option<string>)

  datatype Generation = Generation(content: string, fallbackLevel: Option<FallbackLevel>, prompt: Option<string>, model: Option<string>, tokens: Option<int>)

  /** Content is used only when it is not blank. */
  predicate Usable(a: Attempt) {
    a.Produced? && Trim(a.content) != ""
  }

  /**
   * The error that reaches the catch block: a quota error only when the
   * generator itself threw one; empty content throws a plain error.
   */
  predicate IsQuotaError(a: Attempt) {
    a.Threw? && (a.status == Some(429) || a.code == Some("insufficient_quota"))
  }

  /**
   * The canned text served when generation fails, between its first
   * sparkle and its last tag: the template literal's pieces, joined.
   */
  function GenericBody(product: string, templateType: string, tone: string, niche: string): string {
    Join([product, " - ", Capitalize(templateType), " Content ✨\n\nThis ", product,
      " is a fantastic choice for your ", niche, " journey! With its exceptional quality and ", tone,
      " appeal, it's become a trending favorite.\n\nKey highlights:\n🌟 Perfect for ", niche,
      " enthusiasts\n💫 ", Capitalize(tone), " user experience\n✨ Trending among community members\n\nExperience the difference today! #",
      niche], "")
  }

  function GenericContent(product: string, templateType: string, tone: string, niche: string): string {
    Framed(GenericBody(product, templateType, tone, niche))
  }

  function Framed(body: string): string {
    "✨ " + body + " #trending"
  }

  function GenericGeneration(product: string, templateType: string, tone: string, niche: string): Generation {
    Generation(GenericContent(product, templateType, tone, niche), Some(Generic), Some("Fallback content for " + product), Some("fallback"), Some(0))
  }

  /** The framed text starts with a sparkle and ends with a letter, so trimming keeps all of it. */
  lemma FramedNotBlank(body: string)
    ensures Trim(Framed(body)) == Framed(body) != ""
  {
    var s := Framed(body);
    var tail := " #trending";
    assert s[0] == '✨';
    assert s[|s| - 1] == tail[|tail| - 1];
    assert TrimStart(s) == s;
    assert TrimEnd(s) == s;
  }

  /**
   * The generation tiers: gpt-4o first; its content if usable; after a quota
   * error (only), one retry with gpt-3.5-turbo, whose usable content is
   * recorded with that model; otherwise the generic text.
   */
  function GenerateWithFallback(first: Attempt, retry: Attempt, product: string, templateType: string, tone: string, niche: string): (g: Generation)
    ensures Usable(first) ==> g.content == first.content && g.model == first.model
    ensures !Usable(first) && !(IsQuotaError(first) && Usable(retry)) ==> g == GenericGeneration(product, templateType, tone, niche)
    ensures IsQuotaError(first) && Usable(retry) ==> g.content == retry.content && g.model == Some("gpt-3.5-turbo")
  {
    if Usable(first) then
      Generation(first.content, first.fallbackLevel, first.prompt, first.model, first.tokens)
    else if IsQuotaError(first) && Usable(retry) then
      Generation(retry.content, retry.fallbackLevel, retry.prompt, Some("gpt-3.5-turbo"), retry.tokens)
    else
      GenericGeneration(product, templateType, tone, niche)
  }

  /** Whatever the generator does, the content served is never blank. */
  lemma ContentNeverBlank(first: Attempt, retry: Attempt, product: string, templateType: string, tone: string, niche: string)
    ensures Trim(GenerateWithFallback(first, retry, product, templateType, tone, niche).content) != ""
  {
    var g := GenerateWithFallback(first, retry, product, templateType, tone, niche);
    if Usable(first) {
      assert g.content == first.content;
    } else if IsQuotaError(first) && Usable(retry) {
      assert g.content == retry.content;
    } else {
      GenericNotBlank(product, templateType, tone, niche);
    }
  }

  lemma GenericNotBlank(product: string, templateType: string, tone: string, niche: string)
    ensures Trim(GenericContent(product, templateType, tone, niche)) != ""
  {
    FramedNotBlank(GenericBody(product, templateType, tone, niche));
  }

  /** Without a quota error the retry is never consulted. */
  lemma RetryOnlyAfterQuotaError(first: Attempt, retry1: Attempt, retry2: Attempt, product: string, templateType: string, tone: string, niche: string)
    requires !IsQuotaError(first)
    ensures GenerateWithFallback(first, retry1, product, templateType, tone, niche)
         == GenerateWithFallback(first, retry2, product, templateType, tone, niche)
  {
  }

  /** Empty content is a plain error: no retry, straight to the generic text. */
  lemma EmptyContentSkipsRetry(first: Attempt, retry: Attempt, product: string, templateType: string, tone: string, niche: string)
    requires first.Produced? && Trim(first.content) == ""
    ensures GenerateWithFallback(first, retry, product, templateType, tone, niche) == GenericGeneration(product, templateType, tone, niche)
  {
    assert !Usable(first) && !IsQuotaError(first);
  }

  // ---------------------------------------------------------------------
  // Webhook rows.
  // ---------------------------------------------------------------------

  datatype Caption = Caption(caption: string, postInstructions: string)

  /** The platform-content service's answer. */
  datatype PlatformContent = PlatformContent(socialCaptions: Option<seq<(string, Caption)>>, videoScript: string, photoDescription: string)

  datatype WebhookRow = WebhookRow(
    platform: string,
    contentType: ContentType,
    caption: string,
    postInstructions: string,
    videoScript: Option<string>,
    photoDescription: Option<string>,
    product: string,
    niche: string,
    tone: string,
    templateType: string,
    hashtags: seq<string>,
    mediaUrl: Option<string>,
    scheduledTime: Option<string>,
    makeWebhookReady: bool)

  /** `s || null`. */
  function OrNull(s: string): Option<string> {
    if s == "" then None else Some(s)
  }

  /** The reference definition of the webhook rows: one per platform caption, in caption order. */
  function WebhookRows(platformContent: Option<PlatformContent>, contentType: ContentType, product: string, niche: string, tone: string, templateType: string): seq<WebhookRow> {
    if platformContent.None? || platformContent.value.socialCaptions.None? then []
    else
      var pc := platformContent.value;
      var captions := pc.socialCaptions.value;
      seq(|captions|, i requires 0 <= i < |captions| =>
        WebhookRow(captions[i].0, contentType, captions[i].1.caption, captions[i].1.postInstructions,
          OrNull(pc.videoScript), OrNull(pc.photoDescription), product, niche, tone, templateType,
          ExtractHashtags(captions[i].1.caption), None, None, true))
  }

  /**
   * One row per platform caption, in caption order, each ready for the
   * webhook with no media or schedule and the caption's hashtags.
   */
  method BuildWebhookData(platformContent: Option<PlatformContent>, contentType: ContentType, product: string, niche: string, tone: string, templateType: string)
    returns (rows: seq<WebhookRow>)
    ensures rows == WebhookRows(platformContent, contentType, product, niche, tone, templateType)
    ensures platformContent.None? || platformContent.value.socialCaptions.None? ==> rows == []
    ensures platformContent.Some? && platformContent.value.socialCaptions.Some? ==>
      var pc := platformContent.value;
      var captions := pc.socialCaptions.value;
      && |rows| == |captions|
      && forall i :: 0 <= i < |rows| ==>
           && rows[i].platform == captions[i].0 && rows[i].caption == captions[i].1.caption
           && rows[i].postInstructions == captions[i].1.postInstructions
           && rows[i].hashtags == ExtractHashtags(captions[i].1.caption)
           && rows[i].videoScript == OrNull(pc.videoScript) && rows[i].photoDescription == OrNull(pc.photoDescription)
           && rows[i].contentType == contentType && rows[i].product == product && rows[i].niche == niche
           && rows[i].tone == tone && rows[i].templateType == templateType
           && rows[i].mediaUrl.None? && rows[i].scheduledTime.None? && rows[i].makeWebhookReady
  {
    rows := [];
    if platformContent.None? || platformContent.value.socialCaptions.None? {
      return;
    }
    var pc := platformContent.value;
    var captions := pc.socialCaptions.value;
    for i := 0 to |captions|
      invariant |rows| == i
      invariant forall j :: 0 <= j < i ==>
        rows[j] == WebhookRow(captions[j].0, contentType, captions[j].1.caption, captions[j].1.postInstructions,
          OrNull(pc.videoScript), OrNull(pc.photoDescription), product, niche, tone, templateType,
          ExtractHashtags(captions[j].1.caption), None, None, true)
    {
      var (platform, caption) := captions[i];
      rows := rows + [WebhookRow(platform, contentType, caption.caption, caption.postInstructions,
        OrNull(pc.videoScript), OrNull(pc.photoDescription), product, niche, tone, templateType,
        ExtractHashtags(caption.caption), None, None, true)];
    }
  }

  // ---------------------------------------------------------------------
  // The handler.
  // ---------------------------------------------------------------------

  datatype VideoResult = VideoResult(script: string, caption: string, hashtags: seq<string>, estimatedDuration: int)

  /** What the external services answer for this request. */
  datatype Services = Services(
    tones: seq<string>,
    templates: Option<TemplateTable>,
    selection: Option<Selection>,
    firstAttempt: Attempt,
    retryAttempt: Attempt,
    video: Option<VideoResult>,
    platformContent: Option<PlatformContent>)

  datatype Reply =
    | Rejected(status: int, error: string)
    | FromCache(content: string, summary: string, tags: seq<string>, product: string, templateType: string,
                tone: string, niche: string, cachedLevel: FallbackLevel)
    | VideoContent(videoScript: string, videoCaption: string, hashtags: seq<string>, estimatedDuration: int,
                   summary: string, tags: seq<string>, product: string, tone: string, niche: string, videoDuration: string)
    | Fresh(content: string, summary: string, tags: seq<string>, product: string, templateType: string,
            tone: string, niche: string, fallbackLevel: Option<FallbackLevel>, model: string,
            platforms: seq<string>, contentType: ContentType, webhookData: seq<WebhookRow>,
            surpriseMeReasoning: Option<string>, affiliateUrl: Option<string>, customHook: Option<string>)

  /** `model || "gpt-4o"`. */
  function ModelOrDefault(model: Option<string>): string {
    if model.Some? && model.value != "" then model.value else "gpt-4o"
  }

  predicate WantsVideo(req: Request) {
    (req.isVideoContent || req.contentType == Video) && req.videoDuration.Some?
  }

  /**
   * The template resolution steps of the handler, and the selector's
   * reasoning when "surprise_me" was answered.
   */
  method ChooseTemplate(req: Request, services: Services) returns (templateType: string, reasoning: string)
    ensures templateType == ResolveTemplate(req.templateType, req.niche, services.templates, services.selection)
    ensures reasoning == if req.templateType == "surprise_me" && services.selection.Some? then services.selection.value.reasoning else ""
  {
    templateType := req.templateType;
    reasoning := "";
    if req.templateType == "surprise_me" {
      if services.selection.Some? {
        templateType := services.selection.value.template;
        reasoning := services.selection.value.reasoning;
      } else {
        templateType := "influencer_caption";
      }
    } else if !IsValidTemplateType(req.templateType, req.niche, services.templates) {
      var available := GetAvailableTemplateTypes(req.niche, services.templates);
      templateType := if |available| > 0 then available[0] else "skincare_routine";
    }
  }

  /** The template a parsed request is served with. */
  function ServedTemplate(req: Request, services: Services): string {
    ResolveTemplate(req.templateType, req.niche, services.templates, services.selection)
  }

  /** The webhook rows of a fresh reply: the platform captions are asked for only when platforms are given. */
  function WebhookFor(req: Request, services: Services, templateType: string): seq<WebhookRow> {
    WebhookRows(if |req.platforms| > 0 then services.platformContent else None,
      req.contentType, req.product, req.niche, req.tone, templateType)
  }

  /** The cache serves `key` when its entry is stored, unexpired and has content. */
  predicate ServesFromCache(cache: Cache<CacheParams, CachedContent>, key: CacheParams, now: int)
    reads cache
  {
    cache.Live(key, now) && cache.entries[key].value.content != ""
  }

  /**
   * The handler after a cache miss. A video request with a duration gets the
   * video generator's answer, or a 500 when it fails, and writes nothing.
   * Otherwise the content comes from the fallback tiers, is never blank, and
   * is cached under `key` with the current time.
   */
  method ServeMiss(cache: Cache<CacheParams, CachedContent>, req: Request, templateType: string, reasoning: string,
                   key: CacheParams, services: Services, now: int)
    returns (reply: Reply)
    requires cache.Valid()
    modifies cache
    ensures cache.Valid()
    ensures WantsVideo(req) ==> cache.entries == old(cache.entries) && cache.order == old(cache.order)
    ensures WantsVideo(req) && services.video.None? ==>
      reply == Rejected(500, "Video content generation failed. Please try again.")
    ensures WantsVideo(req) && services.video.Some? ==>
      var v := services.video.value;
      && reply.VideoContent?
      && reply.videoScript == v.script && reply.videoCaption == v.caption && reply.hashtags == v.hashtags
      && reply.estimatedDuration == v.estimatedDuration && reply.videoDuration == req.videoDuration.value.Text()
      && reply.product == req.product && reply.tone == req.tone && reply.niche == req.niche
    ensures !WantsVideo(req) ==>
      var g := GenerateWithFallback(services.firstAttempt, services.retryAttempt, req.product, templateType, req.tone, req.niche);
      && reply.Fresh?
      && reply.content == g.content && reply.fallbackLevel == g.fallbackLevel && reply.model == ModelOrDefault(g.model)
      && reply.templateType == templateType && reply.product == req.product && reply.tone == req.tone && reply.niche == req.niche
      && reply.platforms == req.platforms && reply.contentType == req.contentType
      && reply.webhookData == WebhookFor(req, services, templateType)
      && Trim(reply.content) != ""
      && cache.entries == AfterSet(old(cache.entries), old(cache.order), cache.maxSize, key,
           Entry(CachedContent(g.content, g.fallbackLevel, now), now))
      && cache.order == OrderAfterSet(old(cache.entries), old(cache.order), cache.maxSize, key)
  {
    if WantsVideo(req) {
      var length := req.videoDuration.value.Text();
      if services.video.None? {
        return Rejected(500, "Video content generation failed. Please try again.");
      }
      var v := services.video.value;
      return VideoContent(v.script, v.caption, v.hashtags, v.estimatedDuration,
        length + "-second video content for " + req.product, [req.niche, "video", req.tone, length + "s"],
        req.product, req.tone, req.niche, length);
    }

    var g := GenerateWithFallback(services.firstAttempt, services.retryAttempt, req.product, templateType, req.tone, req.niche);
    ContentNeverBlank(services.firstAttempt, services.retryAttempt, req.product, templateType, req.tone, req.niche);
    var platformContent := if |req.platforms| > 0 then services.platformContent else None;
    cache.Set(key, CachedContent(g.content, g.fallbackLevel, now), now);
    var webhookData := BuildWebhookData(platformContent, req.contentType, req.product, req.niche, req.tone, templateType);
    var model := ModelOrDefault(g.model);
    reply := Fresh(g.content, "Fresh " + templateType + " content for " + req.product + " (" + req.tone + " tone)",
      [req.niche, templateType, req.tone, model], req.product, templateType, req.tone, req.niche,
      g.fallbackLevel, model, req.platforms, req.contentType, webhookData,
      if reasoning != "" then Some(reasoning) else None,
      OrNull(req.affiliateUrl.GetOr("")), OrNull(req.customHook.GetOr("")));
  }

  /**
   * The POST handler, from validation to the reply. A 400 generates
   * nothing. For a valid request the template is resolved, and a live entry
   * with content under the normalised key is served as it is, its level
   * defaulting to `Exact`; on a miss the handler goes on as `ServeMiss` says.
   */
  method HandleGenerate(cache: Cache<CacheParams, CachedContent>, body: RawBody, services: Services, now: int)
    returns (reply: Reply)
    requires cache.Valid()
    modifies cache
    ensures cache.Valid()
    ensures ParseRequest(body).None? ==>
      reply == Rejected(400, "Invalid request parameters") && cache.entries == old(cache.entries)
    ensures ParseRequest(body).Some? && !IsValidTone(ParseRequest(body).value.tone, services.tones) ==>
      && reply == Rejected(400, ToneError(ParseRequest(body).value.tone, services.tones))
      && cache.entries == old(cache.entries)
    ensures ParseRequest(body).Some? && IsValidTone(ParseRequest(body).value.tone, services.tones) ==>
      var req := ParseRequest(body).value;
      var templateType := ServedTemplate(req, services);
      var key := CacheParamsFor(req, templateType);
      var hit := old(ServesFromCache(cache, key, now));
      var g := GenerateWithFallback(services.firstAttempt, services.retryAttempt, req.product, templateType, req.tone, req.niche);
      && (reply.FromCache? <==> hit)
      && (hit ==>
            && reply.content == old(cache.entries)[key].value.content
            && reply.cachedLevel == old(cache.entries)[key].value.fallbackLevel.GetOr(Exact)
            && reply.templateType == templateType && reply.product == req.product
            && cache.entries == old(cache.entries) && cache.order == old(cache.order))
      && (!hit && WantsVideo(req) ==>
            if services.video.None? then reply == Rejected(500, "Video content generation failed. Please try again.")
            else
              var v := services.video.value;
              && reply.VideoContent?
              && reply.videoScript == v.script && reply.videoCaption == v.caption && reply.hashtags == v.hashtags
              && reply.estimatedDuration == v.estimatedDuration && reply.videoDuration == req.videoDuration.value.Text()
              && reply.product == req.product && reply.tone == req.tone && reply.niche == req.niche)
      && (!hit && !WantsVideo(req) ==>
            && reply.Fresh? && reply.templateType == templateType
            && reply.content == g.content && reply.fallbackLevel == g.fallbackLevel && reply.model == ModelOrDefault(g.model)
            && reply.webhookData == WebhookFor(req, services, templateType)
            && Trim(reply.content) != ""
            && cache.entries == AfterSet(old(cache.entries), old(cache.order), cache.maxSize, key,
                 Entry(CachedContent(g.content, g.fallbackLevel, now), now))
            && cache.order == OrderAfterSet(old(cache.entries), old(cache.order), cache.maxSize, key))
    ensures reply.FromCache? ==> cache.entries == old(cache.entries) && reply.content != ""
    ensures reply.VideoContent? || reply.Rejected? ==>
      forall k :: k in cache.entries ==> k in old(cache.entries) && cache.entries[k] == old(cache.entries)[k]
  {
    var parsed := ParseRequest(body);
    if parsed.None? {
      return Rejected(400, "Invalid request parameters");
    }
    var req := parsed.value;
    if !IsValidTone(req.tone, services.tones) {
      return Rejected(400, ToneError(req.tone, services.tones));
    }
    var templateType, surpriseMeReasoning := ChooseTemplate(req, services);

    var key := CacheParamsFor(req, templateType);
    ghost var before, beforeOrder := cache.entries, cache.order;
    var cached := cache.Get(key, now);
    if cached.Some? && cached.value.content != "" {
      return FromCache(cached.value.content, templateType + " content for " + req.product + " (" + req.tone + " tone)",
        [req.niche, templateType, req.tone, "cached"], req.product, templateType, req.tone, req.niche,
        cached.value.fallbackLevel.GetOr(Exact));
    }
    ghost var afterGet := cache.entries;
    reply := ServeMiss(cache, req, templateType, surpriseMeReasoning, key, services, now);
    if !WantsVideo(req) && key in before && afterGet != before {
      ghost var g := GenerateWithFallback(services.firstAttempt, services.retryAttempt, req.product, templateType, req.tone, req.niche);
      PurgeThenSet(before, beforeOrder, cache.maxSize, key, Entry(CachedContent(g.content, g.fallbackLevel, now), now));
    }
  }
}
