# Verified model of a marketing-content generator's core

The system is a web application that produces social-media marketing
content (captions, video scripts) for trending products with a language
model. This project models five parts of it in Dafny and proves properties
of the model:

- **Scheduled bulk generation** (`server/api/scheduled-bulk-generation.ts`).
  Users keep scheduled jobs. Each active job has exactly one cron task in
  the process-wide `activeCronJobs` map. A per-job execution lock keeps the
  ticks of one job from overlapping. A safeguard gate decides whether a run
  may go ahead. The executor records `totalRuns`, `consecutiveFailures`,
  `lastError` and `nextRunAt` on the job's row. There are HTTP handlers for
  create, update, delete, trigger, emergency stop, status and start-up
  initialisation. These are in modules `ScheduledJobs` (rows, clock,
  payload, bookkeeping) and `CronLifecycle` (class `Scheduler`, whose fields
  are the two maps, the job table and the id serial).
- **Interactive generation endpoint** (`server/api/generateContent.ts`),
  in module `GenerateContent`, with the cache in module `ContentCache`:
  - validation with defaults;
  - the tone check;
  - template resolution, with "surprise me" and its fallbacks, and the
    merged list of available templates;
  - the normalised cache key and the 24-hour, 500-entry cache;
  - the short-circuit for video content;
  - the gpt-4o → gpt-3.5-turbo → generic-text fallback tiers;
  - hashtag extraction and the webhook rows.
- **Trending picks page** (`client/src/pages/TrendingAIPicks.tsx`), in
  module `TrendingPicks`:
  - mention formatting, and freshness within the last 24 hours;
  - the sorted niche options;
  - the chain of filters and the stable descending sort;
  - favourites, grouping by niche, and the selection toggles.
- **Rating panel** (`client/src/components/ContentRating.tsx`), in module
  `ContentRating`:
  - the five scores and the note, as class `RatingPanel`;
  - badge thresholds and the rounded mean;
  - the record loaded from the server and the payload posted on save.
- **Daily batch** (`server/api/daily-batch-backup.ts`), in module
  `DailyBatch`:
  - one generation per niche, with a template, tone and platform picked
    by position;
  - product selection that skips products used by earlier batches. The
    used-product set is the field of class `Batcher`, which survives from
    one batch to the next.

`Wrappers`, `Collections` and `Text` hold shared helpers: Option, sequence
filters, distinctness, trimming and lower-casing.

Several things are parameters, because they are I/O, clocks or code that
is not here:
- the safeguard module's answer;
- the content generator;
- the unified-generator reply;
- the template store and the AI template selector;
- the platform-content service;
- the trending-product store;
- the current time.

Times are integer milliseconds. A JavaScript number in the rating panel is
an integer or NaN.

Two behaviours of the code are kept as written:
- a cron tick executes the job object captured when its task was
  installed, not the current row;
- the start-up race re-check in `startCronJob` cannot fire when each
  handler is one atomic step.

## Model

| member | source | states |
|---|---|---|
| ScheduledJobs.CalculateNextRunTime | server/api/scheduled-bulk-generation.ts:317-330 | For a well-formed time of day, the next run lies strictly after now and at most one day later, at exactly that clock time. |
| ScheduledJobs.NextRunHasScheduledClockTime | server/api/scheduled-bulk-generation.ts:317-330 | The next run falls at the scheduled hours and minutes, with zero seconds and milliseconds. |
| ScheduledJobs.NextRunIgnoresTimezone | server/api/scheduled-bulk-generation.ts:317-330 | The timezone argument never changes the result. |
| ScheduledJobs.NextRunTodayOrTomorrow | server/api/scheduled-bulk-generation.ts:322-327 | 09:00 asked at 08:00 is today at 09:00. Asked at 09:01 it is tomorrow at 09:00. |
| ScheduledJobs.BuildPayload | server/api/scheduled-bulk-generation.ts:461-478 | The payload is in automated mode. It carries the job's niches, tones, templates and platforms, its four option flags, affiliate id, webhook URL and webhook switch, and its id, user and name. The AI model is the job's, or "claude" when that is empty. |
| ScheduledJobs.CronExpression | server/api/scheduled-bulk-generation.ts:372-374 | The expression is the minutes, a space, the hours, then " * * *": it fires every day at that time. |
| ScheduledJobs.ExecutionBookkeeping | server/api/scheduled-bulk-generation.ts:430-458 | Case by case:<br>a block adds one to the failure streak and leaves `totalRuns` and `nextRunAt` alone;<br>an allowed run adds one to `totalRuns` and recomputes `nextRunAt`;<br>a success clears the streak and the error;<br>a failure sets the streak to the snapshot's value plus one and records the message. |
| ScheduledJobs.ExecutedRow | server/api/scheduled-bulk-generation.ts:430-458 | One execution never changes the job's id, owner, configuration or creation time, and always stamps the last run with the current time. |
| ScheduledJobs.FailuresAreRecorded | server/api/scheduled-bulk-generation.ts:504-516 | A run failed exactly when the row ends with an error message, and that message is the one rethrown. |
| ScheduledJobs.SnapshotRunsUndercount | server/api/scheduled-bulk-generation.ts:378-398 | As written: however many runs a cron task makes from its install-time snapshot, `totalRuns` and the failure streak never pass the snapshot's value plus one. |
| ScheduledJobs.TwoFailingSnapshotRunsCountOnce | server/api/scheduled-bulk-generation.ts:439 | Two blocked runs of one installation leave a failure streak of 1, not 2. |
| ScheduledJobs.CurrentRowRunsCount | server/api/scheduled-bulk-generation.ts:449-516 | Executing the current row each time:<br>k failing runs add k to the streak and leave the last error;<br>k allowed runs add k to `totalRuns`;<br>a success resets the streak. |
| CronLifecycle.UpdatedRow | server/api/scheduled-bulk-generation.ts:197-203 | An update writes the patched configuration and `updatedAt`. It recomputes `nextRunAt` only when a schedule time is given, with the zone defaulting to America/New_York. Counters, last run and last error are kept. |
| CronLifecycle.StopEach | server/api/scheduled-bulk-generation.ts:105-116 | The reported count is the number of tasks whose stop and destroy did not throw. |
| CronLifecycle.StatusEntries | server/api/scheduled-bulk-generation.ts:163-170 | One entry per registered task, with distinct ids, and each entry carries that task's flags. |
| CronLifecycle.DistinctJobIdsCount | server/api/scheduled-bulk-generation.ts:172-175 | Entries with pairwise different ids list as many ids as there are entries. |
| CronLifecycle.Scheduler.StopAndDestroyCronJob | server/api/scheduled-bulk-generation.ts:14-35 | Afterwards neither the cron-task map nor the lock map has the id, whether or not a task existed. Nothing else changes. |
| CronLifecycle.Scheduler.StartCronJob | server/api/scheduled-bulk-generation.ts:333-411 | An inactive job changes nothing. Otherwise the lock is cleared, and the cron task is removed if the safeguard blocks. If it allows, exactly one task is installed for this job object. |
| CronLifecycle.Scheduler.constructor | server/api/scheduled-bulk-generation.ts:7-11 | The scheduler starts from the stored rows with no cron tasks and no execution locks, and satisfies its invariant. |
| CronLifecycle.Scheduler.StopAllCronJobs | server/api/scheduled-bulk-generation.ts:101-123 | The cron-task map ends empty, and the count is the tasks that stopped cleanly, at most the number registered. |
| CronLifecycle.Scheduler.EmergencyStopAllCronJobs | server/api/scheduled-bulk-generation.ts:126-158 | The same stop is answered with the clean count, which is 0 when no task was registered. Locks and rows are untouched. |
| CronLifecycle.Scheduler.GetActiveCronJobsStatus | server/api/scheduled-bulk-generation.ts:161-184 | The total equals the number of tasks and of entries. The entries list exactly the registered ids, once each. Nothing changes. |
| CronLifecycle.Scheduler.BeginTick | server/api/scheduled-bulk-generation.ts:383-388 | The lock is acquired exactly when it was not held, and then it is held. |
| CronLifecycle.Scheduler.EndTick | server/api/scheduled-bulk-generation.ts:395-396 | The lock is released. Nothing else changes. |
| CronLifecycle.Scheduler.ExecuteScheduledJob | server/api/scheduled-bulk-generation.ts:414-518 | The generator is called only when the safeguard allows, with the job's payload. The stored row with the job's id receives the bookkeeping computed from the passed job object. The outcome is the generator's verdict. |
| CronLifecycle.Scheduler.Tick | server/api/scheduled-bulk-generation.ts:378-398 | A held lock skips the tick and changes nothing. Otherwise the snapshot is executed, its error is caught, and the lock is released whatever the outcome. |
| CronLifecycle.Scheduler.TickCurrentRow | server/api/scheduled-bulk-generation.ts:378-398 | Corrected tick: as `Tick`, but it executes the row as currently stored. |
| CronLifecycle.Scheduler.CreateScheduledJob | server/api/scheduled-bulk-generation.ts:62-98 | A rejected body is a 500 and changes nothing. Otherwise the row gets the next serial id, zero counters and its first `nextRunAt`, and its task is started. An active row's lock is cleared; an inactive row leaves the locks unchanged. |
| CronLifecycle.Scheduler.UpdateScheduledJob | server/api/scheduled-bulk-generation.ts:187-236 | The cron task and lock go first, so even a 404 leaves no task. A found row is updated, and a task is reinstalled only if the updated row is active and allowed. |
| CronLifecycle.Scheduler.DeleteScheduledJob | server/api/scheduled-bulk-generation.ts:239-275 | The cron task and lock are always removed. The row is deleted when found, otherwise the answer is 404. |
| CronLifecycle.Scheduler.TriggerScheduledJob | server/api/scheduled-bulk-generation.ts:278-314 | The current row is executed without taking the lock. The answer is the result, a 500 on failure, or a 404 for a missing or foreign row. |
| CronLifecycle.OverlappingRuns | server/api/scheduled-bulk-generation.ts:278-314 | While a tick holds a job's lock, a second tick is skipped and sends nothing, but a manual trigger still runs the job and stamps its last run. Releasing the lock afterwards leaves it free. See also lines 383-398. |
| CronLifecycle.StartTwice | server/api/scheduled-bulk-generation.ts:333-411 | Starting the same active job twice leaves exactly one cron task for it, with every other task unchanged. |
| CronLifecycle.DeleteLeavesNoTrace | server/api/scheduled-bulk-generation.ts:239-275 | After a delete of the user's job the row is gone, the reply is 200, and the status lists no task for the id. See also lines 161-184. |
| CronLifecycle.Scheduler.InitializeScheduledJobs | server/api/scheduled-bulk-generation.ts:521-572 | A blocked start-up changes nothing. Otherwise every old task is gone and every active row has exactly one fresh task, or none if the runner's safeguard blocks. |
| ContentCache.Cache.Get | server/api/generateContent.ts:141-144 | A hit happens exactly when the key is stored and younger than the time-to-live. An expired entry is purged. The size bound is kept. |
| ContentCache.AfterSet | server/api/generateContent.ts:141-144 | The reference definition of the entries after a store: a stored key or a store with room takes the entry, otherwise the oldest insertion makes way for it. |
| ContentCache.Cache.Set | server/api/generateContent.ts:141-144 | The entries become `AfterSet` of the old ones: the entry is stored and becomes the newest. When a new key meets a full store, exactly the oldest entry is evicted first, so there are never more than 500 entries. The insertion order becomes `OrderAfterSet`: the key is the newest, and an evicted key leaves the front. |
| ContentCache.PurgeThenSet | server/api/generateContent.ts:263 | Storing a key (line 457) right after `get` purged its expired entry gives the same entries and the same insertion order as storing over that entry. |
| ContentCache.SetThenGet | server/api/generateContent.ts:457-461 | A value just stored is found. |
| ContentCache.ExpiresAfterTtl | server/api/generateContent.ts:141-144 | Once the time-to-live has passed, the lookup misses and the entry is gone. |
| GenerateContent.WordRun | server/api/generateContent.ts:17 | The word run is the longest prefix of word characters. |
| GenerateContent.ExtractHashtags | server/api/generateContent.ts:16-20 | Every extracted tag is a non-empty run of word characters. |
| GenerateContent.NoHashNoTags | server/api/generateContent.ts:16-20 | A text without `#` has no tags. |
| GenerateContent.ExtractRenderRoundTrip | server/api/generateContent.ts:16-20 | Writing tags as `#tag ` and extracting them gives back exactly those tags, in order. |
| GenerateContent.ParseRequest | server/api/generateContent.ts:54-69 | A body is accepted exactly when its trimmed product is non-empty, a given platform list is non-empty, and the content type and video duration are among their literals. Absent fields get their defaults. |
| GenerateContent.DefaultsApply | server/api/generateContent.ts:56-67 | A body with only a product gets "original", "friendly", "skincare", ["Instagram"], video, and both flags false. |
| GenerateContent.IsValidTone | server/api/generateContent.ts:94-96 | A tone is valid exactly when it is a key of the tone table (a predicate, used by `HandleGenerate`). |
| GenerateContent.IsValidTemplateType | server/api/generateContent.ts:72-92 | A template is valid exactly when it is a key of the niche's group or of the default group, and never when the table cannot be loaded (a predicate; its relation to the merged list is `AvailableTemplateTypesValid`). |
| GenerateContent.AvailableTemplateTypes | server/api/generateContent.ts:104-132 | The merged list: the niche's keys, then the default keys not yet present, empty when the table cannot be loaded (the reference definition; proved by `AvailableTemplateTypesDistinct`, `AvailableTemplateTypesValid` and `AvailableTemplateTypesOrder`). |
| GenerateContent.AppendNewIsMissing | server/api/generateContent.ts:114-125 | On distinct keys the push loop appends exactly the keys not already present, in order. |
| GenerateContent.AvailableTemplateTypesDistinct | server/api/generateContent.ts:104-132 | The merged template list has no duplicates. |
| GenerateContent.AvailableTemplateTypesValid | server/api/generateContent.ts:72-132 | A template is in the merged list exactly when `isValidTemplateType` accepts it, and the list is empty when the table cannot be loaded. |
| GenerateContent.AvailableTemplateTypesOrder | server/api/generateContent.ts:110-127 | The list is the niche's keys followed by the default keys the niche lacks. |
| GenerateContent.GetAvailableTemplateTypes | server/api/generateContent.ts:104-132 | The two `forEach` loops compute the merged list. |
| GenerateContent.ResolveTemplateProperties | server/api/generateContent.ts:192-207 | Outside "surprise me", the requested template survives exactly when it is valid, or when it is the ultimate fallback and nothing is available. An invalid request is replaced by the first available template, and by "skincare_routine" when none is available. |
| GenerateContent.ChooseTemplate | server/api/generateContent.ts:172-207 | The template is the resolved one. The selector's reasoning is kept only when the selector answered a "surprise me" request. |
| GenerateContent.ResolveTemplate | server/api/generateContent.ts:176-207 | "surprise_me" gives the selector's template when it answers, and "influencer_caption" when it fails. Any other request gives the requested template, an available one or "skincare_routine". An invalid one gives the first available template when there is one. |
| GenerateContent.CacheParamsFor | server/api/generateContent.ts:251-258 | The key's product is the trimmed, lower-cased product, whichever order the two steps are applied in. The key carries the served template, the tone, the niche and the smart-style flag, so smart-style and plain requests have separate entries. |
| GenerateContent.WantsVideo | server/api/generateContent.ts:294 | The video branch is taken when video content is asked for, by the flag or the content type, and a video duration is given (a predicate, used by `HandleGenerate` and `ServeMiss`). |
| GenerateContent.KeyProductIgnoresCase | server/api/generateContent.ts:252 | Products that differ only in case share a cache key. |
| GenerateContent.KeyProductIgnoresSpace | server/api/generateContent.ts:252 | Products that differ only in surrounding white space share a cache key. |
| GenerateContent.KeyProductNormalises | server/api/generateContent.ts:251-257 | Products equal after lower-casing and trimming share a cache key. |
| GenerateContent.RequestKeyProduct | server/api/generateContent.ts:251-260 | A parsed request's cache key carries the normalised product. |
| GenerateContent.GenerateWithFallback | server/api/generateContent.ts:336-433 | Usable first content is served with its model. After a quota error only, usable retry content is served as gpt-3.5-turbo. Anything else gets the generic text. |
| GenerateContent.ContentNeverBlank | server/api/generateContent.ts:336-433 | Whatever the generator does, the content served is never blank. |
| GenerateContent.FramedNotBlank | server/api/generateContent.ts:399-408 | The generic text starts with a sparkle and ends with "#trending", so trimming keeps all of it. |
| GenerateContent.RetryOnlyAfterQuotaError | server/api/generateContent.ts:370-415 | Without a quota error, the retry's behaviour cannot affect the result. |
| GenerateContent.EmptyContentSkipsRetry | server/api/generateContent.ts:361-364 | Blank first content goes straight to the generic text, with no retry. |
| GenerateContent.WebhookRows | server/api/generateContent.ts:523-544 | The reference definition of the webhook rows: one per platform caption, in caption order, none without captions. |
| GenerateContent.BuildWebhookData | server/api/generateContent.ts:523-544 | The loop computes `WebhookRows`. There is one row per platform caption, in order. Each row carries the caption, its instructions, its extracted hashtags and the request's fields, with no media and no schedule, ready for the webhook. There are no rows without captions. |
| GenerateContent.HandleGenerate | server/api/generateContent.ts:146-573 | Invalid bodies and unknown tones are 400s with their messages and leave the cache alone. For a parsed request with a valid tone, the reply comes from the cache exactly when the entry under the normalised key is live and non-empty; it then carries that content and its fallback level, "exact" when none was stored, and nothing is written. Otherwise a video request gives the video reply (script, caption, hashtags, estimated and requested duration, product, tone and niche) or a 500 when video generation fails, writing nothing. Any other request gives fresh, non-blank content with the content, level and model (or its default) of the fallback chain, with the webhook rows of the platform captions. The cache becomes exactly what storing that entry under the key with the current time gives, with no other entry changed except by eviction of the oldest when the store is full, and the key becomes the newest in the insertion order (`OrderAfterSet`). A cache hit leaves the insertion order unchanged. |
| GenerateContent.ServeMiss | server/api/generateContent.ts:294-573 | On a cache miss, a video request gives the video reply (script, caption, hashtags, estimated and requested duration) or a 500 when video generation fails, and leaves the cache and its insertion order unchanged. Any other request gives fresh, non-blank content from the fallback chain, with the webhook rows of the platform captions. The cache becomes exactly what storing that entry under the key with the current time gives (`AfterSet`), eviction included, and the insertion order is `OrderAfterSet` of the old one. |
| TrendingPicks.FormatMentionsMillions | client/src/pages/TrendingAIPicks.tsx:80-81 | From a million up, the result is the count in tenths of a million, rounded to the nearest, followed by "M". |
| TrendingPicks.FormatMentionsThousands | client/src/pages/TrendingAIPicks.tsx:82 | From a thousand up to a million, the result is the count in thousands, rounded to the nearest, followed by "K". |
| TrendingPicks.FormatMentionsPlain | client/src/pages/TrendingAIPicks.tsx:83 | Below a thousand, the result is the plain number, which ends in a digit. |
| TrendingPicks.FormatMentionsSuffix | client/src/pages/TrendingAIPicks.tsx:80-84 | The last character says the tier: "M" exactly from a million up, "K" exactly from a thousand up to a million. |
| TrendingPicks.FormatMentions | client/src/pages/TrendingAIPicks.tsx:80-84 | The text is never empty. It ends in "M" from a million up, and in "K" from a thousand up to a million. |
| TrendingPicks.FreshnessWindow | client/src/pages/TrendingAIPicks.tsx:95-101 | A date is fresh exactly until one day after it, and freshness is never regained. A missing date is never fresh. |
| TrendingPicks.IsWithin24Hours | client/src/pages/TrendingAIPicks.tsx:95-101 | A missing date is never fresh. A date that has not yet passed is always fresh. |
| TrendingPicks.SortStringsSorted | client/src/pages/TrendingAIPicks.tsx:221 | Sorting gives a strictly ascending list with the same members, when the input has no duplicates. |
| TrendingPicks.AvailableNichesProperties | client/src/pages/TrendingAIPicks.tsx:220-222 | The niche options are strictly ascending, so they have no duplicates. They are exactly the niches present. |
| TrendingPicks.AvailableNiches | client/src/pages/TrendingAIPicks.tsx:220-222 | The niche options: the distinct niches of the products, sorted by the default string order (its properties are `AvailableNichesProperties`). |
| TrendingPicks.NichesMembers | client/src/pages/TrendingAIPicks.tsx:221 | A niche is listed exactly when some product has it. |
| TrendingPicks.WhenActiveIsFilter | client/src/pages/TrendingAIPicks.tsx:229-249 | A stage that is switched on only when its control is set filters by "switched off, or passing". |
| TrendingPicks.NarrowedIsOneFilter | client/src/pages/TrendingAIPicks.tsx:225-255 | The date, source, niche and mentions stages in sequence are a single filter by their conjunction, with order kept. |
| TrendingPicks.SortByKey | client/src/pages/TrendingAIPicks.tsx:258-269 | The sort is a permutation. |
| TrendingPicks.SortByKeySorted | client/src/pages/TrendingAIPicks.tsx:258-269 | The sorted list is non-increasing in the chosen key. |
| TrendingPicks.SortByKeyStable | client/src/pages/TrendingAIPicks.tsx:258-269 | The sort is stable: products with equal keys keep their original order. |
| TrendingPicks.FilteredProductsProperties | client/src/pages/TrendingAIPicks.tsx:225-272 | The filtered list holds exactly the matching products, as a permutation of the filter's result, sorted and stable. |
| TrendingPicks.FilteredProducts | client/src/pages/TrendingAIPicks.tsx:225-272 | The shown list is a permutation of the products that pass the single combined filter. |
| TrendingPicks.FavoritesAgree | client/src/pages/TrendingAIPicks.tsx:275-278 | The favourites tab lists a product exactly when `isFavorited` marks it; see also lines 320-322. |
| TrendingPicks.IsFavorited | client/src/pages/TrendingAIPicks.tsx:320-322 | A product is marked when some favourite has its id (a predicate; its agreement with the favourites tab is `FavoritesAgree`). |
| TrendingPicks.FavoriteProducts | client/src/pages/TrendingAIPicks.tsx:275-278 | The favourites tab never lists more products than there are. |
| TrendingPicks.OfNiche | client/src/pages/TrendingAIPicks.tsx:283-289 | Every product in a niche's group has that niche. |
| TrendingPicks.GroupByNiche | client/src/pages/TrendingAIPicks.tsx:281-290 | A niche has a group exactly when some displayed product has it, and the group is those products in display order. |
| TrendingPicks.GroupSizesSum | client/src/pages/TrendingAIPicks.tsx:283-289 | Over distinct niches that cover the list, the group sizes add up to the list's length. |
| TrendingPicks.GroupsPartitionDisplay | client/src/pages/TrendingAIPicks.tsx:281-290 | The groups partition the displayed list: each product is counted once. |
| TrendingPicks.Toggle | client/src/pages/TrendingAIPicks.tsx:292-310 | One element's membership flips, and every other element is unchanged. |
| TrendingPicks.ToggleTwice | client/src/pages/TrendingAIPicks.tsx:292-310 | Toggling twice restores the set. |
| TrendingPicks.ToggleNiche | client/src/pages/TrendingAIPicks.tsx:312-318 | The niche's membership flips, and every other niche is unchanged. |
| TrendingPicks.ToggleNicheTwice | client/src/pages/TrendingAIPicks.tsx:312-318 | Toggling twice restores an absent niche exactly. A present niche moves to the end. |
| ContentRating.WithScore | client/src/components/ContentRating.tsx:116-121 | Only the named score changes, to the new value. |
| ContentRating.RatingBadge | client/src/components/ContentRating.tsx:148-156 | There is no badge exactly for a missing, zero or NaN rating. |
| ContentRating.RatingBadgeRank | client/src/components/ContentRating.tsx:151-155 | The badge's rank is the number of the 60/70/80/90 thresholds the rating reaches. |
| ContentRating.RatingBadgeMonotone | client/src/components/ContentRating.tsx:151-155 | A higher rating never earns a lower badge. |
| ContentRating.DefinedMembers | client/src/components/ContentRating.tsx:159-165 | The filter keeps exactly the defined scores. |
| ContentRating.SumIsNaN | client/src/components/ContentRating.tsx:168 | The sum is NaN exactly when a NaN is summed. |
| ContentRating.RoundedMeanNearest | client/src/components/ContentRating.tsx:168 | `Math.round` of the mean is the nearest integer, with halves going up. |
| ContentRating.AverageUndefined | client/src/components/ContentRating.tsx:158-169 | The average is undefined exactly when no score is set. |
| ContentRating.AverageNaN | client/src/components/ContentRating.tsx:158-169 | A set NaN score makes the average NaN. |
| ContentRating.AverageBounds | client/src/components/ContentRating.tsx:158-169 | The average of scores between lo and hi is the rounded mean and lies between lo and hi. |
| ContentRating.AverageRating | client/src/components/ContentRating.tsx:158-169 | The average: undefined with no score set, NaN when a set score is NaN, else the rounded mean of the set scores (its properties are `AverageUndefined`, `AverageNaN` and `AverageBounds`). |
| ContentRating.KeptLookup | client/src/components/ContentRating.tsx:135-137 | With distinct keys, the filtered entries keep a key's value exactly when it is neither undefined nor ''. |
| ContentRating.PutLookup | client/src/components/ContentRating.tsx:140-143 | Spreading in a key gives it the new value and leaves every other key alone. |
| ContentRating.SavePayloadProperties | client/src/components/ContentRating.tsx:123-146 | Nothing is sent for a zero or NaN id. Otherwise the payload has the component's id, and every other field exactly when it is neither undefined nor ''. |
| ContentRating.SavePayload | client/src/components/ContentRating.tsx:123-146 | The save request body: nothing for a zero or NaN id, else the kept fields with the id (its properties are `SavePayloadProperties`). |
| ContentRating.LoadedScore | client/src/components/ContentRating.tsx:75-79 | A stored score of 0 or null becomes undefined. Any other score is kept. |
| ContentRating.LoadedIsClean | client/src/components/ContentRating.tsx:70-83 | A loaded state never holds a falsy score, and its note is always a string. |
| ContentRating.Loaded | client/src/components/ContentRating.tsx:70-83 | The loaded state keeps the component's id and user. Its note is always a string, the stored note when there is one. |
| ContentRating.StoredScoreAsWritten | client/src/components/ContentRating.tsx:224 | As written, a score input stores the number `parseInt` gives, NaN for a cleared field. |
| ContentRating.StoredScore | client/src/components/ContentRating.tsx:116-121 | Corrected: a cleared score (NaN) is stored as undefined. Any other value is kept. |
| ContentRating.ClearedScoreAverage | client/src/components/ContentRating.tsx:158-169 | Clearing one of two scores as written makes the average NaN. Under the corrected storage the remaining score is the average. |
| ContentRating.RatingPanel.constructor | client/src/components/ContentRating.tsx:43-52 | The panel starts with no scores, an empty note, and its own id and user. |
| ContentRating.RatingPanel.ChangeScore | client/src/components/ContentRating.tsx:116-121 | Only the edited score changes. It takes the corrected stored value, so a cleared score is undefined. |
| ContentRating.RatingPanel.ChangeNotes | client/src/components/ContentRating.tsx:116-121 | An empty note becomes undefined, and nothing else changes. |
| ContentRating.RatingPanel.Load | client/src/components/ContentRating.tsx:69-83 | A loaded record replaces the state, keeping the component's id and user. No record leaves the state as it was. |
| ContentRating.EditThenAverage | client/src/components/ContentRating.tsx:116-169 | Clearing a score drops it from the average, which is undefined exactly when no other score is set. |
| DailyBatch.TemplateFor | server/api/daily-batch-backup.ts:64 | Each niche's template is one of the high-conversion templates. |
| DailyBatch.ToneFor | server/api/daily-batch-backup.ts:66 | Each niche's tone is one of the sales-focused tones. |
| DailyBatch.PlatformFor | server/api/daily-batch-backup.ts:92-93 | Each niche's platform is TikTok, Instagram or YouTube Shorts. |
| DailyBatch.PlanCycles | server/api/daily-batch-backup.ts:61-66 | Templates repeat every five niches and platforms every three. |
| DailyBatch.BatchUsesEveryTemplateAndTone | server/api/daily-batch-backup.ts:61-66 | The first five niches take the five templates and the five tones in turn, so a full batch uses each of them. |
| DailyBatch.FirstUnused | server/api/daily-batch-backup.ts:74-82 | The selection is the first product whose key is unused. Every earlier key is used. There is none exactly when all keys are used. |
| DailyBatch.SelectionMovesOn | server/api/daily-batch-backup.ts:74-82 | Once the selected key is recorded, the next selection is a later product or none. |
| DailyBatch.TopProduct | server/api/daily-batch-backup.ts:85 | The title is never empty. It is the selected title when that is non-empty; otherwise the first trending product's title when there is one and it is non-empty; otherwise "Top <niche> Product". |
| DailyBatch.ProductKey | server/api/daily-batch-backup.ts:76 | The key of a product in a niche: its title, a dash and the niche (used by `FirstUnused` and `UsedAfter`). |
| DailyBatch.Mentions | server/api/daily-batch-backup.ts:86 | The selected product's mentions are used when non-zero. The result is 0 exactly when neither candidate has a truthy count. |
| DailyBatch.AllUsedFallsBack | server/api/daily-batch-backup.ts:74-86 | When every listed product was used, nothing is selected and the first listed product's title and mentions are used. |
| DailyBatch.AsWrittenCall | server/api/daily-batch-backup.ts:97-102 | As written, the niche is passed as the template type, "viral_hook" as the trending products, and no niche. |
| DailyBatch.AsWrittenCallMisplacesArguments | server/api/daily-batch-backup.ts:97-102 | As written, no niche is ever passed in the niche position, and no high-conversion template in the template position. |
| DailyBatch.ContentRequest | server/api/daily-batch-backup.ts:97-102 | Corrected call: product, template "viral_hook", tone, and the niche in the niche position. |
| DailyBatch.ItemOf | server/api/daily-batch-backup.ts:104-121 | An entry has no error exactly when content is non-empty. A success carries the platform and the script. A failure carries no platform, an empty script and the thrown message, or "Content generation failed" (lines 205-241). |
| DailyBatch.SuccessCount | server/api/daily-batch-backup.ts:247 | The success count is at most the number of entries. |
| DailyBatch.SuccessCountExtremes | server/api/daily-batch-backup.ts:247 | The count equals the number of entries exactly when all succeeded, and is 0 exactly when all failed. |
| DailyBatch.BatchEntries | server/api/daily-batch-backup.ts:61-121 | Entry k is for niche k, with template and tone k, and on success platform k. |
| DailyBatch.NicheStep | server/api/daily-batch-backup.ts:61-121 | One niche's step keeps the niche, template, tone and platform, and only adds to the used keys. |
| DailyBatch.UsedAfter | server/api/daily-batch-backup.ts:35 | The used keys only grow. |
| DailyBatch.Batch | server/api/daily-batch-backup.ts:58-61 | There is one entry per niche. |
| DailyBatch.Batcher.SelectProduct | server/api/daily-batch-backup.ts:74-82 | The search loop selects the first unused product and records exactly its key. With no unused product, nothing changes. |
| DailyBatch.Batcher.ProcessNiche | server/api/daily-batch-backup.ts:62-241 | One iteration of the batch loop gives the entry and the used set of the reference step. |
| DailyBatch.Batcher.RunNiches | server/api/daily-batch-backup.ts:61-245 | The loop produces the reference batch and leaves the reference used set. |
| DailyBatch.Batcher.GenerateDailyBatch | server/api/daily-batch-backup.ts:37-258 | A safeguard block is a 403 with its reason and source, and changes nothing. Otherwise the reply has one entry per niche, the success count, and the seven niches as total. Used keys only grow. |
| DailyBatch.TwoBatches | server/api/daily-batch-backup.ts:35 | Two batches in one process both answer with seven entries, and the used set grows across them. |

## Left out

- `getScheduledJobs` (scheduled-bulk-generation.ts:38-59) is a read of the job table filtered by user, with no logic of its own.
- Parsing `scheduleTime` into numbers is not modelled. The model takes hours and minutes already split, so a malformed time's NaN and node-cron's validation of the expression are not modelled.
- `CalculateNextRunTime` uses a local day of fixed length. Time zones, daylight-saving changes and invalid dates are not modelled, and the timezone argument is ignored, as the source ignores it.
- The re-check after the 100 ms delay in `startCronJob` (lines 346-352) is not modelled. Every handler is one atomic step, so no other task can appear during the delay.
- The update body is spread into the row (line 200). The model lets it patch only the configuration columns, not the run counters or ids.
- Database errors inside handlers are not modelled: only the schema rejection of the create body yields a 500.
- JavaScript closures' aliasing is modelled by value: a task holds a copy of the job object it was installed with.
- Logging, console output, the rate limiter and the 5-per-minute window are left out.
- In the generation endpoint the following are external and left out: persistence of content history, API-usage counters, the history webhook, `logFeedback`, smart-style recommendations and their usage log, `templateSource`, `viralInspiration`, `estimateVideoDuration`, and the outer 500 catch.
- The `CacheService` implementation (`server/services/cacheService`) is not part of this model. `ContentCache.Cache` states the time-to-live and capacity contract the endpoint relies on, with the oldest insertion evicted first. `generateKey` is modelled by using the parameter record itself as the key.
- JavaScript's `in` also finds inherited property names such as "constructor". The tone and template checks are modelled as membership in the table's own keys.
- `Trim` covers ASCII white space and the no-break space; `Lower` covers ASCII letters only. Unicode case mapping and the other Unicode white space are left out, and the default string sort compares characters, not UTF-16 code units.
- `FormatMentions` models `toFixed` on integers with rounding of halves upwards. Floating-point rounding of binary fractions is left out.
- Mention counts are integers. NaN or fractional mentions, and invalid `Date` values in the sort (a NaN comparison), are left out.
- The JSX rendering, toasts, fetches, query invalidation and the invalid-id placeholder panel (ContentRating.tsx:33-41, the same falsy test as `SavePayload`) are left out.
- The rating payload is modelled as an ordered entry list. JSON's conversion of NaN to null is left out.
- In the daily batch the following are left out: the webhook payload and its delivery, the 2-second delays, the caption, hashtag, instruction, source and timestamp texts, and the outer 500 catch. `getTrendingProductsByNiche(niche, 5)` is modelled as a store returning any list for that niche and limit.
- DailyBatch.ItemOf: the source's else branch for empty content (lines 156-158) pushes onto an undeclared `errors` list. The model instead follows the error item of lines 205-221, with error "Content generation failed".
- DailyBatch.Batcher.GenerateDailyBatch: the generator is called with the corrected argument order (`ContentRequest`), as the finding below explains.
- DailyBatch.Batcher.GenerateDailyBatch: server/api/daily-batch-backup.ts does not parse as written. Lines 163-166 are the tail of an object literal with no head, lines 168-204 use the names `batchItem`, `videoContent` and `platformData` outside their scope, and the `} else {` at line 205 has no matching `if`. The model, `DailyBatch.Batcher.ProcessNiche` included, is a reconstruction. It follows the success path of lines 104-155, the empty-content error item of lines 205-221 and the catch of lines 224-241.
- TrendingPicks.Cutoff: the cutoff is now minus `dateRange` times 24 hours. The source's `setDate(getDate() - dateRange)` steps back local calendar days, which are 23 or 25 hours long across a daylight-saving change. Time zones and daylight saving are not modelled.
- ContentRating.RatingPanel.ChangeScore: it stores the corrected value (`StoredScore`, a cleared field becomes undefined), not the NaN the source stores, as the finding below explains.
- GroupByNiche returns a map from niche to group, so the order of the groups on the page, which follows `Object.entries` (insertion order, with integer-like keys first), is not modelled.
- GroupByNiche: a niche named after an inherited object property ("constructor", "toString", "__proto__") makes `acc[niche].push` throw a TypeError in the source. The model treats every niche as an ordinary key.
- StatusEntries states its entries in some order of the task ids. The `Map` insertion order that the status list follows is not modelled.

## Findings

| source | as written | input that shows it | evidently intended | confidence | as-written member | corrected member |
|---|---|---|---|---|---|---|
| server/api/scheduled-bulk-generation.ts:378-398 | A cron tick executes the job object captured when the cron task was installed, so `totalRuns` and `consecutiveFailures` are computed from stale values. | A job with 0 failures whose first two ticks are both blocked ends with `consecutiveFailures` 1, not 2. | Each run counts from the row as currently stored. | not executed | ScheduledJobs.TwoFailingSnapshotRunsCountOnce | CronLifecycle.Scheduler.TickCurrentRow |
| client/src/components/ContentRating.tsx:224 | Score inputs pass `parseInt(value)`, so clearing a field stores NaN. The `value === ''` test at line 119 never matches a score. | Overall 80 and Instagram cleared: the average is NaN, not 80. | A cleared score becomes undefined and drops out of the average. | not executed | ContentRating.ClearedScoreAverage | ContentRating.StoredScore |
| server/api/daily-batch-backup.ts:97-102 | `generateContent(topProduct, niche, tone, 'viral_hook')` is read against the signature (product, templateType, tone, trendingProducts, niche, …) used at generateContent.ts:344-353. | For niche "beauty", the template type is "beauty" and the niche is missing. | Template type "viral_hook", with the niche in the niche position. | not executed | DailyBatch.AsWrittenCallMisplacesArguments | DailyBatch.ContentRequest |
