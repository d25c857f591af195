# Semtex marketing site: verified model of its client-side logic

This project models, in Dafny, the small pieces of logic inside the Semtex
Technologies marketing site (a React single-page application). Each modelled
source file becomes one module, and each operation keeps the source's form.

**Notification store and analytics log.** These mutate state in place, so they
become classes whose methods are specified by pure functions:

- `Toasts.ToastStore` models the toast provider of `src/components/Toast.tsx`;
- `Analytics.Analytics` models the analytics singleton of `src/lib/analytics.ts`.

**Blog, Careers, Pricing, ThankYou and the form fields.** These derive their views by
expressions over constant data, so they become functions and lemmas.

**FAQ and the mobile navigation.** Each holds one state cell overwritten by a
toggle handler. They become the classes `Faq.Accordion` and `MobileNav.Panel`
over the shared rule in `Disclosure`.

**Contact form.** `Contact.ContactForm` validates the form with the schema's
rules, then drives the real toast store and the analytics object through its
success or failure sequence.

**Document head.** `seo.ts` and `schema.ts` change the head of the page, which
is modelled as `Head.Document`: a sequence of elements keyed by
`meta[name]`, `meta[property]`, `link[rel]` or element id. Its operations are:

- find-or-create (`Upsert`);
- remove-first (`Remove`);
- append (`Append`).

`Seo.UpdateSeo` performs the fourteen find-or-create updates of `updateSEO` in
source order. `Schema.InjectSchema` performs the remove-then-append of
`injectSchema`.

**Shared helper modules:**

- `Wrappers` holds `Option` and `Result`;
- `Lists` holds order-preserving `Filter`, `Find` and `Dedup` (the `new Set`
  insertion order), with their laws;
- `Text` holds the slug helper `s.toLowerCase().replace(/\s+/g, sep)`, used
  throughout the site, and `includes`;
- `Effects` holds the click-handler effects: an analytics button click, a
  navigation, and a call of `onClose`.

## Model

| member | source | states |
|---|---|---|
| Toasts.WithId | src/components/Toast.tsx:30 | the stored toast carries the generated id and exactly the caller's fields |
| Toasts.AutoRemoveDelay | src/components/Toast.tsx:35-37 | a missing or zero duration means 5000 ms; any other duration is used as given; the delay is positive unless a negative duration is given |
| Toasts.Without | src/components/Toast.tsx:40-42 | `removeToast` keeps exactly the toasts whose id differs, as an order-preserving subsequence |
| Toasts.WithoutRemovesEveryMatch | src/components/Toast.tsx:41 | the list shrinks by the number of toasts carrying the id, so colliding ids are all removed, and an unknown id changes nothing |
| Toasts.RemoveIdempotent | src/components/Toast.tsx:35-37 | removing an id a second time (provider timer and item timer) leaves the list as one removal does |
| Toasts.RemovalsCommute | src/components/Toast.tsx:40-42 | removals of two ids give the same list in either order |
| Toasts.AddThenRemove | src/components/Toast.tsx:28-42 | adding under an unused id and then removing that id restores the list |
| Toasts.ToastOf | src/components/Toast.tsx:178-202 | each `toast.k(title, description)` helper gives a toast of that type with that title and description, and the default 5000 ms lifetime |
| Toasts.ToastStore.constructor | src/components/Toast.tsx:26 | the provider starts with no toasts and no timers |
| Toasts.ToastStore.Add | src/components/Toast.tsx:28-38 | appends the toast with its id after the old toasts, which stay unchanged; schedules one removal timer with the auto-remove delay; keeps every toast on screen covered by a pending timer |
| Toasts.ToastStore.Remove | src/components/Toast.tsx:40-42 | the list becomes `Without(old list, id)` and the timer invariant is kept |
| Toasts.ToastStore.FireTimer | src/components/Toast.tsx:35-37 | a provider timer firing removes its id and is itself consumed; every remaining toast still has a pending timer |
| Toasts.ToastStore.List | src/components/Toast.tsx:45 | the context exposes the list as stored |
| Toasts.UseToast | src/components/Toast.tsx:53-59 | outside a provider the hook fails with the source's message; inside it returns the provider itself |
| Analytics.Step | src/lib/analytics.ts:37-79 | `init` and `enable` switch recording on, `disable` off, nothing else touches the flag; `clear` empties both logs; otherwise each log only grows, by at most one entry, only `track` adds events, only `page` adds page views, and nothing is recorded while disabled |
| Analytics.TrackAppendsOne | src/lib/analytics.ts:37-55 | while enabled, `track` appends exactly one event with the given name, properties and time; while disabled nothing changes; page views and the flag are untouched |
| Analytics.PageAppendsOne | src/lib/analytics.ts:60-79 | while enabled, `page` appends exactly one page view; while disabled nothing changes; events and the flag are untouched |
| Analytics.DisabledFreezesLogs | src/lib/analytics.ts:37-79 | once disabled, any run of calls without `init`, `enable` or `clear` leaves the whole state unchanged |
| Analytics.LogsAppendOnly | src/lib/analytics.ts:37-79 | without `clear`, each log after any run of calls extends the log before it |
| Analytics.EnabledRecordsEveryTrack | src/lib/analytics.ts:37-55 | while enabled and never disabled or cleared, the events log is the old log followed by one event per `track` call, in call order |
| Analytics.FormSubmitCall | src/lib/analytics.ts:84-89 | `form_submit` carries `form_name` and every key of the form data, and a data key `form_name` overrides the argument |
| Analytics.ButtonClickCall | src/lib/analytics.ts:94-99 | `button_click` carries exactly `button_name` and `location`: the given name, and the given location or `undefined` when none is given |
| Analytics.NavigateCall | src/lib/analytics.ts:104-109 | `navigate` carries exactly `from` and `to` |
| Analytics.DemoRequestCall | src/lib/analytics.ts:114-118 | `demo_request` carries exactly `source`: the given source, or `undefined` when none is given |
| Analytics.ContactSubmitCall | src/lib/analytics.ts:123-127 | `contact_submit` carries exactly `interest_type`: the given interest, or `undefined` when none is given |
| Analytics.ProductViewCall | src/lib/analytics.ts:132-136 | `product_view` carries exactly `product_name` |
| Analytics.Analytics.constructor | src/lib/analytics.ts:19-22 | both logs empty and recording enabled |
| Analytics.Analytics.Init | src/lib/analytics.ts:27-32 | enables recording and leaves both logs as they were |
| Analytics.Analytics.Track | src/lib/analytics.ts:37-55 | the new state is one `Step` of the old state on the `track` call |
| Analytics.Analytics.Page | src/lib/analytics.ts:60-79 | the new state is one `Step` on the `page` call |
| Analytics.Analytics.FormSubmit | src/lib/analytics.ts:84-89 | one `Step` on the `form_submit` track call |
| Analytics.Analytics.ButtonClick | src/lib/analytics.ts:94-99 | one `Step` on the `button_click` track call |
| Analytics.Analytics.Navigate | src/lib/analytics.ts:104-109 | one `Step` on the `navigate` track call |
| Analytics.Analytics.DemoRequest | src/lib/analytics.ts:114-118 | one `Step` on the `demo_request` track call |
| Analytics.Analytics.ContactSubmit | src/lib/analytics.ts:123-127 | one `Step` on the `contact_submit` track call |
| Analytics.Analytics.ProductView | src/lib/analytics.ts:132-136 | one `Step` on the `product_view` track call |
| Analytics.Analytics.GetEvents | src/lib/analytics.ts:141-143 | returns the events log as stored |
| Analytics.Analytics.GetPageViews | src/lib/analytics.ts:148-150 | returns the page-view log as stored |
| Analytics.Analytics.Clear | src/lib/analytics.ts:155-158 | empties both logs and keeps the flag |
| Analytics.Analytics.Disable | src/lib/analytics.ts:163-165 | turns recording off and leaves both logs alone |
| Analytics.Analytics.Enable | src/lib/analytics.ts:170-172 | turns recording on and leaves both logs alone |
| Blog.BlogPosts | src/routes/Blog.tsx:34-119 | the page lists six posts with ids 1 to 6, in order |
| Blog.CategoryOf | src/routes/Blog.tsx:121 | `blogPosts.map(post => post.category)`, position by position |
| Blog.Categories | src/routes/Blog.tsx:121 | 'All' first, then each category of some post, every one exactly once |
| Blog.CategoriesInFirstAppearanceOrder | src/routes/Blog.tsx:121 | the categories after 'All' follow the order of their first appearance among the posts |
| Blog.CategoryButtonsDistinct | src/routes/Blog.tsx:121 | the buttons are pairwise distinct iff no post is itself in a category named 'All' |
| Blog.BlogPostCategories | src/routes/Blog.tsx:34-119 | the six posts' categories in order, whatever their excerpts |
| Blog.BlogCategories | src/routes/Blog.tsx:121 | the page's buttons are 'All' and the six post categories, in post order |
| Blog.PageCategories | src/routes/Blog.tsx:121 | the same seven buttons for the page's own posts |
| Blog.SearchIgnoresQueryCase | src/routes/Blog.tsx:125-128 | the search gives the same verdict for a query and its lower-cased form |
| Blog.FilteredPosts | src/routes/Blog.tsx:123-131 | an order-preserving subsequence of the posts holding exactly the posts that pass both the category test and the search test |
| Blog.NoFilterListsAll | src/routes/Blog.tsx:124-125 | with no category (or 'All') and an empty query every post is listed, in order |
| Blog.FeaturedPost | src/routes/Blog.tsx:133 | none iff no post is featured; otherwise the first featured post |
| Blog.BlogFeaturedPost | src/routes/Blog.tsx:133 | on the page the featured post is post 1, and no other post is featured |
| Blog.RegularPosts | src/routes/Blog.tsx:134 | the grid is an order-preserving subsequence of the filtered list; without filters it is exactly the filtered list with the featured posts dropped; with a category or a query it is the filtered list |
| Blog.CategoryTestMeaning | src/routes/Blog.tsx:124 | with no category or 'All' every post passes the category test; with another category exactly that category's posts pass |
| Blog.SearchFindsVerbatim | src/routes/Blog.tsx:125-128 | a post whose title, excerpt or a tag contains the query as typed passes the search, whatever the case of either |
| Blog.SearchRejectsMisses | src/routes/Blog.tsx:125-128 | a non-empty query found (ignoring case) in none of title, excerpt and tags rejects the post |
| Blog.FeaturedShownOnce | src/routes/Blog.tsx:206 | a post shown in the featured section is not repeated in the grid, and the grid keeps featured posts whenever the section is hidden by a filter |
| Blog.SelectCategory | src/routes/Blog.tsx:190 | clicking 'All' stores null, any other button stores its name; the query is untouched |
| Blog.SetQuery | src/routes/Blog.tsx:182 | typing replaces the query and keeps the category |
| Blog.ClearFilters | src/routes/Blog.tsx:364-365 | "Clear Filters" returns both filters to their initial values |
| Blog.ClearFiltersShowsEverything | src/routes/Blog.tsx:364-365 | after clearing, every post is listed and the featured section shows iff some post is featured |
| Blog.ClickedButtonIsActive | src/routes/Blog.tsx:190-193 | after a click exactly the clicked button is highlighted, 'All' included |
| Careers.OpenPositions | src/routes/Careers.tsx:101-222 | five positions with ids 1 to 5 and their departments, in page order |
| Careers.DepartmentOf | src/routes/Careers.tsx:224 | `openPositions.map(p => p.department)`, position by position |
| Careers.Departments | src/routes/Careers.tsx:224 | each department of some position exactly once |
| Careers.DepartmentsInFirstAppearanceOrder | src/routes/Careers.tsx:224 | departments follow the order of their first appearance among the positions |
| Careers.PageDepartments | src/routes/Careers.tsx:224 | the page's buttons are Engineering, Design, Customer Success and Marketing, with Engineering (held by two positions) listed once |
| Careers.FilteredPositions | src/routes/Careers.tsx:226-228 | an order-preserving subsequence; with a truthy department, exactly the positions in it; otherwise every position |
| Careers.ListedDepartmentIsInhabited | src/routes/Careers.tsx:224-228 | selecting any listed non-empty department never yields the empty list, so the "No positions" message does not show |
| Careers.NoPositionsMessageIff | src/routes/Careers.tsx:491-496 | the "No positions in this department" message shows iff no position passes the filter: a truthy department nobody belongs to, or no positions at all |
| Careers.ApplyEventName | src/routes/Careers.tsx:41 | `apply_` followed by the title's slug with `_`: lower case, with no white space |
| Careers.HandleApply | src/routes/Careers.tsx:40-43 | logs the apply event from 'careers', then opens the application form for the encoded title |
| Careers.ApplyEventIgnoresCase | src/routes/Careers.tsx:41 | titles differing only in case log the same event |
| Careers.Shown | src/routes/Careers.tsx:453 | at most three items are shown, as a prefix of the list, and all of them when there are at most three |
| Careers.MoreCount | src/routes/Careers.tsx:459-461 | "+N more" appears iff there are more than three items, with N the number not shown |
| Careers.ShownPlusMoreIsAll | src/routes/Careers.tsx:453-463 | the shown items and the "+N more" count together account for every item, and the hidden ones are exactly the rest |
| Pricing.PlansShape | src/routes/Pricing.tsx:47-129 | three plans with distinct names, only the second ('Growth') marked popular; a plan priced on one cycle is priced on both, with the annual monthly rate positive and below the monthly one |
| Pricing.PriceFor | src/routes/Pricing.tsx:256 | the card's price is the plan's price for the selected cycle |
| Pricing.RoundedPercentOff | src/routes/Pricing.tsx:189 | the result lies within half a point of the exact percentage `100 (m - a) / m`, halves rounded up |
| Pricing.RoundedPercentOffUnique | src/routes/Pricing.tsx:189 | it is the only integer within half a point, so it is `Math.round` of the exact value |
| Pricing.Savings | src/routes/Pricing.tsx:189 | 0 on the monthly cycle; on the annual cycle the rounded percentage saved on the Growth plan |
| Pricing.PageSavings | src/routes/Pricing.tsx:189 | the page saves 13% annually (799 to 699) and 0 monthly |
| Pricing.PageSaveBadge | src/routes/Pricing.tsx:240-242 | the "Save N%" badge shows exactly while the annual cycle is selected |
| Pricing.DisplayPrice | src/routes/Pricing.tsx:294-317 | a null or zero price reads "Custom"; a price shows itself per month; on the annual cycle it also shows the yearly total of twelve times it |
| Pricing.CtaFor | src/routes/Pricing.tsx:321-340 | "Contact Sales" exactly when the card reads "Custom"; otherwise "Start with" the plan's name |
| Pricing.PageCards | src/routes/Pricing.tsx:256-317 | Starter and Growth are priced on both cycles (R2988 and R8388 a year annually); Enterprise is "Custom" and routes to sales |
| Pricing.HandlePlanSelect | src/routes/Pricing.tsx:37-40 | logs `select_plan_` plus the lower-cased name from 'pricing', then opens the demo form with that name as `plan` |
| Pricing.PlanSelectNamesAgree | src/routes/Pricing.tsx:38-39 | the logged event and the `plan` parameter carry the same lower-cased name |
| Pricing.HandleContactSales | src/routes/Pricing.tsx:42-45 | logs `contact_sales` from 'pricing', then opens the enterprise contact form |
| Pricing.ClickCta | src/routes/Pricing.tsx:321-340 | a priced card's button runs the plan-select handler; a custom card's runs contact sales |
| Pricing.PagePlanSelect | src/routes/Pricing.tsx:323 | the Starter and Growth buttons ask for a demo of `starter` and `growth` |
| Disclosure.Toggle | src/components/FAQ.tsx:27 | the result is null iff the clicked key was open; otherwise it is the clicked key |
| Disclosure.ToggleClosesOthers | src/components/FAQ.tsx:27 | after a click no key but the clicked one is open |
| Disclosure.ToggleTwice | src/components/FAQ.tsx:26-28 | two clicks on one key restore the state iff nothing, or that key, was open; if another key was open they close everything |
| Disclosure.OpenIsLastClicked | src/components/FAQ.tsx:26-28 | after any non-empty series of clicks, the open key, if any, is the last one clicked |
| Faq.Accordion.constructor | src/components/FAQ.tsx:24 | no item is open on mount |
| Faq.Accordion.ToggleItem | src/components/FAQ.tsx:26-28 | the open index becomes the toggle of the old one by the clicked index |
| Faq.Accordion.AriaExpanded | src/components/FAQ.tsx:51 | an item's button is expanded iff its index is the open index |
| Faq.AtMostOneExpanded | src/components/FAQ.tsx:51 | two different items are never both expanded |
| MobileNav.ProductSections | src/components/MobileNav.tsx:41-79 | four product sections with distinct ids, none of them the group's key 'products', each with at least one link |
| MobileNav.ProductLinks | src/components/MobileNav.tsx:137-209 | nothing is listed unless the key is 'products'; then exactly the expanded sections' links followed by "All Products" |
| MobileNav.SectionLinks | src/components/MobileNav.tsx:145-201 | every link of a section whose id is the key is listed, every listed link belongs to such a section, and nothing is listed when no section's id is the key |
| MobileNav.SectionLinksOfOne | src/components/MobileNav.tsx:145-201 | with distinct section ids, the list under a section's key is exactly that section's links, in order and without repetition |
| MobileNav.SectionLinksNeverShown | src/components/MobileNav.tsx:137-174 | on the page a section's own links never appear: the list is empty or just "All Products" |
| MobileNav.Panel.constructor | src/components/MobileNav.tsx:22 | nothing expanded and no effects on mount |
| MobileNav.Panel.ToggleSection | src/components/MobileNav.tsx:37-39 | the key becomes the toggle of the old one by the clicked section |
| MobileNav.Panel.AriaExpanded | src/components/MobileNav.tsx:125-154 | a toggle button is expanded iff its key is the expanded key |
| MobileNav.Panel.HandleLinkClick | src/components/MobileNav.tsx:32-35 | appends the `mobile_nav_` event from 'mobile_nav' and then a close, nothing else |
| MobileNav.Panel.HandleDemoClick | src/components/MobileNav.tsx:26-30 | appends `get_demo` from 'mobile_nav', the navigation to the demo form and a close, in that order |
| MobileNav.LinkEventName | src/components/MobileNav.tsx:33 | `mobile_nav_` followed by the label's slug with `_`, with no white space |
| MobileNav.ExpandingSectionCollapsesGroup | src/components/MobileNav.tsx:137-152 | expanding a product section from the open group replaces the 'products' key, so the group and the section's links disappear |
| Text.LowerChar | src/components/FormFields.tsx:33 | maps an upper-case ASCII letter to the letter 32 code points later, keeps its white-space status and changes no other character |
| Text.ToLower | src/components/FormFields.tsx:33 | lower-cases each character in place: same length, character i is `LowerChar` of character i, no upper-case letter remains |
| Text.ToLowerIdempotent | src/routes/Blog.tsx:125-128 | lower-casing twice is lower-casing once |
| Text.ReplaceSpaceRuns | src/components/FormFields.tsx:33 | with a separator free of white space, the result has none; a string without white space is unchanged |
| Text.Slug | src/routes/Careers.tsx:41 | the slug contains no white space and no upper-case letter when the separator does not; a string without white space is just lower-cased |
| Text.ReplaceSpaceRunsNonEmpty | src/components/FormFields.tsx:33 | with a non-empty separator, replacing white-space runs never empties a non-empty string |
| Text.ReplaceSpaceRunsCollapse | src/components/FormFields.tsx:33 | a word, then a non-empty run of white space, then a rest not starting with white space becomes the word, one separator, and the replaced rest |
| Text.SlugCollapse | src/routes/Careers.tsx:41 | the slug of a word, a white-space run and a rest is the lower-cased word, one separator, and the slug of the rest |
| Text.ContainsLower | src/routes/Blog.tsx:125-128 | an occurrence of a needle survives lower-casing both strings |
| Text.SlugIdempotent | src/routes/Careers.tsx:41 | slugging a slug changes nothing |
| Text.Contains | src/routes/Blog.tsx:126 | `includes` holds iff the needle occurs at some position |
| Lists.Filter | src/routes/Blog.tsx:123 | `Array.filter` keeps exactly the elements that pass, as an order-preserving subsequence |
| Lists.Find | src/routes/Blog.tsx:133 | `Array.find` gives none iff no element passes, and otherwise the first that does |
| Lists.Dedup | src/routes/Blog.tsx:121 | `[...new Set(xs)]` holds the same elements, each once |
| Lists.DedupFirstOccurrenceOrder | src/routes/Careers.tsx:224 | the set keeps elements in the order of their first insertion |
| Head.FindFirst | src/lib/seo.ts:69 | `querySelector` returns the first element with the key, and none iff no element has it |
| Head.Upserted | src/lib/seo.ts:68-76 | the first element with the key gets the content, or a new element is appended when there is none; every element with another key stays in place |
| Head.UpsertKeys | src/lib/seo.ts:68-76 | find-or-create adds the key and no other to the keys present |
| Head.UpsertInPlace | src/lib/seo.ts:68-76 | an existing element keeps its key and script type and only its content changes; every other element, later ones with the same key included, stays as it was |
| Head.UpsertUnchanged | src/lib/seo.ts:68-76 | setting a key to the content it already reads changes nothing |
| Head.UpsertIdempotent | src/lib/seo.ts:68-76 | setting a key twice to the same content is setting it once |
| Head.UpsertOtherContent | src/lib/seo.ts:68-76 | setting one key leaves what every other key reads unchanged |
| Head.UpsertKeepsUnique | src/lib/seo.ts:68-76 | find-or-create never gives a key a second element |
| Head.Removed | src/lib/schema.ts:130-133 | removes the first element with the key, and nothing when there is none |
| Head.RemovedLeavesNone | src/lib/schema.ts:130-133 | on a head without repeated keys, no element with the key is left, and keys stay unique |
| Head.RemovedKeepsOthers | src/lib/schema.ts:130-133 | every element with another key is kept, in order |
| Head.ApplyAllContent | src/lib/seo.ts:40-65 | after updates with distinct keys, every key reads the content its update set |
| Head.ApplyAllUnchanged | src/lib/seo.ts:68-106 | updates that set what the head already holds change nothing |
| Head.ApplyAllIdempotent | src/lib/seo.ts:40-65 | performing the same updates with distinct keys twice is performing them once |
| Head.ApplyAllKeepsUnique | src/lib/seo.ts:40-65 | a head with one element per key keeps that property through any updates |
| Head.Document.Find | src/lib/seo.ts:69 | the loop returns the position of the first element with the key, or the head's length when there is none |
| Head.Document.Upsert | src/lib/seo.ts:68-76 | the head becomes `Upserted(old head, key, content)` |
| Head.Document.Remove | src/lib/schema.ts:130-133 | the head becomes `Removed(old head, key)` |
| Head.Document.Append | src/lib/schema.ts:140 | the element is added at the end |
| Seo.DefaultSeoComplete | src/lib/seo.ts:16-28 | every string field has a default and `noindex` has none; the Twitter card repeats the Open Graph title, description and image, and the card URL is the canonical URL |
| Seo.Merge | src/lib/seo.ts:34 | `{ ...base, ...over }`: every field the caller gives wins, every other field keeps the base value |
| Seo.MergeLaws | src/lib/seo.ts:34 | an empty overlay changes nothing, overlaying twice is overlaying once, and successive overlays combine |
| Seo.Resolve | src/lib/seo.ts:16-34 | the defaults overlaid by the caller's data, always with a title and a description |
| Seo.Or | src/lib/seo.ts:41 | JavaScript's logical or on a string: the first operand when present and non-empty, otherwise the fallback |
| Seo.Robots | src/lib/seo.ts:61-65 | "noindex, nofollow" iff `noindex` is true, otherwise "index, follow" |
| Seo.TagUpdatesAt | src/lib/seo.ts:40-65 | the fourteen updates in call order: each tag's key with the value its fallback chain resolves |
| Seo.TagKeysDistinct | src/lib/seo.ts:40-65 | the fourteen tags written are pairwise different |
| Seo.UpdatesDistinctKeys | src/lib/seo.ts:40-65 | `updateSEO` touches fourteen different tags |
| Seo.OpenGraphShadowedByDefaults | src/lib/seo.ts:16-50 | a caller that gives no og:title, og:description or og:url gets the site-wide ones, even when it gives its own title, description and canonical URL |
| Seo.TwitterTitleChain | src/lib/seo.ts:56 | twitter:title is the first non-empty of twitter title, og:title and title; without its own twitter title a caller gets the default one |
| Seo.RobotsFollowsNoindex | src/lib/seo.ts:61-65 | the robots tag says "noindex, nofollow" iff the caller passes `noindex: true` |
| Seo.FixedTags | src/lib/seo.ts:51-55 | og:type, og:site_name and twitter:card always hold `website`, `Semtex Technologies` and `summary_large_image` |
| Seo.UpdateMetaTag | src/lib/seo.ts:68-76 | the head becomes the find-or-create of `meta[name]` with the content |
| Seo.UpdateMetaProperty | src/lib/seo.ts:78-86 | the head becomes the find-or-create of `meta[property]` with the content |
| Seo.UpdateMetaName | src/lib/seo.ts:88-96 | the head becomes the find-or-create of `meta[name]` with the content |
| Seo.UpdateLinkTag | src/lib/seo.ts:98-106 | the head becomes the find-or-create of `link[rel]` with the href |
| Seo.UpdateSeo | src/lib/seo.ts:33-66 | the title becomes the resolved title, and the head becomes the fourteen resolved updates applied in source order |
| Seo.UpdateSeoOutcome | src/lib/seo.ts:33-106 | afterwards each tag reads its resolved value; a second identical call changes nothing; one element per key stays so |
| Seo.UseSeo | src/lib/seo.ts:111-116 | updates exactly when a window exists and data is given; otherwise title and head are unchanged |
| Schema.OrganizationSchema | src/lib/schema.ts:57-93 | the company record: schema.org context, Johannesburg, Gauteng, "ZA", two co-founders (CTO and CEO), a customer-service contact point |
| Schema.LmsProductSchema | src/lib/schema.ts:98-121 | the LMS as a SoftwareApplication, branded and made by the same organisation, offered in ZAR and in stock |
| Schema.ScriptFor | src/lib/schema.ts:136-139 | the new script has the id, the serialized text and the JSON-LD type |
| Schema.Injected | src/lib/schema.ts:126-141 | the first element with the id removed, and the script appended as the last element |
| Schema.InjectedIsFound | src/lib/schema.ts:130-140 | on a head with unique ids, the script is the only element with its id, so the lookup finds it and reads the serialized text |
| Schema.InjectedKeepsUnique | src/lib/schema.ts:130-140 | a head with one element per key keeps that property |
| Schema.InjectedKeepsOthers | src/lib/schema.ts:130-140 | elements with other keys are kept, in order |
| Schema.InjectIdempotent | src/lib/schema.ts:126-141 | on a head with unique ids, injecting the same text twice is injecting it once |
| Schema.InjectTwiceWithDuplicateIds | src/lib/schema.ts:130-133 | with two elements sharing the id, a second injection changes the head, so the uniqueness hypothesis is needed |
| Schema.InjectSchema | src/lib/schema.ts:126-141 | with a window, the head becomes `Injected(old head, id, serialized schema)`; without one, nothing changes |
| Schema.RemoveSchema | src/lib/schema.ts:146-153 | with a window, the first element with the id is removed; without one, nothing changes |
| Schema.RemoveSchemaOutcome | src/lib/schema.ts:146-153 | on a head with unique ids, no element with the id is left, the others are kept in order, and an absent id changes nothing |
| FormFields.InputId | src/components/FormFields.tsx:33 | a truthy id wins; otherwise the label's slug with `-`; undefined iff there is neither |
| FormFields.LabelTargetsInput | src/components/FormFields.tsx:33-45 | a label renders only when truthy, and its `htmlFor` then always names a non-empty id: the caller's truthy id, or the label's slug |
| FormFields.DerivedIdHasNoSpace | src/components/FormFields.tsx:33 | an id derived from the label has no white space and no upper-case letter |
| FormFields.ErrorId | src/components/FormFields.tsx:34 | `${inputId}-error` iff there is an error |
| FormFields.HelpId | src/components/FormFields.tsx:35 | `${inputId}-help` iff the help text is truthy |
| FormFields.ErrorAndHelpIdsDiffer | src/components/FormFields.tsx:34-35 | the error and help ids of one control never coincide |
| FormFields.UnlabelledErrorId | src/components/FormFields.tsx:33-34 | without an id and a label the error paragraph's id is "undefined-error" |
| FormFields.AriaInvalid | src/components/FormFields.tsx:56 | 'true' iff there is an error, 'false' iff there is none |
| FormFields.ErrorReplacesHelp | src/components/FormFields.tsx:61-71 | error and help are never both rendered, and with help text exactly one of them is |
| FormFields.RenderedIds | src/components/FormFields.tsx:61-71 | the ids of the rendered paragraphs are exactly the error id while the error shows and the help id while the help shows |
| FormFields.DescribedByAsWritten | src/components/FormFields.tsx:57 | `cn(errorId, helpId)` names exactly the defined ids, the error id first |
| FormFields.DescribedByDangles | src/components/FormFields.tsx:57-71 | with an error and help text, the attribute as written names a help paragraph that is not rendered |
| FormFields.DescribedBy | src/components/FormFields.tsx:57 | the corrected attribute names only rendered paragraphs: the error, or else the help |
| FormFields.DescribedByNamesEveryParagraph | src/components/FormFields.tsx:57-71 | every rendered paragraph is named by the corrected attribute |
| FormFields.SelectOptions | src/components/FormFields.tsx:171-176 | the empty-valued "Select an option" first, then the given options in order |
| FormFields.Rows | src/components/FormFields.tsx:85 | 4 rows by default; a given value is kept |
| FormFields.CheckboxId | src/components/FormFields.tsx:211 | a checkbox always has an id: its truthy id, or else its required label's slug |
| Contact.ValidIffNoFieldFails | src/routes/Contact.tsx:15-21 | the data is valid iff no field breaks its rule |
| Contact.RulesAreMinimums | src/routes/Contact.tsx:15-21 | every rule is a lower bound on a length: lengthening the fields never makes a passing field fail |
| Contact.Validate | src/routes/Contact.tsx:15-21 | success (with the data unchanged) iff every length rule and the email check hold; otherwise exactly the failing fields, in schema order |
| Contact.InterestOptionsWellFormed | src/routes/Contact.tsx:49-66 | eight options with non-empty, distinct values, the 'demo' preset among them |
| Contact.InterestOptionsSatisfyRule | src/routes/Contact.tsx:57-66 | any listed interest satisfies the interest rule, while the Select's empty prompt breaks it |
| Contact.PresetInterest | src/routes/Contact.tsx:50-55 | `type=demo` presets the interest to 'demo'; any other value leaves it unset |
| Contact.SentToast | src/routes/Contact.tsx:76-82 | a success toast titled "Message sent successfully!" with the 24-hour description, living 5000 ms |
| Contact.FailedToast | src/routes/Contact.tsx:87-91 | an error toast titled "Failed to send message" with the contact address, living 5000 ms |
| Contact.ContactForm.constructor | src/routes/Contact.tsx:50-55 | not yet submitted; the interest is preset exactly for `type=demo` |
| Contact.ContactForm.HandleSubmit | src/routes/Contact.tsx:68-92 | invalid data changes nothing and reports the failing fields; a settled submission records `contact_submit` with the interest, appends the success toast and its 5000 ms removal timer, sets `isSubmitted` and resets the values; a failed one appends only the error toast and its timer |
| Contact.ContactForm.SendAnother | src/routes/Contact.tsx:218 | "Send Another Message" shows the form again |
| ThankYou.PageType | src/routes/ThankYou.tsx:15 | the `type` parameter when present and non-empty, otherwise 'contact'; never empty |
| ThankYou.ConversionEvent | src/routes/ThankYou.tsx:27 | a button click named `thank_you_` followed by the type, from 'thank_you_page' |
| ThankYou.ScreenFor | src/routes/ThankYou.tsx:30-69 | 'demo' and 'application' select their own contents; every other type selects the generic one |
| ThankYou.FourNextSteps | src/routes/ThankYou.tsx:37-66 | every content lists exactly four next steps |
| ThankYou.TitlesDiffer | src/routes/ThankYou.tsx:34-58 | the three contents have different headings |
| ThankYou.DefaultContent | src/routes/ThankYou.tsx:15-67 | a missing, empty or unknown type shows the "message sent" content |

## Left out

- The toast item's own timer (src/components/Toast.tsx:64-72): it hides the item after the toast's delay and calls `onRemove` 300 ms later. It is not modelled: timers are not modelled as time, so nothing orders it against the provider's timer; it starts at mount and restarts whenever `onRemove` changes identity, which is not modelled either. Its second removal of the id is covered by `Toasts.RemoveIdempotent`.
- Analytics: property values are strings or `undefined`; the other JSON values a `Record<string, any>` can hold are not modelled. Every caller on the site passes strings.
- Timers are not modelled as time. The provider's removal timer is a pending `Timer` entry that `FireTimer` consumes. The item's own 300 ms timer and its close button are plain `Remove` calls.
- `Math.random` toast ids are a `freshId` parameter. Nothing forces ids to be unique; the colliding case is what `Toasts.WithoutRemovesEveryMatch` covers.
- Analytics does not model `new Date()`, which is a `now` parameter. It also leaves out the console output, `import.meta.env` and the unimplemented `_send*` methods.
- Analytics does not model `useAnalytics`, which only binds the singleton's methods.
- `Analytics.Analytics.GetEvents`: the source returns the live array, so a caller could mutate the log through it. The model returns the value, and that aliasing is not modelled.
- React state updates are modelled as immediate assignments. Batching, re-rendering and effects are left out.
- The DOM is modelled as an abstract sequence of head elements, each keyed by one attribute. Other attributes, selectors that match several attributes, and the rest of the document are left out.
- `encodeURIComponent` and `JSON.stringify` are function parameters.
- Zod's email check is an `isEmail` oracle.
- react-hook-form is reduced to the schema check and a values map that `reset()` empties.
- `Text.ToLower` lower-cases ASCII letters only. Unicode case mapping is not modelled. The `\s` class is the full ECMAScript white-space set.
- `Pricing.RoundedPercentOff` uses exact integer round-half-up, not IEEE floating point. For the page's prices the two agree.
- The positions' requirement and responsibility lists are long literal texts. They are function parameters and are never stated as literals. The six post excerpts are stated as constants in `Blog.Excerpt`.
- Contact.Validate: string lengths are counted in Unicode scalar values, whereas JavaScript's `.length`, and so zod's `min`, counts UTF-16 code units. A character outside the Basic Multilingual Plane (an emoji, say) counts once here and twice in the browser, so `Contact.Fails` and `Contact.Valid` can reject a short name, company or message that the page accepts.
- The Blog `handlePostClick` handler is not modelled: its event name needs integer-to-string formatting and its effect is a click log.
- `toLocaleString` and `toLocaleDateString` formatting is not modelled.
- Pricing's static feature lists, services and FAQ entries are not modelled.
- The `cn` class-name helper is not part of this model. `aria-describedby` treats it as joining the defined ids.
- `Partial<SEOData>` is modelled without explicit `undefined` values: a key present with the value `undefined` would override a default and is not modelled.
- The mock network call in `onSubmit` always resolves. Failure is reachable only through the `settled` parameter, which stands for the call rejecting.
- The ThankYou handlers `handleExploreProducts` and `handleGoHome` are not modelled; they are fixed click-and-navigate pairs.
- The presentational parts of every page and component are not modelled: layout, classes, icons and animation.

## Findings

| source | as written | input that shows it | evidently intended | confidence | as-written member | corrected member |
|---|---|---|---|---|---|---|
| src/components/FormFields.tsx:57-71 | `aria-describedby={cn(errorId, helpId)}` names the help paragraph whenever help text is given, but that paragraph renders only when there is no error | id "email", an error, help text "We never share it": the attribute names "email-help", which is not in the page | name only rendered paragraphs: the error when there is one, otherwise the help | high, not executed | FormFields.DescribedByDangles | FormFields.DescribedBy |

