# YuLife marketing site core, modelled in Dafny

This project models the core logic of the YuLife marketing website, which is written in TypeScript with React:

- the CMS content types and the mock CMS client with its page table and navigation;
- the blog page, which looks up `/blog` and dispatches each section on its `type`;
- the cards section, which filters card blocks and lays out a grid;
- the `Text` primitive's choice of HTML tag;
- the `Input` primitive's id derivation and its accessibility attributes;
- the header, whose visibility follows the scroll position;
- the horizontal scroll slider's padding and scroll arithmetic, and its ScrollTrigger lifecycle;
- the YuCoin background's coin generation, click, collection and respawn;
- the logo export script's file naming and filtering.

Each source file has its own module. Code that only computes values (types, client, blog page, cards section, `Text`, `Input`, the slug expression) is modelled as datatypes, functions and lemmas. State that the components update in place is modelled as classes whose methods state the new state:

- the header's `isVisible` and its scroll listener;
- the window's listener list;
- the slider's `isDesktop`, its tween and the global ScrollTrigger list;
- the coin layers and the collecting set.

Random draws, the viewport width, `scrollY` and the slider's measured width are parameters. Pixel, percentage and time arithmetic is exact over `real`. JavaScript semantics that matter are written out:

- truthiness of an optional string (`Wrappers.Truthy`: present and non-empty);
- `??`, which falls back only on null or undefined;
- a template literal of `undefined`, which renders the text `undefined`;
- the `g`-flag regular expressions used in the id and file-name derivations.

Shared pieces:

- `Wrappers`: the `Option` type and JavaScript truthiness.
- `TextRuns`: ASCII lower-casing and "replace every maximal run of a character class by one `-`".
- `Browser`: the window's event-listener registry.

## Model

| member | source | states |
|---|---|---|
| `Wrappers.Interpolate` | src/design-system/primitives/Input.tsx:42 | a template literal renders a present string as itself and a missing one as `undefined` |
| `TextRuns.LowerChar` | save-new-logos.js:17 | lower-casing maps `A`-`Z` 32 code points down, leaves every other character alone, and never yields an upper-case letter |
| `TextRuns.Lower` | src/design-system/primitives/Input.tsx:15 | `toLowerCase` keeps the length and lower-cases each character in place |
| `TextRuns.LowerAppend` | src/design-system/primitives/Input.tsx:15 | lower-casing a concatenation lower-cases each part |
| `TextRuns.SkipRun` | save-new-logos.js:17 | a `+` run consumes a prefix of class characters and stops at the first character outside the class |
| `TextRuns.ReplaceRuns` | save-new-logos.js:17 | `replace(/[class]+/g, "-")` returns an empty string exactly for an empty input (where each run goes: `TextRuns.ReplaceRunsSplit`) |
| `TextRuns.Kept` | save-new-logos.js:17 | the characters outside the class and not hyphens, in order, which the run replacement must preserve |
| `TextRuns.KeptOfRun` | save-new-logos.js:17 | skipping a run of class characters loses no kept character |
| `TextRuns.ReplaceRunsLeavesNoClassChar` | save-new-logos.js:17 | after `replace(/[class]+/g, "-")` every character is a hyphen or outside the class |
| `TextRuns.ReplaceRunsKeepsOthers` | save-new-logos.js:17 | the replacement keeps every non-class, non-hyphen character, in order |
| `TextRuns.ReplaceRunsIdentity` | src/design-system/primitives/Input.tsx:15 | a string with no class character is returned unchanged |
| `TextRuns.ReplaceRunsHead` | save-new-logos.js:17 | the result is empty only for empty input, and starts with `-` exactly when the input starts with a class character or a hyphen |
| `TextRuns.ReplaceRunsLast` | save-new-logos.js:17 | the result ends with `-` exactly when the input ends with a class character or a hyphen |
| `TextRuns.ReplaceRunsSingleHyphens` | save-new-logos.js:17 | when `-` is in the class, the result has no two adjacent hyphens |
| `TextRuns.ReplaceRunsFixedPoint` | save-new-logos.js:17 | when `-` is in the class, a string of kept characters and single hyphens is a fixed point |
| `TextRuns.ReplaceRunsDrawsFrom` | save-new-logos.js:17 | every character of the result is an inserted hyphen or a character of the input |
| `TextRuns.SkipRunOverRun` | save-new-logos.js:17 | a `+` run that is followed by a non-class character is consumed whole, up to that character |
| `TextRuns.ReplaceRunsSplit` | save-new-logos.js:17 | each maximal run of class characters becomes exactly one `-` at its own position: for a run between a non-class end of `x` and a non-class start of `y`, the result is the result for `x`, then `-`, then the result for `y` |
| `CmsTypes.TypeTag` | src/lib/cms/types.ts:30-53 | a block's `type` tag is `hero`, `card` or `text` exactly when it is a hero, card or text block |
| `CmsTypes.Depth` | src/lib/cms/types.ts:82-86 | a navigation tree is at least one level deep |
| `CmsTypes.MaxDepth` | src/lib/cms/types.ts:85 | the depth of a child list bounds the depth of each child, and is 0 for no children |
| `CmsTypes.NavNestsToAnyDepth` | src/lib/cms/types.ts:82-86 | for every n there is a navigation item nested n + 1 levels deep |
| `MockClient.FindBySlug` | src/lib/cms/mock-client.ts:332 | `find` returns the first page with the slug, and null exactly when no page has it |
| `MockClient.GetPage` | src/lib/cms/mock-client.ts:331-333 | `getPage` returns a table page with that slug, or null exactly when the table has none |
| `MockClient.Pages` | src/lib/cms/mock-client.ts:8-314 | the table has six pages with slugs `/`, `/products`, `/solutions`, `/pricing`, `/about`, `/blog` in that order, the last being the blog page |
| `MockClient.Navigation` | src/lib/cms/mock-client.ts:316-324 | the navigation has five top-level items and none has children |
| `MockClient.GetPages` | src/lib/cms/mock-client.ts:335-337 | `getPages` returns the table itself, unchanged and in its order (six pages), whose slugs are the ones `getPage` finds |
| `MockClient.GetNavigation` | src/lib/cms/mock-client.ts:339-341 | `getNavigation` returns five items |
| `MockClient.Slugs` | src/lib/cms/mock-client.ts:8-314 | the slugs of the table, position by position |
| `MockClient.SlugsDistinct` | src/lib/cms/mock-client.ts:10 | the six slugs at lines 10, 70, 124, 168, 213 and 268 are pairwise distinct |
| `MockClient.GetPageExact` | src/lib/cms/mock-client.ts:331-333 | `getPage(slug)` returns page p exactly when p is in the table with that slug |
| `MockClient.NavigationTargetsPages` | src/lib/cms/mock-client.ts:316-324 | the navigation links are `/products`, `/solutions`, `/pricing`, `/about`, `/blog` in order, and each names a page of the table |
| `MockClient.TemplatesFitBlocks` | src/lib/cms/mock-client.ts:8-314 | in the data, every hero section has a hero block, every cards section holds only cards, and every text section has a text block |
| `BlogPage.FindHero` | src/app/blog/page.tsx:25-27 | `blocks.find(b => b.type === "hero")` gives the first hero block, and nothing exactly when there is none |
| `BlogPage.FindText` | src/app/blog/page.tsx:37-39 | `blocks.find(b => b.type === "text")` gives the first text block, and nothing exactly when there is none |
| `BlogPage.RenderSection` | src/app/blog/page.tsx:23-47 | the rendered output is keyed by `section.id`; a hero section renders its first hero block if it has one; a cards section always renders the whole section; a text section renders its first text block if it has one; any other type renders nothing |
| `BlogPage.Resolve` | src/app/blog/page.tsx:22 | one output slot per section, in page order, each from that section alone |
| `BlogPage.ResolveAppend` | src/app/blog/page.tsx:22 | the sections of a concatenated list render as the two lists' outputs, concatenated |
| `BlogPage.ResolveIsolatesSections` | src/app/blog/page.tsx:45-46 | replacing one section changes only that section's slot, and an unknown type leaves its slot empty |
| `BlogPage.RenderPage` | src/app/blog/page.tsx:13-48 | a null page gives exactly "Page not found"; otherwise the header gets the navigation and the main area has one slot per section |
| `BlogPage.BlogLookup` | src/app/blog/page.tsx:8-11 | looking up `/blog` in the mock table finds the blog page |
| `BlogPage.BlogHero` | src/lib/cms/mock-client.ts:267-313 | the blog page's first section renders its hero block, headed "Insights & Resources" |
| `BlogPage.BlogCards` | src/lib/cms/mock-client.ts:267-313 | the blog page's second section renders a cards section with three cards |
| `BlogPage.View` | src/app/blog/page.tsx:6-17 | the `/blog` lookup finds the blog page, so the page renders and the not-found branch is never taken |
| `BlogPage.BlogScenario` | src/app/blog/page.tsx:6-54 | the blog page renders five header links, a hero and a cards section with three cards |
| `CardsSection.CardBlocks` | src/components/sections/CardsSection.tsx:12-14 | the filter keeps exactly the card blocks |
| `CardsSection.CardBlocksAppend` | src/components/sections/CardsSection.tsx:12-14 | filtering distributes over concatenation, so card order is kept |
| `CardsSection.CardBlocksSingle` | src/components/sections/CardsSection.tsx:13 | a single block passes the filter exactly when it is a card |
| `CardsSection.CardBlocksCount` | src/components/sections/CardsSection.tsx:12-14 | the number of cards kept is the number of card blocks |
| `CardsSection.CardBlocksIgnoresOthers` | src/components/sections/CardsSection.tsx:12-14 | a section without card blocks yields no cards |
| `CardsSection.CardBlocksAllCards` | src/components/sections/CardsSection.tsx:12-14 | a section of card blocks yields every card, in order |
| `CardsSection.ItemFor` | src/components/sections/CardsSection.tsx:45-70 | each grid item spans 12, 6 and 4 columns, shows the card's title and description, and has a link exactly when the card has one |
| `CardsSection.View` | src/components/sections/CardsSection.tsx:16-72 | the section's id is `section.id`; the heading group appears exactly when the heading or subheading is non-empty; each of the two appears exactly when it is non-empty; there is one grid item per card, in order |
| `CardsSection.EmptyGridKeepsShell` | src/components/sections/CardsSection.tsx:16-44 | a section without cards still renders its id and headings, with an empty grid |
| `TextPrimitive.ResolveTag` | src/design-system/primitives/Text.tsx:74 | an explicit `as` always wins; otherwise the tag is a default tag, and `p` when the variant is missing from the table |
| `TextPrimitive.HeadingVariants` | src/design-system/primitives/Text.tsx:49-54 | `h1` to `h6` render as the element of the same name |
| `TextPrimitive.LegacyVariants` | src/design-system/primitives/Text.tsx:55-58 | `heading-xl`, `heading-lg`, `heading-md` and `heading-sm` render as `h1`, `h2`, `h6` and `h4` |
| `TextPrimitive.BodyVariants` | src/design-system/primitives/Text.tsx:59-62 | body variants render as `p` and `caption` as `span` |
| `TextPrimitive.MissingVariantIsBody` | src/design-system/primitives/Text.tsx:60 | a missing variant resolves as `body-md` |
| `InputPrimitive.IdFromLabel` | src/design-system/primitives/Input.tsx:15 | the id derived from a label has no whitespace and no upper-case letter, and keeps the label's lower-cased characters other than whitespace and hyphens in order |
| `InputPrimitive.IdFromLabelJoin` | src/design-system/primitives/Input.tsx:15 | each maximal whitespace run of a label becomes exactly one `-` in its place, and the text on either side becomes an id on its own |
| `InputPrimitive.IdFromPlainLabel` | src/design-system/primitives/Input.tsx:15 | a label already lower-case and without whitespace is its own id |
| `InputPrimitive.InputId` | src/design-system/primitives/Input.tsx:15 | an explicit id, even an empty one, is used; otherwise there is an id exactly when there is a label, and it is derived from the label |
| `InputPrimitive.Render` | src/design-system/primitives/Input.tsx:14-58 | the label appears exactly when it is non-empty and points at the input id; the error border, `aria-invalid="true"` and the error paragraph appear exactly when the error is non-empty; `aria-describedby` names `<id>-error`, else `<id>-hint`, else is absent; the hint paragraph appears exactly when there is a hint and no error |
| `InputPrimitive.DescribedByNamesShownParagraph` | src/design-system/primitives/Input.tsx:40-58 | at most one message paragraph is shown, and `aria-describedby` is set exactly when one is shown and names that paragraph's id |
| `InputPrimitive.ExplicitIdWins` | src/design-system/primitives/Input.tsx:15 | with an explicit id, the label does not affect the input id |
| `Header.NavLinks` | src/components/layout/Header.tsx:55-63 | one link per top-level navigation item, in order, keyed by and pointing at its href, showing its label |
| `Header.NavLinksIgnoreChildren` | src/components/layout/Header.tsx:55-63 | nested children do not affect the rendered links |
| `Header.TransitionClasses` | src/components/layout/Header.tsx:39-43 | without scroll behaviour there are no transition classes; with it, `translate-y-0` is present exactly when visible and `-translate-y-full` exactly when hidden |
| `Header.HeaderState.constructor` | src/components/layout/Header.tsx:13-14 | the header starts visible exactly when it has no scroll behaviour |
| `Header.HeaderState.Classes` | src/components/layout/Header.tsx:38-43 | the class list starts with the fixed base classes and is only those without scroll behaviour; with it, `translate-y-0` is present exactly when the header is visible and `-translate-y-full` exactly when it is hidden |
| `Header.HeaderState.RunEffect` | src/components/layout/Header.tsx:16-30 | without scroll behaviour nothing is registered; with it, one new scroll listener is appended |
| `Header.HeaderState.CleanupEffect` | src/components/layout/Header.tsx:32-34 | the cleanup removes exactly the listener the effect added |
| `Header.HeaderState.OnScroll` | src/components/layout/Header.tsx:19-28 | while the handler is registered, the header is visible exactly when `scrollY > 0`; otherwise nothing changes |
| `Header.HeaderState.SetScrollBehavior` | src/components/layout/Header.tsx:16-35 | an unchanged prop changes nothing; a changed prop removes the old scroll listener and, exactly when the new value is true, appends a new registered one, and the window's list is given in full; visibility is kept |
| `Header.ScrollLifecycle` | src/components/layout/Header.tsx:13-43 | a scrolling header starts hidden, shows once scrolled, hides at the top, and leaves the window's listeners as it found them |
| `Header.TurnOnLifecycle` | src/components/layout/Header.tsx:13-35 | a header rendered without scroll behaviour and then given it stays visible, then hides at the top and shows once scrolled, with one listener added |
| `Header.StaticLifecycle` | src/components/layout/Header.tsx:13-43 | a header without scroll behaviour is always visible and registers nothing |
| `Browser.Without` | src/components/layout/Header.tsx:33 | `removeEventListener` removes exactly that registration and keeps the others, and changes nothing when it is not registered |
| `Browser.WithoutAppended` | src/components/layout/Header.tsx:30-34 | removing the listener an effect appended restores the list as it was |
| `Browser.Window.AddEventListener` | src/components/layout/Header.tsx:30 | registration appends a listener whose handler is new to the list |
| `Browser.Window.RemoveEventListener` | src/components/layout/Header.tsx:33 | unregistration removes that listener |
| `HorizontalScrollSlider.IsDesktop` | src/components/animations/HorizontalScrollSlider.tsx:53-55 | desktop mode holds exactly when the viewport is at least 1024 pixels wide |
| `HorizontalScrollSlider.LeftPadding` | src/components/animations/HorizontalScrollSlider.tsx:76-86 | the padding is 40 up to a 1280-pixel viewport and never below 40 |
| `HorizontalScrollSlider.CssPaddingLeft` | src/components/animations/HorizontalScrollSlider.tsx:172 | CSS `max(...)`: the least of the two paddings' upper bounds, equal to one of them |
| `HorizontalScrollSlider.PaddingMatchesStyle` | src/components/animations/HorizontalScrollSlider.tsx:172 | the computed padding equals the slider's CSS `max(2.5rem, calc((100vw - 80rem) / 2 + 2.5rem))` |
| `HorizontalScrollSlider.PaddingCentresContainer` | src/components/animations/HorizontalScrollSlider.tsx:81-84 | past 1280 pixels, the extra padding is the margin that centres the 1280-pixel container |
| `HorizontalScrollSlider.ScrollAmount` | src/components/animations/HorizontalScrollSlider.tsx:90-98 | at the target `x` the slider's right edge sits one padding short of the viewport's edge, since right padding equals left padding |
| `HorizontalScrollSlider.EndDistance` | src/components/animations/HorizontalScrollSlider.tsx:107-113 | the pinned scroll distance is the slider width beyond the viewport plus one padding |
| `HorizontalScrollSlider.EqualMarginsAtEnd` | src/components/animations/HorizontalScrollSlider.tsx:89-97 | at the end the right margin equals the left padding |
| `HorizontalScrollSlider.EndMatchesTravel` | src/components/animations/HorizontalScrollSlider.tsx:97-111 | the vertical end distance equals the negated horizontal target |
| `HorizontalScrollSlider.OffsetAt` | src/components/animations/HorizontalScrollSlider.tsx:101-113 | within the pinned stretch the cards' offset lies between 0 and the tween's target |
| `HorizontalScrollSlider.ScrollMapsOneToOne` | src/components/animations/HorizontalScrollSlider.tsx:101-113 | with a linear ease, scrolling d pixels into the pinned stretch moves the cards d pixels left, from 0 to the target |
| `HorizontalScrollSlider.GapOf` | src/components/animations/HorizontalScrollSlider.tsx:44 | the gap defaults to 80 when not given |
| `HorizontalScrollSlider.CardViews` | src/components/animations/HorizontalScrollSlider.tsx:143-150 | every card is rendered in order, keyed by its title, with its position as index |
| `HorizontalScrollSlider.Render` | src/components/animations/HorizontalScrollSlider.tsx:134-185 | below desktop the native row is rendered with half the gap; on desktop the pinned row with the full gap; both show every card and end their class list with `className` |
| `HorizontalScrollSlider.NativeRowShowsEveryCard` | src/components/animations/HorizontalScrollSlider.tsx:134-152 | below desktop every card is shown in order with gap `gap/2` |
| `HorizontalScrollSlider.KeepOthers` | src/components/animations/HorizontalScrollSlider.tsx:125-129 | the teardown filter keeps exactly the triggers of other elements |
| `HorizontalScrollSlider.TriggersOf` | src/components/animations/HorizontalScrollSlider.tsx:126 | the triggers whose trigger element is the given one |
| `HorizontalScrollSlider.KeepOthersAppend` | src/components/animations/HorizontalScrollSlider.tsx:125-129 | the teardown filter distributes over concatenation |
| `HorizontalScrollSlider.KeepOthersSparesOtherTargets` | src/components/animations/HorizontalScrollSlider.tsx:125-129 | tearing down one container leaves every other container's triggers as they were, in order |
| `HorizontalScrollSlider.KeepOthersIdempotent` | src/components/animations/HorizontalScrollSlider.tsx:125-129 | a second teardown of the same container removes nothing more |
| `HorizontalScrollSlider.Remove` | src/components/animations/HorizontalScrollSlider.tsx:127 | `st.kill()` removes exactly that trigger |
| `HorizontalScrollSlider.RemoveAbsent` | src/components/animations/HorizontalScrollSlider.tsx:127 | killing a trigger that is not live changes nothing |
| `HorizontalScrollSlider.RemoveFront` | src/components/animations/HorizontalScrollSlider.tsx:125-129 | killing the trigger the loop visits leaves the triggers before and after it as they were |
| `HorizontalScrollSlider.KillStep` | src/components/animations/HorizontalScrollSlider.tsx:125-129 | each iteration of the teardown loop either kills the visited trigger of this container or leaves the list alone |
| `HorizontalScrollSlider.KeepOthersDistinct` | src/components/animations/HorizontalScrollSlider.tsx:125-129 | the teardown keeps the live triggers distinct |
| `HorizontalScrollSlider.TriggerRegistry.Create` | src/components/animations/HorizontalScrollSlider.tsx:101-120 | creating the tween appends one new trigger on the container |
| `HorizontalScrollSlider.TriggerRegistry.Kill` | src/components/animations/HorizontalScrollSlider.tsx:127 | killing a trigger removes it from the live list |
| `HorizontalScrollSlider.TriggerRegistry.KillAllFor` | src/components/animations/HorizontalScrollSlider.tsx:125-129 | the `getAll().forEach` loop leaves exactly the live triggers of other elements, in order |
| `HorizontalScrollSlider.Slider.constructor` | src/components/animations/HorizontalScrollSlider.tsx:47-49 | a slider starts in non-desktop mode with no listener and no tween |
| `HorizontalScrollSlider.Slider.CheckDesktop` | src/components/animations/HorizontalScrollSlider.tsx:53-55 | `checkDesktop` sets desktop mode from the viewport width |
| `HorizontalScrollSlider.Slider.MountResizeEffect` | src/components/animations/HorizontalScrollSlider.tsx:51-58 | the first effect checks the width once and registers one resize listener |
| `HorizontalScrollSlider.Slider.UnmountResizeEffect` | src/components/animations/HorizontalScrollSlider.tsx:60-62 | its cleanup removes that resize listener |
| `HorizontalScrollSlider.Slider.RunTweenEffect` | src/components/animations/HorizontalScrollSlider.tsx:65-120 | no tween is created when not on desktop or when either element is missing; otherwise one new trigger on this container |
| `HorizontalScrollSlider.Slider.CleanupTweenEffect` | src/components/animations/HorizontalScrollSlider.tsx:123-130 | the cleanup kills the tween and exactly the triggers whose trigger is this container |
| `HorizontalScrollSlider.Slider.OnResize` | src/components/animations/HorizontalScrollSlider.tsx:53-58 | a delivered resize updates desktop mode; an unchanged mode changes nothing; entering desktop with both elements present creates one new trigger on the container and appends it to the registry, and with one missing creates nothing; leaving desktop tears this slider's triggers down |
| `HorizontalScrollSlider.WidenLifecycle` | src/components/animations/HorizontalScrollSlider.tsx:47-120 | a slider mounted on a narrow window and widened to desktop size gets a tween with one new trigger on its container |
| `YuCoinBackground.ScaledDuration` | src/components/animations/YuCoinBackground.tsx:39 | a base duration in [10, 20) times a positive multiplier lies in [10m, 20m) |
| `YuCoinBackground.NewCoin` | src/components/animations/YuCoinBackground.tsx:35-57 | a coin carries its index as id and has not been respawned; with valid draws and a positive multiplier it has a start rotation in [-30, 30), a spin in [360, 540), y in [-10, 110), x in [100, 110), size in [24, 50), delay in [0, 10) and duration base·m with base in [10, 20) |
| `YuCoinBackground.GenerateCoins` | src/components/animations/YuCoinBackground.tsx:33-58 | `generateCoins(n, m)` yields n coins with ids 0 to n-1 in order, each with respawn key 0 |
| `YuCoinBackground.GeneratedCoinsInRange` | src/components/animations/YuCoinBackground.tsx:33-58 | every coin of a generated layer lies in those ranges |
| `YuCoinBackground.BackgroundIsSlower` | src/components/animations/YuCoinBackground.tsx:62-65 | the background multiplier is 1.25 times the foreground one |
| `YuCoinBackground.RespawnCoin` | src/components/animations/YuCoinBackground.tsx:97-109 | a respawned coin keeps its id and duration, moves to x 95 with delay 0, increments its respawn key, and redraws y, size and rotation within the generated ranges |
| `YuCoinBackground.Respawn` | src/components/animations/YuCoinBackground.tsx:95-113 | only coins with the given id change, and they are respawned |
| `YuCoinBackground.RespawnKeepsIds` | src/components/animations/YuCoinBackground.tsx:101 | respawning keeps each coin's id at its index |
| `YuCoinBackground.RespawnHitsOneCoin` | src/components/animations/YuCoinBackground.tsx:95-113 | with ids equal to indices, exactly the coin at index id changes |
| `YuCoinBackground.RespawnUnknownId` | src/components/animations/YuCoinBackground.tsx:96-112 | an id no coin carries changes nothing |
| `YuCoinBackground.RespawnRenewsKey` | src/components/animations/YuCoinBackground.tsx:108 | a respawned coin gets a new `fg-id-respawnKey` key |
| `YuCoinBackground.ForegroundStyle` | src/components/animations/YuCoinBackground.tsx:173-187 | a collecting coin has no animation and z-index 3; any other coin floats with its duration and delay at z-index 2 |
| `YuCoinBackground.BackgroundStyle` | src/components/animations/YuCoinBackground.tsx:147-161 | a background coin always floats at opacity 0.5 and z-index 1, below the foreground |
| `YuCoinBackground.CoinField.constructor` | src/components/animations/YuCoinBackground.tsx:27-29 | both layers start empty and no coin is collecting |
| `YuCoinBackground.CoinField.Mount` | src/components/animations/YuCoinBackground.tsx:32-66 | the mount effect makes 16 foreground coins with multiplier 1.875 and 16 background coins with 2.34375 |
| `YuCoinBackground.CoinField.Click` | src/components/animations/YuCoinBackground.tsx:69-78 | a click on a collecting coin changes nothing; otherwise the coin starts collecting |
| `YuCoinBackground.CoinField.Complete` | src/components/animations/YuCoinBackground.tsx:86-113 | completion removes the coin from the collecting set and respawns it in the foreground; the background is untouched |
| `YuCoinBackground.CollectOnce` | src/components/animations/YuCoinBackground.tsx:69-137 | click then completion restores the collecting set, respawns only that coin at x 95, and ignores a second click in between |
| `LogoFiles.TrimHyphens` | save-new-logos.js:17 | the global pattern for a hyphen at the start or at the end removes one leading and one trailing hyphen and nothing else |
| `LogoFiles.Stem` | save-new-logos.js:17 | the stem uses only `a-z`, `0-9` and single hyphens, neither starts nor ends with a hyphen, and keeps the name's lower-cased letters and digits in order |
| `LogoFiles.FileName` | save-new-logos.js:17 | the file name is the stem followed by `.png` |
| `LogoFiles.DropLeadingHyphen` | save-new-logos.js:17 | dropping a leading hyphen keeps hyphens single and leaves no hyphen in front |
| `LogoFiles.DropTrailingHyphen` | save-new-logos.js:17 | dropping a trailing hyphen keeps hyphens single and leaves no hyphen at the end |
| `LogoFiles.TrimLeadingKeeps` | save-new-logos.js:17 | removing the leading hyphen keeps hyphens single, leaves no hyphen in front and loses no letter or digit |
| `LogoFiles.TrimTrailingKeeps` | save-new-logos.js:17 | removing the trailing hyphen keeps hyphens single, leaves no hyphen at either end and loses no letter or digit |
| `LogoFiles.TrimHyphensKeeps` | save-new-logos.js:17 | removing one leading and one trailing hyphen leaves no hyphen at either end, keeps hyphens single, and keeps the letters and digits |
| `LogoFiles.KeptAppend` | save-new-logos.js:17 | the kept characters of a concatenation are those of the parts, concatenated |
| `LogoFiles.StemSplit` | save-new-logos.js:17 | a run of other characters between two parts of a name that start and end with a letter or digit becomes exactly one hyphen between the two parts' stems |
| `LogoFiles.EdgesKept` | save-new-logos.js:17 | a lower-cased name that starts and ends with a letter or digit has nothing trimmed |
| `LogoFiles.LowerOfSlug` | save-new-logos.js:17 | a slug is already lower case |
| `LogoFiles.TrimSlug` | save-new-logos.js:17 | a slug has nothing to trim |
| `LogoFiles.StemIdempotent` | save-new-logos.js:17 | slugging a stem again gives the same stem |
| `LogoFiles.Writes` | save-new-logos.js:15-22 | there are no more writes than entries |
| `LogoFiles.WritesFromEntries` | save-new-logos.js:16-20 | each write comes from an entry with non-empty image data and is named after that entry |
| `LogoFiles.WritesCount` | save-new-logos.js:16 | the number of files written is the number of entries with non-empty image data |
| `LogoFiles.WritesSkipEmpty` | save-new-logos.js:16 | entries without image data produce no file |
| `LogoFiles.WritesAppend` | save-new-logos.js:15 | the writes of a concatenated list are the writes of its parts, in order |
| `LogoFiles.Directory` | save-new-logos.js:19-20 | every written file name is in the directory, and each file holds the data of some write to it |
| `LogoFiles.LastWriteLands` | save-new-logos.js:20 | the last write's file holds its data |
| `LogoFiles.OtherWriteKeeps` | save-new-logos.js:20 | a write to another file leaves a file's data unchanged |
| `LogoFiles.LastWriteWins` | save-new-logos.js:15-20 | after any sequence of writes, a file holds the data of the last write to it |
| `LogoFiles.SecondWriteWins` | save-new-logos.js:20 | of two writes to the same file, the second one's data remains |
| `LogoFiles.LaterLogoWins` | save-new-logos.js:17-20 | two logos whose names slug alike share one file, which holds the later logo's data |
| `LogoFiles.SaveLogos` | save-new-logos.js:15-22 | the `forEach` loop makes exactly the writes of the specification, in list order |

## Left out

- Fetching is left out: the `async` calls, `Promise.all` and `getCMSClient` are modelled as direct calls, because the mock client only returns constants.
- Rendering of child components is left out: `CMSHeroSection`, `TextSection`, `Container`, `Stack`, `Grid`, `Card`, `FadeIn`, `StaggerFadeIn`, `SliderCard`, `Logo` and `Button`. Each is modelled as the props it receives. Styling class lists and `cn` merging are left out, except where a rule chooses between classes.
- Lower-casing and `\s` are ASCII only. JavaScript's Unicode case mapping and its Unicode whitespace class are not modelled.
- `TextPrimitive.ResolveTag`: the tag map is a plain object, so `variant` values such as `constructor` would find inherited prototype properties. The model treats every key outside the 14 listed ones as missing.
- `InputPrimitive.Render`: attributes a caller passes through the rest props (`{...props}`, spread after the computed attributes) are not modelled. A caller-supplied `aria-invalid` or `aria-describedby` overrides the computed value, so the contract describes the input only when the caller passes neither.
- The properties `label` and `as` are renamed to `caption` and `asTag` in the model, because `label` and `as` are reserved words in Dafny.
- `Header.HeaderState.OnScroll` models only delivery to the handler while it is registered. The `passive` option and the reading of `window.scrollY` from the browser are parameters or left out.
- GSAP is left out beyond what fixes the end state: `registerPlugin`, pinning, `pinSpacing`, `anticipatePin`, `invalidateOnRefresh`, the `start` offset and the string form `+=<distance>` of `end`. `scrub: 1` smoothing is also left out; `HorizontalScrollSlider.ScrollMapsOneToOne` describes the settled position of a linear tween.
- `HorizontalScrollSlider.ScrollMapsOneToOne` requires a positive end distance. The distance is non-positive exactly when the slider's width is at most the viewport width minus the left padding, and the source does not clamp it; the model does not describe GSAP's behaviour in that case.
- `HorizontalScrollSlider.Slider.CleanupTweenEffect`: whether `tween.kill()` also kills its own ScrollTrigger is not modelled separately. The loop that follows kills every trigger on the container, so the end state is the same.
- The collection animation of a clicked coin is left out: `gsap.set`, the timeline, `DOMMatrix` and `getComputedStyle`. Only its `onComplete` is modelled, as `YuCoinBackground.CoinField.Complete`. `event.stopPropagation` is left out.
- Number-to-string formatting in style strings (`${coin.y}%`, `floatCoin ${duration}s ...`) and the React key strings are modelled as structured values, not text.
- `Math.random()` draws are parameters in [0, 1). The model uses exact real arithmetic, not IEEE doubles.
- The logo script's file-system I/O is modelled as the sequence of writes it makes: reading the JSON export, `mkdirSync`, `Buffer.from` base64 decoding and the console logging are left out. `logo.name` is taken to be a string; a missing name makes the script throw, and that case is not modelled.
- `Browser.Without`: the contract states which registrations remain, not that they keep their relative order.
- `LogoFiles.StemSplit` and `InputPrimitive.IdFromLabelJoin` state the placement of one run at a time; a name with several runs follows by applying them repeatedly.
- Mounting order, React batching and re-render scheduling are left out. Effects and their cleanups are methods that callers run in React's order.
