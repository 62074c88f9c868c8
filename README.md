# Portfolio site: verified model of its decision rules and state machines

The portfolio site is a single-page React application. Its sections are hero, about, skills, services, projects, experience, languages and contact. Most of it is presentation. Around that presentation sit a number of small rules and state machines, and this project models them in Dafny and proves what they promise:

- **Backgrounds.** The section background manager and the section spotlight each pick the most visible section from a batch of intersection observations. Each applies a hysteresis threshold and maps the winner to a background variant or to a clamped focal point.
- **Procedural generators.** The tech-grid background builds its node grid, lights random nodes and joins them. The noise background fills a pixel buffer.
- **Data tables.** The skills and services tables, and their per-category filters.
- **Selection panels.** The skills lab and the services panel keep the selected item in the active category.
- **Lookups.** The skill-demo dispatch and the technology icon lookup, each with its fallback.
- **Preference stores.** The theme, reduced-motion and high-contrast providers; the i18n default-language resolution; the SEO head's alternate links; the header's menus.
- **Display rules.** The contact form's validation and submit-status machine, the project cards' stack badge, the case-study modal, the experience timeline and the language star ratings.
- **Skill demos.** The animated demos (Node, Git, TypeScript, GraphQL, Redis, Vue, REST, React), each a modular step counter with state derived from it.

Each source file is one Dafny module, named after the component. Code that only computes values becomes functions and lemmas. React state becomes a class whose methods are the state setters, effects and event handlers. Loops become methods proved against specification functions.

Three helper modules are shared:
- `Wrappers`: `Option`, `Result` and the hooks' provider guard.
- `Seqs`: filtering, subsequences, distinctness and counting.
- `Text`: JavaScript string operations — `split` on one character, `trim` over the JavaScript white-space set, `String(n)`, and template interpolation of `undefined`.

`DemoCounter` holds the modular counter the demos share.

Browser facts enter the model as parameters:
- media-query matches;
- intersection ratios and bounding rectangles;
- stored values;
- `navigator.language`;
- `Math.random()` draws.

Each firing of an interval or timeout is a method call.

## Model

| member | source | states |
|---|---|---|
| Visibility.MaxRatio | src/components/backgrounds/BackgroundManager.tsx:30-38 | the running maximum after a batch is at least 0 and bounds every entry's intersection ratio |
| Visibility.Winner | src/components/backgrounds/BackgroundManager.tsx:33-38 | the entry the scan keeps, when there is one, is an index of the batch |
| Visibility.WinnerIsFirstMaximum | src/components/backgrounds/SectionSpotlight.tsx:25-33 | no entry is kept exactly when no ratio is positive (and then the maximum is 0); otherwise the kept entry is the first one holding the batch maximum, which is positive |
| Visibility.TieGoesToFirst | src/components/backgrounds/SectionSpotlight.tsx:29 | with the strict comparison, a later entry tied with an earlier one is never kept |
| Visibility.MostVisible | src/components/backgrounds/SectionSpotlight.tsx:25-33 | the forEach loop computes exactly the batch maximum and the first maximal entry; no entry is kept iff every ratio is at most 0 |
| BackgroundManager.ParseSection | src/components/backgrounds/BackgroundManager.tsx:12 | a parsed id names a section type whose id is the input |
| BackgroundManager.ParseSectionId | src/components/backgrounds/BackgroundManager.tsx:12 | every section type's id parses back to that section type |
| BackgroundManager.BackgroundFor | src/components/backgrounds/BackgroundManager.tsx:58 | a background is found exactly for the seven section ids |
| BackgroundManager.BackgroundTable | src/components/backgrounds/BackgroundManager.tsx:14-22 | hero, about and contact show the aurora, skills the tech grid, projects the noise, experience and languages the path background; every section type has a background |
| BackgroundManager.ServicesHasNoBackground | src/components/Services.tsx:52 | the services section's id "services" is not in the table, so the lookup yields nothing |
| BackgroundManager.CrossFadeDuration | src/components/backgrounds/BackgroundManager.tsx:78-80 | the cross-fade lasts 0 s exactly under reduced motion, 0.8 s otherwise |
| BackgroundManager.Manager.constructor | src/components/backgrounds/BackgroundManager.tsx:25 | the active section starts as "hero" |
| BackgroundManager.Manager.HandleIntersection | src/components/backgrounds/BackgroundManager.tsx:28-43 | when the batch maximum is above 0.3 the active section becomes the first maximal entry's id; otherwise it is unchanged |
| BackgroundManager.QuietBatchKeepsSection | src/components/backgrounds/BackgroundManager.tsx:30-42 | an empty or all-zero batch keeps no entry and has a maximum at or below 0.3, so the section stays |
| BackgroundManager.KnownSectionsKeepBackground | src/components/backgrounds/BackgroundManager.tsx:40-42 | when every observed id is one of the seven and the maximum is above 0.3, the new section has a background |
| SectionSpotlight.Clamp | src/components/backgrounds/SectionSpotlight.tsx:46-47 | `Math.max(lo, Math.min(hi, v))` lies in [lo, hi], is v inside the range and the nearer bound outside it |
| SectionSpotlight.ClampIdempotent | src/components/backgrounds/SectionSpotlight.tsx:46-47 | clamping a clamped value changes nothing |
| SectionSpotlight.Percent | src/components/backgrounds/SectionSpotlight.tsx:41-42 | the percentage is the exact quotient times 100 for a non-zero divisor; a zero divisor gives NaN for a zero numerator and an infinity of the numerator's sign otherwise |
| SectionSpotlight.ClampNumber | src/components/backgrounds/SectionSpotlight.tsx:46-47 | the clamp keeps NaN as NaN, sends the infinities to the bounds, and puts every other value in [lo, hi] as the real clamp does |
| SectionSpotlight.SpotFor | src/components/backgrounds/SectionSpotlight.tsx:36-48 | the stored position carries the entry's id; a coordinate is NaN exactly when its divisor and numerator are both 0; otherwise it lies in x 20..80 and y 10..90, and equals the raw centre when that is already inside the bounds |
| SectionSpotlight.Spotlight.constructor | src/components/backgrounds/SectionSpotlight.tsx:13-22 | the position starts at hero (50, 50), the springs at 50, inside the bounds |
| SectionSpotlight.Spotlight.UpdatePosition | src/components/backgrounds/SectionSpotlight.tsx:24-50 | with a kept entry and a maximum above 0.2 the position becomes that entry's clamped centre; otherwise it is unchanged; the bounds are kept whenever the viewport width and scroll height are not 0 |
| SectionSpotlight.Spotlight.SyncSprings | src/components/backgrounds/SectionSpotlight.tsx:66-71 | without reduced motion the springs take the position's centre; under reduced motion they keep their values |
| SectionSpotlight.Spotlight.HighlightAt | src/components/backgrounds/SectionSpotlight.tsx:73-95 | the highlight is pinned at (50, 50) under reduced motion and follows the springs otherwise |
| SectionSpotlight.SyncedHighlightInBounds | src/components/backgrounds/SectionSpotlight.tsx:66-71 | after a sync from an in-bounds position the drawn highlight is finite and lies in x 20..80 and y 10..90 |
| SectionSpotlight.ZeroWidthViewportStoresNaN | src/components/backgrounds/SectionSpotlight.tsx:35-48 | a winning section centred on the left edge of a zero-width viewport stores a NaN centre, which the clamp lets through, so the position leaves the bounds |
| TechGrid.NodeInSquare | src/components/backgrounds/TechGridBackground.tsx:27-28 | every node lies in the 0..100 square; the first column is at x 0 and the last at x 100 |
| TechGrid.RowMajor | src/components/backgrounds/TechGridBackground.tsx:21-26 | the running id row * 12 + col gives back the column and the row |
| TechGrid.BuildNodes | src/components/backgrounds/TechGridBackground.tsx:17-34 | the nested loops build 96 nodes, node k with id k at its row-major position with delay twice its draw, all inside the square |
| TechGrid.Dedup | src/components/backgrounds/TechGridBackground.tsx:41-46 | the set built by adding a list of ids is no longer than the list |
| TechGrid.DedupIsSet | src/components/backgrounds/TechGridBackground.tsx:41-46 | that set holds each id once, holds exactly the added ids, and is not empty when an id was added |
| TechGrid.PickNode | src/components/backgrounds/TechGridBackground.tsx:45 | `Math.floor(r * 96)` for r in [0, 1) is a node id below 96 |
| TechGrid.ActiveCount | src/components/backgrounds/TechGridBackground.tsx:42 | `3 + Math.floor(r * 5)` lies between 3 and 7 |
| TechGrid.NewActive | src/components/backgrounds/TechGridBackground.tsx:41-46 | the loop yields the set of the first 3..7 picked ids: 1 to 7 distinct ids, all below 96 |
| TechGrid.Picked | src/components/backgrounds/TechGridBackground.tsx:44-46 | n picks give n ids |
| TechGrid.PickedBelow | src/components/backgrounds/TechGridBackground.tsx:45 | every picked id is below 96 |
| TechGrid.ConnectionsCount | src/components/backgrounds/TechGridBackground.tsx:129-135 | one active id draws no line; n >= 2 distinct ids draw n lines, line i joining id i to the next id in set order, wrapping round |
| TechGrid.ConnectionEnds | src/components/backgrounds/TechGridBackground.tsx:129-135 | every line joins two different active ids |
| TechGrid.Background.constructor | src/components/backgrounds/TechGridBackground.tsx:14 | no node is active at first |
| TechGrid.Background.Tick | src/components/backgrounds/TechGridBackground.tsx:37-52 | under reduced motion nothing changes; otherwise the active set becomes the picked set of 1..7 ids below 96 |
| NoiseBackground.ToUint8Clamp | src/components/backgrounds/NoiseBackground.tsx:27-29 | a stored byte lies in 0..255 and, for a value in range, is within 0.5 of it |
| NoiseBackground.PixelShape | src/components/backgrounds/NoiseBackground.tsx:25-31 | red, green and blue of a pixel are equal, alpha is 15, and a draw in [0, 1) gives a colour byte in 0..20 |
| NoiseBackground.FillNoise | src/components/backgrounds/NoiseBackground.tsx:25-31 | the stride-4 loop writes every byte of the buffer with its pixel byte |
| NoiseBackground.Canvas.constructor | src/components/backgrounds/NoiseBackground.tsx:39-46 | a canvas element without size attributes starts at 300 x 150, every pixel transparent black |
| NoiseBackground.MountEffect | src/components/backgrounds/NoiseBackground.tsx:10-34 | without a 2D context the canvas is untouched; with one it becomes 200 x 200 holding the 160000 filled bytes |
| SkillsData.Block | src/data/skills.ts:47-92 | each category's group of the table is non-empty and holds only skills of that category |
| SkillsData.SkillCategoriesComplete | src/data/skills.ts:35-45 | the category list names each of the nine categories, once |
| SkillsData.SkillsByCategoryExact | src/data/skills.ts:94-96 | `getSkillsByCategory(c)` holds exactly the table's skills of category c, in table order |
| SkillsData.SkillsByCategoryValue | src/data/skills.ts:94-96 | the filter for c returns precisely c's group of the table |
| SkillsData.EveryCategoryHasSkills | src/data/skills.ts:94-96 | every tab has a first skill, of that tab's category |
| SkillsData.TableLength | src/data/skills.ts:47-92 | the table holds 27 skills |
| SkillsData.CategoriesPartitionSkills | src/data/skills.ts:47-96 | the nine per-category lists add up to the 27 skills |
| SkillsData.FirstSkill | src/data/skills.ts:49 | the table's first skill is React, in the frontend category |
| SkillsData.SkillIdsUnique | src/data/skills.ts:47-92 | no two skills share an id |
| SkillsData.SameIdSameSkill | src/data/skills.ts:47-92 | two table skills with the same id are the same skill |
| ServicesData.Block | src/data/services.ts:20-40 | each category's group of the table is non-empty and holds only services of that category |
| ServicesData.ServiceCategoriesComplete | src/data/services.ts:14-18 | the category list names development, design and consulting, once each |
| ServicesData.ServicesByCategoryExact | src/data/services.ts:42-44 | `getServicesByCategory(c)` holds exactly the table's services of category c, in table order |
| ServicesData.ServicesByCategoryValue | src/data/services.ts:42-44 | the filter for c returns precisely c's group of the table |
| ServicesData.EveryCategoryHasServices | src/data/services.ts:42-44 | every tab has a first service, of that tab's category, and as many services as its group |
| ServicesData.TableLength | src/data/services.ts:20-40 | the table holds 14 services |
| ServicesData.CategoriesPartitionServices | src/data/services.ts:20-44 | development has 6 services, design 4 and consulting 4, adding up to the 14 |
| ServicesData.FirstService | src/data/services.ts:22 | the table's first service is web apps, in the development category |
| ServicesData.ServiceIdsUnique | src/data/services.ts:20-40 | no two services share an id |
| ServicesData.SameIdSameService | src/data/services.ts:20-40 | two table services with the same id are the same service |
| SkillsLab.Lab.constructor | src/components/SkillsLab.tsx:17-19 | the panel opens on the frontend tab with the first skill selected and the demo playing, the selection lying in the tab |
| SkillsLab.Lab.HandleCategoryChange | src/components/SkillsLab.tsx:44-50 | the tab becomes the chosen category and its first skill is selected (the guard never fails), play state unchanged |
| SkillsLab.Lab.SelectSkill | src/components/SkillsLab.tsx:115-118 | clicking a grid item selects exactly that skill and changes nothing else |
| SkillsLab.Lab.TogglePlay | src/components/SkillsLab.tsx:151 | play/pause flips the play state and nothing else |
| SkillsLab.SelectedInActiveCategory | src/components/SkillsLab.tsx:21 | the selected skill is of the active category and shown in the grid |
| SkillsLab.HighlightIsSelection | src/components/SkillsLab.tsx:119-123 | a grid item is highlighted (id comparison) exactly when it is the selected skill |
| ServicesPanel.Panel.constructor | src/components/Services.tsx:16-17 | the panel opens on the development tab with the first service selected, the selection lying in the tab |
| ServicesPanel.Panel.HandleCategoryChange | src/components/Services.tsx:42-48 | the tab becomes the chosen category and its first service is selected |
| ServicesPanel.Panel.SelectService | src/components/Services.tsx:111-114 | clicking a grid item selects exactly that service |
| ServicesPanel.SelectedInActiveCategory | src/components/Services.tsx:19 | the selected service is of the active category and shown in the grid |
| ServicesPanel.HighlightIsSelection | src/components/Services.tsx:115-119 | a grid item is highlighted (id comparison) exactly when it is the selected service |
| SkillDemo.DispatchFaithful | src/components/skills/SkillDemo.tsx:17-31 | redux, websockets, redis, docker and rest get their own demo with `isPlaying` and `reducedMotion` passed unchanged; every other type gets the default demo with the skill |
| SkillDemo.UnhandledDemoTypesFallBack | src/components/skills/SkillDemo.tsx:29-30 | the react, typescript, graphql, git, vue and nodejs demo types reach the default demo |
| SkillDemo.TableSkillsWithUnhandledTypes | src/data/skills.ts:49-84 | six table skills (React, TypeScript, Vue, Node.js, GraphQL, Git) carry such a demo type |
| TechIcon.EveryIconRegistered | src/components/TechIcon.tsx:30-55 | each of the 24 icons is a key of the map under its own name, and the map (and so the lookup) sends that name to that icon |
| TechIcon.LookupFallback | src/components/TechIcon.tsx:64 | a registered name gets its mapped icon, any other name the Atom fallback; the lookup yields Atom exactly for unregistered names and "atom" |
| TechIcon.Render | src/components/TechIcon.tsx:63-65 | the element shows the looked-up icon, `className` defaulting to the empty string and `style` passed through |
| TechIcon.SkillGroupIconsMapped | src/components/TechIcon.tsx:30-55 | every icon name in a group of the skills table is a key of the map |
| TechIcon.SkillIconsMapped | src/components/SkillsLab.tsx:125-129 | every skill's icon is a key, so the grid draws its mapped icon |
| TechIcon.ServiceIconsFallBack | src/components/Services.tsx:121-125 | eight service icon names (globe, smartphone, shopping-cart, layout, users, star, lightbulb, code) are not keys and are drawn as Atom |
| TechIcon.FirstServicesFallBack | src/data/services.ts:22-23 | web apps and mobile apps use two of those names |
| TechIcon.SharedServiceIconsMapped | src/data/services.ts:24-39 | the other six service icon names are keys |
| Theme.InitialTheme | src/hooks/useTheme.tsx:16-26 | in a browser a non-empty stored value wins, unchecked, so only storage can yield a theme other than dark or light; with nothing stored the theme is light exactly when the system prefers light; without a window it is dark |
| Theme.Toggled | src/hooks/useTheme.tsx:42 | toggling yields dark or light, and light exactly when the theme was dark |
| Theme.ToggleTwiceRestores | src/hooks/useTheme.tsx:42 | toggling a dark or light theme twice restores it |
| Theme.ToggleTwiceFromInvalid | src/hooks/useTheme.tsx:19 | an invalid stored theme ("blue") is not restored by two toggles: it goes to dark, then light |
| Theme.ClassesFor | src/hooks/useTheme.tsx:32-38 | after the effect "dark" is a document class exactly for the dark theme and "light" exactly otherwise; other classes are kept |
| Theme.ThemeProvider.constructor | src/hooks/useTheme.tsx:16-39 | the provider starts at the initial theme; in a browser the effect has stored it under "theme-mode" and set the classes, so it is in sync; without a window storage and classes are untouched |
| Theme.ThemeProvider.SyncEffect | src/hooks/useTheme.tsx:28-39 | the effect stores the theme under "theme-mode" and sets the classes, leaving the provider in sync |
| Theme.ThemeProvider.SetTheme | src/hooks/useTheme.tsx:41 | setting a theme stores it and sets its classes |
| Theme.ThemeProvider.ToggleTheme | src/hooks/useTheme.tsx:42 | toggling moves to the toggled theme, stores it and sets its classes |
| Theme.ToggleTwice | src/hooks/useTheme.tsx:42 | two toggles from dark or light restore the theme and the stored value |
| Theme.UseTheme | src/hooks/useTheme.tsx:51-57 | the hook fails, with its error message, exactly outside a provider |
| ReducedMotion.EnabledAfterChange | src/hooks/useReducedMotion.tsx:20-25 | a matching change turns reduced motion on; a non-matching one never turns it off; nothing else turns it on |
| ReducedMotion.ReducedMotionProvider.constructor | src/hooks/useReducedMotion.tsx:12-13 | both flags start false |
| ReducedMotion.ReducedMotionProvider.Mount | src/hooks/useReducedMotion.tsx:15-18 | on mount both flags take the media query's value |
| ReducedMotion.ReducedMotionProvider.HandleChange | src/hooks/useReducedMotion.tsx:20-25 | a change records the preference and only ever switches reduced motion on |
| ReducedMotion.ReducedMotionProvider.SetReducedMotionEnabled | src/hooks/useReducedMotion.tsx:32 | the user setter changes the enabled flag only |
| ReducedMotion.UserOverrideSurvivesNonMatch | src/hooks/useReducedMotion.tsx:22-24 | a user who switched reduced motion off keeps it off through a non-matching change |
| ReducedMotion.UseReducedMotion | src/hooks/useReducedMotion.tsx:38-44 | the hook fails, with its error message, exactly outside a provider |
| HighContrast.WrapperClass | src/hooks/useHighContrast.tsx:19 | the wrapper carries "high-contrast" exactly when enabled, and no class otherwise |
| HighContrast.HighContrastProvider.constructor | src/hooks/useHighContrast.tsx:11 | high contrast starts off |
| HighContrast.HighContrastProvider.Toggle | src/hooks/useHighContrast.tsx:13-15 | the toggle flips the flag |
| HighContrast.ToggleTwice | src/hooks/useHighContrast.tsx:13-19 | two toggles restore the flag and the wrapper class |
| HighContrast.UseHighContrast | src/hooks/useHighContrast.tsx:26-32 | the hook fails, with its error message, exactly outside a provider |
| Text.Split | src/i18n/index.ts:24 | `String.prototype.split` on one character always yields at least one piece, and no piece holds the separator |
| Text.JoinSplit | src/components/Experience.tsx:135 | joining the pieces of a split with the separator gives back the string |
| Text.SplitJoin | src/components/Experience.tsx:135 | splitting a join of separator-free pieces gives back the pieces |
| Text.SplitTwo | src/components/CaseStudyModal.tsx:190 | a string made of two separator-free parts around one separator splits into exactly those two parts |
| Text.At | src/components/CaseStudyModal.tsx:190 | indexing the pieces finds a value exactly below their count (JavaScript yields `undefined` past the end) |
| Text.Interpolate | src/components/CaseStudyModal.tsx:195 | a template literal writes a string as is and `undefined` as the text "undefined" |
| Text.TrimStartShape | src/components/Contact.tsx:25 | dropping leading white space leaves a suffix that starts with a non-white-space character, everything dropped being white space |
| Text.TrimEndShape | src/components/Contact.tsx:25 | dropping trailing white space leaves a prefix that ends with a non-white-space character, everything dropped being white space |
| Text.TrimShape | src/components/Contact.tsx:25 | `trim()` keeps one contiguous part of the input, cutting only white space on either side and ending on non-white-space characters |
| Text.TrimEmpty | src/components/Contact.tsx:25-26 | trimming leaves nothing exactly when the input is all white space |
| Text.TrimIdempotent | src/components/Contact.tsx:25 | trimming twice is trimming once |
| Text.NatToString | src/components/CaseStudyModal.tsx:177 | `String(n)` of a natural number is a non-empty string of decimal digits, one digit for n below 10 |
| Text.NatToStringRoundTrip | src/components/CaseStudyModal.tsx:177 | reading the digits back gives the number |
| Text.NatToStringInjective | src/components/CaseStudyModal.tsx:177 | different numbers give different strings |
| I18n.ParseLang | src/i18n/index.ts:8-9 | a code parses exactly when it is one of "en", "ru", "am", and parses to the language with that code |
| I18n.ParseCode | src/i18n/index.ts:8 | every language's code is supported and parses back to the language |
| I18n.LanguageName | src/i18n/index.ts:11-15 | every language has a non-empty display name |
| I18n.LanguageFlag | src/i18n/index.ts:17-21 | every flag is two regional-indicator code points, spelling the country code GB, RU or AM |
| I18n.TablesDistinguishLanguages | src/i18n/index.ts:8-21 | different languages have different codes, names and flags |
| I18n.BrowserLanguage | src/i18n/index.ts:24 | the browser language is the part of `navigator.language` before its first hyphen: a hyphen-free prefix that is the whole input or is followed by a hyphen |
| I18n.BrowserLanguageOk | src/i18n/index.ts:24 | the first piece of a split on '-' is a prefix of the input ending at the input's end or at a hyphen |
| I18n.BrowserLanguageOfRegion | src/i18n/index.ts:24 | "ru-RU" gives "ru" |
| I18n.DefaultLanguage | src/i18n/index.ts:25 | a non-empty saved language wins unchecked; otherwise the browser language exactly when it is supported, and "en" when it is not |
| I18n.ChangePersists | src/i18n/index.ts:23-25 | after `changeLanguage(l)` the next start-up picks l |
| I18n.LanguageStore.constructor | src/i18n/index.ts:23-35 | the store starts on the initial language |
| I18n.LanguageStore.ChangeLanguage | src/i18n/index.ts:42-45 | changing the language stores its code under "language" and switches to it |
| SeoHead.BaseUrl | src/components/SEOHead.tsx:19 | the base URL is the window's origin, or "https://example.com" without a window |
| SeoHead.CurrentUrl | src/components/SEOHead.tsx:20 | the canonical URL starts with the base URL and continues with the path |
| SeoHead.AlternateHref | src/components/SEOHead.tsx:25 | a language's link is the base URL, "/", the language code, then the path, which is dropped for the root |
| SeoHead.AlternateLinks | src/components/SEOHead.tsx:23-26 | one link per supported language, in the order "en", "ru", "am", each carrying its own code |
| SeoHead.AlternateHrefsDistinct | src/components/SEOHead.tsx:54-61 | no two language links point to the same page |
| SeoHead.XDefaultIsEnglish | src/components/SEOHead.tsx:62 | the x-default link is the English link |
| SeoHead.OgLocaleAlternates | src/components/SEOHead.tsx:71-73 | the alternate locales are the supported languages other than the current one, in order |
| SeoHead.OgLocaleAlternatesCount | src/components/SEOHead.tsx:71-73 | a supported current language leaves two alternates; an unsupported one leaves all three |
| SeoHead.DocumentElement.constructor | src/components/SEOHead.tsx:30-33 | the document element starts without a language or direction |
| SeoHead.LanguageEffect | src/components/SEOHead.tsx:28-34 | the effect sets the document language to the current one and the direction to "ltr" |
| Header.NavLinksAreAnchors | src/components/Header.tsx:15-22 | the six navigation links point to the in-page anchor of their own key |
| Header.NavTargetsHaveBackgrounds | src/components/Header.tsx:15-22 | every navigation target is a section with a background |
| Header.HeaderState.constructor | src/components/Header.tsx:27-28 | both menus start closed |
| Header.HeaderState.ToggleLangMenu | src/components/Header.tsx:97 | the language button flips the language menu only |
| Header.HeaderState.HandleLanguageChange | src/components/Header.tsx:32-35 | choosing a language persists and applies it and closes the language menu, leaving the mobile menu as it was |
| Header.HeaderState.ToggleMobileMenu | src/components/Header.tsx:37-39 | the menu button flips the mobile menu only |
| Header.HeaderState.CloseMobileMenu | src/components/Header.tsx:41-43 | the backdrop and the mobile links close the mobile menu only |
| Header.CloseTwice | src/components/Header.tsx:155-171 | closing twice is closing once |
| Contact.Utf16Length | src/components/Contact.tsx:26-27 | the JavaScript length of a string counts UTF-16 code units: at least one and at most two per character |
| Contact.LengthIssuesMeaning | src/components/Contact.tsx:24-27 | a field has no issue exactly when its length is 1 to the limit; "required" exactly when it is empty, "too long" exactly when above the limit; at most one of them |
| Contact.First | src/components/Contact.tsx:155-161 | the issue shown for a field is its first one, and none exactly when it has none |
| Contact.ValidateMeaning | src/components/Contact.tsx:23-43 | the form is accepted exactly when no field has an issue, and then the trimmed values are handed on; a rejection carries at least one field error, and each field's error is its first issue, or none exactly when that field passes |
| Contact.ErrorsPerField | src/components/Contact.tsx:23-43 | the error reported for a field depends on that field's value alone |
| Contact.ValidateBounds | src/components/Contact.tsx:23-37 | accepted exactly when the trimmed name has 1 to 100 code units, the trimmed address 1 to 255 and passes the format check, and the trimmed message 1 to 1000 |
| Contact.BlankNameRejected | src/components/Contact.tsx:24-26 | a name of white space only is rejected with "name required" |
| Contact.EmptyEmailShowsRequired | src/components/Contact.tsx:28-31 | an empty address is rejected with "email required", not "invalid" |
| Contact.ButtonLabelsDistinct | src/components/Contact.tsx:171-191 | each submit status shows its own button label |
| Contact.ContactForm.constructor | src/components/Contact.tsx:20 | the form starts idle, empty, not yet submitted, without errors or pending timers |
| Contact.ContactForm.Disabled | src/components/Contact.tsx:169 | the button is disabled exactly while loading |
| Contact.ContactForm.Edit | src/components/Contact.tsx:41-43 | typing replaces one field's value; before the first submission no error changes; afterwards that field's error becomes the resolver's first issue for the new value; the other fields' errors, the status and the timers are kept |
| Contact.ContactForm.Fill | src/components/Contact.tsx:115-153 | typing a whole form leaves exactly those values; once submitted, the errors shown are exactly the resolver's for them |
| Contact.ContactForm.HandleSubmit | src/components/Contact.tsx:41-47 | a rejected form shows the resolver's field errors, keeps the status and is marked submitted; an accepted one clears the errors, goes to loading and starts a submission |
| Contact.ContactForm.SubmissionCompletes | src/components/Contact.tsx:49-58 | when a submission's wait ends the data is logged, the status is success, values and errors are reset, a reset timer starts, and the form counts as submitted |
| Contact.ContactForm.ResetTimerFires | src/components/Contact.tsx:58 | a reset timer sets the status back to idle, whatever it is, and changes nothing else |
| Contact.CorrectingAfterRejection | src/components/Contact.tsx:41-43 | after a rejected submission, correcting the name clears its error while the address and message keep theirs |
| Contact.SecondSubmissionShownIdle | src/components/Contact.tsx:54-58 | a second submission sent during the success message is shown idle, with the button enabled, while it is still in flight |
| Contact.LinkAttributes | src/components/Contact.tsx:209-210 | a mail link opens in place without `rel`; any other link opens in a new tab with "noopener noreferrer" |
| Contact.ContactLinkTargets | src/data/contact.ts:10-35 | the e-mail link opens in place; LinkedIn, GitHub and Telegram open in a new tab |
| CaseStudyModal.OwnedKeyRoundTrip | src/components/CaseStudyModal.tsx:189-195 | an owned key with one dot, "title.item", is translated under "projects.items." followed by that same key |
| CaseStudyModal.OwnedKeyWithoutDot | src/components/CaseStudyModal.tsx:190-195 | an owned key without a dot yields the key "projects.items.<title>.undefined" |
| CaseStudyModal.SplitNoSeparator | src/components/CaseStudyModal.tsx:190 | splitting a string without the separator gives one piece |
| CaseStudyModal.Body.constructor | src/components/CaseStudyModal.tsx:20 | the body keeps the overflow style it is given |
| CaseStudyModal.LockScroll | src/components/CaseStudyModal.tsx:19-20 | opening the dialog sets the body overflow to "hidden" |
| CaseStudyModal.UnlockScroll | src/components/CaseStudyModal.tsx:21-23 | closing it sets the body overflow to "unset", not back to the earlier value |
| CaseStudyModal.OnlyEscapeKeyCloses | src/components/CaseStudyModal.tsx:27-33 | a key press closes the dialog exactly for "Escape"; backdrop and close button close it; a click on the content does not |
| CaseStudyModal.ButtonFor | src/components/CaseStudyModal.tsx:100-107 | a live link gets the "default" button variant and the "view live" label; every other link gets "outline" and "view code" |
| CaseStudyModal.ScreenshotLabels | src/components/CaseStudyModal.tsx:172-177 | n screenshots get n labels, the i-th reading "Screenshot " and the decimal number i + 1 |
| CaseStudyModal.ScreenshotLabelsDistinct | src/components/CaseStudyModal.tsx:172-177 | no two screenshot labels are equal |
| Projects.ShownChips | src/components/Projects.tsx:100 | at most four chips are shown, the first ones of the stack, and the whole stack when it has four or fewer |
| Projects.OverflowBadge | src/components/Projects.tsx:108-112 | the "+n" badge appears exactly when the stack has more than four entries |
| Projects.ChipsAndBadgeCoverStack | src/components/Projects.tsx:100-112 | chips plus the badge's count add up to the stack's length, and a badge counts at least 1 |
| Projects.TableBadges | src/data/projects.ts:29-66 | the e-commerce project shows "+2", the analytics project "+1", the mobile app no badge |
| Projects.TableOwnedKeysRoundTrip | src/data/projects.ts:41-77 | every owned key of the table is translated under its own key |
| Projects.ProjectsSection.constructor | src/components/Projects.tsx:15 | no project is selected at first |
| Projects.ProjectsSection.Click | src/components/Projects.tsx:67-124 | a click on a card selects its project; a click on a card link does not propagate and leaves the selection |
| Projects.ProjectsSection.DialogEvent | src/components/Projects.tsx:146-150 | an event that closes the dialog clears the selection, which closes it; any other event leaves it |
| Experience.BulletKeyRoundTrip | src/components/Experience.tsx:134-140 | a bullet key "company.bullet" is translated under "experience.bullets." followed by that same key |
| Experience.TableBulletsRoundTrip | src/data/experience.ts:15-29 | every bullet key of the table is translated under its own key |
| Experience.Timeline.constructor | src/components/Experience.tsx:12 | the line starts undrawn, with no timer |
| Experience.Timeline.RunEffect | src/components/Experience.tsx:14-21 | in view without reduced motion a 300 ms timer starts (replacing any pending one); under reduced motion the line is drawn at once; otherwise the line is left as it is |
| Experience.Timeline.TimerFires | src/components/Experience.tsx:16 | the timer draws the line |
| Experience.Timeline.DashOffset | src/components/Experience.tsx:85 | the dash offset is 1 or 0, and 0 exactly when the line is drawn |
| Experience.DrawnStaysDrawn | src/components/Experience.tsx:14-21 | once drawn, the line stays drawn whatever the effect runs with |
| Languages.StarsFrom | src/components/Languages.tsx:70 | the stars from k to 5, in order |
| Languages.FilledCountFrom | src/components/Languages.tsx:83 | among the stars from k on, the filled ones number rating - k + 1 when the rating reaches k, and 0 otherwise |
| Languages.StarRow | src/components/Languages.tsx:70-89 | a row has five stars, the first `rating` of them filled, so exactly `rating` are filled |
| Languages.LevelKey | src/components/Languages.tsx:94 | the level label key is "languages.level." followed by the rating in decimal |
| Languages.LevelKeysDistinct | src/components/Languages.tsx:94 | different ratings have different level keys |
| Languages.StarDelay | src/components/Languages.tsx:76 | a star appears at once under reduced motion and after at least 0.1 s otherwise |
| Languages.TableStars | src/data/languages.ts:12-24 | the three languages show 5, 4 and 4 filled stars |
| DemoCounter.Next | src/components/skills/demos/GitDemo.tsx:17 | the interval's `(s + 1) % n` stays below n, is the successor below n and wraps to 0 exactly after n - 1 |
| DemoCounter.Advance | src/components/skills/demos/RestDemo.tsx:16-18 | any number of ticks keeps the counter below n |
| DemoCounter.AdvanceCompose | src/components/skills/demos/RestDemo.tsx:16-18 | a + b ticks are a ticks followed by b ticks |
| DemoCounter.AdvanceCounts | src/components/skills/demos/RestDemo.tsx:16-18 | k ticks that do not reach n simply add k |
| DemoCounter.FullCycle | src/components/skills/demos/RestDemo.tsx:16-18 | from s, n - s ticks reach 0 and n ticks come back to s |
| NodeDemo.QueueFor | src/components/skills/demos/NodeDemo.tsx:21-25 | the queue holds "timer" exactly in phases 1 and 2, "I/O" exactly in phases 2 and 3, and is empty exactly outside phases 1 to 3 |
| NodeDemo.AtMostOneStep | src/components/skills/demos/NodeDemo.tsx:33-39 | at most one event-loop step is lit, and none in phase 0 |
| NodeDemo.Demo.constructor | src/components/skills/demos/NodeDemo.tsx:10-11 | the demo starts in phase 0 with an empty queue |
| NodeDemo.Demo.SetPlaying | src/components/skills/demos/NodeDemo.tsx:13-14 | the play prop changes nothing but itself |
| NodeDemo.Demo.Tick | src/components/skills/demos/NodeDemo.tsx:17-28 | a tick advances the phase modulo 6 and sets the queue for the new phase |
| GitDemo.LitCommitsArePrefix | src/components/skills/demos/GitDemo.tsx:23-29 | at step s the lit commits are exactly the first s + 1, and the first is always lit |
| GitDemo.LitAction | src/components/skills/demos/GitDemo.tsx:121-126 | at each step exactly one action (commit, branch, work, merge) is lit |
| GitDemo.FeatureLabelWithBranch | src/components/skills/demos/GitDemo.tsx:113 | the "feature" label shows exactly when the third commit is lit, that is when the lit action is not "commit" |
| GitDemo.Demo.constructor | src/components/skills/demos/GitDemo.tsx:11 | the demo starts at step 0 |
| GitDemo.Demo.SetPlaying | src/components/skills/demos/GitDemo.tsx:13-14 | the play prop leaves the step |
| GitDemo.Demo.Tick | src/components/skills/demos/GitDemo.tsx:16-18 | a tick advances the step modulo 5 |
| TypeScriptDemo.AgeLiteral | src/components/skills/demos/TypeScriptDemo.tsx:85 | the value is quoted exactly in the error phase |
| TypeScriptDemo.PhaseDisplay | src/components/skills/demos/TypeScriptDemo.tsx:89-137 | each phase has its own status message, and the squiggle shows exactly with the quoted value |
| TypeScriptDemo.Demo.constructor | src/components/skills/demos/TypeScriptDemo.tsx:11 | the demo starts in the error phase |
| TypeScriptDemo.Demo.SetPlaying | src/components/skills/demos/TypeScriptDemo.tsx:13-17 | starting to play begins a new closure whose index is 0; the phase is kept |
| TypeScriptDemo.Demo.Tick | src/components/skills/demos/TypeScriptDemo.tsx:19-22 | a tick advances the closure's index modulo 3 and shows that phase |
| TypeScriptDemo.FreshCycle | src/components/skills/demos/TypeScriptDemo.tsx:16-22 | from a fresh start the ticks show fix, success, error and fix again |
| TypeScriptDemo.ResumeShowsFix | src/components/skills/demos/TypeScriptDemo.tsx:17 | after a pause and resume the first tick shows the fix, whatever the phase was |
| GraphQLDemo.SelectionWithinFields | src/components/skills/demos/GraphQLDemo.tsx:22-23 | the queried fields are among all fields, and exactly the 2nd to 4th of the six (name, email, avatar) are selected |
| GraphQLDemo.ResponseIsJoin | src/components/skills/demos/GraphQLDemo.tsx:112-116 | the response writes the fields separated by ", " with none after the last |
| GraphQLDemo.QueryResponse | src/components/skills/demos/GraphQLDemo.tsx:110-118 | the response body reads "name, email, avatar" |
| GraphQLDemo.ExactlyOneLabel | src/components/skills/demos/GraphQLDemo.tsx:124-128 | exactly the label of the current step is lit |
| GraphQLDemo.Demo.constructor | src/components/skills/demos/GraphQLDemo.tsx:10 | the demo starts at step 0 |
| GraphQLDemo.Demo.SetPlaying | src/components/skills/demos/GraphQLDemo.tsx:12-13 | the play prop leaves the step |
| GraphQLDemo.Demo.Tick | src/components/skills/demos/GraphQLDemo.tsx:15-17 | a tick advances the step modulo 4 |
| RedisDemo.Flip | src/components/skills/demos/RedisDemo.tsx:17 | a tick always changes the phase |
| RedisDemo.FlipTwice | src/components/skills/demos/RedisDemo.tsx:17 | two ticks restore it |
| RedisDemo.PhaseDisplay | src/components/skills/demos/RedisDemo.tsx:67-110 | exactly one of "slow" and "fast" is lit; the database reads "~100ms" and the cache "MISS" exactly on a miss |
| RedisDemo.Demo.constructor | src/components/skills/demos/RedisDemo.tsx:11 | the demo starts on a miss |
| RedisDemo.Demo.SetPlaying | src/components/skills/demos/RedisDemo.tsx:13-14 | the play prop leaves the phase |
| RedisDemo.Demo.Tick | src/components/skills/demos/RedisDemo.tsx:16-18 | a tick flips between miss and hit |
| VueDemo.Computed | src/components/skills/demos/VueDemo.tsx:74 | the computed value is even, below 20, and halves back to the count |
| VueDemo.Demo.constructor | src/components/skills/demos/VueDemo.tsx:11-12 | the demo starts at 0, not updating, with nothing scheduled |
| VueDemo.Demo.SetPlaying | src/components/skills/demos/VueDemo.tsx:25 | stopping clears the interval only: scheduled increments stay scheduled |
| VueDemo.Demo.Tick | src/components/skills/demos/VueDemo.tsx:17-23 | a firing marks an update (lighting the flow) and schedules one increment |
| VueDemo.Demo.TimeoutFires | src/components/skills/demos/VueDemo.tsx:19-22 | a scheduled increment advances the count modulo 10 and ends the update |
| VueDemo.IncrementAfterPause | src/components/skills/demos/VueDemo.tsx:19-25 | pausing right after a firing still lets its increment land while paused |
| RestDemo.LitStage | src/components/skills/demos/RestDemo.tsx:33-71 | at each step exactly one stage is lit: request at 0, JSON at 1 and 2, UI at 3 |
| RestDemo.ExactlyOneDot | src/components/skills/demos/RestDemo.tsx:82-88 | exactly the dot of the current step is lit |
| RestDemo.Demo.constructor | src/components/skills/demos/RestDemo.tsx:11 | the demo starts at step 0 |
| RestDemo.Demo.SetPlaying | src/components/skills/demos/RestDemo.tsx:13-14 | the play prop leaves the step |
| RestDemo.Demo.Tick | src/components/skills/demos/RestDemo.tsx:16-18 | a tick advances the step modulo 4 |
| ReactDemo.Find | src/components/skills/demos/ReactDemo.tsx:45-46 | `nodes.find` finds a node exactly when one has the id, and then the first node with that id |
| ReactDemo.LineY | src/components/skills/demos/ReactDemo.tsx:47-48 | a line end sits at 20 plus a multiple of 50 |
| ReactDemo.ConnectionsWellFormed | src/components/skills/demos/ReactDemo.tsx:22-48 | both ends of every connection are found (the non-null assertions hold), each joins a parent to a child one level down, 50 units lower |
| ReactDemo.ExactlyOneNode | src/components/skills/demos/ReactDemo.tsx:83 | exactly the active node is highlighted |
| ReactDemo.StateLabel | src/components/skills/demos/ReactDemo.tsx:130 | the state label reads "count: " and the active node's number in decimal |
| ReactDemo.Demo.constructor | src/components/skills/demos/ReactDemo.tsx:10 | the demo starts at node 0 |
| ReactDemo.Demo.SetPlaying | src/components/skills/demos/ReactDemo.tsx:12-13 | the play prop leaves the active node |
| ReactDemo.Demo.Tick | src/components/skills/demos/ReactDemo.tsx:15-17 | a tick advances the active node modulo 4 |

## Left out

- Contact.ContactForm.SubmissionCompletes: the logged form data is a parameter of the step. Pending submissions are counted, not queued with their data, so the model does not say which submission's data is logged.
- Visibility.Winner: its own contract gives only an index bound. What the kept entry means (the first maximum, or none when no ratio is positive) is stated by Visibility.WinnerIsFirstMaximum.
- DemoCounter.Next: stated as "successor, wrapping to 0 after n - 1" rather than as `%`. The two agree on every counter below n, which is all a demo holds.
- The email format check of the validation library is a parameter (`isEmail`). Its regular expression is not modelled.
- The form library is modelled by its default modes: nothing is validated before the first submission, and afterwards each change re-validates the changed field. The form counts as submitted from a rejected submission on, and after an accepted one from the moment its handler settles, which is after the handler's `reset()`. Blur, touched and dirty state are not modelled.
- Real time is not modelled:
  - Intervals and timeouts are methods, and an interval fires only while its demo is playing.
  - The animations' timing, the framer-motion springs and their easing are outside the model; only the spring targets are kept.
- The DOM and browser APIs are inputs:
  - IntersectionObserver, `matchMedia`, `localStorage`, `navigator.language`, canvas contexts and `Math.random()`.
  - Writing the document's classes, `lang`, `dir` and `body.style.overflow` is modelled as fields of the classes that own them.
- The i18next library is not modelled: translation lookup and its fallbacks are outside the model. Only the keys the components build are modelled, together with the language the site asks for.
- The map in `TechIcon` is a plain object, so inherited names such as "constructor" would also be found by the lookup. The model treats the map as holding only its 24 keys.
- The stateless demos (Docker, Redux, WebSockets) and the default demo are outside the model. They draw fixed pictures; only their dispatch is modelled.
- In the site as shipped, the React, TypeScript, GraphQL, Git, Vue and Node demos are never reached: the dispatch sends those types to the default demo, as SkillDemo.UnhandledDemoTypesFallBack states. They are modelled anyway.
- The "services" section has no background in the manager's table (BackgroundManager.ServicesHasNoBackground). The model yields `None` there. The shipped index page (src/pages/Index.tsx) mounts neither component. On a page that mounts both the background manager and the services section, that `undefined` component would make React throw an invalid-element error at render, and with no error boundary the whole tree unmounts. The model does not go beyond the `None`.
- The spotlight's centre formula works on JavaScript numbers. The model takes them as exact reals plus NaN and the two infinities, which is what the divisions by a zero width or scroll height produce. Floating-point rounding and negative zero are not modelled.
- The path, aurora and scroll-path backgrounds, the hero, about and footer sections, the toggle buttons and the flag images only animate or lay out markup. They are not modelled.
- Experience.Timeline.RunEffect models one run of the effect after its dependencies change. Cleanup of a pending timer when the effect re-runs is modelled as replacing it.
- Console output of the contact form is not modelled.
