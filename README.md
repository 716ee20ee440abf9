# Portfolio front-end: content, filters, tiers and small state machines

This project models the logic inside a personal portfolio web site, a React
single-page application. It does not model the markup or the animation. What
it does model:

- **Content records and static data.** The record types (`Project`, `Skill`,
  `Certification`, `Experience`, `Publication`) and the constant arrays the
  sections render.
- **Project filter.** An equality filter on the project category, with an
  `'all'` short-circuit, and the empty-state message.
- **Certification grouping.** A `reduce` that fills a category-to-list
  dictionary in place. From it come the category pills, the selected group,
  the pill counts and the statistics.
- **Skill tiers.** The thresholds 90 and 75, and the label, badge and colours
  each tier selects.
- **Publication rendering rules.** Status text and colour, venue line, PDF
  and DOI links, and the authors line.
- **Project card rules.** Technology chips cut to three plus a "+N" badge,
  the links drawn only when present, and the image or a placeholder.
- **Three state machines:**
  - the preloader's progress counter;
  - the page's loading and mobile-menu flags;
  - a certification badge's hover flag and image-error fallback.

Each source file is one module:

| module | source |
|---|---|
| `Types` | `src/types/index.ts` |
| `Constants` | `src/utils/constants.tsx` |
| `Projects` | `src/components/sections/Projects.tsx` |
| `Certifications` | `src/components/sections/Certifications.tsx` |
| `Skills` | `src/components/sections/Skills.tsx` |
| `Publications` | `src/components/sections/Publications.tsx` |
| `ProjectCard` | `src/components/common/ProjectCard.tsx` |
| `PreLoader` | `src/components/PreLoader.tsx` |
| `App` | `src/App.tsx` |
| `CertificationBadge` | `src/components/common/CertificationBadge.tsx` |

`Sequences` holds the shared notions of distinct elements, of
subsequences and of the element-wise `map`.

How the model is written:

- **Pure code.** Expressions over arrays and strings become functions with
  lemmas.
- **The `reduce`.** It mutates a dictionary, so it becomes a method with a
  loop. The method is proved equal to a fold (`Grouped`) and to the key order
  (`KeysOf`).
- **React state.** State updated by handlers becomes classes whose methods
  state every transition.
- **JavaScript truthiness.** `a || b` and `x && <element>` on optional
  strings are modelled by `Types.Present`: the field is there and is not the
  empty string.

## Model

| member | source | states |
|---|---|---|
| `Types.ParseCategory` | src/types/index.ts:12 | a string read as a project category is one of the three literals and names it |
| `Types.CategoryRoundTrip` | src/types/index.ts:12 | each category is read back from its literal |
| `Types.ParseCategoryExactly` | src/types/index.ts:12 | a string is a category iff it is "blockchain", "frontend" or "fullstack" |
| `Types.ParseStatus` | src/types/index.ts:51 | a string read as a status is one of the three literals and names it |
| `Types.StatusRoundTrip` | src/types/index.ts:51 | each publication status is read back from its literal |
| `Constants.ProjectIdsDistinct` | src/utils/constants.tsx:5-65 | the project ids (the grid keys) are pairwise distinct |
| `Constants.CertificationIdsDistinct` | src/utils/constants.tsx:100-146 | the certification ids (the badge keys) are pairwise distinct |
| `Constants.ExperienceIdsDistinct` | src/utils/constants.tsx:148-183 | the experience ids are pairwise distinct |
| `Constants.SkillCategoriesDistinct` | src/utils/constants.tsx:67-98 | the skill category names (the card keys) are pairwise distinct |
| `Constants.ProficienciesArePercentages` | src/utils/constants.tsx:71-96 | every proficiency lies in 0..100 |
| `Projects.ButtonLabel` | src/components/sections/Projects.tsx:65 | a button reads "All Projects" exactly for the `'all'` filter, and a category button its own category literal |
| `Projects.FilterByCategory` | src/components/sections/Projects.tsx:16 | the result holds exactly the projects of the list with that category, and is no longer than the list |
| `Projects.Filtered` | src/components/sections/Projects.tsx:14-16 | a project is shown iff it is in the list and the filter is `'all'` or its category |
| `Projects.FilteredProjects` | src/components/sections/Projects.tsx:14-16 | `'all'` shows the site's whole list; otherwise exactly its projects of the chosen category |
| `Projects.ShowsEmptyState` | src/components/sections/Projects.tsx:84 | the empty-state message is drawn iff no project of the site passes the filter |
| `Projects.FilterAllIsIdentity` | src/components/sections/Projects.tsx:14-15 | the `'all'` filter returns the list itself, in order |
| `Projects.FilterIsSubsequence` | src/components/sections/Projects.tsx:16 | the filtered list keeps the list's order |
| `Projects.FilterMultiplicity` | src/components/sections/Projects.tsx:16 | each matching project is kept as often as it occurs, others are dropped |
| `Projects.FilterIdempotent` | src/components/sections/Projects.tsx:16 | filtering twice by the same category changes nothing |
| `Projects.FilterAppend` | src/components/sections/Projects.tsx:16 | the filter distributes over concatenation |
| `Projects.CategoriesPartition` | src/components/sections/Projects.tsx:16 | the three per-category lengths add up to the list length |
| `Projects.FilteredIsBounded` | src/components/sections/Projects.tsx:14-16 | for any filter the shown list is a subsequence, so no longer than the list |
| `Projects.FilterCountIsOccurrences` | src/components/sections/Projects.tsx:16 | the filtered length is the number of occurrences of the category |
| `Projects.CountsOfSiteShape` | src/utils/constants.tsx:14-63 | a list with the site's categories has 2 blockchain, 1 frontend and 3 full-stack projects |
| `Projects.SiteCategoryCounts` | src/utils/constants.tsx:14-63 | the site's filters show 2, 1, 3 and 6 projects |
| `Projects.NoButtonShowsEmptyState` | src/components/sections/Projects.tsx:55-84 | no filter button of the site leads to the empty state |
| `Projects.FilterExample` | src/components/sections/Projects.tsx:16 | a blockchain and a frontend project filtered by blockchain leave the first |
| `Certifications.CategoryKey` | src/components/sections/Certifications.tsx:13 | the group key is never empty; a non-empty category is its own key, an empty one becomes "Other" |
| `Certifications.GroupOf` | src/components/sections/Certifications.tsx:14-15 | a group holds exactly the certifications with that key |
| `Certifications.KeysOf` | src/components/sections/Certifications.tsx:14 | the dictionary keys are distinct and are exactly the keys that occur |
| `Certifications.Grouped` | src/components/sections/Certifications.tsx:12-17 | the fold the `reduce` performs; no group it creates stays empty |
| `Certifications.GroupCertifications` | src/components/sections/Certifications.tsx:12-17 | the in-place `reduce` loop produces the fold `Grouped` and the key order `KeysOf` |
| `Certifications.GroupOfSnoc` | src/components/sections/Certifications.tsx:15 | one more certification is appended to its own group only |
| `Certifications.NoKeyNoGroup` | src/components/sections/Certifications.tsx:14 | a string that is no key has no members |
| `Certifications.KeysOfSnoc` | src/components/sections/Certifications.tsx:14 | a key is added when its first certification is met, and only then |
| `Certifications.GroupedIsGroupOf` | src/components/sections/Certifications.tsx:12-17 | the dictionary has one entry per key, holding exactly that group in list order |
| `Certifications.GroupsPartition` | src/components/sections/Certifications.tsx:12-17 | every certification is in exactly one group, the one keyed by its category |
| `Certifications.GroupKeepsOrder` | src/components/sections/Certifications.tsx:15 | each group is a subsequence of the list |
| `Certifications.GroupMultiplicity` | src/components/sections/Certifications.tsx:15 | a group holds each member as often as the list does, and nothing else |
| `Certifications.KeysInFirstAppearanceOrder` | src/components/sections/Certifications.tsx:19 | keys come in first-appearance order |
| `Certifications.Categories` | src/components/sections/Certifications.tsx:19 | the first pill is "All"; a string is a pill iff it is "All" or the key of some certification |
| `Certifications.CategoriesDistinct` | src/components/sections/Certifications.tsx:19 | the pills are "All" and one per key, all distinct when no category is "All" |
| `Certifications.Selected` | src/components/sections/Certifications.tsx:21-23 | "All" shows the whole list; any other pill shows exactly the certifications with that key |
| `Certifications.SelectionIsGroup` | src/components/sections/Certifications.tsx:21-23 | "All" selects the whole list; a key its group; an unknown string nothing |
| `Certifications.PillCount` | src/components/sections/Certifications.tsx:113 | `?.length \|\| 0` is the size of the category's group, 0 for an unknown key |
| `Certifications.PillNumber` | src/components/sections/Certifications.tsx:107-113 | a pill draws no number iff it reads "All"; otherwise its group's size |
| `Certifications.PillTotalIsGroupSizes` | src/components/sections/Certifications.tsx:107-113 | the drawn numbers add up to the group sizes less the "All" group once per "All" pill |
| `Certifications.GroupSizesSnoc` | src/components/sections/Certifications.tsx:15 | one more certification adds one to the group sizes of the keys holding its key |
| `Certifications.GroupSizesCoverList` | src/components/sections/Certifications.tsx:12-17 | the groups together hold as many certifications as the list |
| `Certifications.PillsAddUpToTotal` | src/components/sections/Certifications.tsx:107-152 | the drawn pill numbers add up to the "Total Certifications" stat less the certifications whose category is "All"; exactly to the stat when there are none |
| `Certifications.AllCategoryPillExample` | src/components/sections/Certifications.tsx:19-113 | a single certification of category "All" gives pills "All", "All" and drawn numbers adding up to 0 |
| `Certifications.CategoryStat` | src/components/sections/Certifications.tsx:160 | the "Categories" stat is the number of distinct group keys |
| `Certifications.CategoryStatCountsKeys` | src/components/sections/Certifications.tsx:160 | the "Categories" stat is the number of distinct category keys of the list |
| `Certifications.KeysOfFollowsKeySequence` | src/components/sections/Certifications.tsx:12-19 | the pills depend only on the sequence of category keys |
| `Certifications.GroupSizeIsOccurrences` | src/components/sections/Certifications.tsx:15 | a group's size is the number of occurrences of its key |
| `Certifications.KeysStep` | src/components/sections/Certifications.tsx:14 | one step of the key order on a prefix of the list |
| `Certifications.KeysOfSitePrefix` | src/utils/constants.tsx:108-126 | the first three site certifications give keys Networking and Security |
| `Certifications.KeysOfSiteShape` | src/utils/constants.tsx:108-144 | a list with the site's categories has keys Networking, Security, Development, Marketing |
| `Certifications.NetworkingOfSiteShape` | src/utils/constants.tsx:108-117 | such a list has two Networking certifications |
| `Certifications.SiteKeySequence` | src/utils/constants.tsx:108-144 | the site's category keys, in list order |
| `Certifications.SiteGroups` | src/components/sections/Certifications.tsx:19-160 | the site shows pills All, Networking, Security, Development, Marketing; 4 categories; 2 Networking |
| `Skills.TierOf` | src/components/sections/Skills.tsx:104-105 | high iff proficiency ≥ 90, mid iff 75 ≤ proficiency < 90, low iff < 75 |
| `Skills.FlagsExclusive` | src/components/sections/Skills.tsx:104-105 | `isHigh` and `isMid` never both hold; neither holds iff below 75 |
| `Skills.TierMonotone` | src/components/sections/Skills.tsx:104-105 | raising the proficiency never lowers the tier |
| `Skills.CardLabel` | src/components/sections/Skills.tsx:141-145 | "Core Strength", "Advanced", "Working Knowledge" exactly for the high, mid and low tiers |
| `Skills.BadgeText` | src/components/sections/Skills.tsx:188 | "Expert", "Strong", "Growing" exactly for the high, mid and low tiers |
| `Skills.BorderGradient` | src/components/sections/Skills.tsx:107-111 | each of the three border gradients is chosen exactly for one tier |
| `Skills.BarGradient` | src/components/sections/Skills.tsx:113-117 | each of the three bar gradients is chosen exactly for one tier |
| `Skills.DotColor` | src/components/sections/Skills.tsx:180-186 | green, amber and slate dots exactly for the high, mid and low tiers |
| `Skills.StyleIsTier` | src/components/sections/Skills.tsx:107-117 | two cards share border, bar and dot colours iff they share a tier |
| `Skills.LabelAgreesWithBadge` | src/components/sections/Skills.tsx:141-188 | the label's nested comparison and the badge's flags always name the same tier |
| `Skills.SiteTiers` | src/utils/constants.tsx:67-98 | Frontend and Blockchain (exactly 90) are high, the rest mid; no card reads "Working Knowledge" |
| `Publications.StatusColor` | src/components/sections/Publications.tsx:66-76 | "published" gets the green classes, "under-review" the yellow ones, "preprint" the blue ones, and the slate default is returned iff the string is none of the three statuses |
| `Publications.StatusColorsDistinct` | src/components/sections/Publications.tsx:66-76 | the three statuses get three different colours |
| `Publications.StatusText` | src/components/sections/Publications.tsx:79-90 | a status string is relabelled iff it is one of the three; others are shown unchanged |
| `Publications.StatusTextOfStatus` | src/components/sections/Publications.tsx:81-86 | published, under-review and preprint read "Published", "Under Review" and "Preprint" |
| `Publications.Or` | src/components/sections/Publications.tsx:152-154 | `a \|\| b` is truthy iff one of them is |
| `Publications.Venue` | src/components/sections/Publications.tsx:152-156 | the venue line shows the journal if present, else the conference, and is omitted when both are absent |
| `Publications.PdfLink` | src/components/sections/Publications.tsx:173-175 | the PDF link is drawn iff `pdfUrl` is present, pointing at it |
| `Publications.DoiLink` | src/components/sections/Publications.tsx:193-195 | the DOI link is drawn iff `doi` is present, under the `https://doi.org/` prefix |
| `Publications.DoiOf` | src/components/sections/Publications.tsx:195 | a DOI is read back from a URL iff the URL has the resolver prefix |
| `Publications.DoiLinkRoundTrip` | src/components/sections/Publications.tsx:193-195 | the drawn DOI link leads back to exactly the publication's DOI |
| `Publications.JoinAuthors` | src/components/sections/Publications.tsx:149 | the authors line starts with the first author and is as long as the names plus a ", " between each two |
| `Publications.FirstSeparator` | src/components/sections/Publications.tsx:149 | finds the first ", " at or after a position |
| `Publications.SplitAuthors` | src/components/sections/Publications.tsx:149 | cutting a line at each ", " gives at least one name |
| `Publications.NoSeparatorFound` | src/components/sections/Publications.tsx:149 | a name without ", " has no separator in it |
| `Publications.SeparatorAfterName` | src/components/sections/Publications.tsx:149 | in `name + ", " + rest` the first separator follows the name |
| `Publications.SplitJoinRoundTrip` | src/components/sections/Publications.tsx:149 | the authors line reads back into the authors when no name contains ", " |
| `Publications.ShowsEmptyMessage` | src/components/sections/Publications.tsx:218 | "No publications available yet." is drawn iff there is no publication |
| `Publications.SitePublications` | src/components/sections/Publications.tsx:21-63 | four papers with distinct ids, no empty message; the first shows its conference, the last its journal; the third has no PDF; none has a DOI |
| `ProjectCard.ImageSlotOf` | src/components/common/ProjectCard.tsx:26-36 | the image is drawn iff present, else the placeholder |
| `ProjectCard.VisibleChips` | src/components/common/ProjectCard.tsx:65 | at most three chips, the first technologies in order |
| `ProjectCard.PrefixIsSubsequence` | src/components/common/ProjectCard.tsx:65 | a leading slice keeps the order of the list |
| `ProjectCard.Overflow` | src/components/common/ProjectCard.tsx:75-78 | the "+N" badge is drawn iff there are more than three technologies, and chips plus N is the total |
| `ProjectCard.ChipsAccountForAll` | src/components/common/ProjectCard.tsx:65-78 | every technology is a chip or counted in the badge |
| `ProjectCard.DecimalString` | src/components/common/ProjectCard.tsx:77 | a number is written as decimal digits without a leading zero |
| `ProjectCard.DigitChar` | src/components/common/ProjectCard.tsx:77 | a digit value is written as its character |
| `ProjectCard.DecimalRoundTrip` | src/components/common/ProjectCard.tsx:77 | the written digits read back as the number |
| `ProjectCard.OverflowBadge` | src/components/common/ProjectCard.tsx:75-78 | the badge text, when drawn, is "+" and a number without a leading zero |
| `ProjectCard.OverflowBadgeCountsHidden` | src/components/common/ProjectCard.tsx:75-78 | the badge's number is the count of technologies not drawn as chips |
| `ProjectCard.BadgeOfLength` | src/components/common/ProjectCard.tsx:75-78 | four technologies show "+1", five show "+2" |
| `ProjectCard.GitHubLink` | src/components/common/ProjectCard.tsx:84-86 | the GitHub button is drawn iff `github` is present, pointing at it |
| `ProjectCard.LiveDemoLink` | src/components/common/ProjectCard.tsx:96-98 | the Live Demo button is drawn iff `liveDemo` is present, pointing at it |
| `ProjectCard.SiteCards` | src/utils/constants.tsx:5-65 | every site project has an image; all but Santaran have GitHub; none has a live demo; the badge texts of the site cards |
| `PreLoader.NextProgress` | src/components/PreLoader.tsx:15-25 | below 100 a tick adds 2; at 100 or above it yields 100 |
| `PreLoader.ProgressAfter` | src/components/PreLoader.tsx:15-25 | the progress after any number of ticks is an even percentage in 0..100 |
| `PreLoader.ProgressClosedForm` | src/components/PreLoader.tsx:10-25 | after n ticks from 0 the progress is min(2n, 100) |
| `PreLoader.ProgressMonotone` | src/components/PreLoader.tsx:15-25 | the progress never decreases |
| `PreLoader.FullAfterFiftyTicks` | src/components/PreLoader.tsx:16-24 | the progress is 100 exactly from the 50th tick on |
| `PreLoader.PreLoader.constructor` | src/components/PreLoader.tsx:10-14 | mounting starts at progress 0, animating, interval running |
| `PreLoader.PreLoader.Tick` | src/components/PreLoader.tsx:14-26 | a tick below 100 adds 2 and keeps the timer; at 100 it clears the timer and schedules the fade |
| `PreLoader.PreLoader.FadeOut` | src/components/PreLoader.tsx:18-20 | the first timeout ends the animation and schedules `onComplete` |
| `PreLoader.PreLoader.FireComplete` | src/components/PreLoader.tsx:20 | `onComplete` fires once, only after the bar is full and the animation has ended |
| `PreLoader.PreLoader.OverlayClasses` | src/components/PreLoader.tsx:33-35 | the overlay is visible exactly while animating |
| `PreLoader.PreLoader.RunInterval` | src/components/PreLoader.tsx:14-26 | the interval fires 51 times before clearing itself, leaving the bar full and the fade scheduled |
| `PreLoader.Run` | src/components/PreLoader.tsx:10-26 | a whole run ends with the bar full, the animation over and `onComplete` called once |
| `App.NavigationLabelsDistinct` | src/App.tsx:22-29 | the six navigation labels (the menu keys) are distinct |
| `App.App.constructor` | src/App.tsx:15-16 | the menu starts closed and the page starts loading |
| `App.App.HandleLoadingComplete` | src/App.tsx:18-20 | completion clears the loading flag and leaves the menu alone |
| `App.App.ToggleNav` | src/App.tsx:87 | the menu button flips the menu flag |
| `App.App.CloseNav` | src/App.tsx:112-118 | a navigation link of the mobile menu closes the menu whatever its state |
| `App.App.View` | src/App.tsx:32-106 | only the preloader while loading; then the mobile menu lists the navigation items iff the flag is set, and the toggle draws the cross while the menu is open and the three bars while it is closed |
| `App.ToggleTwice` | src/App.tsx:87 | two presses of the menu button restore the menu and the view |
| `App.Boot` | src/App.tsx:16-34 | the preloader's completion ends loading and shows the site with the menu closed |
| `CertificationBadge.Initial` | src/components/common/CertificationBadge.tsx:40 | `substring(0, 1)` is the first character, or empty for an empty issuer |
| `CertificationBadge.FallbackSrcAsWritten` | src/components/common/CertificationBadge.tsx:39-40 | the fallback literal as written: a constant holding the quoted expression text |
| `CertificationBadge.FallbackAsWrittenIgnoresIssuer` | src/components/common/CertificationBadge.tsx:39-40 | as written, all issuers share one fallback, which differs from the intended one |
| `CertificationBadge.FallbackAsWrittenExample` | src/components/common/CertificationBadge.tsx:39-40 | "Cisco" and "RIT & Excelerate" share the written fallback but not the intended one |
| `CertificationBadge.FallbackSrc` | src/components/common/CertificationBadge.tsx:38-41 | the intended fallback: fixed head, the issuer's initial, fixed tail |
| `CertificationBadge.FallbackCarriesInitial` | src/components/common/CertificationBadge.tsx:38-41 | the issuer's initial can be read back from the fallback |
| `CertificationBadge.FallbackSharedIffInitialShared` | src/components/common/CertificationBadge.tsx:38-41 | two issuers share a fallback iff they share an initial |
| `CertificationBadge.Badge.constructor` | src/components/common/CertificationBadge.tsx:13-35 | a new badge is not hovered and shows the badge image |
| `CertificationBadge.Badge.MouseEnter` | src/components/common/CertificationBadge.tsx:21 | entering sets the hover flag; the image is untouched |
| `CertificationBadge.Badge.MouseLeave` | src/components/common/CertificationBadge.tsx:22 | leaving clears the hover flag; the image is untouched |
| `CertificationBadge.Badge.ImageError` | src/components/common/CertificationBadge.tsx:38-41 | an image error sets `src` to the fallback and leaves the hover flag |
| `CertificationBadge.Badge.ShownTooltip` | src/components/common/CertificationBadge.tsx:46-55 | the tooltip with name and date is drawn iff hovered |
| `CertificationBadge.HoverAndLeave` | src/components/common/CertificationBadge.tsx:21-22 | enter then leave returns to not hovered, with no tooltip |
| `CertificationBadge.ImageErrorTwice` | src/components/common/CertificationBadge.tsx:38-41 | a second error leaves the same fallback |

## Left out

- 3D scenes (`src/components/3D/`), animation settings (`src/utils/animations.ts`) and all motion values: these are floating-point rendering with no observable logic.
- `Hero`, `Experience` and `About` sections: these are markup only.
- `CONTACT` and `SOCIAL_LINKS` in `src/utils/constants.tsx`: these are not used by the modelled logic.
- Wall-clock timing in the preloader: the 50 ms interval, the 500 and 800 ms timeouts and the cleanup on unmount are not modelled. Each firing is one method call.
- React re-render semantics are not modelled, including updaters run twice in development mode and the effect re-running when `onComplete` changes.
- `Object.keys` order: JavaScript lists integer-like keys first in ascending order. The model keeps insertion order, which is right for the non-numeric categories of the site.
- Keys inherited from `Object.prototype`: `acc[category]` and `groupedCertifications[selected]` would find a key such as `"constructor"` on the prototype. The dictionary is modelled as a plain map without a prototype.
- `CertificationBadge.Initial`: it takes the first Unicode scalar value of the issuer. JavaScript's `substring(0, 1)` takes the first UTF-16 code unit, which for an issuer starting outside the Basic Multilingual Plane (an emoji, say) is half of a surrogate pair. Dafny strings hold scalar values, so that case is not modelled.
- The mobile menu's Contact link (`src/App.tsx:122-127`) has no click handler and leaves the menu open. `App.App.View`'s `mobileMenu` lists only the navigation items, without that link.
- The badge's static text (the issuer line at `src/components/common/CertificationBadge.tsx:59` and the Credly link) is drawn straight from the record in every state, so it is not modelled as a member.
- `Publications.SplitAuthors`: the line reads back only when no author name contains ", ", since such a name cannot be told apart from two names, and only for a non-empty list: no authors join to "", which splits back to one empty name.
- Proficiencies are modelled as integers. The source's numbers could in principle be fractional; the site's are not.
- Field renames for names Dafny reserves: the publication field `abstract` is called `summary`. The navigation item field `label` is called `text`.
- The publications section declares its own `Publication` interface, identical to the shared one. Both are modelled by `Types.Publication`.
- Image loading, the Credly, GitHub and DOI endpoints, and the e-mail link are browser and network behaviour. Only the strings drawn are modelled.
- `CertificationBadge.Badge.ImageError` uses the intended fallback (see Findings). The literal as written is modelled by `CertificationBadge.FallbackSrcAsWritten`.
- `App.App.ToggleNav` and `App.App.CloseNav` require that loading is over, because the button and the links that call them are drawn only then.

## Findings

| source | as written | input that shows it | evidently intended | confidence | as-written member | corrected member |
|---|---|---|---|---|---|---|
| src/components/common/CertificationBadge.tsx:40 | The fallback `src` is one single-quoted literal, so the double-quoted `" + certification.issuer.substring(0, 1) + "` inside it is text and is never evaluated. Every badge gets the same fallback. | issuers "Cisco" and "RIT & Excelerate" get identical fallback strings | the fixed head, then the issuer's first character, then the fixed tail | high; not executed | `CertificationBadge.FallbackAsWrittenExample` | `CertificationBadge.FallbackCarriesInitial` |
