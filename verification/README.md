# kana-dojo: credits lists and runner sprites, in Dafny

This project models two pieces of the kana-dojo web application and proves properties about them.

**The credits page** (`features/Legal/credits/Credits.tsx`) builds three lists:

- the **maintainers**, which are the first two contributors;
- the remaining **contributors**;
- the **sponsors to show**, which are the GitHub sponsors followed by the Ko-fi supporters. The merge drops duplicate logins, comparing them case-insensitively, and keeps the first occurrence.

The contributor list comes from the GitHub REST payload. Its fields are renamed on the way in. The sponsor list comes from the GitHub GraphQL sponsorship nodes. Only nodes whose sponsor entity has a non-empty login are kept. The model has:

- `Dedupe`, which states the merge as a function over prefixes;
- `SponsorsToShow`, a method that mirrors the `Map`-based loop and is proved equal to `Dedupe`.

The lemmas prove the following:

- the result has no duplicate keys;
- every key of the merged list occurs in the result exactly once;
- first occurrence wins, so a GitHub sponsor beats a Ko-fi supporter;
- the result follows the order of first appearance;
- at most one login-less supporter survives;
- the sponsor filter and the contributor mapping keep order.

**The runner game's sprites** (`features/Experiments/components/RunnerAssets.ts`) are eight canvases. Each one is painted by a fixed script against its own 2D context. `Canvas2D` models the 2D rendering context of the WHATWG HTML Living Standard (section 4.12.5.1) as a class with three parts:

- the drawing-state attributes: fill and stroke style, line width, shadow colour, blur and offsets;
- the current path, which only `beginPath` empties;
- an append-only log of paint operations. Each entry records the drawing state it was painted with.

`RunnerAssets` models most commented sections of each script as a method. The exceptions are short runs of assignments and `fillRect` calls that stay inline in the script's method: the torii's shadow and nuki, the lantern's base, post, light box and window, and the cloud's style setup. Each section method's contract gives the state the section leaves and the paint entries it appends. Each assembled script is then proved to produce exactly one log, stated by a `…Painted` predicate, which shows the following:

- style set for one shape persists until it is overwritten. For example, the kitsune head is painted with the body's glow. The torii nuki is vermilion because `drawPost` restores that fill style.
- the eight assets share no canvas or context.
- each canvas has the dimensions passed to `createCanvas`. The cloud is 120 by 60, not the 100 by 50 its comment states.
- the two ridge layers sample exactly the multiples of 50 (33 points) and of 80 (21 points) in [0, 1600]. Each ridge polygon is closed on the baseline from (0, 200) to (1600, 200).

`Math.sin` and `Math.cos` are parameters of `GenerateAssets` of type `real -> real`, so the ridge heights stay symbolic.

`Fill` and `Stroke` keep the current path, as the HTML standard specifies; only `beginPath` empties it. Every `fill()` and `stroke()` in the sprite scripts follows its own `beginPath()`, so a fill that cleared the path would give exactly the same logs. The ridge heights are IEEE-754 doubles in the source, so the model does not claim that the heights at x = 0 and x = 1600 are exactly equal.

## Model

| member | source | states |
|---|---|---|
| `Credits.Slice` | features/Legal/credits/Credits.tsx:79-80 | `slice(start, end)` with non-negative bounds: its length is the clamped difference of the bounds, and entry i is entry start + i of the input |
| `Credits.Lower` | features/Legal/credits/Credits.tsx:89 | `toLowerCase` keeps the length and maps every character through the ASCII case mapping |
| `Credits.LowerIdempotent` | features/Legal/credits/Credits.tsx:89 | lower-casing a key again gives the same key |
| `Credits.LowerEmpty` | features/Legal/credits/Credits.tsx:89 | the key is '' exactly when the login is '' |
| `Credits.ToContributor` | features/Legal/credits/Credits.tsx:25 | the arrow function maps one payload entry to a person that always has a url and from which login, `avatar_url` and `html_url` read back unchanged |
| `Credits.ToContributors` | features/Legal/credits/Credits.tsx:25 | the mapping keeps length and order; each person has the login, `avatar_url` as avatar and `html_url` as url of the payload entry at the same index |
| `Credits.FetchContributors` | features/Legal/credits/Credits.tsx:22-29 | a failed request or a body that is not an array gives []; an array gives one person per element, in order |
| `Credits.ContributorsInvertible` | features/Legal/credits/Credits.tsx:25 | the mapping loses nothing: reading the payload back from the people returns it unchanged |
| `Credits.ContributorsAppend` | features/Legal/credits/Credits.tsx:25 | mapping a concatenation is concatenating the mappings, so order is kept block by block |
| `Credits.SplitMaintainers` | features/Legal/credits/Credits.tsx:79-80 | maintainers ++ contributorsList == contributors; there are min(2, n) maintainers; maintainers is non-empty iff there are contributors; the rest is non-empty iff there are more than two |
| `Credits.Qualifies` | features/Legal/credits/Credits.tsx:66-67 | the guard holds exactly when the node has a sponsor entity with a login whose lower-cased key is non-empty, so no kept sponsor falls under the key '' |
| `Credits.ToSponsor` | features/Legal/credits/Credits.tsx:67 | a qualifying node becomes a sponsor with a non-empty login |
| `Credits.KeptSponsors` | features/Legal/credits/Credits.tsx:64-69 | the filter keeps at most one sponsor per node, and every kept sponsor has a non-empty login |
| `Credits.KeptSponsorsAppend` | features/Legal/credits/Credits.tsx:65-68 | the filter commutes with concatenation, so the kept sponsors come out in node order |
| `Credits.KeptSponsorsSingle` | features/Legal/credits/Credits.tsx:66-67 | a single node is kept, copying login, avatarUrl as avatar and url, exactly when its entity exists and has a non-empty login |
| `Credits.CollectSponsors` | features/Legal/credits/Credits.tsx:64-69 | the push loop returns exactly the filtered list |
| `Credits.FetchSponsors` | features/Legal/credits/Credits.tsx:34-73 | no token, a failed request or a missing `nodes` path gives []; otherwise the filtered nodes |
| `Credits.KeyOf` | features/Legal/credits/Credits.tsx:89 | the de-duplication key is the login lower-cased and has the login's length, so it is '' exactly when the login is empty |
| `Credits.FirstIndex` | features/Legal/credits/Credits.tsx:86-90 | the earliest index of the merged list whose entry has a given key |
| `Credits.Dedupe` | features/Legal/credits/Credits.tsx:85-93 | the merge is no longer than its input, keeps exactly the input's keys and never holds two entries with equal lower-cased logins |
| `Credits.DedupeSnoc` | features/Legal/credits/Credits.tsx:90 | one more entry is kept exactly when its key has not been kept yet |
| `Credits.DedupeExactlyOnce` | features/Legal/credits/Credits.tsx:86-92 | every key of the merged list occurs in the result exactly once, and no other key occurs |
| `Credits.DedupeKeepsFirst` | features/Legal/credits/Credits.tsx:86-90 | each kept entry is the earliest entry of the merged list with its key |
| `Credits.DedupeContainsFirst` | features/Legal/credits/Credits.tsx:86-90 | the earliest entry for each key is present in the result |
| `Credits.DedupeOrder` | features/Legal/credits/Credits.tsx:87-92 | result order is the order of first appearance in the merged list |
| `Credits.GitHubSponsorWins` | features/Legal/credits/Credits.tsx:86-90 | for a key held by a GitHub sponsor, that sponsor is shown and no Ko-fi supporter with the same key is |
| `Credits.AtMostOneLoginless` | features/Legal/credits/Credits.tsx:89 | no two shown entries both lack a login |
| `Credits.IndexesSnoc` | features/Legal/credits/Credits.tsx:90 | `seen.set(key, s)` for a new key keeps the map and its insertion order in step with the kept entries |
| `Credits.IndexByKey` | features/Legal/credits/Credits.tsx:87-91 | the loop leaves a map from each key to its kept entry, and the keys in insertion order, both matching `Dedupe` of the merged list |
| `Credits.SponsorsToShow` | features/Legal/credits/Credits.tsx:85-93 | `Array.from(seen.values())` is exactly `Dedupe(sponsors ++ kofi)`, of length at most \|sponsors\| + \|kofi\| |
| `Credits.Credits` | features/Legal/credits/Credits.tsx:75-93 | the page's lists: the split of the fetched contributors, and the merge of the fetched sponsors with the Ko-fi supporters (only the Ko-fi supporters when no sponsors are fetched) |
| `Canvas2D.Canvas.constructor` | features/Experiments/components/RunnerAssets.ts:13 | a new canvas is 300 by 150 with a fresh context in the initial state |
| `Canvas2D.Context2D.constructor` | features/Experiments/components/RunnerAssets.ts:22 | a new context has black styles, line width 1, a transparent unblurred shadow, no path and nothing painted |
| `Canvas2D.Context2D.BeginPath` | features/Experiments/components/RunnerAssets.ts:29 | `beginPath` empties the path and changes nothing else |
| `Canvas2D.Context2D.MoveTo` | features/Experiments/components/RunnerAssets.ts:30 | appends a move to the path |
| `Canvas2D.Context2D.LineTo` | features/Experiments/components/RunnerAssets.ts:45 | appends a line to the path |
| `Canvas2D.Context2D.QuadraticCurveTo` | features/Experiments/components/RunnerAssets.ts:33 | appends a quadratic curve to the path |
| `Canvas2D.Context2D.BezierCurveTo` | features/Experiments/components/RunnerAssets.ts:31 | appends a cubic curve to the path |
| `Canvas2D.Context2D.Arc` | features/Experiments/components/RunnerAssets.ts:61 | appends an arc to the path |
| `Canvas2D.Context2D.Ellipse` | features/Experiments/components/RunnerAssets.ts:38 | appends an ellipse to the path |
| `Canvas2D.Context2D.Fill` | features/Experiments/components/RunnerAssets.ts:34 | logs a fill of the current path with the current state; the path is kept |
| `Canvas2D.Context2D.Stroke` | features/Experiments/components/RunnerAssets.ts:159 | logs a stroke of the current path with the current state; the path is kept |
| `Canvas2D.Context2D.FillRect` | features/Experiments/components/RunnerAssets.ts:99 | logs a rectangle fill with the current state; the path is untouched |
| `Canvas2D.LinearGradient.constructor` | features/Experiments/components/RunnerAssets.ts:204 | a gradient along the given axis with no stops |
| `Canvas2D.LinearGradient.AddColorStop` | features/Experiments/components/RunnerAssets.ts:205-207 | a stop is appended exactly when its offset is in [0, 1]; otherwise it is refused and nothing changes |
| `Canvas2D.LinearGradient.AsStyle` | features/Experiments/components/RunnerAssets.ts:209 | the gradient as a fill style carries the stops it holds |
| `RunnerAssets.CreateCanvas` | features/Experiments/components/RunnerAssets.ts:12-17 | a fresh canvas whose width and height are exactly the arguments, with an initial context |
| `RunnerAssets.ContextsDistinct` | features/Experiments/components/RunnerAssets.ts:325 | contexts made one after another, each new relative to the earlier ones, are pairwise distinct |
| `RunnerAssets.KitsuneBody` | features/Experiments/components/RunnerAssets.ts:24-34 | sets a white glow of blur 10 and a white fill, then logs the body fill |
| `RunnerAssets.KitsuneHead` | features/Experiments/components/RunnerAssets.ts:36-39 | logs the head ellipse with the state in force, leaving it unchanged |
| `RunnerAssets.KitsuneEars` | features/Experiments/components/RunnerAssets.ts:41-47 | changes only the fill style, then logs the ears |
| `RunnerAssets.KitsuneMarkings` | features/Experiments/components/RunnerAssets.ts:49-56 | blur 0 with the shadow colour left as it was, red fill, then logs the markings |
| `RunnerAssets.KitsuneEye` | features/Experiments/components/RunnerAssets.ts:58-62 | black fill, then logs the eye disc |
| `RunnerAssets.KitsuneTails` | features/Experiments/components/RunnerAssets.ts:64-73 | sets a blue glow of blur 15, then appends exactly three tail fills, tail i on its own fresh path, and leaves the last tail's path as the current path |
| `RunnerAssets.MakeKitsune` | features/Experiments/components/RunnerAssets.ts:20-73 | a fresh 60 by 60 canvas whose log shows: head and ears carry the body's white glow of blur 10; markings and eye have blur 0; the three tails carry blur 15 in '#aaddff' |
| `RunnerAssets.DrawPost` | features/Experiments/components/RunnerAssets.ts:90-101 | fills the post with the fill style in force, the base in black, then leaves the fill style vermilion with everything else unchanged |
| `RunnerAssets.ToriiPosts` | features/Experiments/components/RunnerAssets.ts:88-103 | both posts vermilion, both bases black, and the fill style left vermilion |
| `RunnerAssets.ToriiShimaki` | features/Experiments/components/RunnerAssets.ts:108-114 | logs the upper lintel core with the state in force |
| `RunnerAssets.ToriiKasagi` | features/Experiments/components/RunnerAssets.ts:116-123 | logs the curved top lintel in black |
| `RunnerAssets.ToriiGaku` | features/Experiments/components/RunnerAssets.ts:125-129 | logs the black plaque, then the gold inset, without touching the path |
| `RunnerAssets.MakeTorii` | features/Experiments/components/RunnerAssets.ts:75-129 | a fresh 100 by 120 canvas: every paint carries the shadow of blur 4 and offsetY 2, and the nuki is vermilion |
| `RunnerAssets.TenguFace` | features/Experiments/components/RunnerAssets.ts:135-141 | sets a dark glow of blur 5 and a red fill, then logs the face disc |
| `RunnerAssets.TenguNose` | features/Experiments/components/RunnerAssets.ts:143-149 | lighter red fill, then logs the nose |
| `RunnerAssets.TenguEyebrows` | features/Experiments/components/RunnerAssets.ts:151-159 | black stroke of width 3; one stroke covers both segments, the second starting a new subpath |
| `RunnerAssets.TenguEyes` | features/Experiments/components/RunnerAssets.ts:161-166 | one white fill covers both eye arcs |
| `RunnerAssets.TenguPupils` | features/Experiments/components/RunnerAssets.ts:167-171 | the pupils are a fresh path of two small discs, filled black |
| `RunnerAssets.MakeTengu` | features/Experiments/components/RunnerAssets.ts:131-171 | a fresh 60 by 60 canvas; the face shadow is never reset, so all five paints carry it |
| `RunnerAssets.LanternRoof` | features/Experiments/components/RunnerAssets.ts:189-196 | blur 0 is set before the roof is painted |
| `RunnerAssets.MakeLantern` | features/Experiments/components/RunnerAssets.ts:173-196 | a fresh 40 by 60 canvas; only the window glows, and the roof keeps the amber colour at blur 0 |
| `RunnerAssets.FujiBody` | features/Experiments/components/RunnerAssets.ts:202-213 | all three stops 0, 0.3, 1 are accepted, are in [0, 1] and strictly increase; the slope is filled with that gradient |
| `RunnerAssets.FujiSnowCap` | features/Experiments/components/RunnerAssets.ts:215-227 | logs the jagged cap in solid white |
| `RunnerAssets.MakeFuji` | features/Experiments/components/RunnerAssets.ts:198-227 | a fresh 800 by 300 canvas: the body is filled with the gradient, the cap in white, both without shadow |
| `RunnerAssets.DarumaBody` | features/Experiments/components/RunnerAssets.ts:233-239 | sets a shadow of blur 4 and a red fill, then logs the body disc |
| `RunnerAssets.DarumaFace` | features/Experiments/components/RunnerAssets.ts:241-246 | blur 0 is set before the face is painted |
| `RunnerAssets.DarumaEyes` | features/Experiments/components/RunnerAssets.ts:248-254 | one black fill covers both eyes |
| `RunnerAssets.DarumaBeard` | features/Experiments/components/RunnerAssets.ts:256-262 | logs a black stroke of width 1 |
| `RunnerAssets.DarumaGold` | features/Experiments/components/RunnerAssets.ts:264-269 | logs a gold stroke of width 2 |
| `RunnerAssets.MakeDaruma` | features/Experiments/components/RunnerAssets.ts:229-269 | a fresh 40 by 40 canvas; only the body has blur 4, and the face and everything after it have blur 0 |
| `RunnerAssets.DrawPuff` | features/Experiments/components/RunnerAssets.ts:279-283 | one fresh circular path, filled with the state in force |
| `RunnerAssets.MakeCloud` | features/Experiments/components/RunnerAssets.ts:271-288 | a fresh canvas of 120 by 60; the glow is never reset, so all four puffs carry blur 10 |
| `RunnerAssets.Grid` | features/Experiments/components/RunnerAssets.ts:300 | the first n sample positions: sample i is at i times the layer's step |
| `RunnerAssets.RidgeY` | features/Experiments/components/RunnerAssets.ts:304-307 | the y of sample x is the layer's base line (200 - 60 or 200 - 40) minus its rise at angle (x/1600)·2π, computed in exact reals; the near ridge, whose rise is an absolute value, never lies below its base line 160 |
| `RunnerAssets.RidgeOpen` | features/Experiments/components/RunnerAssets.ts:299-308 | after k samples the open outline has k + 1 entries: the start point and one per sample (`RidgeOpenEntries` gives them) |
| `RunnerAssets.RidgeOpenEntries` | features/Experiments/components/RunnerAssets.ts:299-307 | the open outline starts at (0, 200), and its entry i is the line to sample i - 1 at its ridge height |
| `RunnerAssets.SamplingGrid` | features/Experiments/components/RunnerAssets.ts:300-316 | layer 1 takes 33 samples and layer 2 takes 21, each ending exactly at 1600; x is sampled iff it is a multiple of the step in [0, 1600] |
| `RunnerAssets.RidgeClosedOnBaseline` | features/Experiments/components/RunnerAssets.ts:298-322 | each ridge path starts at (0, 200), ends at (1600, 200) and has one line per sample in between |
| `RunnerAssets.FarOutline` | features/Experiments/components/RunnerAssets.ts:298-309 | the loop over x = 0, 50, …, 1600 builds exactly the far ridge path |
| `RunnerAssets.FarRidge` | features/Experiments/components/RunnerAssets.ts:296-310 | the far ridge is filled in light slate |
| `RunnerAssets.NearOutline` | features/Experiments/components/RunnerAssets.ts:314-322 | the loop over x = 0, 80, …, 1600 builds exactly the near ridge path |
| `RunnerAssets.NearRidge` | features/Experiments/components/RunnerAssets.ts:312-323 | the near ridge is filled in darker slate |
| `RunnerAssets.MakeMountains` | features/Experiments/components/RunnerAssets.ts:290-323 | a fresh 1600 by 200 canvas: far ridge then near ridge, each with its own fill and no shadow |
| `RunnerAssets.GenerateAssets` | features/Experiments/components/RunnerAssets.ts:19-326 | eight fresh canvases of the declared sizes that share no canvas or context, each carrying its script's log |

## Left out

- Credits.Lower: only ASCII letters are case-mapped. JavaScript's `toLowerCase` uses full Unicode case mapping, so two non-ASCII logins that differ only in case are treated as distinct keys here.
- Network and environment I/O: `fetch`, the GitHub tokens, the GraphQL query text, `next.revalidate` caching and `console.error`. Their outcomes are inputs: an absent payload stands for a thrown or failed request, and the `SponsorsResponse` variants stand for no token, a failed request or an answer.
- `KO_FI_SUPPORTERS` is a parameter. `features/Legal/credits/sponsorsData` is not part of this model.
- The JSX rendering of the credits page, and the React components it uses.
- Rasterisation, anti-aliasing, blur compositing and gradient colour interpolation. The log of paint operations is what a rasteriser would consume.
- `Math.sin` and `Math.cos` are parameters, so the ridge heights stay symbolic.
- RunnerAssets.RidgeY: the ridge height formula is evaluated in exact real arithmetic, not IEEE-754 double arithmetic, so its rounding is not modelled. Exact seam equality between x = 0 and x = 1600 is not claimed.
- Colour strings are stored as assigned. CSS colour parsing and serialisation are not modelled.
- The numeric attributes' rule of ignoring non-finite or negative values is not modelled. The scripts only assign valid values.
- Canvas2D.Context2D.Arc: a negative radius throws an IndexSizeError in a browser. Here that case is excluded by a precondition, because no script passes a negative radius. The same holds for Canvas2D.Context2D.Ellipse and RunnerAssets.DrawPuff.
- Canvas2D.LinearGradient.AsStyle: the style captures the stops by value. A stop added after the assignment would not reach the context, whereas a browser shares the gradient object. The Fuji script adds every stop before the assignment.
- Assigning `width` or `height` of a canvas also resets its context in a browser. This is not modelled because `createCanvas` assigns them before any drawing.
- `getContext('2d')` is modelled as the canvas's one context, created with the canvas. Other context types are not modelled.
- `shared/hooks/useAudio.ts` is not part of this model. It does audio playback, random choice and timers.
