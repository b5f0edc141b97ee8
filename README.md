# Farmers Planting Guide page — verified model

The page `seed-frontend/app/pages/index.ts` asks for a zip code and a crop,
looks up a mocked planting recommendation and shows it. This project models
its two pieces of logic:

- **The mock lookup `fetchPlantingInfo`** (module `PlantingApi`). The record
  always carries the planting window "Mid-April to Early-May". It starts from
  the list Corn, Soybeans, Wheat. When the crop's lower-case form is not
  "corn", "soybeans" or "wheat", the list is filtered of entries naming the
  crop (ignoring case), and the crop is put in front, verbatim. `PlantingInfo`
  is the specification as a function. `FetchPlantingInfo` is the step-by-step
  version: it builds the record, runs `Filter` (a loop), and prepends the crop.
  It is proved equal to `PlantingInfo`.
- **The `Home` component** (module `HomePage`). A class `Home` holds the four
  state cells `zipCode`, `crop`, `results`, `loading`. Its methods are the change
  handlers and the submit handler, split into its steps: raise `loading`, then
  store the record or keep the old one, then clear `loading` (the `finally`).
  `Render` gives the submit button and the results panel as pure functions of
  `loading` and `results`.
- `toLowerCase` (module `Text`) is modelled on ASCII letters.

What the proofs show about the lookup:
- The guard makes the filter a no-op. The filter runs, but no default name
  matches a crop that passed the guard, so it removes nothing (`FilterIsNoOp`).
- The list is therefore exactly Corn, Soybeans, Wheat, or the crop followed by
  all three (`TopCropsExact`).
- A non-default crop gives four entries, shown under the heading
  "Top 3 Suitable Crops" (`NonDefaultCropFirst`, `PanelAfterLookup`).
- The zip code plays no part in the answer.

## Model

| member | source | states |
|---|---|---|
| `Text.ToLower` | seed-frontend/app/pages/index.ts:17-18 | lower-casing keeps the length (ASCII model) and lowers each character on its own (ASCII model of `toLowerCase`) |
| `Text.ToLowerIdempotent` | seed-frontend/app/pages/index.ts:17-18 | lower-casing an already lower-cased name changes nothing |
| `Text.CapitalisedLowered` | seed-frontend/app/pages/index.ts:13-17 | a capitalised name such as "Corn" lower-cases to its first letter lowered and the rest unchanged |
| `PlantingApi.SameCrop` | seed-frontend/app/pages/index.ts:18 | the filter callback's comparison: equal names always match, and matching names have equal length (ASCII model) |
| `PlantingApi.IsDefaultCrop` | seed-frontend/app/pages/index.ts:17 | the guard: a crop that passes it as a default has the length of "corn", "wheat" or "soybeans" (ASCII model) |
| `PlantingApi.GuardMatchesDefaults` | seed-frontend/app/pages/index.ts:13-17 | the guard holds exactly when the crop matches one of Corn, Soybeans, Wheat ignoring case |
| `PlantingApi.WithoutCrop` | seed-frontend/app/pages/index.ts:18 | the filtered list holds exactly the values of the input that do not name the crop ignoring case, and is no longer than the input; order and repeats are stated by `WithoutCropAppend` and `WithoutCropCounts` |
| `PlantingApi.WithoutCropAppend` | seed-frontend/app/pages/index.ts:18 | filtering a concatenation is the concatenation of the filtered parts, so the kept entries stay in their original order |
| `PlantingApi.WithoutCropCounts` | seed-frontend/app/pages/index.ts:18 | every entry that does not name the crop is kept as many times as it occurs, every entry that names it is dropped |
| `PlantingApi.Filter` | seed-frontend/app/pages/index.ts:18 | the loop that keeps the non-matching entries in order computes exactly `WithoutCrop` |
| `PlantingApi.PlantingInfo` | seed-frontend/app/pages/index.ts:11-12 | the planting window is "Mid-April to Early-May" whatever the zip code and crop |
| `PlantingApi.FetchPlantingInfo` | seed-frontend/app/pages/index.ts:6-23 | building the record, filtering and prepending step by step gives exactly `PlantingInfo(zipCode, crop)` |
| `PlantingApi.WithoutCropKeepsUnmatched` | seed-frontend/app/pages/index.ts:18 | filtering a list none of whose entries names the crop returns the list unchanged |
| `PlantingApi.CornLowered` | seed-frontend/app/pages/index.ts:13-17 | "Corn" lower-cases to "corn", the guard's first name |
| `PlantingApi.SoybeansLowered` | seed-frontend/app/pages/index.ts:13-17 | "Soybeans" lower-cases to "soybeans", the guard's second name |
| `PlantingApi.WheatLowered` | seed-frontend/app/pages/index.ts:13-17 | "Wheat" lower-cases to "wheat", the guard's third name |
| `PlantingApi.FilterIsNoOp` | seed-frontend/app/pages/index.ts:17-18 | for a crop that passes the guard, no default entry names it, so the filter removes nothing |
| `PlantingApi.TopCropsExact` | seed-frontend/app/pages/index.ts:13-20 | the list is Corn, Soybeans, Wheat for a default crop in any letter case, and the crop followed by Corn, Soybeans, Wheat otherwise |
| `PlantingApi.NonDefaultCropFirst` | seed-frontend/app/pages/index.ts:17-19 | for a non-default crop the list has 4 entries, the first is the crop verbatim, and no later entry names it ignoring case |
| `PlantingApi.TopCropsShape` | seed-frontend/app/pages/index.ts:13-19 | the list has 3 or 4 entries and ends with Corn, Soybeans, Wheat in that order; 4 exactly when the crop is not a default one |
| `PlantingApi.LengthsDiffer` | seed-frontend/app/pages/index.ts:18 | two names of different lengths never match ignoring case (ASCII model, where lower-casing keeps the length) |
| `PlantingApi.DefaultsDistinct` | seed-frontend/app/pages/index.ts:13 | no two default names match ignoring case |
| `PlantingApi.PrependKeepsDistinct` | seed-frontend/app/pages/index.ts:19 | prepending a crop that no entry names to a duplicate-free list keeps it duplicate-free |
| `PlantingApi.NoDuplicateCrops` | seed-frontend/app/pages/index.ts:16-20 | no two entries of the returned list name the same crop ignoring case |
| `PlantingApi.NotDefaultCrop` | seed-frontend/app/pages/index.ts:17 | a name whose length is not 4 or 5, and whose first letter is not s/S when its length is 8, fails the guard |
| `PlantingApi.DefaultOptions` | seed-frontend/app/pages/index.ts:75-77 | the selector values Corn, Soybeans and Wheat leave the list as Corn, Soybeans, Wheat |
| `PlantingApi.OtherOptions` | seed-frontend/app/pages/index.ts:74-79 | the selector values Tomatoes and Potatoes, and the empty placeholder, come first, followed by Corn, Soybeans, Wheat |
| `PlantingApi.ZipCodeIgnored` | seed-frontend/app/pages/index.ts:6-22 | two lookups with the same crop and different zip codes return equal records |
| `HomePage.SubmitButton` | seed-frontend/app/pages/index.ts:85-87 | the button is disabled exactly while loading, and reads "Loading..." exactly while loading, "Get Planting Info" otherwise |
| `HomePage.Panel` | seed-frontend/app/pages/index.ts:91-101 | the results panel is shown exactly when there are results, with their planting window and every crop, in order |
| `HomePage.Render` | seed-frontend/app/pages/index.ts:85-101 | the page shows the button disabled and labelled "Loading..." exactly while loading, and the results panel exactly when there are results, listing their crops in order |
| `HomePage.RenderSeparates` | seed-frontend/app/pages/index.ts:85-91 | the button depends on `loading` alone and the panel on `results` alone |
| `HomePage.PanelAfterLookup` | seed-frontend/app/pages/index.ts:94-100 | after a lookup the panel lists the window and Corn, Soybeans, Wheat, preceded by the crop when it is not a default, so 4 items under "Top 3" |
| `HomePage.Home.constructor` | seed-frontend/app/pages/index.ts:26-29 | the page starts with empty inputs, no results and not loading |
| `HomePage.Home.SetZipCode` | seed-frontend/app/pages/index.ts:60 | the zip code is stored verbatim and nothing else changes |
| `HomePage.Home.SetCrop` | seed-frontend/app/pages/index.ts:70 | the crop is stored verbatim and nothing else changes |
| `HomePage.Home.BeginSubmit` | seed-frontend/app/pages/index.ts:33 | `loading` is raised, the old results stay, and the button shows disabled with "Loading..." |
| `HomePage.Home.Complete` | seed-frontend/app/pages/index.ts:35-40 | the looked-up record replaces the old results as a whole and `loading` is cleared |
| `HomePage.Home.Fail` | seed-frontend/app/pages/index.ts:37-40 | on a rejected lookup the old results are kept and `loading` is cleared |
| `HomePage.Home.HandleSubmit` | seed-frontend/app/pages/index.ts:31-42 | afterwards `loading` is false and the button is enabled again on both paths; on success the results are the lookup of the inputs, duplicate-free and with the fixed window; on failure the results are unchanged |

## Left out

- The one-second `setTimeout` delay and the `async`/`await` scheduling: the lookup is modelled as an instantaneous call. So the model does not capture the user editing the inputs while a lookup is pending.
- The lookup never rejects as written. The `catch` path is reached in the model through the `fetchRejects` parameter of `HandleSubmit`.
- `console.error` logging on the error path: an output side effect with no effect on state.
- React's `useState` machinery and `e.preventDefault()`: the state cells are plain fields and the setters plain methods.
- The JSX layout, CSS classes, headings and list keys. Only the button state, the button text and the presence and content of the results panel are modelled.
- `Text.ToLower`: maps only the ASCII letters A–Z, not the full Unicode case mapping of `String.prototype.toLowerCase`. This makes no difference for the three default names.
- The browser's `required` validation of both inputs is not modelled. So a submit with an empty crop is allowed; `OtherOptions` states its outcome.
