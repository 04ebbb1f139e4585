# FoodWagen in Dafny

FoodWagen is a Next.js food catalogue in front of a MockAPI collection at
`https://6852821e0594059b23cdd834.mockapi.io/Food`. This project models the
decision logic of that application and proves properties of it:

- the server routes of `app/api/food/route.ts`:
  - `normalizeItem`, the read-side normaliser that turns any upstream JSON value into the canonical item;
  - the POST/PUT payload builder;
  - the GET, POST, PUT and DELETE handlers, modelled as functions from the request and the upstream's answer to the upstream call made and the response returned;
- the meal form of `components/food/FoodForm.tsx`:
  - its values, the empty form and the merge with initial values;
  - `validate` with its six checks and their error dictionary;
  - `handleSubmit`, which submits and then resets;
- the page `pages/Index.tsx`:
  - the list query with its inline copy of the normaliser;
  - the create, update and delete requests and their URLs;
  - the edit prefill;
- the dialog `components/food/AddEditModal.tsx`: its prefill, its title, and the choice of mutation on submit;
- the mutations of `components/food/FoodMain.tsx`, the page that renders the dialog: they send the raw form values to the server route, which forwards them to the mock API;
- the two food cards, `components/food/FoodCard.tsx` and `client/components/food/FoodCard.tsx`: the status, badge and display fallbacks.

Modules:

- `JsString`: the string built-ins the code calls.
  - `trim`, following ECMAScript white space;
  - `toLowerCase`, for ASCII letters;
  - `includes`;
  - `encodeURIComponent`, producing UTF-8 with upper-case `%XX`.
- `JsRuntime`: JavaScript values as JSON carries them, plus undefined.
  - the `??` and `||` tests;
  - `Number()` and `String()`;
  - the `JSON.stringify` / `JSON.parse` round trip;
  - the outcome of one `fetch` call.
- `Route`, `FoodForm`, `IndexPage`, `AddEditModal`, `FoodMain`, `FoodCard`, `ClientFoodCard`: one module per source file.

Most of the code is pure, so most of the model is functions on values. The exception is the form: `values` and `errors` are state the form updates, so it is a class `FoodForm.Form`. Its `Validate` fills the dictionary check by check, as the source does, and is proved to produce `FormErrors`. The lemma `FoodForm.FieldChecks` states what each entry of `FormErrors` means.

Foreign algorithms are parameters of type `JsRuntime.Host`:
- `numericLiteral`: the StrNumericLiteral grammar behind `Number("…")`;
- `numberToString`: `Number::toString`;
- `parseUrl`: the WHATWG URL Standard's parser, returning the protocol of a URL it accepts.

Other inputs are parameters too:
- the answer of the upstream API is a function `upstream: Call -> Outcome`;
- the value `crypto.randomUUID()` would return is a parameter: `uuid` for one item, `uuids(i)` for element `i` of a list.

Behaviour of the code a reader might not expect:

- A numeric `rating` is passed through unchanged, including 0. Only a rating coerced from `food_rating` is dropped when it is 0 or NaN (`Route.NormalizeRatingCases`).
- `id` is `String(x.id)` whenever `x.id` is present, so `""` stays `""`. `name` is whatever `x.name` holds when it is not nullish, so the canonical `id` and `name` can be empty.
- `normalizeItem` throws on a null or undefined element, because it reads `x.id`. GET then answers 500, and the page's query rejects (`Route.NormalizeItem`, `Route.HandleGet`).
- GET answers `{items}` and no `totalCount`. DELETE answers `{success: true, data}`.
- A non-ok upstream status is passed on through `NextResponse.json`, which throws for a status the Response constructor refuses with a body (304, or one outside 200 to 599). The handler's catch then answers 500 (`Route.Passthrough`).
- The two pages create meals differently. `pages/Index.tsx` posts the item's shape straight to the mock API; `components/food/FoodMain.tsx` posts the raw form values to `/api/food`, and the route's `||` fallbacks rebuild the same body whenever the trimmed image is non-empty (`FoodMain.ForwardedRequests`). A valid form always has such an image when the URL parser rejects blank strings, as the WHATWG parser does without a base (`FoodMain.ValidFormForwarded`).
- The prefilled rating is `selected.rating ?? 3`. So it is 3 when the item has no rating, and also when the item's rating is 3 (`AddEditModal.PrefillRatingAndStatus`).

## Model

| member | source | states |
|---|---|---|
| `JsString.TrimStartFacts` | components/food/FoodForm.tsx:41 | trimming the start removes exactly the leading white space: the result is a suffix that does not start with white space, and everything dropped is white space |
| `JsString.TrimEndFacts` | components/food/FoodForm.tsx:41 | trimming the end removes exactly the trailing white space: the result is a prefix that does not end with white space, and everything dropped is white space |
| `JsString.TrimEmptyIff` | components/food/FoodForm.tsx:41 | `s.trim()` is empty exactly when every character of `s` is ECMAScript white space |
| `JsString.TrimIdempotent` | components/food/FoodForm.tsx:70-74 | a trimmed string neither starts nor ends with white space, and trimming it again changes nothing |
| `JsString.IncludesIff` | components/food/FoodCard.tsx:32 | `s.includes(t)` holds exactly when `t` occurs in `s` at some position |
| `JsString.EncodeUriComponent` | pages/Index.tsx:25 | the encoding is at least as long as the input, and holds only unreserved characters, `%` and upper-case hexadecimal digits, so it cannot carry `&`, `=`, `#`, `?` or `/` into a URL |
| `JsString.EncodeUnreservedIdentity` | app/api/food/route.ts:28 | a string made only of unreserved characters is its own encoding |
| `JsRuntime.Coalesce` | app/api/food/route.ts:9-18 | `a ?? b` is `a` unless `a` is null or undefined, and then `b` |
| `JsRuntime.OrElse` | app/api/food/route.ts:62-69 | the logical or of two values is the first unless it is falsy (undefined, null, false, 0, NaN, ""), and then the second |
| `JsRuntime.WireSerializable` | app/api/food/route.ts:77 | what comes out of `JSON.stringify` and `JSON.parse` contains no undefined and no non-finite number, and a value with neither crosses unchanged |
| `Route.FirstPresentSpec` | app/api/food/route.ts:10-12 | an ordered fallback list yields the candidate at the first position that is neither null nor undefined, and the default exactly when every candidate is null or undefined |
| `Route.NormalizeItem` | app/api/food/route.ts:7-20 | normalisation fails (throws) exactly on null and undefined; otherwise the item has exactly the six keys, a string `id`, and `name`, `image` and `restaurant` that are never null or undefined |
| `Route.NormalizeFallbacks` | app/api/food/route.ts:9-18 | `id` is `String(x.id)` whenever `x.id` is present and the generated uuid otherwise; `name`, `image`, `price` and `restaurant` are each the first present entry of their fallback list, with the flat `restaurant_*` object as the restaurant's fallback |
| `Route.NormalizeRatingCases` | app/api/food/route.ts:13 | a numeric `x.rating` is kept, 0 included; otherwise the rating is `Number(x.food_rating ?? 0)`, undefined exactly when that is 0 or NaN, so a missing `food_rating` gives undefined |
| `Route.NormalizeIdempotent` | app/api/food/route.ts:7-20 | normalising a normalised item gives it back unchanged, and no new identifier is drawn |
| `Route.Payload` | app/api/food/route.ts:61-70 | the upstream payload has exactly the keys `name`, `image`, `rating` and `restaurant` |
| `Route.PayloadFalsyFallbacks` | app/api/food/route.ts:113-122 | each of `name`, `image` and `rating` is the `food_*` value when that is truthy and the plain field when it is falsy (missing, undefined, null, false, NaN, "" or 0), so an empty `food_name` or `food_image` and a zero `food_rating` fall back; the restaurant is `body.restaurant` when truthy and is built from the flat fields exactly when it is falsy |
| `Route.NormalizeAll` | app/api/food/route.ts:43-45 | mapping the normaliser over an array fails exactly when some element is null or undefined, and otherwise normalises element `i` with uuid `i`, preserving length and order |
| `Route.ListUrl` | app/api/food/route.ts:27-29 | the upstream URL carries `?name=` and the encoded name exactly when the name parameter is present and non-empty |
| `Route.Passthrough` | app/api/food/route.ts:35-39 | a status `NextResponse.json` accepts with a body is answered with the operation's message; any other makes it throw, and the catch answers 500 |
| `Route.PassthroughCases` | app/api/food/route.ts:35-53 | a non-ok upstream status is answered as itself, except 304 and statuses outside 200 to 599, which become 500; a status other than 500 carries the operation's message |
| `Route.HandleGet` | app/api/food/route.ts:22-55 | GET calls the list URL; a thrown call or a body that is not JSON is 500; a non-ok status is passed on with "Failed to fetch food items" as `Passthrough` allows; a non-array body is an empty list; an array is normalised, and a null element makes it 500 |
| `Route.ItemResponse` | app/api/food/route.ts:80-90 | the answer to a create or update: 500 when the call throws or the body is not JSON or is null, a non-ok status passed on with the operation's message as `Passthrough` allows, and otherwise the normalised item with the success status |
| `Route.HandlePost` | app/api/food/route.ts:57-98 | POST sends the payload of the body to the collection and answers 201 with the normalised item; a request body that is not JSON, or is null, is 500 with nothing sent upstream |
| `Route.HandlePut` | app/api/food/route.ts:99-150 | PUT with an absent or empty id is 400 "Missing id parameter" with nothing sent; otherwise it sends the payload to `MOCK_API/<id>` and answers 200 with the normalised item, or passes on a non-ok status with "Failed to update food item" |
| `Route.HandleDelete` | app/api/food/route.ts:152-185 | DELETE with an absent or empty id is 400 with nothing sent; otherwise it deletes `MOCK_API/<id>` and answers `{success: true, data}`, or passes on a non-ok status with "Failed to delete food item", or answers 500 |
| `Route.ResponseStatuses` | app/api/food/route.ts:35-53 | every handler answers its success status, 400, 500, or a non-ok upstream status passed on; the "Missing id parameter" answer of PUT and DELETE is given without an upstream call (an upstream 400 passed on does follow a call) |
| `Route.GetStatuses` | app/api/food/route.ts:22-55 | GET answers 200, 500, or the upstream's own status when that is not ok |
| `Route.PostStatuses` | app/api/food/route.ts:57-98 | POST answers 201, 500, or the upstream's own status when that is not ok |
| `Route.PutStatuses` | app/api/food/route.ts:99-150 | PUT answers 200, 400, 500, or the upstream's own status when that is not ok, and its "Missing id parameter" answer comes without an upstream call |
| `Route.DeleteStatuses` | app/api/food/route.ts:152-185 | DELETE answers 200, 400, 500, or the upstream's own status when that is not ok, and its "Missing id parameter" answer comes without an upstream call |
| `FoodCard.AsFoodItem` | components/food/FoodCard.tsx:6-19 | a value reads as a FoodItem exactly when its members have the declared types; the item's `id`, `name` and `image` are those strings, its rating is the number or none when absent, its price the string or none when nullish, and its restaurant none when nullish and otherwise the object's three optional strings |
| `FoodCard.Status` | components/food/FoodCard.tsx:31 | the status is the restaurant's status, or "" when the restaurant or its status is missing |
| `FoodCard.IsOpenIff` | components/food/FoodCard.tsx:32 | a status is open exactly when "open" occurs in its lower-cased form; "Open Now" and "Not open" are open and "Closed" is not |
| `FoodCard.BadgeText` | components/food/FoodCard.tsx:33 | the badge is "Open Now" when open, otherwise the status, or "Unknown" for an empty status; it is never empty, both allowed statuses show as themselves, and "Not open" shows as "Open Now" in the open style |
| `FoodCard.DisplayFallbacks` | components/food/FoodCard.tsx:43-123 | the rating shows its value or "-" before the star; the price badge appears exactly for a non-empty price; the logo appears exactly for a non-empty logo, with the restaurant name or "Restaurant logo" as alt text; the hidden name falls back to "Unknown Restaurant" only when it is missing |
| `ClientFoodCard.AsWrittenRatingDiffers` | client/components/food/FoodCard.tsx:62 | as written, the older card's rating text differs from the newer card's for every item |
| `ClientFoodCard.RenderAgrees` | client/components/food/FoodCard.tsx:27-91 | with the star restored, the older card shows exactly what the newer card shows for every item, including the status derivation and every fallback; as written it differs only in the rating text |
| `FoodForm.MergeCases` | components/food/FoodForm.tsx:32 | the initial values are the empty form without initial values and exactly the given values when all six are given; for each of the six fields, a given value overrides and a missing one is the empty form's |
| `FoodForm.IdsDistinct` | components/food/FoodForm.tsx:41-60 | the six error keys have six distinct string ids |
| `FoodForm.Form.constructor` | components/food/FoodForm.tsx:32-33 | a new form holds the merged initial values and no errors |
| `FoodForm.Form.Validate` | components/food/FoodForm.tsx:39-64 | all six checks run, and the stored dictionary is `FormErrors` of the current values; the result is true exactly when it is empty |
| `FoodForm.Form.HandleSubmit` | components/food/FoodForm.tsx:66-78 | the errors are validated; when there are none, the trimmed, coerced record is submitted and the values reset to the empty form; otherwise nothing is submitted and the values stay |
| `FoodForm.NameAndRatingChecks` | components/food/FoodForm.tsx:41-52 | the name and restaurant name keys are present exactly when the field is made only of white space, the rating key exactly when the rating is not a number in [1, 5]; no key outside the six occurs |
| `FoodForm.UrlAndStatusChecks` | components/food/FoodForm.tsx:46-61 | the image and logo keys are present exactly when the URL does not parse or is not http(s), the status key exactly when the status is neither "Open Now" nor "Closed" |
| `FoodForm.ErrorMessages` | components/food/FoodForm.tsx:42-61 | every entry holds its own key's fixed message |
| `FoodForm.FieldChecks` | components/food/FoodForm.tsx:40-61 | each key is present exactly when its own check fails, with its fixed message, and no other keys occur. The checks: name and restaurant name made only of white space; a rating not in [1, 5], with "" read as 0; an image or logo that does not parse or is not http(s); a status other than "Open Now" or "Closed" |
| `FoodForm.NoErrorsIff` | components/food/FoodForm.tsx:63 | the dictionary is empty exactly when all six checks pass |
| `FoodForm.ChecksIndependent` | components/food/FoodForm.tsx:40-61 | each key depends on its own field only, so no failure masks another |
| `FoodForm.EmptyFormFailsAll` | components/food/FoodForm.tsx:12-19 | the empty form fails all six checks when the URL parser rejects "" |
| `FoodForm.ValidSubmission` | components/food/FoodForm.tsx:69-76 | a valid form submits non-empty names without surrounding white space, a rating in [1, 5] and one of the two statuses, and submitting the submission changes nothing |
| `IndexPage.ListUrl` | pages/Index.tsx:25 | the list URL carries `?name=` and the encoded search exactly when the search is non-empty, and it is the URL the server's GET would call |
| `IndexPage.ItemUrl` | pages/Index.tsx:78 | the item URL is the API, a slash and the unencoded id |
| `IndexPage.InlineAgrees` | pages/Index.tsx:28-39 | the page's inline normalisation is `normalizeItem` on every input |
| `IndexPage.QueryFn` | pages/Index.tsx:24-41 | the query calls the list URL, and yields items exactly when the answer is an ok JSON array with no null or undefined element; item `i` is element `i` normalised |
| `IndexPage.QueryAgreesWithRoute` | pages/Index.tsx:22-41 | for the same upstream answer, the page lists exactly what the server's GET lists; where the server answers an empty list for a non-array body, the page rejects |
| `IndexPage.CreateBody` | pages/Index.tsx:46-55 | the create body has exactly `name`, `image`, `rating` and the nested `restaurant`, each copied from its form field |
| `IndexPage.BodiesAgree` | pages/Index.tsx:68-77 | create and update send the same body for the same values, and different values give different bodies |
| `IndexPage.Settle` | pages/Index.tsx:56-58 | a mutation resolves exactly on an ok answer with a JSON body, to that body; a non-ok status rejects with the mutation's own message; a thrown call, or an ok answer whose body is not JSON, rejects with another error, whose message is not tracked |
| `IndexPage.Create` | pages/Index.tsx:44-58 | a non-ok answer to the create rejects with "Create failed"; a resolved create had an ok answer |
| `IndexPage.Update` | pages/Index.tsx:66-80 | a non-ok answer to the update rejects with "Update failed"; a resolved update had an ok answer |
| `IndexPage.Delete` | pages/Index.tsx:88-92 | a non-ok answer to the delete rejects with "Delete failed"; a resolved delete had an ok answer |
| `IndexPage.EditSubmit` | pages/Index.tsx:202 | the edit form sends a PUT of the create body to the selected item's URL, and nothing without a selection |
| `IndexPage.DeleteConfirm` | pages/Index.tsx:217 | confirming sends a DELETE to the selected item's URL, and nothing without a selection |
| `IndexPage.PrefillFields` | pages/Index.tsx:113-125 | the prefill is absent exactly without a selection and otherwise sets all six fields. The rating is the item's (0 kept) or 3. A missing restaurant name or logo becomes "". The status is kept when allowed and is "Open Now" otherwise, so it always passes its check |
| `IndexPage.EchoOfCreate` | pages/Index.tsx:46-56 | the create body of a finite rating crosses JSON unchanged, so the echo is that body with the new id |
| `IndexPage.ListedEcho` | pages/Index.tsx:28-39 | the page lists an echoed create body as the same id, name, image, rating and restaurant, with no price |
| `IndexPage.ListedAsItem` | components/food/FoodCard.tsx:6-19 | such a listed object reads as the FoodItem with the same fields and no price |
| `IndexPage.EchoListed` | pages/Index.tsx:28-56 | the create body of a finite rating crosses JSON unchanged, and the page lists the echoed item with the same fields and no price |
| `IndexPage.RoundTrip` | pages/Index.tsx:28-125 | for values that pass validation, and an API that lists exactly the JSON of the posted body plus an id (`IndexPage.Echo`), creating, listing and opening for edit gives back exactly the six submitted values |
| `AddEditModal.InitialForEdit` | components/food/AddEditModal.tsx:26-38 | the prefill is absent exactly when nothing is selected |
| `AddEditModal.PrefillAgrees` | components/food/AddEditModal.tsx:26-38 | the dialog's prefill is the page's, for every selection |
| `AddEditModal.PrefillRatingAndStatus` | components/food/AddEditModal.tsx:30-36 | the prefilled rating is 3 exactly when the item has no rating or its rating is 3; the prefilled status always passes the form's check, and is "Open Now" for any other status |
| `AddEditModal.Title` | components/food/AddEditModal.tsx:46 | the title is "Edit Meal" exactly when an item is selected, and "Add a meal" exactly when none is |
| `AddEditModal.Dispatch` | components/food/AddEditModal.tsx:58-64 | a submit fires exactly one mutation with the submitted values: the update of the selected id when there is a selection, the create otherwise |
| `FoodMain.FormJson` | components/food/FoodMain.tsx:39 | the request body is an object with exactly the form's six own names, each holding that form value (the rating as `IndexPage.RatingJson` renders it) |
| `FoodMain.Create` | components/food/FoodMain.tsx:34-43 | a non-ok answer to the POST to `/api/food` rejects with "Create failed"; a resolved create had an ok answer |
| `FoodMain.Update` | components/food/FoodMain.tsx:50-59 | a non-ok answer to the PUT to `/api/food?id=<id>` rejects with "Update failed"; a resolved update had an ok answer |
| `FoodMain.Delete` | components/food/FoodMain.tsx:66-71 | a non-ok answer to the DELETE of `/api/food?id=<id>` rejects with "Delete failed"; a resolved delete had an ok answer |
| `FoodMain.DialogRequests` | components/food/FoodMain.tsx:222-229 | with this page's mutations as its props, the dialog's submit sends the raw form values: a POST to `/api/food` for a new meal, a PUT to `/api/food?id=<id>` for the selected one |
| `FoodMain.ForwardedBody` | app/api/food/route.ts:61-70 | the route's payload of the form values, after JSON, for a non-empty name and a non-zero finite rating, is the body `pages/Index.tsx` builds itself, except that an empty image becomes undefined |
| `FoodMain.ForwardedRequests` | app/api/food/route.ts:57-150 | a valid form whose trimmed image is non-empty, sent through the route, reaches the mock API as the very POST or PUT `pages/Index.tsx` sends directly; with a blank image the forwarded body has the image undefined; a PUT with an empty id is 400 with nothing sent |
| `FoodMain.ValidFormForwarded` | app/api/food/route.ts:57-150 | when the URL parser rejects every string that is blank after trimming, every valid form reaches the mock API through the route as the very POST, or for a non-empty id the very PUT, that `pages/Index.tsx` sends directly |
| `FoodMain.ForwardedDelete` | app/api/food/route.ts:152-166 | a delete sent through the route reaches the mock API as the DELETE `pages/Index.tsx` sends directly; an empty id is 400 with nothing sent |

Definitions without a row of their own are specified by the rows named here:
- `FoodForm.Merge`: `FoodForm.MergeCases`.
- `FoodForm.FormErrors`: `FoodForm.Form.Validate`, `FoodForm.FieldChecks`, `FoodForm.NoErrorsIff`.
- `FoodForm.Submission`: `FoodForm.ValidSubmission`, `FoodForm.Form.HandleSubmit`.
- `Route.NormalizedRating`: `Route.NormalizeRatingCases`.
- `Route.JsonStatus`: `Route.Passthrough`, `Route.PassthroughCases`.
- `IndexPage.NormalizeInline`: `IndexPage.InlineAgrees`, `IndexPage.ListedEcho`.
- `IndexPage.UpdateBody`: `IndexPage.BodiesAgree`.
- `IndexPage.InitialForEdit`: `IndexPage.PrefillFields`, `AddEditModal.PrefillAgrees`.
- `IndexPage.CreateCall`, `UpdateCall`, `DeleteCall`: `IndexPage.Create`, `Update`, `Delete`, `EditSubmit`, `DeleteConfirm`.
- `IndexPage.Echo`, the upstream that answers a create with its body and a new id: `IndexPage.EchoOfCreate`, `IndexPage.RoundTrip`.
- `FoodCard.Render`: `FoodCard.DisplayFallbacks`, `FoodCard.BadgeText`.
- `ClientFoodCard.View`, `Render`, `RenderAsWritten`: `ClientFoodCard.RenderAgrees`, `ClientFoodCard.AsWrittenRatingDiffers`.
- `FoodMain.CreateCall`, `UpdateCall`, `DeleteCall`, `DialogCall`: `FoodMain.DialogRequests`, `FoodMain.Create`, `Update`, `Delete`.

## Left out

- Network I/O:
  - `fetch` and `request.json()` are the abstract `upstream` function and an optional body;
  - `NextResponse` is the `Response` datatype, with the Response constructor's status checks in `Route.JsonStatus`; other checks it makes are not modelled;
  - `console.error` and the `cache: "no-store"` option are not modelled.
- `crypto.randomUUID()` is a parameter. Freshness and uniqueness of the identifiers are not modelled.
- URL parsing (`new URL`) is the abstract `Host.parseUrl`. `EmptyFormFailsAll` requires that it rejects the empty string.
- `Number()` on strings and `Number::toString` are `Host` functions. Negative zero is not told apart from zero.
- `ToLower` covers the ASCII letters only. `toLowerCase` on other scripts is not modelled.
- Reading a property other than the ones the code reads (`length`, `prototype` properties) yields undefined in `Member`.
- `JsRuntime.ToStr` and `JsRuntime.ToNumber` turn every object into "[object Object]". In JavaScript, `String(v)` and `Number(v)` throw a TypeError for a parsed object with its own `toString` member, such as `{"toString": 1}`, because no callable conversion method is left; an array holding such an object throws in the same way. So for an upstream element whose `id`, or non-numeric `food_rating`, is such an object, `String(x.id)` or `Number(x.food_rating ?? 0)` throws (app/api/food/route.ts:9, 13) and GET answers 500. The model's `Route.NormalizeItem` instead normalises that element and GET answers 200. Conversion failures are not modelled, because they would make every normalisation partial beyond the nullish case.
- `JsString.EncodeUriComponent`: the URIError for a lone surrogate cannot arise, because Dafny strings hold scalar values.
- The `validate` check for `/^https?:/` is read as a prefix test on the protocol string; the `throw`/`catch` pair around it is modelled as the failing branch.
- React state and effects: `useState` and the re-merge in `useEffect` (components/food/FoodForm.tsx:35); the page's `open`/`selected` state; `showMenu` in the card; loading and empty-state rendering.
- The React Query cache, invalidation, debouncing and the `isPending` flags.
- In `components/food/FoodMain.tsx`, the list query (lines 22-32) is not modelled: its URL rule is that of `pages/Index.tsx:25` with `/api/food` in place of the mock API. The hero, search box and grid rendering are not modelled either.
- `FoodMain.ValidFormForwarded` requires the URL parser to reject strings that are blank after trimming. The parser is a parameter of the model, so this is stated rather than proved; without it, `FoodMain.ForwardedRequests` gives the blank-image case separately.
- `FoodMain.ForwardedRequests` takes the id the route reads with `searchParams.get("id")` to be the id FoodMain put into `?id=${id}` unencoded. That holds for ids without `&`, `#`, `%` or `+`; query-string decoding is not modelled.
- `IndexPage.RoundTrip` holds only for an upstream that lists exactly the JSON of the posted body plus an id (`IndexPage.Echo`). Another mock API behaviour, such as added fields or a changed rating, is not covered.
- Pagination and `totalCount`: no handler forwards paging parameters or returns a count.
- `type/food.ts` with the alternative upstream shape: the model uses the FoodItem of `components/food/FoodCard.tsx`.
- The presentational components: Header, Footer, Modal, DeleteModal, the layout and not-found pages.
- Spreading a `Partial<FoodFormValues>` whose field is explicitly `undefined` overwrites the empty form's value with `undefined`. The model reads a missing field as absent; the prefills always set every field.
- `FoodCard.AsFoodItem`: reading an item at the `FoodItem` type rejects values whose fields have other types, which the TypeScript cast lets through unchecked. The model states the card only for well-typed items.

## Findings

| source | as written | input that shows it | evidently intended | confidence | as-written member | corrected member |
|---|---|---|---|---|---|---|
| client/components/food/FoodCard.tsx:62 | the rating suffix is the three characters U+00E2 U+02DC U+2026 ("â˜…"), the UTF-8 bytes of ★ read back as Windows-1252 | any item, e.g. one with rating 4, renders "4â˜…" | the star U+2605, as components/food/FoodCard.tsx:109 shows ("4★") | high; not executed | `ClientFoodCard.AsWrittenRatingDiffers` | `ClientFoodCard.RenderAgrees` |
