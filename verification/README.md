# CarsNPoke image-generation page — a Dafny model

CarsNPoke is a web page. A user picks a photo, chooses a Pokémon from a list
loaded from PokeAPI, and asks a local service to generate an image.
All of the page's logic sits in the `HomePage` React component. This project
models that component as a pure state machine. Each browser or network event
maps the page state to a new state and emits at most one effect. An effect is
an `alert` notice, the POST of the form, or a console log.

- `Wrappers`: `Option`, standing for JavaScript's empty slots.
- `Names`: capitalisation of catalog names (ASCII `a`–`z` upper-casing).
- `Media`: the picked `File`, the MIME allow-list, the type list the picker
  offers, and the PNG data URL that shows a result.
- `HomePage`: the six pieces of state (`image`, `preview`, `pokemon`,
  `resultImage`, `loading`, `pokemonList`), the events and one handler per
  event. `Step` dispatches an event to its handler and wires the button's
  `disabled={loading}`.
- `Traces`: runs of events against a network that answers only the requests
  it was sent. The world counts the requests in flight. These lemmas show that
  at most one request is ever in flight, and that `loading` says whether one is.

The request is split into two events. `ClickGenerate` runs the guard, raises
`loading` and emits `Post(FormData(file, pokemon))`. The later
`RequestSettled(outcome)` stands for what happens after the `await`. A success
carries the response's `image` field. A failure carries the response's `error`
field and the transport message. `URL.createObjectURL` is modelled as an opaque
`PreviewHandle` that comes with the pick event.

What the page does not do:
- There is no sign-in gate on picks or submits.
- There is no upload to object storage. The form is posted directly as
  multipart `{file, pokemon}`.
- A new pick does not clear an earlier result.
- Preview handles are never revoked.

JavaScript details are modelled as written:
- A response without `image` gives the URL `data:image/png;base64,undefined`.
  A response whose `image` is `null` gives `…,null`.
- An empty-string `error` field falls back to the transport message, because
  that is how `||` behaves.
- A field that is neither a string nor absent nor `null` (a number, boolean,
  object or array) shows as the text it converts to, and counts by its own
  truthiness: `error: {}` alerts `[object Object]`; `error: 0` falls back to
  the transport message.
- A submit with an empty selection is rejected, because `''` is falsy.

## Model

| member | source | states |
|---|---|---|
| Names.UpperAscii | src/app/page.js:19 | a–z go to A–Z, 32 code points lower; every other character is kept; the result is never an ASCII lower-case letter |
| Names.Capitalize | src/app/page.js:19 | same length as the name; the first character is upper-cased; every later character is identical; the empty name stays empty |
| Names.CapitalizeAll | src/app/page.js:18-19 | the list keeps its length, and entry i is the capitalised form of raw name i (order preserved) |
| Names.CapitalizeFixedIff | src/app/page.js:19 | capitalising leaves a name unchanged if and only if it is empty or does not start with a–z |
| Names.CapitalizeIdempotent | src/app/page.js:19 | capitalising an already capitalised name changes nothing |
| Names.CapitalizeAllIdempotent | src/app/page.js:18-19 | capitalising an already capitalised list changes nothing |
| Names.CapitalizeAllAppend | src/app/page.js:18-19 | capitalising a concatenated list is the concatenation of the capitalised parts |
| Media.AllowedTypesExactly | src/app/page.js:31-33 | a MIME type passes the handler if and only if it is exactly `image/png` or `image/jpeg` |
| Media.PickerOffersRejectedType | src/app/page.js:72 | the picker offers `image/jpg`, which the allow-list on line 31 rejects; every other type offered is accepted; `image/gif` is rejected |
| Media.DataUrl | src/app/page.js:56-57 | the URL is the prefix `data:image/png;base64,` followed by exactly the payload |
| Media.PayloadOf | src/app/page.js:57 | the inverse of `DataUrl`: it yields a payload exactly when the prefix is present, and rebuilding that payload's URL gives back the input |
| Media.DataUrlRoundTrip | src/app/page.js:57 | reading the payload back out of a built data URL returns it unchanged |
| Media.DataUrlInjective | src/app/page.js:57 | two data URLs are equal if and only if their payloads are equal |
| HomePage.TemplateText | src/app/page.js:56-57 | a string field is interpolated as itself; an absent field becomes `undefined`; a null field becomes `null`; any other value becomes the text it converts to |
| HomePage.HandleImageChange | src/app/page.js:29-39 | an accepted pick (file present, allowed type) sets `image` and `preview` and emits nothing; any other pick keeps the whole state and raises the type notice; `pokemon`, `resultImage`, `loading` and the list never change |
| HomePage.HandleSelect | src/app/page.js:85-87 | only `pokemon` changes, to the selected value, and nothing is emitted |
| HomePage.HandleSubmit | src/app/page.js:41-53 | with no image or an empty selection, the whole state including `loading` is unchanged and a notice is raised with no request; otherwise `loading` is raised and the held file and name are posted; nothing but `loading` changes |
| HomePage.HandleSettled | src/app/page.js:51-63 | `loading` is false after either outcome; on success `resultImage` is the data URL of the returned payload; on failure `resultImage` is unchanged and the notice carries the server's `error` when truthy, else the transport message; image, preview, selection and list are untouched |
| HomePage.HandleCatalog | src/app/page.js:14-27 | a fetched list becomes the capitalised names, same length and order; a failed fetch only logs and leaves the state as is; nothing but the list changes |
| HomePage.Step | src/app/page.js:29-100 | a request is posted only by a click while not loading, and then loading is raised; a click while loading does nothing; only submit and settlement move `loading`; only a successful response changes `resultImage`; only an accepted pick changes image or preview; only a select changes `pokemon`; only a fetched catalog changes the list |
| HomePage.RejectedPickChangesNothing | src/app/page.js:29-38 | a pick with no file, or with any type other than `image/png` and `image/jpeg` (`image/jpg` and `image/gif` included), leaves the state unchanged and raises the notice |
| HomePage.LoadingBracketsRequest | src/app/page.js:51-63 | a guarded click raises `loading` and posts the form; after either outcome, `loading` is back to its earlier value and only `resultImage` may differ |
| HomePage.PikachuScenario | src/app/page.js:14-63 | loading `bulbasaur`, `pikachu`, picking a PNG, selecting `Pikachu` and clicking posts that file with `Pikachu`; a successful response shows `data:image/png;base64,` + payload with loading lowered |
| Traces.Next | src/app/page.js:51-63 | a posting event adds one request in flight; a delivered response removes one; a response with nothing in flight is not delivered; the page moves as `Step` says |
| Traces.NextKeepsSingleFlight | src/app/page.js:98-100 | every event keeps "loading is raised exactly while one request is in flight" |
| Traces.RunKeepsSingleFlight | src/app/page.js:51-100 | over any sequence of events the invariant holds and at most one request is in flight |
| Traces.SingleFlightFromStart | src/app/page.js:7-12 | from the initial state, every run has at most one request in flight, and `loading` tells whether one is |
| Traces.ResultSurvivesUntilResponse | src/app/page.js:33-35 | across any events other than responses (file picks included), a shown result stays exactly as it was |
| Traces.LoadingNeedsClick | src/app/page.js:51 | with no click among the events, `loading` stays false and no request is in flight |
| Traces.ListEmptyWithoutFetch | src/app/page.js:12-23 | starting from the initial empty list, with no successful catalog fetch among the events, the list stays empty: a failed fetch leaves it at its initial value |

Four predicates and one helper have no contract of their own, so they have no row. Each is pinned down by the contracts of the members above:
- `Media.IsAllowedType` and `Media.Accepts` are the allow-list test `file && allowedTypes.includes(file.type)` at src/app/page.js:31-33. `Media.AllowedTypesExactly` and `HomePage.HandleImageChange` state what they mean.
- `HomePage.ReadyToSubmit` is the submit guard `!image || !pokemon` at src/app/page.js:42, negated. `HomePage.HandleSubmit` states what it means.
- `HomePage.Truthy` and `HomePage.ErrorDetail` are the `err.response?.data?.error || err.message` fallback at src/app/page.js:60. `HomePage.HandleSettled` states what they mean.

## Left out

- The axios GET and POST calls, the endpoint URLs and the `FormData` object are network I/O. A request is an emitted `Post` effect; its outcome is an event.
- `URL.createObjectURL` is a browser API. The preview handle is an opaque value that comes with the pick event.
- `alert` is a browser API, and so is `console.error`. They are the emitted effects `Alert` and `LogFailure`; the logged error object is not modelled.
- JSX rendering and styling are view only. Four parts of the view are kept. The file input's `accept` list is `Media.PickerAccept`. The input's `onChange` is the `PickFile` event. The select's `onChange` is the `SelectPokemon` event. The button's `onClick` with `disabled={loading}` is the `ClickGenerate` event. `Step` dispatches all three events.
- Names.UpperAscii: upper-cases only ASCII `a`–`z`. The Unicode `toUpperCase` also maps other letters, and can lengthen a string (`ß` becomes `SS`); that is not modelled.
- HomePage.HandleCatalog: takes the already-extracted `name` of each result. A malformed response that makes `.map` throw lands in the same catch block, which matches `FetchFailed`.
- HomePage.HandleSettled: a success response with no `data` object throws inside the `try` and lands in the catch with a `TypeError` message. That case is not singled out; it is the `Failed` outcome with that message.
- React's batching and stale closures are not modelled. The model assumes each event sees the state left by the previous one, as React guarantees for discrete user events.
- The mount effect runs once. The model does not force a single `CatalogLoaded` event; any number of them is allowed.
- src/app/Components/Header.js is not part of this model. It mirrors an external auth library's session (getSession, onAuthStateChange, unsubscribe, Google OAuth sign-in/out) and has no logic of its own.
- The page has no sign-in gate and no storage upload. It does not clear a result on a new pick and never revokes preview handles. None of these are modelled, because none of them happen.
