# AdRoll analytics integration — Dafny model

This project models the AdRoll integration for analytics.js (`lib/index.js`).
The adapter forwards generic analytics calls into global "window" state that
it shares with AdRoll's script. The model covers:

- `initialize`, which publishes `adroll_adv_id`, `adroll_pix_id` and `__adroll_loaded`;
- `loaded`, which reports whether the vendor object `__adroll` exists;
- `identify`, which announces a truthy email in `adroll_email`;
- `page`, which tracks a page view as a track call;
- `track`, which builds a payload and calls `__adroll.record_user` once per segment id.

Layout:

- `payload.dfy` (module `Payload`) is the payload that `track` builds. It folds
  the properties under snake-cased keys, then adds `user_id`.
- `segments.dfy` (module `Segments`) resolves segments. Under `_version === 1`
  it applies the fallback and snake-cases every id. It also defines the
  dispatch: one payload snapshot per segment.
- `adroll.dfy` (module `Adapter`) holds the `Window` class and the `AdRoll` class.
  `Window` stores the globals, whether the vendor object exists, and a log of
  `record_user` calls. `AdRoll` has one method per operation. `track`'s fold
  and its `each` loop are methods with loops. `TrackCalls` is the function
  that specifies them.

Code the adapter calls but that is not part of this repository becomes an input:

- snake-casing (`to-snake-case`) is the `snake` function the `AdRoll` instance is built with;
- the `events` mapping lookup (`this.events(event)`) is `Options.events`;
- the facade's renaming `track.properties({revenue: …, total: …, orderId: …, id: …})`
  is the input `TrackCall.properties`. It lists the renamed properties in key order;
- the utility libraries `foldl`, `each` and `map`. The call `foldl(fn, obj)` at
  lib/index.js:98-106 passes no initial accumulator. The model takes it to fold
  `obj`'s own keys, in order, into a new empty object. `each` visits the segment
  ids in order, and `map` applies snake-casing to each of them;
- the current user id (`this.analytics.user().id()`) is the `userId` argument;
- the identify facade's `email()` is the `email` argument;
- `page.track(page.fullName())` is the `pageTrack` argument of `Page`.

The source passes ONE shared payload object to every `record_user` call and
sets its `adroll_segments` field again between calls (lib/index.js:121-124).
The log in `Window.recordUserLog` keeps a snapshot of that object at each
call. If the vendor script holds on to the object, only the last segment id
stays visible through it; the model does not capture that aliasing.

If a track call resolves at least one segment while `window.__adroll` is
missing, the first `record_user` call throws a `TypeError`. The model reports
this as `ok == false` and leaves the log unchanged.

## Model

| member | source | states |
|---|---|---|
| Payload.Folded | lib/index.js:98-106 | The fold's keys are exactly the snake-cased property keys. |
| Payload.FoldedLastWins | lib/index.js:98-100 | Each snake-cased key holds the value of the last property whose key snake-cases to it. |
| Payload.BasePayload | lib/index.js:94-108 | `user_id` is the current user id when that id is truthy. Otherwise the payload is exactly the fold, so `user_id` is present only if some property key snake-cases to it. All other fields are always the fold's. |
| Segments.Resolve | lib/index.js:114-119 | Under version 1, an unmapped event resolves to `[snake(event)]` and mapped ids are snake-cased one by one. Under any other version, the mapped ids are used verbatim, so an unmapped event resolves to none. |
| Segments.Dispatch | lib/index.js:121-124 | There is one call per segment. The i-th call's `adroll_segments` is the i-th segment. Every call has the base payload's other fields. |
| Adapter.TrackCalls | lib/index.js:91-125 | The number of calls and each call's `adroll_segments` follow the mapping and the version. Version 1 always makes at least one call. An unmapped event under another version makes zero calls. All calls of one track share every other field. |
| Adapter.AdRoll.Initialize | lib/index.js:41-44 | `adroll_adv_id` and `adroll_pix_id` equal the `advId` and `pixId` options. `__adroll_loaded` is true. No other window state changes. |
| Adapter.AdRoll.Loaded | lib/index.js:56-58 | Returns true exactly when the vendor object exists. Reads state only. |
| Adapter.AdRoll.Identify | lib/index.js:80-82 | Sets `adroll_email` to the email when it is truthy. Otherwise `adroll_email` is unchanged. Nothing else changes. |
| Adapter.AdRoll.BuildPayload | lib/index.js:98-106 | The left-to-right fold over the properties returns `Folded` of them. |
| Adapter.AdRoll.RecordEach | lib/index.js:121-124 | Appends `Dispatch` of the payload and segments to the log. With segments to send and no vendor object, it fails and records nothing. |
| Adapter.AdRoll.Track | lib/index.js:91-125 | Appends exactly `TrackCalls` to the `record_user` log. It fails only when `Loaded` is false and there is a segment to send. It never changes the adv-id, pix-id, loaded or email globals. |
| Adapter.AdRoll.Page | lib/index.js:69-71 | Has exactly the effect of `Track` on the track call that the facade derives from the page. |

## Left out

- Script loading: `useHttps`, `this.load` and the two script-tag templates (lib/index.js:28-29, 45-46). This is I/O with asynchronous readiness. The vendor object's appearance is modelled only as the `vendorPresent` flag. `Window.VendorScriptLoaded` sets that flag on the vendor script's behalf.
- `foldl(fn, obj)` is called without an initial accumulator. This model reads it as folding into a new empty object. If the library instead used `obj` itself as the accumulator, keys would not be snake-cased, and the model does not cover that reading.
- The integration declarations (lib/index.js:17-30). These include the option defaults (`advId` and `pixId` empty, `_version` 2) and the `adroll_custom_data` global, which the adapter never writes. They are configuration, not logic.
- The internals of `to-snake-case`, of the facade's property renaming and of the `events` mapping lookup. These libraries are not part of this model; they enter as inputs. As a result, the model does not say whether `revenue` or `total` wins when both are present, nor whether `id` also yields `order_id`.
- The page facade's naming of page events (for example "Viewed Category Name Page" and "Loaded a Page"). Only the track call it produces is an input.
- Value kinds: payload values are opaque strings or numbers that the model copies without reading. Booleans, nested objects and floating-point behaviour are not modelled. The user id and email are optional strings, and their truthiness is "present and non-empty".
- `_version` is an integer and `_version === 1` is integer equality. A non-number `_version` is not modelled.
- `__adroll_loaded` is a boolean: `false` stands for "never set".
- The key order of the payload object handed to the vendor. Payloads are maps. The order of the incoming properties is kept, because it decides which value the fold keeps for a key.
- Test expectations that the code does not meet: a `USD` currency field, a call to `record_adroll_email`, and the key `adroll_conversion_value` (the code emits `adroll_conversion_value_in_dollars`). The model follows `lib/index.js`.
