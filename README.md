# Dub managed component: identity resolution and event normalisation in Dafny

This project models the decision logic of a web-analytics adapter. The adapter
listens for five event types from a host runtime. It reads a click id from the
`dub_id` referral cookie. It resolves a visitor identity through its own
`mc_dub` session cookie. Then it turns each event into a *lead* or a *sale*
record for the Dub tracking API.

The model has five modules:

- `Js` (`js.dfy`): optional values and JavaScript truthiness. A string is truthy
  iff it is present and not `''`. A number is truthy iff it is present and not
  `0`. It also defines `a || b`.
- `Cookie` (`cookie.dfy`): `getCookie`, the `(^| )name=([^;]+)` lookup in a raw
  `Cookie` header.
  - It is modelled as a regular-expression engine does it: start positions are
    tried left to right, `^` before ` ` at each one, and the greedy `[^;]+`
    runs to the next `;`.
  - It is proved equal to a declarative specification: the leftmost occurrence
    at index 0 or after a space whose value is non-empty.
- `Identity` (`identity.dfy`): the `mc_dub` record (a string map) and the
  codec. The `generateId` template is filled from random nibbles.
  - `Resolve` is the decision `handleCookieData` takes in each of the four
    cookie states: missing, undecodable, no session id, valid.
  - It also holds the `getCustomerId` precedence chain, and the lemmas about
    these: idempotence, and that the `'anonymous'` placeholder is never
    reached.
- `Events` (`events.dfy`): the payload, the lead and sale records, their
  builders, and the routing of the default export.
- `Component` (`component.dfy`): class `Client`.
  - The class owns the cookie store that `client.get` reads and `client.set`
    updates, plus a log of writes.
  - `HandleCookieData` runs `handleCookieData` step by step on the class and is
    proved to do what `Resolve` decides.
  - The handlers return the record that would be sent.

## Model

| member | source | states |
|---|---|---|
| `Cookie.GetCookie` | src/utils.ts:11-17 | A found value is non-empty and contains no `;` |
| `Cookie.MatchFrom` | src/utils.ts:15 | The match attempts from a start position onward give a non-empty, `;`-free value or nothing |
| `Cookie.ValueEnd` | src/utils.ts:15 | The greedy `[^;]+` stops at the first `;` at or after its start, or at the end of the header |
| `Cookie.NameValueAtSpec` | src/utils.ts:15 | `name=([^;]+)` matches at an index iff `name=` is there and is followed by a character other than `;`; the capture is the whole value up to `;` or end |
| `Cookie.MatchFromSpec` | src/utils.ts:15-16 | From start position `p` the engine returns the value of the leftmost qualifying occurrence beyond `p`, and nothing iff there is none |
| `Cookie.GetCookieLeftmost` | src/utils.ts:15-16 | `getCookie` returns the value of the leftmost occurrence at index 0 or after a space with a non-empty value. It returns nothing iff no occurrence qualifies |
| `Cookie.GetCookieFinds` | src/utils.ts:15-16 | Conversely, the leftmost qualifying occurrence's value is what is returned; later occurrences never win |
| `Cookie.ExampleTestHeader` | src/index.test.ts:36 | `'dub_id=click123; other=value'` yields `'click123'` |
| `Cookie.ExampleEmptyHeader` | src/index.ts:76-77 | The empty header substituted for a missing one yields nothing |
| `Cookie.ExampleNoBoundary` | src/utils.ts:15 | `;dub_id=x` and `xdub_id=x` yield nothing: the name must be at the start or after a space |
| `Cookie.ExampleEmptyValueSkipped` | src/utils.ts:15 | An empty value (`dub_id=;`) is not a match; a later occurrence after a space is returned, with `=` and spaces kept |
| `Identity.VariantNibble` | src/index.ts:29 | `(r & 0x3) \| 0x8` lies in 8..11 and keeps the low two bits of `r` |
| `Identity.FillTemplate` | src/index.ts:27-31 | Each `x` becomes a lower-case hex digit and each `y` one of `8 9 a b`. Every other character is kept and the length is unchanged |
| `Identity.TemplateSlots` | src/index.ts:27 | The template has 31 placeholders, so 31 random draws are made |
| `Identity.GenerateId` | src/index.ts:18-32 | The session id is a 36-character v4 UUID: hyphens at 8, 13, 18, 23, version digit `4`, variant digit in `8`..`b`, hex elsewhere. Hence it is never empty |
| `Identity.Classify` | src/index.ts:47-55 | Each of the four states holds exactly under its condition: missing iff the cookie is falsy; undecodable iff it is present and decoding fails; valid iff it decodes to a record with a truthy `sessionId`; no-session iff it decodes to one without. A decoded state carries the decoded record |
| `Identity.FreshRecord` | src/index.ts:37-40 | The fresh record has the new session id, the supplied customer id and no other field |
| `Identity.Resolve` | src/index.ts:14-72 | What is written is what is returned. The record always has a truthy `sessionId`. A truthy supplied customer id always leaves a truthy `customerId` |
| `Identity.ResolveFresh` | src/index.ts:34-55 | A missing, undecodable or session-less cookie gives one fresh record, written once, with the new session id, the supplied customer id and no other field |
| `Identity.ResolveAttach` | src/index.ts:56-66 | A valid cookie without a truthy `customerId` gains the supplied one. `sessionId` and every other field are kept, and the record is written once |
| `Identity.ResolveUntouched` | src/index.ts:54-66 | A valid cookie with no supplied id, or with a stored `customerId`, is not written; the decoded record is returned |
| `Identity.ResolveIdempotent` | src/index.ts:47-69 | After any resolution, a second one with the same customer id writes nothing and returns the same record |
| `Identity.CustomerIdChain` | src/index.ts:85-91 | The `\|\|` chain never yields `''`: its result is `'anonymous'` or the value of one of the four candidates |
| `Identity.CustomerIdPrecedence` | src/index.ts:85-91 | The customer id is the first truthy of payload `customerId`, `customerExternalId`, cookie `customerId`, cookie `sessionId`; `'anonymous'` only when all four are falsy; never empty |
| `Identity.ResolvedCustomerIdIsCandidate` | src/index.ts:80-92 | Once the cookie is resolved, the customer id is always one of the four truthy candidates, never the placeholder |
| `Identity.FirstContactUsesSessionId` | src/index.ts:83-91 | With no cookie and no supplied id, the customer id is the freshly generated session id, which is written to the cookie |
| `Events.BuildLead` | src/index.ts:103-123 | `clickId` is the click id or `''`. `eventName` is payload name, else event name, else `'Lead'`, never empty. Name, email, avatar and quantity are present iff truthy and unchanged; metadata is copied |
| `Events.BuildSale` | src/index.ts:137-168 | `amount` is `amount \|\| revenue \|\| 0`, non-zero iff either is truthy. `invoiceId` is present iff `invoiceId` or `transactionId` is truthy, `invoiceId` winning. `eventName` is present iff the payload or event name is truthy, the payload winning. Every other optional field, `clickId` included, is present iff truthy and unchanged |
| `Events.SaleEventNameNeverDefault` | src/index.ts:157-158 | The `'Sale'` fallback is never used: a present `eventName` is one of its two sources |
| `Events.RecordsHaveNoEmptyFields` | src/index.ts:118-123 | No optional string or number field of either record is present as `''` or `0` |
| `Events.Route` | src/index.ts:173-250 | A sale is tracked iff the type is `ecommerce`, or `event`/`track` with a truthy `amount \|\| revenue`. A lead is tracked iff the type is `pageview`, or `event`/`track` without one. A customer id is stored iff the type is `identify`, and it is `customerId \|\| customerExternalId`. A tracked event keeps its name and every payload field but `eventName`; it is passed on unchanged except for `pageview`, whose `eventName` becomes `'Pageview'` |
| `Events.PageviewIsLeadNamedPageview` | src/index.ts:180-190 | A pageview is sent as a lead whose `eventName` is `'Pageview'` |
| `Events.SaleIffNonZeroAmount` | src/index.ts:197-224 | For `event` and `track`, a sale is sent exactly when the sale record would carry a non-zero amount, a lead otherwise |
| `Events.LeadExamples` | src/index.test.ts:57-112 | The lead test cases: full record with no metadata, event-name fallback, empty click id and `'Lead'` default |
| `Events.SaleExamples` | src/index.test.ts:143-237 | The sale test cases: all fields, revenue fallback for amount, transactionId fallback for invoiceId |
| `Component.Client.SetFreshCookie` | src/index.ts:34-45 | Stores the encoded fresh record under `mc_dub` with scope `infinite` (one write) and returns it with a truthy session id |
| `Component.Client.HandleCookieData` | src/index.ts:14-72 | Run step by step, the returned record, the new store and the appended writes are exactly those `Resolve` decides, so there is at most one write |
| `Component.Client.GetClickId` | src/index.ts:74-78 | A missing or empty `cookie` header gives no click id; a click id is non-empty and `;`-free |
| `Component.Client.GetCustomerId` | src/index.ts:80-92 | Resolves the cookie with `customerId \|\| customerExternalId` and returns the precedence chain over the resolved record; never empty |
| `Component.Client.TrackLeadEvent` | src/index.ts:95-126 | Returns `BuildLead` of the click id read first and the resolved customer id; the cookie changes as `Resolve` decides |
| `Component.Client.TrackSaleEvent` | src/index.ts:129-171 | Returns `BuildSale` of the click id read first and the resolved customer id; the cookie changes as `Resolve` decides |
| `Component.Client.Dispatch` | src/index.ts:179-249 | Each event type does what `Route` chooses. `identify` makes no tracking call and leaves the cookie untouched unless `customerId \|\| customerExternalId` is truthy |
| `Component.HandleCookieDataTwice` | src/index.ts:47-69 | Two resolutions in a row on one client return the same record, and the second writes nothing |

The sale record omits `eventName` when both the payload and event names are
falsy, unlike the lead record, which falls back to `'Lead'`. The code's
`|| 'Sale'` fallback suggests a default was meant, but the model follows the
code as written: `SaleEventNameNeverDefault` shows that the `'Sale'` literal
is dead code.

## Left out

- The Dub SDK (`new Dub`, `dub.track.lead` / `dub.track.sale`) is an opaque
  network client. Each handler returns the record it would send.
- `async`/`await` and each handler's `try`/`catch` with `console` logging are
  left out. So is registration through `manager.addEventListener`. Nothing in
  the modelled logic throws: the only exception, a failed cookie decode, is
  modelled as `None`.
- `JSON.stringify`/`JSON.parse` and `encodeURIComponent`/`decodeURIComponent`
  are a `Codec` pair of functions supplied by the caller. The property the
  component relies on is stated as `Codec.Lawful()`: encoded text is non-empty
  and decodes back. That property is a hypothesis of the idempotence lemmas,
  not something proved.
- Decoded cookie fields are strings. A JSON value that is not an object reads
  as the empty object. Non-string field values (a numeric `sessionId`, say)
  are not modelled.
- `crypto.randomUUID` and `Math.random`: the randomness is a parameter of 31
  nibbles in 0..15. `crypto.randomUUID` is taken to give the same v4 format as
  the fallback template.
- `getCookie` with a name containing regular-expression metacharacters is out
  of scope (`Cookie.LiteralName`): the name is interpolated unescaped, and the
  only name passed is `dub_id`.
- Payload numbers are integers: fractional amounts and `NaN` (which is falsy)
  are not modelled. `metadata` is an opaque map that is only passed through.
- `client.set` is modelled as updating what `client.get` returns for the same
  key. The host's cookie scope option is recorded as the string `infinite`.
- Two events racing on one client's cookie are not modelled: the model is
  sequential.
- `isValidHttpUrl` is unused by the modelled logic and depends on the `URL`
  constructor. `bundle.ts` is packaging.
