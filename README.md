# EMP-K-RIND helpers in Dafny

EMP-K-RIND is a single-page React site (`App.tsx`): a branded landing page
with a voice assistant, a web-search panel and an admin settings panel. Most
of it is UI composition and calls into a hosted AI SDK. This project models
the small sequential helpers that sit underneath, and proves what they do:

- **Audio utilities** (`Base64.dfy`, `AudioCodec.dfy`).
  - `encode`/`decode` move raw PCM bytes through a "binary string" (one character per byte) and `btoa`/`atob`.
  - `decodeAudioData` de-interleaves signed 16-bit little-endian PCM into the channels of an `AudioBuffer`.
  - `btoa` is defined by the base64 alphabet of RFC 4648, section 4. `atob` is defined by the forgiving-base64 decode of the WHATWG Infra Standard. The round trip `atob(btoa(s)) == s` is proved, not assumed.
- **Particle background** (`Particles.dfy`). `resize` and `initParticles` of the voice-session canvas: how many particles a canvas of a given size gets, and the ranges of their random initial state.
- **Settings** (`Settings.dfy`, `UriComponent.dfy`).
  - `getUrlParam`, which reads a query parameter and applies `decodeURIComponent` (Decode of ECMA-262, section 19.2.6, with UTF-8 checked per RFC 3629).
  - The `useState` initialisers, with precedence URL parameter > local storage > default.
  - The effects that persist every setting to local storage.
- **Admin gate** (`Admin.dfy`). `handleAuth`, as a transition on (authenticated, pin, error), and the event sequences of the PIN screen.
- **Share link** (`ShareLink.dfy`). `generateShareLink`, which refuses to share `data:` URLs and otherwise builds the query `brand`, `theme`, `profile`, `bg`. The module also relates the link to the settings it restores when it is opened.
- **Search sources** (`SearchSources.dfy`). The de-duplication of grounding chunks through a JavaScript `Map` keyed by URI: insertion order, last-writer-wins values (`Map.prototype.set`, ECMA-262, section 24.1.3.9).

The particle count is `Math.min(100, width * height / 15000)` without any
rounding, and the loop `for (i = 0; i < count; i++)` runs `ceil(count)` times
when `count` is fractional. So a 1000 x 1000 canvas gets 67 particles, not the
66 that `floor(width * height / 15000)` would give
(`Particles.ThousandSquareCanvas`).

Browser facilities whose behaviour matters are given concrete definitions:
`btoa`, `atob`, `decodeURIComponent`, `URLSearchParams.get`/`set` and `Map`. `URLSearchParams.get` and `Map.prototype.get` share the first-match lookup of `Pairs.dfy`.
Randomness (`Math.random`) becomes a parameter `draws: nat -> real` with every
draw in [0, 1). Local storage becomes a `map<string, string>`.

## Model

| member | source | states |
|---|---|---|
| Base64.BinaryString | App.tsx:20-24 | the string built by `encode`'s loop has one character per byte, and character `i` has code `bytes[i]` |
| Base64.ByteCodes | App.tsx:30-34 | `decode`'s loop reads one byte per character, with that character's code |
| Base64.BinaryStringRoundTrip | App.tsx:19-36 | bytes → binary string → bytes is the identity, and so is the reverse trip for every binary string |
| Base64.SextetsRoundTrip | App.tsx:25-29 | splitting any byte sequence into base64 digits and reassembling them gives the bytes back; the digit count is never 1 mod 4 |
| Base64.EncodeBytes | App.tsx:25 | base64 output is padded to a multiple of four characters: `4 * ceil(n / 3)` for `n` bytes |
| Base64.Btoa | App.tsx:25 | `btoa` succeeds exactly on binary strings (it throws InvalidCharacterError otherwise), with output length `4 * ceil(n / 3)` |
| Base64.Atob | App.tsx:29 | whatever `atob` returns is a binary string |
| Base64.AtobInvertsBtoa | App.tsx:25-29 | `atob(btoa(s)) == s` for every binary string `s` |
| AudioCodec.Encode | App.tsx:19-26 | the method's result is `btoa` of the string whose character `i` has code `bytes[i]`, and `btoa` does not throw on it |
| AudioCodec.ToUint8 | App.tsx:33 | a store into a Uint8Array keeps a value in 0..255 unchanged |
| AudioCodec.Decode | App.tsx:28-36 | `decode` fails exactly when `atob` does; otherwise the array holds the character codes of `atob`'s result |
| AudioCodec.CharCodes | App.tsx:30-34 | `decode`'s loop fills a fresh array of the string's length with the character codes, in order |
| AudioCodec.DecodeInvertsEncode | App.tsx:19-36 | for every byte sequence, `btoa` and `atob` succeed on the way through, and the character codes at the end are the original bytes |
| AudioCodec.EncodeThenDecode | App.tsx:19-36 | the `encode` and `decode` methods composed return an array equal to the input |
| AudioCodec.Int16At | App.tsx:44 | the sample at index `k` is the signed 16-bit little-endian value of bytes `2k`, `2k+1`: in [-32768, 32768) and congruent to their unsigned value mod 65536 |
| AudioCodec.SampleValue | App.tsx:51 | `s / 32768` lies in [-1, 1), equals -1 exactly for `s == -32768`, and is negative exactly when `s` is |
| AudioCodec.SlotOfSample | App.tsx:48-53 | every interleaved sample `k < frames * numChannels` has a slot: channel `k % numChannels`, frame `k / numChannels`, which reads it back |
| AudioCodec.SlotsAreDistinct | App.tsx:48-53 | every (channel, frame) slot reads an in-bounds sample, and two slots read the same sample only if they are the same slot |
| AudioCodec.LoopGuard | App.tsx:45-50 | the test `i < samples / numChannels` on the fractional quotient holds for every whole frame, plus one more index exactly when the division leaves a remainder |
| AudioCodec.AudioDecodeError | App.tsx:44-46 | an odd byte length throws RangeError (Int16Array). For an even length there is no error exactly when there are 1..32 channels and at least one whole frame, and every other case throws NotSupportedError (`createBuffer`) |
| AudioCodec.AudioBuffer.constructor | App.tsx:46 | `createBuffer` gives a fresh, zero-filled `numberOfChannels x length` buffer at the given sample rate |
| AudioCodec.DecodeAudioData | App.tsx:38-55 | fails exactly on the errors above. On success it has `numChannels` channels of `samples / numChannels` frames (rounded down), and channel `c`, frame `i` holds sample `i * numChannels + c` divided by 32768 |
| AudioCodec.FillChannel | App.tsx:49-52 | the inner loop writes every frame of its channel with the decoded sample; the store one past the end is ignored, and the other channels are unchanged |
| Particles.CountBound | App.tsx:91 | `Math.min(100, width * height / 15000)` lies in [0, 100] |
| Particles.LoopTestIsBelowCount | App.tsx:91-92 | the loop test `i < count` holds exactly for `i < min(100, ceil(width * height / 15000))` |
| Particles.ParticleCountBounds | App.tsx:91-92 | at most 100 particles; none exactly when width or height is 0; exactly 100 when the area is at least 1,500,000 |
| Particles.ThousandSquareCanvas | App.tsx:91-92 | a 1000 x 1000 canvas gets 67 particles |
| Particles.Spawn | App.tsx:93-99 | a new particle lies inside the canvas, moves at each velocity component in [-1, 1), and has a radius in [1, 3) |
| Particles.Scale | App.tsx:94-95 | `Math.random() * extent` lies in [0, extent), or is 0 when `extent` is 0 |
| Particles.ParticleField.InitParticles | App.tsx:89-101 | `initParticles` replaces the list with exactly ParticleCount(width, height) particles, the `i`-th built from draws `5i`..`5i+4` |
| Particles.ParticleField.Resize | App.tsx:83-87 | `resize` adopts the viewport size and regenerates the list, so there are never more than 100 particles |
| Particles.ParticleField.constructor | App.tsx:83-87 | activation runs the first `resize` |
| UriComponent.Decode | App.tsx:176 | `decodeURIComponent` never lengthens its input |
| UriComponent.DecodeWithoutEscapes | App.tsx:176 | a string without `%` decodes to itself |
| UriComponent.TrailingPercentThrows | App.tsx:176 | a `%` followed by fewer than two characters throws a URIError |
| UriComponent.EscapedSpaceDecodes | App.tsx:176 | `%20` followed by text without `%` decodes to a space followed by that text |
| UriComponent.EscapedSpaceInWordDecodes | App.tsx:176 | a character other than `%`, then `%20`, then text without `%`, decodes with the escape replaced by a space |
| Settings.QueryGet | App.tsx:174-175 | `params.get` is null exactly when no pair has the name, and otherwise returns the value of the first pair with that name |
| Settings.GetItem | App.tsx:183-203 | `localStorage.getItem` is null exactly for a missing key, and otherwise returns the stored string |
| Settings.GetUrlParamAsWritten | App.tsx:173-178 | as written: null for a missing or empty parameter; otherwise `decodeURIComponent` of the already-decoded value, failing exactly when that throws |
| Settings.GetUrlParam | App.tsx:173-178 | corrected: null exactly for a missing or empty parameter; otherwise the non-empty value of the first pair with that name, as `get` returns it |
| Settings.GetUrlParamAgreesWithoutEscapes | App.tsx:173-178 | on a value without `%`, the as-written `getUrlParam` returns exactly what the corrected one does |
| Settings.OrChainIsFirstNonEmpty | App.tsx:182-200 | the JavaScript or-chain of two strings-or-null and a default is the first present, non-empty candidate, else the default |
| Settings.InitialSettingsPrecedence | App.tsx:180-204 | each shareable setting is the first non-empty of (URL parameter, stored value, default); the API key is the stored value or ""; `isVideoProfile` is true exactly when the stored string is `"true"` |
| Settings.EmptyStoredValueFallsThrough | App.tsx:186-188 | an empty stored brand name with no URL parameter yields "NEURA NEST" |
| Settings.Persist | App.tsx:207-212 | persistence writes each setting under its `empire_*` key, the video flag as `"true"` or `"false"`, and leaves every other stored key unchanged |
| Settings.ReloadRestoresSettings | App.tsx:180-212 | reloading without a query restores every persisted setting, provided theme, brand and profile are non-empty |
| Admin.HandleAuth | App.tsx:265-273 | PIN "106" unlocks, clears the error and keeps the PIN. Any other PIN shows "ACCESS DENIED: INVALID PROTOCOL CODE", clears the PIN and leaves the flag unchanged |
| Admin.HandleAuthIdempotent | App.tsx:265-273 | submitting twice in a row has the effect of submitting once |
| Admin.AuthenticatedIsSticky | App.tsx:265-273 | no sequence of typing and submitting locks an unlocked panel |
| Admin.UnlockedIffAdminPinSubmitted | App.tsx:265-273 | after any sequence of events, the panel is unlocked exactly when it was already unlocked, or some submission happened while the field held "106" |
| Admin.ErrorIsEmptyOrDenial | App.tsx:265-273 | the error line only ever holds "" or the denial message |
| Admin.ResubmitAfterDenialIsDenied | App.tsx:265-273 | after a denial the field is empty, so a second submission is denied too |
| Admin.TypingAdminPinUnlocks | App.tsx:265-273 | typing "106" and submitting unlocks from any state |
| ShareLink.SetParam | App.tsx:287-288 | `params.set` with a name no pair has appends the pair at the end |
| ShareLink.SetParamReplaces | App.tsx:287-288 | `params.set` with a name already present keeps the pairs before its first occurrence, puts the new value there, and keeps every later pair with another name, in order, dropping the later ones with that name |
| ShareLink.RemoveNameSnoc | App.tsx:287-288 | removing the other pairs with the name is a filter: a pair is kept exactly when its name differs, and order is preserved |
| ShareLink.GenerateShareLink | App.tsx:282-308 | no link exactly when the profile or the background is a `data:` URL, with one alert per offender in order. Otherwise the parameters are brand, theme, then profile and bg when non-empty |
| ShareLink.ShareParamsReadBack | App.tsx:282-308 | `get` on the shared query returns the shared brand and theme, the profile and background when non-empty, and null for an unshared profile or background |
| ShareLink.SharedLinkRestoresSettings | App.tsx:282-308 | opening the shared link restores each non-empty shared value; an unshared profile or background keeps the recipient's own value |
| ShareLink.PercentInSharedValueThrows | App.tsx:173-178 | as written, a shared brand "100%" makes `getUrlParam('brand')` throw |
| ShareLink.EscapeInSharedValueIsDecodedTwice | App.tsx:173-178 | as written, a shared profile URL `a%20b.png` is read back as `a b.png` |
| SearchSources.UpsertIsMapUpdate | App.tsx:458-461 | after `map.set(k, v)`, `get(k)` is `v` and every other key is unchanged; existing entries keep their keys and order; at most one entry is added |
| SearchSources.UpsertKeepsKeysDistinct | App.tsx:458-461 | `map.set` never creates a second entry for a key |
| SearchSources.OrderedMap.constructor | App.tsx:455 | `new Map()` is empty |
| SearchSources.OrderedMap.Set | App.tsx:458-461 | the method's scan-and-update gives the Upsert entries and keeps keys distinct |
| SearchSources.OrderedMap.Values | App.tsx:464 | `Array.from(map.values())` lists the values in insertion order |
| SearchSources.OccursIffSomeChunk | App.tsx:456-457 | a URI occurs exactly when some chunk among the first `n` has it with a non-empty title |
| SearchSources.FirstChunk | App.tsx:456-457 | the first qualifying chunk for a URI carries that URI, and no earlier chunk qualifies with it |
| SearchSources.LastTitleIsLast | App.tsx:457-461 | the recorded title comes from a qualifying chunk with that URI, and no later chunk overrides it |
| SearchSources.SkipKeepsSummary | App.tsx:456-457 | a chunk missing its URI or title leaves the map summarising the chunks seen |
| SearchSources.SetKeepsSummary | App.tsx:457-461 | `set` for a qualifying chunk keeps the map summarising the chunks seen: distinct keys, accurate entries, every URI covered, first-occurrence order |
| SearchSources.SummaryListsSources | App.tsx:464 | the values of a map that summarises all the chunks are a de-duplicated source list |
| SearchSources.EntriesAfterSummarise | App.tsx:456-461 | after the callback has run on the first `n` chunks, the map summarises exactly those chunks |
| SearchSources.UniqueSources | App.tsx:453-465 | with no chunks the list is empty. Otherwise the URIs are pairwise distinct and are exactly the URIs of chunks with a non-empty URI and title, ordered by first occurrence; each title is that of the last chunk with its URI |

## Left out

- The JSX rendering, styling, scrolling and navigation of the page. They are pure UI.
- The voice session: microphone capture, `AudioContext`s, the live AI connection and its callbacks. These are foreign, asynchronous calls.
- `createBlob`'s Float32-to-Int16 scaling, the RMS volume smoothing and the playback scheduling on the audio clock. They are floating-point numerics on an external clock.
- Particle motion, bouncing, colours, line drawing and the `requestAnimationFrame` lifecycle. They are float animation and canvas drawing.
- The network calls of `performSearch` and `performAudit`. Only the de-duplication of the search response is modelled; the request, the result text and the error path are not.
- Clipboard writing, the copy-feedback timer, `alert` texts, file uploads, `confirm`/`reload` and the factory reset. They are I/O with no logic beyond the outcomes modelled.
- Particles.ParticleField.InitParticles: positions, velocities and sizes are exact reals; float rounding in `Math.random() * width` is not modelled. The count comparison involves no rounding, because it compares small integers with a quotient.
- AudioCodec.SampleValue: division by 32768 is exact in float32 for 16-bit samples, so reals lose nothing there.
- AudioCodec.DecodeAudioData: the `sampleRate` range check of `createBuffer` is not modelled. The channel limit of 32 is the minimum every implementation must support; a browser may allow more.
- AudioCodec.Int16At: `Int16Array` reads in the platform's byte order; the model assumes a little-endian platform.
- AudioCodec.DecodeAudioData: `data.buffer` is taken to be exactly the bytes of `data`. That holds for the arrays `decode` creates, not for views with an offset.
- AudioCodec.Encode and AudioCodec.Decode: lengths are unbounded integers; the 2^32 limit of typed-array lengths is not modelled.
- UriComponent.Decode: characters are Unicode scalar values, not UTF-16 code units. A decoded supplementary character is one `char` rather than a surrogate pair, and lone surrogates cannot occur.
- Settings.Persist: `safeSetItem`'s swallowed quota errors are not modelled; every write is taken to succeed.
- Settings.InitialSettings: the initialisers are modelled with the corrected `getUrlParam` (see "## Findings"). As written, they call the `getUrlParam` that decodes a second time, which throws during the first render on a value such as `100%`; `Settings.GetUrlParamAgreesWithoutEscapes` states when both agree.
- Settings.InitialSettings: the `theme` value is cast to a theme key without validation. An unknown theme from a URL is kept as is. What the page then renders with it is not modelled.
- ShareLink.GenerateShareLink: the URL string is not modelled. The origin and path, the application/x-www-form-urlencoded serialisation, and its parsing when the link is opened are outside the model. The link's query is taken to read back as the pairs that were set.
- Admin.HandleAuth: the React state updates are taken to be applied before the next event; batching and render timing are not modelled.

## Findings

| source | as written | input that shows it | evidently intended | confidence | as-written member | corrected member |
|---|---|---|---|---|---|---|
| App.tsx:173-178 | `getUrlParam` applies `decodeURIComponent` to a value that `URLSearchParams.get` has already percent-decoded | a shared brand `100%`: the link carries `brand=100%25`, `get` returns `100%`, and `decodeURIComponent("100%")` throws a URIError while the page initialises. A shared profile URL `a%20b.png` arrives as `a b.png` | use the value `get` returns, decoded once | high, not executed | Settings.GetUrlParamAsWritten, ShareLink.PercentInSharedValueThrows, ShareLink.EscapeInSharedValueIsDecodedTwice | Settings.GetUrlParam, Settings.InitialSettingsPrecedence, ShareLink.SharedLinkRestoresSettings |
