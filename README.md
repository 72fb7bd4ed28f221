# react-svg-ikon, modelled in Dafny

`react-svg-ikon` is a React component that draws one icon out of a remotely hosted SVG
sprite sheet. When an icon mounts, the component looks its `src` URL up in a process-wide
cache (`iconLib`). If no icon has asked for that URL yet, the component fetches the sheet
once. It reads three things from the text with fixed regular expressions, each taking its
leftmost match: the two captures of the literal pattern `<svg width="W" height="H"` (width
first, height right after it, wherever that text first occurs, so an `<svg>` tag with other
attributes before `width` gives no sizes), a `viewBox="…"` attribute and a
`<g id="icon-…">` group. It builds the icon's metadata from them and stores it in the cache
and in its own state. It then renders an `<svg>` that references the sprite element by id.

The model has four modules:

- `Scan` (scan.dfy) holds the three patterns as scanners. Each is proved to return the
  leftmost match that the regular expression would report. That match is given by a
  reference definition (`AttrAt`, `SizeAt`, `FirstAttr`, `FirstSize`). The module also has
  `FirstPx`/`StripFirstPx`, which model `replace('px', '')`; that call removes only the
  first occurrence.
- `SpriteHeader` (header.dfy) has the icon metadata. `Parse` is the specification
  function and `BuildMeta` is the branch-by-branch construction of the component. The
  lemmas state what the result is for every combination of id, viewBox and size matches.
- `IconView` (view.dfy) is `render`. It maps the component state and the caller's props to
  nothing, to the `?` fallback, or to an svg.
- `IconCache` (cache.dfy) is the shared cache, a class whose `entries` map the methods
  update in place. A ghost count of fetches per URL is tied to the map by `Valid()`. Each
  URL is fetched at most once, a key is never removed, and a resolved entry is never
  overwritten.

An error marker never reaches the cache or the component state. The missing-id branch
sets `meta.error` (src/index.js:61) and returns at line 62, before anything is stored. The
geometry branch sets `meta.error` at line 77, and the guard at line 80 then skips the store.
In both cases the state stays null and the icon renders nothing. `IconCache.IconLib.Complete`
states this: its state is never `ErrorMeta`, and on a parse error the slot stays `Pending`.
The `ErrorMeta` case of `IconView.Render` models the `iconMeta.error` branch of `render`
(lines 102-104) as written, but this component never reaches it.

## Model

| member | source | states |
|---|---|---|
| `Scan.RunLength` | src/index.js:6-8 | the greedy `[^"]+` run: every character in it is not a quote, and the run stops only at a quote or at the end of the text |
| `Scan.QuotedIsRun` | src/index.js:6-8 | any value that `([^"]+)"` can capture at a position is the longest quote-free run there |
| `Scan.QuotedValue` | src/index.js:6-8 | `([^"]+)"` matches at j with capture v exactly when the result is `Some(v)`, so the capture is unique and none means no match |
| `Scan.AttrValue` | src/index.js:7-8 | `lit([^"]+)"` matches at i with capture v if and only if the result is `Some(v)` |
| `Scan.FindAttr` | src/index.js:55-56 | the result is a match at or after `from` with no match at any earlier position; no result means no match anywhere from `from` on |
| `Scan.FindAttrIsFirst` | src/index.js:55-56 | scanning from 0 returns exactly the leftmost match (position and capture) of the reference definition, and nothing exactly when the pattern occurs nowhere |
| `Scan.SizeValue` | src/index.js:6 | `<svg width="W" height="H"` matches at i with captures W, H if and only if the result is `Some((W, H))` |
| `Scan.FindSize` | src/index.js:54 | the result is a width/height match with no earlier match; no result means no match from `from` on |
| `Scan.FindSizeIsFirst` | src/index.js:54 | scanning from 0 returns exactly the leftmost width/height match, and nothing exactly when the pattern occurs nowhere |
| `Scan.FirstPx` | src/index.js:74 | the position returned is the first occurrence of "px"; none means "px" does not occur, so `replace('px', '')` removes exactly that occurrence |
| `Scan.StripFirstPx` | src/index.js:74 | `replace('px', '')`: with no "px" the text is unchanged; otherwise exactly the two characters of the first "px" are removed (`PxRemoved`), so the text is two shorter |
| `SpriteHeader.SynthesizedViewBox` | src/index.js:74 | the template `0 0 ${W'} ${H'}`: the result is "0 0 ", then W', a space and H', where W' and H' are W and H with the two characters of their first "px" removed (unchanged when they have none); it is two characters shorter for each size that carries a "px" |
| `SpriteHeader.Parse` | src/index.js:54-78 | a parsed id always starts with `icon-` and has more after it; width and height are both set or both unset |
| `SpriteHeader.SynthesizedViewBoxExamples` | src/index.js:73-74 | sizes "24px"/"24px" give viewBox "0 0 24 24"; sizes without "px" are kept whole |
| `SpriteHeader.BuildMeta` | src/index.js:54-78 | the field-by-field construction in the component yields exactly `Parse(contents)` |
| `SpriteHeader.NoIdExactly` | src/index.js:56-63 | no metadata is built if and only if the text has no `<g id="icon-…">` match |
| `SpriteHeader.IdIsFirstGroup` | src/index.js:56-64 | the id is `icon-` followed by the capture of the first `<g id="icon-…">` match |
| `SpriteHeader.ExplicitViewBoxWins` | src/index.js:71-72 | with an id, the first `viewBox="…"` capture is the viewBox, even when width/height also matched |
| `SpriteHeader.SizeKeptAndSynthesized` | src/index.js:66-74 | with an id and a width/height match, width and height are the captures unchanged; without any viewBox, the viewBox is `"0 0 " + W' + " " + H'`, where W' and H' are W and H with their first "px" removed |
| `SpriteHeader.NoSizeNoDimensions` | src/index.js:66-69 | without a width/height match, width and height stay unset |
| `SpriteHeader.NoGeometryExactly` | src/index.js:71-78 | the geometry error occurs if and only if there is an id but neither a viewBox nor a width/height match |
| `IconView.SizeStyle` | src/index.js:106-109 | `svgStyle`: a width entry exactly when a width was parsed, holding that width; likewise for height; no other key |
| `IconView.Render` | src/index.js:95-118 | null state renders nothing and only it does; the error marker renders the "?" fallback and only it does; metadata renders an svg with the parsed viewBox, href `"#" + id`, the caller's color and class, and a style where every caller key wins and width/height come from the metadata otherwise |
| `IconView.RenderedReferenceIsInSheet` | src/index.js:113-114 | for any parsed sheet and any props, the rendered href is `#icon-` plus the capture of the first `<g id="icon-…">` match of that same sheet |
| `IconCache.IconLib.constructor` | src/index.js:5 | the cache starts empty, with no fetch issued |
| `IconCache.IconLib.Mount` | src/index.js:38-49 | a known URL leaves the cache and the fetch count unchanged and yields await (pending) or adopt (resolved); an unseen URL gets a Pending slot and exactly one fetch; a fetch starts only when none was issued; keys are never removed; no URL is ever fetched twice |
| `IconCache.IconLib.Complete` | src/index.js:54-91 | a successful parse replaces the slot with the metadata and makes that same metadata the state; a parse error stores nothing and leaves the state null; never an error marker; resolved slots and the fetch count are untouched |
| `IconCache.MountTwice` | src/index.js:38-49 | two mounts of a new URL in a row: the first fetches, the second waits, and the URL has been fetched once |

## Left out

- The network fetch and `response.text()` (src/index.js:45-52) are I/O. The fetched text
  is the `contents` argument of `IconCache.IconLib.Complete`. A rejected fetch is never
  caught, so that instance never reaches `Complete` and its state stays null. The request
  options (credentials, `Accept` header) are not modelled.
- Injection of the sheet into the hidden DOM container (src/index.js:81-88) is a browser
  DOM mutation. The code looks the container up as `#react-svg-icon-repo` but creates it
  with the id `react-svg-ikon-repo`. The lookup therefore never finds it, and a new hidden
  container is appended on every successful parse instead of one shared container.
- Asynchronous interleaving of the `await` points (src/index.js:41, 51-52) is event-loop
  concurrency. Mounts and completions are discrete sequential steps. `IconCache.IconLib.Mount`
  ends with `AwaitFetch` for a pending slot, and the waiter's later copy of the slot into
  its state (line 43) is not modelled. That copy reads the fetch promise in every case.
  The waiter resumes as soon as the fetch stored at line 45 settles. At that moment the
  icon that started the fetch is still awaiting `response.text()` (line 52), so it has not
  yet stored the metadata at line 89. Every icon that mounts while the fetch is in flight
  therefore holds the promise object as `iconMeta`. `render` draws that as an svg whose
  `viewBox` is undefined and whose href is `#undefined`. This happens even when the parse
  later succeeds.
- `Reflect.has` on a plain object (src/index.js:38) also sees inherited property names
  such as `toString`. The model treats the cache as a plain map, because URLs never
  collide with those names.
- React, styled-components and the PropTypes/defaultProps wiring (src/index.js:10-33,
  121-132) are library boilerplate. Props, including the defaults color `black`, class
  null and style `{}`, are a parameter of `IconView.Render`. The container and fallback
  CSS are not modelled.
- Style values are modelled as text. React also accepts numbers, and it drops an entry
  whose value is `undefined`. The model gives an unset parsed size no entry at all.
- JavaScript strings are UTF-16 code units; a Dafny `char` stands for one of them. No
  encoding is modelled.
