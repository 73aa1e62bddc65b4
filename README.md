# React Pseudocode Generator, modelled in Dafny

The React Pseudocode Generator is a single-page form. A user enters a
component name, ticks whether the component needs `useState` and
`useEffect`, and may pick an API call type (GET, POST, PUT or DELETE) and
a URL. "Generate Pseudocode" then shows a fixed seven-step outline of how
to write that component, with four inserted segments. "Clear" resets most
of the form. Everything lives in one component, `App` in `src/App.jsx`.

This project models two parts of that component:

- `pseudocode.dfy`, module `Pseudocode`: the generator
  `generatePseudocode`, as pure functions.
  - `ApiCallCode` is the API snippet chosen by the if/else chain.
  - `StateLine`, `HandlerLine` and `EffectBlock` are the three conditional
    insertions.
  - `PseudocodeFor` is the whole outline template.
  - A JavaScript multi-line template literal is modelled as its source
    lines joined by line breaks (`JoinLines`).
- `outline.dfy`, module `Outline`: an independent, structural description
  of the same text. It is a list of seven titled steps laid out by one
  numbering rule. `PseudocodeIsOutline` proves that the template has
  exactly that layout.
- `app.dfy`, module `AppComponent`: the form state.
  - The seven `useState` fields become fields of class `App`.
  - The input setters, "Generate" and "Clear" become methods.
  - Each method's frame and postconditions say which fields change.

## Model

| member | source | states |
|---|---|---|
| Pseudocode.KindOf | src/App.jsx:20-63 | The chain recognises exactly the four strings GET, POST, PUT and DELETE, compared exactly and case-sensitively. Every other value, including the initial empty string, selects no snippet. |
| Pseudocode.KindOfVerb | src/App.jsx:159-162 | Each of the four values the select offers is classified as the verb it names. |
| Pseudocode.ApiCallCode | src/App.jsx:17-63 | The snippet is non-empty exactly when the call type is one of the four verbs. It is `''` for any other value. |
| Pseudocode.UrlPlacement | src/App.jsx:20-57 | For each verb, the snippet is a fixed text, then the URL verbatim, then a fixed text. GET and POST put the URL in single quotes. PUT and DELETE put it in a literal `` `${ ``…`` }/${id}` `` template. |
| Pseudocode.JoinLines | src/App.jsx:65-91 | A multi-line template literal with n source lines is at least n-1 line breaks plus its first line long. |
| Pseudocode.JoinLinesAppend | src/App.jsx:65-91 | Joining two non-empty blocks of lines puts exactly one line break between the joined blocks. |
| Pseudocode.StateLine | src/App.jsx:75 | The step-3 line holds the useState bullet if and only if `useStateRequired`. Otherwise it is empty, while the indentation and line breaks around it stay. |
| Pseudocode.HandlerLine | src/App.jsx:78 | The step-4 line holds the API-handling bullet if and only if the API snippet is non-empty. |
| Pseudocode.EffectBlock | src/App.jsx:81 | The step-5 segment is non-empty if and only if `useEffectRequired` holds or the call type is exactly GET. When non-empty, it is the side-effect bullet, a line break with four spaces, and the snippet. |
| Pseudocode.PseudocodeFor | src/App.jsx:65-91 | The generator is total: every input, including an empty name or URL, yields a text. That text is never empty, so the output panel shows after every generation. |
| Pseudocode.OnlyInsertionsVary | src/App.jsx:65-91 | Two inputs that agree on the name and on the three conditional segments yield the same text. All literal text between the insertions, including steps 1, 6 and 7, is fixed. |
| Pseudocode.GetForcesEffect | src/App.jsx:81 | With GET selected, ticking useEffect does not change the output. |
| Pseudocode.HandlerCodeOmitted | src/App.jsx:78-81 | For POST, PUT or DELETE without useEffect, step 4 announces API handling while the step-5 segment is empty, so the handler snippet is not emitted. |
| Pseudocode.HandlerUrlUnused | src/App.jsx:78-81 | In that case the URL does not affect the output. |
| Pseudocode.HandlerVerbUnused | src/App.jsx:78-81 | In that case the choice among POST, PUT and DELETE does not affect the output. |
| Pseudocode.UrlIgnoredWithoutApiCall | src/App.jsx:17-63 | When no verb is selected, the URL does not affect the output. |
| Outline.StepsFor | src/App.jsx:65-91 | The outline has exactly seven steps. |
| Outline.FixedSteps | src/App.jsx:65-91 | Steps 1, 6 and 7 are the same fixed title and lines for every input. |
| Outline.SevenSteps | src/App.jsx:65-91 | Seven steps lay out as their rows numbered 1 to 7, with one blank line between consecutive steps. |
| Outline.PseudocodeIsOutline | src/App.jsx:65-91 | The generated text equals the rendering of the seven-step outline. That rendering is: an empty first line; each step's number, title and indented lines; blank separators; and a final four-space line. |
| Outline.NameOnlyInStepTwo | src/App.jsx:72 | The component name reaches step 2 only, as its single line. The other steps do not depend on it. |
| Outline.NamePlacement | src/App.jsx:71-72 | For fixed other inputs, the output is a fixed text, then the name verbatim, then a fixed text. The name is neither checked nor escaped, and an empty name is accepted. |
| AppComponent.App.constructor | src/App.jsx:8-14 | The initial values are `''`, `false`, `false`, `''`, `''`, `''` and `false`. No text has been generated yet. |
| AppComponent.App.SetComponentName | src/App.jsx:124 | The name field takes the typed value and nothing else changes. |
| AppComponent.App.SetUseStateRequired | src/App.jsx:134 | The useState flag takes the checkbox value and nothing else changes. |
| AppComponent.App.SetUseEffectRequired | src/App.jsx:144 | The useEffect flag takes the checkbox value and nothing else changes. |
| AppComponent.App.SetApiCallType | src/App.jsx:156 | The call type takes the selected value and nothing else changes. |
| AppComponent.App.SetApiUrl | src/App.jsx:172 | The URL takes the typed value and nothing else changes. |
| AppComponent.App.GeneratePseudocode | src/App.jsx:16-94 | `pseudocode` becomes the generator's output on the current inputs. The output is non-empty and no other field changes. |
| AppComponent.App.Clear | src/App.jsx:185-191 | `pseudocode`, the name, both flags and the call type return to their initial values. `apiUrl` and `copySuccess` keep theirs. |
| AppComponent.ClearedFormUnused | src/App.jsx:185-191 | Generating after Clear and before a verb is chosen again yields the text of a fresh form, although the URL was kept. |
| AppComponent.App.RegenerateAfterClear | src/App.jsx:156-191 | Clear, then choosing a call type, then Generate leaves the form with the initial inputs except that call type and the URL from before Clear, keeps the copy flag, and shows the text generated from exactly those inputs. |
| AppComponent.KeptUrlReachesGetSnippet | src/App.jsx:20-81 | With GET chosen after Clear, the step-5 segment is a fixed text, then the kept URL verbatim in single quotes, then a fixed text. |

Every method of `App` keeps the invariant `Valid`: the displayed text is
either empty or the generator's output on the inputs of the last
generation.

A "Clear" button is naturally read as resetting the whole form, URL
included. The code does not: `Clear` models src/App.jsx:185-191, which
keeps `apiUrl`. The kept URL is harmless only for a generation made before
a verb is chosen again (`ClearedFormUnused`), because the call type is
reset. Once a verb is chosen again, the URL field shows the old URL
(src/App.jsx:166-176), and the next generation uses it without the user
retyping it (`App.RegenerateAfterClear`). With GET it reaches the output
verbatim (`KeptUrlReachesGetSnippet`). With POST, PUT or DELETE it does
not, because Clear also unticks useEffect (`HandlerUrlUnused`), unless
useEffect is ticked again before generating.

## Left out

- JSX rendering and Material-UI components are not modelled: the form
  layout, the conditional URL field (src/App.jsx:166-176), the copy-icon
  swap (src/App.jsx:203-218) and the title. They have no behaviour beyond
  display.
- The clipboard copy (`copyToClipboard`, src/App.jsx:96-104) is not
  modelled. It is an asynchronous call into the browser's clipboard API,
  with promise handlers that set `copySuccess` or log an error.
  `copySuccess` is kept as a field so that `Clear` can be shown not to
  touch it.
- The timer-driven reset of `copySuccess` (src/App.jsx:106-112) is not
  modelled. It is timer-driven asynchrony. The code does not cancel
  earlier timers, and the model claims no restart rule.
- React hook mechanics are not modelled: re-render scheduling, state
  batching and effect scheduling are library behaviour. Each setter is
  modelled as an immediate field update.
- The CSS import is not modelled.
- `console.error` output is not modelled.
