/**
  The pseudocode template generator of the React Pseudocode Generator form
  (`generatePseudocode` in src/App.jsx).

  The generator reads five form inputs and returns one string: a fixed
  seven-step outline of how to write a React component, with four inserted
  segments (the component name, the step-3 bullet, the step-4 bullet and the
  step-5 block). The step-5 block may carry an API snippet chosen by the
  "API Call Type" field.
 */
module Pseudocode {

  /** The five form fields the generator reads (src/App.jsx lines 8-13). */
  datatype Request = Request(
    componentName: string,
    useStateRequired: bool,
    useEffectRequired: bool,
    apiCallType: string,
    apiUrl: string)

  /** The REST verbs the form's select offers; `NoApi` is every other value,
      including the initial empty string. */
  datatype ApiKind = NoApi | Get | Post | Put | Delete

  /** The select value that stands for each verb; `NoApi` is the initial `''`. */
  function Verb(k: ApiKind): string
  {
    match k
    case NoApi => ""
    case Get => "GET"
    case Post => "POST"
    case Put => "PUT"
    case Delete => "DELETE"
  }

  /** Classifies the raw select value the way the if/else chain does:
      exact, case-sensitive comparison against the four verbs. */
  function KindOf(apiCallType: string): (k: ApiKind)
    ensures k != NoApi ==> Verb(k) == apiCallType
    ensures k == NoApi <==> apiCallType !in {"GET", "POST", "PUT", "DELETE"}
  {
    if apiCallType == "GET" then Get
    else if apiCallType == "POST" then Post
    else if apiCallType == "PUT" then Put
    else if apiCallType == "DELETE" then Delete
    else NoApi
  }

  /** Selecting a verb in the form and classifying it gives the verb back. */
  lemma KindOfVerb(k: ApiKind)
    ensures KindOf(Verb(k)) == k
  {
  }

  // ---------------------------------------------------------------------
  // Multi-line template literals
  // ---------------------------------------------------------------------

  /** The value of a multi-line JavaScript template literal whose source
      lines are `rows`: the rows joined by line breaks. */
  function JoinLines(rows: seq<string>): (text: string)
    ensures |rows| > 0 ==> |text| >= |rows| - 1 + |rows[0]|
  {
    if |rows| == 0 then ""
    else if |rows| == 1 then rows[0]
    else rows[0] + "\n" + JoinLines(rows[1..])
  }

  /** Joining two non-empty blocks of rows puts one line break between the
      two joined blocks. */
  lemma {:induction false} JoinLinesAppend(a: seq<string>, b: seq<string>)
    requires |a| > 0 && |b| > 0
    ensures JoinLines(a + b) == JoinLines(a) + "\n" + JoinLines(b)
    decreases |a|
  {
    if |a| == 1 {
      assert (a + b)[1..] == b;
    } else {
      assert (a + b)[1..] == a[1..] + b;
      JoinLinesAppend(a[1..], b);
    }
  }

  /** One row with rows before and after it. */
  lemma JoinAround(before: seq<string>, row: string, after: seq<string>)
    requires |before| > 0 && |after| > 0
    ensures JoinLines(before + ([row] + after)) == JoinLines(before) + "\n" + row + "\n" + JoinLines(after)
  {
    JoinLinesAppend([row], after);
    assert JoinLines([row]) == row;
    JoinLinesAppend(before, [row] + after);
  }

  // ---------------------------------------------------------------------
  // The API snippet (src/App.jsx lines 17-63)
  // ---------------------------------------------------------------------

  /** The source lines of each snippet template before the request line;
      the first row is the empty rest of the line that opens the template. */
  function SnippetHead(k: ApiKind): seq<string>
  {
    match k
    case NoApi => []
    case Get => [
      "",
      "      useEffect(() => {",
      "        const fetchData = async () => {",
      "          try {"]
    case Post => [
      "",
      "      const handleSubmit = async (formData) => {",
      "        try {"]
    case Put => [
      "",
      "      const handleUpdate = async (id, updateData) => {",
      "        try {"]
    case Delete => [
      "",
      "      const handleDelete = async (id) => {",
      "        try {"]
  }

  /** The request line, the only line of a snippet that holds the URL:
      the axios call up to its opening parenthesis, the URL in its quoting,
      and the rest of the call. */
  function RequestLine(k: ApiKind, apiUrl: string): string
  {
    RequestOpen(k) + UrlReference(k, apiUrl) + RequestClose(k)
  }

  function RequestOpen(k: ApiKind): string
  {
    match k
    case NoApi => ""
    case Get => "            const response = await axios.get("
    case Post => "          const response = await axios.post("
    case Put => "          const response = await axios.put("
    case Delete => "          const response = await axios.delete("
  }

  /** How a snippet quotes the URL: GET and POST inside single quotes, PUT
      and DELETE inside a literal `${`...`}/${id}` template (the PUT and
      DELETE snippets escape their backquotes and `${`, so the URL is not
      interpolated a second time). */
  function UrlReference(k: ApiKind, apiUrl: string): string
  {
    if k == Get || k == Post then "'" + apiUrl + "'" else "`${" + apiUrl + "}/${id}`"
  }

  function RequestClose(k: ApiKind): string
  {
    match k
    case NoApi => ""
    case Get => ");"
    case Post => ", formData);"
    case Put => ", updateData);"
    case Delete => ");"
  }

  /** The source lines of each snippet template after the request line. */
  function SnippetTail(k: ApiKind): seq<string>
  {
    match k
    case NoApi => []
    case Get => [
      "            console.log(response.data);",
      "          } catch (error) {",
      "            console.error(error);",
      "          }",
      "        };",
      "        fetchData();",
      "      }, []);"]
    case _ => [
      "          console.log(response.data);",
      "        } catch (error) {",
      "          console.error(error);",
      "        }",
      "      };"]
  }

  /** All source lines of the snippet template of a verb; none for `NoApi`. */
  function SnippetRows(k: ApiKind, apiUrl: string): seq<string>
  {
    if k == NoApi then [] else SnippetHead(k) + ([RequestLine(k, apiUrl)] + SnippetTail(k))
  }

  /** `apiCallCode`: the snippet for the selected verb, or `''` for any
      other value of the select. */
  function ApiCallCode(apiCallType: string, apiUrl: string): (code: string)
    ensures code == "" <==> apiCallType !in {"GET", "POST", "PUT", "DELETE"}
  {
    JoinLines(SnippetRows(KindOf(apiCallType), apiUrl))
  }

  /** For every verb the snippet is one fixed text before the URL, the URL
      verbatim in its quoting, and one fixed text after it: the URL is not
      escaped, checked or altered, and nothing else in the snippet depends
      on it. */
  lemma {:induction false} UrlPlacement(apiCallType: string) returns (before: string, after: string)
    requires KindOf(apiCallType) != NoApi
    ensures forall apiUrl :: ApiCallCode(apiCallType, apiUrl) == before + UrlReference(KindOf(apiCallType), apiUrl) + after
    ensures apiCallType in {"GET", "POST"} ==>
              forall apiUrl :: ApiCallCode(apiCallType, apiUrl) == before + ("'" + apiUrl + "'") + after
    ensures apiCallType in {"PUT", "DELETE"} ==>
              forall apiUrl :: ApiCallCode(apiCallType, apiUrl) == before + ("`${" + apiUrl + "}/${id}`") + after
  {
    var k := KindOf(apiCallType);
    before := JoinLines(SnippetHead(k)) + "\n" + RequestOpen(k);
    after := RequestClose(k) + "\n" + JoinLines(SnippetTail(k));
    var head, tail := SnippetHead(k), SnippetTail(k);
    assert |head| > 0 && |tail| > 0;
    forall apiUrl
      ensures ApiCallCode(apiCallType, apiUrl) == before + UrlReference(k, apiUrl) + after
    {
      var url := UrlReference(k, apiUrl);
      assert ApiCallCode(apiCallType, apiUrl) == JoinLines(head + ([RequestLine(k, apiUrl)] + tail));
      JoinAround(head, RequestLine(k, apiUrl), tail);
      Regroup(JoinLines(head), RequestOpen(k), url, RequestClose(k), JoinLines(tail));
    }
  }

  /** Re-association around the URL. */
  lemma Regroup(head: string, open: string, url: string, close: string, tail: string)
    ensures head + "\n" + (open + url + close) + "\n" + tail == (head + "\n" + open) + url + (close + "\n" + tail)
  {
  }

  // ---------------------------------------------------------------------
  // The three conditional insertions (src/App.jsx lines 75, 78, 81)
  // ---------------------------------------------------------------------

  const StateBullet: string := "- Use the useState hook to manage state within the component"
  const ApiBullet: string := "- This will handle the API calls and response"
  const EffectBullet: string := "- Handle side effects such as fetching data when the component mounts"

  /** The text after the step-3 indentation: the useState bullet exactly
      when the checkbox is ticked, otherwise nothing. */
  function StateLine(useStateRequired: bool): (s: string)
    ensures s != "" <==> useStateRequired
    ensures s == "" || s == StateBullet
  {
    if useStateRequired then StateBullet else ""
  }

  /** The text after the step-4 indentation: the API bullet exactly when
      the snippet is non-empty (JavaScript truthiness of a string). */
  function HandlerLine(apiCallCode: string): (s: string)
    ensures s != "" <==> apiCallCode != ""
    ensures s == "" || s == ApiBullet
  {
    if apiCallCode != "" then ApiBullet else ""
  }

  /** The text after the step-5 indentation: when the useEffect box is
      ticked or the verb is exactly GET, the side-effect bullet, a line
      break with four spaces, and then the snippet verbatim; otherwise
      nothing. */
  function EffectBlock(useEffectRequired: bool, apiCallType: string, apiCallCode: string): (s: string)
    ensures s != "" <==> useEffectRequired || apiCallType == "GET"
    ensures s != "" ==> s == EffectBullet + "\n    " + apiCallCode
  {
    if useEffectRequired || apiCallType == "GET" then EffectBullet + "\n    " + apiCallCode else ""
  }

  // ---------------------------------------------------------------------
  // The outline template (src/App.jsx lines 65-91)
  // ---------------------------------------------------------------------

  const NamePrefix: string := "    - Name the component (e.g., "

  // The titles of the seven steps.
  const ImportTitle: string := "Import necessary modules and dependencies"
  const ComponentTitle: string := "Define a functional component"
  const StateTitle: string := "Declare state variables (if needed)"
  const HandlerTitle: string := "Define any necessary functions or event handlers"
  const EffectTitle: string := "Use the useEffect hook (if needed)"
  const JsxTitle: string := "Return the JSX for rendering the UI"
  const ExportTitle: string := "Export the component"

  // The rows under the headings of the three fixed steps.
  const ImportLines: seq<string> := [
    "    - Import React from 'react'",
    "    - Import axios from 'axios'",
    "    - Import any other required components, libraries, or assets"]
  const JsxLines: seq<string> := [
    "    - Structure the UI layout using HTML-like JSX syntax",
    "    - Use conditional rendering if needed",
    "    - Map over arrays to render lists",
    "    - Apply styles and pass props to child components"]
  const ExportLines: seq<string> := [
    "    - Use export default to make the component available for import in other files"]

  /** The source lines of the outline template, step by step, with its four
      insertions; the first row is the empty rest of the opening line, the
      last the indentation before the closing backquote. */
  function TemplateRows(r: Request): seq<string>
  {
    var code := ApiCallCode(r.apiCallType, r.apiUrl);
    [""] +
    (["1. " + ImportTitle] + ImportLines) + [""] +
    ["2. " + ComponentTitle,
     NamePrefix + r.componentName + ")"] + [""] +
    ["3. " + StateTitle,
     "    " + StateLine(r.useStateRequired)] + [""] +
    ["4. " + HandlerTitle,
     "    " + HandlerLine(code)] + [""] +
    ["5. " + EffectTitle,
     "    " + EffectBlock(r.useEffectRequired, r.apiCallType, code)] + [""] +
    (["6. " + JsxTitle] + JsxLines) + [""] +
    (["7. " + ExportTitle] + ExportLines) +
    ["    "]
  }

  /** The text `generatePseudocode` stores in the `pseudocode` field. It is
      total: no input is rejected, an empty name or URL is substituted as
      is. It is never empty, so the output panel (shown when `pseudocode`
      is truthy) appears after every generation. */
  function PseudocodeFor(r: Request): (out: string)
    ensures out != ""
  {
    JoinLines(TemplateRows(r))
  }

  /** The output depends on the inputs only through the four inserted
      segments: two requests that agree on the name and on the step-3,
      step-4 and step-5 segments produce the same text. */
  lemma OnlyInsertionsVary(r1: Request, r2: Request)
    requires r1.componentName == r2.componentName
    requires StateLine(r1.useStateRequired) == StateLine(r2.useStateRequired)
    requires HandlerLine(ApiCallCode(r1.apiCallType, r1.apiUrl)) == HandlerLine(ApiCallCode(r2.apiCallType, r2.apiUrl))
    requires EffectBlock(r1.useEffectRequired, r1.apiCallType, ApiCallCode(r1.apiCallType, r1.apiUrl))
          == EffectBlock(r2.useEffectRequired, r2.apiCallType, ApiCallCode(r2.apiCallType, r2.apiUrl))
    ensures PseudocodeFor(r1) == PseudocodeFor(r2)
  {
  }

  /** GET forces the step-5 block: with GET selected, ticking useEffect
      changes nothing in the output. */
  lemma GetForcesEffect(r: Request)
    requires r.apiCallType == "GET"
    ensures PseudocodeFor(r.(useEffectRequired := true)) == PseudocodeFor(r)
  {
  }

  /** For POST, PUT and DELETE without useEffect, the handler snippet is
      computed but never emitted: step 4 still announces API handling while
      the step-5 segment stays empty. */
  lemma HandlerCodeOmitted(r: Request)
    requires r.apiCallType in {"POST", "PUT", "DELETE"} && !r.useEffectRequired
    ensures HandlerLine(ApiCallCode(r.apiCallType, r.apiUrl)) == ApiBullet
    ensures EffectBlock(r.useEffectRequired, r.apiCallType, ApiCallCode(r.apiCallType, r.apiUrl)) == ""
  {
  }

  /** Consequently, in that case the URL has no effect on the output... */
  lemma HandlerUrlUnused(r: Request, otherUrl: string)
    requires r.apiCallType in {"POST", "PUT", "DELETE"} && !r.useEffectRequired
    ensures PseudocodeFor(r.(apiUrl := otherUrl)) == PseudocodeFor(r)
  {
    OnlyInsertionsVary(r.(apiUrl := otherUrl), r);
  }

  /** ...and neither has the choice between POST, PUT and DELETE. */
  lemma HandlerVerbUnused(r: Request)
    requires r.apiCallType in {"POST", "PUT", "DELETE"} && !r.useEffectRequired
    ensures PseudocodeFor(r.(apiCallType := "POST")) == PseudocodeFor(r)
  {
    OnlyInsertionsVary(r.(apiCallType := "POST"), r);
  }

  /** Without a recognised verb the URL field has no effect on the output. */
  lemma UrlIgnoredWithoutApiCall(r: Request, otherUrl: string)
    requires r.apiCallType !in {"GET", "POST", "PUT", "DELETE"}
    ensures PseudocodeFor(r.(apiUrl := otherUrl)) == PseudocodeFor(r)
  {
    assert TemplateRows(r.(apiUrl := otherUrl)) == TemplateRows(r);
  }
}
