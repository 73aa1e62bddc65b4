/**
  The form state of the `App` component and its transitions: seven state
  fields, one setter per input control, "Generate Pseudocode", which stores
  the generator's output, and "Clear", which resets part of the form.
  React's `useState` pairs become fields of one object; each state update
  is modelled as taking effect at once (re-render scheduling and batching
  are not modelled).
 */
module AppComponent {
  import opened Pseudocode

  datatype Option<T> = None | Some(value: T)

  /** The inputs the form starts with, and the ones Clear returns to apart
      from the URL. */
  const InitialRequest: Request := Request("", false, false, "", "")

  class App {
    var componentName: string
    var useStateRequired: bool
    var useEffectRequired: bool
    var pseudocode: string
    var apiCallType: string
    var apiUrl: string
    var copySuccess: bool

    /** The inputs the displayed text was generated from, if any. */
    ghost var generatedFrom: Option<Request>

    /** The displayed text is either empty or exactly the generator's
        output on the inputs of the last generation; the inputs may have
        been edited since. */
    ghost predicate Valid()
      reads this
    {
      if generatedFrom.Some? then pseudocode == PseudocodeFor(generatedFrom.value) else pseudocode == ""
    }

    /** The five inputs of the generator as they stand in the form. */
    function Inputs(): Request
      reads this
    {
      Request(componentName, useStateRequired, useEffectRequired, apiCallType, apiUrl)
    }

    /** The initial values of the seven state fields. */
    constructor()
      ensures Inputs() == InitialRequest
      ensures pseudocode == "" && !copySuccess
      ensures generatedFrom == None && Valid()
    {
      componentName := "";
      useStateRequired := false;
      useEffectRequired := false;
      pseudocode := "";
      apiCallType := "";
      apiUrl := "";
      copySuccess := false;
      generatedFrom := None;
    }

    /** Typing in the component-name field. */
    method SetComponentName(value: string)
      requires Valid()
      modifies this`componentName
      ensures componentName == value
      ensures Valid()
    {
      componentName := value;
    }

    /** Ticking or unticking the useState checkbox. */
    method SetUseStateRequired(checked: bool)
      requires Valid()
      modifies this`useStateRequired
      ensures useStateRequired == checked
      ensures Valid()
    {
      useStateRequired := checked;
    }

    /** Ticking or unticking the useEffect checkbox. */
    method SetUseEffectRequired(checked: bool)
      requires Valid()
      modifies this`useEffectRequired
      ensures useEffectRequired == checked
      ensures Valid()
    {
      useEffectRequired := checked;
    }

    /** Choosing an entry of the API-call-type select. The value is stored
        as given; the generator treats anything but the four verbs as no
        API call. */
    method SetApiCallType(value: string)
      requires Valid()
      modifies this`apiCallType
      ensures apiCallType == value
      ensures Valid()
    {
      apiCallType := value;
    }

    /** Typing in the URL field. */
    method SetApiUrl(value: string)
      requires Valid()
      modifies this`apiUrl
      ensures apiUrl == value
      ensures Valid()
    {
      apiUrl := value;
    }

    /** "Generate Pseudocode": the generator's output on the current inputs
        replaces the displayed text; no input changes. The text is never
        empty, so the output panel is shown afterwards. */
    method GeneratePseudocode()
      requires Valid()
      modifies this`pseudocode, this`generatedFrom
      ensures pseudocode == PseudocodeFor(Inputs())
      ensures pseudocode != ""
      ensures generatedFrom == Some(Inputs())
      ensures Valid()
    {
      pseudocode := PseudocodeFor(Inputs());
      generatedFrom := Some(Inputs());
    }

    /** "Clear": the displayed text, the name, both checkboxes and the API
        call type return to their initial values. The URL and the copy flag
        keep their values, so the inputs are the initial ones but for the
        URL (see `ClearedFormUnused` for what that means for the next
        generation). */
    method Clear()
      requires Valid()
      modifies this`pseudocode, this`componentName, this`useStateRequired, this`useEffectRequired,
               this`apiCallType, this`generatedFrom
      ensures pseudocode == "" && componentName == ""
      ensures !useStateRequired && !useEffectRequired && apiCallType == ""
      ensures apiUrl == old(apiUrl) && copySuccess == old(copySuccess)
      ensures generatedFrom == None && Valid()
      ensures Inputs() == InitialRequest.(apiUrl := old(apiUrl))
    {
      pseudocode := "";
      componentName := "";
      useStateRequired := false;
      useEffectRequired := false;
      apiCallType := "";
      generatedFrom := None;
    }

    /** Clear, then choosing a call type in the select, then "Generate
        Pseudocode": the URL Clear kept is the URL the new text is
        generated from, without the user retyping it. */
    method RegenerateAfterClear(verb: string)
      requires Valid()
      modifies this`pseudocode, this`componentName, this`useStateRequired, this`useEffectRequired,
               this`apiCallType, this`generatedFrom
      ensures Inputs() == InitialRequest.(apiCallType := verb, apiUrl := old(apiUrl))
      ensures pseudocode == PseudocodeFor(InitialRequest.(apiCallType := verb, apiUrl := old(apiUrl)))
      ensures generatedFrom == Some(Inputs()) && copySuccess == old(copySuccess) && Valid()
    {
      Clear();
      SetApiCallType(verb);
      GeneratePseudocode();
    }
  }

  /** After Clear only the URL may differ from the initial inputs, and with
      no API call selected it does not reach the output: generating right
      after Clear yields the text of a fresh form. */
  lemma ClearedFormUnused(r: Request)
    requires r.componentName == "" && !r.useStateRequired && !r.useEffectRequired && r.apiCallType == ""
    ensures PseudocodeFor(r) == PseudocodeFor(InitialRequest)
  {
    assert r == InitialRequest.(apiUrl := r.apiUrl);
    UrlIgnoredWithoutApiCall(InitialRequest, r.apiUrl);
  }

  /** With GET chosen after Clear (both checkboxes are then unticked), the
      step-5 segment is a fixed text, the kept URL verbatim in single
      quotes, and a fixed text: the old URL reaches the output. */
  lemma {:induction false} KeptUrlReachesGetSnippet() returns (before: string, after: string)
    ensures forall apiUrl ::
              EffectBlock(false, "GET", ApiCallCode("GET", apiUrl)) == before + ("'" + apiUrl + "'") + after
  {
    var b, c := UrlPlacement("GET");
    before := EffectBullet + "\n    " + b;
    after := c;
    forall apiUrl
      ensures EffectBlock(false, "GET", ApiCallCode("GET", apiUrl)) == before + ("'" + apiUrl + "'") + after
    {
      assert ApiCallCode("GET", apiUrl) == b + ("'" + apiUrl + "'") + c;
    }
  }
}
