/**
  A second, structural definition of the generated text: an ordered list of
  seven titled steps laid out by one generic rule. A step is its number,
  ". " and its title on one row, then the rows under it. Steps are
  separated by a blank row, and the whole is framed by the template's empty
  first row and its indented last row. `PseudocodeIsOutline` proves that
  the template of module Pseudocode has exactly this layout, so the
  numbering, the titles and the place of each insertion can be read off
  `StepsFor`.
 */
module Outline {
  import opened Pseudocode

  /** One numbered step of the outline: its title and the rows under it. */
  datatype Step = Step(title: string, lines: seq<string>)

  /** Decimal digits of `n`. */
  function Numeral(n: nat): string
  {
    if n < 10 then ["0123456789"[n]] else Numeral(n / 10) + ["0123456789"[n % 10]]
  }

  /** The rows of step number `n`: its numbered heading, then its rows. */
  function StepRows(n: nat, s: Step): seq<string>
  {
    [Numeral(n) + ". " + s.title] + s.lines
  }

  /** The rows of the steps numbered from `n` on, a blank row between two
      consecutive steps. */
  function BodyRows(steps: seq<Step>, n: nat): seq<string>
    decreases |steps|
  {
    if steps == [] then []
    else if |steps| == 1 then StepRows(n, steps[0])
    else StepRows(n, steps[0]) + [""] + BodyRows(steps[1..], n + 1)
  }

  /** All rows: the empty first row, the steps numbered from 1, and the
      indentation before the closing backquote. */
  function OutlineRows(steps: seq<Step>): seq<string>
  {
    [""] + BodyRows(steps, 1) + ["    "]
  }

  /** The text of an outline. */
  function Render(steps: seq<Step>): string
  {
    JoinLines(OutlineRows(steps))
  }

  /** The seven steps for a request. Steps 1, 6 and 7 are fixed; step 2
      names the component; steps 3, 4 and 5 hold one conditional row each. */
  function StepsFor(r: Request): (steps: seq<Step>)
    ensures |steps| == 7
  {
    var code := ApiCallCode(r.apiCallType, r.apiUrl);
    [ Step(ImportTitle, ImportLines),
      Step(ComponentTitle, [NamePrefix + r.componentName + ")"]),
      Step(StateTitle, ["    " + StateLine(r.useStateRequired)]),
      Step(HandlerTitle, ["    " + HandlerLine(code)]),
      Step(EffectTitle, ["    " + EffectBlock(r.useEffectRequired, r.apiCallType, code)]),
      Step(JsxTitle, JsxLines),
      Step(ExportTitle, ExportLines) ]
  }

  /** Steps 1, 6 and 7 are the same whatever the inputs. */
  lemma FixedSteps(r: Request)
    ensures StepsFor(r)[0] == Step(ImportTitle, ImportLines)
    ensures StepsFor(r)[5] == Step(JsxTitle, JsxLines)
    ensures StepsFor(r)[6] == Step(ExportTitle, ExportLines)
  {
  }

  /** Seven steps lay out as the seven steps' rows, numbered 1 to 7, with a
      blank row between consecutive steps. */
  lemma {:induction false} SevenSteps(o: seq<Step>)
    requires |o| == 7
    ensures BodyRows(o, 1) == StepRows(1, o[0]) + [""] + (StepRows(2, o[1]) + [""] + (StepRows(3, o[2]) + [""]
                 + (StepRows(4, o[3]) + [""] + (StepRows(5, o[4]) + [""] + (StepRows(6, o[5]) + [""]
                 + StepRows(7, o[6]))))))
  {
    assert o[1..][1..] == o[2..];
    assert o[2..][1..] == o[3..];
    assert o[3..][1..] == o[4..];
    assert o[4..][1..] == o[5..];
    assert o[5..][1..] == o[6..];
    assert BodyRows(o[6..], 7) == StepRows(7, o[6]);
    assert BodyRows(o[5..], 6) == StepRows(6, o[5]) + [""] + BodyRows(o[6..], 7);
    assert BodyRows(o[4..], 5) == StepRows(5, o[4]) + [""] + BodyRows(o[5..], 6);
    assert BodyRows(o[3..], 4) == StepRows(4, o[3]) + [""] + BodyRows(o[4..], 5);
    assert BodyRows(o[2..], 3) == StepRows(3, o[2]) + [""] + BodyRows(o[3..], 4);
    assert BodyRows(o[1..], 2) == StepRows(2, o[1]) + [""] + BodyRows(o[2..], 3);
    assert BodyRows(o, 1) == StepRows(1, o[0]) + [""] + BodyRows(o[1..], 2);
  }

  /** The template of `generatePseudocode` is the layout of the outline. */
  lemma {:induction false} PseudocodeIsOutline(r: Request)
    ensures PseudocodeFor(r) == Render(StepsFor(r))
  {
    var o := StepsFor(r);
    SevenSteps(o);
    FixedStepRows(r);
    InsertedStepRows(r);
    RegroupRows([""], StepRows(1, o[0]), StepRows(2, o[1]), StepRows(3, o[2]), StepRows(4, o[3]),
                StepRows(5, o[4]), StepRows(6, o[5]), StepRows(7, o[6]), [""], ["    "]);
  }

  /** Steps 1, 6 and 7 lay out as the template's fixed blocks. */
  lemma FixedStepRows(r: Request)
    ensures StepRows(1, StepsFor(r)[0]) == ["1. " + ImportTitle] + ImportLines
    ensures StepRows(6, StepsFor(r)[5]) == ["6. " + JsxTitle] + JsxLines
    ensures StepRows(7, StepsFor(r)[6]) == ["7. " + ExportTitle] + ExportLines
  {
    assert Numeral(1) + ". " == "1. " && Numeral(6) + ". " == "6. " && Numeral(7) + ". " == "7. ";
  }

  /** Steps 2 to 5 lay out as the template's heading and inserted row. */
  lemma InsertedStepRows(r: Request)
    ensures StepRows(2, StepsFor(r)[1]) == ["2. " + ComponentTitle, NamePrefix + r.componentName + ")"]
    ensures StepRows(3, StepsFor(r)[2]) == ["3. " + StateTitle, "    " + StateLine(r.useStateRequired)]
    ensures StepRows(4, StepsFor(r)[3])
         == ["4. " + HandlerTitle, "    " + HandlerLine(ApiCallCode(r.apiCallType, r.apiUrl))]
    ensures StepRows(5, StepsFor(r)[4])
         == ["5. " + EffectTitle,
             "    " + EffectBlock(r.useEffectRequired, r.apiCallType, ApiCallCode(r.apiCallType, r.apiUrl))]
  {
    assert Numeral(2) + ". " == "2. " && Numeral(3) + ". " == "3. ";
    assert Numeral(4) + ". " == "4. " && Numeral(5) + ". " == "5. ";
  }

  /** The name reaches step 2 only, as its single row. */
  lemma NameOnlyInStepTwo(r: Request, name: string)
    ensures StepsFor(r.(componentName := name))[1] == Step(ComponentTitle, [NamePrefix + name + ")"])
    ensures StepsFor(r.(componentName := name))[0] == StepsFor(r)[0]
    ensures StepsFor(r.(componentName := name))[2..] == StepsFor(r)[2..]
  {
  }

  /** The outline's rows split around the name row into a part above and a
      part below that do not depend on the name. */
  lemma {:induction false} NameRowSplit(r: Request, name: string)
    ensures OutlineRows(StepsFor(r.(componentName := name)))
         == ([""] + StepRows(1, StepsFor(r)[0]) + [""] + [Numeral(2) + ". " + ComponentTitle])
            + ([NamePrefix + name + ")"] + ([""] + BodyRows(StepsFor(r)[2..], 3) + ["    "]))
  {
    var o := StepsFor(r);
    var named := StepsFor(r.(componentName := name));
    NameOnlyInStepTwo(r, name);
    assert named[1..][1..] == named[2..];
    assert BodyRows(named, 1) == StepRows(1, named[0]) + [""] + (StepRows(2, named[1]) + [""] + BodyRows(named[2..], 3));
    assert StepRows(2, named[1]) == [Numeral(2) + ". " + ComponentTitle] + [NamePrefix + name + ")"];
    RegroupAround([""], StepRows(1, o[0]), [""], [Numeral(2) + ". " + ComponentTitle], [NamePrefix + name + ")"],
                  BodyRows(o[2..], 3), ["    "]);
  }

  /** Step 2 names the component verbatim: for fixed other inputs, the
      output is one fixed text, the name as typed (empty, or holding line
      breaks or template text, alike), and one fixed text. */
  lemma {:induction false} NamePlacement(r: Request) returns (before: string, after: string)
    ensures forall name :: PseudocodeFor(r.(componentName := name)) == before + name + after
  {
    var o := StepsFor(r);
    var above := [""] + StepRows(1, o[0]) + [""] + [Numeral(2) + ". " + ComponentTitle];
    var below := [""] + BodyRows(o[2..], 3) + ["    "];
    before := JoinLines(above) + "\n" + NamePrefix;
    after := ")" + "\n" + JoinLines(below);
    forall name
      ensures PseudocodeFor(r.(componentName := name)) == before + name + after
    {
      PseudocodeIsOutline(r.(componentName := name));
      NameRowSplit(r, name);
      JoinAround(above, NamePrefix + name + ")", below);
      Regroup(JoinLines(above), NamePrefix, name, ")", JoinLines(below));
    }
  }

  /** Re-association of the outline's rows around the name row. */
  lemma RegroupAround<T>(first: seq<T>, s1: seq<T>, blank: seq<T>, h: seq<T>, row: seq<T>, rest: seq<T>, last: seq<T>)
    ensures first + (s1 + blank + (h + row + blank + rest)) + last == (first + s1 + blank + h) + (row + (blank + rest + last))
  {
  }

  /** Re-association of the template's rows into the outline's. */
  lemma RegroupRows(first: seq<string>, s1: seq<string>, s2: seq<string>, s3: seq<string>, s4: seq<string>,
                    s5: seq<string>, s6: seq<string>, s7: seq<string>, blank: seq<string>, last: seq<string>)
    ensures first + s1 + blank + s2 + blank + s3 + blank + s4 + blank + s5 + blank + s6 + blank + s7 + last
         == first + (s1 + blank + (s2 + blank + (s3 + blank + (s4 + blank + (s5 + blank + (s6 + blank + s7)))))) + last
  {
  }
}
