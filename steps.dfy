/**
 * The steps of a wizard: what the constructor accepts as a step list, the
 * uniqueness check on slugs, and the first-match lookup by slug.
 */
module Steps {
  import opened Wrappers
  import opened Errors

  /** The form class a step displays; forms themselves are not modelled. */
  datatype FormClass = FormClass(name: string)

  /** A `Step`: a slug, used as a map key and as a URL path segment, and its form class. */
  datatype Step = Step(slug: string, form: FormClass)

  /** An element of the list handed to the constructor: a `Step`, or any other Python object. */
  datatype Element = StepElement(step: Step) | OtherObject

  /** The constructor's argument: a `list` (or an instance of a subclass of it), or anything else. */
  datatype StepsArgument = ListArgument(elements: seq<Element>) | NotAList

  /** Every element is a `Step`. */
  predicate AllSteps(elements: seq<Element>) {
    forall i :: 0 <= i < |elements| ==> elements[i].StepElement?
  }

  /** The elements that are not a `Step`, in order: the list the constructor's comprehension builds. */
  function NonSteps(elements: seq<Element>): (r: seq<Element>)
    ensures forall k :: 0 <= k < |r| ==> r[k].OtherObject?
    ensures r == [] <==> AllSteps(elements)
  {
    if elements == [] then []
    else
      var rest := NonSteps(elements[1..]);
      assert AllSteps(elements) <==> elements[0].StepElement? && AllSteps(elements[1..]) by {
        if elements[0].StepElement? && AllSteps(elements[1..]) {
          forall i | 0 <= i < |elements| ensures elements[i].StepElement? {
            if i > 0 { assert elements[i] == elements[1..][i - 1]; }
          }
        }
      }
      if elements[0].OtherObject? then [elements[0]] + rest else rest
  }

  /** The steps of a list all of whose elements are steps: same steps, same order. */
  function StepsOf(elements: seq<Element>): (r: seq<Step>)
    requires AllSteps(elements)
    ensures |r| == |elements|
    ensures forall i :: 0 <= i < |r| ==> elements[i] == StepElement(r[i])
  {
    seq(|elements|, i requires 0 <= i < |elements| => elements[i].step)
  }

  /** `set([step.slug for step in steps])`. */
  function SlugSet(steps: seq<Step>): set<string> {
    set i | 0 <= i < |steps| :: steps[i].slug
  }

  /** No two steps share a slug. */
  predicate UniqueSlugs(steps: seq<Step>) {
    forall i, j :: 0 <= i < j < |steps| ==> steps[i].slug != steps[j].slug
  }

  /**
   * The constructor's duplicate test is sound and complete: the set of slugs
   * is as large as the list exactly when no two steps share a slug.
   */
  lemma {:induction false} SlugSetSize(steps: seq<Step>)
    ensures |SlugSet(steps)| <= |steps|
    ensures |SlugSet(steps)| == |steps| <==> UniqueSlugs(steps)
    decreases |steps|
  {
    if steps != [] {
      var rest := steps[1..];
      SlugSetSize(rest);
      assert SlugSet(steps) == {steps[0].slug} + SlugSet(rest) by {
        forall s | s in SlugSet(steps) ensures s in {steps[0].slug} + SlugSet(rest) {
          var i :| 0 <= i < |steps| && steps[i].slug == s;
          if i > 0 { assert rest[i - 1].slug == s; }
        }
        forall s | s in SlugSet(rest) ensures s in SlugSet(steps) {
          var i :| 0 <= i < |rest| && rest[i].slug == s;
          assert steps[i + 1].slug == s;
        }
      }
      if steps[0].slug in SlugSet(rest) {
        var i :| 0 <= i < |rest| && rest[i].slug == steps[0].slug;
        assert steps[0].slug == steps[i + 1].slug;
        assert !UniqueSlugs(steps);
      } else {
        assert UniqueSlugs(steps) <==> UniqueSlugs(rest) by {
          if UniqueSlugs(rest) {
            forall i, j | 0 <= i < j < |steps| ensures steps[i].slug != steps[j].slug {
              assert steps[j] == rest[j - 1];
              if i > 0 { assert steps[i] == rest[i - 1]; }
              else { assert steps[j].slug in SlugSet(rest); }
            }
          }
          if UniqueSlugs(steps) {
            forall i, j | 0 <= i < j < |rest| ensures rest[i].slug != rest[j].slug {
              assert rest[i] == steps[i + 1] && rest[j] == steps[j + 1];
            }
          }
        }
      }
    }
  }

  /**
   * The checks of the constructor, in its order: the argument must be a list,
   * then every element a `Step` (TypeError), then the slugs unique
   * (ValueError); on success the step list is the argument itself.
   */
  function ValidateSteps(arg: StepsArgument): (r: Result<seq<Step>, Error>)
    ensures arg.NotAList? ==> r == Failure(TypeError(StepsNotAList))
    ensures arg.ListArgument? && !AllSteps(arg.elements) ==> r == Failure(TypeError(ElementNotAStep))
    ensures arg.ListArgument? && AllSteps(arg.elements) && !UniqueSlugs(StepsOf(arg.elements))
            ==> r == Failure(ValueError(DuplicateSlugs))
    ensures r.Success? <==> arg.ListArgument? && AllSteps(arg.elements) && UniqueSlugs(StepsOf(arg.elements))
    ensures r.Success? ==> |r.value| == |arg.elements|
                           && forall i :: 0 <= i < |r.value| ==> arg.elements[i] == StepElement(r.value[i])
  {
    if arg.NotAList? then Failure(TypeError(StepsNotAList))
    else if NonSteps(arg.elements) != [] then Failure(TypeError(ElementNotAStep))
    else
      var steps := StepsOf(arg.elements);
      SlugSetSize(steps);
      if |SlugSet(steps)| != |steps| then Failure(ValueError(DuplicateSlugs))
      else Success(steps)
  }

  /** Step `i` is the first one whose slug is `slug`. */
  predicate FirstMatchAt(steps: seq<Step>, slug: string, i: int) {
    0 <= i < |steps| && steps[i].slug == slug && forall j :: 0 <= j < i ==> steps[j].slug != slug
  }

  /** `[step for step in steps if step.slug == slug]`: the steps with that slug, in order. */
  function Matching(steps: seq<Step>, slug: string): (r: seq<Step>)
    ensures forall k :: 0 <= k < |r| ==> r[k].slug == slug
    ensures r == [] <==> forall i :: 0 <= i < |steps| ==> steps[i].slug != slug
    ensures r != [] ==> exists i :: FirstMatchAt(steps, slug, i) && r[0] == steps[i]
  {
    if steps == [] then []
    else
      var rest := Matching(steps[1..], slug);
      if steps[0].slug == slug then
        assert FirstMatchAt(steps, slug, 0);
        [steps[0]] + rest
      else
        assert forall i :: 1 <= i < |steps| ==> steps[i] == steps[1..][i - 1];
        assert forall i :: FirstMatchAt(steps[1..], slug, i) ==> FirstMatchAt(steps, slug, i + 1);
        rest
  }

  /**
   * `get_step`: the first step with the given slug, or None when no step has
   * it (the IndexError of `[...][0]` is caught and turned into None).
   */
  function FirstWithSlug(steps: seq<Step>, slug: string): (r: Option<Step>)
    ensures r.None? <==> forall i :: 0 <= i < |steps| ==> steps[i].slug != slug
    ensures r.Some? ==> exists i :: FirstMatchAt(steps, slug, i) && r.value == steps[i]
  {
    var matches := Matching(steps, slug);
    if |matches| > 0 then Some(matches[0]) else None
  }

  /** When slugs are unique, the step found is the only step with the queried slug. */
  lemma FirstWithSlugIsOnlyMatch(steps: seq<Step>, slug: string)
    requires UniqueSlugs(steps)
    requires FirstWithSlug(steps, slug).Some?
    ensures forall i :: 0 <= i < |steps| && steps[i].slug == slug ==> steps[i] == FirstWithSlug(steps, slug).value
  {
  }

  /** Looking up a listed step's own slug finds exactly that step when slugs are unique. */
  lemma FirstWithSlugFindsMember(steps: seq<Step>, i: int)
    requires UniqueSlugs(steps) && 0 <= i < |steps|
    ensures FirstWithSlug(steps, steps[i].slug) == Some(steps[i])
  {
  }
}
