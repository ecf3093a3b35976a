/**
 * `SessionWizard`: one controller object shared by every request, whose
 * per-user progress lives in the request's session under the controller's
 * own id. Each session holds its own copy of the step list, the current
 * step and the data saved for each slug.
 */
module SessionWizards {
  import opened Wrappers
  import opened Errors
  import opened PyText
  import opened Steps

  /** The validated field values saved for one step; their contents are opaque here. */
  type CleanedData = map<string, string>

  /** What the `process_show_form` hook contributes to the render context. */
  type ExtraContext = map<string, string>

  /** The per-session record stored under the wizard's id. */
  datatype WizardState = WizardState(steps: seq<Step>, currentStep: Option<Step>, data: map<string, CleanedData>)

  /** `request.session`: a mutable mapping shared by everything that handles the user's requests. */
  class Session {
    var entries: map<string, WizardState>

    constructor (entries: map<string, WizardState>)
      ensures this.entries == entries
    {
      this.entries := entries;
    }
  }

  /** An HTTP request: its method, its path and the user's session. */
  datatype Request = Request(httpMethod: string, path: string, session: Session)

  /** A form instance: `step.form()` (no initial data) or `step.form(initial=d)`. */
  datatype Form = Form(formClass: FormClass, initial: Option<CleanedData>)

  /** The dictionary `_show_form` hands to the renderer. */
  datatype Context = Context(
    currentStep: Option<Step>,
    previousStep: Option<Step>,
    nextStep: Option<Step>,
    urlBase: string,
    extraContext: Option<ExtraContext>)

  /**
   * What a handler returns: a template rendered with a context, or Python's
   * None. The form is not part of it: `render_to_response` receives only the
   * template name and the context.
   */
  datatype Response = Rendered(template: string, context: Context) | NoResponse

  /** `dict.get(key)`, which yields None for a missing key. */
  function DictGet(m: map<string, CleanedData>, key: string): (r: Option<CleanedData>)
    ensures r.Some? <==> key in m
    ensures r.Some? ==> r.value == m[key]
  {
    if key in m then Some(m[key]) else None
  }

  /**
   * `_init_wizard` on the session's entries: an entry that exists is kept as
   * it is; otherwise one is added holding the base steps, the first of them
   * as current step and no saved data. Indexing `[0]` of an empty step list
   * raises IndexError before the session is touched.
   */
  function InitEntries(entries: map<string, WizardState>, id: string, baseSteps: seq<Step>)
    : (r: Result<map<string, WizardState>, Error>)
    ensures r.Failure? <==> id !in entries && |baseSteps| == 0
    ensures r.Failure? ==> r.error == IndexError
    ensures r.Success? ==> id in r.value && r.value.Keys == entries.Keys + {id}
    ensures r.Success? ==> forall k :: k in entries ==> r.value[k] == entries[k]
    ensures r.Success? && id !in entries
            ==> r.value[id].steps == baseSteps && r.value[id].currentStep == Some(baseSteps[0])
                && r.value[id].data == map[]
  {
    if id in entries then Success(entries)
    else if |baseSteps| == 0 then Failure(IndexError)
    else Success(entries[id := WizardState(baseSteps, Some(baseSteps[0]), map[])])
  }

  /** Initialising twice is initialising once: progress is never reset. */
  lemma InitEntriesIdempotent(entries: map<string, WizardState>, id: string, baseSteps: seq<Step>)
    requires InitEntries(entries, id, baseSteps).Success?
    ensures InitEntries(InitEntries(entries, id, baseSteps).value, id, baseSteps)
            == InitEntries(entries, id, baseSteps)
  {
  }

  /**
   * The slug a request concerns: the `slug` keyword argument when it is
   * present and non-empty, else the slug of the first step of the session's
   * own step list (IndexError when that list is empty).
   */
  function DefaultSlug(steps: seq<Step>, slugArg: Option<string>): (r: Result<string, Error>)
    ensures slugArg.Some? && slugArg.value != "" ==> r == Success(slugArg.value)
    ensures (slugArg.None? || slugArg.value == "") && |steps| > 0 ==> r == Success(steps[0].slug)
    ensures (slugArg.None? || slugArg.value == "") && |steps| == 0 ==> r == Failure(IndexError)
  {
    if slugArg.Some? && slugArg.value != "" then Success(slugArg.value)
    else if |steps| == 0 then Failure(IndexError)
    else Success(steps[0].slug)
  }

  /** A request without a slug is about the first step: looking up the default slug finds that step. */
  lemma DefaultSlugFindsFirstStep(steps: seq<Step>, slugArg: Option<string>)
    requires |steps| > 0 && (slugArg.None? || slugArg.value == "")
    ensures DefaultSlug(steps, slugArg).Success?
    ensures FirstWithSlug(steps, DefaultSlug(steps, slugArg).value) == Some(steps[0])
  {
  }

  /**
   * The form `process_GET` builds: pre-filled with the saved data exactly
   * when there is some and it is non-empty (Python's truth test on a dict),
   * otherwise empty.
   */
  function FormFor(step: Step, saved: Option<CleanedData>): (f: Form)
    ensures f.formClass == step.form
    ensures f.initial.Some? <==> saved.Some? && saved.value != map[]
    ensures f.initial.Some? ==> f.initial == saved
  {
    if saved.Some? && saved.value != map[] then Form(step.form, saved) else Form(step.form, None)
  }

  /**
   * `_get_URL_base`: the path up to the first occurrence of the slug when
   * the path ends in '/', and one character less otherwise; Python's
   * negative slice bounds give the degenerate results when the slug does
   * not occur.
   */
  function UrlBase(path: string, slug: string): (r: string)
    ensures r <= path
    ensures forall i :: FirstOccurrence(path, slug, i) ==>
              r == if EndsWith(path, "/") then path[..i]
                   else if i > 0 then path[..i - 1]
                   else path[..SliceLength(|path|, -1)]
    ensures Absent(path, slug) ==>
              r == path[..SliceLength(|path|, if EndsWith(path, "/") then -1 else -2)]
  {
    var index := Find(path, slug);
    assert forall i :: FirstOccurrence(path, slug, i) ==> i == index by {
      forall i | FirstOccurrence(path, slug, i) ensures i == index {
        FindIsFirstOccurrence(path, slug, i);
      }
    }
    if EndsWith(path, "/") then SliceTo(path, index) else SliceTo(path, index - 1)
  }

  /** The slug of a step URL `base + slug + tail` first occurs right after `base`. */
  lemma SlugFirstAfterBase(base: string, slug: string, tail: string)
    requires EndsWith(base, "/") && '/' !in slug && Absent(base, slug)
    ensures FirstOccurrence(base + slug + tail, slug, |base|)
  {
    var p := base + slug + tail;
    assert p[|base|..|base| + |slug|] == slug;
    forall k | 0 <= k < |base| ensures !OccursAt(p, slug, k) {
      if k + |slug| <= |base| {
        assert p[k..k + |slug|] == base[k..k + |slug|];
        assert !OccursAt(base, slug, k);
      } else {
        var j := |base| - 1 - k;
        assert p[k..k + |slug|][j] == '/';
        assert slug[j] in slug;
      }
    }
  }

  /**
   * For a step URL built as `base + slug + "/"`, where `base` ends in '/' and
   * neither holds the slug, the URL base is `base` itself; without the
   * trailing '/' it is `base` less its final '/'.
   */
  lemma UrlBaseOfStepPath(base: string, slug: string)
    requires EndsWith(base, "/") && '/' !in slug && Absent(base, slug)
    ensures UrlBase(base + slug + "/", slug) == base
    ensures UrlBase(base + slug, slug) == base[..|base| - 1]
  {
    SlugFirstAfterBase(base, slug, "/");
    assert EndsWith(base + slug + "/", "/");
    SlugFirstAfterBase(base, slug, "");
    assert base + slug + "" == base + slug;
    if |slug| > 0 {
      assert (base + slug)[|base + slug| - 1] == slug[|slug| - 1];
      assert slug[|slug| - 1] in slug;
    }
    assert (base + slug)[..|base| - 1] == base[..|base| - 1];
  }

  /** "address" does not occur in "/wizard/". */
  lemma WizardBaseLacksAddress()
    ensures Absent("/wizard/", "address")
  {
    var base := "/wizard/";
    assert base[0] == '/' && base[1] == 'w';
    forall k | 0 <= k <= 1 ensures !OccursAt(base, "address", k) {
      assert base[k..k + 7][0] == base[k];
    }
  }

  /** The two step URLs the session wizard is usually mounted under. */
  lemma UrlBaseExamples()
    ensures UrlBase("/wizard/address/", "address") == "/wizard/"
    ensures UrlBase("/wizard/address", "address") == "/wizard"
  {
    var base, slug := "/wizard/", "address";
    WizardBaseLacksAddress();
    assert '/' !in slug && EndsWith(base, "/");
    UrlBaseOfStepPath(base, slug);
    assert base + slug + "/" == "/wizard/address/";
    assert base + slug == "/wizard/address";
    assert base[..|base| - 1] == "/wizard";
  }

  /** The search is for the first occurrence anywhere in the path, so an earlier segment containing the slug wins. */
  lemma UrlBaseEarlierOccurrence()
    ensures UrlBase("/myaddress/address/", "address") == "/my"
  {
    var p := "/myaddress/address/";
    assert p[3..10] == "address";
    assert p[0] == '/' && p[1] == 'm' && p[2] == 'y';
    assert FirstOccurrence(p, "address", 3);
    assert p[..3] == "/my";
  }

  class SessionWizard {
    /** The key of this wizard's entry in every session; fixed at construction. */
    const id: string
    /** The validated step list every session copies. */
    const baseSteps: seq<Step>

    /** The invariant construction establishes: the slugs of the step list are unique. */
    predicate Valid() {
      UniqueSlugs(baseSteps)
    }

    /**
     * What every writer of this wizard's session entry keeps true: the entry,
     * when present, holds a copy of the base steps, which is not empty, and
     * its current step, when set, is one of those steps.
     */
    predicate EntryOk(entries: map<string, WizardState>) {
      id in entries ==>
        && entries[id].steps == baseSteps && |baseSteps| > 0
        && (entries[id].currentStep.Some? ==> entries[id].currentStep.value in baseSteps)
    }

    /** Runs only once the step list has passed validation. */
    constructor (id: string, steps: seq<Step>)
      requires UniqueSlugs(steps)
      ensures this.id == id && baseSteps == steps && Valid()
    {
      this.id := id;
      baseSteps := steps;
    }

    /**
     * `SessionWizard(steps)`: validates the argument and either raises or
     * yields a wizard whose step list is the argument and whose id is `id`
     * (the source draws it from `uuid4()`).
     */
    static method New(id: string, arg: StepsArgument) returns (r: Result<SessionWizard, Error>)
      ensures r.Failure? ==> ValidateSteps(arg) == Failure(r.error)
      ensures r.Success? ==> && ValidateSteps(arg) == Success(r.value.baseSteps)
                             && r.value.id == id && r.value.Valid() && fresh(r.value)
    {
      var checked := ValidateSteps(arg);
      if checked.Failure? {
        r := Failure(checked.error);
      } else {
        var w := new SessionWizard(id, checked.value);
        r := Success(w);
      }
    }

    /** `_get_state`: this wizard's entry in the request's session. */
    function State(request: Request): WizardState
      reads request.session
      requires id in request.session.entries
    {
      request.session.entries[id]
    }

    /** `get_steps`: the session's own copy of the step list, equal to the base list while the entry invariant holds. */
    function GetSteps(request: Request): (r: seq<Step>)
      reads request.session
      requires id in request.session.entries
      ensures EntryOk(request.session.entries) ==> r == baseSteps && |r| > 0
    {
      State(request).steps
    }

    /**
     * `get_step`: the first step of the session's list with that slug, or
     * None; for a valid wizard it is the only step with that slug.
     */
    function GetStep(request: Request, slug: string): (r: Option<Step>)
      reads request.session
      requires id in request.session.entries
      ensures r.None? <==> forall i :: 0 <= i < |GetSteps(request)| ==> GetSteps(request)[i].slug != slug
      ensures r.Some? ==> exists i :: FirstMatchAt(GetSteps(request), slug, i) && r.value == GetSteps(request)[i]
      ensures Valid() && EntryOk(request.session.entries) && r.Some?
              ==> forall i :: 0 <= i < |baseSteps| && baseSteps[i].slug == slug ==> baseSteps[i] == r.value
    {
      FirstWithSlug(GetSteps(request), slug)
    }

    /** `get_cleaned_data`: `dict.get` on the data saved in this session. */
    function GetCleanedData(request: Request, slug: string): Option<CleanedData>
      reads request.session
      requires id in request.session.entries
    {
      DictGet(State(request).data, slug)
    }

    /** The `process_show_form` hook; by default it adds nothing. */
    function ProcessShowForm(request: Request, slug: string, form: Form): (r: Option<ExtraContext>)
      ensures r.None?
    {
      None
    }

    /** The `get_template` hook; by default the empty template name. */
    function GetTemplate(request: Request, slug: string, form: Form): (r: string)
      ensures r == ""
    {
      ""
    }

    /**
     * The `render_form` hook: renders the template that `get_template` names
     * with the given context; the form reaches only `get_template`.
     */
    function RenderForm(request: Request, slug: string, form: Form, context: Context): (r: Response)
      ensures r.Rendered? && r.template == "" && r.context == context
    {
      Rendered(GetTemplate(request, slug, form), context)
    }

    /** By default the rendered response does not depend on the form: a pre-filled and an empty form render alike. */
    lemma RenderFormIgnoresForm(request: Request, slug: string, f: Form, g: Form, context: Context)
      ensures RenderForm(request, slug, f, context) == RenderForm(request, slug, g, context)
    {
    }

    /**
     * `_init_wizard`: makes sure the session holds this wizard's entry,
     * leaving an existing one and every other key untouched.
     */
    method InitWizard(request: Request) returns (outcome: Result<(), Error>)
      modifies request.session
      ensures EntryOk(old(request.session.entries)) ==> EntryOk(request.session.entries)
      ensures var init := InitEntries(old(request.session.entries), id, baseSteps);
              if init.Success? then outcome == Success(()) && request.session.entries == init.value
              else outcome == Failure(init.error) && request.session.entries == old(request.session.entries)
    {
      if id !in request.session.entries {
        if |baseSteps| == 0 {
          outcome := Failure(IndexError);
          return;
        }
        request.session.entries := request.session.entries[id := WizardState(baseSteps, Some(baseSteps[0]), map[])];
      }
      outcome := Success(());
    }

    /**
     * `_set_current_step`: the session's current step becomes the result of
     * `get_step` (None when no step has the slug), which is returned; the
     * step list, the saved data and every other session key are unchanged.
     */
    method SetCurrentStep(request: Request, slug: string) returns (step: Option<Step>)
      requires id in request.session.entries
      modifies request.session
      ensures EntryOk(old(request.session.entries)) ==> EntryOk(request.session.entries)
      ensures step == FirstWithSlug(old(State(request)).steps, slug)
      ensures request.session.entries
              == old(request.session.entries)[id := old(State(request)).(currentStep := step)]
    {
      step := GetStep(request, slug);
      var state := State(request);
      request.session.entries := request.session.entries[id := state.(currentStep := step)];
    }

    /**
     * `_show_form`: runs the context hook, sets the current step and renders
     * the form with the current step, empty previous and next steps, the URL
     * base and the hook's extra context.
     */
    method ShowForm(request: Request, slug: string, form: Form) returns (response: Response)
      requires id in request.session.entries
      modifies request.session
      ensures EntryOk(old(request.session.entries)) ==> EntryOk(request.session.entries)
      ensures var step := FirstWithSlug(old(State(request)).steps, slug);
              && request.session.entries
                 == old(request.session.entries)[id := old(State(request)).(currentStep := step)]
              && response == Rendered("", Context(step, None, None, UrlBase(request.path, slug), None))
    {
      var extra := ProcessShowForm(request, slug, form);
      var step := SetCurrentStep(request, slug);
      response := RenderForm(request, slug, form, Context(step, None, None, UrlBase(request.path, slug), extra));
    }

    /**
     * `process_GET`: builds the step's form, pre-filled with the data saved
     * for the slug when there is any, and hands it to `_show_form`; `shown`
     * is that form. An unknown slug leaves `step` None, and `None.form`
     * raises AttributeError before the session is touched.
     */
    method ProcessGet(request: Request, slug: string) returns (r: Result<Response, Error>, ghost shown: Option<Form>)
      requires id in request.session.entries
      modifies request.session
      ensures EntryOk(old(request.session.entries)) ==> EntryOk(request.session.entries)
      ensures var state := old(State(request));
              var found := FirstWithSlug(state.steps, slug);
              if found.None? then
                && r == Failure(AttributeError) && shown.None?
                && request.session.entries == old(request.session.entries)
              else
                && shown == Some(FormFor(found.value, DictGet(state.data, slug)))
                && r == Success(Rendered("", Context(found, None, None, UrlBase(request.path, slug), None)))
                && request.session.entries == old(request.session.entries)[id := state.(currentStep := found)]
    {
      var saved := GetCleanedData(request, slug);
      var step := GetStep(request, slug);
      if step.None? {
        r, shown := Failure(AttributeError), None;
        return;
      }
      var form := FormFor(step.value, saved);
      var response := ShowForm(request, slug, form);
      r, shown := Success(response), Some(form);
    }

    /** `process_POST`: an empty stub, returning None and changing nothing. */
    method ProcessPost(request: Request, slug: string) returns (response: Response)
      ensures response == NoResponse
    {
      response := NoResponse;
    }

    /**
     * `__call__`: initialise the session entry, resolve the slug, then
     * dispatch on the request method: GET to `process_GET`, POST to
     * `process_POST`; any other method has no `process_<method>` attribute,
     * and that AttributeError, like one raised inside a handler, becomes
     * Http404. Nothing outside this wizard's own session entry changes.
     * `shown` is the form a GET hands to `_show_form`, if it gets that far.
     */
    method Call(request: Request, slugArg: Option<string>) returns (r: Result<Response, Error>, ghost shown: Option<Form>)
      modifies request.session
      ensures EntryOk(old(request.session.entries)) ==> EntryOk(request.session.entries)
      ensures forall k :: k != id ==> (k in request.session.entries <==> k in old(request.session.entries))
      ensures forall k :: k != id && k in old(request.session.entries)
                ==> request.session.entries[k] == old(request.session.entries)[k]
      ensures r.Failure? ==> r.error == IndexError || r.error == Http404
      ensures var init := InitEntries(old(request.session.entries), id, baseSteps);
              init.Failure? ==> r == Failure(IndexError) && shown.None? && request.session.entries == old(request.session.entries)
      ensures var init := InitEntries(old(request.session.entries), id, baseSteps);
              init.Success? ==>
                var state := init.value[id];
                var resolved := DefaultSlug(state.steps, slugArg);
                if resolved.Failure? then
                  r == Failure(resolved.error) && shown.None? && request.session.entries == init.value
                else if request.httpMethod == "GET" then
                  var found := FirstWithSlug(state.steps, resolved.value);
                  if found.None? then
                    r == Failure(Http404) && shown.None? && request.session.entries == init.value
                  else
                    && shown == Some(FormFor(found.value, DictGet(state.data, resolved.value)))
                    && r == Success(Rendered("", Context(found, None, None, UrlBase(request.path, resolved.value), None)))
                    && request.session.entries == init.value[id := state.(currentStep := found)]
                else if request.httpMethod == "POST" then
                  r == Success(NoResponse) && shown.None? && request.session.entries == init.value
                else
                  r == Failure(Http404) && shown.None? && request.session.entries == init.value
    {
      shown := None;
      var init := InitWizard(request);
      if init.Failure? {
        r := Failure(init.error);
        return;
      }
      var resolved := DefaultSlug(GetSteps(request), slugArg);
      if resolved.Failure? {
        r := Failure(resolved.error);
        return;
      }
      var slug := resolved.value;
      if request.httpMethod == "GET" {
        var handled;
        handled, shown := ProcessGet(request, slug);
        r := if handled == Failure(AttributeError) then Failure(Http404) else handled;
      } else if request.httpMethod == "POST" {
        var response := ProcessPost(request, slug);
        r := Success(response);
      } else {
        r := Failure(Http404);
      }
    }

    /**
     * `done` as written: `%` binds tighter than `+`, so the class name is
     * formatted into "method, which is required.", which has no conversion;
     * Python raises TypeError instead of the intended NotImplementedError.
     */
    function DoneAsWritten(className: string): (r: Result<(), Error>)
      ensures r == Failure(TypeError(NotAllArgumentsConverted))
    {
      FormatWithoutConversion("method, which is required.", className, false);
      match Format("method, which is required.", className)
      case Success(tail) => Failure(NotImplementedError("Your %s class has not defined a done() " + tail))
      case Failure(e) => Failure(e)
    }

    /** `done` as intended: always raises NotImplementedError naming the wizard's class. */
    function Done(className: string): (r: Result<(), Error>)
      ensures r == Failure(NotImplementedError(
                     "Your " + className + " class has not defined a done() " + "method, which is required."))
    {
      var pre, post := "Your ", " class has not defined a done() " + "method, which is required.";
      assert '%' !in " class has not defined a done() " && '%' !in "method, which is required.";
      FormatOneConversion(pre, post, className);
      assert pre + className + post
             == "Your " + className + " class has not defined a done() " + "method, which is required.";
      match Format(pre + "%s" + post, className)
      case Success(message) => Failure(NotImplementedError(message))
      case Failure(e) => Failure(e)
    }
  }

  /** Constructing a wizard over the steps "info", "address" and "review" succeeds and keeps their order. */
  method ThreeStepWizard() returns (wizard: SessionWizard)
    ensures wizard.id == "w" && wizard.baseSteps == ThreeSteps() && wizard.Valid()
  {
    var steps := ThreeSteps();
    var created := SessionWizard.New("w", ListArgument([StepElement(steps[0]), StepElement(steps[1]), StepElement(steps[2])]));
    assert created.Success? by {
      assert UniqueSlugs(steps);
    }
    wizard := created.value;
    assert wizard.baseSteps == [steps[0], steps[1], steps[2]];
  }

  function ThreeSteps(): seq<Step> {
    [Step("info", FormClass("InfoForm")), Step("address", FormClass("AddressForm")), Step("review", FormClass("ReviewForm"))]
  }

  /**
   * Two sessions against one wizard: a GET without a slug starts the first
   * session at "info" and leaves the second session alone.
   */
  method TwoSessions(wizard: SessionWizard, mine: Session, theirs: Session)
    requires wizard.id == "w" && wizard.baseSteps == ThreeSteps()
    requires mine != theirs && mine.entries == map[]
    modifies mine
  {
    var steps := ThreeSteps();
    var r, _ := wizard.Call(Request("GET", "/wizard/", mine), None);
    DefaultSlugFindsFirstStep(steps, None);
    assert r.Success? && r.value.context.currentStep == Some(steps[0]);
    assert mine.entries["w"] == WizardState(steps, Some(steps[0]), map[]);
    assert theirs.entries == old(theirs.entries);
  }

  /** A GET for "address" in a session that saved data for it hands `_show_form` a form pre-filled with that data. */
  method SavedDataPrefills(wizard: SessionWizard, session: Session)
    requires wizard.id == "w" && wizard.baseSteps == ThreeSteps()
    requires session.entries == map["w" := WizardState(ThreeSteps(), Some(ThreeSteps()[2]), map["address" := map["city" := "Oslo"]])]
    modifies session
  {
    var steps := ThreeSteps();
    var saved := map["city" := "Oslo"];
    FirstWithSlugFindsMember(steps, 1);
    assert DefaultSlug(steps, Some("address")) == Success("address");
    assert FirstWithSlug(steps, "address") == Some(steps[1]);
    assert "city" in saved && saved != map[];
    assert FormFor(steps[1], DictGet(map["address" := saved], "address")) == Form(steps[1].form, Some(saved));
    var r, shown := wizard.Call(Request("GET", "/wizard/address/", session), Some("address"));
    assert r.Success? && shown == Some(Form(FormClass("AddressForm"), Some(saved)));
    assert session.entries["w"].currentStep == Some(steps[1]);
  }

  /** On a new, empty session, a request whose method has no handler is not found, after the session entry is created. */
  method UnhandledMethod(wizard: SessionWizard)
    requires wizard.id == "w" && wizard.baseSteps == ThreeSteps()
  {
    var session := new Session(map[]);
    var r, _ := wizard.Call(Request("PUT", "/wizard/", session), None);
    assert r == Failure(Http404);
    assert session.entries == map["w" := WizardState(ThreeSteps(), Some(ThreeSteps()[0]), map[])];
  }
}
