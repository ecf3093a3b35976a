# django-merlin `SessionWizard`, modelled in Dafny

`SessionWizard` (in `src/merlin/wizards/session.py`) is a multi-step form
controller for Django. One instance serves every request. Each user's
progress lives in the request's session, under a key that is the wizard's
own id. The entry under that key (a `WizardState`) holds the session's own
copy of the step list, the current step, and the data saved for each step
slug.

The model covers these parts:

- construction: the argument must be a list whose elements are all `Step`s,
  and the slugs must be unique, checked by comparing the size of the slug
  set with the length of the list;
- the idempotent per-session bootstrap (`_init_wizard`);
- resolving the slug a request is about, with the first step of the
  session's list as the default;
- dispatch on the HTTP method (GET, POST, anything else gives Http404);
- the GET handler (the form it builds is pre-filled when saved data exists);
- first-match step lookup and the update of the current step;
- the URL base built with `str.find` and Python slicing;
- the `done` hook, which always fails.

Files:

- `wrappers.dfy`: `Option` and `Result`.
- `errors.dfy`: the Python exceptions as data: TypeError, ValueError,
  IndexError, AttributeError, Http404, NotImplementedError.
- `pytext.dfy`: the Python string operations the code uses:
  - `str.find`;
  - `str.endswith`;
  - `s[:k]`, including Python's negative bounds;
  - `%` formatting with one string argument.
- `steps.dfy`: `Step`, the constructor argument, the validation, and the
  first-match lookup.
- `session.dfy`:
  - the session state, the `Session` object and the request;
  - the pure parts of `__call__`, `_init_wizard` and `_get_URL_base`;
  - the `SessionWizard` class, whose methods change the session in place;
  - short client methods that drive two sessions.

The session is a class, `Session`, that holds a `map<string, WizardState>`.
`_init_wizard`, `_set_current_step`, `_show_form`, `process_GET` and
`__call__` are methods that modify it. Each one states the whole new map in
terms of the old one, and each keeps the entry invariant `EntryOk`: the
wizard's entry, when present, holds a copy of the (non-empty) base steps and
a current step that is one of them. `id` and `baseSteps` are `const` fields
of the wizard. The constructor can raise, so it is modelled as
`SessionWizard.New`, which returns a `Result`; the class's own constructor
runs only on a validated step list and establishes `Valid()` (unique slugs).
`_get_state` and `get_cleaned_data` are the plain reads `State` and
`GetCleanedData` (the latter is `DictGet` on the saved data); their
behaviour is stated by the contracts that use them.

Points where the code's behaviour is easy to misread. The model follows the
code in each:

- The `index - 1` slice at session.py:92 also drops the `/` before the slug
  when the path has no trailing `/`. So `/wizard/address` gives `/wizard`,
  while `/wizard/address/` gives `/wizard/`.
- `process_POST` is the empty stub at session.py:106-107: it returns None.
- `done` raises TypeError, not NotImplementedError. See Findings.

## Model

| member | source | states |
|---|---|---|
| `Steps.NonSteps` | src/merlin/wizards/session.py:16-17 | the comprehension of elements that are not a `Step` is empty exactly when every element is a `Step` |
| `Steps.StepsOf` | src/merlin/wizards/session.py:28 | the stored step list has the same elements as the argument, in the same order |
| `Steps.SlugSetSize` | src/merlin/wizards/session.py:19-25 | the slug set is never larger than the list, and it has the same size exactly when no two steps share a slug (the duplicate test is sound and complete) |
| `Steps.ValidateSteps` | src/merlin/wizards/session.py:12-25 | a non-list gives TypeError; otherwise any non-`Step` element gives TypeError before slugs are checked; otherwise duplicate slugs give ValueError; success holds exactly when all checks pass, and the result is the argument's steps in order |
| `Steps.Matching` | src/merlin/wizards/session.py:116 | the filtered list holds only steps with the queried slug; it is empty exactly when no step has it; its head is the first such step |
| `Steps.FirstWithSlug` | src/merlin/wizards/session.py:112-119 | None exactly when no step has the slug; otherwise the step at the first index whose slug matches |
| `Steps.FirstWithSlugIsOnlyMatch` | src/merlin/wizards/session.py:112-119 | with unique slugs, the step found is the only step with the queried slug |
| `Steps.FirstWithSlugFindsMember` | src/merlin/wizards/session.py:112-119 | with unique slugs, looking up a listed step's own slug returns that step |
| `PyText.FindFrom` | src/merlin/wizards/session.py:87 | the search from a start index returns the lowest index at or after it where the substring occurs, or -1 when there is none |
| `PyText.Find` | src/merlin/wizards/session.py:87 | `str.find` returns -1 exactly when the substring is absent, and otherwise its first occurrence |
| `PyText.FindIsFirstOccurrence` | src/merlin/wizards/session.py:87 | whenever the substring occurs, `find` reports the index of its first occurrence |
| `PyText.EndsWith` | src/merlin/wizards/session.py:89 | `s.endswith(suffix)` holds exactly when the suffix is no longer than `s` and each of its characters equals the matching character at the end of `s` |
| `PyText.SliceTo` | src/merlin/wizards/session.py:90-92 | `s[:k]` is a prefix of `s` whose length follows Python's rule for negative and out-of-range bounds |
| `PyText.FormatFrom` | src/merlin/wizards/session.py:150-152 | `%` formatting from a scan position fails only with TypeError or ValueError, and never reports an unconverted argument once the argument has been used |
| `PyText.Format` | src/merlin/wizards/session.py:150-152 | `fmt % arg` fails only with TypeError or ValueError; an empty format leaves the argument unconverted (TypeError) |
| `PyText.FormatWithoutConversion` | src/merlin/wizards/session.py:150-152 | `%` applied to a string with no conversion and one unused argument raises TypeError |
| `PyText.FormatOneConversion` | src/merlin/wizards/session.py:150-152 | a string with exactly one `%s` and no other `%` gets the argument substituted at that place |
| `SessionWizards.DictGet` | src/merlin/wizards/session.py:122 | `dict.get(slug, None)`: Some exactly when the key is present, and then the stored value |
| `SessionWizards.InitEntries` | src/merlin/wizards/session.py:58-62 | fails with IndexError exactly when the entry is missing and the step list is empty; otherwise the key is present, no other key is added or changed, an existing entry is kept, and a new entry holds the base steps, the first of them as current step and no saved data |
| `SessionWizards.InitEntriesIdempotent` | src/merlin/wizards/session.py:58-62 | initialising an initialised session changes nothing, so progress is never reset |
| `SessionWizards.DefaultSlug` | src/merlin/wizards/session.py:36-40 | a present, non-empty slug argument is used unchanged; without one, the slug of the first step in the session's list is used, and IndexError is raised when that list is empty |
| `SessionWizards.DefaultSlugFindsFirstStep` | src/merlin/wizards/session.py:36-40 | with no slug argument, looking up the default slug finds the session's first step |
| `SessionWizards.FormFor` | src/merlin/wizards/session.py:98-102 | the form is of the step's form class; it is pre-filled exactly when saved data exists and is non-empty (Python truthiness), and then with exactly that data |
| `SessionWizards.UrlBase` | src/merlin/wizards/session.py:85-92 | the result is always a prefix of the path; with `i` the first occurrence of the slug it is `path[:i]` when the path ends in `/` and `path[:i-1]` otherwise; when the slug is absent it is the degenerate result of Python's negative slice bounds |
| `SessionWizards.SlugFirstAfterBase` | src/merlin/wizards/session.py:87 | in a URL `base + slug + tail`, where `base` ends in `/` and contains no occurrence of the slug, and the slug contains no `/`, the slug first occurs right after `base` |
| `SessionWizards.UrlBaseOfStepPath` | src/merlin/wizards/session.py:85-92 | for such a URL, a trailing `/` gives back `base` exactly; without it the result is `base` less its final `/` |
| `SessionWizards.UrlBaseExamples` | src/merlin/wizards/session.py:85-92 | `/wizard/address/` with slug `address` gives `/wizard/`; `/wizard/address` gives `/wizard` |
| `SessionWizards.UrlBaseEarlierOccurrence` | src/merlin/wizards/session.py:87 | the search is over the whole path, so `/myaddress/address/` with slug `address` gives `/my` |
| `SessionWizards.SessionWizard.New` | src/merlin/wizards/session.py:12-28 | construction fails with exactly the validation error; on success the wizard's id is the given one, its step list is the validated argument, and its slugs are unique |
| `SessionWizards.SessionWizard.constructor` | src/merlin/wizards/session.py:24-28 | runs only once the slugs have been found unique; assigns the id and the step list, and the wizard is `Valid()` |
| `SessionWizards.SessionWizard.GetSteps` | src/merlin/wizards/session.py:109-110 | while the entry invariant holds, the session's copy of the step list equals the base list and is not empty |
| `SessionWizards.SessionWizard.GetStep` | src/merlin/wizards/session.py:112-119 | None exactly when no step in the session's list has the slug; otherwise the step at the first index whose slug matches; for a valid wizard whose entry keeps the invariant, it is the only step with that slug |
| `SessionWizards.SessionWizard.InitWizard` | src/merlin/wizards/session.py:51-62 | the session's new map is the result of `InitEntries` on the old one; on IndexError the session is left unchanged; the entry invariant is kept |
| `SessionWizards.SessionWizard.SetCurrentStep` | src/merlin/wizards/session.py:79-83 | returns the first-match lookup of the slug and stores it as the current step; the step list, the saved data and every other session key are unchanged; the entry invariant is kept |
| `SessionWizards.SessionWizard.ShowForm` | src/merlin/wizards/session.py:67-77 | sets the current step, then renders the empty template with a context holding the current step, no previous or next step, the URL base and the default hook's empty extra context; the form is not part of the response; the entry invariant is kept |
| `SessionWizards.SessionWizard.ProcessGet` | src/merlin/wizards/session.py:94-104 | an unknown slug raises AttributeError before the session is touched; otherwise the form handed to `_show_form` (the ghost result `shown`) is the one `FormFor` builds from the saved data, the response renders the empty template with that step's context, and only the current step changes; the entry invariant is kept |
| `SessionWizards.SessionWizard.ProcessPost` | src/merlin/wizards/session.py:106-107 | returns None and changes nothing |
| `SessionWizards.SessionWizard.Call` | src/merlin/wizards/session.py:30-49 | initialisation always runs first, and its IndexError leaves the session unchanged; the slug is then resolved; GET goes to the GET handler, whose AttributeError becomes Http404, and whose form (`shown`) is the one `FormFor` builds; POST gets None; any other method gets Http404; no key other than the wizard's own changes; the only failures are IndexError and Http404; the entry invariant is kept |
| `SessionWizards.SessionWizard.ProcessShowForm` | src/merlin/wizards/session.py:125-128 | the default context hook has an empty body, so it contributes no extra context (None) |
| `SessionWizards.SessionWizard.GetTemplate` | src/merlin/wizards/session.py:130-135 | the default template hook names the empty template |
| `SessionWizards.SessionWizard.RenderForm` | src/merlin/wizards/session.py:137-142 | the response renders the default (empty) template with the given context, unchanged; the form reaches only `get_template` |
| `SessionWizards.SessionWizard.RenderFormIgnoresForm` | src/merlin/wizards/session.py:137-142 | with the default hooks, a pre-filled form and an empty form give the same response |
| `SessionWizards.SessionWizard.DoneAsWritten` | src/merlin/wizards/session.py:144-152 | as written, `done` always raises TypeError, whatever the class name |
| `SessionWizards.SessionWizard.Done` | src/merlin/wizards/session.py:144-152 | as intended, `done` always raises NotImplementedError whose message names the wizard's class |
| `SessionWizards.ThreeStepWizard` | src/merlin/wizards/session.py:12-28 | a wizard over `info`, `address` and `review` is built, keeps that order, and has unique slugs |

The client methods `TwoSessions`, `SavedDataPrefills` and `UnhandledMethod`
call `Call` through its contract alone. They show four things:

- a GET without a slug starts a fresh session at `info`;
- a second session on the same wizard is left untouched;
- a GET for `address` hands `_show_form` a form pre-filled with the data that session saved;
- a PUT on a newly created, empty session gives Http404 after the session entry has been created.

## Left out

- The id comes from `uuid4()` in the source. Here it is a parameter of `SessionWizard.New`, treated as an opaque key.
- Rendering is delegated to Django (`render_to_response`, `RequestContext`). The default `render_form` hook is modelled as a `Rendered` value holding the template name and the context, the two values it passes to `render_to_response`. The form goes only to `get_template`, which ignores it, and the context built at session.py:71-77 has no form entry, so the default response does not contain the form. The form `process_GET` builds is reported as the ghost result `shown` of `ProcessGet` and `Call`. `RequestContext(request)` is not modelled. `process_show_form` and `get_template` are kept at their defaults (no extra context, the empty template name). Overriding them in subclasses is not modelled.
- Form classes come from code that is not part of this model. `step.form()` and `step.form(initial=...)` are a tagged `Form` value. Form validation is not modelled.
- `Step`, `WizardState` and the rest of `merlin.wizards.utils` are not part of this model.
  - The state is built with `form_data=` at session.py:62 but read as `.data` at session.py:122. The model keeps one saved-data map, `data`.
  - Whether the real `WizardState` has a `data` attribute is not known here. If it does not, every GET would raise AttributeError, which becomes Http404. That case is not modelled.
- The `except AttributeError` around dispatch also catches AttributeErrors raised in code the model does not see: forms, renderer, hooks. Only the AttributeError from `None.form` (an unknown slug) and the one from a missing `process_<method>` handler are modelled.
- Dispatch knows only `process_GET` and `process_POST`. A subclass could add more `process_<METHOD>` handlers; that is not modelled. Methods are compared as the exact strings Django provides (upper case).
- `Call`: every method string other than `GET` and `POST` gives Http404. In the source, a method string such as `show_form` would find the attribute `process_show_form` and call it with two arguments, which raises TypeError rather than Http404. Django upper-cases `request.method`, so such a string cannot reach `__call__` from Django.
- `__call__` ignores positional arguments and every keyword argument except `slug`. The model takes only the optional slug.
- Values of other types stored under other session keys are omitted: the session map holds only `WizardState`s. Other keys are only proved unchanged.
- Django's session persistence is not modelled. In particular, Django does not mark a session modified when an object stored in it is mutated in place. The model treats the session's map as the state every later request sees.
- Concurrency between workers that share one session store is not modelled. It is the host's concern.
- `State`, `GetSteps`, `GetStep`, `GetCleanedData`, `SetCurrentStep`, `ShowForm` and `ProcessGet` require the session entry to exist. If it does not, the source raises KeyError. That cannot happen when they are reached through `__call__`, which initialises the entry first.
- `base_steps[:]` copies the list. A Dafny `seq` is a value, so the aliasing that the copy prevents cannot arise in the model.
- `SessionWizard.constructor`: `self.base_steps = steps` at session.py:28 keeps a reference to the caller's list, not a copy. A caller that later appends a duplicate slug or a non-`Step` object to that list changes the wizard's steps without passing the validation again. The model's `baseSteps` is an immutable `seq`, so this aliasing is not modelled, and `Valid()` holds for the wizard's whole life only in the model.
- `isinstance(steps, list)` and `isinstance(step, Step)` are abstracted by the `StepsArgument` and `Element` datatypes. Subclasses of `list` and `Step` count as a list and a step.
- `PyText.FormatFrom` models only `%s` and `%%`. Any other conversion is reported as an unsupported-format ValueError. Python would treat known conversions such as `%d` differently. Neither format string in the source uses one.
- `process_POST` returns None to Django. The model returns `NoResponse`. What Django then does with a view that returned None is outside the model.

## Findings

| source | as written | input that shows it | evidently intended | confidence | as-written member | corrected member |
|---|---|---|---|---|---|---|
| src/merlin/wizards/session.py:150-152 | `%` binds tighter than `+`, so the class name is formatted into the second literal only, `"method, which is required."`, which has no `%s`; Python raises TypeError (not all arguments converted) | calling `done` on any wizard, e.g. class name `SessionWizard` | NotImplementedError with the message `Your SessionWizard class has not defined a done() method, which is required.` | high (proved on the model; not executed) | `SessionWizards.SessionWizard.DoneAsWritten` | `SessionWizards.SessionWizard.Done` |
