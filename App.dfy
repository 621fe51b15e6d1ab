/** The application's screen router (App.tsx): three views and the stored draft. The
    confirmation dialog of the editor's back button is the boolean `confirmed`. */
module App {
  import opened Types

  datatype View = Landing | Generator | EditorView

  datatype AppState = AppState(view: View, generatedBlog: Option<BlogPost>)

  function Initial(): AppState {
    AppState(Landing, None)
  }

  lemma InitialState()
    ensures Initial().view == Landing && Initial().generatedBlog == None
  {
  }

  /** startGenerator: the wizard is shown, from whichever view. */
  function GeneratorStarted(s: AppState): (r: AppState)
    ensures r.view == Generator && r.generatedBlog == s.generatedBlog
  {
    s.(view := Generator)
  }

  /** handleGenerationSuccess: the post is stored and the editor shown. */
  function GenerationSucceeded(s: AppState, post: BlogPost): (r: AppState)
    ensures r.view == EditorView && r.generatedBlog == Some(post)
  {
    AppState(EditorView, Some(post))
  }

  /** handleBackToLanding, the wizard's back button. */
  function BackedToLanding(s: AppState): (r: AppState)
    ensures r.view == Landing && r.generatedBlog == s.generatedBlog
  {
    s.(view := Landing)
  }

  /** handleBackToGenerator, the editor's back button: to the wizard only when the user confirms
      the dialog, otherwise nothing changes. The stored post is kept either way. */
  function BackedToGenerator(s: AppState, confirmed: bool): (r: AppState)
    ensures confirmed ==> r.view == Generator && r.generatedBlog == s.generatedBlog
    ensures !confirmed ==> r == s
  {
    if confirmed then s.(view := Generator) else s
  }

  /** The render guard `view === 'editor' && generatedBlog`: the post the editor is mounted
      with, if it is mounted. */
  function ShownEditor(s: AppState): (r: Option<BlogPost>)
    ensures r.Some? <==> s.view == EditorView && s.generatedBlog.Some?
    ensures r.Some? ==> r == s.generatedBlog
  {
    if s.view == EditorView then s.generatedBlog else None
  }

  datatype AppEvent = Start | GenerationSuccess(post: BlogPost) | BackToLanding | BackToGenerator(confirmed: bool)

  function Step(s: AppState, e: AppEvent): AppState {
    match e
    case Start => GeneratorStarted(s)
    case GenerationSuccess(post) => GenerationSucceeded(s, post)
    case BackToLanding => BackedToLanding(s)
    case BackToGenerator(confirmed) => BackedToGenerator(s, confirmed)
  }

  function Run(s: AppState, events: seq<AppEvent>): AppState
    decreases |events|
  {
    if events == [] then s else Run(Step(s, events[0]), events[1..])
  }

  /** The editor view is entered only together with a stored post. */
  predicate Consistent(s: AppState) {
    s.view == EditorView ==> s.generatedBlog.Some?
  }

  /** Along any sequence of handlers the invariant holds, and a stored post is never cleared:
      without a new generation it stays exactly the same. */
  lemma {:induction false} RunKeepsStoredBlog(s: AppState, events: seq<AppEvent>)
    ensures Consistent(s) ==> Consistent(Run(s, events))
    ensures s.generatedBlog.Some? ==> Run(s, events).generatedBlog.Some?
    ensures (forall i :: 0 <= i < |events| ==> !events[i].GenerationSuccess?) ==>
      Run(s, events).generatedBlog == s.generatedBlog
    decreases |events|
  {
    if events != [] {
      RunKeepsStoredBlog(Step(s, events[0]), events[1..]);
      if forall i :: 0 <= i < |events| ==> !events[i].GenerationSuccess? {
        assert !events[0].GenerationSuccess?;
        assert forall i :: 0 <= i < |events[1..]| ==> events[1..][i] == events[i + 1];
      }
    }
  }

  /** In every reachable state the editor is mounted exactly when the view is the editor: the
      second half of the render guard never hides it. */
  lemma ReachableEditorGuard(events: seq<AppEvent>)
    ensures var s := Run(Initial(), events);
      ShownEditor(s).Some? <==> s.view == EditorView
  {
    RunKeepsStoredBlog(Initial(), events);
  }

  class App {
    var view: View
    var generatedBlog: Option<BlogPost>

    function State(): AppState
      reads this
    {
      AppState(view, generatedBlog)
    }

    predicate Valid()
      reads this
    {
      Consistent(State())
    }

    constructor ()
      ensures State() == Initial() && Valid()
    {
      view := Landing;
      generatedBlog := None;
    }

    method StartGenerator()
      requires Valid()
      modifies this
      ensures Valid() && State() == GeneratorStarted(old(State()))
    {
      view := Generator;
    }

    method HandleGenerationSuccess(data: BlogPost)
      requires Valid()
      modifies this
      ensures Valid() && State() == GenerationSucceeded(old(State()), data)
    {
      generatedBlog := Some(data);
      view := EditorView;
    }

    method HandleBackToLanding()
      requires Valid()
      modifies this
      ensures Valid() && State() == BackedToLanding(old(State()))
    {
      view := Landing;
    }

    method HandleBackToGenerator(confirmed: bool)
      requires Valid()
      modifies this
      ensures Valid() && State() == BackedToGenerator(old(State()), confirmed)
    {
      if confirmed {
        view := Generator;
      }
    }
  }
}
