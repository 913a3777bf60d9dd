/** The error boundary around the application: it records a render error,
    shows either the caller's fallback or its own error card, and returns to
    the children when the user asks to try again. React's two catch hooks and
    `setState` merges are written out as transitions on the boundary's state. */
module ErrorBoundary {
  import opened Common
  import opened Text

  /** A thrown `Error`: its `name` and `message`. */
  datatype JsError = JsError(name: string, message: string)

  /** `Error.prototype.toString` (section 20.5.3.4 of ECMA-262): the name and
      message joined by ": ", or whichever of the two is not empty. */
  function ErrorToString(e: JsError): (r: string)
    ensures r == "" <==> e.name == "" && e.message == ""
    ensures StartsWith(r, e.name)
    ensures e.message != "" ==> |r| >= |e.message| && r[|r| - |e.message|..] == e.message
    ensures e.name != "" && e.message != "" ==> |r| == |e.name| + 2 + |e.message|
  {
    if e.name == "" then e.message
    else if e.message == "" then e.name
    else e.name + ": " + e.message
  }

  /** React's error info: the component stack at the throw. */
  datatype ErrorInfo = ErrorInfo(componentStack: string)

  datatype State = State(hasError: bool, error: Option<JsError>, errorInfo: Option<ErrorInfo>, isDarkMode: bool)

  const Initial := State(false, None, None, false)

  /** `getDerivedStateFromError`, merged into the state. */
  function DerivedFromError(s: State, e: JsError): State {
    s.(hasError := true, error := Some(e))
  }

  /** `componentDidCatch`'s `setState`. */
  function DidCatch(s: State, e: JsError, info: ErrorInfo): State {
    s.(error := Some(e), errorInfo := Some(info))
  }

  /** `handleReset`'s `setState`. */
  function Reset(s: State): State {
    s.(hasError := false, error := None, errorInfo := None)
  }

  /** What `render` returns. */
  datatype View =
    | FallbackView(fallback: string)
    | ErrorCard(dark: bool, details: string, stack: Option<string>)
    | ChildrenView

  /** `render`: the caller's fallback when there is an error and the fallback
      is truthy, else the default card when there is an error, else the
      children. The card's details read `error?.toString()`; its stack is shown
      only in development and only once the error info is known. */
  function Render(s: State, fallback: Option<string>, development: bool): View {
    if s.hasError then
      if Truthy(fallback) then FallbackView(fallback.value)
      else ErrorCard(s.isDarkMode,
        if s.error.Some? then ErrorToString(s.error.value) else "",
        if development && s.errorInfo.Some? then Some(s.errorInfo.value.componentStack) else None)
    else ChildrenView
  }

  /** The three branches of `render`, each exactly when its condition holds. */
  lemma RenderBranches(s: State, fallback: Option<string>, development: bool)
    ensures Render(s, fallback, development).ChildrenView? <==> !s.hasError
    ensures Render(s, fallback, development).FallbackView? <==> s.hasError && Truthy(fallback)
    ensures Render(s, fallback, development).ErrorCard? <==> s.hasError && !Truthy(fallback)
    ensures Render(s, fallback, development) == FallbackView(fallback.GetOr(""))
      <== s.hasError && Truthy(fallback)
  {
  }

  /** The card names the caught error, and its stack trace appears exactly
      in development once error info is known: before `componentDidCatch`
      only a stale info could show, after it the new one shows. */
  lemma ErrorCardContents(s: State, e: JsError, info: ErrorInfo, development: bool)
    ensures var v := Render(DerivedFromError(s, e), None, development);
      v.ErrorCard? && v.details == ErrorToString(e) && (v.stack.Some? <==> development && s.errorInfo.Some?)
    ensures var v := Render(DidCatch(DerivedFromError(s, e), e, info), None, development);
      v == ErrorCard(s.isDarkMode, ErrorToString(e), if development then Some(info.componentStack) else None)
  {
  }

  /** After any catch, "Try Again" brings back the children and the theme
      flag is kept; from a clean state a catch followed by a reset leaves
      the state as it was. */
  lemma ResetAfterCatch(s: State, e: JsError, info: ErrorInfo, fallback: Option<string>, development: bool)
    ensures Render(Reset(DidCatch(DerivedFromError(s, e), e, info)), fallback, development) == ChildrenView
    ensures Reset(DidCatch(DerivedFromError(s, e), e, info)).isDarkMode == s.isDarkMode
    ensures !s.hasError && s.error == None && s.errorInfo == None ==>
      Reset(DidCatch(DerivedFromError(s, e), e, info)) == s
  {
  }

  /** The mounted boundary. */
  class Boundary {
    var hasError: bool
    var error: Option<JsError>
    var errorInfo: Option<ErrorInfo>
    var isDarkMode: bool

    function Snapshot(): State
      reads this
    {
      State(hasError, error, errorInfo, isDarkMode)
    }

    constructor ()
      ensures Snapshot() == Initial
    {
      hasError := false;
      error := None;
      errorInfo := None;
      isDarkMode := false;
    }

    /** React applies `getDerivedStateFromError` when a child throws. */
    method ApplyDerivedStateFromError(e: JsError)
      modifies this`hasError, this`error
      ensures Snapshot() == DerivedFromError(old(Snapshot()), e)
    {
      hasError := true;
      error := Some(e);
    }

    /** `componentDidCatch`: the error and its info are stored (the console
        report is left out). */
    method ComponentDidCatch(e: JsError, info: ErrorInfo)
      modifies this`error, this`errorInfo
      ensures Snapshot() == DidCatch(old(Snapshot()), e, info)
    {
      error := Some(e);
      errorInfo := Some(info);
    }

    /** `checkDarkMode`: whether the document root carries the `dark` class
        is passed in. */
    method CheckDarkMode(rootHasDark: bool)
      modifies this`isDarkMode
      ensures Snapshot() == old(Snapshot()).(isDarkMode := rootHasDark)
    {
      isDarkMode := rootHasDark;
    }

    /** `handleReset`: the error is forgotten; the theme flag stays. */
    method HandleReset()
      modifies this`hasError, this`error, this`errorInfo
      ensures Snapshot() == Reset(old(Snapshot()))
    {
      hasError := false;
      error := None;
      errorInfo := None;
    }

    /** `render` on the current state. */
    method RenderNow(fallback: Option<string>, development: bool) returns (v: View)
      ensures v == Render(Snapshot(), fallback, development)
    {
      v := Render(Snapshot(), fallback, development);
    }
  }
}
