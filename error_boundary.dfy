/**
 * The error boundary component: a `{hasError, error}` state, the state
 * derived from a thrown value, the reset handler, and the render choice
 * between the wrapped children and the fallback screen.
 */
module ErrorBoundary {
  import opened Common

  datatype ErrorValue = ErrorValue(message: string)

  /** `error` is `None` for `null`; JavaScript can also throw `null` or `undefined`. */
  datatype BoundaryState = BoundaryState(hasError: bool, error: Option<ErrorValue>)

  const Cleared: BoundaryState := BoundaryState(false, None)

  /** `getDerivedStateFromError`: the new state depends only on what was thrown. */
  function DerivedStateFromError(thrown: Option<ErrorValue>): (st: BoundaryState)
    ensures st.hasError && st.error == thrown
  {
    BoundaryState(true, thrown)
  }

  /** What `render` returns: the children untouched, or the fallback with an optional message. */
  datatype Rendered<C> = ShowChildren(children: C) | ShowFallback(message: Option<string>)

  function Render<C>(st: BoundaryState, children: C): (r: Rendered<C>)
    ensures r.ShowChildren? <==> !st.hasError
    ensures r.ShowChildren? ==> r.children == children
    ensures r.ShowFallback? ==> (r.message.Some? <==> st.error.Some?)
    ensures r.ShowFallback? && r.message.Some? ==> r.message.value == st.error.value.message
  {
    if st.hasError then
      ShowFallback(if st.error.Some? then Some(st.error.value.message) else None)
    else ShowChildren(children)
  }

  class Boundary {
    var state: BoundaryState

    constructor ()
      ensures state == Cleared
    {
      state := Cleared;
    }

    /** React replaces the state with the derived one after a descendant throws. */
    method Capture(thrown: Option<ErrorValue>)
      modifies this
      ensures state == DerivedStateFromError(thrown)
    {
      state := DerivedStateFromError(thrown);
    }

    /** `handleReset`; the navigation to "/" that follows is not part of this model. */
    method HandleReset()
      modifies this
      ensures state == Cleared
    {
      state := BoundaryState(false, None);
    }
  }

  /** After any capture the fallback shows; after a reset the children show again. */
  lemma CaptureThenReset<C>(thrown: Option<ErrorValue>, children: C)
    ensures Render(DerivedStateFromError(thrown), children).ShowFallback?
    ensures Render(DerivedStateFromError(thrown), children).message.Some? <==> thrown.Some?
    ensures Render(Cleared, children) == ShowChildren(children)
  {
  }
}
