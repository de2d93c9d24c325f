/** The global loading overlay: a flag and the text shown under the spinner. */
module LoadingContext {
  import opened Wrappers

  const DefaultText := "Memuat..."
  const MissingProvider := "useLoading must be used within a LoadingProvider"

  class LoadingOverlay {
    var loading: bool
    var loadingText: string

    /** The provider's initial state: hidden, with the default text. */
    constructor ()
      ensures !loading && loadingText == DefaultText
    {
      loading := false;
      loadingText := DefaultText;
    }

    /** `showLoading(text = 'Memuat...')`: only an omitted text falls back to the
        default; an empty one is kept. */
    method ShowLoading(text: Option<string>)
      modifies this
      ensures loading
      ensures loadingText == if text.Some? then text.value else DefaultText
    {
      loadingText := if text.Some? then text.value else DefaultText;
      loading := true;
    }

    /** `hideLoading`: back to the initial state, whatever was shown. */
    method HideLoading()
      modifies this
      ensures !loading && loadingText == DefaultText
    {
      loading := false;
      loadingText := DefaultText;
    }
  }

  /** `useLoading`: the context, or the error thrown outside a provider. */
  function UseLoading(context: Option<LoadingOverlay>): (r: Result<LoadingOverlay, string>)
    ensures r.Success? <==> context.Some?
    ensures r.Success? ==> r.value == context.value
    ensures r.Failure? ==> r.error == MissingProvider
  {
    match context
    case Some(overlay) => Success(overlay)
    case None => Failure(MissingProvider)
  }
}
