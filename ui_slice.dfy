/** The `ui` slice of the Redux store (src/store/features/uiSlice.ts): the
    page-wide loading flag and the text shown with it. Each reducer assigns
    fields of the draft state in place. */
module UiSlice {
  import opened Wrappers
  import opened JsValues

  const DefaultLoadingText: string := "加载中..."

  class UiState {
    var pageLoading: bool
    var loadingText: string

    predicate IsInitial()
      reads this
    {
      !pageLoading && loadingText == DefaultLoadingText
    }

    /** `initialState`. */
    constructor ()
      ensures IsInitial()
    {
      pageLoading := false;
      loadingText := DefaultLoadingText;
    }

    /** `setPageLoading`: only the flag changes. */
    method SetPageLoading(b: bool)
      modifies this`pageLoading
      ensures pageLoading == b
    {
      pageLoading := b;
    }

    /** `setLoadingText`: only the text changes. */
    method SetLoadingText(t: string)
      modifies this`loadingText
      ensures loadingText == t
    {
      loadingText := t;
    }

    /** `startLoading`: the flag is set; the text is replaced only by a
        non-empty payload. */
    method StartLoading(t: Option<string>)
      modifies this
      ensures pageLoading
      ensures loadingText == if TruthyText(t) then t.value else old(loadingText)
    {
      pageLoading := true;
      if TruthyText(t) {
        loadingText := t.value;
      }
    }

    /** `stopLoading`: back to the initial state, whatever came before. */
    method StopLoading()
      modifies this
      ensures IsInitial()
    {
      pageLoading := false;
      loadingText := DefaultLoadingText;
    }
  }
}
