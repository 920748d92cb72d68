/** The two PDF viewers: the document page's viewer (`pdf-viewer.tsx`, with rotation, a page
    input and the server's per-page text) and the upload preview (`pdf-viewer-temp.tsx`, page
    navigation only). Both keep the page count the PDF library reports, the current page, a
    loading flag and an error.

    The viewers' behaviour is one transition function over a state value; the two classes hold
    that state in fields and each handler is proved to perform the transition. */
module PdfViewer {
  import opened Common

  const LoadFailed: string := "Failed to load PDF document"

  /** The state both viewers share. `numPages` is `null` until the library reports a count. */
  datatype ViewerState = ViewerState(
    numPages: Option<nat>,
    pageNumber: int,
    rotation: int,
    loading: bool,
    error: Option<string>)

  /** The state on mount: no count, page 1, no rotation, loading, no error. */
  const Initial: ViewerState := ViewerState(None, 1, 0, true, None)

  /** What can happen to a viewer: a page request, the Prev and Next buttons, a number typed
      into the page input (`parseInt`'s result, `None` for NaN), the rotate button, and the PDF
      library's two callbacks. */
  datatype Event =
    | GoTo(page: int)
    | Prev
    | Next
    | Enter(parsed: Option<int>)
    | Rotate
    | Loaded(count: nat)
    | Failed

  /** `numPages` is truthy: reported and not zero. */
  predicate Known(numPages: Option<nat>) {
    numPages.Some? && numPages.value != 0
  }

  /** The guard of `goToPage`: the page is at least 1 and at most a known page count. */
  predicate Accepts(s: ViewerState, page: int) {
    1 <= page && Known(s.numPages) && page <= s.numPages.value
  }

  /** `parseInt(value) || 1`: NaN and 0 both become the first page. */
  function EntryPage(parsed: Option<int>): (page: int)
    ensures parsed.Some? && parsed.value != 0 ==> page == parsed.value
    ensures parsed.None? || parsed == Some(0) ==> page == 1
  {
    if parsed.Some? && parsed.value != 0 then parsed.value else 1
  }

  /** The Prev button's `disabled`. */
  predicate PrevDisabled(s: ViewerState) {
    s.pageNumber <= 1
  }

  /** The Next button's `disabled`: `numPages ? pageNumber >= numPages : true`. */
  predicate NextDisabled(s: ViewerState) {
    !Known(s.numPages) || s.pageNumber >= s.numPages.value
  }

  /** `goToPage(page)`: the page changes only when the guard accepts it. */
  function GoToPage(s: ViewerState, page: int): ViewerState {
    if Accepts(s, page) then s.(pageNumber := page) else s
  }

  /** The effect of one event. Prev and Next request the neighbouring page through the same
      guard as any other request, so a disabled button would change nothing even if pressed. */
  function Handle(s: ViewerState, e: Event): ViewerState {
    match e
    case GoTo(p) => GoToPage(s, p)
    case Prev => GoToPage(s, s.pageNumber - 1)
    case Next => GoToPage(s, s.pageNumber + 1)
    case Enter(parsed) => GoToPage(s, EntryPage(parsed))
    case Rotate => s.(rotation := (s.rotation + 90) % 360)
    case Loaded(n) => s.(numPages := Some(n), loading := false)
    case Failed => s.(error := Some(LoadFailed), loading := false)
  }

  /** What the viewer keeps true: the page is at least 1, any page past the first lies within a
      known count, and the rotation is a quarter turn. */
  ghost predicate Inv(s: ViewerState) {
    && s.pageNumber >= 1
    && (s.pageNumber > 1 ==> Known(s.numPages) && s.pageNumber <= s.numPages.value)
    && s.rotation in {0, 90, 180, 270}
  }

  lemma InitialInv()
    ensures Inv(Initial)
    ensures PrevDisabled(Initial) && NextDisabled(Initial)
  {
  }

  /** Every event keeps the invariant, the library's count arriving once before any other. */
  lemma InvPreserved(s: ViewerState, e: Event)
    requires Inv(s)
    requires e.Loaded? ==> s.numPages.None?
    ensures Inv(Handle(s, e))
  {
  }

  /** A page request moves to exactly that page when the guard accepts it and changes nothing
      otherwise; in particular it never moves below page 1 or past a known count. */
  lemma GoToSpec(s: ViewerState, p: int)
    ensures Accepts(s, p) ==> Handle(s, GoTo(p)) == s.(pageNumber := p)
    ensures !Accepts(s, p) ==> Handle(s, GoTo(p)) == s
    ensures Handle(s, GoTo(p)).pageNumber != s.pageNumber ==>
      1 <= Handle(s, GoTo(p)).pageNumber <= s.numPages.value
  {
  }

  /** Prev does nothing exactly when it is disabled, and otherwise goes back one page. */
  lemma PrevSpec(s: ViewerState)
    requires Inv(s)
    ensures PrevDisabled(s) ==> Handle(s, Prev) == s
    ensures !PrevDisabled(s) ==> Handle(s, Prev) == s.(pageNumber := s.pageNumber - 1)
  {
  }

  /** Next does nothing exactly when it is disabled, and otherwise goes forward one page. */
  lemma NextSpec(s: ViewerState)
    requires Inv(s)
    ensures NextDisabled(s) ==> Handle(s, Next) == s
    ensures !NextDisabled(s) ==> Handle(s, Next) == s.(pageNumber := s.pageNumber + 1)
  {
  }

  /** Clearing the page input or typing 0 goes to the first page once the count is known. */
  lemma EnterBlankGoesToFirst(s: ViewerState, parsed: Option<int>)
    requires Known(s.numPages)
    requires parsed.None? || parsed == Some(0)
    ensures Handle(s, Enter(parsed)) == s.(pageNumber := 1)
  {
  }

  /** Four quarter turns bring the page back to where it started. */
  lemma FourRotations(s: ViewerState)
    requires Inv(s)
    ensures Handle(Handle(Handle(Handle(s, Rotate), Rotate), Rotate), Rotate) == s
  {
  }

  /** Deliver a sequence of events to a viewer. The library's callbacks come from its
      `<Document>` element, so a Loaded or Failed event only arrives while `mounted` says that
      element is rendered. */
  function Deliver(s: ViewerState, events: seq<Event>, mounted: ViewerState -> bool): ViewerState
    decreases |events|
  {
    if events == [] then s
    else
      var e := events[0];
      var next := if (e.Loaded? || e.Failed?) && !mounted(s) then s else Handle(s, e);
      Deliver(next, events[1..], mounted)
  }

  /** As written: `<Document>` sits in the last branch of `error ? … : loading ? … : …`, so it
      is rendered only when there is no error and loading has finished. */
  predicate MountedAsWritten(s: ViewerState) {
    s.error.None? && !s.loading
  }

  /** The intended rendering: the document element is present whenever there is no error, with
      the loading message shown over it until the library reports. */
  predicate MountedFixed(s: ViewerState) {
    s.error.None?
  }

  function RunAsWritten(events: seq<Event>): ViewerState {
    Deliver(Initial, events, MountedAsWritten)
  }

  function RunFixed(events: seq<Event>): ViewerState {
    Deliver(Initial, events, MountedFixed)
  }

  /** As written, nothing ever clears `loading`: from a loading state without an error, no
      sequence of events ends the loading message, sets a page count or leaves page 1. */
  lemma {:induction false} StuckWhileLoading(s: ViewerState, events: seq<Event>)
    requires s.loading && s.error.None? && s.numPages.None? && s.pageNumber == 1
    ensures Deliver(s, events, MountedAsWritten).loading
    ensures Deliver(s, events, MountedAsWritten).error.None?
    ensures Deliver(s, events, MountedAsWritten).numPages.None?
    ensures Deliver(s, events, MountedAsWritten).pageNumber == 1
    decreases |events|
  {
    if events != [] {
      var e := events[0];
      var next := if (e.Loaded? || e.Failed?) && !MountedAsWritten(s) then s else Handle(s, e);
      assert next.loading && next.error.None? && next.numPages.None? && next.pageNumber == 1;
      StuckWhileLoading(next, events[1..]);
    }
  }

  /** The as-written viewers never show a PDF, whatever the user and the library do. */
  lemma NeverLoads(events: seq<Event>)
    ensures RunAsWritten(events).loading && RunAsWritten(events).numPages.None?
  {
    StuckWhileLoading(Initial, events);
  }

  /** With the document element rendered while loading, the library's report ends the loading
      message: a page count shows the document, a load error shows the error. */
  lemma FixedLoads(n: nat)
    ensures !RunFixed([Loaded(n)]).loading && RunFixed([Loaded(n)]).numPages == Some(n)
    ensures RunFixed([Loaded(n)]).error.None?
    ensures !RunFixed([Failed]).loading && RunFixed([Failed]).error == Some(LoadFailed)
  {
    assert MountedFixed(Initial);
    assert [Loaded(n)][1..] == [] && [Failed][1..] == [];
    assert RunFixed([Loaded(n)]) == Deliver(Handle(Initial, Loaded(n)), [], MountedFixed);
    assert RunFixed([Failed]) == Deliver(Handle(Initial, Failed), [], MountedFixed);
  }

  /** With the corrected rendering, after the count arrives every page from 1 to the count can
      be reached by typing it into the page input. */
  lemma FixedReachesEveryPage(n: nat, p: int)
    requires 1 <= p <= n
    ensures RunFixed([Loaded(n), Enter(Some(p))]).pageNumber == p
  {
    var s1 := Handle(Initial, Loaded(n));
    assert RunFixed([Loaded(n), Enter(Some(p))]) == Deliver(s1, [Enter(Some(p))], MountedFixed);
    assert [Enter(Some(p))][1..] == [];
    assert Deliver(s1, [Enter(Some(p))], MountedFixed) == Deliver(Handle(s1, Enter(Some(p))), [], MountedFixed);
  }

  /** One page's extracted text as the server returns it. */
  datatype DocPage = DocPage(id: string, pageNumber: int, text: string, createdAt: string)

  /** The document page's viewer. The zoom factor is not part of this model. */
  class Viewer {
    const documentId: string
    var numPages: Option<nat>
    var pageNumber: int
    var rotation: int
    var loading: bool
    var error: Option<string>
    var docPages: seq<DocPage>

    function State(): ViewerState
      reads this
    {
      ViewerState(numPages, pageNumber, rotation, loading, error)
    }

    constructor (documentId: string)
      ensures this.documentId == documentId
      ensures State() == Initial && Inv(State()) && docPages == []
    {
      this.documentId := documentId;
      numPages := None;
      pageNumber := 1;
      rotation := 0;
      loading := true;
      error := None;
      docPages := [];
    }

    /** The effect on mount of fetching the per-page text: stored on success, and on failure
        the viewer carries on with none. */
    method FetchPages(reply: Result<seq<DocPage>>)
      modifies this`docPages
      ensures reply.Ok? ==> docPages == reply.value
      ensures reply.Err? ==> docPages == old(docPages)
    {
      if reply.Ok? {
        docPages := reply.value;
      }
    }

    /** `onDocumentLoadSuccess`. */
    method LoadSuccess(n: nat)
      modifies this`numPages, this`loading
      ensures State() == Handle(old(State()), Loaded(n))
    {
      numPages := Some(n);
      loading := false;
    }

    /** `onDocumentLoadError`. */
    method LoadError()
      modifies this`error, this`loading
      ensures State() == Handle(old(State()), Failed)
    {
      error := Some(LoadFailed);
      loading := false;
    }

    /** `goToPage(page)`. */
    method GoToPage(page: int)
      modifies this`pageNumber
      ensures State() == Handle(old(State()), GoTo(page))
    {
      if page >= 1 && numPages.Some? && numPages.value != 0 && page <= numPages.value {
        pageNumber := page;
      }
    }

    method PrevPage()
      requires Inv(State())
      modifies this`pageNumber
      ensures Inv(State())
      ensures State() == Handle(old(State()), Prev)
    {
      InvPreserved(State(), Prev);
      GoToPage(pageNumber - 1);
    }

    method NextPage()
      requires Inv(State())
      modifies this`pageNumber
      ensures Inv(State())
      ensures State() == Handle(old(State()), Next)
    {
      InvPreserved(State(), Next);
      GoToPage(pageNumber + 1);
    }

    /** The page input's `onChange`, given `parseInt` of the text typed. */
    method EnterPage(parsed: Option<int>)
      requires Inv(State())
      modifies this`pageNumber
      ensures Inv(State())
      ensures State() == Handle(old(State()), Enter(parsed))
    {
      InvPreserved(State(), Enter(parsed));
      GoToPage(EntryPage(parsed));
    }

    /** `handleRotate`. */
    method RotatePage()
      requires Inv(State())
      modifies this`rotation
      ensures Inv(State())
      ensures State() == Handle(old(State()), Rotate)
    {
      InvPreserved(State(), Rotate);
      rotation := (rotation + 90) % 360;
    }
  }

  /** The upload preview: the same page navigation without rotation, zoom or page text. */
  class TempViewer {
    var numPages: Option<nat>
    var pageNumber: int
    var loading: bool
    var error: Option<string>

    /** The preview never rotates, so its rotation is always 0. */
    function State(): ViewerState
      reads this
    {
      ViewerState(numPages, pageNumber, 0, loading, error)
    }

    constructor ()
      ensures State() == Initial && Inv(State())
    {
      numPages := None;
      pageNumber := 1;
      loading := true;
      error := None;
    }

    method LoadSuccess(n: nat)
      modifies this`numPages, this`loading
      ensures State() == Handle(old(State()), Loaded(n))
    {
      numPages := Some(n);
      loading := false;
    }

    method LoadError()
      modifies this`error, this`loading
      ensures State() == Handle(old(State()), Failed)
    {
      error := Some(LoadFailed);
      loading := false;
    }

    method GoToPage(page: int)
      modifies this`pageNumber
      ensures State() == Handle(old(State()), GoTo(page))
    {
      if page >= 1 && numPages.Some? && numPages.value != 0 && page <= numPages.value {
        pageNumber := page;
      }
    }

    method PrevPage()
      requires Inv(State())
      modifies this`pageNumber
      ensures Inv(State())
      ensures State() == Handle(old(State()), Prev)
    {
      InvPreserved(State(), Prev);
      GoToPage(pageNumber - 1);
    }

    method NextPage()
      requires Inv(State())
      modifies this`pageNumber
      ensures Inv(State())
      ensures State() == Handle(old(State()), Next)
    {
      InvPreserved(State(), Next);
      GoToPage(pageNumber + 1);
    }
  }
}
