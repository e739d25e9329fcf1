/** The note-list screen's view-model: it folds the repository's outcomes for
    "load all notes", "insert a note" and "delete a note" into its screen
    state, the note list and a pending navigation target. */
module NoteViewModels {
  import opened Results
  import opened Entities

  datatype NoteScreenUiState = NoteScreenUiState(
    isLoading: bool,
    note: Option<Note>,
    success: bool,
    error: Option<string>)

  /** A repository call the view-model issues. */
  datatype NoteCall = GetAllNotes | InsertNote(note: Note) | DeleteNoteById(noteId: string)

  /** Everything the view-model holds, as one value. `calls` records the
      repository calls issued so far, in order. */
  datatype NoteState = NoteState(
    ui: NoteScreenUiState,
    notes: seq<Note>,
    navigateTo: Option<string>,
    calls: seq<NoteCall>)

  /** One thing that happens to the view-model: a public call, or one
      emission delivered to one of its observers. */
  datatype NoteEvent =
    | LoadAllNotes
    | AddNote(note: Note)
    | DeleteNote(noteId: string)
    | AllNotesEmitted(loaded: Result<seq<Note>>)
    | InsertEmitted(inserted: Result<Note>)
    | DeleteEmitted(deleted: Result<()>)
    | NavigateToNoteDetailCompleted
    | ClearError

  /** The state right after construction: the default screen state, an empty
      list, no pending navigation, and the initial load already requested. */
  function Initial(): (s: NoteState)
    ensures s.ui.isLoading && s.ui.note == None && !s.ui.success && s.ui.error == None
    ensures s.notes == [] && s.navigateTo == None && s.calls == [GetAllNotes]
  {
    NoteState(NoteScreenUiState(true, None, false, None), [], None, [GetAllNotes])
  }

  /** `loadAllNotes()`: subscribe to the repository's list of notes. */
  function Reload(s: NoteState): NoteState {
    s.(calls := s.calls + [GetAllNotes])
  }

  /** The shared `Loading` branch of every observer. */
  function RaiseLoading(s: NoteState): NoteState {
    s.(ui := s.ui.(isLoading := true))
  }

  /** The shared `Error` branch of every observer. */
  function ReportError(s: NoteState, message: string): NoteState {
    s.(ui := s.ui.(isLoading := false, error := Some(message)))
  }

  function OnAllNotes(s: NoteState, r: Result<seq<Note>>): NoteState {
    match r
    case Loading => RaiseLoading(s)
    case Success(list) => s.(ui := s.ui.(isLoading := false, error := None), notes := list)
    case Error(m) => ReportError(s, m)
  }

  function OnInserted(s: NoteState, r: Result<Note>): NoteState {
    match r
    case Loading => RaiseLoading(s)
    case Success(n) =>
      Reload(s.(ui := s.ui.(isLoading := false, error := None, success := true), navigateTo := Some(n.id)))
    case Error(m) => ReportError(s, m)
  }

  function OnDeleted(s: NoteState, r: Result<()>): NoteState {
    match r
    case Loading => RaiseLoading(s)
    case Success(_) => Reload(s.(ui := s.ui.(isLoading := false, error := None, success := true)))
    case Error(m) => ReportError(s, m)
  }

  /** The effect of one event. */
  function Step(s: NoteState, e: NoteEvent): NoteState {
    match e
    case LoadAllNotes => Reload(s)
    case AddNote(n) => s.(calls := s.calls + [InsertNote(n)])
    case DeleteNote(id) => s.(calls := s.calls + [DeleteNoteById(id)])
    case AllNotesEmitted(r) => OnAllNotes(s, r)
    case InsertEmitted(r) => OnInserted(s, r)
    case DeleteEmitted(r) => OnDeleted(s, r)
    case NavigateToNoteDetailCompleted => s.(navigateTo := None)
    case ClearError => s.(ui := s.ui.(error := None))
  }

  /** The effect of a sequence of events, applied in order. */
  function Run(s: NoteState, es: seq<NoteEvent>): NoteState
    decreases |es|
  {
    if es == [] then s else Step(Run(s, es[..|es| - 1]), es[|es| - 1])
  }

  lemma RunSnoc(s: NoteState, es: seq<NoteEvent>, e: NoteEvent)
    ensures Run(s, es + [e]) == Step(Run(s, es), e)
  {
    assert (es + [e])[..|es|] == es;
  }

  /** An emission telling an observer that an add or a delete succeeded. */
  predicate MutationSucceeded(e: NoteEvent) {
    (e.InsertEmitted? && e.inserted.Success?) || (e.DeleteEmitted? && e.deleted.Success?)
  }

  /** The repository calls one event issues, as a reference for the log. */
  function CallsIssued(e: NoteEvent): seq<NoteCall> {
    match e
    case LoadAllNotes => [GetAllNotes]
    case AddNote(n) => [InsertNote(n)]
    case DeleteNote(id) => [DeleteNoteById(id)]
    case _ => if MutationSucceeded(e) then [GetAllNotes] else []
  }

  function AllCallsIssued(es: seq<NoteEvent>): seq<NoteCall>
    decreases |es|
  {
    if es == [] then [] else AllCallsIssued(es[..|es| - 1]) + CallsIssued(es[|es| - 1])
  }

  /** A `Loading` emission in any of the three observers only raises
      `isLoading`; a list, navigation or success flag is never touched. */
  lemma LoadingOnlyRaisesFlag(s: NoteState, e: NoteEvent)
    requires e == AllNotesEmitted(Loading) || e == InsertEmitted(Loading) || e == DeleteEmitted(Loading)
    ensures Step(s, e) == s.(ui := s.ui.(isLoading := true))
  {
  }

  /** A loaded list replaces the old one and clears the error; a failed load
      records its message and keeps the old list. */
  lemma LoadOutcomes(s: NoteState, list: seq<Note>, m: string)
    ensures var t := Step(s, AllNotesEmitted(Success(list)));
      t.notes == list && !t.ui.isLoading && t.ui.error == None && t.ui.success == s.ui.success
      && t.navigateTo == s.navigateTo && t.calls == s.calls
    ensures var t := Step(s, AllNotesEmitted(Error(m)));
      t.notes == s.notes && !t.ui.isLoading && t.ui.error == Some(m) && t.ui.success == s.ui.success
      && t.navigateTo == s.navigateTo && t.calls == s.calls
  {
  }

  /** A successful insert raises `success`, clears the error, points the
      pending navigation at the new note and requests a reload; a successful
      delete does the same except that it leaves the navigation alone. */
  lemma MutationOutcomes(s: NoteState, n: Note, m: string)
    ensures var t := Step(s, InsertEmitted(Success(n)));
      t.ui.success && t.ui.error == None && !t.ui.isLoading && t.navigateTo == Some(n.id)
      && t.notes == s.notes && t.calls == s.calls + [GetAllNotes]
    ensures var t := Step(s, DeleteEmitted(Success(())));
      t.ui.success && t.ui.error == None && !t.ui.isLoading && t.navigateTo == s.navigateTo
      && t.notes == s.notes && t.calls == s.calls + [GetAllNotes]
    ensures var t := Step(s, InsertEmitted(Error(m)));
      t == s.(ui := s.ui.(isLoading := false, error := Some(m)))
    ensures var t := Step(s, DeleteEmitted(Error(m)));
      t == s.(ui := s.ui.(isLoading := false, error := Some(m)))
  {
  }

  /** `success` is set exactly when some add or delete has succeeded (or it
      was already set): no event ever resets it. */
  lemma {:induction false} SuccessFlag(s: NoteState, es: seq<NoteEvent>)
    ensures Run(s, es).ui.success <==> s.ui.success || exists i :: 0 <= i < |es| && MutationSucceeded(es[i])
    decreases |es|
  {
    if es != [] {
      var k := |es| - 1;
      var pre := es[..k];
      SuccessFlag(s, pre);
      if exists i :: 0 <= i < |pre| && MutationSucceeded(pre[i]) {
        var i :| 0 <= i < |pre| && MutationSucceeded(pre[i]);
        assert es[i] == pre[i];
      }
      if exists i :: 0 <= i < |es| && MutationSucceeded(es[i]) {
        var i :| 0 <= i < |es| && MutationSucceeded(es[i]);
        if i < k {
          assert pre[i] == es[i];
        }
      }
    }
  }

  /** The note held in the screen state is never written by any event. */
  lemma {:induction false} ScreenNoteNeverWritten(s: NoteState, es: seq<NoteEvent>)
    ensures Run(s, es).ui.note == s.ui.note
    decreases |es|
  {
    if es != [] {
      ScreenNoteNeverWritten(s, es[..|es| - 1]);
    }
  }

  /** Only a successful load writes the list: without one, the list is the
      one we started with. */
  lemma {:induction false} ListOnlyFromLoads(s: NoteState, es: seq<NoteEvent>)
    requires forall i :: 0 <= i < |es| ==> !(es[i].AllNotesEmitted? && es[i].loaded.Success?)
    ensures Run(s, es).notes == s.notes
    decreases |es|
  {
    if es != [] {
      var k := |es| - 1;
      forall i | 0 <= i < k
        ensures !(es[..k][i].AllNotesEmitted? && es[..k][i].loaded.Success?)
      {
        assert es[..k][i] == es[i];
      }
      ListOnlyFromLoads(s, es[..k]);
    }
  }

  /** The pending navigation target is either the one we started with,
      cleared, or the id of a note some insert returned. */
  lemma {:induction false} NavigationTargetsInsertedNote(s: NoteState, es: seq<NoteEvent>)
    ensures var nav := Run(s, es).navigateTo;
      nav == s.navigateTo || nav == None
      || exists i :: 0 <= i < |es| && es[i].InsertEmitted? && es[i].inserted.Success? && nav == Some(es[i].inserted.data.id)
    decreases |es|
  {
    if es != [] {
      var k := |es| - 1;
      var pre := es[..k];
      NavigationTargetsInsertedNote(s, pre);
      var nav := Run(s, es).navigateTo;
      if nav != Run(s, pre).navigateTo {
        // only the last event can have changed it
        assert nav == None || (es[k].InsertEmitted? && es[k].inserted.Success? && nav == Some(es[k].inserted.data.id));
      } else if nav != s.navigateTo && nav != None {
        var i :| 0 <= i < |pre| && pre[i].InsertEmitted? && pre[i].inserted.Success? && nav == Some(pre[i].inserted.data.id);
        assert es[i] == pre[i];
      }
    }
  }

  /** The call log only grows, and it grows by exactly the calls each event
      issues: one reload per `loadAllNotes()` and per successful add or
      delete, one insert per `addNote`, one delete per `deleteNote`. */
  lemma {:induction false} CallLog(s: NoteState, es: seq<NoteEvent>)
    ensures Run(s, es).calls == s.calls + AllCallsIssued(es)
    decreases |es|
  {
    if es != [] {
      var k := |es| - 1;
      CallLog(s, es[..k]);
      var e := es[k];
      var before := Run(s, es[..k]);
      assert Step(before, e).calls == before.calls + CallsIssued(e) by {
        match e
        case InsertEmitted(r) => {}
        case DeleteEmitted(r) => {}
        case AllNotesEmitted(r) => {}
        case _ => {}
      }
    }
  }

  class NoteViewModel {
    var uiState: NoteScreenUiState
    var listNote: seq<Note>
    var navigateToNoteDetail: Option<string>
    /** Repository calls issued so far, in order. */
    var calls: seq<NoteCall>
    /** Every event applied since construction. */
    ghost var history: seq<NoteEvent>

    function State(): NoteState
      reads this
    {
      NoteState(uiState, listNote, navigateToNoteDetail, calls)
    }

    /** The fields are always the fold of the events applied so far. */
    ghost predicate Valid()
      reads this
    {
      State() == Run(Initial(), history)
    }

    /** Construction, including the `init` block's `loadAllNotes()`. */
    constructor()
      ensures Valid() && history == []
      ensures uiState == NoteScreenUiState(true, None, false, None)
      ensures listNote == [] && navigateToNoteDetail == None && calls == [GetAllNotes]
    {
      uiState := NoteScreenUiState(true, None, false, None);
      listNote := [];
      navigateToNoteDetail := None;
      calls := [GetAllNotes];
      history := [];
    }

    /** Append one event to the history, given that the fields already hold
        its effect. */
    method Record(ghost before: NoteState, e: NoteEvent)
      requires before == Run(Initial(), history)
      requires State() == Step(before, e)
      modifies this`history
      ensures Valid() && history == old(history) + [e]
    {
      RunSnoc(Initial(), history, e);
      history := history + [e];
    }

    method LoadAllNotes()
      requires Valid()
      modifies this
      ensures Valid() && history == old(history) + [NoteEvent.LoadAllNotes]
      ensures calls == old(calls) + [GetAllNotes]
      ensures uiState == old(uiState) && listNote == old(listNote) && navigateToNoteDetail == old(navigateToNoteDetail)
    {
      ghost var before := State();
      calls := calls + [GetAllNotes];
      Record(before, NoteEvent.LoadAllNotes);
    }

    method AddNote(note: Note)
      requires Valid()
      modifies this
      ensures Valid() && history == old(history) + [NoteEvent.AddNote(note)]
      ensures calls == old(calls) + [InsertNote(note)]
      ensures uiState == old(uiState) && listNote == old(listNote) && navigateToNoteDetail == old(navigateToNoteDetail)
    {
      ghost var before := State();
      calls := calls + [InsertNote(note)];
      Record(before, NoteEvent.AddNote(note));
    }

    method DeleteNote(noteId: string)
      requires Valid()
      modifies this
      ensures Valid() && history == old(history) + [NoteEvent.DeleteNote(noteId)]
      ensures calls == old(calls) + [DeleteNoteById(noteId)]
      ensures uiState == old(uiState) && listNote == old(listNote) && navigateToNoteDetail == old(navigateToNoteDetail)
    {
      ghost var before := State();
      calls := calls + [DeleteNoteById(noteId)];
      Record(before, NoteEvent.DeleteNote(noteId));
    }

    /** The observer of `loadAllNotes`. */
    method OnAllNotes(r: Result<seq<Note>>)
      requires Valid()
      modifies this
      ensures Valid() && history == old(history) + [AllNotesEmitted(r)]
      ensures uiState.isLoading == r.Loading?
      ensures uiState.error == (if r.Loading? then old(uiState.error) else if r.Error? then Some(r.error) else None)
      ensures listNote == (if r.Success? then r.data else old(listNote))
      ensures uiState.success == old(uiState.success) && uiState.note == old(uiState.note)
      ensures navigateToNoteDetail == old(navigateToNoteDetail) && calls == old(calls)
    {
      ghost var before := State();
      match r {
        case Loading =>
          uiState := uiState.(isLoading := true);
        case Success(list) =>
          uiState := uiState.(isLoading := false, error := None);
          listNote := list;
        case Error(m) =>
          uiState := uiState.(isLoading := false, error := Some(m));
      }
      Record(before, AllNotesEmitted(r));
    }

    /** The observer of `addNote`. */
    method OnInserted(r: Result<Note>)
      requires Valid()
      modifies this
      ensures Valid() && history == old(history) + [InsertEmitted(r)]
      ensures uiState.isLoading == r.Loading?
      ensures uiState.error == (if r.Loading? then old(uiState.error) else if r.Error? then Some(r.error) else None)
      ensures uiState.success == (old(uiState.success) || r.Success?) && uiState.note == old(uiState.note)
      ensures navigateToNoteDetail == (if r.Success? then Some(r.data.id) else old(navigateToNoteDetail))
      ensures calls == old(calls) + (if r.Success? then [GetAllNotes] else [])
      ensures listNote == old(listNote)
    {
      ghost var before := State();
      match r {
        case Loading =>
          uiState := uiState.(isLoading := true);
        case Success(n) =>
          uiState := uiState.(isLoading := false, error := None, success := true);
          navigateToNoteDetail := Some(n.id);
          calls := calls + [GetAllNotes];
        case Error(m) =>
          uiState := uiState.(isLoading := false, error := Some(m));
      }
      Record(before, InsertEmitted(r));
    }

    /** The observer of `deleteNote`. */
    method OnDeleted(r: Result<()>)
      requires Valid()
      modifies this
      ensures Valid() && history == old(history) + [DeleteEmitted(r)]
      ensures uiState.isLoading == r.Loading?
      ensures uiState.error == (if r.Loading? then old(uiState.error) else if r.Error? then Some(r.error) else None)
      ensures uiState.success == (old(uiState.success) || r.Success?) && uiState.note == old(uiState.note)
      ensures calls == old(calls) + (if r.Success? then [GetAllNotes] else [])
      ensures listNote == old(listNote) && navigateToNoteDetail == old(navigateToNoteDetail)
    {
      ghost var before := State();
      match r {
        case Loading =>
          uiState := uiState.(isLoading := true);
        case Success(_) =>
          uiState := uiState.(isLoading := false, error := None, success := true);
          calls := calls + [GetAllNotes];
        case Error(m) =>
          uiState := uiState.(isLoading := false, error := Some(m));
      }
      Record(before, DeleteEmitted(r));
    }

    method NavigateToNoteDetailCompleted()
      requires Valid()
      modifies this
      ensures Valid() && history == old(history) + [NoteEvent.NavigateToNoteDetailCompleted]
      ensures navigateToNoteDetail == None
      ensures uiState == old(uiState) && listNote == old(listNote) && calls == old(calls)
    {
      ghost var before := State();
      navigateToNoteDetail := None;
      Record(before, NoteEvent.NavigateToNoteDetailCompleted);
    }

    method ClearError()
      requires Valid()
      modifies this
      ensures Valid() && history == old(history) + [NoteEvent.ClearError]
      ensures uiState == old(uiState).(error := None)
      ensures listNote == old(listNote) && navigateToNoteDetail == old(navigateToNoteDetail) && calls == old(calls)
    {
      ghost var before := State();
      uiState := uiState.(error := None);
      Record(before, NoteEvent.ClearError);
    }
  }
}
