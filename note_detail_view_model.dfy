/** The note-detail screen's view-model: it loads one note, exposes its
    title, content, date and emotion as editable fields, and pushes an edited
    copy of the loaded note to the repository. */
module NoteDetailViewModels {
  import opened Results
  import opened Entities

  datatype NoteDetailUiState = NoteDetailUiState(
    isLoading: bool,
    note: Option<Note>,
    error: Option<string>)

  /** How a repository call ended: the note it returned, or the exception it
      threw, whose message may itself be null. */
  datatype Fetch = Fetched(note: Note) | FetchThrew(fetchMessage: Option<string>)
  datatype Write = Written | WriteThrew(writeMessage: Option<string>)

  /** A repository call the view-model issues. */
  datatype DetailCall = GetNoteById(noteId: string) | UpdateLocal(local: Note) | UpdateRemote(remote: Note)

  datatype DetailState = DetailState(
    ui: NoteDetailUiState,
    title: string,
    content: string,
    date: string,
    emotion: Option<string>,
    calls: seq<DetailCall>)

  /** `loadNote` is split at its suspension point: `LoadNote` runs up to the
      repository call, `NoteFetched` runs after it. Each field update carries
      the outcome of the local write it triggers. */
  datatype DetailEvent =
    | LoadNote(noteId: string)
    | NoteFetched(fetch: Fetch)
    | UpdateTitle(newTitle: string, titleWrite: Write)
    | UpdateContent(newContent: string, contentWrite: Write)
    | UpdateEmotion(newEmotion: string, emotionWrite: Write)
    | UpdateRemoteNote(remoteWrite: Write)

  /** Kotlin's `toString()` on a nullable string: the text itself, or "null". */
  function ShowNullable(o: Option<string>): (r: string)
    ensures o.Some? ==> r == o.value
    ensures o.None? ==> r == "null"
  {
    match o
    case Some(v) => v
    case None => "null"
  }

  function Initial(): (s: DetailState)
    ensures s.ui == NoteDetailUiState(true, None, None)
    ensures s.title == "" && s.content == "" && s.date == "" && s.emotion == None && s.calls == []
  {
    DetailState(NoteDetailUiState(true, None, None), "", "", "", None, [])
  }

  /** `note.copy(title = …, content = …, emotion = …)`: the loaded note with
      the three editable fields replaced by the screen's current values. */
  function Edited(n: Note, s: DetailState): (r: Note)
    ensures r.title == Some(s.title) && r.content == Some(s.content) && r.emotion == s.emotion
    ensures r.id == n.id && r.ownerId == n.ownerId && r.createdAt == n.createdAt && r.updatedAt == n.updatedAt
  {
    n.(title := Some(s.title), content := Some(s.content), emotion := s.emotion)
  }

  /** `updateLocalNote` / `updateRemoteNote`: with a loaded note, send its
      edited copy; if that call throws, record the message and nothing else. */
  function PushNote(s: DetailState, remote: bool, w: Write): DetailState {
    match s.ui.note
    case None => s
    case Some(n) =>
      var call := if remote then UpdateRemote(Edited(n, s)) else UpdateLocal(Edited(n, s));
      var t := s.(calls := s.calls + [call]);
      match w
      case Written => t
      case WriteThrew(m) => t.(ui := t.ui.(error := m))
  }

  function Step(s: DetailState, e: DetailEvent): DetailState {
    match e
    case LoadNote(id) => s.(ui := s.ui.(isLoading := true), calls := s.calls + [GetNoteById(id)])
    case NoteFetched(Fetched(n)) =>
      s.(ui := s.ui.(isLoading := false, note := Some(n)),
         title := ShowNullable(n.title), content := ShowNullable(n.content),
         date := ShowNullable(n.createdAt), emotion := n.emotion)
    case NoteFetched(FetchThrew(m)) => s.(ui := s.ui.(isLoading := false, error := m))
    case UpdateTitle(t, w) => PushNote(s.(title := t), false, w)
    case UpdateContent(c, w) => PushNote(s.(content := c), false, w)
    case UpdateEmotion(em, w) => PushNote(s.(emotion := Some(em)), false, w)
    case UpdateRemoteNote(w) => PushNote(s, true, w)
  }

  function Run(s: DetailState, es: seq<DetailEvent>): DetailState
    decreases |es|
  {
    if es == [] then s else Step(Run(s, es[..|es| - 1]), es[|es| - 1])
  }

  lemma RunSnoc(s: DetailState, es: seq<DetailEvent>, e: DetailEvent)
    ensures Run(s, es + [e]) == Step(Run(s, es), e)
  {
    assert (es + [e])[..|es|] == es;
  }

  /** The note that a write call carries, if it is a write. */
  predicate IsWrite(c: DetailCall) {
    c.UpdateLocal? || c.UpdateRemote?
  }

  function CarriedNote(c: DetailCall): Note
    requires IsWrite(c)
  {
    if c.UpdateLocal? then c.local else c.remote
  }

  /** Two notes are the same record when every field the screen does not edit
      agrees. */
  predicate SameRecord(a: Note, b: Note) {
    a.id == b.id && a.ownerId == b.ownerId && a.createdAt == b.createdAt && a.updatedAt == b.updatedAt
  }

  /** A successful fetch fills every editable field from the note, through
      `toString()`, and does not clear an earlier error. */
  lemma FetchSuccess(s: DetailState, n: Note)
    ensures var t := Step(s, NoteFetched(Fetched(n)));
      t.ui == NoteDetailUiState(false, Some(n), s.ui.error)
      && t.title == ShowNullable(n.title) && t.content == ShowNullable(n.content)
      && t.date == ShowNullable(n.createdAt) && t.emotion == n.emotion && t.calls == s.calls
  {
  }

  /** A failed fetch only ends loading and records the message. */
  lemma FetchFailure(s: DetailState, m: Option<string>)
    ensures Step(s, NoteFetched(FetchThrew(m))) == s.(ui := s.ui.(isLoading := false, error := m))
  {
  }

  /** Each field update changes its own field; with no note loaded nothing
      else happens, and with one loaded exactly one local write is issued. */
  lemma FieldUpdates(s: DetailState, v: string, w: Write)
    ensures var t := Step(s, UpdateTitle(v, w));
      t.title == v && t.content == s.content && t.emotion == s.emotion && t.date == s.date && t.ui.isLoading == s.ui.isLoading
    ensures var t := Step(s, UpdateContent(v, w));
      t.content == v && t.title == s.title && t.emotion == s.emotion && t.date == s.date && t.ui.isLoading == s.ui.isLoading
    ensures var t := Step(s, UpdateEmotion(v, w));
      t.emotion == Some(v) && t.title == s.title && t.content == s.content && t.date == s.date && t.ui.isLoading == s.ui.isLoading
    ensures s.ui.note == None ==> Step(s, UpdateTitle(v, w)) == s.(title := v)
    ensures s.ui.note == None ==> Step(s, UpdateRemoteNote(w)) == s
    ensures s.ui.note.Some? ==>
      Step(s, UpdateTitle(v, w)).calls == s.calls + [UpdateLocal(Edited(s.ui.note.value, s.(title := v)))]
  {
  }

  /** A write that throws sets only `error` (to the exception's message);
      one that completes leaves the screen state alone. */
  lemma WriteOutcome(s: DetailState, m: Option<string>)
    requires s.ui.note.Some?
    ensures var t := Step(s, UpdateRemoteNote(WriteThrew(m)));
      t.ui == s.ui.(error := m) && t.title == s.title && t.content == s.content && t.date == s.date && t.emotion == s.emotion
    ensures Step(s, UpdateRemoteNote(Written)).ui == s.ui
  {
  }

  /** Event `i` of `es` is a successful fetch of a note. */
  predicate FetchedAt(es: seq<DetailEvent>, i: int) {
    0 <= i < |es| && es[i].NoteFetched? && es[i].fetch.Fetched?
  }

  /** A call is backed by `es` when, if it is a write, some note fetched in
      `es` is the same record as the note it carries. */
  predicate BackedBy(c: DetailCall, es: seq<DetailEvent>) {
    IsWrite(c) ==> exists i :: 0 <= i < |es| && FetchedAt(es, i) && SameRecord(CarriedNote(c), es[i].fetch.note)
  }

  /** Every write the view-model ever sends is the edited copy of a note it
      had loaded: same id, owner and timestamps as that note, so no write is
      ever sent before a note is loaded. The loaded note, too, is always one
      that a fetch returned. */
  lemma {:induction false} WritesCarryLoadedRecord(s: DetailState, es: seq<DetailEvent>)
    requires s.ui.note == None && s.calls == []
    ensures forall j :: 0 <= j < |Run(s, es).calls| ==> BackedBy(Run(s, es).calls[j], es)
    ensures Run(s, es).ui.note.Some? ==> exists i :: 0 <= i < |es| && FetchedAt(es, i) && Run(s, es).ui.note.value == es[i].fetch.note
    decreases |es|
  {
    if es != [] {
      var k := |es| - 1;
      var pre := es[..k];
      WritesCarryLoadedRecord(s, pre);
      var b := Run(s, pre);
      var t := Run(s, es);
      if b.ui.note.Some? {
        var i :| 0 <= i < |pre| && FetchedAt(pre, i) && b.ui.note.value == pre[i].fetch.note;
        assert es[i] == pre[i];
        assert FetchedAt(es, i);
      }
      assert t.calls[..|b.calls|] == b.calls;
      forall j | 0 <= j < |t.calls|
        ensures BackedBy(t.calls[j], es)
      {
        if IsWrite(t.calls[j]) {
          if j < |b.calls| {
            assert t.calls[j] == b.calls[j];
            assert BackedBy(b.calls[j], pre);
            var i :| 0 <= i < |pre| && FetchedAt(pre, i) && SameRecord(CarriedNote(b.calls[j]), pre[i].fetch.note);
            assert es[i] == pre[i];
            assert FetchedAt(es, i);
          } else {
            // a write appended by the last event edits the note loaded before it
            var i :| 0 <= i < |pre| && FetchedAt(pre, i) && b.ui.note.value == pre[i].fetch.note;
            assert es[i] == pre[i];
            assert FetchedAt(es, i);
          }
        }
      }
    }
  }

  /** `date` is only ever written by a successful fetch. */
  lemma {:induction false} DateOnlyFromFetch(s: DetailState, es: seq<DetailEvent>)
    ensures var d := Run(s, es).date;
      d == s.date || exists i :: 0 <= i < |es| && es[i].NoteFetched? && es[i].fetch.Fetched? && d == ShowNullable(es[i].fetch.note.createdAt)
    decreases |es|
  {
    if es != [] {
      var k := |es| - 1;
      var pre := es[..k];
      DateOnlyFromFetch(s, pre);
      var d := Run(s, es).date;
      if d != Run(s, pre).date {
        assert es[k].NoteFetched? && es[k].fetch.Fetched? && d == ShowNullable(es[k].fetch.note.createdAt);
      } else if d != s.date {
        var i :| 0 <= i < |pre| && pre[i].NoteFetched? && pre[i].fetch.Fetched? && d == ShowNullable(pre[i].fetch.note.createdAt);
        assert es[i] == pre[i];
      }
    }
  }

  class NoteDetailViewModel {
    var uiState: NoteDetailUiState
    var title: string
    var content: string
    var date: string
    var emotion: Option<string>
    var calls: seq<DetailCall>
    ghost var history: seq<DetailEvent>

    function State(): DetailState
      reads this
    {
      DetailState(uiState, title, content, date, emotion, calls)
    }

    ghost predicate Valid()
      reads this
    {
      State() == Run(Initial(), history)
    }

    constructor()
      ensures Valid() && history == []
      ensures uiState == NoteDetailUiState(true, None, None)
      ensures title == "" && content == "" && date == "" && emotion == None && calls == []
    {
      uiState := NoteDetailUiState(true, None, None);
      title, content, date, emotion := "", "", "", None;
      calls := [];
      history := [];
    }

    method Record(ghost before: DetailState, e: DetailEvent)
      requires before == Run(Initial(), history)
      requires State() == Step(before, e)
      modifies this`history
      ensures Valid() && history == old(history) + [e]
    {
      RunSnoc(Initial(), history, e);
      history := history + [e];
    }

    /** `loadNote`, up to its repository call. */
    method LoadNote(noteId: string)
      requires Valid()
      modifies this
      ensures Valid() && history == old(history) + [DetailEvent.LoadNote(noteId)]
      ensures uiState == old(uiState).(isLoading := true) && calls == old(calls) + [GetNoteById(noteId)]
      ensures title == old(title) && content == old(content) && date == old(date) && emotion == old(emotion)
    {
      ghost var before := State();
      uiState := uiState.(isLoading := true);
      calls := calls + [GetNoteById(noteId)];
      Record(before, DetailEvent.LoadNote(noteId));
    }

    /** `loadNote`, after its repository call returned or threw. */
    method OnNoteFetched(f: Fetch)
      requires Valid()
      modifies this
      ensures Valid() && history == old(history) + [NoteFetched(f)]
      ensures !uiState.isLoading && calls == old(calls)
      ensures f.Fetched? ==>
        && uiState.note == Some(f.note) && uiState.error == old(uiState.error)
        && title == ShowNullable(f.note.title) && content == ShowNullable(f.note.content)
        && date == ShowNullable(f.note.createdAt) && emotion == f.note.emotion
      ensures f.FetchThrew? ==>
        && uiState.note == old(uiState.note) && uiState.error == f.fetchMessage
        && title == old(title) && content == old(content) && date == old(date) && emotion == old(emotion)
    {
      ghost var before := State();
      match f {
        case Fetched(n) =>
          uiState := uiState.(isLoading := false, note := Some(n));
          title := ShowNullable(n.title);
          content := ShowNullable(n.content);
          date := ShowNullable(n.createdAt);
          emotion := n.emotion;
        case FetchThrew(m) =>
          uiState := uiState.(isLoading := false, error := m);
      }
      Record(before, NoteFetched(f));
    }

    /** `updateLocalNote` / `updateRemoteNote` on the current fields. */
    method Push(remote: bool, w: Write)
      modifies this`uiState, this`calls
      ensures State() == PushNote(old(State()), remote, w)
    {
      match uiState.note {
        case None =>
        case Some(n) =>
          var edited := n.(title := Some(title), content := Some(content), emotion := emotion);
          calls := calls + [if remote then UpdateRemote(edited) else UpdateLocal(edited)];
          match w {
            case Written =>
            case WriteThrew(m) => uiState := uiState.(error := m);
          }
      }
    }

    method UpdateTitle(newTitle: string, w: Write)
      requires Valid()
      modifies this
      ensures Valid() && history == old(history) + [DetailEvent.UpdateTitle(newTitle, w)]
      ensures title == newTitle && content == old(content) && emotion == old(emotion) && date == old(date)
      ensures uiState.isLoading == old(uiState.isLoading) && uiState.note == old(uiState.note)
      ensures old(uiState.note).None? ==> uiState == old(uiState) && calls == old(calls)
      ensures old(uiState.note).Some? ==> calls == old(calls) + [UpdateLocal(Edited(old(uiState.note).value, State()))]
      ensures old(uiState.note).Some? ==> uiState.error == (if w.WriteThrew? then w.writeMessage else old(uiState.error))
    {
      ghost var before := State();
      title := newTitle;
      Push(false, w);
      Record(before, DetailEvent.UpdateTitle(newTitle, w));
    }

    method UpdateContent(newContent: string, w: Write)
      requires Valid()
      modifies this
      ensures Valid() && history == old(history) + [DetailEvent.UpdateContent(newContent, w)]
      ensures content == newContent && title == old(title) && emotion == old(emotion) && date == old(date)
      ensures uiState.isLoading == old(uiState.isLoading) && uiState.note == old(uiState.note)
      ensures old(uiState.note).None? ==> uiState == old(uiState) && calls == old(calls)
      ensures old(uiState.note).Some? ==> calls == old(calls) + [UpdateLocal(Edited(old(uiState.note).value, State()))]
      ensures old(uiState.note).Some? ==> uiState.error == (if w.WriteThrew? then w.writeMessage else old(uiState.error))
    {
      ghost var before := State();
      content := newContent;
      Push(false, w);
      Record(before, DetailEvent.UpdateContent(newContent, w));
    }

    method UpdateEmotion(newEmotion: string, w: Write)
      requires Valid()
      modifies this
      ensures Valid() && history == old(history) + [DetailEvent.UpdateEmotion(newEmotion, w)]
      ensures emotion == Some(newEmotion) && title == old(title) && content == old(content) && date == old(date)
      ensures uiState.isLoading == old(uiState.isLoading) && uiState.note == old(uiState.note)
      ensures old(uiState.note).None? ==> uiState == old(uiState) && calls == old(calls)
      ensures old(uiState.note).Some? ==> calls == old(calls) + [UpdateLocal(Edited(old(uiState.note).value, State()))]
      ensures old(uiState.note).Some? ==> uiState.error == (if w.WriteThrew? then w.writeMessage else old(uiState.error))
    {
      ghost var before := State();
      emotion := Some(newEmotion);
      Push(false, w);
      Record(before, DetailEvent.UpdateEmotion(newEmotion, w));
    }

    method UpdateRemoteNote(w: Write)
      requires Valid()
      modifies this
      ensures Valid() && history == old(history) + [DetailEvent.UpdateRemoteNote(w)]
      ensures title == old(title) && content == old(content) && emotion == old(emotion) && date == old(date)
      ensures uiState.isLoading == old(uiState.isLoading) && uiState.note == old(uiState.note)
      ensures old(uiState.note).None? ==> uiState == old(uiState) && calls == old(calls)
      ensures old(uiState.note).Some? ==> calls == old(calls) + [UpdateRemote(Edited(old(uiState.note).value, State()))]
      ensures old(uiState.note).Some? ==> uiState.error == (if w.WriteThrew? then w.writeMessage else old(uiState.error))
    {
      ghost var before := State();
      Push(true, w);
      Record(before, DetailEvent.UpdateRemoteNote(w));
    }
  }
}
