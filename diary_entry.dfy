/** The entry editor page (resources/js/pages/DiaryEntry.jsx): the draft, the
    debounced autosave, the manual "Save & Exit" and the create-to-update switch
    of the entry id.

    `Step` is the page's reaction to one event as a function of its state; the
    class `AutosaveController` performs the same reactions field by field, as the
    component's setters and refs do. Server replies are inputs: each request
    completes within the event that issues it. */
module DiaryEntryPage {
  import opened Common

  // ---------------------------------------------------------------------------
  // String.prototype.trim, as far as the title guard needs it

  /** The code points `trim` removes: ECMAScript WhiteSpace and LineTerminator. */
  predicate IsJsWhitespace(c: char)
  {
    c == '\t' || c == '\n' || c == '\U{B}' || c == '\U{C}' || c == '\r' || c == ' '
    || c == '\U{A0}' || c == '\U{1680}' || ('\U{2000}' <= c <= '\U{200A}')
    || c == '\U{2028}' || c == '\U{2029}' || c == '\U{202F}' || c == '\U{205F}'
    || c == '\U{3000}' || c == '\U{FEFF}'
  }

  predicate AllWhitespace(s: string)
  {
    forall i :: 0 <= i < |s| ==> IsJsWhitespace(s[i])
  }

  function TrimStart(s: string): string
  {
    if s != [] && IsJsWhitespace(s[0]) then TrimStart(s[1..]) else s
  }

  function TrimEnd(s: string): string
  {
    if s != [] && IsJsWhitespace(s[|s| - 1]) then TrimEnd(s[..|s| - 1]) else s
  }

  function Trim(s: string): string
  {
    TrimEnd(TrimStart(s))
  }

  /** `!title.trim()`: the guard of the autosave effect, of `performAutoSave`
      and of `handleSave`. */
  predicate IsBlank(title: string)
  {
    Trim(title) == ""
  }

  lemma {:induction false} TrimStartEmpty(s: string)
    ensures TrimStart(s) == "" <==> AllWhitespace(s)
    ensures TrimStart(s) != "" ==> !IsJsWhitespace(TrimStart(s)[0])
  {
    if s != [] && IsJsWhitespace(s[0]) {
      TrimStartEmpty(s[1..]);
      assert forall i :: 0 < i < |s| ==> s[i] == s[1..][i - 1];
    }
  }

  lemma {:induction false} TrimEndEmpty(s: string)
    ensures TrimEnd(s) == "" <==> AllWhitespace(s)
  {
    if s != [] && IsJsWhitespace(s[|s| - 1]) {
      TrimEndEmpty(s[..|s| - 1]);
      assert forall i :: 0 <= i < |s| - 1 ==> s[i] == s[..|s| - 1][i];
    }
  }

  /** A title is blank exactly when every character of it is whitespace. */
  lemma BlankIffAllWhitespace(s: string)
    ensures IsBlank(s) <==> AllWhitespace(s)
  {
    TrimStartEmpty(s);
    TrimEndEmpty(TrimStart(s));
  }

  // ---------------------------------------------------------------------------
  // State, events and what the page does to the outside world

  datatype Draft = Draft(title: string, content: string, date: Date)

  /** `autoSaveStatus`. */
  datatype Status = Saved | Saving | Unsaved

  /** `POST /diaries` with the draft, or `PUT /diaries/{id}` with the draft. */
  datatype Request = Create(body: Draft) | Update(id: Id, body: Draft)

  /** The server's answer to a request; `id` is the id of the returned entry. */
  datatype Reply = Succeeded(id: Id) | Failed

  datatype Alert = TitleRequired | SaveFailed

  /** `/` and `/entry/{id}`. */
  datatype Location = DashboardUrl | EntryUrl(id: Id)

  /** What one event does outside the page state: the request it sends (at most
      one), the statuses shown in order, the values of `saving` in order, the
      alert, a navigation, and a rewrite of the address bar. */
  datatype Effects = Effects(
    request: Option<Request>,
    statuses: seq<Status>,
    spinner: seq<bool>,
    alert: Option<Alert>,
    navigateTo: Option<Location>,
    replaceUrl: Option<Location>)

  const NoEffects := Effects(None, [], [], None, None, None)

  /** The page state: `diary`, `entryId`, `autoSaveStatus`, `saving`, the ref
      `isInitialLoad`, whether the ref `autoSaveTimeoutRef` holds a timeout that
      has not fired or been cleared, and whether the page is mounted. */
  datatype Editor = Editor(
    draft: Draft,
    entryId: Option<Id>,
    status: Status,
    saving: bool,
    initialLoad: bool,
    timerPending: bool,
    mounted: bool)

  datatype Event =
    | Edit(draft: Draft)        // setDiary: a field input, the rich-text editor, or the fetched entry
    | TimerFired(reply: Reply)  // the 2000 ms timeout runs performAutoSave
    | SaveClicked(reply: Reply) // "Save & Exit" runs handleSave
    | FetchFailed               // GET /diaries/{id} failed: navigate('/')
    | Unmount                   // the user leaves the page

  /** The header text. */
  function Heading(e: Editor): string
  {
    if e.entryId.Some? then "Edit Entry" else "New Entry"
  }

  /** `isEditing`. */
  predicate IsEditing(e: Editor)
  {
    e.entryId.Some?
  }

  /** The first render: an empty draft dated `today`, the route's id if any. */
  function Initial(routeId: Option<Id>, today: Date): Editor
  {
    Editor(Draft("", "", today), routeId, Saved, false, true, false, true)
  }

  /** The body of the autosave effect, run after the previous run's cleanup. */
  function EffectBody(e: Editor): Editor
  {
    if e.initialLoad then e.(initialLoad := false)
    else if IsBlank(e.draft.title) then e
    else e.(status := Unsaved, timerPending := true)
  }

  /** The page once mounted: the first render and the effect's first run. */
  function Mount(routeId: Option<Id>, today: Date): Editor
  {
    EffectBody(Initial(routeId, today))
  }

  /** Leaving the page: the effect's cleanup clears the timeout. */
  function Unmounted(e: Editor): Editor
  {
    e.(mounted := false, timerPending := false)
  }

  /** Create while no id is bound, update of the bound id afterwards. */
  function SaveRequest(e: Editor): Request
  {
    match e.entryId
    case Some(id) => Update(id, e.draft)
    case None => Create(e.draft)
  }

  /** The id after a successful save: a create binds the returned id. */
  function BoundId(entryId: Option<Id>, newId: Id): Option<Id>
  {
    if entryId.Some? then entryId else Some(newId)
  }

  function OnEdit(e: Editor, d: Draft): (Editor, Effects)
  {
    if !e.mounted || d == e.draft then (e, NoEffects)   // no dependency changed: the effect does not run
    else
      var after := EffectBody(e.(draft := d, timerPending := false));
      (after, NoEffects.(statuses := if after.timerPending then [Unsaved] else []))
  }

  /** What `performAutoSave` closes over: the draft and `entryId` of the render
      whose effect run set the timeout. */
  datatype Closure = Closure(draft: Draft, entryId: Option<Id>)

  /** `performAutoSave` as a timeout with closure `c` runs it: the guard and the
      request use the closure's draft and id, the setters act on the page. */
  function OnTimerWith(e: Editor, c: Closure, reply: Reply): (Editor, Effects)
  {
    if !e.mounted || !e.timerPending then (e, NoEffects)
    else
      var fired := e.(timerPending := false);
      if IsBlank(c.draft.title) then (fired, NoEffects)
      else
        var request := Some(match c.entryId { case Some(id) => Update(id, c.draft) case None => Create(c.draft) });
        match reply
        case Failed =>
          (fired.(status := Unsaved), NoEffects.(request := request, statuses := [Saving, Unsaved]))
        case Succeeded(newId) =>
          if c.entryId.Some? then
            (fired.(status := Saved), NoEffects.(request := request, statuses := [Saving, Saved]))
          else
            (fired.(entryId := Some(newId), status := Saved),
             NoEffects.(request := request, statuses := [Saving, Saved], replaceUrl := Some(EntryUrl(newId))))
  }

  /** The timeout firing, read on the page's current draft and id; the lemma
      `TimeoutSeesCurrentPage` shows the closure always holds exactly these. */
  function OnTimer(e: Editor, reply: Reply): (Editor, Effects)
  {
    OnTimerWith(e, Closure(e.draft, e.entryId), reply)
  }

  function OnSave(e: Editor, reply: Reply): (Editor, Effects)
  {
    if !e.mounted || e.saving then (e, NoEffects)   // the button is disabled while saving
    else if IsBlank(e.draft.title) then (e, NoEffects.(alert := Some(TitleRequired)))
    else
      var request := Some(SaveRequest(e));
      match reply
      case Failed =>
        (e, NoEffects.(request := request, spinner := [true, false], alert := Some(SaveFailed)))
      case Succeeded(newId) =>
        (Unmounted(e.(entryId := BoundId(e.entryId, newId), status := Saved)),
         NoEffects.(request := request, statuses := [Saved], spinner := [true, false], navigateTo := Some(DashboardUrl)))
  }

  /** The page's reaction to one event. */
  function Step(e: Editor, ev: Event): (Editor, Effects)
  {
    match ev
    case Edit(d) => OnEdit(e, d)
    case TimerFired(reply) => OnTimer(e, reply)
    case SaveClicked(reply) => OnSave(e, reply)
    case FetchFailed => if e.mounted then (Unmounted(e), NoEffects.(navigateTo := Some(DashboardUrl))) else (e, NoEffects)
    case Unmount => (Unmounted(e), NoEffects)
  }

  /** The reactions to a sequence of events, in order. */
  function Run(e: Editor, evs: seq<Event>): (Editor, seq<Effects>)
    decreases |evs|
  {
    if evs == [] then (e, [])
    else
      var (next, fx) := Step(e, evs[0]);
      var (last, rest) := Run(next, evs[1..]);
      (last, [fx] + rest)
  }

  function Edits(ds: seq<Draft>): (evs: seq<Event>)
    ensures |evs| == |ds| && forall i :: 0 <= i < |ds| ==> evs[i] == Edit(ds[i])
  {
    seq(|ds|, i requires 0 <= i < |ds| => Edit(ds[i]))
  }

  predicate Sends(fx: Effects)
  {
    fx.request.Some?
  }

  predicate NoRequests(fxs: seq<Effects>)
  {
    forall k :: 0 <= k < |fxs| ==> !Sends(fxs[k])
  }

  // ---------------------------------------------------------------------------
  // Invariant of every state between events

  /** Between events no request is in flight, so `saving` is false and the
      status is not `Saving`; a pending timeout always belongs to a mounted page
      whose non-blank draft is shown as unsaved. */
  predicate Inv(e: Editor)
  {
    && !e.saving
    && e.status != Saving
    && !e.initialLoad
    && (e.timerPending ==> e.mounted && !IsBlank(e.draft.title) && e.status == Unsaved)
  }

  lemma MountEstablishesInv(routeId: Option<Id>, today: Date)
    ensures Inv(Mount(routeId, today))
  {
  }

  lemma StepPreservesInv(e: Editor, ev: Event)
    requires Inv(e)
    ensures Inv(Step(e, ev).0)
  {
  }

  lemma {:induction false} RunPreservesInv(e: Editor, evs: seq<Event>)
    requires Inv(e)
    ensures Inv(Run(e, evs).0)
    decreases |evs|
  {
    if evs != [] {
      StepPreservesInv(e, evs[0]);
      RunPreservesInv(Step(e, evs[0]).0, evs[1..]);
    }
  }

  // ---------------------------------------------------------------------------
  // The timeout's closure

  /** The closure in `autoSaveTimeoutRef` after `ev`: a new one, of the render
      holding the new draft, when the effect runs past its guards and sets a
      timeout; otherwise the one before. */
  function Rescheduled(e: Editor, ev: Event, c: Closure): Closure
  {
    if ev.Edit? && e.mounted && !e.initialLoad && ev.draft != e.draft && !IsBlank(ev.draft.title)
    then Closure(ev.draft, e.entryId)
    else c
  }

  /** The closure after a sequence of events. */
  function RunClosure(e: Editor, evs: seq<Event>, c: Closure): Closure
    decreases |evs|
  {
    if evs == [] then c else RunClosure(Step(e, evs[0]).0, evs[1..], Rescheduled(e, evs[0], c))
  }

  /** While a timeout is pending its closure holds the page's draft and id. */
  predicate ClosureCurrent(e: Editor, c: Closure)
  {
    e.timerPending ==> c == Closure(e.draft, e.entryId)
  }

  lemma StepKeepsClosureCurrent(e: Editor, ev: Event, c: Closure)
    requires ClosureCurrent(e, c)
    ensures ClosureCurrent(Step(e, ev).0, Rescheduled(e, ev, c))
  {
  }

  lemma {:induction false} RunKeepsClosureCurrent(e: Editor, evs: seq<Event>, c: Closure)
    requires ClosureCurrent(e, c)
    ensures ClosureCurrent(Run(e, evs).0, RunClosure(e, evs, c))
    decreases |evs|
  {
    if evs != [] {
      StepKeepsClosureCurrent(e, evs[0], c);
      RunKeepsClosureCurrent(Step(e, evs[0]).0, evs[1..], Rescheduled(e, evs[0], c));
    }
  }

  /** Whatever happened since mounting, the stale closure the timeout runs
      behaves exactly as `performAutoSave` on the current draft and id: it
      never saves an outdated draft or creates an entry twice. */
  lemma TimeoutSeesCurrentPage(routeId: Option<Id>, today: Date, evs: seq<Event>, c: Closure, reply: Reply)
    ensures var page := Run(Mount(routeId, today), evs).0;
      OnTimerWith(page, RunClosure(Mount(routeId, today), evs, c), reply) == OnTimer(page, reply)
  {
    RunKeepsClosureCurrent(Mount(routeId, today), evs, c);
  }

  // ---------------------------------------------------------------------------
  // Properties of single events

  /** The effect's first run only clears `isInitialLoad`: nothing is scheduled
      and the status stays `saved`; `entryId` is the route's id. */
  lemma MountOnlyClearsInitialLoad(routeId: Option<Id>, today: Date)
    ensures Mount(routeId, today) == Initial(routeId, today).(initialLoad := false)
    ensures Mount(routeId, today).entryId == routeId
    ensures IsEditing(Mount(routeId, today)) <==> routeId.Some?
  {
  }

  /** The header shows "Edit Entry" exactly when an id is bound. */
  lemma HeadingShowsEditExactlyWhenBound(e: Editor)
    ensures Heading(e) == "Edit Entry" <==> IsEditing(e)
  {
  }

  /** A change to a blank title schedules nothing and leaves the status alone;
      the previous run's cleanup has still cleared the timeout. */
  lemma BlankEditSchedulesNothing(e: Editor, d: Draft)
    requires e.mounted && !e.initialLoad && d != e.draft && IsBlank(d.title)
    ensures Step(e, Edit(d)) == (e.(draft := d, timerPending := false), NoEffects)
  {
  }

  /** A change with a non-blank title shows `unsaved` and leaves exactly one
      timeout pending, whether or not one was pending before. */
  lemma EditSchedulesOneTimer(e: Editor, d: Draft)
    requires e.mounted && !e.initialLoad && d != e.draft && !IsBlank(d.title)
    ensures Step(e, Edit(d)).0 == e.(draft := d, status := Unsaved, timerPending := true)
    ensures Step(e, Edit(d)).1 == NoEffects.(statuses := [Unsaved])
  {
  }

  /** The autosave never sends a blank title: a pending timeout always finds a
      non-blank draft, and whatever request a save sends carries the draft. */
  lemma RequestsCarryNonBlankDraft(e: Editor, ev: Event)
    requires Inv(e)
    ensures var (_, fx) := Step(e, ev);
      Sends(fx) ==> fx.request.value.body == e.draft && !IsBlank(e.draft.title)
  {
  }

  /** The autosave: `saving` then `saved` on success, `saving` then `unsaved` on
      failure; a create binds the returned id and rewrites the address to
      `/entry/{id}`; with an id bound it updates that id and binds nothing. */
  lemma AutosaveDispatch(e: Editor, reply: Reply)
    requires e.mounted && e.timerPending && !IsBlank(e.draft.title)
    ensures var (after, fx) := Step(e, TimerFired(reply));
      && !after.timerPending && after.draft == e.draft && after.mounted
      && fx.statuses == [Saving, if reply.Succeeded? then Saved else Unsaved]
      && after.status == (if reply.Succeeded? then Saved else Unsaved)
      && (e.entryId.None? ==> fx.request == Some(Create(e.draft)))
      && (e.entryId.Some? ==> fx.request == Some(Update(e.entryId.value, e.draft)))
      && (e.entryId.None? && reply.Succeeded? ==>
            after.entryId == Some(reply.id) && fx.replaceUrl == Some(EntryUrl(reply.id)))
      && (e.entryId.Some? || reply.Failed? ==> after.entryId == e.entryId && fx.replaceUrl == None)
      && fx.navigateTo == None
  {
  }

  /** With no timeout pending, or after unmount, the timer event does nothing. */
  lemma NoTimerNoAutosave(e: Editor, reply: Reply)
    requires !e.timerPending || !e.mounted
    ensures Step(e, TimerFired(reply)) == (e, NoEffects)
  {
  }

  /** Manual save with a blank title: an alert and nothing else. */
  lemma ManualSaveBlankTitle(e: Editor, reply: Reply)
    requires e.mounted && !e.saving && IsBlank(e.draft.title)
    ensures Step(e, SaveClicked(reply)) == (e, NoEffects.(alert := Some(TitleRequired)))
  {
  }

  /** Manual save: `saving` is on during the request and off after it; success
      shows `saved`, binds the id of a create and goes back to `/` (which leaves
      the page); failure alerts and keeps the page, the draft, the status and
      even a pending timeout exactly as they were. */
  lemma ManualSaveOutcome(e: Editor, reply: Reply)
    requires e.mounted && !e.saving && !IsBlank(e.draft.title)
    ensures var (after, fx) := Step(e, SaveClicked(reply));
      && fx.request == Some(SaveRequest(e))
      && fx.spinner == [true, false] && !after.saving
      && (reply.Succeeded? ==>
            && after.status == Saved && after.entryId == BoundId(e.entryId, reply.id)
            && fx.navigateTo == Some(DashboardUrl) && !after.mounted && !after.timerPending
            && fx.alert == None)
      && (reply.Failed? ==> after == e && fx.alert == Some(SaveFailed) && fx.navigateTo == None)
  {
  }

  /** Fetched data for an existing entry is a change like any other: unless
      its title is blank it shows `unsaved` and schedules an autosave. */
  lemma LoadedEntrySchedulesSave(id: Id, today: Date, fetched: Draft)
    requires fetched != Draft("", "", today) && !IsBlank(fetched.title)
    ensures var after := Step(Mount(Some(id), today), Edit(fetched)).0;
      after.timerPending && after.status == Unsaved && after.draft == fetched
    ensures SaveRequest(Step(Mount(Some(id), today), Edit(fetched)).0) == Update(id, fetched)
  {
  }

  // ---------------------------------------------------------------------------
  // Properties of event sequences

  /** Once an id is bound it never changes, and every later request, by the
      autosave or by the manual save, is an update of that id. */
  lemma {:induction false} BoundIdIsPermanent(e: Editor, evs: seq<Event>)
    requires e.entryId.Some?
    ensures var (last, fxs) := Run(e, evs);
      && last.entryId == e.entryId
      && |fxs| == |evs|
      && forall k :: 0 <= k < |fxs| && Sends(fxs[k]) ==>
           fxs[k].request.value.Update? && fxs[k].request.value.id == e.entryId.value
    decreases |evs|
  {
    if evs != [] {
      var (next, fx) := Step(e, evs[0]);
      BoundIdIsPermanent(next, evs[1..]);
    }
  }

  /** An id never goes back to `null`. */
  lemma {:induction false} EntryIdNeverReset(e: Editor, evs: seq<Event>)
    ensures e.entryId.Some? ==> Run(e, evs).0.entryId == e.entryId
    ensures e.entryId.None? && Run(e, evs).0.entryId.None? ==> NoUpdateSent(Run(e, evs).1)
    decreases |evs|
  {
    if e.entryId.Some? {
      BoundIdIsPermanent(e, evs);
    } else if evs != [] {
      var (next, fx) := Step(e, evs[0]);
      EntryIdNeverReset(next, evs[1..]);
    }
  }

  predicate NoUpdateSent(fxs: seq<Effects>)
  {
    forall k :: 0 <= k < |fxs| && Sends(fxs[k]) ==> fxs[k].request.value.Create?
  }

  /** After the page is left nothing happens any more: no request, no change. */
  lemma {:induction false} NothingAfterUnmount(e: Editor, evs: seq<Event>)
    requires !e.mounted
    ensures Run(e, evs).0 == Unmounted(e) || Run(e, evs).0 == e
    ensures NoRequests(Run(e, evs).1)
    decreases |evs|
  {
    if evs != [] {
      var (next, fx) := Step(e, evs[0]);
      assert next == Unmounted(e) || next == e;
      assert !next.mounted && Unmounted(next) == Unmounted(e);
      NothingAfterUnmount(next, evs[1..]);
    }
  }

  /** Without an edit and without a click no save is sent: a page with no
      pending timeout, receiving only timer, fetch-failure and unmount events,
      never autosaves. */
  lemma {:induction false} NoEditNoSave(e: Editor, evs: seq<Event>)
    requires !e.timerPending
    requires forall k :: 0 <= k < |evs| ==> !evs[k].Edit? && !evs[k].SaveClicked?
    ensures Run(e, evs).0 == e || Run(e, evs).0 == Unmounted(e)
    ensures NoRequests(Run(e, evs).1)
    decreases |evs|
  {
    if evs != [] {
      var (next, fx) := Step(e, evs[0]);
      assert !next.timerPending && (next == e || next == Unmounted(e));
      NoEditNoSave(next, evs[1..]);
    }
  }

  function Last<T>(s: seq<T>): T
    requires s != []
  {
    s[|s| - 1]
  }

  /** The draft shown before the last of the edits `ds`. */
  function BeforeLast(e: Editor, ds: seq<Draft>): Draft
    requires ds != []
  {
    if |ds| == 1 then e.draft else ds[|ds| - 2]
  }

  /** Whether a timeout is pending after the edits `ds`, starting from the
      draft `shown` and the pending flag `pending`: an edit equal to the shown
      draft changes nothing, any other edit decides by its title. */
  function PendingAfter(pending: bool, shown: Draft, ds: seq<Draft>): bool
    decreases |ds|
  {
    if ds == [] then pending
    else if ds[0] == shown then PendingAfter(pending, shown, ds[1..])
    else PendingAfter(!IsBlank(ds[0].title), ds[0], ds[1..])
  }

  /** When the last edit is a real change, it alone decides. */
  lemma {:induction false} LastChangeDecides(e: Editor, ds: seq<Draft>)
    requires ds != [] && Last(ds) != BeforeLast(e, ds)
    ensures PendingAfter(e.timerPending, e.draft, ds) == !IsBlank(Last(ds).title)
    decreases |ds|
  {
    if |ds| > 1 {
      var next := e.(draft := ds[0], timerPending := if ds[0] == e.draft then e.timerPending else !IsBlank(ds[0].title));
      assert BeforeLast(next, ds[1..]) == BeforeLast(e, ds);
      LastChangeDecides(next, ds[1..]);
    }
  }

  /** Edits send nothing; the page ends with the last draft, and a timeout is
      pending exactly as `PendingAfter` says. */
  lemma {:induction false} EditsOnlyReschedule(e: Editor, ds: seq<Draft>)
    requires Inv(e) && e.mounted && ds != []
    ensures var (last, fxs) := Run(e, Edits(ds));
      && NoRequests(fxs) && last.mounted && last.draft == Last(ds) && last.entryId == e.entryId
      && (last.timerPending <==> PendingAfter(e.timerPending, e.draft, ds))
    decreases |ds|
  {
    var next := Step(e, Edit(ds[0])).0;
    StepPreservesInv(e, Edit(ds[0]));
    assert Edits(ds)[1..] == Edits(ds[1..]);
    if |ds| > 1 {
      EditsOnlyReschedule(next, ds[1..]);
    }
  }

  /** Debounce coalescing: any burst of edits that leaves a timeout pending
      (in particular one ending with a real change to a draft with a title)
      produces exactly one save when the timeout fires, and it carries the
      final draft; a second firing sends nothing. */
  lemma DebounceCoalesces(e: Editor, ds: seq<Draft>, reply: Reply, reply2: Reply)
    requires Inv(e) && e.mounted && ds != []
    requires PendingAfter(e.timerPending, e.draft, ds)
    ensures var (settled, fxs) := Run(e, Edits(ds));
      var (fired, fx) := Step(settled, TimerFired(reply));
      && NoRequests(fxs)
      && fx.request == Some(SaveRequest(settled))
      && SaveRequest(settled).body == Last(ds)
      && Step(fired, TimerFired(reply2)) == (fired, NoEffects)
  {
    EditsOnlyReschedule(e, ds);
    RunPreservesInv(e, Edits(ds));
  }

  /** A first successful autosave of a new draft creates the entry and binds
      its id; from then on every save of the session is an update of that id. */
  lemma {:induction false} CreateOnceThenUpdate(e: Editor, newId: Id, evs: seq<Event>)
    requires e.mounted && e.timerPending && !IsBlank(e.draft.title) && e.entryId.None?
    ensures var (bound, fx) := Step(e, TimerFired(Succeeded(newId)));
      var (_, fxs) := Run(bound, evs);
      && fx.request == Some(Create(e.draft))
      && bound.entryId == Some(newId)
      && forall k :: 0 <= k < |fxs| && Sends(fxs[k]) ==> fxs[k].request.value == Update(newId, fxs[k].request.value.body)
  {
    var (bound, fx) := Step(e, TimerFired(Succeeded(newId)));
    BoundIdIsPermanent(bound, evs);
  }

  // ---------------------------------------------------------------------------
  // The page as the component holds it

  class AutosaveController {
    var draft: Draft
    var entryId: Option<Id>
    var status: Status
    var saving: bool
    var initialLoad: bool
    var timerPending: bool
    var mounted: bool

    function State(): Editor
      reads this
    {
      Editor(draft, entryId, status, saving, initialLoad, timerPending, mounted)
    }

    /** Mounting: the initial state, then the autosave effect's first run. */
    constructor (routeId: Option<Id>, today: Date)
      ensures State() == Mount(routeId, today) && Inv(State())
    {
      draft := Draft("", "", today);
      entryId := routeId;
      status := Saved;
      saving := false;
      initialLoad := true;
      timerPending := false;
      mounted := true;
      new;
      var _ := RunEffect();
    }

    /** The autosave effect body (lines 45-65). */
    method RunEffect() returns (fx: Effects)
      modifies this
      ensures State() == EffectBody(old(State()))
      ensures fx == NoEffects.(statuses := if old(initialLoad) || IsBlank(draft.title) then [] else [Unsaved])
    {
      if initialLoad {
        initialLoad := false;
        return NoEffects;
      }
      if IsBlank(draft.title) {
        return NoEffects;
      }
      status := Unsaved;
      timerPending := true;   // clearTimeout of the stored handle, then setTimeout
      fx := NoEffects.(statuses := [Unsaved]);
    }

    method ChangeDraft(d: Draft) returns (fx: Effects)
      modifies this
      ensures (State(), fx) == Step(old(State()), Edit(d))
    {
      if !mounted || d == draft {
        return NoEffects;
      }
      draft := d;
      timerPending := false;   // the previous run's cleanup
      fx := RunEffect();
    }

    /** `performAutoSave`, run by the timeout. */
    method TimerFires(reply: Reply) returns (fx: Effects)
      modifies this
      ensures (State(), fx) == Step(old(State()), TimerFired(reply))
    {
      if !mounted || !timerPending {
        return NoEffects;
      }
      timerPending := false;
      if IsBlank(draft.title) {
        return NoEffects;
      }
      status := Saving;
      var request := SaveRequest(State());
      var url := None;
      if reply.Succeeded? {
        if entryId.None? {
          entryId := Some(reply.id);
          url := Some(EntryUrl(reply.id));
        }
        status := Saved;
      } else {
        status := Unsaved;
      }
      fx := NoEffects.(request := Some(request), statuses := [Saving, status], replaceUrl := url);
    }

    /** `handleSave`. */
    method Save(reply: Reply) returns (fx: Effects)
      modifies this
      ensures (State(), fx) == Step(old(State()), SaveClicked(reply))
    {
      if !mounted || saving {
        return NoEffects;
      }
      if IsBlank(draft.title) {
        return NoEffects.(alert := Some(TitleRequired));
      }
      saving := true;
      var request := SaveRequest(State());
      if reply.Succeeded? {
        if entryId.None? {
          entryId := Some(reply.id);
        }
        status := Saved;
        saving := false;
        Leave();
        fx := NoEffects.(request := Some(request), statuses := [Saved], spinner := [true, false],
                         navigateTo := Some(DashboardUrl));
      } else {
        saving := false;
        fx := NoEffects.(request := Some(request), spinner := [true, false], alert := Some(SaveFailed));
      }
    }

    /** `fetchDiary`'s failure branch: back to `/`, which leaves the page. */
    method LoadFailed() returns (fx: Effects)
      modifies this
      ensures (State(), fx) == Step(old(State()), FetchFailed)
    {
      if !mounted {
        return NoEffects;
      }
      Leave();
      fx := NoEffects.(navigateTo := Some(DashboardUrl));
    }

    /** Unmount: the effect's cleanup clears the pending timeout. */
    method Leave()
      modifies this
      ensures State() == Unmounted(old(State()))
    {
      mounted := false;
      timerPending := false;
    }
  }
}
