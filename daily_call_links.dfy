/**
 * The daily call links editor: a list of (date, meeting link) rows read from
 * the `daily_call_links` table newest date first, a dialog to add or edit one
 * row, and a delete action.
 *
 * The table is an object whose rows are keyed by id; its `call_date` column is
 * unique, which the database enforces with error code 23505 (unique_violation,
 * Appendix A "PostgreSQL Error Codes" of the PostgreSQL documentation). Errors
 * that do not depend on the data (network failure, other rejections) are a
 * `fault` parameter carrying the error code; supabase-js reports a network
 * failure with the empty code.
 */
module DailyCallLinks {
  import opened Optional

  datatype CallLink = CallLink(id: int, callDate: string, meetLink: string)

  /** The dialog's two inputs. */
  datatype LinkForm = LinkForm(callDate: string, meetLink: string)

  const EmptyForm: LinkForm := LinkForm("", "")

  // ---------------------------------------------------------------------------
  // Ordering by call date

  /** Strict lexicographic order on the date text; for ISO dates (YYYY-MM-DD)
      it is the chronological order. */
  predicate LexLt(a: string, b: string)
    decreases |a|
  {
    if a == [] then b != []
    else if b == [] then false
    else if a[0] != b[0] then a[0] < b[0]
    else LexLt(a[1..], b[1..])
  }

  /** Two different date strings are ordered one way or the other. */
  lemma {:induction false} LexLtTotal(a: string, b: string)
    requires a != b
    ensures LexLt(a, b) || LexLt(b, a)
    decreases |a|
  {
    if a != [] && b != [] && a[0] == b[0] {
      assert a == [a[0]] + a[1..] && b == [b[0]] + b[1..];
      LexLtTotal(a[1..], b[1..]);
    }
  }

  lemma {:induction false} LexLtTransitive(a: string, b: string, c: string)
    requires LexLt(a, b) && LexLt(b, c)
    ensures LexLt(a, c)
    decreases |a|
  {
    if a != [] && a[0] == b[0] && b[0] == c[0] {
      LexLtTransitive(a[1..], b[1..], c[1..]);
    }
  }

  /** The order is strict: a date is never before itself. */
  lemma {:induction false} LexLtDistinct(a: string, b: string)
    requires LexLt(a, b)
    ensures a != b
    decreases |a|
  {
    if a != [] && a[0] == b[0] {
      LexLtDistinct(a[1..], b[1..]);
    }
  }

  /** Newest date first, no date twice: the order of `order('call_date',
      { ascending: false })` on a table whose dates are unique. */
  predicate SortedByDateDesc(s: seq<CallLink>) {
    forall i, j :: 0 <= i < j < |s| ==> LexLt(s[j].callDate, s[i].callDate)
  }

  /** Places `x` into a list sorted newest first. */
  function InsertByDate(s: seq<CallLink>, x: CallLink): (r: seq<CallLink>)
    requires SortedByDateDesc(s)
    requires forall i :: 0 <= i < |s| ==> s[i].callDate != x.callDate
    ensures |r| == |s| + 1
    ensures forall y :: y in r <==> y in s || y == x
    ensures SortedByDateDesc(r)
  {
    if s == [] then [x]
    else if LexLt(s[0].callDate, x.callDate) then
      InsertedFirstSorted(s, x);
      [x] + s
    else
      var rest := InsertByDate(s[1..], x);
      InsertedAfterHeadSorted(s, x, rest);
      [s[0]] + rest
  }

  /** `x`, newer than the head of a sorted list, is newer than all of it. */
  lemma InsertedFirstSorted(s: seq<CallLink>, x: CallLink)
    requires SortedByDateDesc(s) && s != [] && LexLt(s[0].callDate, x.callDate)
    ensures SortedByDateDesc([x] + s)
  {
    forall j | 1 <= j < |s| + 1
      ensures LexLt(([x] + s)[j].callDate, x.callDate)
    {
      if j > 1 {
        LexLtTransitive(s[j - 1].callDate, s[0].callDate, x.callDate);
      }
    }
  }

  /** When `x` is not newer than the head, the head stays in front. */
  lemma InsertedAfterHeadSorted(s: seq<CallLink>, x: CallLink, rest: seq<CallLink>)
    requires SortedByDateDesc(s) && s != [] && !LexLt(s[0].callDate, x.callDate)
    requires s[0].callDate != x.callDate
    requires SortedByDateDesc(rest)
    requires forall y :: y in rest <==> y in s[1..] || y == x
    ensures SortedByDateDesc([s[0]] + rest)
  {
    LexLtTotal(s[0].callDate, x.callDate);
    forall j | 0 <= j < |rest|
      ensures LexLt(rest[j].callDate, s[0].callDate)
    {
      assert rest[j] in rest;
      if rest[j] != x {
        var k :| 1 <= k < |s| && s[k] == rest[j];
      }
    }
  }

  // ---------------------------------------------------------------------------
  // The table

  /** Rows keyed by id, and the id the next insert receives. */
  datatype Table = Table(rows: map<int, CallLink>, nextId: int)

  /** Every row sits under its own id, below `nextId`, and no two rows share a
      call date (the unique constraint). */
  predicate ValidTable(t: Table) {
    && (forall k :: k in t.rows ==> t.rows[k].id == k && k < t.nextId)
    && (forall a, b :: a in t.rows && b in t.rows && a != b ==> t.rows[a].callDate != t.rows[b].callDate)
  }

  /** Some row other than `except` already has call date `date`. */
  predicate DateTaken(rows: map<int, CallLink>, date: string, except: Option<int>) {
    exists k :: k in rows && rows[k].callDate == date && except != Some(k)
  }

  /** The error code of the unique constraint. */
  const UniqueViolation: string := "23505"

  /** A statement's effect: the table afterwards and the error it reported. */
  datatype Written = Written(table: Table, error: Option<string>)

  /** `insert({ call_date, meet_link })`. */
  function InsertLink(t: Table, form: LinkForm, fault: Option<string>): (w: Written)
    requires ValidTable(t)
    ensures ValidTable(w.table)
    ensures w.error.Some? ==> w.table == t
    ensures fault.Some? ==> w.error == fault
    ensures fault.None? ==> (w.error == Some(UniqueViolation) <==> DateTaken(t.rows, form.callDate, None))
    ensures fault.None? ==> w.error.None? || w.error == Some(UniqueViolation)
    ensures w.error.None? ==>
      t.nextId !in t.rows
      && w.table.rows == t.rows[t.nextId := CallLink(t.nextId, form.callDate, form.meetLink)]
  {
    if fault.Some? then Written(t, fault)
    else if DateTaken(t.rows, form.callDate, None) then Written(t, Some(UniqueViolation))
    else
      var row := CallLink(t.nextId, form.callDate, form.meetLink);
      Written(Table(t.rows[t.nextId := row], t.nextId + 1), None)
  }

  /** `update({ call_date, meet_link }).eq('id', id)`: a missing id matches no
      row and is not an error. */
  function UpdateLink(t: Table, id: int, form: LinkForm, fault: Option<string>): (w: Written)
    requires ValidTable(t)
    ensures ValidTable(w.table)
    ensures w.error.Some? ==> w.table == t
    ensures fault.Some? ==> w.error == fault
    ensures fault.None? ==>
      (w.error == Some(UniqueViolation) <==> id in t.rows && DateTaken(t.rows, form.callDate, Some(id)))
    ensures fault.None? ==> w.error.None? || w.error == Some(UniqueViolation)
    ensures w.error.None? ==> w.table.rows.Keys == t.rows.Keys && w.table.nextId == t.nextId
    ensures w.error.None? ==> forall k :: k in t.rows && k != id ==> w.table.rows[k] == t.rows[k]
    ensures w.error.None? && id in t.rows ==> w.table.rows[id] == CallLink(id, form.callDate, form.meetLink)
  {
    if fault.Some? then Written(t, fault)
    else if id !in t.rows then Written(t, None)
    else if DateTaken(t.rows, form.callDate, Some(id)) then Written(t, Some(UniqueViolation))
    else Written(Table(t.rows[id := CallLink(id, form.callDate, form.meetLink)], t.nextId), None)
  }

  /** `delete().eq('id', id)`. */
  function DeleteLinkRow(t: Table, id: int, fault: Option<string>): (w: Written)
    requires ValidTable(t)
    ensures ValidTable(w.table)
    ensures w.error == fault
    ensures w.error.Some? ==> w.table == t
    ensures w.error.None? ==> w.table.rows == t.rows - {id} && w.table.nextId == t.nextId
  {
    if fault.Some? then Written(t, fault) else Written(Table(t.rows - {id}, t.nextId), None)
  }

  /** Result of the `select * order by call_date desc` query. */
  datatype LinksQuery = Rows(rows: seq<CallLink>) | QueryError(code: string)

  /** The `daily_call_links` table. */
  class CallLinkStore {
    var table: Table

    constructor (t: Table)
      requires ValidTable(t)
      ensures table == t
    {
      table := t;
    }

    /** The list query: every row exactly once, newest date first. */
    method SelectByDateDesc(fault: Option<string>) returns (r: LinksQuery)
      requires ValidTable(table)
      ensures fault.Some? ==> r == QueryError(fault.value)
      ensures fault.None? ==> r.Rows? && SortedByDateDesc(r.rows)
      ensures fault.None? ==> forall k :: k in table.rows ==> table.rows[k] in r.rows
      ensures fault.None? ==> forall y :: y in r.rows ==> y in table.rows.Values
    {
      if fault.Some? {
        return QueryError(fault.value);
      }
      var rows := table.rows;
      var remaining := rows.Keys;
      var out: seq<CallLink> := [];
      while remaining != {}
        invariant remaining <= rows.Keys
        invariant SortedByDateDesc(out)
        invariant forall y :: y in out <==> exists k :: k in rows && k !in remaining && rows[k] == y
        decreases |remaining|
      {
        assert (forall k :: k !in remaining) ==> remaining == {};
        var key :| key in remaining;
        forall i | 0 <= i < |out|
          ensures out[i].callDate != rows[key].callDate
        {
          assert out[i] in out;
          var done :| done in rows && done !in remaining && rows[done] == out[i];
          assert done != key;
        }
        out := InsertByDate(out, rows[key]);
        remaining := remaining - {key};
      }
      forall y | y in out
        ensures y in rows.Values
      {
        var k :| k in rows && rows[k] == y;
      }
      r := Rows(out);
    }
  }

  // ---------------------------------------------------------------------------
  // Pure parts of the component

  const DuplicateDateMessage: string := "Já existe um link para esta data."
  const GenericSaveMessage: string := "Não foi possível salvar o link."

  /** The toast text for a failed save. */
  function SaveErrorMessage(code: string): (m: string)
    ensures m == DuplicateDateMessage || m == GenericSaveMessage
    ensures m == DuplicateDateMessage <==> code == UniqueViolation
  {
    if code == UniqueViolation then DuplicateDateMessage else GenericSaveMessage
  }

  /** The save button is enabled when both inputs are filled. */
  predicate SaveEnabled(form: LinkForm): (e: bool)
    ensures e ==> form != EmptyForm
    ensures e <==> |form.callDate| > 0 && |form.meetLink| > 0
  {
    form.callDate != "" && form.meetLink != ""
  }

  /** The duplicate-date text is shown for a save exactly when the database
      reports the unique violation, which, barring other faults, is exactly
      when another row already has the typed date (an edited row is taken to
      still exist; a vanished one matches nothing and reports no error). */
  lemma DuplicateMessageIffDateTaken(t: Table, editing: Option<int>, form: LinkForm)
    requires ValidTable(t)
    requires editing.Some? ==> editing.value in t.rows
    ensures var w := if editing.Some? then UpdateLink(t, editing.value, form, None)
                     else InsertLink(t, form, None);
      (w.error.Some? && SaveErrorMessage(w.error.value) == DuplicateDateMessage)
      <==> DateTaken(t.rows, form.callDate, editing)
  {
  }

  /** The form `openDialog` fills in: the row's values, or empty inputs. */
  function FormFor(link: Option<CallLink>): (f: LinkForm)
    ensures link.None? ==> f == EmptyForm && !SaveEnabled(f)
    ensures link.Some? ==> f.callDate == link.value.callDate && f.meetLink == link.value.meetLink
  {
    match link
    case None => EmptyForm
    case Some(l) => LinkForm(l.callDate, l.meetLink)
  }

  /** The link text in the table: over 40 characters it is cut to its first 40
      and marked with "...". */
  function LinkLabel(link: string): (r: string)
    ensures |r| <= 43
    ensures |link| <= 40 ==> r == link
    ensures |link| > 40 ==> |r| == 43 && r[..40] == link[..40] && r[40..] == "..."
  {
    if |link| > 40 then link[..40] + "..." else link
  }

  /** Shortening a label again changes nothing. */
  lemma LinkLabelIdempotent(link: string)
    ensures LinkLabel(LinkLabel(link)) == LinkLabel(link)
  {
  }

  // ---------------------------------------------------------------------------
  // The component state and its events

  class CallLinksPanel {
    var links: seq<CallLink>
    var loading: bool
    var dialogOpen: bool
    var editingLink: Option<CallLink>
    var formData: LinkForm

    /** The state at mount. */
    constructor ()
      ensures links == [] && loading
      ensures !dialogOpen && editingLink == None && formData == EmptyForm
    {
      links := [];
      loading := true;
      dialogOpen := false;
      editingLink := None;
      formData := EmptyForm;
    }

    /** The list query completing: rows replace the list, an error keeps it;
        either way `loading` ends false. The dialog is not touched. */
    method FetchLinks(result: LinksQuery)
      modifies this
      ensures !loading
      ensures result.Rows? ==> links == result.rows
      ensures result.QueryError? ==> links == old(links)
      ensures dialogOpen == old(dialogOpen) && editingLink == old(editingLink) && formData == old(formData)
    {
      if result.Rows? {
        links := result.rows;
      }
      loading := false;
    }

    /** `openDialog(link)`: edit that row, or with no row add a new one. */
    method OpenDialog(link: Option<CallLink>)
      modifies this
      ensures dialogOpen && editingLink == link && formData == FormFor(link)
      ensures links == old(links) && loading == old(loading)
    {
      if link.Some? {
        editingLink := link;
        formData := LinkForm(link.value.callDate, link.value.meetLink);
      } else {
        editingLink := None;
        formData := EmptyForm;
      }
      dialogOpen := true;
    }

    /** `closeDialog`: closes and clears the dialog. */
    method CloseDialog()
      modifies this
      ensures !dialogOpen && editingLink == None && formData == EmptyForm
      ensures links == old(links) && loading == old(loading)
    {
      dialogOpen := false;
      editingLink := None;
      formData := EmptyForm;
    }

    /** The dialog's own open/close notification: only the open flag changes,
        so a dialog dismissed this way keeps its editing row and inputs. */
    method SetDialogOpen(open: bool)
      modifies this
      ensures dialogOpen == open
      ensures editingLink == old(editingLink) && formData == old(formData)
      ensures links == old(links) && loading == old(loading)
    {
      dialogOpen := open;
    }

    /** Typing into the date input. */
    method EditCallDate(value: string)
      modifies this
      ensures formData == old(formData).(callDate := value)
      ensures dialogOpen == old(dialogOpen) && editingLink == old(editingLink)
      ensures links == old(links) && loading == old(loading)
    {
      formData := formData.(callDate := value);
    }

    /** Typing into the link input. */
    method EditMeetLink(value: string)
      modifies this
      ensures formData == old(formData).(meetLink := value)
      ensures dialogOpen == old(dialogOpen) && editingLink == old(editingLink)
      ensures links == old(links) && loading == old(loading)
    {
      formData := formData.(meetLink := value);
    }

    /** The dialog's save button, offered when both inputs are filled. When
        editing it updates that row, otherwise it inserts one. On success it
        asks for the list to be reloaded and closes and clears the dialog; on
        failure it reports the message for the error code and leaves the
        dialog as it was. */
    method SaveLink(store: CallLinkStore, fault: Option<string>) returns (reload: bool, message: Option<string>)
      requires ValidTable(store.table)
      requires dialogOpen && SaveEnabled(formData)
      modifies this, store
      ensures ValidTable(store.table)
      ensures links == old(links) && loading == old(loading)
      ensures var w := if old(editingLink).Some?
                       then UpdateLink(old(store.table), old(editingLink).value.id, old(formData), fault)
                       else InsertLink(old(store.table), old(formData), fault);
        && store.table == w.table
        && (w.error.None? ==>
              reload && message == None && !dialogOpen && editingLink == None && formData == EmptyForm)
        && (w.error.Some? ==>
              !reload && message == Some(SaveErrorMessage(w.error.value))
              && dialogOpen && editingLink == old(editingLink) && formData == old(formData))
    {
      var w: Written;
      if editingLink.Some? {
        w := UpdateLink(store.table, editingLink.value.id, formData, fault);
      } else {
        w := InsertLink(store.table, formData, fault);
      }
      store.table := w.table;
      if w.error.None? {
        reload, message := true, None;
        CloseDialog();
      } else {
        reload, message := false, Some(SaveErrorMessage(w.error.value));
      }
    }

    /** The confirmed delete of row `id`: on success the list is to be
        reloaded; on failure nothing changes. The shown list is not touched
        until that reload. */
    method DeleteLink(store: CallLinkStore, id: int, fault: Option<string>) returns (reload: bool)
      requires ValidTable(store.table)
      modifies store
      ensures ValidTable(store.table)
      ensures store.table == DeleteLinkRow(old(store.table), id, fault).table
      ensures reload <==> fault.None?
    {
      var w := DeleteLinkRow(store.table, id, fault);
      store.table := w.table;
      reload := w.error.None?;
    }
  }

  /** Adding a link for a date that already has one: the database refuses it,
      the user is told the date is taken, and the dialog stays open with what
      was typed. */
  method DuplicateDateScenario(date: string, link: string)
    returns (panel: CallLinksPanel, store: CallLinkStore, message: Option<string>)
    requires date != "" && link != ""
    ensures message == Some(DuplicateDateMessage)
    ensures store.table.rows == map[1 := CallLink(1, date, "https://meet.google.com/old")]
    ensures panel.dialogOpen && panel.formData == LinkForm(date, link)
  {
    store := new CallLinkStore(Table(map[1 := CallLink(1, date, "https://meet.google.com/old")], 2));
    panel := new CallLinksPanel();
    panel.OpenDialog(None);
    panel.EditCallDate(date);
    panel.EditMeetLink(link);
    assert DateTaken(store.table.rows, date, None) by {
      assert store.table.rows[1].callDate == date;
    }
    var reload;
    reload, message := panel.SaveLink(store, None);
  }

  /** Adding the first link: the insert succeeds, the dialog closes and
      clears, and the reload that follows shows exactly the new row. */
  method AddLinkScenario(date: string, link: string) returns (panel: CallLinksPanel, store: CallLinkStore)
    requires date != "" && link != ""
    ensures panel.links == [CallLink(1, date, link)]
    ensures !panel.dialogOpen && panel.editingLink == None && panel.formData == EmptyForm
  {
    store := new CallLinkStore(Table(map[], 1));
    panel := new CallLinksPanel();
    panel.OpenDialog(None);
    panel.EditCallDate(date);
    panel.EditMeetLink(link);
    var reload, message := panel.SaveLink(store, None);
    assert store.table.rows == map[1 := CallLink(1, date, link)];
    assert reload;
    var result := store.SelectByDateDesc(None);
    panel.FetchLinks(result);
    assert CallLink(1, date, link) in result.rows;
    assert |result.rows| == 1 by {
      if |result.rows| > 1 {
        assert result.rows[0] in result.rows && result.rows[1] in result.rows;
        LexLtDistinct(result.rows[1].callDate, result.rows[0].callDate);
      }
    }
  }
}
