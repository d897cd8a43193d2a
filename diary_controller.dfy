/** The diary resource (app/Http/Controllers/DiaryController.php): index,
    store, show, update and destroy over the table of entries, each answering
    with an HTTP status code.

    The table is a map from id to row. The `date` validation rule is a parameter
    (`dateRule` gives the date a string denotes, or None when the rule rejects
    it); the route-model binding that precedes every action on one entry answers
    404 for an id that is not in the table. */
module DiaryController {
  import opened Common
  import DateOrder

  /** A row of the `diaries` table. */
  datatype Diary = Diary(owner: Id, title: string, content: string, date: Date)

  /** One value of the JSON request body. */
  datatype Field = Absent | Null | Text(s: string) | NonText   // NonText: a number, boolean, array or object

  datatype Input = Input(title: Field, content: Field, date: Field)

  datatype FieldName = TitleField | ContentField | DateField

  /** The validated data: the fields that passed, absent ones left out. */
  datatype Validated = Validated(title: Option<string>, content: Option<string>, date: Option<Date>)

  datatype Validation = Passed(data: Validated) | Rejected(errors: set<FieldName>)

  datatype Entry = Entry(id: Id, diary: Diary)

  datatype Body = One(entry: Entry) | Many(entries: seq<Entry>) | Message(text: string) | Errors(fields: set<FieldName>)

  datatype Response = Response(code: int, body: Body)

  /** `max:255`. */
  const MaxTitleLength := 255

  const Unauthorized := Response(403, Message("Unauthorized"))
  const NotFound := Response(404, Message("Not Found"))

  /** The characters PHP's `trim` removes. */
  predicate IsPhpWhitespace(c: char)
  {
    c == ' ' || c == '\t' || c == '\n' || c == '\r' || c == '\U{0}' || c == '\U{B}'
  }

  /** `required`: present, not null, and not a string that is empty after
      trimming. */
  predicate Filled(f: Field)
  {
    match f
    case Absent => false
    case Null => false
    case Text(s) => exists i :: 0 <= i < |s| && !IsPhpWhitespace(s[i])
    case NonText => true
  }

  /** `string|max:255` on a present value. */
  function TitleRule(f: Field): Option<string>
  {
    if f.Text? && |f.s| <= MaxTitleLength then Some(f.s) else None
  }

  /** `string` on a present value. */
  function ContentRule(f: Field): Option<string>
  {
    if f.Text? then Some(f.s) else None
  }

  /** `date` on a present value. */
  function DateRule(f: Field, dateRule: string -> Option<Date>): Option<Date>
  {
    if f.Text? then dateRule(f.s) else None
  }

  /** The rules of `store`: every field `required`. */
  function ValidateStore(input: Input, dateRule: string -> Option<Date>): (v: Validation)
    ensures v.Passed? <==>
      && input.title.Text? && Filled(input.title) && |input.title.s| <= MaxTitleLength
      && input.content.Text? && Filled(input.content)
      && input.date.Text? && Filled(input.date) && dateRule(input.date.s).Some?
    ensures v.Passed? ==>
      && v.data.title == Some(input.title.s)
      && v.data.content == Some(input.content.s)
      && v.data.date == dateRule(input.date.s)
    ensures v.Rejected? ==> v.errors != {}
    ensures v.Rejected? ==> (TitleField in v.errors <==> !Filled(input.title) || TitleRule(input.title).None?)
    ensures input.title == Absent || input.content == Absent || input.date == Absent ==> v.Rejected?
  {
    var title := if Filled(input.title) then TitleRule(input.title) else None;
    var content := if Filled(input.content) then ContentRule(input.content) else None;
    var date := if Filled(input.date) then DateRule(input.date, dateRule) else None;
    var errors :=
      (if title.None? then {TitleField} else {})
      + (if content.None? then {ContentField} else {})
      + (if date.None? then {DateField} else {});
    if errors == {} then Passed(Validated(title, content, date)) else Rejected(errors)
  }

  /** The rules of `update`: an absent field is skipped and left out of the
      validated data; a present one must pass its rule. */
  function ValidateUpdate(input: Input, dateRule: string -> Option<Date>): (v: Validation)
    ensures v.Passed? <==>
      && (input.title == Absent || (input.title.Text? && |input.title.s| <= MaxTitleLength))
      && (input.content == Absent || input.content.Text?)
      && (input.date == Absent || (input.date.Text? && dateRule(input.date.s).Some?))
    ensures v.Passed? ==>
      && (v.data.title == if input.title == Absent then None else Some(input.title.s))
      && (v.data.content == if input.content == Absent then None else Some(input.content.s))
      && (v.data.date == if input.date == Absent then None else dateRule(input.date.s))
    ensures v.Rejected? ==> v.errors != {}
  {
    var titleOk := input.title == Absent || TitleRule(input.title).Some?;
    var contentOk := input.content == Absent || ContentRule(input.content).Some?;
    var dateOk := input.date == Absent || DateRule(input.date, dateRule).Some?;
    var errors :=
      (if titleOk then {} else {TitleField})
      + (if contentOk then {} else {ContentField})
      + (if dateOk then {} else {DateField});
    if errors != {} then Rejected(errors)
    else
      Passed(Validated(
        if input.title == Absent then None else TitleRule(input.title),
        if input.content == Absent then None else ContentRule(input.content),
        if input.date == Absent then None else DateRule(input.date, dateRule)))
  }

  /** `$diary->update($validatedData)`: the validated fields replace the row's,
      the others and the owner stay. */
  function Patch(d: Diary, data: Validated): Diary
  {
    Diary(d.owner, data.title.GetOr(d.title), data.content.GetOr(d.content), data.date.GetOr(d.date))
  }

  /** An update changes exactly the fields it was given. */
  lemma UpdateTouchesOnlySuppliedFields(d: Diary, input: Input, dateRule: string -> Option<Date>)
    requires ValidateUpdate(input, dateRule).Passed?
    ensures var p := Patch(d, ValidateUpdate(input, dateRule).data);
      && p.owner == d.owner
      && (p.title == if input.title == Absent then d.title else input.title.s)
      && (p.content == if input.content == Absent then d.content else input.content.s)
      && (p.date == if input.date == Absent then d.date else dateRule(input.date.s).value)
  {
  }

  /** An update with no fields at all passes and changes nothing. */
  lemma EmptyUpdateChangesNothing(d: Diary, dateRule: string -> Option<Date>)
    ensures ValidateUpdate(Input(Absent, Absent, Absent), dateRule).Passed?
    ensures Patch(d, ValidateUpdate(Input(Absent, Absent, Absent), dateRule).data) == d
  {
  }

  /** An input `store` accepts passes `update` too. */
  lemma StoreRulesImplyUpdateRules(input: Input, dateRule: string -> Option<Date>)
    requires ValidateStore(input, dateRule).Passed?
    ensures ValidateUpdate(input, dateRule) == ValidateStore(input, dateRule)
  {
  }

  /** The guard in front of `show`, `update` and `destroy`: the route-model
      binding, then the owner check; None lets the action proceed. */
  function OwnedOrRefused(rows: map<Id, Diary>, user: Id, id: Id): (r: Option<Response>)
    ensures r.None? <==> id in rows && rows[id].owner == user
    ensures r == Some(NotFound) <==> id !in rows
    ensures r == Some(Unauthorized) <==> id in rows && rows[id].owner != user
  {
    if id !in rows then Some(NotFound)
    else if rows[id].owner != user then Some(Unauthorized)
    else None
  }

  /** Some entry of `entries` has id `id`. */
  predicate Lists(entries: seq<Entry>, id: Id)
  {
    exists k :: 0 <= k < |entries| && entries[k].id == id
  }

  function EntryDate(e: Entry): Date
  {
    e.diary.date
  }

  /** `s` holds rows of `user` as they are in `rows`, and every row of `user`. */
  predicate ListsExactlyOwned(rows: map<Id, Diary>, user: Id, s: seq<Entry>)
  {
    && (forall k :: 0 <= k < |s| ==> s[k].id in rows && rows[s[k].id] == s[k].diary && s[k].diary.owner == user)
    && (forall id :: id in rows && rows[id].owner == user ==> Lists(s, id))
  }

  /** The `where user_id = ?` of `$request->user()->diaries()`. */
  method SelectOwned(rows: map<Id, Diary>, user: Id) returns (owned: seq<Entry>)
    ensures ListsExactlyOwned(rows, user, owned) && Distinct(owned)
  {
    var pending := rows.Keys;
    owned := [];
    while pending != {}
      invariant pending <= rows.Keys
      invariant forall k :: 0 <= k < |owned| ==>
        owned[k].id in rows && owned[k].id !in pending && rows[owned[k].id] == owned[k].diary && owned[k].diary.owner == user
      invariant forall id :: id in rows && id !in pending && rows[id].owner == user ==> Lists(owned, id)
      invariant Distinct(owned)
      decreases pending
    {
      var id :| id in pending;
      if rows[id].owner == user {
        ghost var before := owned;
        owned := owned + [Entry(id, rows[id])];
        assert owned[|before|].id == id;
        forall id' | Lists(before, id') ensures Lists(owned, id') {
          var k :| 0 <= k < |before| && before[k].id == id';
          assert owned[k] == before[k];
        }
      }
      pending := pending - {id};
    }
  }

  /** Reordering a listing of distinct rows keeps it a listing, with no id twice. */
  lemma PermutedListing(rows: map<Id, Diary>, user: Id, owned: seq<Entry>, r: seq<Entry>)
    requires ListsExactlyOwned(rows, user, owned) && Distinct(owned)
    requires multiset(r) == multiset(owned) && Distinct(r)
    ensures ListsExactlyOwned(rows, user, r)
    ensures forall j, k :: 0 <= j < k < |r| ==> r[j].id != r[k].id
  {
    forall k | 0 <= k < |r| ensures r[k].id in rows && rows[r[k].id] == r[k].diary && r[k].diary.owner == user {
      assert r[k] in multiset(owned);
      var i :| 0 <= i < |owned| && owned[i] == r[k];
    }
    forall id | id in rows && rows[id].owner == user ensures Lists(r, id) {
      assert Lists(owned, id);
      var k :| 0 <= k < |owned| && owned[k].id == id;
      assert owned[k] in multiset(r);
      var k' :| 0 <= k' < |r| && r[k'] == owned[k];
    }
  }

  /** The `diaries` table and its auto-increment counter. */
  class DiaryTable {
    var rows: map<Id, Diary>
    var nextId: Id

    /** Every id in use was handed out by the counter. */
    ghost predicate Valid()
      reads this
    {
      forall id :: id in rows ==> id < nextId
    }

    constructor ()
      ensures Valid() && rows == map[] && nextId == 1
    {
      rows := map[];
      nextId := 1;
    }

    /** `show`: 404 for an unknown id, 403 for another user's entry, the entry
        otherwise. */
    function Show(user: Id, id: Id): (r: Response)
      reads this
      ensures r.code == 200 <==> id in rows && rows[id].owner == user
      ensures r.code == 200 ==> r.body == One(Entry(id, rows[id]))
      ensures r.code != 200 ==> r == OwnedOrRefused(rows, user, id).value
    {
      match OwnedOrRefused(rows, user, id)
      case Some(refusal) => refusal
      case None => Response(200, One(Entry(id, rows[id])))
    }

    /** `index`: exactly the caller's entries, each once, newest date first. */
    method Index(user: Id) returns (r: seq<Entry>)
      ensures ListsExactlyOwned(rows, user, r)
      ensures forall j, k :: 0 <= j < k < |r| ==> r[j].id != r[k].id
      ensures DateOrder.NewestFirst(r, EntryDate)
    {
      var owned := SelectOwned(rows, user);
      r := DateOrder.SortNewestFirst(owned, EntryDate);
      DateOrder.SortNewestFirstCorrect(owned, EntryDate);
      PermutedListing(rows, user, owned, r);
    }

    /** `store`: 422 without any change when validation fails; otherwise one
        new row owned by the caller with the validated fields, and 201. */
    method Store(user: Id, input: Input, dateRule: string -> Option<Date>) returns (r: Response)
      requires Valid()
      modifies this
      ensures Valid()
      ensures r.code == 201 <==> ValidateStore(input, dateRule).Passed?
      ensures r.code != 201 ==> r.code == 422 && rows == old(rows) && nextId == old(nextId)
      ensures r.code == 201 ==>
        var data := ValidateStore(input, dateRule).data;
        var created := Diary(user, data.title.value, data.content.value, data.date.value);
        && old(nextId) !in old(rows)
        && rows == old(rows)[old(nextId) := created]
        && r.body == One(Entry(old(nextId), created))
    {
      match ValidateStore(input, dateRule)
      case Rejected(errors) =>
        r := Response(422, Errors(errors));
      case Passed(data) =>
        var id := nextId;
        var created := Diary(user, data.title.value, data.content.value, data.date.value);
        rows := rows[id := created];
        nextId := nextId + 1;
        r := Response(201, One(Entry(id, created)));
    }

    /** `update`: the owner check comes before validation; the owner's valid
        update replaces only the supplied fields of that one row. */
    method Update(user: Id, id: Id, input: Input, dateRule: string -> Option<Date>) returns (r: Response)
      requires Valid()
      modifies this
      ensures Valid()
      ensures nextId == old(nextId)
      ensures OwnedOrRefused(old(rows), user, id).Some? ==> r == OwnedOrRefused(old(rows), user, id).value && rows == old(rows)
      ensures OwnedOrRefused(old(rows), user, id).None? && ValidateUpdate(input, dateRule).Rejected? ==>
        r == Response(422, Errors(ValidateUpdate(input, dateRule).errors)) && rows == old(rows)
      ensures OwnedOrRefused(old(rows), user, id).None? && ValidateUpdate(input, dateRule).Passed? ==>
        var updated := Patch(old(rows)[id], ValidateUpdate(input, dateRule).data);
        r == Response(200, One(Entry(id, updated))) && rows == old(rows)[id := updated]
    {
      var refusal := OwnedOrRefused(rows, user, id);
      if refusal.Some? {
        return refusal.value;
      }
      match ValidateUpdate(input, dateRule)
      case Rejected(errors) =>
        r := Response(422, Errors(errors));
      case Passed(data) =>
        var updated := Patch(rows[id], data);
        rows := rows[id := updated];
        r := Response(200, One(Entry(id, updated)));
    }

    /** `destroy`: the owner's entry removed, and only that one. */
    method Destroy(user: Id, id: Id) returns (r: Response)
      requires Valid()
      modifies this
      ensures Valid()
      ensures nextId == old(nextId)
      ensures OwnedOrRefused(old(rows), user, id).Some? ==> r == OwnedOrRefused(old(rows), user, id).value && rows == old(rows)
      ensures OwnedOrRefused(old(rows), user, id).None? ==>
        r == Response(200, Message("Diary entry deleted")) && rows == old(rows) - {id}
    {
      var refusal := OwnedOrRefused(rows, user, id);
      if refusal.Some? {
        return refusal.value;
      }
      rows := rows - {id};
      r := Response(200, Message("Diary entry deleted"));
    }
  }
}
