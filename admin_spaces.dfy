/** The admin space editor (app/admin/spaces/page.tsx): one form that
    creates a space, or updates the space being edited, beside the list of
    managed spaces with edit and delete actions. Its state is whether the
    page has mounted, the id being edited, and the form. */
module AdminSpaces {
  import opened Js
  import opened QueryCache
  import opened Spaces

  /** The form's fields. */
  datatype SpaceForm = SpaceForm(name: string, location: string, spaceType: string, imageUrl: string)

  const EmptyForm: SpaceForm := SpaceForm("", "", "MEETING_ROOM", "")
  const SpacesKey: QueryKey := [Str("admin-spaces")]

  const CreatedAlert: string := "✅ 등록 완료!"
  const UpdatedAlert: string := "✨ 수정 완료!"
  const DeletedAlert: string := "🗑️ 삭제되었습니다."
  const DefaultDeleteError: string := "삭제 중 오류가 발생했습니다."

  /** `{ ...form, options: {} }`: the form's fields and an empty options
      object. */
  datatype Payload = Payload(form: SpaceForm, options: map<string, string>)

  datatype SpaceRequest =
    | Post(path: string, payload: Payload)
    | Put(path: string, payload: Payload)
    | Delete(path: string)

  /** The form filled from a space being edited: a missing image URL
      becomes `""`. */
  function FormOf(space: Space): (f: SpaceForm)
    ensures f.name == space.name && f.location == space.location && f.spaceType == space.spaceType
    ensures space.imageUrl.Some? ==> f.imageUrl == space.imageUrl.value
    ensures space.imageUrl.None? ==> f.imageUrl == ""
  {
    SpaceForm(space.name, space.location, space.spaceType, if space.imageUrl.Some? then space.imageUrl.value else "")
  }

  /** Edit mode: the edit heading, the cancel button and the update
      button are shown, which happens exactly when `editingId` is truthy,
      so an id of `0` counts as not editing. */
  predicate EditMode(editingId: Option<int>): (r: bool)
    ensures r <==> editingId.Some? && editingId.value != 0
    ensures editingId == Some(0) ==> !r
  {
    TruthyNumber(editingId)
  }

  /** The create mutation's request. */
  function CreateRequest(form: SpaceForm): (r: SpaceRequest)
    ensures r.Post? && r.path == "/spaces"
    ensures r.payload.form == form && r.payload.options == map[]
  {
    Post("/spaces", Payload(form, map[]))
  }

  /** The update mutation's request: none at all when `editingId` is null
      or `0`. */
  function UpdateRequest(editingId: Option<int>, form: SpaceForm): (r: Option<SpaceRequest>)
    ensures r.Some? <==> editingId.Some? && editingId.value != 0
    ensures r.Some? ==> r.value == Put("/spaces/" + IntToString(editingId.value), Payload(form, map[]))
  {
    if EditMode(editingId) then Some(Put("/spaces/" + IntToString(editingId.value), Payload(form, map[]))) else None
  }

  /** The request sent by the form's visible button: an update in edit
      mode, a create otherwise; both carry the form and empty options. */
  function SubmitRequest(editingId: Option<int>, form: SpaceForm): (r: SpaceRequest)
    ensures r.Put? <==> EditMode(editingId)
    ensures r.Post? <==> !EditMode(editingId)
    ensures r.Post? ==> r.path == "/spaces"
    ensures r.payload == Payload(form, map[])
  {
    if EditMode(editingId) then UpdateRequest(editingId, form).value else CreateRequest(form)
  }

  /** A click on a space's delete button: the request is sent only when
      the confirmation dialog answers yes. */
  function DeleteOnConfirm(space: Space, confirmed: bool): (r: Option<SpaceRequest>)
    ensures r.Some? <==> confirmed
    ensures r.Some? ==> r.value == Delete("/spaces/" + IntToString(space.id))
  {
    if confirmed then Some(Delete("/spaces/" + IntToString(space.id))) else None
  }

  /** The response body of a failed delete, as far as the page looks at it. */
  datatype ErrorBody = NoBody | Text(text: string) | Json(message: Option<string>)

  /** The delete error's message: a text body verbatim (even an empty
      one), else a non-empty `message` field, else the default text. */
  function DeleteErrorMessage(body: ErrorBody): (m: string)
    ensures body.Text? ==> m == body.text
    ensures body.Json? && TruthyString(body.message) ==> m == body.message.value
    ensures body.NoBody? || (body.Json? && !TruthyString(body.message)) ==> m == DefaultDeleteError
  {
    match body
    case Text(t) => t
    case Json(msg) => if TruthyString(msg) then msg.value else DefaultDeleteError
    case NoBody => DefaultDeleteError
  }

  /** The alert of a failed delete: the chosen message after a cross mark. */
  function DeleteErrorAlert(body: ErrorBody): (r: string)
    ensures |r| >= 2 && r[..2] == "❌ "
    ensures body.Text? ==> r[2..] == body.text
    ensures body.Json? && TruthyString(body.message) ==> r[2..] == body.message.value
    ensures body.NoBody? || (body.Json? && !TruthyString(body.message)) ==> r[2..] == DefaultDeleteError
  {
    "❌ " + DeleteErrorMessage(body)
  }

  datatype SubmitButton = CreateButton | UpdateButton

  /** One row of the managed list; the row of the space being edited is
      highlighted (strict equality with `editingId`). */
  datatype Row = Row(spaceId: int, name: string, location: string, highlighted: bool)

  /** What `{editingId && <cancel button>}` puts after the form heading:
      nothing for null, the number itself for the falsy id 0, and the
      cancel button for any other id. */
  datatype HeadingTail = NoTail | StrayNumber(text: string) | CancelButton

  /** The heading tail for an `editingId`. */
  function HeadingTailOf(editingId: Option<int>): (t: HeadingTail)
    ensures t == CancelButton <==> EditMode(editingId)
    ensures t == NoTail <==> editingId.None?
    ensures t.StrayNumber? <==> editingId == Some(0)
    ensures t.StrayNumber? ==> t.text == "0"
  {
    match editingId
    case None => NoTail
    case Some(id) => if id == 0 then StrayNumber(IntToString(id)) else CancelButton
  }

  datatype AdminView =
    | Preparing
    | Loading
    | Page(editMode: bool, headingTail: HeadingTail, submit: SubmitButton, form: SpaceForm, rows: seq<Row>, showEmpty: bool)

  /** The page as rendered. Before mount only a placeholder is shown,
      whatever data there is. */
  function Render(mounted: bool, isLoading: bool, spaces: Option<seq<Space>>, editingId: Option<int>, form: SpaceForm): (v: AdminView)
    ensures !mounted ==> v == Preparing
    ensures mounted && isLoading ==> v == Loading
    ensures mounted && !isLoading ==> v.Page? && v.form == form
    ensures v.Page? ==> (v.editMode <==> EditMode(editingId)) && (v.submit == UpdateButton <==> EditMode(editingId))
    ensures v.Page? ==> v.headingTail == HeadingTailOf(editingId)
    ensures v.Page? ==> (v.showEmpty <==> spaces.None? || spaces.value == [])
    ensures v.Page? ==> |v.rows| == if spaces.Some? then |spaces.value| else 0
    ensures v.Page? && spaces.Some? ==> forall i :: 0 <= i < |v.rows| ==>
      && v.rows[i].spaceId == spaces.value[i].id
      && v.rows[i].name == spaces.value[i].name
      && v.rows[i].location == spaces.value[i].location
      && (v.rows[i].highlighted <==> editingId == Some(spaces.value[i].id))
  {
    if !mounted then Preparing
    else if isLoading then Loading
    else
      var s := if spaces.Some? then spaces.value else [];
      Page(EditMode(editingId),
           HeadingTailOf(editingId),
           if EditMode(editingId) then UpdateButton else CreateButton,
           form,
           seq(|s|, i requires 0 <= i < |s| => Row(s[i].id, s[i].name, s[i].location, editingId == Some(s[i].id))),
           s == [])
  }

  /** An `editingId` of 0 shows the create heading like null does, but the
      page differs: a stray `0` follows the heading. */
  lemma ZeroIdShowsStrayNumber(isLoading: bool, spaces: Option<seq<Space>>, form: SpaceForm)
    requires !isLoading
    ensures var zero, none := Render(true, isLoading, spaces, Some(0), form), Render(true, isLoading, spaces, None, form);
      && !zero.editMode && !none.editMode && zero.submit == none.submit == CreateButton
      && zero.headingTail == StrayNumber("0") && none.headingTail == NoTail
      && zero != none
  {
  }

  /** Editing a space with a non-zero id makes the form send an update of
      exactly that space, with its fields. */
  lemma EditThenSubmitUpdates(space: Space)
    requires space.id != 0
    ensures SubmitRequest(Some(space.id), FormOf(space)) == Put("/spaces/" + IntToString(space.id), Payload(FormOf(space), map[]))
  {
  }

  /** Editing a space whose id is `0` leaves the page in create mode: the
      form then creates a new space instead of updating that one. */
  lemma EditIdZeroCreates(space: Space, form: SpaceForm)
    requires space.id == 0
    ensures !EditMode(Some(space.id))
    ensures SubmitRequest(Some(space.id), form) == CreateRequest(form)
    ensures UpdateRequest(Some(space.id), form) == None
  {
  }

  /** The page's state and the shared query client. */
  class AdminSpacesPage {
    var mounted: bool
    var editingId: Option<int>
    var form: SpaceForm
    const client: QueryClient

    constructor (client: QueryClient)
      ensures !mounted && editingId == None && form == EmptyForm
      ensures !ListQueryEnabled()
      ensures this.client == client
    {
      this.client := client;
      mounted := false;
      editingId := None;
      form := EmptyForm;
    }

    /** The managed-space list is fetched only once the page has mounted. */
    predicate ListQueryEnabled(): (r: bool)
      reads this
      ensures r <==> mounted
    {
      mounted
    }

    /** The mount effect. */
    method Mount()
      modifies this
      ensures mounted && editingId == old(editingId) && form == old(form)
      ensures ListQueryEnabled()
    {
      mounted := true;
    }

    method ResetForm()
      modifies this
      ensures form == EmptyForm && editingId == None
      ensures mounted == old(mounted)
    {
      form := EmptyForm;
      editingId := None;
    }

    method EditClick(space: Space)
      modifies this
      ensures editingId == Some(space.id) && form == FormOf(space)
      ensures mounted == old(mounted)
    {
      editingId := Some(space.id);
      form := FormOf(space);
    }

    /** Typing into the name, location and image URL inputs. */
    method ChangeName(value: string)
      modifies this
      ensures form == old(form).(name := value)
      ensures editingId == old(editingId) && mounted == old(mounted)
    {
      form := form.(name := value);
    }

    method ChangeLocation(value: string)
      modifies this
      ensures form == old(form).(location := value)
      ensures editingId == old(editingId) && mounted == old(mounted)
    {
      form := form.(location := value);
    }

    method ChangeImageUrl(value: string)
      modifies this
      ensures form == old(form).(imageUrl := value)
      ensures editingId == old(editingId) && mounted == old(mounted)
    {
      form := form.(imageUrl := value);
    }

    /** A click on the form's visible submit button. */
    method Submit() returns (request: SpaceRequest)
      ensures request.Post? || request.Put?
      ensures request.Put? <==> editingId.Some? && editingId.value != 0
      ensures request.Put? ==> request.path == "/spaces/" + IntToString(editingId.value)
      ensures request.Post? ==> request.path == "/spaces"
      ensures request.payload == Payload(form, map[])
    {
      request := SubmitRequest(editingId, form);
    }

    /** A successful create: alert, empty form, create mode, and the
        managed list goes stale. */
    method OnCreateSuccess() returns (alert: string)
      modifies this, client
      ensures alert == CreatedAlert
      ensures form == EmptyForm && editingId == None && mounted == old(mounted)
      ensures client.stale == Invalidated(old(client.stale), SpacesKey)
    {
      alert := CreatedAlert;
      ResetForm();
      client.Invalidate(SpacesKey);
    }

    /** A successful update: the same effects as a create. It also runs
        when the update mutation sent nothing because `editingId` was
        falsy, since that mutation then resolves normally. */
    method OnUpdateSuccess() returns (alert: string)
      modifies this, client
      ensures alert == UpdatedAlert
      ensures form == EmptyForm && editingId == None && mounted == old(mounted)
      ensures client.stale == Invalidated(old(client.stale), SpacesKey)
    {
      alert := UpdatedAlert;
      ResetForm();
      client.Invalidate(SpacesKey);
    }

    /** A successful delete invalidates the list; the form is untouched. */
    method OnDeleteSuccess() returns (alert: string)
      modifies client
      ensures alert == DeletedAlert
      ensures client.stale == Invalidated(old(client.stale), SpacesKey)
    {
      alert := DeletedAlert;
      client.Invalidate(SpacesKey);
    }

    /** A failed delete only tells the user why. */
    method OnDeleteError(body: ErrorBody) returns (alert: string)
      ensures alert == DeleteErrorAlert(body)
    {
      alert := DeleteErrorAlert(body);
    }
  }

  /** The form success handlers mark the managed list stale and no cached
      slot list or other query. */
  lemma SuccessInvalidatesOnlyManagedList(stale: map<QueryKey, bool>, k: QueryKey)
    requires k in stale
    ensures |k| >= 1 && k[0] == Str("admin-spaces") ==> Invalidated(stale, SpacesKey)[k]
    ensures (|k| == 0 || k[0] != Str("admin-spaces")) ==> Invalidated(stale, SpacesKey)[k] == stale[k]
  {
  }
}
