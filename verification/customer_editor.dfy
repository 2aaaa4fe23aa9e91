/**
 * The admin's customer modal: view a customer, edit a draft copy, cancel,
 * or save the draft to the database. The save's remote outcome is an input.
 */
module CustomerEditor {
  import opened Options
  import opened Domain

  datatype Editor = Editor(isEditing: bool, isLoading: bool, edited: Option<Customer>, display: Option<Customer>)

  const Closed: Editor := Editor(false, false, None, None)

  /** The modal follows its `user` prop whenever a customer is given. */
  function SyncUser(e: Editor, user: Option<Customer>): (r: Editor)
    ensures user.Some? ==> r.display == user
    ensures user.None? ==> r == e
    ensures r.(display := e.display) == e
  {
    if user.Some? then e.(display := user) else e
  }

  /** The customer on screen: the draft, else the displayed copy, else the prop. */
  function Shown(e: Editor, user: Customer): Customer {
    if e.edited.Some? then e.edited.value
    else if e.display.Some? then e.display.value
    else user
  }

  /** "Editar": the draft starts as a copy of the displayed customer (or the prop). */
  function Edit(e: Editor, user: Customer): (r: Editor)
    ensures r.isEditing && r.edited == Some(e.display.GetOr(user))
    ensures r.display == e.display && r.isLoading == e.isLoading
  {
    e.(edited := Some(e.display.GetOr(user)), isEditing := true)
  }

  /** "Cancelar": the draft is dropped and the displayed customer is kept. */
  function Cancel(e: Editor): (r: Editor)
    ensures !r.isEditing && r.edited.None?
    ensures r.display == e.display && r.isLoading == e.isLoading
  {
    e.(edited := None, isEditing := false)
  }

  /** Entering edit mode does not change what is shown. */
  lemma EditKeepsShown(e: Editor, user: Customer)
    requires e.edited.None?
    ensures Shown(Edit(e, user), user) == Shown(e, user)
  {
  }

  /** Editing and then cancelling leaves the view as it was. */
  lemma EditCancelRestores(e: Editor, user: Customer)
    requires e.edited.None? && !e.isEditing
    ensures Cancel(Edit(e, user)) == e
  {
  }

  /** The keys of the customer record an input can name. */
  datatype CustomerField =
    | Id | Nombre | Apellido | Numero | Direccion | Referencia | Distrito | Provincia | Departamento | Dni

  function Get(c: Customer, f: CustomerField): Option<string> {
    match f
    case Id => c.id
    case Nombre => Some(c.nombre)
    case Apellido => Some(c.apellido)
    case Numero => Some(c.numero)
    case Direccion => Some(c.direccion)
    case Referencia => Some(c.referencia)
    case Distrito => Some(c.distrito)
    case Provincia => Some(c.provincia)
    case Departamento => Some(c.departamento)
    case Dni => c.dni
  }

  /** `{ ...c, [f]: value }`: the named field is `value`, every other field is unchanged. */
  function Set(c: Customer, f: CustomerField, value: string): (r: Customer)
    ensures Get(r, f) == Some(value)
    ensures forall g :: g != f ==> Get(r, g) == Get(c, g)
  {
    match f
    case Id => c.(id := Some(value))
    case Nombre => c.(nombre := value)
    case Apellido => c.(apellido := value)
    case Numero => c.(numero := value)
    case Direccion => c.(direccion := value)
    case Referencia => c.(referencia := value)
    case Distrito => c.(distrito := value)
    case Provincia => c.(provincia := value)
    case Departamento => c.(departamento := value)
    case Dni => c.(dni := Some(value))
  }

  /** Two customers agreeing on every field are the same customer. */
  lemma FieldsDetermineCustomer(a: Customer, b: Customer)
    requires forall g :: Get(a, g) == Get(b, g)
    ensures a == b
  {
    assert Get(a, Id) == Get(b, Id) && Get(a, Dni) == Get(b, Dni);
    assert Get(a, Nombre) == Get(b, Nombre) && Get(a, Apellido) == Get(b, Apellido);
    assert Get(a, Numero) == Get(b, Numero) && Get(a, Direccion) == Get(b, Direccion);
    assert Get(a, Referencia) == Get(b, Referencia) && Get(a, Distrito) == Get(b, Distrito);
    assert Get(a, Provincia) == Get(b, Provincia) && Get(a, Departamento) == Get(b, Departamento);
  }

  /** Typing into an input changes only that field of the draft; without a draft nothing happens. */
  function InputChange(e: Editor, f: CustomerField, value: string): (r: Editor)
    ensures e.edited.None? ==> r == e
    ensures e.edited.Some? ==>
      r.edited.Some? && Get(r.edited.value, f) == Some(value)
      && (forall g :: g != f ==> Get(r.edited.value, g) == Get(e.edited.value, g))
    ensures r.(edited := e.edited) == e
  {
    if e.edited.None? then e else e.(edited := Some(Set(e.edited.value, f, value)))
  }

  /** The last value typed into a field wins. */
  lemma InputChangeOverwrites(e: Editor, f: CustomerField, v1: string, v2: string)
    ensures InputChange(InputChange(e, f, v1), f, v2) == InputChange(e, f, v2)
  {
    if e.edited.Some? {
      var a := InputChange(InputChange(e, f, v1), f, v2).edited.value;
      var b := InputChange(e, f, v2).edited.value;
      FieldsDetermineCustomer(a, b);
    }
  }

  /** The eight columns the update writes; the id and the DNI are not among them. */
  datatype UpdateBody = UpdateBody(
    nombre: string,
    apellido: string,
    numero: string,
    direccion: string,
    referencia: string,
    distrito: string,
    provincia: string,
    departamento: string)

  function BodyOf(c: Customer): (b: UpdateBody)
    ensures b.nombre == c.nombre && b.apellido == c.apellido && b.numero == c.numero
    ensures b.direccion == c.direccion && b.referencia == c.referencia
    ensures b.distrito == c.distrito && b.provincia == c.provincia && b.departamento == c.departamento
  {
    UpdateBody(c.nombre, c.apellido, c.numero, c.direccion, c.referencia, c.distrito, c.provincia, c.departamento)
  }

  /** The update never carries the id or the DNI: changing them leaves the body as it is. */
  lemma BodyIgnoresIdAndDni(c: Customer, id: Option<string>, dni: Option<string>)
    ensures BodyOf(c.(id := id, dni := dni)) == BodyOf(c)
  {
  }

  /** The update of the customer row whose id is the prop's id. */
  datatype UpdateRequest = UpdateRequest(customerId: string, body: UpdateBody)

  datatype SaveStart =
    | NothingToSave                                                // no draft
    | MissingId                                                    // the prop has no id: error toast, no call
    | Sending(editor: Editor, draft: Customer, request: UpdateRequest)

  /** "Guardar" pressed: either nothing happens, or the update is sent with `isLoading` set. */
  function BeginSave(e: Editor, user: Customer): (r: SaveStart)
    ensures r.NothingToSave? <==> e.edited.None?
    ensures r.MissingId? <==> e.edited.Some? && !Truthy(user.id)
    ensures r.Sending? ==>
      && r.editor == e.(isLoading := true)
      && r.draft == e.edited.value
      && r.request == UpdateRequest(user.id.value, BodyOf(e.edited.value))
  {
    if e.edited.None? then NothingToSave
    else if !Truthy(user.id) then MissingId
    else Sending(e.(isLoading := true), e.edited.value, UpdateRequest(user.id.value, BodyOf(e.edited.value)))
  }

  /**
   * The update's answer. On success the saved draft — the one captured when
   * "Guardar" was pressed — becomes the displayed customer and is reported
   * through `onUpdate`; on failure the draft and edit mode are kept. Either
   * way `isLoading` ends false.
   */
  function FinishSave(e: Editor, draft: Customer, outcome: RemoteOutcome): (r: (Editor, Option<Customer>))
    ensures !r.0.isLoading
    ensures outcome.Accepted? ==>
      r.0 == Editor(false, false, None, Some(draft)) && r.1 == Some(draft)
    ensures outcome.Rejected? ==>
      r.0 == e.(isLoading := false) && r.1 == None
  {
    match outcome
    case Accepted => (Editor(false, false, None, Some(draft)), Some(draft))
    case Rejected(_) => (e.(isLoading := false), None)
  }

  /** The whole save: the request sent (if any), the editor afterwards, and the `onUpdate` argument. */
  datatype SaveResult = SaveResult(editor: Editor, request: Option<UpdateRequest>, notified: Option<Customer>)

  function Save(e: Editor, user: Customer, outcome: RemoteOutcome): (r: SaveResult)
    ensures e.edited.None? ==> r == SaveResult(e, None, None)
    ensures e.edited.Some? && !Truthy(user.id) ==> r == SaveResult(e, None, None)
    ensures e.edited.Some? && Truthy(user.id) ==>
      r.request == Some(UpdateRequest(user.id.value, BodyOf(e.edited.value))) && !r.editor.isLoading
  {
    match BeginSave(e, user)
    case NothingToSave => SaveResult(e, None, None)
    case MissingId => SaveResult(e, None, None)
    case Sending(sending, draft, req) =>
      var (after, notified) := FinishSave(sending, draft, outcome);
      SaveResult(after, Some(req), notified)
  }

  /** A successful save shows the draft, reports it, and leaves edit mode. */
  lemma SaveSuccessShowsDraft(e: Editor, user: Customer)
    requires e.edited.Some? && Truthy(user.id)
    ensures var r := Save(e, user, Accepted);
      && Shown(r.editor, user) == e.edited.value
      && r.notified == Some(e.edited.value)
      && !r.editor.isEditing && r.editor.edited.None?
  {
  }

  /** A failed save keeps the draft on screen and stays in edit mode. */
  lemma SaveFailureKeepsDraft(e: Editor, user: Customer, message: string)
    requires e.edited.Some? && e.isEditing && Truthy(user.id)
    ensures var r := Save(e, user, Rejected(message));
      && r.editor.edited == e.edited && r.editor.isEditing
      && r.notified == None && Shown(r.editor, user) == e.edited.value
  {
  }

  /** Typing while the update is in flight is lost once it succeeds: the captured draft is what is shown. */
  lemma EditsDuringSaveAreDropped(e: Editor, user: Customer, f: CustomerField, value: string)
    requires BeginSave(e, user).Sending?
    ensures var start := BeginSave(e, user);
      var typed := InputChange(start.editor, f, value);
      Shown(FinishSave(typed, start.draft, Accepted).0, user) == e.edited.value
  {
  }
}
