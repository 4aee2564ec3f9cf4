/** The user management page: a form (name, e-mail) that creates or updates a user,
    the user list, and the confirm-then-send workflow around every change. */
module Usuarios {
  import opened Workflow

  datatype Usuario = Usuario(idUsuario: int, nombre: string, email: string, fechaRegistro: string)

  /** JSON body of a create or update: `{nombre, email}`. */
  datatype UsuarioBody = UsuarioBody(nombre: string, email: string)

  const Collection: string := "/usuarios"
  const LoadError: string := "Error al cargar los usuarios"

  /** The confirmation `handleSubmit` opens: info severity, and an action that updates
      `editingId` when it is truthy and creates otherwise, with `{nombre, email}` captured now. */
  function SubmitDialog(editingId: Option<int>, nombre: string, email: string): (d: ConfirmDialog<UsuarioBody>)
    ensures d.show && d.severity == Info && d.action.Some?
    ensures d.action.value.request == SaveRequest(editingId, UsuarioBody(nombre, email))
    ensures d.action.value.failText == if Truthy(editingId) then "Error al actualizar el usuario" else "Error al crear el usuario"
    ensures d.title == if Truthy(editingId) then "✏️ Actualizar Usuario" else "➕ Crear Usuario"
    ensures Mentions(d.message, nombre)
    ensures d.action.value.okText == if Truthy(editingId) then "Usuario \"" + nombre + "\" actualizado exitosamente"
                                   else "Usuario \"" + nombre + "\" creado exitosamente"
  {
    var req := SaveRequest(editingId, UsuarioBody(nombre, email));
    if Truthy(editingId) then
      MentionsInside("¿Confirmar la actualización de ", nombre, "?");
      ConfirmDialog(true, "✏️ Actualizar Usuario", "¿Confirmar la actualización de " + nombre + "?", Info,
                    Some(Job(req, "Usuario \"" + nombre + "\" actualizado exitosamente", "Error al actualizar el usuario")))
    else
      MentionsInside("¿Confirmar la creación del usuario ", nombre, "?");
      ConfirmDialog(true, "➕ Crear Usuario", "¿Confirmar la creación del usuario " + nombre + "?", Info,
                    Some(Job(req, "Usuario \"" + nombre + "\" creado exitosamente", "Error al crear el usuario")))
  }

  /** The confirmation `handleDelete` opens: danger severity, an action deleting this user. */
  function DeleteDialog(usuario: Usuario): (d: ConfirmDialog<UsuarioBody>)
    ensures d.show && d.severity == Danger && d.action.Some?
    ensures d.action.value.request == Delete(usuario.idUsuario)
    ensures d.action.value.failText == "Error al eliminar el usuario"
    ensures d.title == "🗑️ Eliminar Usuario" && Mentions(d.message, usuario.nombre)
    ensures d.action.value.okText == "Usuario \"" + usuario.nombre + "\" eliminado exitosamente"
  {
    MentionsInside("¿Estás seguro de eliminar a ", usuario.nombre, "?\n\nEsta acción no se puede deshacer.");
    ConfirmDialog(true, "🗑️ Eliminar Usuario",
                  "¿Estás seguro de eliminar a " + usuario.nombre + "?\n\nEsta acción no se puede deshacer.", Danger,
                  Some(Job(Delete(usuario.idUsuario), "Usuario \"" + usuario.nombre + "\" eliminado exitosamente",
                           "Error al eliminar el usuario")))
  }

  /** Where the page's requests go: submit sends a PUT to `/usuarios/<editingId>` when
      `editingId` is truthy and a POST to `/usuarios` otherwise; delete sends a DELETE to
      `/usuarios/<id>`, from whose last segment `parseInt` reads back exactly that id. */
  lemma RequestPaths(editingId: Option<int>, nombre: string, email: string, usuario: Usuario)
    ensures var r := SubmitDialog(editingId, nombre, email).action.value.request;
            && VerbOf(r) == (if Truthy(editingId) then PUT else POST)
            && Path(Collection, r) == if Truthy(editingId) then Collection + "/" + Decimal(editingId.value) else Collection
    ensures var r := DeleteDialog(usuario).action.value.request;
            && VerbOf(r) == DELETE
            && Path(Collection, r) == Collection + "/" + Decimal(usuario.idUsuario)
            && ParseInt(Path(Collection, r)[|Collection| + 1..]) == Some(usuario.idUsuario)
  {
    PathAddressesRecord(Collection, DeleteDialog(usuario).action.value.request);
  }

  class UsuariosPage {
    var usuarios: seq<Usuario>
    var loading: bool
    var error: Option<string>
    var editingId: Option<int>
    var nombre: string
    var email: string
    var submitting: bool
    var snackbar: Snackbar
    var confirm: ConfirmDialog<UsuarioBody>
    /** Mutations whose confirmation was accepted and whose response has not arrived. */
    var inFlight: seq<Job<UsuarioBody>>
    /** Fetches started and not yet settled. */
    var pendingFetches: nat

    ghost predicate Valid()
      reads this
    {
      Consistent(inFlight, submitting, confirm, pendingFetches, loading)
    }

    /** Mounting the page: empty state, then the mount effect starts the first fetch. */
    constructor ()
      ensures Valid()
      ensures usuarios == [] && loading && error == None && pendingFetches == 1
      ensures editingId == None && nombre == "" && email == ""
      ensures !submitting && snackbar == InitialSnackbar && confirm == InitialConfirm()
      ensures inFlight == []
    {
      usuarios := [];
      loading, error := true, None;
      editingId, nombre, email := None, "", "";
      submitting := false;
      snackbar := InitialSnackbar;
      confirm := InitialConfirm();
      inFlight := [];
      pendingFetches := 1;
    }

    /** `showSnackbar`: message, kind and visibility are replaced together. */
    method ShowSnackbar(message: string, kind: Kind)
      modifies this`snackbar
      ensures snackbar == Snackbar(true, message, kind)
    {
      snackbar := Snackbar(true, message, kind);
    }

    /** `closeSnackbar`: only `show` changes. */
    method CloseSnackbar()
      modifies this`snackbar
      ensures snackbar == old(snackbar).(show := false)
    {
      snackbar := snackbar.(show := false);
    }

    /** `closeConfirm`, the decline button: only `show` changes and nothing is sent. */
    method CloseConfirm()
      requires Valid()
      modifies this`confirm
      ensures Valid()
      ensures confirm == old(confirm).(show := false)
    {
      confirm := confirm.(show := false);
    }

    /** `handleConfirm`: the pending action is started exactly once, then the dialog hides. */
    method HandleConfirm()
      requires Valid() && confirm.show
      modifies this`confirm, this`submitting, this`inFlight
      ensures Valid()
      ensures inFlight == old(inFlight) + [old(confirm.action.value)]
      ensures submitting == (old(submitting) || IsSave(old(confirm.action.value.request)))
      ensures confirm == old(confirm).(show := false)
    {
      var job := confirm.action.value;
      if IsSave(job.request) {
        submitting := true;
      }
      SavesAppend(inFlight, job);
      inFlight := inFlight + [job];
      confirm := confirm.(show := false);
    }

    /** `fetchUsuarios` starts: loading view on, error cleared. */
    method FetchUsuarios()
      requires Valid()
      modifies this`loading, this`error, this`pendingFetches
      ensures Valid()
      ensures loading && error == None && pendingFetches == old(pendingFetches) + 1
    {
      loading := true;
      error := None;
      pendingFetches := pendingFetches + 1;
    }

    /** One outstanding `fetchUsuarios` settles: a resolved GET replaces the list by its
        data (or []); a rejected one sets the error text and leaves the list as it was. */
    method FetchSettled(res: Response<Usuario>)
      requires Valid() && pendingFetches > 0
      modifies this`usuarios, this`error, this`loading, this`pendingFetches
      ensures Valid()
      ensures !loading && pendingFetches == old(pendingFetches) - 1
      ensures res.Resolved? ==> usuarios == Loaded(res) && error == old(error)
      ensures res.Rejected? ==> usuarios == old(usuarios) && error == Some(LoadError)
    {
      if res.Resolved? {
        usuarios := Loaded(res);
      } else {
        error := Some(LoadError);
      }
      loading := false;
      pendingFetches := pendingFetches - 1;
    }

    /** `resetForm`, also the Cancel control. */
    method ResetForm()
      modifies this`nombre, this`email, this`editingId
      ensures nombre == "" && email == "" && editingId == None
    {
      nombre, email := "", "";
      editingId := None;
    }

    /** The name input's change handler. */
    method SetNombre(v: string)
      modifies this`nombre
      ensures nombre == v
    {
      nombre := v;
    }

    /** The e-mail input's change handler. */
    method SetEmail(v: string)
      modifies this`email
      ensures email == v
    {
      email := v;
    }

    /** `handleSubmit`, reachable while the submit control is enabled. */
    method HandleSubmit()
      requires Valid() && !submitting
      modifies this`confirm
      ensures Valid()
      ensures confirm == SubmitDialog(editingId, nombre, email)
    {
      confirm := SubmitDialog(editingId, nombre, email);
    }

    /** `handleEdit`: id, name and e-mail copied unchanged from the selected user. */
    method HandleEdit(usuario: Usuario)
      modifies this`editingId, this`nombre, this`email
      ensures editingId == Some(usuario.idUsuario) && nombre == usuario.nombre && email == usuario.email
    {
      editingId := Some(usuario.idUsuario);
      nombre := usuario.nombre;
      email := usuario.email;
    }

    /** `handleDelete`: opens the delete confirmation; the draft and `submitting` stay. */
    method HandleDelete(usuario: Usuario)
      requires Valid()
      modifies this`confirm
      ensures Valid()
      ensures confirm == DeleteDialog(usuario)
    {
      confirm := DeleteDialog(usuario);
    }

    /** The response to the `i`-th outstanding mutation arrives. Success: the job's
        success text, the form reset after a create/update, and a refetch. Failure: the
        job's error text and the draft kept. A create/update lowers `submitting`. */
    method Settle(i: nat, ok: bool)
      requires Valid() && i < |inFlight|
      modifies this`inFlight, this`snackbar, this`submitting, this`nombre, this`email,
               this`editingId, this`loading, this`error, this`pendingFetches
      ensures Valid()
      ensures inFlight == old(inFlight[..i] + inFlight[i + 1..])
      ensures var job := old(inFlight[i]);
              snackbar == if ok then Snackbar(true, job.okText, Success) else Snackbar(true, job.failText, Error)
      ensures submitting == (old(submitting) && !IsSave(old(inFlight[i].request)))
      ensures if ok && IsSave(old(inFlight[i].request))
              then nombre == "" && email == "" && editingId == None
              else nombre == old(nombre) && email == old(email) && editingId == old(editingId)
      ensures if ok then loading && error == None && pendingFetches == old(pendingFetches) + 1
              else loading == old(loading) && error == old(error) && pendingFetches == old(pendingFetches)
    {
      var job := inFlight[i];
      SavesRemove(inFlight, i);
      inFlight := inFlight[..i] + inFlight[i + 1..];
      if IsSave(job.request) {
        submitting := false;
      }
      if ok {
        ShowSnackbar(job.okText, Success);
        if IsSave(job.request) {
          ResetForm();
        }
        FetchUsuarios();
      } else {
        ShowSnackbar(job.failText, Error);
      }
    }
  }

  /** Editing a user, submitting and confirming issues exactly one request: an update
      of that user's id (a create when the id is 0) carrying the user's name and e-mail
      unchanged, and the submit control is disabled while it is outstanding. */
  method EditSubmitConfirm(usuario: Usuario) returns (sent: Request<UsuarioBody>, busy: bool)
    ensures sent == SaveRequest(Some(usuario.idUsuario), UsuarioBody(usuario.nombre, usuario.email))
    ensures usuario.idUsuario != 0 ==> sent == Put(usuario.idUsuario, UsuarioBody(usuario.nombre, usuario.email))
    ensures busy
  {
    var page := new UsuariosPage();
    page.HandleEdit(usuario);
    page.HandleSubmit();
    page.HandleConfirm();
    sent := page.inFlight[0].request;
    busy := page.submitting;
  }
}
