/** The genre management page: a one-field form that creates or updates a genre, the
    genre list, and the confirm-then-send workflow around every change. */
module GenerosManage {
  import opened Workflow

  datatype Genero = Genero(idGenero: int, nombreGenero: string)

  /** JSON body of a create or update: `{nombre_genero}`. */
  datatype GeneroBody = GeneroBody(nombreGenero: string)

  const Collection: string := "/generos"
  const LoadError: string := "Error al cargar los géneros"

  /** The confirmation `handleSubmit` opens: info severity, and an action that updates
      `editingId` when it is truthy and creates otherwise, with the name captured now. */
  function SubmitDialog(editingId: Option<int>, nombreGenero: string): (d: ConfirmDialog<GeneroBody>)
    ensures d.show && d.severity == Info && d.action.Some?
    ensures d.action.value.request == SaveRequest(editingId, GeneroBody(nombreGenero))
    ensures d.action.value.failText == if Truthy(editingId) then "Error al actualizar el género" else "Error al crear el género"
    ensures d.title == if Truthy(editingId) then "✏️ Actualizar Género" else "➕ Crear Género"
    ensures Mentions(d.message, nombreGenero)
    ensures d.action.value.okText == if Truthy(editingId) then "Género \"" + nombreGenero + "\" actualizado exitosamente"
                                   else "Género \"" + nombreGenero + "\" creado exitosamente"
  {
    var req := SaveRequest(editingId, GeneroBody(nombreGenero));
    if Truthy(editingId) then
      MentionsInside("¿Confirmar la actualización de \"", nombreGenero, "\"?");
      ConfirmDialog(true, "✏️ Actualizar Género", "¿Confirmar la actualización de \"" + nombreGenero + "\"?", Info,
                    Some(Job(req, "Género \"" + nombreGenero + "\" actualizado exitosamente", "Error al actualizar el género")))
    else
      MentionsInside("¿Confirmar la creación del género \"", nombreGenero, "\"?");
      ConfirmDialog(true, "➕ Crear Género", "¿Confirmar la creación del género \"" + nombreGenero + "\"?", Info,
                    Some(Job(req, "Género \"" + nombreGenero + "\" creado exitosamente", "Error al crear el género")))
  }

  /** The confirmation `handleDelete` opens: danger severity, an action deleting this genre. */
  function DeleteDialog(genero: Genero): (d: ConfirmDialog<GeneroBody>)
    ensures d.show && d.severity == Danger && d.action.Some?
    ensures d.action.value.request == Delete(genero.idGenero)
    ensures d.action.value.failText == "Error al eliminar el género"
    ensures d.title == "🗑️ Eliminar Género" && Mentions(d.message, genero.nombreGenero)
    ensures d.action.value.okText == "Género \"" + genero.nombreGenero + "\" eliminado exitosamente"
  {
    MentionsInside("¿Estás seguro de eliminar el género \"", genero.nombreGenero, "\"?\n\nEsta acción no se puede deshacer.");
    ConfirmDialog(true, "🗑️ Eliminar Género",
                  "¿Estás seguro de eliminar el género \"" + genero.nombreGenero + "\"?\n\nEsta acción no se puede deshacer.",
                  Danger,
                  Some(Job(Delete(genero.idGenero), "Género \"" + genero.nombreGenero + "\" eliminado exitosamente",
                           "Error al eliminar el género")))
  }

  /** Where the page's requests go: submit sends a PUT to `/generos/<editingId>` when
      `editingId` is truthy and a POST to `/generos` otherwise; delete sends a DELETE to
      `/generos/<id>`, from whose last segment `parseInt` reads back exactly that id. */
  lemma RequestPaths(editingId: Option<int>, nombreGenero: string, genero: Genero)
    ensures var r := SubmitDialog(editingId, nombreGenero).action.value.request;
            && VerbOf(r) == (if Truthy(editingId) then PUT else POST)
            && Path(Collection, r) == if Truthy(editingId) then Collection + "/" + Decimal(editingId.value) else Collection
    ensures var r := DeleteDialog(genero).action.value.request;
            && VerbOf(r) == DELETE
            && Path(Collection, r) == Collection + "/" + Decimal(genero.idGenero)
            && ParseInt(Path(Collection, r)[|Collection| + 1..]) == Some(genero.idGenero)
  {
    PathAddressesRecord(Collection, DeleteDialog(genero).action.value.request);
  }

  /** Text of the submit control. */
  function SubmitLabel(submitting: bool, editingId: Option<int>): (text: string)
    ensures text == "Guardando..." <==> submitting
    ensures text == "Actualizar" <==> !submitting && Truthy(editingId)
    ensures text == "Crear Género" <==> !submitting && !Truthy(editingId)
  {
    if submitting then "Guardando..." else if Truthy(editingId) then "Actualizar" else "Crear Género"
  }

  /** Whether the Cancel control is rendered. */
  predicate ShowsCancel(editingId: Option<int>): (b: bool)
    ensures b <==> SubmitLabel(false, editingId) == "Actualizar"
  {
    Truthy(editingId)
  }

  /** What the idle submit control says is what submitting does: "Actualizar" exactly
      when the confirmed action will be an update, and then Cancel is offered too. */
  lemma LabelMatchesRequest(editingId: Option<int>, nombreGenero: string)
    ensures var req := SubmitDialog(editingId, nombreGenero).action.value.request;
            && (SubmitLabel(false, editingId) == "Actualizar" <==> req.Put?)
            && (SubmitLabel(false, editingId) == "Crear Género" <==> req.Post?)
            && (ShowsCancel(editingId) <==> req.Put?)
  {
  }

  class GenerosPage {
    var generos: seq<Genero>
    var loading: bool
    var error: Option<string>
    var editingId: Option<int>
    var nombreGenero: string
    var submitting: bool
    var snackbar: Snackbar
    var confirm: ConfirmDialog<GeneroBody>
    /** Mutations whose confirmation was accepted and whose response has not arrived. */
    var inFlight: seq<Job<GeneroBody>>
    /** Fetches started and not yet settled. */
    var pendingFetches: nat

    ghost predicate Valid()
      reads this
    {
      Consistent(inFlight, submitting, confirm, pendingFetches, loading)
    }

    /** Mounting the page: empty state, then the mount effect starts the first fetch. */
    constructor ()
      ensures Valid()
      ensures generos == [] && loading && error == None && pendingFetches == 1
      ensures editingId == None && nombreGenero == ""
      ensures !submitting && snackbar == InitialSnackbar && confirm == InitialConfirm()
      ensures inFlight == []
    {
      generos := [];
      loading, error := true, None;
      editingId, nombreGenero := None, "";
      submitting := false;
      snackbar := InitialSnackbar;
      confirm := InitialConfirm();
      inFlight := [];
      pendingFetches := 1;
    }

    /** The submit control's text in the current state. */
    function Label(): (text: string)
      reads this
      ensures text == "Guardando..." <==> submitting
      ensures text == "Actualizar" <==> !submitting && Truthy(editingId)
      ensures text == "Crear Género" <==> !submitting && !Truthy(editingId)
    {
      SubmitLabel(submitting, editingId)
    }

    /** `showSnackbar`: message, kind and visibility are replaced together. */
    method ShowSnackbar(message: string, kind: Kind)
      modifies this`snackbar
      ensures snackbar == Snackbar(true, message, kind)
    {
      snackbar := Snackbar(true, message, kind);
    }

    /** `closeSnackbar`: only `show` changes. */
    method CloseSnackbar()
      modifies this`snackbar
      ensures snackbar == old(snackbar).(show := false)
    {
      snackbar := snackbar.(show := false);
    }

    /** `closeConfirm`, the decline button: only `show` changes and nothing is sent. */
    method CloseConfirm()
      requires Valid()
      modifies this`confirm
      ensures Valid()
      ensures confirm == old(confirm).(show := false)
    {
      confirm := confirm.(show := false);
    }

    /** `handleConfirm`: the pending action is started exactly once, then the dialog hides. */
    method HandleConfirm()
      requires Valid() && confirm.show
      modifies this`confirm, this`submitting, this`inFlight
      ensures Valid()
      ensures inFlight == old(inFlight) + [old(confirm.action.value)]
      ensures submitting == (old(submitting) || IsSave(old(confirm.action.value.request)))
      ensures confirm == old(confirm).(show := false)
    {
      var job := confirm.action.value;
      if IsSave(job.request) {
        submitting := true;
      }
      SavesAppend(inFlight, job);
      inFlight := inFlight + [job];
      confirm := confirm.(show := false);
    }

    /** `fetchGeneros` starts: loading view on, error cleared. */
    method FetchGeneros()
      requires Valid()
      modifies this`loading, this`error, this`pendingFetches
      ensures Valid()
      ensures loading && error == None && pendingFetches == old(pendingFetches) + 1
    {
      loading := true;
      error := None;
      pendingFetches := pendingFetches + 1;
    }

    /** One outstanding `fetchGeneros` settles: a resolved GET replaces the list by its
        data (or []); a rejected one sets the error text and leaves the list as it was. */
    method FetchSettled(res: Response<Genero>)
      requires Valid() && pendingFetches > 0
      modifies this`generos, this`error, this`loading, this`pendingFetches
      ensures Valid()
      ensures !loading && pendingFetches == old(pendingFetches) - 1
      ensures res.Resolved? ==> generos == Loaded(res) && error == old(error)
      ensures res.Rejected? ==> generos == old(generos) && error == Some(LoadError)
    {
      if res.Resolved? {
        generos := Loaded(res);
      } else {
        error := Some(LoadError);
      }
      loading := false;
      pendingFetches := pendingFetches - 1;
    }

    /** `resetForm`, also the Cancel control. */
    method ResetForm()
      modifies this`nombreGenero, this`editingId
      ensures nombreGenero == "" && editingId == None
    {
      nombreGenero := "";
      editingId := None;
    }

    /** The name input's change handler. */
    method SetNombreGenero(v: string)
      modifies this`nombreGenero
      ensures nombreGenero == v
    {
      nombreGenero := v;
    }

    /** `handleSubmit`, reachable while the submit control is enabled. */
    method HandleSubmit()
      requires Valid() && !submitting
      modifies this`confirm
      ensures Valid()
      ensures confirm == SubmitDialog(editingId, nombreGenero)
    {
      confirm := SubmitDialog(editingId, nombreGenero);
    }

    /** `handleEdit`: id and name copied from the selected genre. */
    method HandleEdit(genero: Genero)
      modifies this`editingId, this`nombreGenero
      ensures editingId == Some(genero.idGenero) && nombreGenero == genero.nombreGenero
    {
      editingId := Some(genero.idGenero);
      nombreGenero := genero.nombreGenero;
    }

    /** `handleDelete`: opens the delete confirmation; the draft and `submitting` stay. */
    method HandleDelete(genero: Genero)
      requires Valid()
      modifies this`confirm
      ensures Valid()
      ensures confirm == DeleteDialog(genero)
    {
      confirm := DeleteDialog(genero);
    }

    /** The response to the `i`-th outstanding mutation arrives. Success: the job's
        success text, the form reset after a create/update, and a refetch. Failure: the
        job's error text and the draft kept. A create/update lowers `submitting`. */
    method Settle(i: nat, ok: bool)
      requires Valid() && i < |inFlight|
      modifies this`inFlight, this`snackbar, this`submitting, this`nombreGenero,
               this`editingId, this`loading, this`error, this`pendingFetches
      ensures Valid()
      ensures inFlight == old(inFlight[..i] + inFlight[i + 1..])
      ensures var job := old(inFlight[i]);
              snackbar == if ok then Snackbar(true, job.okText, Success) else Snackbar(true, job.failText, Error)
      ensures submitting == (old(submitting) && !IsSave(old(inFlight[i].request)))
      ensures if ok && IsSave(old(inFlight[i].request))
              then nombreGenero == "" && editingId == None
              else nombreGenero == old(nombreGenero) && editingId == old(editingId)
      ensures if ok then loading && error == None && pendingFetches == old(pendingFetches) + 1
              else loading == old(loading) && error == old(error) && pendingFetches == old(pendingFetches)
    {
      var job := inFlight[i];
      SavesRemove(inFlight, i);
      inFlight := inFlight[..i] + inFlight[i + 1..];
      if IsSave(job.request) {
        submitting := false;
      }
      if ok {
        ShowSnackbar(job.okText, Success);
        if IsSave(job.request) {
          ResetForm();
        }
        FetchGeneros();
      } else {
        ShowSnackbar(job.failText, Error);
      }
    }
  }
}
