/** The author management page: a form (name, country) that creates or updates an
    author, the fixed list of countries, the author list, and the confirm-then-send
    workflow around every change. */
module AutoresManage {
  import opened Workflow

  datatype Autor = Autor(idAutor: int, nombreAutor: string, idPais: int, nombrePais: string)
  datatype Pais = Pais(idPais: int, nombrePais: string)

  /** JSON body of a create or update: `{nombre_autor, id_pais}`, the country id parsed
      from the select value (None is NaN). */
  datatype AutorBody = AutorBody(nombreAutor: string, idPais: Option<int>)

  const Collection: string := "/autores"
  const LoadError: string := "Error al cargar los autores"

  /** The country options, a state value that is never set: five countries, ids 1 to 5. */
  function Paises(): (p: seq<Pais>)
    ensures |p| == 5
    ensures forall i :: 0 <= i < |p| ==> p[i].idPais == i + 1
  {
    [Pais(1, "México"), Pais(2, "España"), Pais(3, "Argentina"), Pais(4, "Estados Unidos"), Pais(5, "Colombia")]
  }

  /** The request body `handleSubmit` snapshots from the draft. */
  function BodyOf(nombreAutor: string, idPais: string): (b: AutorBody)
    ensures b.nombreAutor == nombreAutor
    ensures idPais == "" ==> b.idPais == None
  {
    AutorBody(nombreAutor, ParseInt(idPais))
  }

  /** The confirmation `handleSubmit` opens: info severity, and an action that updates
      `editingId` when it is truthy and creates otherwise, with body and name captured now. */
  function SubmitDialog(editingId: Option<int>, nombreAutor: string, idPais: string): (d: ConfirmDialog<AutorBody>)
    ensures d.show && d.severity == Info && d.action.Some?
    ensures d.action.value.request == SaveRequest(editingId, BodyOf(nombreAutor, idPais))
    ensures d.action.value.failText == if Truthy(editingId) then "Error al actualizar el autor" else "Error al crear el autor"
    ensures d.title == if Truthy(editingId) then "✏️ Actualizar Autor" else "➕ Crear Autor"
    ensures Mentions(d.message, nombreAutor)
    ensures d.action.value.okText == if Truthy(editingId) then "Autor \"" + nombreAutor + "\" actualizado exitosamente"
                                   else "Autor \"" + nombreAutor + "\" creado exitosamente"
  {
    var req := SaveRequest(editingId, BodyOf(nombreAutor, idPais));
    if Truthy(editingId) then
      MentionsInside("¿Confirmar la actualización de \"", nombreAutor, "\"?");
      ConfirmDialog(true, "✏️ Actualizar Autor", "¿Confirmar la actualización de \"" + nombreAutor + "\"?", Info,
                    Some(Job(req, "Autor \"" + nombreAutor + "\" actualizado exitosamente", "Error al actualizar el autor")))
    else
      MentionsInside("¿Confirmar la creación del autor \"", nombreAutor, "\"?");
      ConfirmDialog(true, "➕ Crear Autor", "¿Confirmar la creación del autor \"" + nombreAutor + "\"?", Info,
                    Some(Job(req, "Autor \"" + nombreAutor + "\" creado exitosamente", "Error al crear el autor")))
  }

  /** The confirmation `handleDelete` opens: danger severity, an action deleting this author. */
  function DeleteDialog(autor: Autor): (d: ConfirmDialog<AutorBody>)
    ensures d.show && d.severity == Danger && d.action.Some?
    ensures d.action.value.request == Delete(autor.idAutor)
    ensures d.action.value.failText == "Error al eliminar el autor"
    ensures d.title == "🗑️ Eliminar Autor" && Mentions(d.message, autor.nombreAutor)
    ensures d.action.value.okText == "Autor \"" + autor.nombreAutor + "\" eliminado exitosamente"
  {
    MentionsInside("¿Estás seguro de eliminar a \"", autor.nombreAutor, "\"?\n\nEsta acción no se puede deshacer.");
    ConfirmDialog(true, "🗑️ Eliminar Autor",
                  "¿Estás seguro de eliminar a \"" + autor.nombreAutor + "\"?\n\nEsta acción no se puede deshacer.", Danger,
                  Some(Job(Delete(autor.idAutor), "Autor \"" + autor.nombreAutor + "\" eliminado exitosamente",
                           "Error al eliminar el autor")))
  }

  /** Where the page's requests go: submit sends a PUT to `/autores/<editingId>` when
      `editingId` is truthy and a POST to `/autores` otherwise; delete sends a DELETE to
      `/autores/<id>`, from whose last segment `parseInt` reads back exactly that id. */
  lemma RequestPaths(editingId: Option<int>, nombreAutor: string, idPais: string, autor: Autor)
    ensures var r := SubmitDialog(editingId, nombreAutor, idPais).action.value.request;
            && VerbOf(r) == (if Truthy(editingId) then PUT else POST)
            && Path(Collection, r) == if Truthy(editingId) then Collection + "/" + Decimal(editingId.value) else Collection
    ensures var r := DeleteDialog(autor).action.value.request;
            && VerbOf(r) == DELETE
            && Path(Collection, r) == Collection + "/" + Decimal(autor.idAutor)
            && ParseInt(Path(Collection, r)[|Collection| + 1..]) == Some(autor.idAutor)
  {
    PathAddressesRecord(Collection, DeleteDialog(autor).action.value.request);
  }

  /** Editing an author and submitting the draft unchanged sends an update of that
      author (a create when its id is 0) whose body carries its name and its own
      country id: the country id survives the trip through the select's string value. */
  lemma EditThenSubmit(autor: Autor)
    ensures var d := SubmitDialog(Some(autor.idAutor), autor.nombreAutor, Decimal(autor.idPais));
            d.action.value.request
              == if autor.idAutor != 0 then Put(autor.idAutor, AutorBody(autor.nombreAutor, Some(autor.idPais)))
                 else Post(AutorBody(autor.nombreAutor, Some(autor.idPais)))
  {
    ParseDecimalRoundTrip(autor.idPais);
  }

  class AutoresPage {
    var autores: seq<Autor>
    const paises: seq<Pais>
    var loading: bool
    var error: Option<string>
    var editingId: Option<int>
    var nombreAutor: string
    var idPais: string
    var submitting: bool
    var snackbar: Snackbar
    var confirm: ConfirmDialog<AutorBody>
    /** Mutations whose confirmation was accepted and whose response has not arrived. */
    var inFlight: seq<Job<AutorBody>>
    /** Fetches started and not yet settled. */
    var pendingFetches: nat

    ghost predicate Valid()
      reads this
    {
      Consistent(inFlight, submitting, confirm, pendingFetches, loading)
    }

    /** Mounting the page: empty state, then the mount effect starts the first fetch. */
    constructor ()
      ensures Valid()
      ensures autores == [] && paises == Paises()
      ensures loading && error == None && pendingFetches == 1
      ensures editingId == None && nombreAutor == "" && idPais == ""
      ensures !submitting && snackbar == InitialSnackbar && confirm == InitialConfirm()
      ensures inFlight == []
    {
      autores := [];
      paises := Paises();
      loading, error := true, None;
      editingId, nombreAutor, idPais := None, "", "";
      submitting := false;
      snackbar := InitialSnackbar;
      confirm := InitialConfirm();
      inFlight := [];
      pendingFetches := 1;
    }

    /** `showSnackbar`: message, kind and visibility are replaced together. */
    method ShowSnackbar(message: string, kind: Kind)
      modifies this`snackbar
      ensures snackbar == Snackbar(true, message, kind)
    {
      snackbar := Snackbar(true, message, kind);
    }

    /** `closeSnackbar`: only `show` changes. */
    method CloseSnackbar()
      modifies this`snackbar
      ensures snackbar == old(snackbar).(show := false)
    {
      snackbar := snackbar.(show := false);
    }

    /** `closeConfirm`, the decline button: only `show` changes and nothing is sent. */
    method CloseConfirm()
      requires Valid()
      modifies this`confirm
      ensures Valid()
      ensures confirm == old(confirm).(show := false)
    {
      confirm := confirm.(show := false);
    }

    /** `handleConfirm`: the pending action is started exactly once, then the dialog hides. */
    method HandleConfirm()
      requires Valid() && confirm.show
      modifies this`confirm, this`submitting, this`inFlight
      ensures Valid()
      ensures inFlight == old(inFlight) + [old(confirm.action.value)]
      ensures submitting == (old(submitting) || IsSave(old(confirm.action.value.request)))
      ensures confirm == old(confirm).(show := false)
    {
      var job := confirm.action.value;
      if IsSave(job.request) {
        submitting := true;
      }
      SavesAppend(inFlight, job);
      inFlight := inFlight + [job];
      confirm := confirm.(show := false);
    }

    /** `fetchAutores` starts: loading view on, error cleared. */
    method FetchAutores()
      requires Valid()
      modifies this`loading, this`error, this`pendingFetches
      ensures Valid()
      ensures loading && error == None && pendingFetches == old(pendingFetches) + 1
    {
      loading := true;
      error := None;
      pendingFetches := pendingFetches + 1;
    }

    /** One outstanding `fetchAutores` settles: a resolved GET replaces the list by its
        data (or []); a rejected one sets the error text and leaves the list as it was. */
    method FetchSettled(res: Response<Autor>)
      requires Valid() && pendingFetches > 0
      modifies this`autores, this`error, this`loading, this`pendingFetches
      ensures Valid()
      ensures !loading && pendingFetches == old(pendingFetches) - 1
      ensures res.Resolved? ==> autores == Loaded(res) && error == old(error)
      ensures res.Rejected? ==> autores == old(autores) && error == Some(LoadError)
    {
      if res.Resolved? {
        autores := Loaded(res);
      } else {
        error := Some(LoadError);
      }
      loading := false;
      pendingFetches := pendingFetches - 1;
    }

    /** `resetForm`, also the Cancel control. */
    method ResetForm()
      modifies this`nombreAutor, this`idPais, this`editingId
      ensures nombreAutor == "" && idPais == "" && editingId == None
    {
      nombreAutor, idPais := "", "";
      editingId := None;
    }

    /** The name input's change handler. */
    method SetNombreAutor(v: string)
      modifies this`nombreAutor
      ensures nombreAutor == v
    {
      nombreAutor := v;
    }

    /** The country select's change handler. */
    method SetIdPais(v: string)
      modifies this`idPais
      ensures idPais == v
    {
      idPais := v;
    }

    /** `handleSubmit`, reachable while the submit control is enabled. */
    method HandleSubmit()
      requires Valid() && !submitting
      modifies this`confirm
      ensures Valid()
      ensures confirm == SubmitDialog(editingId, nombreAutor, idPais)
    {
      confirm := SubmitDialog(editingId, nombreAutor, idPais);
    }

    /** `handleEdit`: id and name copied, the country id written as its decimal text. */
    method HandleEdit(autor: Autor)
      modifies this`editingId, this`nombreAutor, this`idPais
      ensures editingId == Some(autor.idAutor) && nombreAutor == autor.nombreAutor
      ensures idPais == Decimal(autor.idPais) && ParseInt(idPais) == Some(autor.idPais)
    {
      editingId := Some(autor.idAutor);
      nombreAutor := autor.nombreAutor;
      idPais := Decimal(autor.idPais);
      ParseDecimalRoundTrip(autor.idPais);
    }

    /** `handleDelete`: opens the delete confirmation; the draft and `submitting` stay. */
    method HandleDelete(autor: Autor)
      requires Valid()
      modifies this`confirm
      ensures Valid()
      ensures confirm == DeleteDialog(autor)
    {
      confirm := DeleteDialog(autor);
    }

    /** The response to the `i`-th outstanding mutation arrives. Success: the job's
        success text, the form reset after a create/update, and a refetch. Failure: the
        job's error text and the draft kept. A create/update lowers `submitting`. */
    method Settle(i: nat, ok: bool)
      requires Valid() && i < |inFlight|
      modifies this`inFlight, this`snackbar, this`submitting, this`nombreAutor, this`idPais,
               this`editingId, this`loading, this`error, this`pendingFetches
      ensures Valid()
      ensures inFlight == old(inFlight[..i] + inFlight[i + 1..])
      ensures var job := old(inFlight[i]);
              snackbar == if ok then Snackbar(true, job.okText, Success) else Snackbar(true, job.failText, Error)
      ensures submitting == (old(submitting) && !IsSave(old(inFlight[i].request)))
      ensures if ok && IsSave(old(inFlight[i].request))
              then nombreAutor == "" && idPais == "" && editingId == None
              else nombreAutor == old(nombreAutor) && idPais == old(idPais) && editingId == old(editingId)
      ensures if ok then loading && error == None && pendingFetches == old(pendingFetches) + 1
              else loading == old(loading) && error == old(error) && pendingFetches == old(pendingFetches)
    {
      var job := inFlight[i];
      SavesRemove(inFlight, i);
      inFlight := inFlight[..i] + inFlight[i + 1..];
      if IsSave(job.request) {
        submitting := false;
      }
      if ok {
        ShowSnackbar(job.okText, Success);
        if IsSave(job.request) {
          ResetForm();
        }
        FetchAutores();
      } else {
        ShowSnackbar(job.failText, Error);
      }
    }
  }
}
