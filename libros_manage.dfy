/** The book management page: a form (title, author, genre) that creates or updates a
    book, the list of books, and the confirm-then-send workflow around every change. */
module LibrosManage {
  import opened Workflow

  datatype Libro = Libro(idLibro: int, titulo: string, nombreGenero: string, nombreAutor: string, nombrePais: string)
  datatype Autor = Autor(idAutor: int, nombreAutor: string)
  datatype Genero = Genero(idGenero: int, nombreGenero: string)

  /** JSON body of a create or update: `{titulo, id_autor, id_genero}`, the ids parsed
      from the select values (None is NaN). */
  datatype LibroBody = LibroBody(titulo: string, idAutor: Option<int>, idGenero: Option<int>)

  const Collection: string := "/libros"
  const LoadError: string := "Error al cargar los datos"

  /** The request body `handleSubmit` snapshots from the draft. */
  function BodyOf(titulo: string, idAutor: string, idGenero: string): (b: LibroBody)
    ensures b.titulo == titulo
    ensures idAutor == "" ==> b.idAutor == None
    ensures idGenero == "" ==> b.idGenero == None
  {
    LibroBody(titulo, ParseInt(idAutor), ParseInt(idGenero))
  }

  /** The confirmation `handleSubmit` opens: info severity, and an action that updates
      `editingId` when it is truthy and creates otherwise, with the body and the title
      captured now. */
  function SubmitDialog(editingId: Option<int>, titulo: string, idAutor: string, idGenero: string)
    : (d: ConfirmDialog<LibroBody>)
    ensures d.show && d.severity == Info && d.action.Some?
    ensures d.action.value.request == SaveRequest(editingId, BodyOf(titulo, idAutor, idGenero))
    ensures d.action.value.failText == if Truthy(editingId) then "Error al actualizar el libro" else "Error al crear el libro"
    ensures d.title == if Truthy(editingId) then "✏️ Actualizar Libro" else "➕ Crear Libro"
    ensures Mentions(d.message, titulo)
    ensures d.action.value.okText == if Truthy(editingId) then "Libro \"" + titulo + "\" actualizado exitosamente"
                                   else "Libro \"" + titulo + "\" creado exitosamente"
  {
    var req := SaveRequest(editingId, BodyOf(titulo, idAutor, idGenero));
    if Truthy(editingId) then
      MentionsInside("¿Confirmar la actualización de \"", titulo, "\"?");
      ConfirmDialog(true, "✏️ Actualizar Libro", "¿Confirmar la actualización de \"" + titulo + "\"?", Info,
                    Some(Job(req, "Libro \"" + titulo + "\" actualizado exitosamente", "Error al actualizar el libro")))
    else
      MentionsInside("¿Confirmar la creación del libro \"", titulo, "\"?");
      ConfirmDialog(true, "➕ Crear Libro", "¿Confirmar la creación del libro \"" + titulo + "\"?", Info,
                    Some(Job(req, "Libro \"" + titulo + "\" creado exitosamente", "Error al crear el libro")))
  }

  /** The confirmation `handleDelete` opens: danger severity, and an action that deletes
      exactly this book. */
  function DeleteDialog(libro: Libro): (d: ConfirmDialog<LibroBody>)
    ensures d.show && d.severity == Danger && d.action.Some?
    ensures d.action.value.request == Delete(libro.idLibro)
    ensures d.action.value.failText == "Error al eliminar el libro"
    ensures d.title == "🗑️ Eliminar Libro" && Mentions(d.message, libro.titulo)
    ensures d.action.value.okText == "Libro \"" + libro.titulo + "\" eliminado exitosamente"
  {
    MentionsInside("¿Estás seguro de eliminar \"", libro.titulo, "\"?\n\nEsta acción no se puede deshacer.");
    ConfirmDialog(true, "🗑️ Eliminar Libro",
                  "¿Estás seguro de eliminar \"" + libro.titulo + "\"?\n\nEsta acción no se puede deshacer.", Danger,
                  Some(Job(Delete(libro.idLibro), "Libro \"" + libro.titulo + "\" eliminado exitosamente",
                           "Error al eliminar el libro")))
  }

  /** `autores.find(a => a.nombre_autor === nombre)`. */
  function FindAutor(autores: seq<Autor>, nombre: string): (r: Option<Autor>)
    ensures r.None? <==> forall i :: 0 <= i < |autores| ==> autores[i].nombreAutor != nombre
    ensures r.Some? ==> exists i :: 0 <= i < |autores| && autores[i] == r.value && r.value.nombreAutor == nombre
                                    && forall j :: 0 <= j < i ==> autores[j].nombreAutor != nombre
  {
    Find(autores, (a: Autor) => a.nombreAutor == nombre)
  }

  /** `generos.find(g => g.nombre_genero === nombre)`. */
  function FindGenero(generos: seq<Genero>, nombre: string): (r: Option<Genero>)
    ensures r.None? <==> forall i :: 0 <= i < |generos| ==> generos[i].nombreGenero != nombre
    ensures r.Some? ==> exists i :: 0 <= i < |generos| && generos[i] == r.value && r.value.nombreGenero == nombre
                                    && forall j :: 0 <= j < i ==> generos[j].nombreGenero != nombre
  {
    Find(generos, (g: Genero) => g.nombreGenero == nombre)
  }

  /** The author select value `handleEdit` sets: the found author's id as a string, or ''. */
  function AutorOption(autores: seq<Autor>, nombre: string): (v: string)
    ensures v == "" <==> forall i :: 0 <= i < |autores| ==> autores[i].nombreAutor != nombre
  {
    match FindAutor(autores, nombre)
    case Some(a) => Decimal(a.idAutor)
    case None => ""
  }

  /** The genre select value `handleEdit` sets: the found genre's id as a string, or ''. */
  function GeneroOption(generos: seq<Genero>, nombre: string): (v: string)
    ensures v == "" <==> forall i :: 0 <= i < |generos| ==> generos[i].nombreGenero != nombre
  {
    match FindGenero(generos, nombre)
    case Some(g) => Decimal(g.idGenero)
    case None => ""
  }

  /** Editing a book and submitting it unchanged sends back, as `id_autor` and
      `id_genero`, the ids of the first author and genre carrying the book's names,
      and NaN for a name that no longer matches any. */
  lemma EditedBodyIds(autores: seq<Autor>, generos: seq<Genero>, libro: Libro)
    ensures var b := BodyOf(libro.titulo, AutorOption(autores, libro.nombreAutor), GeneroOption(generos, libro.nombreGenero));
            && b.titulo == libro.titulo
            && (b.idAutor.Some? <==> FindAutor(autores, libro.nombreAutor).Some?)
            && (b.idAutor.Some? ==> b.idAutor.value == FindAutor(autores, libro.nombreAutor).value.idAutor)
            && (b.idGenero.Some? <==> FindGenero(generos, libro.nombreGenero).Some?)
            && (b.idGenero.Some? ==> b.idGenero.value == FindGenero(generos, libro.nombreGenero).value.idGenero)
  {
    var a := FindAutor(autores, libro.nombreAutor);
    if a.Some? { ParseDecimalRoundTrip(a.value.idAutor); }
    var g := FindGenero(generos, libro.nombreGenero);
    if g.Some? { ParseDecimalRoundTrip(g.value.idGenero); }
  }

  class LibrosPage {
    var libros: seq<Libro>
    var autores: seq<Autor>
    var generos: seq<Genero>
    var loading: bool
    var error: Option<string>
    var editingId: Option<int>
    var titulo: string
    var idAutor: string
    var idGenero: string
    var submitting: bool
    var snackbar: Snackbar
    var confirm: ConfirmDialog<LibroBody>
    /** Mutations whose confirmation was accepted and whose response has not arrived. */
    var inFlight: seq<Job<LibroBody>>
    /** Fetches started and not yet settled. */
    var pendingFetches: nat

    ghost predicate Valid()
      reads this
    {
      Consistent(inFlight, submitting, confirm, pendingFetches, loading)
    }

    /** Mounting the page: empty state, then the mount effect starts the first fetch. */
    constructor ()
      ensures Valid()
      ensures libros == [] && autores == [] && generos == []
      ensures loading && error == None && pendingFetches == 1
      ensures editingId == None && titulo == "" && idAutor == "" && idGenero == ""
      ensures !submitting && snackbar == InitialSnackbar && confirm == InitialConfirm()
      ensures inFlight == []
    {
      libros, autores, generos := [], [], [];
      loading, error := true, None;
      editingId, titulo, idAutor, idGenero := None, "", "", "";
      submitting := false;
      snackbar := InitialSnackbar;
      confirm := InitialConfirm();
      inFlight := [];
      pendingFetches := 1;
    }

    /** `showSnackbar`: message, kind and visibility are replaced together. */
    method ShowSnackbar(message: string, kind: Kind)
      modifies this`snackbar
      ensures snackbar == Snackbar(true, message, kind)
    {
      snackbar := Snackbar(true, message, kind);
    }

    /** `closeSnackbar` (the close button or the display timer): only `show` changes. */
    method CloseSnackbar()
      modifies this`snackbar
      ensures snackbar == old(snackbar).(show := false)
    {
      snackbar := snackbar.(show := false);
    }

    /** `closeConfirm`, the decline button: only `show` changes; title, message,
        severity and the pending action stay, and nothing is sent. */
    method CloseConfirm()
      requires Valid()
      modifies this`confirm
      ensures Valid()
      ensures confirm == old(confirm).(show := false)
    {
      confirm := confirm.(show := false);
    }

    /** `handleConfirm`, the accept button of the open dialog: the pending action is
        started exactly once (a save raises `submitting`), then the dialog is hidden. */
    method HandleConfirm()
      requires Valid() && confirm.show
      modifies this`confirm, this`submitting, this`inFlight
      ensures Valid()
      ensures inFlight == old(inFlight) + [old(confirm.action.value)]
      ensures submitting == (old(submitting) || IsSave(old(confirm.action.value.request)))
      ensures confirm == old(confirm).(show := false)
    {
      var job := confirm.action.value;
      if IsSave(job.request) {
        submitting := true;
      }
      SavesAppend(inFlight, job);
      inFlight := inFlight + [job];
      confirm := confirm.(show := false);
    }

    /** `fetchData`, started by the mount effect, the retry control or a successful
        mutation: the loading view is shown and the error cleared. */
    method FetchData()
      requires Valid()
      modifies this`loading, this`error, this`pendingFetches
      ensures Valid()
      ensures loading && error == None && pendingFetches == old(pendingFetches) + 1
    {
      loading := true;
      error := None;
      pendingFetches := pendingFetches + 1;
    }

    /** One outstanding `fetchData` settles with the three GET outcomes. All resolved:
        the three lists are replaced by their data (or []). Any rejected: the error
        text is set and no list is touched. The loading view ends either way. */
    method FetchSettled(librosRes: Response<Libro>, autoresRes: Response<Autor>, generosRes: Response<Genero>)
      requires Valid() && pendingFetches > 0
      modifies this`libros, this`autores, this`generos, this`error, this`loading, this`pendingFetches
      ensures Valid()
      ensures !loading && pendingFetches == old(pendingFetches) - 1
      ensures librosRes.Resolved? && autoresRes.Resolved? && generosRes.Resolved? ==>
                libros == Loaded(librosRes) && autores == Loaded(autoresRes) && generos == Loaded(generosRes)
                && error == old(error)
      ensures !(librosRes.Resolved? && autoresRes.Resolved? && generosRes.Resolved?) ==>
                libros == old(libros) && autores == old(autores) && generos == old(generos)
                && error == Some(LoadError)
    {
      if librosRes.Resolved? && autoresRes.Resolved? && generosRes.Resolved? {
        libros := Loaded(librosRes);
        autores := Loaded(autoresRes);
        generos := Loaded(generosRes);
      } else {
        error := Some(LoadError);
      }
      loading := false;
      pendingFetches := pendingFetches - 1;
    }

    /** `resetForm`, also the Cancel control: the draft is emptied and create mode restored. */
    method ResetForm()
      modifies this`titulo, this`idAutor, this`idGenero, this`editingId
      ensures titulo == "" && idAutor == "" && idGenero == "" && editingId == None
    {
      titulo, idAutor, idGenero := "", "", "";
      editingId := None;
    }

    /** The title input's change handler. */
    method SetTitulo(v: string)
      modifies this`titulo
      ensures titulo == v
    {
      titulo := v;
    }

    /** The author select's change handler. */
    method SetIdAutor(v: string)
      modifies this`idAutor
      ensures idAutor == v
    {
      idAutor := v;
    }

    /** The genre select's change handler. */
    method SetIdGenero(v: string)
      modifies this`idGenero
      ensures idGenero == v
    {
      idGenero := v;
    }

    /** `handleSubmit`, reachable while the submit control is enabled: opens the
        create or update confirmation; nothing is sent yet. */
    method HandleSubmit()
      requires Valid() && !submitting
      modifies this`confirm
      ensures Valid()
      ensures confirm == SubmitDialog(editingId, titulo, idAutor, idGenero)
    {
      confirm := SubmitDialog(editingId, titulo, idAutor, idGenero);
    }

    /** `handleEdit`: the draft takes the book's id and title, and the ids of the first
        author and genre whose names match the book's ('' when none does). */
    method HandleEdit(libro: Libro)
      modifies this`editingId, this`titulo, this`idAutor, this`idGenero
      ensures editingId == Some(libro.idLibro) && titulo == libro.titulo
      ensures idAutor == AutorOption(autores, libro.nombreAutor)
      ensures idGenero == GeneroOption(generos, libro.nombreGenero)
    {
      editingId := Some(libro.idLibro);
      titulo := libro.titulo;
      idAutor := AutorOption(autores, libro.nombreAutor);
      idGenero := GeneroOption(generos, libro.nombreGenero);
    }

    /** `handleDelete`: opens the delete confirmation; the draft and `submitting` stay. */
    method HandleDelete(libro: Libro)
      requires Valid()
      modifies this`confirm
      ensures Valid()
      ensures confirm == DeleteDialog(libro)
    {
      confirm := DeleteDialog(libro);
    }

    /** The response to the `i`-th outstanding mutation arrives (`ok` = 2xx). Success:
        the job's success text, the draft emptied after a create/update, and a refetch.
        Failure: the job's error text, the draft kept. A create/update lowers
        `submitting`; a delete leaves it and the draft alone. */
    method Settle(i: nat, ok: bool)
      requires Valid() && i < |inFlight|
      modifies this`inFlight, this`snackbar, this`submitting, this`titulo, this`idAutor, this`idGenero,
               this`editingId, this`loading, this`error, this`pendingFetches
      ensures Valid()
      ensures inFlight == old(inFlight[..i] + inFlight[i + 1..])
      ensures var job := old(inFlight[i]);
              snackbar == if ok then Snackbar(true, job.okText, Success) else Snackbar(true, job.failText, Error)
      ensures submitting == (old(submitting) && !IsSave(old(inFlight[i].request)))
      ensures if ok && IsSave(old(inFlight[i].request))
              then titulo == "" && idAutor == "" && idGenero == "" && editingId == None
              else titulo == old(titulo) && idAutor == old(idAutor) && idGenero == old(idGenero)
                   && editingId == old(editingId)
      ensures if ok then loading && error == None && pendingFetches == old(pendingFetches) + 1
              else loading == old(loading) && error == old(error) && pendingFetches == old(pendingFetches)
    {
      var job := inFlight[i];
      SavesRemove(inFlight, i);
      inFlight := inFlight[..i] + inFlight[i + 1..];
      if IsSave(job.request) {
        submitting := false;
      }
      if ok {
        ShowSnackbar(job.okText, Success);
        if IsSave(job.request) {
          ResetForm();
        }
        FetchData();
      } else {
        ShowSnackbar(job.failText, Error);
      }
    }
  }

  /** Deleting a book and accepting the confirmation sends exactly one DELETE to that
      book's path; its outcome is announced with the book's title or the delete error
      text, and only a success starts a refetch. */
  method DeleteAccepted(libro: Libro, ok: bool)
    returns (sent: Request<LibroBody>, path: string, notice: Snackbar, fetches: nat)
    ensures sent == Delete(libro.idLibro) && VerbOf(sent) == DELETE
    ensures path == Collection + "/" + Decimal(libro.idLibro)
    ensures notice == if ok then Snackbar(true, "Libro \"" + libro.titulo + "\" eliminado exitosamente", Success)
                      else Snackbar(true, "Error al eliminar el libro", Error)
    ensures fetches == if ok then 2 else 1
  {
    var page := new LibrosPage();
    page.HandleDelete(libro);
    page.HandleConfirm();
    sent := page.inFlight[0].request;
    path := Path(Collection, sent);
    page.Settle(0, ok);
    notice := page.snackbar;
    fetches := page.pendingFetches;
  }

  /** Declining the delete confirmation sends nothing, and the dialog keeps its action. */
  method DeleteDeclined(libro: Libro) returns (sentCount: nat, kept: Option<Job<LibroBody>>)
    ensures sentCount == 0
    ensures kept == Some(Job(Delete(libro.idLibro), "Libro \"" + libro.titulo + "\" eliminado exitosamente",
                             "Error al eliminar el libro"))
  {
    var page := new LibrosPage();
    page.HandleDelete(libro);
    page.CloseConfirm();
    sentCount := |page.inFlight|;
    kept := page.confirm.action;
  }
}
