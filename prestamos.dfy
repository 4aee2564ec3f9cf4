/** The loan page: a form that lends a book to a user, the active loans and the loans
    about to fall due, the return action, and the confirm-then-send workflow. */
module Prestamos {
  import opened Workflow

  datatype PrestamoActivo = PrestamoActivo(
    idPrestamo: int, idUsuario: int, nombreUsuario: string, emailUsuario: string,
    idLibro: int, tituloLibro: string, fechaPrestamo: string, fechaDevolucion: Option<string>,
    diasPrestado: int)

  datatype ProximoVencer = ProximoVencer(
    idPrestamo: int, idUsuario: int, nombreUsuario: string, emailUsuario: string,
    idLibro: int, tituloLibro: string, fechaPrestamo: string, diasRestantes: int)

  datatype Usuario = Usuario(idUsuario: int, nombre: string, email: string)
  datatype Libro = Libro(idLibro: int, titulo: string)

  /** JSON body of a new loan: `{id_usuario, id_libro}`, parsed from the selections. */
  datatype PrestamoBody = PrestamoBody(idUsuario: Option<int>, idLibro: Option<int>)

  const Collection: string := "/prestamos"
  const LoadError: string := "Error al cargar los datos de préstamos"

  /** How an active loan is highlighted by its age in days. */
  datatype AgeBand = Red | Yellow | Gray

  /** The loan-age highlight: red past 35 days, yellow past 21, gray otherwise. */
  function LoanAge(diasPrestado: int): (band: AgeBand)
    ensures band == Red <==> diasPrestado > 35
    ensures band == Yellow <==> 21 < diasPrestado <= 35
    ensures band == Gray <==> diasPrestado <= 21
  {
    if diasPrestado > 35 then Red else if diasPrestado > 21 then Yellow else Gray
  }

  function Urgency(band: AgeBand): nat {
    match band
    case Gray => 0
    case Yellow => 1
    case Red => 2
  }

  /** An older loan is never highlighted as less urgent than a younger one. */
  lemma LoanAgeMonotone(d1: int, d2: int)
    requires d1 <= d2
    ensures Urgency(LoanAge(d1)) <= Urgency(LoanAge(d2))
  {
  }

  /** `usuarios.find(u => u.id_usuario === parseInt(selected))`; NaN equals nothing. */
  function FindUsuario(usuarios: seq<Usuario>, selected: string): (r: Option<Usuario>)
    ensures r.Some? ==> ParseInt(selected) == Some(r.value.idUsuario)
    ensures r.Some? ==> exists i :: 0 <= i < |usuarios| && usuarios[i] == r.value
                                    && forall j :: 0 <= j < i ==> usuarios[j].idUsuario != r.value.idUsuario
    ensures r.None? <==> ParseInt(selected).None?
                         || forall i :: 0 <= i < |usuarios| ==> usuarios[i].idUsuario != ParseInt(selected).value
  {
    match ParseInt(selected)
    case None => None
    case Some(n) => Find(usuarios, (u: Usuario) => u.idUsuario == n)
  }

  /** `libros.find(l => l.id_libro === parseInt(selected))`; NaN equals nothing. */
  function FindLibro(libros: seq<Libro>, selected: string): (r: Option<Libro>)
    ensures r.Some? ==> ParseInt(selected) == Some(r.value.idLibro)
    ensures r.Some? ==> exists i :: 0 <= i < |libros| && libros[i] == r.value
                                    && forall j :: 0 <= j < i ==> libros[j].idLibro != r.value.idLibro
    ensures r.None? <==> ParseInt(selected).None?
                         || forall i :: 0 <= i < |libros| ==> libros[i].idLibro != ParseInt(selected).value
  {
    match ParseInt(selected)
    case None => None
    case Some(n) => Find(libros, (l: Libro) => l.idLibro == n)
  }

  /** `usuario?.nombre` in the confirmation and success texts. */
  function UsuarioName(usuarios: seq<Usuario>, selected: string): (s: string)
    ensures FindUsuario(usuarios, selected).Some? ==> s == FindUsuario(usuarios, selected).value.nombre
    ensures FindUsuario(usuarios, selected).None? ==> s == "undefined"
  {
    Interpolate(match FindUsuario(usuarios, selected) case Some(u) => Some(u.nombre) case None => None)
  }

  /** `libro?.titulo` in the confirmation text. */
  function LibroTitle(libros: seq<Libro>, selected: string): (s: string)
    ensures FindLibro(libros, selected).Some? ==> s == FindLibro(libros, selected).value.titulo
    ensures FindLibro(libros, selected).None? ==> s == "undefined"
  {
    Interpolate(match FindLibro(libros, selected) case Some(l) => Some(l.titulo) case None => None)
  }

  /** Picking a user option (whose value is the user's id as text) makes the
      confirmation name that user: the first one in the list with that id. */
  lemma SelectedUserNamed(usuarios: seq<Usuario>, k: nat)
    requires k < |usuarios|
    ensures FindUsuario(usuarios, Decimal(usuarios[k].idUsuario)).Some?
    ensures FindUsuario(usuarios, Decimal(usuarios[k].idUsuario)).value.idUsuario == usuarios[k].idUsuario
  {
    ParseDecimalRoundTrip(usuarios[k].idUsuario);
  }

  /** Picking a book option makes the confirmation name the first book with that id. */
  lemma SelectedBookNamed(libros: seq<Libro>, k: nat)
    requires k < |libros|
    ensures FindLibro(libros, Decimal(libros[k].idLibro)).Some?
    ensures FindLibro(libros, Decimal(libros[k].idLibro)).value.idLibro == libros[k].idLibro
  {
    ParseDecimalRoundTrip(libros[k].idLibro);
  }

  /** Picking, through the selects, the first listed user and the first listed book
      carrying their ids makes the loan confirmation name exactly that user and book,
      its success text name that user, and its action send exactly those two ids. */
  lemma LoanNamesSelection(usuarios: seq<Usuario>, libros: seq<Libro>, k: nat, j: nat)
    requires k < |usuarios| && j < |libros|
    requires forall i :: 0 <= i < k ==> usuarios[i].idUsuario != usuarios[k].idUsuario
    requires forall i :: 0 <= i < j ==> libros[i].idLibro != libros[j].idLibro
    ensures var d := LoanDialog(usuarios, libros, Decimal(usuarios[k].idUsuario), Decimal(libros[j].idLibro));
            && d.action.value.okText == "Préstamo registrado exitosamente para " + usuarios[k].nombre
            && Mentions(d.message, usuarios[k].nombre)
            && Mentions(d.message, libros[j].titulo)
            && d.action.value.request == Post(PrestamoBody(Some(usuarios[k].idUsuario), Some(libros[j].idLibro)))
  {
    var su, sl := Decimal(usuarios[k].idUsuario), Decimal(libros[j].idLibro);
    ParseDecimalRoundTrip(usuarios[k].idUsuario);
    ParseDecimalRoundTrip(libros[j].idLibro);
    var u := FindUsuario(usuarios, su);
    assert u == Some(usuarios[k]) by {
      var i :| 0 <= i < |usuarios| && usuarios[i] == u.value
               && forall j' :: 0 <= j' < i ==> usuarios[j'].idUsuario != u.value.idUsuario;
      assert usuarios[k].idUsuario == u.value.idUsuario == usuarios[i].idUsuario;
      assert i <= k;
      assert k <= i;
    }
    var l := FindLibro(libros, sl);
    assert l == Some(libros[j]) by {
      var i :| 0 <= i < |libros| && libros[i] == l.value
               && forall j' :: 0 <= j' < i ==> libros[j'].idLibro != l.value.idLibro;
      assert libros[j].idLibro == l.value.idLibro == libros[i].idLibro;
      assert i <= j;
      assert j <= i;
    }
  }

  /** The confirmation `handleCrearPrestamo` opens: info severity, and an action that
      creates the loan with both ids parsed from the selections made at submit time. */
  function LoanDialog(usuarios: seq<Usuario>, libros: seq<Libro>, selectedUsuario: string, selectedLibro: string)
    : (d: ConfirmDialog<PrestamoBody>)
    ensures d.show && d.severity == Info && d.action.Some?
    ensures d.action.value.request == Post(PrestamoBody(ParseInt(selectedUsuario), ParseInt(selectedLibro)))
    ensures d.action.value.failText == "Error al crear el préstamo"
    ensures d.title == "📝 Registrar Préstamo"
    ensures d.action.value.okText == "Préstamo registrado exitosamente para " + UsuarioName(usuarios, selectedUsuario)
    ensures Mentions(d.message, UsuarioName(usuarios, selectedUsuario))
    ensures Mentions(d.message, LibroTitle(libros, selectedLibro))
  {
    var nombre, titulo := UsuarioName(usuarios, selectedUsuario), LibroTitle(libros, selectedLibro);
    var head := "¿Estás seguro de registrar este préstamo?\n\nUsuario: ";
    MentionsBefore(head, nombre, "\nLibro: ", titulo);
    MentionsAtEnd(head + nombre + "\nLibro: ", titulo);
    ConfirmDialog(true, "📝 Registrar Préstamo", head + nombre + "\nLibro: " + titulo, Info,
                  Some(Job(Post(PrestamoBody(ParseInt(selectedUsuario), ParseInt(selectedLibro))),
                           "Préstamo registrado exitosamente para " + nombre, "Error al crear el préstamo")))
  }

  /** The confirmation `handleDevolver` opens: warning severity, an action returning this loan. */
  function ReturnDialog(idPrestamo: int, titulo: string, usuario: string): (d: ConfirmDialog<PrestamoBody>)
    ensures d.show && d.severity == Warning && d.action.Some?
    ensures d.action.value.request == Return(idPrestamo)
    ensures d.action.value.failText == "Error al procesar la devolución"
    ensures d.title == "📚 Devolver Libro"
    ensures d.action.value.okText == "Libro \"" + titulo + "\" devuelto exitosamente"
    ensures Mentions(d.message, titulo) && Mentions(d.message, usuario)
  {
    var head := "¿Confirmar la devolución?\n\nLibro: ";
    MentionsBefore(head, titulo, "\nUsuario: ", usuario);
    MentionsAtEnd(head + titulo + "\nUsuario: ", usuario);
    ConfirmDialog(true, "📚 Devolver Libro", head + titulo + "\nUsuario: " + usuario,
                  Warning,
                  Some(Job(Return(idPrestamo), "Libro \"" + titulo + "\" devuelto exitosamente",
                           "Error al procesar la devolución")))
  }

  class PrestamosPage {
    var prestamosActivos: seq<PrestamoActivo>
    var proximosVencer: seq<ProximoVencer>
    var usuarios: seq<Usuario>
    var libros: seq<Libro>
    var loading: bool
    var error: Option<string>
    var selectedUsuario: string
    var selectedLibro: string
    var submitting: bool
    var snackbar: Snackbar
    var confirm: ConfirmDialog<PrestamoBody>
    /** Mutations whose confirmation was accepted and whose response has not arrived. */
    var inFlight: seq<Job<PrestamoBody>>
    /** Fetches started and not yet settled. */
    var pendingFetches: nat

    ghost predicate Valid()
      reads this
    {
      Consistent(inFlight, submitting, confirm, pendingFetches, loading)
    }

    /** Mounting the page: empty state, then the mount effect starts the first fetch. */
    constructor ()
      ensures Valid()
      ensures prestamosActivos == [] && proximosVencer == [] && usuarios == [] && libros == []
      ensures loading && error == None && pendingFetches == 1
      ensures selectedUsuario == "" && selectedLibro == ""
      ensures !submitting && snackbar == InitialSnackbar && confirm == InitialConfirm()
      ensures inFlight == []
    {
      prestamosActivos, proximosVencer, usuarios, libros := [], [], [], [];
      loading, error := true, None;
      selectedUsuario, selectedLibro := "", "";
      submitting := false;
      snackbar := InitialSnackbar;
      confirm := InitialConfirm();
      inFlight := [];
      pendingFetches := 1;
    }

    /** `showSnackbar`: message, kind and visibility are replaced together. */
    method ShowSnackbar(message: string, kind: Kind)
      modifies this`snackbar
      ensures snackbar == Snackbar(true, message, kind)
    {
      snackbar := Snackbar(true, message, kind);
    }

    /** `closeSnackbar`: only `show` changes. */
    method CloseSnackbar()
      modifies this`snackbar
      ensures snackbar == old(snackbar).(show := false)
    {
      snackbar := snackbar.(show := false);
    }

    /** `closeConfirm`, the decline button: only `show` changes and nothing is sent. */
    method CloseConfirm()
      requires Valid()
      modifies this`confirm
      ensures Valid()
      ensures confirm == old(confirm).(show := false)
    {
      confirm := confirm.(show := false);
    }

    /** `handleConfirm`: the pending action is started exactly once, then the dialog hides. */
    method HandleConfirm()
      requires Valid() && confirm.show
      modifies this`confirm, this`submitting, this`inFlight
      ensures Valid()
      ensures inFlight == old(inFlight) + [old(confirm.action.value)]
      ensures submitting == (old(submitting) || IsSave(old(confirm.action.value.request)))
      ensures confirm == old(confirm).(show := false)
    {
      var job := confirm.action.value;
      if IsSave(job.request) {
        submitting := true;
      }
      SavesAppend(inFlight, job);
      inFlight := inFlight + [job];
      confirm := confirm.(show := false);
    }

    /** `fetchData` starts: loading view on, error cleared. */
    method FetchData()
      requires Valid()
      modifies this`loading, this`error, this`pendingFetches
      ensures Valid()
      ensures loading && error == None && pendingFetches == old(pendingFetches) + 1
    {
      loading := true;
      error := None;
      pendingFetches := pendingFetches + 1;
    }

    /** One outstanding `fetchData` settles with its four GET outcomes. All resolved:
        the four lists are replaced by their data (or []). Any one rejected: the error
        text is set and all four lists stay as they were. */
    method FetchSettled(activosRes: Response<PrestamoActivo>, proximosRes: Response<ProximoVencer>,
                        usuariosRes: Response<Usuario>, librosRes: Response<Libro>)
      requires Valid() && pendingFetches > 0
      modifies this`prestamosActivos, this`proximosVencer, this`usuarios, this`libros,
               this`error, this`loading, this`pendingFetches
      ensures Valid()
      ensures !loading && pendingFetches == old(pendingFetches) - 1
      ensures activosRes.Resolved? && proximosRes.Resolved? && usuariosRes.Resolved? && librosRes.Resolved? ==>
                prestamosActivos == Loaded(activosRes) && proximosVencer == Loaded(proximosRes)
                && usuarios == Loaded(usuariosRes) && libros == Loaded(librosRes) && error == old(error)
      ensures !(activosRes.Resolved? && proximosRes.Resolved? && usuariosRes.Resolved? && librosRes.Resolved?) ==>
                prestamosActivos == old(prestamosActivos) && proximosVencer == old(proximosVencer)
                && usuarios == old(usuarios) && libros == old(libros) && error == Some(LoadError)
    {
      if activosRes.Resolved? && proximosRes.Resolved? && usuariosRes.Resolved? && librosRes.Resolved? {
        prestamosActivos := Loaded(activosRes);
        proximosVencer := Loaded(proximosRes);
        usuarios := Loaded(usuariosRes);
        libros := Loaded(librosRes);
      } else {
        error := Some(LoadError);
      }
      loading := false;
      pendingFetches := pendingFetches - 1;
    }

    /** The user select's change handler. */
    method SetSelectedUsuario(v: string)
      modifies this`selectedUsuario
      ensures selectedUsuario == v
    {
      selectedUsuario := v;
    }

    /** The book select's change handler. */
    method SetSelectedLibro(v: string)
      modifies this`selectedLibro
      ensures selectedLibro == v
    {
      selectedLibro := v;
    }

    /** `handleCrearPrestamo`, reachable while the submit control is enabled: with a
        selection missing it returns without opening anything; otherwise it opens the
        loan confirmation naming the selected user and book. */
    method HandleCrearPrestamo()
      requires Valid() && !submitting
      modifies this`confirm
      ensures Valid()
      ensures selectedUsuario == "" || selectedLibro == "" ==> confirm == old(confirm)
      ensures selectedUsuario != "" && selectedLibro != "" ==>
                confirm == LoanDialog(usuarios, libros, selectedUsuario, selectedLibro)
    {
      if selectedUsuario == "" || selectedLibro == "" {
        return;
      }
      confirm := LoanDialog(usuarios, libros, selectedUsuario, selectedLibro);
    }

    /** `handleDevolver`: opens the return confirmation; selections and `submitting` stay. */
    method HandleDevolver(idPrestamo: int, titulo: string, usuario: string)
      requires Valid()
      modifies this`confirm
      ensures Valid()
      ensures confirm == ReturnDialog(idPrestamo, titulo, usuario)
    {
      confirm := ReturnDialog(idPrestamo, titulo, usuario);
    }

    /** The response to the `i`-th outstanding mutation arrives. Success: the job's
        success text, both selections cleared after a new loan, and a refetch. Failure:
        the job's error text and the selections kept. A new loan lowers `submitting`;
        a return leaves it and the selections alone. */
    method Settle(i: nat, ok: bool)
      requires Valid() && i < |inFlight|
      modifies this`inFlight, this`snackbar, this`submitting, this`selectedUsuario, this`selectedLibro,
               this`loading, this`error, this`pendingFetches
      ensures Valid()
      ensures inFlight == old(inFlight[..i] + inFlight[i + 1..])
      ensures var job := old(inFlight[i]);
              snackbar == if ok then Snackbar(true, job.okText, Success) else Snackbar(true, job.failText, Error)
      ensures submitting == (old(submitting) && !IsSave(old(inFlight[i].request)))
      ensures if ok && IsSave(old(inFlight[i].request))
              then selectedUsuario == "" && selectedLibro == ""
              else selectedUsuario == old(selectedUsuario) && selectedLibro == old(selectedLibro)
      ensures if ok then loading && error == None && pendingFetches == old(pendingFetches) + 1
              else loading == old(loading) && error == old(error) && pendingFetches == old(pendingFetches)
    {
      var job := inFlight[i];
      SavesRemove(inFlight, i);
      inFlight := inFlight[..i] + inFlight[i + 1..];
      if IsSave(job.request) {
        submitting := false;
      }
      if ok {
        ShowSnackbar(job.okText, Success);
        if IsSave(job.request) {
          selectedUsuario := "";
          selectedLibro := "";
        }
        FetchData();
      } else {
        ShowSnackbar(job.failText, Error);
      }
    }
  }

  /** Lending a listed book to a listed user, picked through the selects, sends one
      POST to the loans collection whose body carries exactly those two ids, and the
      submit control is disabled while it is outstanding. */
  method LendSelected(usuarios: seq<Usuario>, libros: seq<Libro>, k: nat, j: nat)
    returns (sent: Request<PrestamoBody>, path: string, busy: bool)
    requires k < |usuarios| && j < |libros|
    ensures sent == Post(PrestamoBody(Some(usuarios[k].idUsuario), Some(libros[j].idLibro)))
    ensures path == Collection
    ensures busy
  {
    var page := new PrestamosPage();
    page.FetchSettled(Resolved(Some([])), Resolved(Some([])), Resolved(Some(usuarios)), Resolved(Some(libros)));
    page.SetSelectedUsuario(Decimal(usuarios[k].idUsuario));
    page.SetSelectedLibro(Decimal(libros[j].idLibro));
    page.HandleCrearPrestamo();
    page.HandleConfirm();
    ParseDecimalRoundTrip(usuarios[k].idUsuario);
    ParseDecimalRoundTrip(libros[j].idLibro);
    sent := page.inFlight[0].request;
    path := Path(Collection, sent);
    busy := page.submitting;
  }
}
