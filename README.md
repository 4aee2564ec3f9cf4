# Library administration pages: the guarded-mutation workflow

The library front end has five management pages: books (`LibrosManage`), authors (`AutoresManage`), users (`Usuarios`), genres (`GenerosManage`) and loans (`Prestamos`). Each page runs the same small state machine:

- a form draft (text fields, and `editingId` on the record pages, or two selections on the loan page);
- a confirmation dialog (`show`, title, message, severity, and the deferred action);
- a notification (`show`, message, kind);
- a `submitting` flag;
- `loading` and `error` flags;
- one or more lists that a fetch replaces wholesale.

A create, update, delete or return is never sent directly. The handler opens a confirmation whose action was fixed when the dialog opened. Only accepting the dialog starts the request. The request's outcome then decides the notification, whether the draft is cleared, and whether the lists are fetched again.

The project has six files:

- `workflow.dfy` (module `Workflow`) holds what the pages share:
  - the request, job, dialog, notification and response values;
  - the truthiness of `editingId` that chooses between update and create;
  - JavaScript's `Array.prototype.find`, `Number.prototype.toString` and `parseInt` on decimal text, with their round trip;
  - request paths;
  - the page invariant.
- `libros_manage.dfy`, `autores_manage.dfy`, `usuarios.dfy`, `generos_manage.dfy` and `prestamos.dfy` hold one module per page. Each has:
  - the page's record types and request body;
  - the dialogs its handlers open, as pure functions;
  - a class whose fields are the page's state hooks and whose methods are its handlers.

How the asynchronous parts are modelled:

- **The deferred action** is a `Job`. It holds the request (`Post(body)`, `Put(id, body)`, `Delete(id)` or `Return(id)`), the success text and the failure text. It is built when the dialog opens, so the body and texts are the ones captured at submit time.
- **Accepting** (`HandleConfirm`) appends the job to `inFlight`, the list of requests started and not yet answered. It raises `submitting` for a create or update, and hides the dialog.
- **The answer** arrives in `Settle(i, ok)`. Any outstanding job may settle first. `ok` is the network outcome.
- **A fetch** is split in two steps. `FetchData`/`FetchAutores`/… sets `loading`, clears `error` and counts one more pending fetch. `FetchSettled` consumes one pending fetch with the response of every GET. On the loan and book pages, one rejected GET fails the whole `Promise.all`.

Every page keeps the invariant `Valid()` (`Workflow.Consistent`):

- `submitting` holds exactly when one create or update is outstanding.
- A visible dialog has an action.
- A visible create/update dialog is never open while `submitting`.
- `loading` is off when no fetch is pending.

Two preconditions exist only to keep this invariant:

- `HandleSubmit` (and `HandleCrearPrestamo`) require `!submitting`, because the submit control is `disabled={submitting}` (src/pages/LibrosManage.tsx:297).
- `HandleConfirm` requires `confirm.show`, because the dialog renders nothing when it is not open (src/components/ConfirmDialog.tsx:22).

Points where the code's behaviour is easy to misread; the model follows the code:

- Declining a confirmation only hides it. Title, message, severity and action are kept (`{ ...confirmDialog, show: false }`); they are not discarded.
- The update branch is taken when `editingId` is truthy. An `editingId` of `0` therefore creates rather than updates.
- Accepting runs the action first and hides the dialog after it.
- After a failed fetch the page shows the error view, but the old lists stay in the state.

## Model

| member | source | states |
|---|---|---|
| Workflow.InitialConfirm | src/pages/LibrosManage.tsx:63-69 | the initial dialog is hidden, has info severity and no pending action |
| Workflow.Loaded | src/pages/LibrosManage.tsx:106-108 | a resolved GET yields its `data` list, or `[]` when the data is missing |
| Workflow.SaveRequest | src/pages/LibrosManage.tsx:136-179 | submit sends an update exactly when `editingId` is non-null and non-zero, addressed to that id; otherwise a create; either way the body is the snapshot given |
| Workflow.Truthy | src/pages/LibrosManage.tsx:136 | `if (editingId)` is false exactly for `null` and `0` |
| Workflow.Path | src/pages/LibrosManage.tsx:144 | every request goes under its collection path, and only a create goes to the collection path itself |
| Workflow.Interpolate | src/pages/Prestamos.tsx:149 | a found value is interpolated as its text, and a missing one as the text `undefined` |
| Workflow.Find | src/pages/LibrosManage.tsx:186-187 | `find` returns nothing iff no element satisfies the predicate, and otherwise the first element that does |
| Workflow.Decimal | src/pages/LibrosManage.tsx:189-190 | `toString` of an integer is non-empty decimal text that starts with `-` exactly for negative numbers |
| Workflow.ParseInt | src/pages/LibrosManage.tsx:133-134 | `parseInt('')` is NaN; text starting with a digit parses to a non-negative number |
| Workflow.ParseDecimal | src/pages/Prestamos.tsx:179 | `parseInt` of an integer's decimal text followed by any text that does not start with a digit gives back the integer |
| Workflow.ParseDecimalRoundTrip | src/pages/AutoresManage.tsx:124 | `parseInt(n.toString()) == n` for every id, ids being modelled as unbounded integers |
| Workflow.DecimalInjective | src/pages/LibrosManage.tsx:269 | distinct ids give distinct option values |
| Workflow.VerbOf | src/pages/LibrosManage.tsx:144-165 | a request is sent as POST exactly when it is a create and as DELETE exactly when it is a delete |
| Workflow.PathAddressesRecord | src/pages/Prestamos.tsx:179 | every request other than a create goes to the collection path, a slash, and text from which `parseInt` reads back exactly the record's id |
| Workflow.PathInjective | src/pages/LibrosManage.tsx:204 | two record requests with the same path address the same record |
| Workflow.SavesRemove | src/pages/LibrosManage.tsx:152-154 | settling one outstanding job lowers the count of outstanding creates/updates by one exactly when that job was a create/update |
| Workflow.SavesAppend | src/pages/LibrosManage.tsx:142-143 | starting a job raises the count of outstanding creates/updates by one exactly when it is a create/update |
| LibrosManage.BodyOf | src/pages/LibrosManage.tsx:131-135 | the body carries the title unchanged and NaN for an empty author or genre selection |
| LibrosManage.SubmitDialog | src/pages/LibrosManage.tsx:136-179 | submit opens a visible info confirmation titled for update or create by branch, whose prompt names the title, whose action sends `SaveRequest(editingId, body)`, and whose success text `Libro "<titulo>" actualizado/creado exitosamente` and failure text follow the branch |
| LibrosManage.DeleteDialog | src/pages/LibrosManage.tsx:198-214 | delete opens a visible danger confirmation whose prompt names the book's title, whose action deletes exactly this book's id, with success text `Libro "<titulo>" eliminado exitosamente` and failure text 'Error al eliminar el libro' |
| LibrosManage.FindAutor | src/pages/LibrosManage.tsx:186 | the author found is the first whose name equals the book's author name; none iff no name matches |
| LibrosManage.FindGenero | src/pages/LibrosManage.tsx:187 | the genre found is the first whose name equals the book's genre name; none iff no name matches |
| LibrosManage.AutorOption | src/pages/LibrosManage.tsx:186-189 | the author selection after edit is empty iff no author carries the book's author name |
| LibrosManage.GeneroOption | src/pages/LibrosManage.tsx:187-190 | the genre selection after edit is empty iff no genre carries the book's genre name |
| LibrosManage.EditedBodyIds | src/pages/LibrosManage.tsx:182-190 | after editing a book, the body submitted carries the book's title and, as author and genre ids, the ids of the first matching author and genre, NaN exactly when none matches |
| LibrosManage.LibrosPage.constructor | src/pages/LibrosManage.tsx:41-69 | the page mounts with empty lists, an empty draft, hidden notification and dialog, nothing outstanding, and the mount fetch pending |
| LibrosManage.LibrosPage.ShowSnackbar | src/pages/LibrosManage.tsx:71-73 | message, kind and visibility are replaced together |
| LibrosManage.LibrosPage.CloseSnackbar | src/pages/LibrosManage.tsx:75-77 | only `show` becomes false |
| LibrosManage.LibrosPage.CloseConfirm | src/pages/LibrosManage.tsx:88-90 | declining only sets `show` to false: title, message, severity and action are kept, and nothing is sent |
| LibrosManage.LibrosPage.HandleConfirm | src/pages/LibrosManage.tsx:92-95 | accepting starts the pending action exactly once, raises `submitting` for a create/update, then hides the dialog |
| LibrosManage.LibrosPage.FetchData | src/pages/LibrosManage.tsx:97-100 | a fetch starts with loading on and the error cleared |
| LibrosManage.LibrosPage.FetchSettled | src/pages/LibrosManage.tsx:101-115 | all three GETs resolved: the three lists become their data or `[]`; any rejected: error 'Error al cargar los datos' and all lists kept; loading off |
| LibrosManage.LibrosPage.ResetForm | src/pages/LibrosManage.tsx:121-126 | title, author and genre selections become '' and `editingId` null |
| LibrosManage.LibrosPage.SetTitulo | src/pages/LibrosManage.tsx:252 | the title input sets the title |
| LibrosManage.LibrosPage.SetIdAutor | src/pages/LibrosManage.tsx:263 | the author select sets the author selection |
| LibrosManage.LibrosPage.SetIdGenero | src/pages/LibrosManage.tsx:280 | the genre select sets the genre selection |
| LibrosManage.LibrosPage.HandleSubmit | src/pages/LibrosManage.tsx:128-180 | submit only opens the confirmation built from the current draft; nothing is sent yet |
| LibrosManage.LibrosPage.HandleEdit | src/pages/LibrosManage.tsx:182-190 | edit sets `editingId` and title from the book and the author/genre selections to the matching ids' text or '' |
| LibrosManage.LibrosPage.HandleDelete | src/pages/LibrosManage.tsx:198-214 | delete opens the delete confirmation and touches neither `submitting` nor the draft |
| LibrosManage.LibrosPage.Settle | src/pages/LibrosManage.tsx:142-154 | success: the job's success text, draft reset after a create/update, and a refetch; failure: the job's error text and the draft unchanged; `submitting` falls after a create/update and is untouched by a delete |
| LibrosManage.DeleteAccepted | src/pages/LibrosManage.tsx:198-214 | deleting a book and accepting sends one DELETE to `/libros/{id}`, then announces the title or the delete error, and refetches only on success |
| LibrosManage.DeleteDeclined | src/pages/LibrosManage.tsx:88-90 | declining the delete confirmation sends nothing and keeps its action |
| AutoresManage.Paises | src/pages/AutoresManage.tsx:37-43 | the country list has five entries with ids 1 to 5 |
| AutoresManage.BodyOf | src/pages/AutoresManage.tsx:122-125 | the body carries the author name unchanged and NaN for an empty country selection |
| AutoresManage.SubmitDialog | src/pages/AutoresManage.tsx:119-170 | submit opens a visible info confirmation titled by branch, whose prompt names the author, whose action sends `SaveRequest(editingId, body)`, with success text `Autor "<nombre>" actualizado/creado exitosamente` and failure text by branch |
| AutoresManage.DeleteDialog | src/pages/AutoresManage.tsx:179-195 | delete opens a visible danger confirmation whose prompt names the author, whose action deletes exactly this author's id, with success text `Autor "<nombre>" eliminado exitosamente` and failure text 'Error al eliminar el autor' |
| AutoresManage.RequestPaths | src/pages/AutoresManage.tsx:135-185 | submit sends a PUT to `/autores/<editingId>` when it is truthy and a POST to `/autores` otherwise; delete sends a DELETE to `/autores/<id_autor>`, whose last segment parses back to that id |
| AutoresManage.EditThenSubmit | src/pages/AutoresManage.tsx:172-175 | editing an author and submitting it unchanged sends an update of that author (a create for id 0) with its name and its own country id |
| AutoresManage.AutoresPage.constructor | src/pages/AutoresManage.tsx:35-67 | the page mounts with the fixed country list, empty draft and list, and the mount fetch pending |
| AutoresManage.AutoresPage.ShowSnackbar | src/pages/AutoresManage.tsx:69-71 | message, kind and visibility are replaced together |
| AutoresManage.AutoresPage.CloseSnackbar | src/pages/AutoresManage.tsx:73-75 | only `show` becomes false |
| AutoresManage.AutoresPage.CloseConfirm | src/pages/AutoresManage.tsx:86-88 | declining only hides the dialog and sends nothing |
| AutoresManage.AutoresPage.HandleConfirm | src/pages/AutoresManage.tsx:90-93 | accepting starts the pending action exactly once, then hides the dialog |
| AutoresManage.AutoresPage.FetchAutores | src/pages/AutoresManage.tsx:95-98 | a fetch starts with loading on and the error cleared |
| AutoresManage.AutoresPage.FetchSettled | src/pages/AutoresManage.tsx:99-107 | resolved: the list becomes the data or `[]`; rejected: 'Error al cargar los autores' and the list kept; loading off |
| AutoresManage.AutoresPage.ResetForm | src/pages/AutoresManage.tsx:113-117 | name and country selection become '' and `editingId` null |
| AutoresManage.AutoresPage.SetNombreAutor | src/pages/AutoresManage.tsx:233 | the name input sets the name |
| AutoresManage.AutoresPage.SetIdPais | src/pages/AutoresManage.tsx:244 | the country select sets the country selection |
| AutoresManage.AutoresPage.HandleSubmit | src/pages/AutoresManage.tsx:119-170 | submit only opens the confirmation built from the current draft |
| AutoresManage.AutoresPage.HandleEdit | src/pages/AutoresManage.tsx:172-175 | edit copies the id and name and writes the country id as decimal text that parses back to it |
| AutoresManage.AutoresPage.HandleDelete | src/pages/AutoresManage.tsx:179-195 | delete opens the delete confirmation and touches neither `submitting` nor the draft |
| AutoresManage.AutoresPage.Settle | src/pages/AutoresManage.tsx:132-144 | the form is reset after a successful create/update and never after a failure; success refetches; `submitting` falls after a create/update |
| Usuarios.SubmitDialog | src/pages/Usuarios.tsx:107-155 | submit opens a visible info confirmation titled by branch, whose prompt names the user, whose action sends `SaveRequest(editingId, {nombre, email})`, with success text `Usuario "<nombre>" actualizado/creado exitosamente` and failure text by branch |
| Usuarios.DeleteDialog | src/pages/Usuarios.tsx:164-180 | delete opens a visible danger confirmation whose prompt names the user, whose action deletes exactly this user's id, with success text `Usuario "<nombre>" eliminado exitosamente` and failure text 'Error al eliminar el usuario' |
| Usuarios.RequestPaths | src/pages/Usuarios.tsx:120-170 | submit sends a PUT to `/usuarios/<editingId>` when it is truthy and a POST to `/usuarios` otherwise; delete sends a DELETE to `/usuarios/<id_usuario>`, whose last segment parses back to that id |
| Usuarios.UsuariosPage.constructor | src/pages/Usuarios.tsx:30-55 | the page mounts with empty draft and list and the mount fetch pending |
| Usuarios.UsuariosPage.ShowSnackbar | src/pages/Usuarios.tsx:57-59 | message, kind and visibility are replaced together |
| Usuarios.UsuariosPage.CloseSnackbar | src/pages/Usuarios.tsx:61-63 | only `show` becomes false |
| Usuarios.UsuariosPage.CloseConfirm | src/pages/Usuarios.tsx:74-76 | declining only hides the dialog and sends nothing |
| Usuarios.UsuariosPage.HandleConfirm | src/pages/Usuarios.tsx:78-81 | accepting starts the pending action exactly once, then hides the dialog |
| Usuarios.UsuariosPage.FetchUsuarios | src/pages/Usuarios.tsx:83-86 | a fetch starts with loading on and the error cleared |
| Usuarios.UsuariosPage.FetchSettled | src/pages/Usuarios.tsx:87-95 | resolved: the list becomes the data or `[]`; rejected: 'Error al cargar los usuarios' and the list kept; loading off |
| Usuarios.UsuariosPage.ResetForm | src/pages/Usuarios.tsx:101-105 | name and e-mail become '' and `editingId` null |
| Usuarios.UsuariosPage.SetNombre | src/pages/Usuarios.tsx:218 | the name input sets the name |
| Usuarios.UsuariosPage.SetEmail | src/pages/Usuarios.tsx:230 | the e-mail input sets the e-mail |
| Usuarios.UsuariosPage.HandleSubmit | src/pages/Usuarios.tsx:107-155 | submit only opens the confirmation built from the snapshot `{nombre, email}` |
| Usuarios.UsuariosPage.HandleEdit | src/pages/Usuarios.tsx:157-160 | edit copies id, name and e-mail unchanged from the user |
| Usuarios.UsuariosPage.HandleDelete | src/pages/Usuarios.tsx:164-180 | delete opens the delete confirmation and never changes `submitting` |
| Usuarios.UsuariosPage.Settle | src/pages/Usuarios.tsx:117-129 | success resets the form and refetches; failure shows the error and keeps the draft; `submitting` falls after a create/update either way |
| Usuarios.EditSubmitConfirm | src/pages/Usuarios.tsx:157-160 | editing a user, submitting and accepting sends one update of that user (a create for id 0) with name and e-mail unchanged, with `submitting` raised |
| GenerosManage.SubmitDialog | src/pages/GenerosManage.tsx:103-153 | submit opens a visible info confirmation titled by branch, whose prompt names the genre, whose action sends `SaveRequest(editingId, {nombre_genero})`, with success text `Género "<nombre>" actualizado/creado exitosamente` and failure text by branch |
| GenerosManage.DeleteDialog | src/pages/GenerosManage.tsx:161-177 | delete opens a visible danger confirmation whose prompt names the genre, whose action deletes exactly this genre's id, with success text `Género "<nombre>" eliminado exitosamente` and failure text 'Error al eliminar el género' |
| GenerosManage.RequestPaths | src/pages/GenerosManage.tsx:118-167 | submit sends a PUT to `/generos/<editingId>` when it is truthy and a POST to `/generos` otherwise; delete sends a DELETE to `/generos/<id_genero>`, whose last segment parses back to that id |
| GenerosManage.SubmitLabel | src/pages/GenerosManage.tsx:227 | the label is 'Guardando...' iff submitting, 'Actualizar' iff idle with a truthy `editingId`, 'Crear Género' iff idle without one |
| GenerosManage.ShowsCancel | src/pages/GenerosManage.tsx:229 | the Cancel control is shown exactly when the idle submit label reads 'Actualizar' |
| GenerosManage.LabelMatchesRequest | src/pages/GenerosManage.tsx:227-237 | the idle label reads 'Actualizar', and Cancel is shown, exactly when the confirmed action will be an update; 'Crear Género' exactly when it will be a create |
| GenerosManage.GenerosPage.constructor | src/pages/GenerosManage.tsx:28-52 | the page mounts with empty draft and list and the mount fetch pending |
| GenerosManage.GenerosPage.Label | src/pages/GenerosManage.tsx:227 | the page's submit control reads 'Guardando...' iff it is submitting, 'Actualizar' iff idle while editing a truthy id, 'Crear Género' iff idle otherwise |
| GenerosManage.GenerosPage.ShowSnackbar | src/pages/GenerosManage.tsx:54-56 | message, kind and visibility are replaced together |
| GenerosManage.GenerosPage.CloseSnackbar | src/pages/GenerosManage.tsx:58-60 | only `show` becomes false |
| GenerosManage.GenerosPage.CloseConfirm | src/pages/GenerosManage.tsx:71-73 | declining only hides the dialog and sends nothing |
| GenerosManage.GenerosPage.HandleConfirm | src/pages/GenerosManage.tsx:75-78 | accepting starts the pending action exactly once, then hides the dialog |
| GenerosManage.GenerosPage.FetchGeneros | src/pages/GenerosManage.tsx:80-83 | a fetch starts with loading on and the error cleared |
| GenerosManage.GenerosPage.FetchSettled | src/pages/GenerosManage.tsx:84-92 | resolved: the list becomes the data or `[]`; rejected: 'Error al cargar los géneros' and the list kept; loading off |
| GenerosManage.GenerosPage.ResetForm | src/pages/GenerosManage.tsx:98-101 | the name becomes '' and `editingId` null |
| GenerosManage.GenerosPage.SetNombreGenero | src/pages/GenerosManage.tsx:214 | the name input sets the name |
| GenerosManage.GenerosPage.HandleSubmit | src/pages/GenerosManage.tsx:103-153 | submit only opens the confirmation built from the snapshot `{nombre_genero}` |
| GenerosManage.GenerosPage.HandleEdit | src/pages/GenerosManage.tsx:155-158 | edit sets `editingId` and the name from the genre |
| GenerosManage.GenerosPage.HandleDelete | src/pages/GenerosManage.tsx:161-177 | delete opens the delete confirmation and touches neither `submitting` nor the draft |
| GenerosManage.GenerosPage.Settle | src/pages/GenerosManage.tsx:115-128 | `submitting` falls after a create/update on either outcome; failure keeps the draft; success resets it and refetches |
| Prestamos.LoanAge | src/pages/Prestamos.tsx:305-307 | red iff more than 35 days, yellow iff more than 21 and at most 35, gray iff at most 21: total and disjoint |
| Prestamos.LoanAgeMonotone | src/pages/Prestamos.tsx:305-307 | an older loan is never highlighted as less urgent than a younger one |
| Prestamos.FindUsuario | src/pages/Prestamos.tsx:144 | the user found is the first whose id equals the parsed selection; none iff the selection is NaN or no id matches |
| Prestamos.FindLibro | src/pages/Prestamos.tsx:145 | the book found is the first whose id equals the parsed selection; none iff the selection is NaN or no id matches |
| Prestamos.SelectedUserNamed | src/pages/Prestamos.tsx:242 | selecting a user's option makes the confirmation find a user with that id |
| Prestamos.SelectedBookNamed | src/pages/Prestamos.tsx:259 | selecting a book's option makes the confirmation find a book with that id |
| Prestamos.UsuarioName | src/pages/Prestamos.tsx:149 | `${usuario?.nombre}` is the found user's name, or `undefined` when the lookup finds none |
| Prestamos.LibroTitle | src/pages/Prestamos.tsx:149 | `${libro?.titulo}` is the found book's title, or `undefined` when the lookup finds none |
| Prestamos.LoanDialog | src/pages/Prestamos.tsx:147-170 | the loan confirmation has info severity; its prompt names the looked-up user and book, its success text is 'Préstamo registrado exitosamente para ' plus the looked-up user name, and its action POSTs both parsed selections, failure text 'Error al crear el préstamo' |
| Prestamos.LoanNamesSelection | src/pages/Prestamos.tsx:144-158 | picking the first listed user and book with their ids makes the prompt name exactly that user and book, the success text name that user, and the action send exactly those ids |
| Prestamos.ReturnDialog | src/pages/Prestamos.tsx:173-188 | the return confirmation has warning severity, its prompt names the book and the user, its action returns exactly this loan, with success text `Libro "<titulo>" devuelto exitosamente` and failure text 'Error al procesar la devolución' |
| Prestamos.PrestamosPage.constructor | src/pages/Prestamos.tsx:57-84 | the page mounts with four empty lists, empty selections and the mount fetch pending |
| Prestamos.PrestamosPage.ShowSnackbar | src/pages/Prestamos.tsx:86-88 | message, kind and visibility are replaced together |
| Prestamos.PrestamosPage.CloseSnackbar | src/pages/Prestamos.tsx:90-92 | only `show` becomes false |
| Prestamos.PrestamosPage.CloseConfirm | src/pages/Prestamos.tsx:103-105 | declining only hides the dialog and sends nothing |
| Prestamos.PrestamosPage.HandleConfirm | src/pages/Prestamos.tsx:107-110 | accepting starts the pending action exactly once, then hides the dialog |
| Prestamos.PrestamosPage.FetchData | src/pages/Prestamos.tsx:112-114 | a fetch starts with loading on and the error cleared |
| Prestamos.PrestamosPage.FetchSettled | src/pages/Prestamos.tsx:115-133 | all four GETs resolved: the four lists become their data or `[]`; any one rejected: 'Error al cargar los datos de préstamos' and all four lists kept; loading off |
| Prestamos.PrestamosPage.SetSelectedUsuario | src/pages/Prestamos.tsx:236 | the user select sets the user selection |
| Prestamos.PrestamosPage.SetSelectedLibro | src/pages/Prestamos.tsx:253 | the book select sets the book selection |
| Prestamos.PrestamosPage.HandleCrearPrestamo | src/pages/Prestamos.tsx:139-171 | with either selection empty nothing changes and no confirmation opens; otherwise the loan confirmation opens |
| Prestamos.PrestamosPage.HandleDevolver | src/pages/Prestamos.tsx:173-189 | return opens the return confirmation and touches neither `submitting` nor the selections |
| Prestamos.PrestamosPage.Settle | src/pages/Prestamos.tsx:150-167 | a successful loan clears both selections and refetches; a failed one keeps them; `submitting` falls after a loan on either outcome and is untouched by a return |
| Prestamos.LendSelected | src/pages/Prestamos.tsx:139-171 | choosing a listed user and book and accepting sends one POST to `/prestamos` whose body carries exactly those two ids, with `submitting` raised |

## Left out

- HTTP and the hard-coded `http://localhost:3000/api` base: a request is a value (`Request`, `Path`, `VerbOf`), and its outcome is the `ok` parameter of `Settle` or the responses given to `FetchSettled`. The GET query strings (`?limit=1000`, `?limit=100`) and the address of the due-soon list are not modelled.
- Concurrency: each fetch settles atomically, and the parallel GETs inside one `Promise.all` are one step. Outstanding mutations may settle in any order, but a stale fetch overwriting a newer one is just another `FetchSettled`; which response is newest is not tracked.
- Timers and the DOM: the notification auto-dismiss after three seconds (src/components/Snackbar.tsx:10-17) is the same state change as `CloseSnackbar`. The scrolling `setTimeout` in the edit handlers has no effect on state.
- Rendering: the loading and error views, the list markup, CSS classes, `toLocaleDateString` and the dialog icons. The model does not prevent handlers from running while the loading or error view is shown.
- Browser form validation: the `required` attribute on the inputs and the `type="email"` check on the user's e-mail (src/pages/Usuarios.tsx:228). Handlers are modelled for every draft, including empty fields and malformed addresses that this validation would block.
- `console.error` logging in the failure branches.
- Workflow.ParseInt: only an optional sign followed by decimal digits is recognised. Leading whitespace, a `0x` prefix and a radix are not modelled, since the page values it parses are `toString` output or option values.
- Prestamos: the `diasPrestado` and `diasRestantes` fields are unbounded integers, and the due-soon list is only stored.
- Ids are unbounded integers. JavaScript numbers are doubles, and from 1e21 on `toString` writes exponent form (`1e+21`), which `parseInt` reads back as 1. The double range and the exponent form are not modelled, so `ParseDecimalRoundTrip` holds only for the ids the model admits.
- The submit labels of the book, author and user pages have the same three-way shape as the genre label, which is the one modelled. The loan page's label has no editing branch ('Registrando...' while submitting, else 'Registrar Préstamo', src/pages/Prestamos.tsx:272) and is not modelled.
- SubmitDialog: the prompt text is promised only to mention the record's name (`Mentions`); its fixed wording around the name is in the definition, not in the contract.
- DeleteDialog: the prompt text is promised only to mention the record's name (`Mentions`); its fixed wording around the name is in the definition, not in the contract.
- LoanDialog: the prompt text is promised only to mention the user's name and the book's title (`Mentions`); its fixed wording around them is in the definition, not in the contract.
- ReturnDialog: the prompt text is promised only to mention the book's title and the user (`Mentions`); its fixed wording around them is in the definition, not in the contract.
- The read-only pages (Dashboard, Libros, Autores), the navigation bar, the layout and routing, src/services/api.ts and src/types/index.ts are not part of this model.
