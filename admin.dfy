/** The administration panel's own state: the login gate with its persisted flag, the
    cached dish and category lists that each store snapshot replaces, and the category
    form with the id of the category being edited. The document store is abstracted
    as the log of requests the panel sends it plus, for each request, whether it
    succeeded; browser storage is the `stored` field; `alert` and `window.confirm`
    become a returned `Alert` and a boolean parameter. As for the login screen, each
    handler is a method of the class `AdminPanel` proved to move its state as a pure
    transition function on `AdminState` says, and the lemmas are about those
    functions. */
module Admin {
  import opened Wrappers

  /** A dish document's data and a dish as listed. */
  datatype PratoData = PratoData(nome: string, preco: real, categoriaId: Option<string>)
  datatype Prato = Prato(id: string, nome: string, preco: real, categoriaId: Option<string>)

  /** The category form, which is also the data of a category document. */
  datatype CategoriaData = CategoriaData(nome: string, descricao: string)
  datatype Categoria = Categoria(id: string, nome: string, descricao: string)

  /** A document of a store snapshot: its id and its data. */
  datatype Doc<T> = Doc(id: string, data: T)

  /** The writes the panel asks of the store. */
  datatype Request =
    | CreatePrato(prato: PratoData)
    | CreateCategoria(categoria: CategoriaData)
    | UpdateCategoria(id: string, categoria: CategoriaData)
    | DeleteCategoria(id: string)

  /** The alerts the handlers raise. */
  datatype Alert =
    | NoAlert
    | CredenciaisIncorretas   // "Usuário ou senha incorretos!"
    | PreenchaCampos          // "Preencha todos os campos!"
    | CategoriaCriada         // "✅ Categoria criada com sucesso!"
    | CategoriaEditada        // "✅ Categoria editada com sucesso!"
    | CategoriaExcluida       // "❌ Categoria excluída com sucesso!"

  const AdminUser := "Admin"
  const AdminPassword := "12345678"
  /** The value the persisted `adminLogado` flag holds while logged in. */
  const LoggedFlag := "true"

  const EmptyForm := CategoriaData("", "")

  datatype AdminState = AdminState(
    logado: bool,
    stored: Option<string>,
    pratos: seq<Prato>,
    categorias: seq<Categoria>,
    novaCategoria: CategoriaData,
    editandoCategoriaId: Option<string>,
    requests: seq<Request>)

  /** JavaScript truthiness of a `string | null`: present and not empty. */
  predicate Truthy(o: Option<string>) {
    o.Some? && o.value != ""
  }

  /** The state once mounted, given what browser storage holds under `adminLogado`:
      empty lists and form, and the gate open exactly when the flag reads "true". */
  function Mounted(stored: Option<string>): AdminState {
    AdminState(stored == Some(LoggedFlag), stored, [], [], EmptyForm, None, [])
  }

  /** The login gate agrees with the persisted flag. */
  predicate GateAgrees(s: AdminState) {
    s.logado <==> s.stored == Some(LoggedFlag)
  }

  // Transition functions, one per handler

  function AfterLogin(s: AdminState, usuario: string, senha: string): (AdminState, Alert) {
    if usuario == AdminUser && senha == AdminPassword
    then (s.(logado := true, stored := Some(LoggedFlag)), NoAlert)
    else (s, CredenciaisIncorretas)
  }

  function AfterLogout(s: AdminState): AdminState {
    s.(logado := false, stored := None)
  }

  /** `handleAddPrato`: the dish is sent to the store whatever the outcome. */
  function AfterAddPrato(s: AdminState, novo: PratoData): AdminState {
    s.(requests := s.requests + [CreatePrato(novo)])
  }

  /** `adicionarCategoria`, where `ok` says whether the store accepted the create. */
  function AfterAdicionarCategoria(s: AdminState, ok: bool): (AdminState, Alert) {
    if s.novaCategoria.nome == "" || s.novaCategoria.descricao == "" then (s, PreenchaCampos)
    else
      var sent := s.(requests := s.requests + [CreateCategoria(s.novaCategoria)]);
      if ok then (sent.(novaCategoria := EmptyForm), CategoriaCriada) else (sent, NoAlert)
  }

  /** `salvarCategoriaEditada`, where `ok` says whether the store accepted the update. */
  function AfterSalvarCategoriaEditada(s: AdminState, ok: bool): (AdminState, Alert) {
    if s.novaCategoria.nome == "" || s.novaCategoria.descricao == "" || !Truthy(s.editandoCategoriaId)
    then (s, PreenchaCampos)
    else
      var sent := s.(requests := s.requests +
                       [UpdateCategoria(s.editandoCategoriaId.value, s.novaCategoria)]);
      if ok then (sent.(novaCategoria := EmptyForm, editandoCategoriaId := None), CategoriaEditada)
      else (sent, NoAlert)
  }

  /** The category form's submit: save the edit while an id is being edited, add
      otherwise. */
  function AfterSubmitCategoria(s: AdminState, ok: bool): (AdminState, Alert) {
    if Truthy(s.editandoCategoriaId) then AfterSalvarCategoriaEditada(s, ok)
    else AfterAdicionarCategoria(s, ok)
  }

  /** `excluirCategoria`, where `confirmed` is the answer to `window.confirm` and `ok`
      says whether the store accepted the delete. */
  function AfterExcluirCategoria(s: AdminState, id: string, confirmed: bool, ok: bool): (AdminState, Alert) {
    if !confirmed then (s, NoAlert)
    else
      var sent := s.(requests := s.requests + [DeleteCategoria(id)]);
      if !ok then (sent, NoAlert)
      else if s.editandoCategoriaId == Some(id)
      then (sent.(novaCategoria := EmptyForm, editandoCategoriaId := None), CategoriaExcluida)
      else (sent, CategoriaExcluida)
  }

  /** The "edit" button of a listed category: load it into the form. */
  function AfterStartEdit(s: AdminState, c: Categoria): AdminState {
    s.(novaCategoria := CategoriaData(c.nome, c.descricao), editandoCategoriaId := Some(c.id))
  }

  /** One listed dish per document, carrying the document's id. */
  function PratosFrom(docs: seq<Doc<PratoData>>): seq<Prato> {
    seq(|docs|, i requires 0 <= i < |docs| =>
      Prato(docs[i].id, docs[i].data.nome, docs[i].data.preco, docs[i].data.categoriaId))
  }

  /** One listed category per document, carrying the document's id. */
  function CategoriasFrom(docs: seq<Doc<CategoriaData>>): seq<Categoria> {
    seq(|docs|, i requires 0 <= i < |docs| =>
      Categoria(docs[i].id, docs[i].data.nome, docs[i].data.descricao))
  }

  // What the handlers promise

  /** The gate opens on mount exactly when the stored flag is the string "true". */
  lemma MountedGate(stored: Option<string>)
    ensures Mounted(stored).logado <==> stored == Some("true")
    ensures GateAgrees(Mounted(stored))
  {
  }

  /** Only the hard-coded credentials open the gate and set the flag; anything else
      changes nothing and raises the error alert. */
  lemma LoginOutcomes(s: AdminState, usuario: string, senha: string)
    ensures var (t, alert) := AfterLogin(s, usuario, senha);
            if usuario == "Admin" && senha == "12345678"
            then t.logado && t.stored == Some("true") && alert == NoAlert
            else t == s && alert == CredenciaisIncorretas
    ensures var t := AfterLogin(s, usuario, senha).0;
            t.(logado := s.logado, stored := s.stored) == s
  {
  }

  /** Logging out closes the gate and forgets the flag, and touches nothing else. */
  lemma LogoutOutcome(s: AdminState)
    ensures !AfterLogout(s).logado && AfterLogout(s).stored.None?
    ensures AfterLogout(s).(logado := s.logado, stored := s.stored) == s
  {
  }

  /** A category is created only from a form with both fields filled; the create
      carries the form, and only an accepted create empties the form. The edit id is
      never touched, and a rejected create changes nothing but the log. */
  lemma AdicionarCategoriaOutcomes(s: AdminState, ok: bool)
    ensures var (t, alert) := AfterAdicionarCategoria(s, ok);
            t.editandoCategoriaId == s.editandoCategoriaId &&
            if s.novaCategoria.nome == "" || s.novaCategoria.descricao == ""
            then t == s && alert == PreenchaCampos
            else t.requests == s.requests + [CreateCategoria(s.novaCategoria)] &&
                 (t.novaCategoria == EmptyForm <==> ok) &&
                 (alert == CategoriaCriada <==> ok) &&
                 (ok ==> t == s.(requests := t.requests, novaCategoria := EmptyForm)) &&
                 (!ok ==> t == s.(requests := t.requests) && alert == NoAlert)
  {
  }

  /** An edit is saved only with both fields filled and an id being edited; the update
      goes to that id, and an accepted update empties the form and ends the edit. */
  lemma SalvarCategoriaEditadaOutcomes(s: AdminState, ok: bool)
    ensures var (t, alert) := AfterSalvarCategoriaEditada(s, ok);
            if s.novaCategoria.nome == "" || s.novaCategoria.descricao == "" ||
               !Truthy(s.editandoCategoriaId)
            then t == s && alert == PreenchaCampos
            else t.requests == s.requests +
                               [UpdateCategoria(s.editandoCategoriaId.value, s.novaCategoria)] &&
                 (ok ==> t.novaCategoria == EmptyForm && t.editandoCategoriaId.None? &&
                         alert == CategoriaEditada) &&
                 (!ok ==> t == s.(requests := t.requests) && alert == NoAlert)
  {
  }

  /** The form never sends an update without an id being edited, nor a create while
      one is. */
  lemma SubmitCategoriaDispatch(s: AdminState, ok: bool)
    ensures var t := AfterSubmitCategoria(s, ok).0;
            forall k :: |s.requests| <= k < |t.requests| ==>
              (t.requests[k].UpdateCategoria? <==> Truthy(s.editandoCategoriaId)) &&
              (t.requests[k].CreateCategoria? <==> !Truthy(s.editandoCategoriaId))
  {
  }

  /** Deleting does nothing unless confirmed; an accepted delete ends the edit and
      empties the form exactly when the deleted category is the one being edited, and
      otherwise leaves the edit state as it was. */
  lemma ExcluirCategoriaOutcomes(s: AdminState, id: string, confirmed: bool, ok: bool)
    ensures var (t, alert) := AfterExcluirCategoria(s, id, confirmed, ok);
            (!confirmed ==> t == s && alert == NoAlert) &&
            (confirmed ==> t.requests == s.requests + [DeleteCategoria(id)]) &&
            (confirmed && ok && s.editandoCategoriaId == Some(id) ==>
               t.novaCategoria == EmptyForm && t.editandoCategoriaId.None?) &&
            (!(ok && s.editandoCategoriaId == Some(id)) ==>
               t.novaCategoria == s.novaCategoria && t.editandoCategoriaId == s.editandoCategoriaId)
  {
  }

  /** A snapshot yields one listed entry per document, in order, each with the
      document's id and data. */
  lemma SnapshotMapping(pratos: seq<Doc<PratoData>>, categorias: seq<Doc<CategoriaData>>)
    ensures |PratosFrom(pratos)| == |pratos| && |CategoriasFrom(categorias)| == |categorias|
    ensures forall i :: 0 <= i < |pratos| ==>
              PratosFrom(pratos)[i].id == pratos[i].id &&
              PratoData(PratosFrom(pratos)[i].nome, PratosFrom(pratos)[i].preco,
                        PratosFrom(pratos)[i].categoriaId) == pratos[i].data
    ensures forall i :: 0 <= i < |categorias| ==>
              CategoriasFrom(categorias)[i].id == categorias[i].id &&
              CategoriaData(CategoriasFrom(categorias)[i].nome,
                            CategoriasFrom(categorias)[i].descricao) == categorias[i].data
  {
  }

  // The panel's handlers as events

  datatype Event =
    | Login(usuario: string, senha: string)
    | Logout
    | AddPrato(prato: PratoData)
    | SubmitCategoria(ok: bool)
    | ExcluirCategoria(id: string, confirmed: bool, ok: bool)
    | StartEdit(categoria: Categoria)
    | TypeNome(nome: string)
    | TypeDescricao(descricao: string)
    | SnapshotPratos(pratoDocs: seq<Doc<PratoData>>)
    | SnapshotCategorias(categoriaDocs: seq<Doc<CategoriaData>>)

  function Step(s: AdminState, e: Event): AdminState {
    match e
    case Login(u, p) => AfterLogin(s, u, p).0
    case Logout => AfterLogout(s)
    case AddPrato(p) => AfterAddPrato(s, p)
    case SubmitCategoria(ok) => AfterSubmitCategoria(s, ok).0
    case ExcluirCategoria(id, confirmed, ok) => AfterExcluirCategoria(s, id, confirmed, ok).0
    case StartEdit(c) => AfterStartEdit(s, c)
    case TypeNome(v) => s.(novaCategoria := s.novaCategoria.(nome := v))
    case TypeDescricao(v) => s.(novaCategoria := s.novaCategoria.(descricao := v))
    case SnapshotPratos(docs) => s.(pratos := PratosFrom(docs))
    case SnapshotCategorias(docs) => s.(categorias := CategoriasFrom(docs))
  }

  function Run(s: AdminState, events: seq<Event>): AdminState
    decreases |events|
  {
    if events == [] then s else Run(Step(s, events[0]), events[1..])
  }

  /** Only logging in and out touch the gate or the flag, and both keep them in step. */
  lemma StepKeepsGate(s: AdminState, e: Event)
    requires GateAgrees(s)
    ensures GateAgrees(Step(s, e))
    ensures !e.Login? && !e.Logout? ==>
              Step(s, e).logado == s.logado && Step(s, e).stored == s.stored
  {
  }

  /** Whatever happens after mounting, the gate is open exactly when browser storage
      holds the flag "true". */
  lemma {:induction false} RunKeepsGate(stored: Option<string>, events: seq<Event>)
    ensures GateAgrees(Run(Mounted(stored), events))
  {
    RunFromAgreeing(Mounted(stored), events);
  }

  lemma {:induction false} RunFromAgreeing(s: AdminState, events: seq<Event>)
    requires GateAgrees(s)
    ensures GateAgrees(Run(s, events))
    decreases |events|
  {
    if events != [] {
      StepKeepsGate(s, events[0]);
      RunFromAgreeing(Step(s, events[0]), events[1..]);
    }
  }

  /** The panel component. */
  class AdminPanel {
    var logado: bool
    var stored: Option<string>
    var pratos: seq<Prato>
    var categorias: seq<Categoria>
    var novaCategoria: CategoriaData
    var editandoCategoriaId: Option<string>
    var requests: seq<Request>

    function State(): AdminState
      reads this
    {
      AdminState(logado, stored, pratos, categorias, novaCategoria, editandoCategoriaId, requests)
    }

    /** Mounting, with the stored `adminLogado` value read by the auto-login effect. */
    constructor (adminLogado: Option<string>)
      ensures State() == Mounted(adminLogado)
    {
      logado := false;
      stored := adminLogado;
      pratos := [];
      categorias := [];
      novaCategoria := CategoriaData("", "");
      editandoCategoriaId := None;
      requests := [];
      if adminLogado == Some("true") {
        logado := true;
      }
    }

    method HandleLogin(usuario: string, senha: string) returns (alert: Alert)
      modifies this
      ensures (State(), alert) == AfterLogin(old(State()), usuario, senha)
    {
      if usuario == "Admin" && senha == "12345678" {
        logado := true;
        stored := Some("true");
        alert := NoAlert;
      } else {
        alert := CredenciaisIncorretas;
      }
    }

    method HandleLogout()
      modifies this
      ensures State() == AfterLogout(old(State()))
    {
      logado := false;
      stored := None;
    }

    method HandleAddPrato(novoPrato: PratoData)
      modifies this
      ensures State() == AfterAddPrato(old(State()), novoPrato)
    {
      requests := requests + [CreatePrato(novoPrato)];
    }

    method AdicionarCategoria(ok: bool) returns (alert: Alert)
      modifies this
      ensures (State(), alert) == AfterAdicionarCategoria(old(State()), ok)
    {
      if novaCategoria.nome == "" || novaCategoria.descricao == "" {
        return PreenchaCampos;
      }
      requests := requests + [CreateCategoria(CategoriaData(novaCategoria.nome, novaCategoria.descricao))];
      alert := NoAlert;
      if ok {
        novaCategoria := CategoriaData("", "");
        alert := CategoriaCriada;
      }
    }

    method SalvarCategoriaEditada(ok: bool) returns (alert: Alert)
      modifies this
      ensures (State(), alert) == AfterSalvarCategoriaEditada(old(State()), ok)
    {
      if novaCategoria.nome == "" || novaCategoria.descricao == "" || !Truthy(editandoCategoriaId) {
        return PreenchaCampos;
      }
      var categoriaRef := editandoCategoriaId.value;
      requests := requests + [UpdateCategoria(categoriaRef, CategoriaData(novaCategoria.nome, novaCategoria.descricao))];
      alert := NoAlert;
      if ok {
        novaCategoria := CategoriaData("", "");
        editandoCategoriaId := None;
        alert := CategoriaEditada;
      }
    }

    /** The category form's `onSubmit`. */
    method SubmitCategoria(ok: bool) returns (alert: Alert)
      modifies this
      ensures (State(), alert) == AfterSubmitCategoria(old(State()), ok)
    {
      if Truthy(editandoCategoriaId) {
        alert := SalvarCategoriaEditada(ok);
      } else {
        alert := AdicionarCategoria(ok);
      }
    }

    method ExcluirCategoria(id: string, confirmed: bool, ok: bool) returns (alert: Alert)
      modifies this
      ensures (State(), alert) == AfterExcluirCategoria(old(State()), id, confirmed, ok)
    {
      alert := NoAlert;
      if confirmed {
        requests := requests + [DeleteCategoria(id)];
        if ok {
          alert := CategoriaExcluida;
          if editandoCategoriaId == Some(id) {
            novaCategoria := CategoriaData("", "");
            editandoCategoriaId := None;
          }
        }
      }
    }

    method StartEdit(c: Categoria)
      modifies this
      ensures State() == AfterStartEdit(old(State()), c)
    {
      novaCategoria := CategoriaData(c.nome, c.descricao);
      editandoCategoriaId := Some(c.id);
    }

    method TypeNome(nome: string)
      modifies this
      ensures State() == old(State()).(novaCategoria := old(novaCategoria).(nome := nome))
    {
      novaCategoria := novaCategoria.(nome := nome);
    }

    method TypeDescricao(descricao: string)
      modifies this
      ensures State() == old(State()).(novaCategoria := old(novaCategoria).(descricao := descricao))
    {
      novaCategoria := novaCategoria.(descricao := descricao);
    }

    /** The dish subscription's callback. */
    method OnPratosSnapshot(docs: seq<Doc<PratoData>>)
      modifies this
      ensures State() == old(State()).(pratos := PratosFrom(docs))
    {
      pratos := PratosFrom(docs);
    }

    /** The category subscription's callback. */
    method OnCategoriasSnapshot(docs: seq<Doc<CategoriaData>>)
      modifies this
      ensures State() == old(State()).(categorias := CategoriasFrom(docs))
    {
      categorias := CategoriasFrom(docs);
    }
  }
}
