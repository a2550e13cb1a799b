/** The dish screen of the administration panel: the "new dish" form, the id of the
    dish being edited and the edit form, and the category badge shown beside each
    listed dish. The dish and category lists are inputs; the callbacks to the panel
    (`onAddPrato`, `onEditPrato`, `onDeletePrato`) are recorded as a log of calls,
    each awaited call succeeding or not as its `ok` parameter says; toasts become a
    returned `Toast`. */
module Menu {
  import opened Wrappers
  import opened Seqs
  import Admin

  /** The text fields of a dish form; the price is the text typed, which `parseFloat`
      turns into the number sent. */
  datatype PratoForm = PratoForm(nome: string, preco: string, categoriaId: string)

  const EmptyPrato := PratoForm("", "", "")

  /** The callbacks the screen calls, with the form the number is parsed from. */
  datatype Call =
    | AddPrato(prato: PratoForm)
    | EditPrato(id: string, prato: PratoForm)
    | DeletePrato(id: string)

  datatype Toast = NoToast | PreenchaCampos | PratoAdicionado

  datatype MenuState = MenuState(
    novoPrato: PratoForm,
    editandoPratoId: Option<string>,
    pratoEditado: PratoForm,
    calls: seq<Call>)

  function Initial(): MenuState {
    MenuState(EmptyPrato, None, EmptyPrato, [])
  }

  /** Name, price text and category are all filled (JavaScript truthiness of a string). */
  predicate Complete(f: PratoForm) {
    f.nome != "" && f.preco != "" && f.categoriaId != ""
  }

  // Transition functions, one per handler

  /** `adicionarPrato`, where `ok` says whether the awaited `onAddPrato` resolved. */
  function AfterAdicionarPrato(s: MenuState, ok: bool): (MenuState, Toast) {
    if !Complete(s.novoPrato) then (s, PreenchaCampos)
    else
      var sent := s.(calls := s.calls + [AddPrato(s.novoPrato)]);
      if ok then (sent.(novoPrato := EmptyPrato), PratoAdicionado) else (sent, NoToast)
  }

  /** `salvarEdicao`, where `ok` says whether the awaited `onEditPrato` resolved. */
  function AfterSalvarEdicao(s: MenuState, ok: bool): (MenuState, Toast) {
    if s.editandoPratoId.None? || s.editandoPratoId.value == "" || !Complete(s.pratoEditado)
    then (s, PreenchaCampos)
    else
      var sent := s.(calls := s.calls + [EditPrato(s.editandoPratoId.value, s.pratoEditado)]);
      if ok then (sent.(editandoPratoId := None, pratoEditado := EmptyPrato), NoToast)
      else (sent, NoToast)
  }

  /** The "edit" button of a listed dish, where `precoTexto` is its price rendered by
      `toString`. */
  function AfterStartEdit(s: MenuState, p: Admin.Prato, precoTexto: string): MenuState {
    s.(editandoPratoId := Some(p.id),
       pratoEditado := PratoForm(p.nome, precoTexto, p.categoriaId.GetOr("")))
  }

  /** The "cancel" button of the edit form. */
  function AfterCancelEdit(s: MenuState): MenuState {
    s.(editandoPratoId := None)
  }

  /** The test of the badge lookup: the category's id is the dish's category id. */
  function IsCategoryOf(p: Admin.Prato): Admin.Categoria -> bool {
    (c: Admin.Categoria) => Some(c.id) == p.categoriaId
  }

  /** The category whose name the badge beside `p` shows, if any. */
  function Badge(categorias: seq<Admin.Categoria>, p: Admin.Prato): Option<Admin.Categoria> {
    Find(categorias, IsCategoryOf(p))
  }

  // What the handlers promise

  /** A dish is sent only when name, price and category are all filled, and then it
      is the form that is sent; only a resolved call empties the form. The edit state
      is never touched, and a rejected call changes nothing but the log. */
  lemma AdicionarPratoOutcomes(s: MenuState, ok: bool)
    ensures var (t, toast) := AfterAdicionarPrato(s, ok);
            t.editandoPratoId == s.editandoPratoId && t.pratoEditado == s.pratoEditado &&
            if s.novoPrato.nome == "" || s.novoPrato.preco == "" || s.novoPrato.categoriaId == ""
            then t == s && toast == PreenchaCampos
            else t.calls == s.calls + [AddPrato(s.novoPrato)] &&
                 (t.novoPrato == EmptyPrato <==> ok) && (toast == PratoAdicionado <==> ok) &&
                 (ok ==> t == s.(calls := t.calls, novoPrato := EmptyPrato)) &&
                 (!ok ==> t == s.(calls := t.calls) && toast == NoToast)
  {
  }

  /** An edit is sent only with a dish being edited and all three fields filled, and
      goes to that dish; a resolved call ends the edit and empties the edit form,
      leaving the new-dish form alone. */
  lemma SalvarEdicaoOutcomes(s: MenuState, ok: bool)
    ensures var t := AfterSalvarEdicao(s, ok).0;
            t.novoPrato == s.novoPrato &&
            if s.editandoPratoId.None? || s.editandoPratoId == Some("") || !Complete(s.pratoEditado)
            then t == s
            else t.calls == s.calls + [EditPrato(s.editandoPratoId.value, s.pratoEditado)] &&
                 (ok ==> t.editandoPratoId.None? && t.pratoEditado == EmptyPrato) &&
                 (!ok ==> t.editandoPratoId == s.editandoPratoId && t.pratoEditado == s.pratoEditado)
  {
  }

  /** Starting an edit selects the dish and copies its fields, a dish without a
      category getting the empty category id. */
  lemma StartEditLoads(s: MenuState, p: Admin.Prato, precoTexto: string)
    ensures var t := AfterStartEdit(s, p, precoTexto);
            t.editandoPratoId == Some(p.id) && t.pratoEditado.nome == p.nome &&
            t.pratoEditado.preco == precoTexto &&
            (p.categoriaId.Some? ==> t.pratoEditado.categoriaId == p.categoriaId.value) &&
            (p.categoriaId.None? ==> t.pratoEditado.categoriaId == "") &&
            t.novoPrato == s.novoPrato && t.calls == s.calls
  {
  }

  /** Cancelling ends the edit but keeps what was typed into the edit form. */
  lemma CancelKeepsForm(s: MenuState)
    ensures AfterCancelEdit(s).editandoPratoId.None?
    ensures AfterCancelEdit(s).pratoEditado == s.pratoEditado
    ensures AfterCancelEdit(s).(editandoPratoId := s.editandoPratoId) == s
  {
  }

  /** The badge is the first category whose id is the dish's category id, and there
      is none exactly when no category has that id (in particular for a dish without
      a category). */
  lemma BadgeLookup(categorias: seq<Admin.Categoria>, p: Admin.Prato)
    ensures Badge(categorias, p).None? <==>
              forall i :: 0 <= i < |categorias| ==> Some(categorias[i].id) != p.categoriaId
    ensures p.categoriaId.None? ==> Badge(categorias, p).None?
    ensures Badge(categorias, p).Some? ==>
              exists i :: 0 <= i < |categorias| && categorias[i] == Badge(categorias, p).value &&
                          Some(categorias[i].id) == p.categoriaId &&
                          forall j :: 0 <= j < i ==> Some(categorias[j].id) != p.categoriaId
  {
    var r := Badge(categorias, p);
    if r.Some? {
      var i :| 0 <= i < |categorias| && categorias[i] == r.value && IsCategoryOf(p)(categorias[i]) &&
               forall j :: 0 <= j < i ==> !IsCategoryOf(p)(categorias[j]);
      assert Some(categorias[i].id) == p.categoriaId;
    }
  }

  /** The dish screen. */
  class AdminMenu {
    var novoPrato: PratoForm
    var editandoPratoId: Option<string>
    var pratoEditado: PratoForm
    var calls: seq<Call>

    function State(): MenuState
      reads this
    {
      MenuState(novoPrato, editandoPratoId, pratoEditado, calls)
    }

    constructor ()
      ensures State() == Initial()
    {
      novoPrato := PratoForm("", "", "");
      editandoPratoId := None;
      pratoEditado := PratoForm("", "", "");
      calls := [];
    }

    method AdicionarPrato(ok: bool) returns (toast: Toast)
      modifies this
      ensures (State(), toast) == AfterAdicionarPrato(old(State()), ok)
    {
      if novoPrato.nome == "" || novoPrato.preco == "" || novoPrato.categoriaId == "" {
        return PreenchaCampos;
      }
      calls := calls + [AddPrato(PratoForm(novoPrato.nome, novoPrato.preco, novoPrato.categoriaId))];
      toast := NoToast;
      if ok {
        novoPrato := PratoForm("", "", "");
        toast := PratoAdicionado;
      }
    }

    method SalvarEdicao(ok: bool) returns (toast: Toast)
      modifies this
      ensures (State(), toast) == AfterSalvarEdicao(old(State()), ok)
    {
      if editandoPratoId.None? || editandoPratoId.value == "" ||
         pratoEditado.nome == "" || pratoEditado.preco == "" || pratoEditado.categoriaId == "" {
        return PreenchaCampos;
      }
      calls := calls + [EditPrato(editandoPratoId.value,
                                  PratoForm(pratoEditado.nome, pratoEditado.preco, pratoEditado.categoriaId))];
      toast := NoToast;
      if ok {
        editandoPratoId := None;
        pratoEditado := PratoForm("", "", "");
      }
    }

    method StartEdit(p: Admin.Prato, precoTexto: string)
      modifies this
      ensures State() == AfterStartEdit(old(State()), p, precoTexto)
    {
      editandoPratoId := Some(p.id);
      pratoEditado := PratoForm(p.nome, precoTexto, p.categoriaId.GetOr(""));
    }

    method CancelEdit()
      modifies this
      ensures State() == AfterCancelEdit(old(State()))
    {
      editandoPratoId := None;
    }

    /** The "delete" button of a listed dish. */
    method DeletePrato(id: string)
      modifies this
      ensures State() == old(State()).(calls := old(calls) + [Call.DeletePrato(id)])
    {
      calls := calls + [Call.DeletePrato(id)];
    }
  }
}
