/** The administrator login box and its password-recovery flow
    (src/components/admin/Login/Login.tsx).

    Recovery runs through three steps, 1 = e-mail, 2 = code, 3 = new password, with a
    four-slot code, a countdown of 600 seconds while the code is awaited, and two
    password fields. The component's state is the class `LoginBox`; each handler is a
    method proved to move that state exactly as a pure transition function on the
    value `LoginState` says. Lemmas about the transition functions state what the
    flow promises. Toasts are kept as the last message shown; their timer, the alert
    on expiry and all focus movement are not modelled. */
module Login {
  import opened Wrappers
  import opened Strings

  const CountdownStart := 600
  const ExpectedCode := "1234"
  const EmptyCode: seq<string> := ["", "", "", ""]

  const MsgEmailInvalid := "Insira um email válido."
  const MsgCodeSent := "Código enviado (simulação)."
  const MsgCodeIncomplete := "Digite os 4 dígitos do código."
  const MsgCodeVerified := "Código verificado. Você pode criar uma nova senha."
  const MsgCodeWrong := "Código incorreto. Verifique e tente novamente."
  const MsgFillPasswords := "Preencha os campos de senha."
  const MsgPasswordsDiffer := "As senhas não coincidem!"
  const MsgPasswordChanged := "Senha alterada com sucesso!"
  const MsgFillCredentials := "Preencha usuário e senha."
  const MsgTryingLogin := "Tentando entrar..."

  /** The user name and password handed to the parent's `onLogin`. */
  datatype Credentials = Credentials(usuario: string, senha: string)

  /** The state of the login box as a value. */
  datatype LoginState = LoginState(
    usuario: string,
    senha: string,
    modoRecuperacao: bool,
    etapa: int,
    email: string,
    codigo: seq<string>,
    tempoRestante: int,
    novaSenha: string,
    confirmarSenha: string,
    mostrarModal: bool,
    toast: string)

  function Initial(): LoginState {
    LoginState("", "", false, 1, "", EmptyCode, CountdownStart, "", "", false, "")
  }

  /** A code slot holds nothing or one digit. */
  predicate IsSlot(v: string) {
    v == "" || (|v| == 1 && IsDigit(v[0]))
  }

  /** What every handler keeps: a known step, four well-formed slots, and a
      countdown between 0 and 600. */
  predicate ValidState(s: LoginState) {
    && 1 <= s.etapa <= 3
    && |s.codigo| == 4
    && (forall i :: 0 <= i < 4 ==> IsSlot(s.codigo[i]))
    && 0 <= s.tempoRestante <= CountdownStart
  }

  /** `codigo.join("")`. */
  function Join(c: seq<string>): string {
    if c == [] then "" else c[0] + Join(c[1..])
  }

  /** The number of slots that hold something. */
  function Filled(c: seq<string>): nat {
    if c == [] then 0 else (if c[0] != "" then 1 else 0) + Filled(c[1..])
  }

  lemma {:induction false} JoinLength(c: seq<string>)
    requires forall i :: 0 <= i < |c| ==> IsSlot(c[i])
    ensures |Join(c)| == Filled(c) <= |c|
  {
    if c != [] {
      JoinLength(c[1..]);
    }
  }

  lemma {:induction false} FilledAll(c: seq<string>)
    ensures Filled(c) == |c| <==> forall i :: 0 <= i < |c| ==> c[i] != ""
  {
    if c != [] {
      FilledAll(c[1..]);
      assert Filled(c[1..]) <= |c| - 1 by { FilledAtMost(c[1..]); }
      assert forall i :: 1 <= i < |c| ==> c[i] == c[1..][i - 1];
    }
  }

  lemma {:induction false} FilledAtMost(c: seq<string>)
    ensures Filled(c) <= |c|
  {
    if c != [] {
      FilledAtMost(c[1..]);
    }
  }

  /** With well-formed slots, the joined code has four characters exactly when all
      four slots are filled: the length test in `verificarCodigo` is a test for a
      complete code. */
  lemma CodeCompleteIff(c: seq<string>)
    requires |c| == 4 && forall i :: 0 <= i < 4 ==> IsSlot(c[i])
    ensures |Join(c)| == 4 <==> forall i :: 0 <= i < 4 ==> c[i] != ""
  {
    JoinLength(c);
    FilledAll(c);
  }

  // ---------------------------------------------------------------------------
  // Transition functions, one per handler

  /** The input filter of `handleCodigoChange`: nothing longer than one character,
      and nothing but a digit when not empty. */
  predicate DigitInputAccepted(valor: string) {
    !(|valor| > 1) && !(valor != "" && !(|valor| == 1 && IsDigit(valor[0])))
  }

  function AfterCodigoChange(s: LoginState, index: nat, valor: string): LoginState
    requires index < |s.codigo|
  {
    if DigitInputAccepted(valor) then s.(codigo := s.codigo[index := valor]) else s
  }

  function AfterVerificarCodigo(s: LoginState): LoginState {
    var codigoCompleto := Join(s.codigo);
    if |codigoCompleto| != 4 then s.(toast := MsgCodeIncomplete)
    else if codigoCompleto == ExpectedCode then s.(etapa := 3, toast := MsgCodeVerified)
    else s.(toast := MsgCodeWrong, mostrarModal := true)
  }

  /** Every recovery field back to its initial value, with the mode set to `modo`. */
  function ClearRecovery(s: LoginState, modo: bool): LoginState {
    s.(modoRecuperacao := modo, etapa := 1, email := "", codigo := EmptyCode,
       novaSenha := "", confirmarSenha := "", tempoRestante := CountdownStart)
  }

  function AfterConfirmarNovaSenha(s: LoginState): LoginState {
    if s.novaSenha == "" || s.confirmarSenha == "" then s.(toast := MsgFillPasswords)
    else if s.novaSenha != s.confirmarSenha then s.(toast := MsgPasswordsDiffer)
    else ClearRecovery(s, false).(toast := MsgPasswordChanged)
  }

  /** The e-mail test of the form submit in step 1. */
  predicate SubmitAcceptsEmail(email: string) {
    !(email == "" || Trim(email) == "" || '@' !in email)
  }

  /** The e-mail test of the "Enviar Código" button. */
  predicate ButtonAcceptsEmail(email: string) {
    !(email == "" || '@' !in email)
  }

  /** `handleSubmit`: the recovery step in recovery mode; otherwise the trimmed
      credentials, when both are present, go to `onLogin` and recovery is reset. */
  function AfterSubmit(s: LoginState): (LoginState, Option<Credentials>) {
    if s.modoRecuperacao then (AfterSubmitRecovery(s), None) else AfterSubmitLogin(s)
  }

  /** The recovery branch of `handleSubmit`: the action of the current step. */
  function AfterSubmitRecovery(s: LoginState): LoginState {
    if s.etapa == 1 then AfterSubmitEmail(s)
    else if s.etapa == 2 then AfterVerificarCodigo(s)
    else if s.etapa == 3 then AfterConfirmarNovaSenha(s)
    else s
  }

  /** Step 1 of recovery: a usable e-mail moves on to the code and starts the countdown. */
  function AfterSubmitEmail(s: LoginState): LoginState {
    if !SubmitAcceptsEmail(s.email) then s.(toast := MsgEmailInvalid)
    else s.(etapa := 2, tempoRestante := CountdownStart, toast := MsgCodeSent)
  }

  /** The login branch of `handleSubmit`. */
  function AfterSubmitLogin(s: LoginState): (LoginState, Option<Credentials>) {
    var usuario := Trim(s.usuario);
    var senha := Trim(s.senha);
    if usuario == "" || senha == "" then (s.(toast := MsgFillCredentials), None)
    else (ClearRecovery(s, false).(toast := MsgTryingLogin), Some(Credentials(usuario, senha)))
  }

  /** The "Enviar Código" button. */
  function AfterEnviarCodigo(s: LoginState): LoginState {
    if !ButtonAcceptsEmail(s.email) then s.(toast := MsgEmailInvalid)
    else s.(etapa := 2, tempoRestante := CountdownStart)
  }

  function AfterToggle(s: LoginState): LoginState {
    ClearRecovery(s, !s.modoRecuperacao)
  }

  /** One firing of the one-second interval, which runs only in step 2 of recovery
      while time is left. */
  function AfterTick(s: LoginState): LoginState {
    if s.modoRecuperacao && s.etapa == 2 && s.tempoRestante > 0
    then s.(tempoRestante := s.tempoRestante - 1)
    else s
  }

  /** The expiry branch of the countdown effect: at 0 in step 2, back to step 1 with
      a fresh countdown. */
  function AfterExpiry(s: LoginState): LoginState {
    if s.tempoRestante == 0 && s.modoRecuperacao && s.etapa == 2
    then s.(etapa := 1, tempoRestante := CountdownStart)
    else s
  }

  // ---------------------------------------------------------------------------
  // What the handlers promise

  /** A rejected input leaves the code alone; an accepted one changes only its own
      slot, so every slot stays empty or one digit. */
  lemma CodigoChangeOnlyTouchesSlot(s: LoginState, index: nat, valor: string)
    requires ValidState(s) && index < 4
    ensures var t := AfterCodigoChange(s, index, valor);
      && ValidState(t)
      && t.(codigo := s.codigo) == s
      && (forall j :: 0 <= j < 4 && j != index ==> t.codigo[j] == s.codigo[j])
      && (|valor| > 1 || (valor != "" && !IsDigit(valor[0])) ==> t == s)
      && (IsSlot(valor) ==> t.codigo[index] == valor)
  {
  }

  /** Step 1: a missing or blank e-mail, or one without `@`, keeps step 1; otherwise
      step 2 with a full countdown. */
  lemma SubmitEmailStep(s: LoginState)
    requires s.modoRecuperacao && s.etapa == 1
    ensures var (t, call) := AfterSubmit(s);
      && call == None
      && (t.etapa == 2 <==> s.email != "" && Trim(s.email) != "" && '@' in s.email)
      && (t.etapa == 2 ==> t == s.(etapa := 2, tempoRestante := CountdownStart, toast := MsgCodeSent))
      && (t.etapa != 2 ==> t == s.(toast := MsgEmailInvalid))
  {
  }

  /** The button and the form submit accept the same e-mails: an `@` is already a
      character that is not white space, so the blank test never decides. */
  lemma SameEmailGuards(email: string)
    ensures SubmitAcceptsEmail(email) <==> ButtonAcceptsEmail(email)
  {
    if '@' in email {
      var i :| 0 <= i < |email| && email[i] == '@';
      NotBlankWhenNonWhitespace(email, i);
    }
  }

  /** `verificarCodigo`: no transition unless all four digits are there; "1234"
      moves to step 3; any other complete code changes only the toast and raises the
      modal, keeping the step, the digits and the countdown. */
  lemma VerificarCodigoOutcomes(s: LoginState)
    requires ValidState(s)
    ensures var t := AfterVerificarCodigo(s);
      && (!(forall i :: 0 <= i < 4 ==> s.codigo[i] != "") ==> t == s.(toast := MsgCodeIncomplete))
      && ((forall i :: 0 <= i < 4 ==> s.codigo[i] != "") && Join(s.codigo) == ExpectedCode ==>
            t == s.(etapa := 3, toast := MsgCodeVerified))
      && ((forall i :: 0 <= i < 4 ==> s.codigo[i] != "") && Join(s.codigo) != ExpectedCode ==>
            t == s.(mostrarModal := true, toast := MsgCodeWrong))
  {
    CodeCompleteIff(s.codigo);
  }

  /** `confirmarNovaSenha`: with a field empty or the two different only the toast
      changes; when they match, recovery ends and every recovery field is cleared,
      while the credentials and the modal are kept. */
  lemma ConfirmarNovaSenhaOutcomes(s: LoginState)
    ensures var t := AfterConfirmarNovaSenha(s);
      && (s.novaSenha == "" || s.confirmarSenha == "" || s.novaSenha != s.confirmarSenha ==>
            t.(toast := s.toast) == s)
      && (s.novaSenha != "" && s.novaSenha == s.confirmarSenha ==>
            && !t.modoRecuperacao && t.etapa == 1 && t.email == "" && t.codigo == EmptyCode
            && t.novaSenha == "" && t.confirmarSenha == "" && t.tempoRestante == CountdownStart
            && t.toast == MsgPasswordChanged
            && t == ClearRecovery(s, false).(toast := MsgPasswordChanged))
  {
  }

  /** The toggle flips the mode and always resets step, fields and countdown;
      toggling twice restores the mode with every recovery field cleared. */
  lemma ToggleResets(s: LoginState)
    ensures var t := AfterToggle(s);
      && t.modoRecuperacao == !s.modoRecuperacao
      && t.etapa == 1 && t.email == "" && t.codigo == EmptyCode
      && t.novaSenha == "" && t.confirmarSenha == "" && t.tempoRestante == CountdownStart
      && AfterToggle(t) == ClearRecovery(s, s.modoRecuperacao)
  {
  }

  /** The countdown moves by one per tick only in step 2 of recovery with time left,
      and at 0 in step 2 the expiry returns to step 1 with 600 seconds; both keep the
      countdown within 0..600. */
  lemma CountdownStep(s: LoginState)
    requires ValidState(s)
    ensures ValidState(AfterTick(s)) && ValidState(AfterExpiry(s))
    ensures AfterTick(s).tempoRestante ==
      if s.modoRecuperacao && s.etapa == 2 && s.tempoRestante > 0 then s.tempoRestante - 1
      else s.tempoRestante
    ensures AfterTick(s).(tempoRestante := s.tempoRestante) == s
    ensures s.modoRecuperacao && s.etapa == 2 && s.tempoRestante == 0 ==>
      AfterExpiry(s) == s.(etapa := 1, tempoRestante := CountdownStart)
    ensures !(s.modoRecuperacao && s.etapa == 2 && s.tempoRestante == 0) ==> AfterExpiry(s) == s
  {
  }

  /** `n` ticks of the interval. */
  function Ticks(s: LoginState, n: nat): LoginState
    decreases n
  {
    if n == 0 then s else Ticks(AfterTick(s), n - 1)
  }

  /** Left alone in step 2, the code expires after exactly as many ticks as there are
      seconds left: the countdown reaches 0 and the expiry sends the flow back to
      step 1 with a fresh countdown. */
  lemma {:induction false} CodeExpiresAfterCountdown(s: LoginState)
    requires s.modoRecuperacao && s.etapa == 2 && s.tempoRestante >= 0
    ensures Ticks(s, s.tempoRestante) == s.(tempoRestante := 0)
    ensures AfterExpiry(Ticks(s, s.tempoRestante)) == s.(etapa := 1, tempoRestante := CountdownStart)
    decreases s.tempoRestante
  {
    if s.tempoRestante > 0 {
      CodeExpiresAfterCountdown(AfterTick(s));
    }
  }

  // ---------------------------------------------------------------------------
  // The countdown text

  /** `padStart(2, "0")` of a number below 100. */
  function Pad2(n: nat): (r: string)
    requires n < 100
    ensures |r| == 2 && AllDigits(r) && DigitsValue(r) == n
  {
    NatToStringRoundTrip(n);
    if n < 10 then
      var r := "0" + NatToString(n);
      assert r[..1] == "0";
      r
    else
      NatToString(n)
  }

  /** `formatarTempo`: minutes, a colon, and seconds on two digits. */
  function FormatarTempo(segundos: nat): string {
    NatToString(segundos / 60) + ":" + Pad2(segundos % 60)
  }

  /** Reading the text back gives the seconds: the part before the colon counts
      minutes, the two digits after it the seconds below 60. */
  lemma FormatarTempoRoundTrip(segundos: nat)
    ensures var r := FormatarTempo(segundos);
      && |r| >= 4 && r[|r| - 3] == ':'
      && AllDigits(r[..|r| - 3]) && AllDigits(r[|r| - 2..])
      && DigitsValue(r[|r| - 2..]) < 60
      && DigitsValue(r[..|r| - 3]) * 60 + DigitsValue(r[|r| - 2..]) == segundos
  {
    var m := NatToString(segundos / 60);
    var r := FormatarTempo(segundos);
    assert r[..|r| - 3] == m;
    assert r[|r| - 2..] == Pad2(segundos % 60);
    NatToStringRoundTrip(segundos / 60);
  }

  lemma FormatarTempoExamples()
    ensures FormatarTempo(600) == "10:00"
    ensures FormatarTempo(59) == "0:59"
  {
    assert NatToString(10) == "10";
    assert NatToString(0) == "0";
  }

  // ---------------------------------------------------------------------------
  // Whole runs of user events

  datatype Event =
    | TypeUsuario(text: string)
    | TypeSenha(text: string)
    | TypeEmail(text: string)
    | TypeDigito(index: nat, text: string)
    | TypeNovaSenha(text: string)
    | TypeConfirmarSenha(text: string)
    | Submit
    | EnviarCodigo
    | Verificar
    | Confirmar
    | Toggle
    | Tick
    | Expiry
    | CloseModal

  /** The `disabled` attributes of the recovery inputs and buttons: each acts only in
      recovery mode and in its own step. */
  predicate Enabled(s: LoginState, e: Event) {
    match e
    case TypeEmail(_) => s.modoRecuperacao && s.etapa == 1
    case EnviarCodigo => s.modoRecuperacao && s.etapa == 1
    case TypeDigito(index, _) => s.modoRecuperacao && s.etapa == 2 && index < |s.codigo|
    case Verificar => s.modoRecuperacao && s.etapa == 2
    case TypeNovaSenha(_) => s.modoRecuperacao && s.etapa == 3
    case TypeConfirmarSenha(_) => s.modoRecuperacao && s.etapa == 3
    case Confirmar => s.modoRecuperacao && s.etapa == 3
    case _ => true
  }

  /** The state after one event; a disabled control does nothing. */
  function Step(s: LoginState, e: Event): LoginState {
    if !Enabled(s, e) then s
    else match e
      case TypeUsuario(text) => s.(usuario := text)
      case TypeSenha(text) => s.(senha := text)
      case TypeEmail(text) => s.(email := text)
      case TypeDigito(index, text) => AfterCodigoChange(s, index, text)
      case TypeNovaSenha(text) => s.(novaSenha := text)
      case TypeConfirmarSenha(text) => s.(confirmarSenha := text)
      case Submit => AfterSubmit(s).0
      case EnviarCodigo => AfterEnviarCodigo(s)
      case Verificar => AfterVerificarCodigo(s)
      case Confirmar => AfterConfirmarNovaSenha(s)
      case Toggle => AfterToggle(s)
      case Tick => AfterTick(s)
      case Expiry => AfterExpiry(s)
      case CloseModal => s.(mostrarModal := false)
  }

  function Run(s: LoginState, events: seq<Event>): LoginState
    decreases |events|
  {
    if events == [] then s else Run(Step(s, events[0]), events[1..])
  }

  /** What holds in every state the box can reach: the state is well formed; the
      step leaves 1 only in recovery mode; outside recovery mode every recovery field
      is at its initial value; and step 3 is only ever reached with the code
      "1234". */
  predicate Reachable(s: LoginState) {
    && ValidState(s)
    && (s.etapa != 1 ==> s.modoRecuperacao)
    && (!s.modoRecuperacao ==>
          s.email == "" && s.codigo == EmptyCode && s.novaSenha == "" && s.confirmarSenha == ""
          && s.tempoRestante == CountdownStart)
    && (s.etapa == 3 ==> Join(s.codigo) == ExpectedCode)
  }

  lemma SubmitKeepsReachable(s: LoginState)
    requires Reachable(s)
    ensures Reachable(Step(s, Submit))
  {
    if s.modoRecuperacao && s.etapa == 2 {
      CodeCompleteIff(s.codigo);
    }
  }

  lemma VerificarKeepsReachable(s: LoginState)
    requires Reachable(s)
    ensures Reachable(Step(s, Verificar))
  {
    CodeCompleteIff(s.codigo);
  }

  lemma TypeDigitoKeepsReachable(s: LoginState, index: nat, text: string)
    requires Reachable(s)
    ensures Reachable(Step(s, TypeDigito(index, text)))
  {
    if Enabled(s, TypeDigito(index, text)) {
      CodigoChangeOnlyTouchesSlot(s, index, text);
    }
  }

  lemma StepKeepsReachable(s: LoginState, e: Event)
    requires Reachable(s)
    ensures Reachable(Step(s, e))
  {
    match e
    case Submit => SubmitKeepsReachable(s);
    case Verificar => VerificarKeepsReachable(s);
    case TypeDigito(index, text) => TypeDigitoKeepsReachable(s, index, text);
    case _ =>
  }

  lemma {:induction false} RunKeepsReachable(s: LoginState, events: seq<Event>)
    requires Reachable(s)
    ensures Reachable(Run(s, events))
    decreases |events|
  {
    if events != [] {
      StepKeepsReachable(s, events[0]);
      RunKeepsReachable(Step(s, events[0]), events[1..]);
    }
  }

  /** After any sequence of user events from the initial state, the invariants of
      `Reachable` hold; in particular no run reaches the new-password step without
      the code "1234". */
  lemma EveryRunReachable(events: seq<Event>)
    ensures Reachable(Run(Initial(), events))
  {
    RunKeepsReachable(Initial(), events);
  }

  /** The only way into step 3 is the code check, by its button or by the form
      submit, with a complete code equal to "1234". */
  lemma OnlyExpectedCodeOpensStep3(s: LoginState, e: Event)
    requires s.etapa != 3 && Step(s, e).etapa == 3
    ensures (e.Verificar? || e.Submit?) && Join(s.codigo) == ExpectedCode
  {
  }

  // ---------------------------------------------------------------------------
  // The component

  class LoginBox {
    var usuario: string
    var senha: string
    var modoRecuperacao: bool
    var etapaRecuperacao: int
    var email: string
    var codigo: seq<string>
    var tempoRestante: int
    var novaSenha: string
    var confirmarSenha: string
    var mostrarModal: bool
    var toastMessage: string

    ghost function State(): LoginState
      reads this
    {
      LoginState(usuario, senha, modoRecuperacao, etapaRecuperacao, email, codigo,
                 tempoRestante, novaSenha, confirmarSenha, mostrarModal, toastMessage)
    }

    ghost predicate Valid()
      reads this
    {
      ValidState(State())
    }

    constructor ()
      ensures State() == Initial() && Valid()
    {
      usuario, senha := "", "";
      modoRecuperacao, etapaRecuperacao := false, 1;
      email, codigo, tempoRestante := "", EmptyCode, CountdownStart;
      novaSenha, confirmarSenha := "", "";
      mostrarModal, toastMessage := false, "";
    }

    method HandleCodigoChange(index: nat, valor: string)
      requires Valid() && index < 4
      modifies this
      ensures State() == AfterCodigoChange(old(State()), index, valor) && Valid()
    {
      CodigoChangeOnlyTouchesSlot(State(), index, valor);
      if |valor| > 1 {
        return;
      }
      if valor != "" && !(|valor| == 1 && IsDigit(valor[0])) {
        return;
      }
      var novoCodigo := codigo;
      novoCodigo := novoCodigo[index := valor];
      codigo := novoCodigo;
    }

    method VerificarCodigo()
      modifies this
      ensures State() == AfterVerificarCodigo(old(State()))
    {
      var codigoCompleto := Join(codigo);
      if |codigoCompleto| != 4 {
        toastMessage := MsgCodeIncomplete;
        return;
      }
      if codigoCompleto == ExpectedCode {
        etapaRecuperacao := 3;
        toastMessage := MsgCodeVerified;
      } else {
        toastMessage := MsgCodeWrong;
        mostrarModal := true;
      }
    }

    method ConfirmarNovaSenha()
      modifies this
      ensures State() == AfterConfirmarNovaSenha(old(State()))
    {
      if novaSenha == "" || confirmarSenha == "" {
        toastMessage := MsgFillPasswords;
        return;
      }
      if novaSenha != confirmarSenha {
        toastMessage := MsgPasswordsDiffer;
        return;
      }
      toastMessage := MsgPasswordChanged;
      ResetRecovery(false);
    }

    /** The resets written out in `confirmarNovaSenha`, `handleSubmit` and
        `toggleRecuperacao`. */
    method ResetRecovery(modo: bool)
      modifies this
      ensures State() == ClearRecovery(old(State()), modo)
    {
      modoRecuperacao := modo;
      etapaRecuperacao := 1;
      email := "";
      codigo := EmptyCode;
      novaSenha := "";
      confirmarSenha := "";
      tempoRestante := CountdownStart;
    }

    /** `handleSubmit`; `login` is the call made to `onLogin`, if any. */
    method HandleSubmit() returns (login: Option<Credentials>)
      modifies this
      ensures (State(), login) == AfterSubmit(old(State()))
    {
      if modoRecuperacao {
        SubmitRecovery();
        return None;
      }
      login := SubmitLogin();
    }

    method SubmitRecovery()
      requires modoRecuperacao
      modifies this
      ensures State() == AfterSubmitRecovery(old(State()))
    {
      if etapaRecuperacao == 1 {
        SubmitEmail();
      } else if etapaRecuperacao == 2 {
        VerificarCodigo();
      } else if etapaRecuperacao == 3 {
        ConfirmarNovaSenha();
      }
    }

    method SubmitEmail()
      modifies this
      ensures State() == AfterSubmitEmail(old(State()))
    {
      ghost var before := State();
      if !SubmitAcceptsEmail(email) {
        toastMessage := MsgEmailInvalid;
        assert State() == before.(toast := MsgEmailInvalid);
        return;
      }
      etapaRecuperacao := 2;
      tempoRestante := CountdownStart;
      toastMessage := MsgCodeSent;
      assert State() == before.(etapa := 2, tempoRestante := CountdownStart, toast := MsgCodeSent);
    }

    method SubmitLogin() returns (login: Option<Credentials>)
      modifies this
      ensures (State(), login) == AfterSubmitLogin(old(State()))
    {
      ghost var before := State();
      var u := Trim(usuario);
      var p := Trim(senha);
      if u == "" || p == "" {
        toastMessage := MsgFillCredentials;
        return None;
      }
      login := Some(Credentials(u, p));
      ResetRecovery(false);
      toastMessage := MsgTryingLogin;
      assert State() == ClearRecovery(before, false).(toast := MsgTryingLogin);
    }

    /** The "Enviar Código" button. */
    method EnviarCodigo()
      modifies this
      ensures State() == AfterEnviarCodigo(old(State()))
    {
      if email == "" || '@' !in email {
        toastMessage := MsgEmailInvalid;
        return;
      }
      etapaRecuperacao := 2;
      tempoRestante := CountdownStart;
    }

    method ToggleRecuperacao()
      modifies this
      ensures State() == AfterToggle(old(State()))
    {
      ResetRecovery(!modoRecuperacao);
    }

    /** One second of the countdown interval. */
    method Tick()
      requires Valid()
      modifies this
      ensures State() == AfterTick(old(State())) && Valid()
    {
      if modoRecuperacao && etapaRecuperacao == 2 && tempoRestante > 0 {
        tempoRestante := tempoRestante - 1;
      }
    }

    /** The expiry branch of the countdown effect. */
    method ExpiryEffect()
      requires Valid()
      modifies this
      ensures State() == AfterExpiry(old(State())) && Valid()
    {
      if tempoRestante == 0 && modoRecuperacao && etapaRecuperacao == 2 {
        etapaRecuperacao := 1;
        tempoRestante := CountdownStart;
      }
    }

    /** The "OK" button of the wrong-code modal. */
    method CloseModal()
      modifies this
      ensures State() == old(State()).(mostrarModal := false)
    {
      mostrarModal := false;
    }
  }
}
