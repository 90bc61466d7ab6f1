/**
 The login page's form logic: whitespace trimming, the email pattern, the
 login and registration validators, per-field error clearing and the submit
 guards in front of `signIn` and `signUp`. Authentication itself is the
 caller's; the model returns the request a submit would issue.
 */
module Login {
  import opened Wrappers

  /**
   The characters JavaScript's `\s` and `String.prototype.trim` treat as
   white space: the ECMAScript WhiteSpace and LineTerminator characters.
   */
  const Espacos: set<char> := {
    '\t', '\n', '\U{000B}', '\U{000C}', '\r', ' ', '\U{00A0}', '\U{1680}',
    '\U{2000}', '\U{2001}', '\U{2002}', '\U{2003}', '\U{2004}', '\U{2005}',
    '\U{2006}', '\U{2007}', '\U{2008}', '\U{2009}', '\U{200A}',
    '\U{2028}', '\U{2029}', '\U{202F}', '\U{205F}', '\U{3000}', '\U{FEFF}'}

  predicate IsSpace(c: char)
  {
    c in Espacos
  }

  predicate AllSpace(s: string)
  {
    forall k :: 0 <= k < |s| ==> IsSpace(s[k])
  }

  /** `s` with its leading white space removed: a suffix of `s`. */
  function TrimStart(s: string): (r: string)
    ensures |r| <= |s| && r == s[|s| - |r|..]
    ensures forall k :: 0 <= k < |s| - |r| ==> IsSpace(s[k])
    ensures r == [] || !IsSpace(r[0])
  {
    if |s| > 0 && IsSpace(s[0]) then
      var r := TrimStart(s[1..]);
      assert s[1..][|s| - 1 - |r|..] == s[|s| - |r|..];
      assert forall k :: 1 <= k < |s| - |r| ==> s[k] == s[1..][k - 1];
      r
    else s
  }

  /** `s` with its trailing white space removed: a prefix of `s`. */
  function TrimEnd(s: string): (r: string)
    ensures |r| <= |s| && r == s[..|r|]
    ensures forall k :: |r| <= k < |s| ==> IsSpace(s[k])
    ensures r == [] || !IsSpace(r[|r| - 1])
  {
    if |s| > 0 && IsSpace(s[|s| - 1]) then TrimEnd(s[..|s| - 1]) else s
  }

  /**
   `s.trim()`: the slice of `s` that starts and ends with a non-space
   character, everything cut off on either side being white space.
   */
  function Trim(s: string): (r: string)
    ensures exists a :: Trimmed(s, a, r)
    ensures r == [] || (!IsSpace(r[0]) && !IsSpace(r[|r| - 1]))
  {
    var t := TrimStart(s);
    var r := TrimEnd(t);
    TrimSlice(s, t, r);
    r
  }

  /** `r` is the slice of `s` starting at `a`, with only white space around it. */
  ghost predicate Trimmed(s: string, a: int, r: string)
  {
    0 <= a && a + |r| <= |s| && r == s[a..a + |r|]
    && (forall k :: 0 <= k < a ==> IsSpace(s[k]))
    && (forall k :: a + |r| <= k < |s| ==> IsSpace(s[k]))
  }

  lemma TrimSlice(s: string, t: string, r: string)
    requires |t| <= |s| && t == s[|s| - |t|..]
    requires forall k :: 0 <= k < |s| - |t| ==> IsSpace(s[k])
    requires |r| <= |t| && r == t[..|r|]
    requires forall k :: |r| <= k < |t| ==> IsSpace(t[k])
    ensures Trimmed(s, |s| - |t|, r)
  {
    var a := |s| - |t|;
    forall k | a + |r| <= k < |s| ensures IsSpace(s[k]) {
      assert s[k] == t[k - a];
    }
  }

  /** `!s.trim()`: the string is empty or white space only. */
  lemma BlankIffAllSpace(s: string)
    ensures Trim(s) == [] <==> AllSpace(s)
  {
    var r := Trim(s);
    var a :| Trimmed(s, a, r);
    if r != [] {
      assert r[0] == s[a];
    }
  }

  predicate NoSpace(s: string)
  {
    forall k :: 0 <= k < |s| ==> !IsSpace(s[k])
  }

  /** The pattern `\S+@\S+\.\S+` matches the slice `s[a..e]`, with the `@` at `i` and the `.` at `j`. */
  ghost predicate MatchAt(s: string, a: int, i: int, j: int, e: int)
  {
    0 <= a < i && i + 1 < j && j + 1 < e <= |s|
    && s[i] == '@' && s[j] == '.'
    && NoSpace(s[a..i]) && NoSpace(s[i + 1..j]) && NoSpace(s[j + 1..e])
  }

  /** `/\S+@\S+\.\S+/.test(s)`: the unanchored pattern matches somewhere in `s`. */
  ghost predicate EmailPattern(s: string)
  {
    exists a, i, j, e :: MatchAt(s, a, i, j, e)
  }

  /**
   The pattern the page checks before signing in: an `@` preceded by a non-space character,
   followed by a run of non-space characters up to a `.` that is followed by
   a non-space character.
   */
  predicate TestEmail(s: string)
  {
    exists i :: 0 < i < |s| && AtSignAt(s, i)
  }

  /** An `@` at `i`, preceded by a non-space character, that some `.` closes. */
  predicate AtSignAt(s: string, i: int)
    requires 0 < i < |s|
  {
    s[i] == '@' && !IsSpace(s[i - 1]) && exists j :: i + 1 < j < |s| - 1 && DotAt(s, i, j)
  }

  /** A `.` at `j` followed by a non-space character, with only non-space characters between `i` and `j`. */
  predicate DotAt(s: string, i: int, j: int)
    requires 0 <= i && i + 1 < j < |s| - 1
  {
    s[j] == '.' && !IsSpace(s[j + 1]) && NoSpace(s[i + 1..j])
  }

  /** The local test accepts exactly the strings the pattern matches. */
  lemma TestEmailMatchesPattern(s: string)
    ensures TestEmail(s) <==> EmailPattern(s)
  {
    if TestEmail(s) {
      var i :| 0 < i < |s| && AtSignAt(s, i);
      var j :| i + 1 < j < |s| - 1 && DotAt(s, i, j);
      assert NoSpace(s[i - 1..i]);
      assert NoSpace(s[j + 1..j + 2]);
      assert MatchAt(s, i - 1, i, j, j + 2);
    }
    if EmailPattern(s) {
      var a, i, j, e :| MatchAt(s, a, i, j, e);
      assert s[i - 1] == s[a..i][i - 1 - a];
      assert s[j + 1] == s[j + 1..e][0];
      assert DotAt(s, i, j);
      assert AtSignAt(s, i);
    }
  }

  const EmailObrigatorio: string := "Email é obrigatório"
  const EmailInvalido: string := "Email deve ter um formato válido"
  const SenhaObrigatoria: string := "Senha é obrigatória"
  const SenhaCurta: string := "Senha deve ter pelo menos 6 caracteres"
  const NomeObrigatorio: string := "Nome é obrigatório"
  const SenhasDiferentes: string := "Senhas não coincidem"
  const ContribuinteNaoDefinido: string := "Contribuinte não definido"
  const MinSenha: nat := 6

  /** The form's error messages, one optional message per field. */
  datatype Erros = Erros(nome: Option<string>, email: Option<string>, password: Option<string>,
                         confirmPassword: Option<string>, general: Option<string>)

  const SemErros: Erros := Erros(None, None, None, None, None)

  /** The email rule shared by both forms. */
  function ErroEmail(email: string): (m: Option<string>)
    ensures m == Some(EmailObrigatorio) <==> AllSpace(email)
    ensures m == Some(EmailInvalido) <==> !AllSpace(email) && !EmailPattern(email)
    ensures m.None? <==> !AllSpace(email) && EmailPattern(email)
  {
    BlankIffAllSpace(email);
    TestEmailMatchesPattern(email);
    if Trim(email) == [] then Some(EmailObrigatorio)
    else if !TestEmail(email) then Some(EmailInvalido)
    else None
  }

  /**
   The password rule shared by both forms: blankness is judged on the
   trimmed password, the length on the password as typed.
   */
  function ErroSenha(password: string): (m: Option<string>)
    ensures m == Some(SenhaObrigatoria) <==> AllSpace(password)
    ensures m == Some(SenhaCurta) <==> !AllSpace(password) && |password| < MinSenha
    ensures m.None? <==> !AllSpace(password) && |password| >= MinSenha
  {
    BlankIffAllSpace(password);
    if Trim(password) == [] then Some(SenhaObrigatoria)
    else if |password| < MinSenha then Some(SenhaCurta)
    else None
  }

  datatype LoginForm = LoginForm(email: string, password: string)

  /** `validateForm`: the new errors, and whether there are none. */
  function ValidateForm(f: LoginForm): (r: (bool, Erros))
    ensures r.0 <==> r.1 == SemErros
    ensures r.0 <==> !AllSpace(f.email) && EmailPattern(f.email) && !AllSpace(f.password) && |f.password| >= MinSenha
    ensures r.1.nome.None? && r.1.confirmPassword.None? && r.1.general.None?
    ensures r.1.email == ErroEmail(f.email) && r.1.password == ErroSenha(f.password)
  {
    var erros := SemErros.(email := ErroEmail(f.email), password := ErroSenha(f.password));
    (erros == SemErros, erros)
  }

  /** A password of white space alone is reported missing, however long it is. */
  lemma BlankPasswordIsMissing(f: LoginForm)
    requires AllSpace(f.password)
    ensures ValidateForm(f).1.password == Some(SenhaObrigatoria)
    ensures !ValidateForm(f).0
  {
  }

  /**
   The length rule counts the white space around the password: a
   six-character password that starts with a space passes, although its
   trimmed form is shorter than six.
   */
  lemma LengthCountsSurroundingSpace(password: string)
    requires |password| == MinSenha && IsSpace(password[0]) && !AllSpace(password)
    ensures ErroSenha(password).None?
    ensures |Trim(password)| < MinSenha
  {
    BlankIffAllSpace(password);
    var r := Trim(password);
    var a :| Trimmed(password, a, r);
  }

  datatype RegisterForm = RegisterForm(nome: string, email: string, password: string, confirmPassword: string)

  /** `validateRegisterForm`: the login rules, a required name, and matching passwords. */
  function ValidateRegisterForm(f: RegisterForm): (r: (bool, Erros))
    ensures r.0 <==> r.1 == SemErros
    ensures r.1.nome == Some(NomeObrigatorio) <==> AllSpace(f.nome)
    ensures r.1.nome.None? <==> !AllSpace(f.nome)
    ensures r.1.email == ErroEmail(f.email) && r.1.password == ErroSenha(f.password)
    ensures r.1.confirmPassword == Some(SenhasDiferentes) <==> f.password != f.confirmPassword
    ensures r.1.confirmPassword.None? <==> f.password == f.confirmPassword
    ensures r.1.general.None?
  {
    BlankIffAllSpace(f.nome);
    var erros := Erros(
      if Trim(f.nome) == [] then Some(NomeObrigatorio) else None,
      ErroEmail(f.email),
      ErroSenha(f.password),
      if f.password != f.confirmPassword then Some(SenhasDiferentes) else None,
      None);
    (erros == SemErros, erros)
  }

  /**
   A registration that validates also passes the login validator with the
   same email and password, and the confirmation equals the password.
   */
  lemma RegisterValidImpliesLoginValid(f: RegisterForm)
    ensures ValidateRegisterForm(f).0 ==> ValidateForm(LoginForm(f.email, f.password)).0
    ensures ValidateRegisterForm(f).0 ==> f.confirmPassword == f.password && !AllSpace(f.nome)
  {
  }

  /** A field of the login form. */
  datatype Campo = Email | Password

  /** The login page's state. */
  datatype Pagina = Pagina(form: LoginForm, erros: Erros, authError: Option<string>, validated: bool)

  /** JavaScript truthiness of an optional string: present and non-empty. */
  predicate Truthy(v: Option<string>)
  {
    v.Some? && v.value != []
  }

  /**
   `handleChange`: the edited field takes the new value; its error, when
   set, is cleared; the other field and its error are untouched; the
   authentication error is cleared.
   */
  function HandleChange(p: Pagina, campo: Campo, valor: string): (r: Pagina)
    ensures campo == Email ==> r.form == p.form.(email := valor)
    ensures campo == Password ==> r.form == p.form.(password := valor)
    ensures campo == Email ==> r.erros.(email := p.erros.email) == p.erros && !Truthy(r.erros.email)
    ensures campo == Password ==> r.erros.(password := p.erros.password) == p.erros && !Truthy(r.erros.password)
    ensures r.authError.None? && r.validated == p.validated
  {
    match campo
    case Email =>
      Pagina(p.form.(email := valor),
             if Truthy(p.erros.email) then p.erros.(email := None) else p.erros,
             None, p.validated)
    case Password =>
      Pagina(p.form.(password := valor),
             if Truthy(p.erros.password) then p.erros.(password := None) else p.erros,
             None, p.validated)
  }

  /**
   `handleSubmit`: the form is marked validated; an invalid form shows its
   errors; a valid one without a known tenant key (neither the configured
   one nor the one handed over by the route) shows only the general error;
   otherwise `signIn` is requested with the trimmed email and the password
   as typed.
   */
  function HandleSubmit(p: Pagina, contribuinte: Option<string>, doEstado: Option<string>): (r: (Pagina, Option<(string, string)>))
    ensures r.0.validated && r.0.form == p.form && r.0.authError == p.authError
    ensures r.1.Some? <==> ValidateForm(p.form).0 && (Truthy(contribuinte) || Truthy(doEstado))
    ensures r.1.Some? ==> r.1.value == (Trim(p.form.email), p.form.password) && r.0.erros == SemErros
    ensures !ValidateForm(p.form).0 ==> r.0.erros == ValidateForm(p.form).1
    ensures ValidateForm(p.form).0 && !Truthy(contribuinte) && !Truthy(doEstado) ==>
      r.0.erros == SemErros.(general := Some(ContribuinteNaoDefinido))
  {
    var v := ValidateForm(p.form);
    var q := p.(erros := v.1, validated := true);
    if !v.0 then (q, None)
    else if !Truthy(contribuinte) && !Truthy(doEstado) then
      (q.(erros := SemErros.(general := Some(ContribuinteNaoDefinido))), None)
    else (q, Some((Trim(p.form.email), p.form.password)))
  }

  /** A submit never reaches `signIn` with a blank or malformed email or a short password. */
  lemma SubmitOnlyWithValidCredentials(p: Pagina, contribuinte: Option<string>, doEstado: Option<string>)
    ensures var pedido := HandleSubmit(p, contribuinte, doEstado).1;
      pedido.Some? ==>
        pedido.value.0 != [] && EmailPattern(p.form.email) && !AllSpace(pedido.value.1) && |pedido.value.1| >= MinSenha
  {
    BlankIffAllSpace(p.form.email);
  }

  /** A field of the registration form. */
  datatype CampoRegistro = Nome | EmailRegistro | PasswordRegistro | ConfirmPassword

  /**
   `handleRegisterChange`: the edited field takes the new value and its
   error, when set, is cleared; nothing else changes.
   */
  function HandleRegisterChange(f: RegisterForm, erros: Erros, campo: CampoRegistro, valor: string): (r: (RegisterForm, Erros))
    ensures campo == Nome ==> r.0 == f.(nome := valor) && r.1.(nome := erros.nome) == erros && !Truthy(r.1.nome)
    ensures campo == EmailRegistro ==> r.0 == f.(email := valor) && r.1.(email := erros.email) == erros && !Truthy(r.1.email)
    ensures campo == PasswordRegistro ==> r.0 == f.(password := valor) && r.1.(password := erros.password) == erros && !Truthy(r.1.password)
    ensures campo == ConfirmPassword ==> r.0 == f.(confirmPassword := valor)
    ensures campo == ConfirmPassword ==> r.1.(confirmPassword := erros.confirmPassword) == erros && !Truthy(r.1.confirmPassword)
  {
    match campo
    case Nome => (f.(nome := valor), if Truthy(erros.nome) then erros.(nome := None) else erros)
    case EmailRegistro => (f.(email := valor), if Truthy(erros.email) then erros.(email := None) else erros)
    case PasswordRegistro => (f.(password := valor), if Truthy(erros.password) then erros.(password := None) else erros)
    case ConfirmPassword =>
      (f.(confirmPassword := valor), if Truthy(erros.confirmPassword) then erros.(confirmPassword := None) else erros)
  }

  /**
   `handleRegisterSubmit`: an invalid form shows its errors and requests
   nothing; a valid one clears the errors and requests `signUp` with the
   trimmed email, the password and the name as typed.
   */
  function HandleRegisterSubmit(f: RegisterForm, erros: Erros): (r: (Erros, Option<(string, string, string)>))
    ensures r.1.Some? <==> ValidateRegisterForm(f).0
    ensures r.1.Some? ==> r.1.value == (Trim(f.email), f.password, f.nome) && r.0 == SemErros
    ensures r.1.None? ==> r.0 == ValidateRegisterForm(f).1
  {
    var v := ValidateRegisterForm(f);
    if !v.0 then (v.1, None) else (SemErros, Some((Trim(f.email), f.password, f.nome)))
  }
}
