/** The list of locally registered clients kept under `clientesRegistrados`:
    the duplicate check and append of registration, and the credential lookup
    of login. Both versions of the login and registration pages share it. */
module LocalAccounts {
  import opened Wrappers
  import opened JsValue
  import opened Seqs

  /** The registration form. */
  datatype Registro = Registro(nombre: string, email: string, password: string, telefono: string)

  /** The form after a reset: every field empty. */
  const EmptyRegistro: Registro := Registro("", "", "", "")

  /** The clients whose `email` is `email` (strict equality). */
  function EmailIs(email: string): Obj -> bool
  {
    c => Get(c, "email") == Some(Str(email))
  }

  /** The clients whose `email` and `password` are the given ones. */
  function Credentials(email: string, password: string): Obj -> bool
  {
    c => Get(c, "email") == Some(Str(email)) && Get(c, "password") == Some(Str(password))
  }

  /** The record a registration stores: the form's fields, the id taken from the clock,
      the registration time and the role `cliente`. */
  function NuevoCliente(d: Registro, id: int, fecha: string): (c: Obj)
    ensures Get(c, "rol") == Some(Str("cliente"))
    ensures Get(c, "email") == Some(Str(d.email)) && Get(c, "password") == Some(Str(d.password))
    ensures Get(c, "nombre") == Some(Str(d.nombre)) && Get(c, "telefono") == Some(Str(d.telefono))
  {
    map["id" := Num(id), "nombre" := Str(d.nombre), "email" := Str(d.email), "password" := Str(d.password),
        "telefono" := Str(d.telefono), "fechaRegistro" := Str(fecha), "rol" := Str("cliente")]
  }

  /** Local registration: nothing when a stored client already has the email; otherwise the
      list with exactly one new client appended and every earlier entry as it was. */
  function Registrar(clientes: seq<Obj>, d: Registro, id: int, fecha: string): (r: Option<seq<Obj>>)
    ensures r.None? <==> exists i :: 0 <= i < |clientes| && EmailIs(d.email)(clientes[i])
    ensures r.Some? ==> |r.value| == |clientes| + 1 && r.value[..|clientes|] == clientes &&
                        r.value[|clientes|] == NuevoCliente(d, id, fecha)
  {
    if Find(EmailIs(d.email), clientes).Some? then None
    else Some(clientes + [NuevoCliente(d, id, fecha)])
  }

  /** No two stored clients share an email. */
  ghost predicate UniqueEmails(clientes: seq<Obj>)
  {
    forall i, j :: 0 <= i < j < |clientes| && Get(clientes[i], "email").Some? ==>
      Get(clientes[i], "email") != Get(clientes[j], "email")
  }

  /** Registration keeps the emails of the stored clients distinct. */
  lemma RegistrarKeepsEmailsUnique(clientes: seq<Obj>, d: Registro, id: int, fecha: string)
    requires UniqueEmails(clientes)
    requires Registrar(clientes, d, id, fecha).Some?
    ensures UniqueEmails(Registrar(clientes, d, id, fecha).value)
  {
    var r := Registrar(clientes, d, id, fecha).value;
    forall i, j | 0 <= i < j < |r| && Get(r[i], "email").Some?
      ensures Get(r[i], "email") != Get(r[j], "email")
    {
      assert r[i] == clientes[i];
      if j < |clientes| {
        assert r[j] == clientes[j];
      } else {
        assert !EmailIs(d.email)(clientes[i]);
      }
    }
  }

  /** A client just registered is the one the login lookup finds with the same email and
      password. */
  lemma RegisteredClientCanLogIn(clientes: seq<Obj>, d: Registro, id: int, fecha: string)
    requires Registrar(clientes, d, id, fecha).Some?
    ensures Find(Credentials(d.email, d.password), Registrar(clientes, d, id, fecha).value) ==
            Some(NuevoCliente(d, id, fecha))
  {
    var r := Registrar(clientes, d, id, fecha).value;
    forall j | 0 <= j < |clientes| ensures !Credentials(d.email, d.password)(r[j]) {
      assert r[j] == clientes[j];
      assert !EmailIs(d.email)(clientes[j]);
    }
    FirstIndexAt(Credentials(d.email, d.password), r, |clientes|);
  }
}
