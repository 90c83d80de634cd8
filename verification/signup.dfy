/** Account creation (apps/web/server/signup.ts): schema validation, the
    duplicate-email check, and the insert with a hashed password. The
    password hash is a parameter `hash(password, rounds)`. */
module Signup {
  import opened Base
  import opened Wire
  import opened Store

  const SaltRounds: nat := 10
  const GenericError: string := "An unexpected error occurred during registration. Please try again."

  /** The action's outcome: it throws the validation message, resolves to
      the bare string, or resolves to `{ success, user | error }`. */
  datatype SignupReply =
    | InvalidInput
    | AlreadyExists(text: string)
    | Registered(user: User, message: string)
    | Failed(error: string)

  datatype Outcome = Outcome(db: Db, reply: SignupReply)

  /** Some user already has the e-mail (`findFirst` on the e-mail). */
  predicate EmailTaken(db: Db, email: string) {
    exists u :: u in db.users && db.users[u].email == email
  }

  /** No two users share an e-mail. */
  predicate EmailsUnique(db: Db) {
    forall u, v :: u in db.users && v in db.users && db.users[u].email == db.users[v].email ==> u == v
  }

  /** `signup(values)`. `freshId` is the id the database generates; `fault`
      says the insert throws. */
  function SignUp(db: Db, values: SignUpInput, hash: (string, nat) -> string, freshId: UserId, fault: bool): (r: Outcome)
    requires freshId !in db.users
    ensures ParseSignUp(values).None? ==> r == Outcome(db, InvalidInput)
    ensures ParseSignUp(values).Some? && EmailTaken(db, values.email.value) ==>
              r == Outcome(db, AlreadyExists("User already exist"))
    ensures ParseSignUp(values).Some? && !EmailTaken(db, values.email.value) && fault ==>
              r == Outcome(db, Failed(GenericError))
    ensures r.reply.Registered? <==> ParseSignUp(values).Some? && !EmailTaken(db, values.email.value) && !fault
    ensures r.reply.Registered? ==>
              && r.reply.user == User(freshId, values.email.value, hash(values.password.value, 10), values.name.value)
              && r.reply.message == "User registered successfully"
              && r.db == db.(users := db.users[freshId := r.reply.user])
    ensures !r.reply.Registered? ==> r.db == db
  {
    match ParseSignUp(values)
    case None => Outcome(db, InvalidInput)
    case Some(form) =>
      if EmailTaken(db, form.email) then Outcome(db, AlreadyExists("User already exist"))
      else if fault then Outcome(db, Failed(GenericError))
      else
        var user := User(freshId, form.email, hash(form.password, SaltRounds), form.name);
        Outcome(db.(users := db.users[freshId := user]), Registered(user, "User registered successfully"))
  }

  /** Sign-ups one after another keep e-mails unique. */
  lemma SignUpKeepsEmailsUnique(db: Db, values: SignUpInput, hash: (string, nat) -> string, freshId: UserId, fault: bool)
    requires freshId !in db.users && EmailsUnique(db)
    ensures EmailsUnique(SignUp(db, values, hash, freshId, fault).db)
  {
    var r := SignUp(db, values, hash, freshId, fault);
    if r.reply.Registered? {
      assert forall u :: u in db.users ==> db.users[u].email != r.reply.user.email;
    }
  }

  /** Registering an e-mail and then registering it again, with any other
      details, is refused with the bare string and adds nobody. */
  lemma SecondSignUpRefused(db: Db, first: SignUpInput, second: SignUpInput, hash: (string, nat) -> string, id1: UserId, id2: UserId)
    requires id1 !in db.users && id2 !in db.users && id1 != id2
    requires ParseSignUp(first).Some? && ParseSignUp(second).Some? && first.email == second.email
    requires !EmailTaken(db, first.email.value)
    ensures var one := SignUp(db, first, hash, id1, false);
            && one.reply.Registered?
            && SignUp(one.db, second, hash, id2, false) == Outcome(one.db, AlreadyExists("User already exist"))
  {
    var one := SignUp(db, first, hash, id1, false);
    assert one.db.users[id1].email == second.email.value;
  }
}
