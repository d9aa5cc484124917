/**
 * Registration: the fields of the profile registration serializer, the
 * checks its field declarations make before `save` runs, and `save` itself
 * as a function of the database.
 */
module Users {
  import opened Tables
  import opened Models
  import opened Integrity

  datatype Registration = Registration(
    username: string,
    email: string,
    password: string,
    firstName: string,
    lastName: string,
    phoneNumber: string,
    addressLine1: string,
    addressLine2: string,
    city: string,
    state: string,
    postalCode: int,
    country: string)

  /**
   * The characters Python's `str.strip` removes: those `str.isspace` accepts
   * (the ASCII controls from tab to carriage return and from the file to the
   * unit separator, the space, next-line, the no-break spaces and the Unicode
   * space and line/paragraph separators).
   */
  predicate IsSpace(c: char)
  {
    var n := c as int;
    || 0x09 <= n <= 0x0D || 0x1C <= n <= 0x20 || n == 0x85 || n == 0xA0 || n == 0x1680
    || 0x2000 <= n <= 0x200A || n == 0x2028 || n == 0x2029 || n == 0x202F || n == 0x205F || n == 0x3000
  }

  /** `s` without its leading whitespace. */
  function TrimStart(s: string): (t: string)
    ensures |t| <= |s| && t == s[|s| - |t|..]
    ensures forall i | 0 <= i < |s| - |t| :: IsSpace(s[i])
    ensures t != [] ==> !IsSpace(t[0])
  {
    if s != [] && IsSpace(s[0]) then TrimStart(s[1..]) else s
  }

  /** `s` without its trailing whitespace. */
  function TrimEnd(s: string): (t: string)
    ensures |t| <= |s| && t == s[..|t|]
    ensures forall i | |t| <= i < |s| :: IsSpace(s[i])
    ensures t != [] ==> !IsSpace(t[|t| - 1])
  {
    if s != [] && IsSpace(s[|s| - 1]) then TrimEnd(s[..|s| - 1]) else s
  }

  /**
   * `str.strip`, which the serializer's text fields apply to what they
   * receive (`trim_whitespace` is on by default): neither end of the result
   * is whitespace, and it is empty exactly when `s` is all whitespace.
   */
  function Trim(s: string): (t: string)
    ensures |t| <= |s|
    ensures t != [] ==> !IsSpace(t[0]) && !IsSpace(t[|t| - 1])
    ensures t == [] <==> forall k | 0 <= k < |s| :: IsSpace(s[k])
  {
    var front := TrimStart(s);
    assert front == [] ==> forall k | 0 <= k < |s| :: IsSpace(s[k]);
    assert front != [] ==> TrimEnd(front) != [];
    TrimEnd(front)
  }

  /** Trimming removes only whitespace, and only from the two ends. */
  lemma TrimKeepsMiddle(s: string)
    ensures var t := Trim(s);
      exists i | 0 <= i <= |s| - |t| ::
        && t <= s[i..]
        && (forall k | 0 <= k < i :: IsSpace(s[k]))
        && (forall k | i + |t| <= k < |s| :: IsSpace(s[k]))
  {
    var front := TrimStart(s);
    var t := Trim(s);
    var i := |s| - |front|;
    assert front == s[i..];
    assert t <= s[i..];
    forall k | i + |t| <= k < |s| ensures IsSpace(s[k]) {
      assert s[k] == front[k - i];
    }
  }

  /** Trimming twice trims no more than trimming once. */
  lemma TrimIdempotent(s: string)
    ensures Trim(Trim(s)) == Trim(s)
  {
    var t := Trim(s);
    assert TrimStart(t) == t;
    assert TrimEnd(t) == t;
  }

  /** The form as the serializer validates and saves it: every text field trimmed. */
  function Cleaned(reg: Registration): Registration
  {
    Registration(Trim(reg.username), Trim(reg.email), Trim(reg.password), Trim(reg.firstName), Trim(reg.lastName),
                 Trim(reg.phoneNumber), Trim(reg.addressLine1), Trim(reg.addressLine2), Trim(reg.city),
                 Trim(reg.state), reg.postalCode, Trim(reg.country))
  }

  /** Cleaning a cleaned form changes nothing. */
  lemma CleanedIdempotent(reg: Registration)
    ensures Cleaned(Cleaned(reg)) == Cleaned(reg)
  {
    TrimIdempotent(reg.username);
    TrimIdempotent(reg.email);
    TrimIdempotent(reg.password);
    TrimIdempotent(reg.firstName);
    TrimIdempotent(reg.lastName);
    TrimIdempotent(reg.phoneNumber);
    TrimIdempotent(reg.addressLine1);
    TrimIdempotent(reg.addressLine2);
    TrimIdempotent(reg.city);
    TrimIdempotent(reg.state);
    TrimIdempotent(reg.country);
  }

  /** A required text field of at most `max` characters. */
  predicate TextField(s: string, max: nat)
  {
    0 < |s| <= max
  }

  /**
   * The serializer's field validation: the declared username length of 10,
   * the model's maximum lengths, no blank text, and the small positive
   * integer range of the postal code.
   */
  predicate RegistrationValid(reg: Registration)
  {
    && TextField(reg.username, 10)
    && reg.email != ""
    && reg.password != ""
    && TextField(reg.firstName, 15)
    && TextField(reg.lastName, 15)
    && reg.phoneNumber != ""
    && TextField(reg.addressLine1, 100)
    && TextField(reg.addressLine2, 100)
    && TextField(reg.city, 10)
    && TextField(reg.state, 10)
    && 0 <= reg.postalCode <= 32767
    && TextField(reg.country, 10)
  }

  /** The profile saved for a registration, linked to the new user. */
  function ProfileFor(user: nat, reg: Registration): (p: Profile)
    requires 0 <= reg.postalCode
    ensures p.user == user
    ensures p.firstName == reg.firstName && p.lastName == reg.lastName && p.phoneNumber == reg.phoneNumber
    ensures p.addressLine1 == reg.addressLine1 && p.addressLine2 == reg.addressLine2
    ensures p.city == reg.city && p.state == reg.state && p.postalCode == reg.postalCode && p.country == reg.country
  {
    Profile(user, reg.firstName, reg.lastName, reg.phoneNumber, reg.addressLine1, reg.addressLine2,
            reg.city, reg.state, reg.postalCode, reg.country)
  }

  /**
   * Whether any account already holds `value` in the given column: the
   * email check is `User.objects.filter(email=...).exists()`, the username
   * check the auth system's unique constraint when the user is saved.
   */
  function Taken(users: Table<User>, column: User -> string, value: string): (taken: bool)
    requires Valid(users)
    ensures !taken <==> forall k | k in users.rows :: column(users.rows[k]) != value
  {
    QueryNone(users, (r: Row<User>) => column(r.val) == value);
    Query(users, (r: Row<User>) => column(r.val) == value) != []
  }

  /** No two accounts share an email address. */
  ghost predicate EmailsUnique(users: Table<User>)
  {
    forall a, b | a in users.rows && b in users.rows && a != b :: users.rows[a].email != users.rows[b].email
  }

  /**
   * `ProfileRegistrationSerializer.save` after a valid form (400 otherwise):
   * a used email is refused (400) and a used username fails the auth
   * system's unique constraint (500); otherwise a non-staff account and its
   * profile.  The answer carries the new account's key.
   */
  function SaveRegistration(db: Database, form: Registration): (o: Outcome<nat>)
    requires TablesValid(db)
    ensures TablesValid(o.db) && o.db == db.(users := o.db.users, profiles := o.db.profiles)
  {
    if !RegistrationValid(form) then Outcome(Refuse(InvalidInput), db)
    else if Taken(db.users, (u: User) => u.email, form.email) then Outcome(Refuse(EmailExists), db)
    else if Taken(db.users, (u: User) => u.username, form.username) then Outcome(Refuse(IntegrityError), db)
    else
      var user := db.users.next;
      Outcome(Ok(201, user),
              db.(users := Insert(db.users, User(form.username, form.email, false)),
                  profiles := Insert(db.profiles, ProfileFor(user, form))))
  }

  /** The registration view: the serializer trims the request's text fields, then validates and saves. */
  function RegisterAccount(db: Database, request: Registration): (o: Outcome<nat>)
    requires TablesValid(db)
    ensures TablesValid(o.db)
  {
    SaveRegistration(db, Cleaned(request))
  }

  /**
   * Registration succeeds exactly when the trimmed form is valid, with an
   * unused email and username, and then adds one non-staff account with those and one profile
   * for it holding the form's fields; otherwise it writes nothing.
   */
  lemma RegisterEffect(db: Database, form: Registration)
    requires TablesValid(db)
    ensures var o := SaveRegistration(db, form);
      var emailFree := forall k | k in db.users.rows :: db.users.rows[k].email != form.email;
      var usernameFree := forall k | k in db.users.rows :: db.users.rows[k].username != form.username;
      && (!RegistrationValid(form) ==> o.reply == Refuse(InvalidInput))
      && (|form.username| > 10 ==> o.reply == Refuse(InvalidInput))
      && (RegistrationValid(form) && !emailFree ==> o.reply == Refuse(EmailExists))
      && (RegistrationValid(form) && emailFree && !usernameFree ==> o.reply == Refuse(IntegrityError))
      && (o.reply.Ok? <==> RegistrationValid(form) && emailFree && usernameFree)
      && (o.reply.Fail? ==> o.db == db)
      && (o.reply.Ok? ==>
            && o.reply.code == 201 && o.reply.value == db.users.next
            && Get(o.db.users, o.reply.value) == Some(User(form.username, form.email, false))
            && Keys(o.db.users) == Keys(db.users) + {o.reply.value}
            && (forall k | k != db.users.next :: Get(o.db.users, k) == Get(db.users, k))
            && Get(o.db.profiles, db.profiles.next) == Some(ProfileFor(o.reply.value, form))
            && Keys(o.db.profiles) == Keys(db.profiles) + {db.profiles.next}
            && (forall k | k != db.profiles.next :: Get(o.db.profiles, k) == Get(db.profiles, k))
            && o.db.(users := db.users, profiles := db.profiles) == db)
  {
  }

  /** Whitespace around the request's text fields never changes what registration does. */
  lemma RegisterTrims(db: Database, reg: Registration)
    requires TablesValid(db)
    ensures RegisterAccount(db, reg) == RegisterAccount(db, Cleaned(reg))
  {
    CleanedIdempotent(reg);
  }

  /** Registration never lets two accounts share an email address. */
  lemma RegisterKeepsEmailsUnique(db: Database, form: Registration)
    requires TablesValid(db)
    ensures EmailsUnique(db.users) ==> EmailsUnique(SaveRegistration(db, form).db.users)
  {
    var o := SaveRegistration(db, form);
    if o.reply.Ok? && EmailsUnique(db.users) {
      var users := o.db.users;
      assert users == Insert(db.users, User(form.username, form.email, false));
      forall a, b | a in users.rows && b in users.rows && a != b ensures users.rows[a].email != users.rows[b].email {
        if a == db.users.next {
          assert Get(db.users, b) == Get(users, b);
        } else if b == db.users.next {
          assert Get(db.users, a) == Get(users, a);
        } else {
          assert Get(db.users, a) == Get(users, a) && Get(db.users, b) == Get(users, b);
        }
      }
    }
  }

  /** Registration keeps a consistent database consistent. */
  lemma RegisterConsistent(db: Database, form: Registration)
    requires TablesValid(db)
    ensures Consistent(db) ==> Consistent(SaveRegistration(db, form).db)
  {
    var o := SaveRegistration(db, form);
    if o.reply.Ok? {
      var u := User(form.username, form.email, false);
      var p := ProfileFor(db.users.next, form);
      NewAccountConsistent(db, u, p);
      assert o.db == db.(users := Insert(db.users, u), profiles := Insert(db.profiles, p));
    } else {
      assert o.db == db;
    }
  }
}
