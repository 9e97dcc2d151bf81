/** The data-access functions of the web app: each builds one parameterised
    SQL query, hands it to the connection pool, and shapes what the pool
    settles with into the value its own promise settles with. The pool is a
    parameter: whatever it answers for a query. */
module Database {
  import opened JsRuntime
  import PropertyListing

  /** A plain JavaScript object, such as a result row or the `user` and
      `property` arguments; a missing property reads as `undefined`. */
  type JsObject = map<string, JsValue>

  function Get(obj: JsObject, key: string): (v: JsValue)
    ensures key in obj ==> v == obj[key]
    ensures key !in obj ==> v == Undefined
  {
    if key in obj then obj[key] else Undefined
  }

  /** A query text and its bind parameters, `$k` standing for `args[k-1]`. */
  datatype Query = Query(text: string, args: seq<JsValue>)

  /** What `pool.query` settles with: the result rows, or a rejection. */
  datatype QueryOutcome =
    | Rows(rows: seq<JsObject>)
    | Failed(message: string)

  /** A value an operation's promise resolves to. */
  datatype Reply =
    | Undef                        // `undefined`
    | NullUser                     // `null`
    | OneRow(row: JsObject)        // a single row
    | AllRows(rows: seq<JsObject>) // the whole row list

  /** How a call ends: its promise resolves or rejects, or the call throws
      before any query is made. */
  datatype Settled =
    | Resolved(value: Reply)
    | Rejected(message: string)
    | Thrown(message: string)

  // ---------------------------------------------------------------------------
  // Query texts

  const UserByEmailText: string := "SELECT * \n   FROM users\n   WHERE email = $1;\n  "

  const UserByIdText: string := "SELECT * \n   FROM users\n   WHERE id = $1;\n  "

  const ReservationsText: string :=
    "\n      SELECT properties.*, reservations.start_date, reservations.end_date, avg(rating) as average_rating"
    + "\n      FROM reservations"
    + "\n      JOIN properties ON reservations.property_id = properties.id"
    + "\n      JOIN property_reviews ON properties.id = property_reviews.property_id"
    + "\n      WHERE reservations.guest_id = $1"
    + "\n      AND reservations.end_date < now()::date"
    + "\n      GROUP BY properties.id, reservations.id"
    + "\n      ORDER BY reservations.start_date"
    + "\n      LIMIT $2;\n    "

  // ---------------------------------------------------------------------------
  // INSERT statements: column list and VALUES list

  /** An `INSERT ... RETURNING *` statement: the table, its column list (with a
      line break after each column whose index is in `breaks`), and the
      indentation of the VALUES tuple. */
  datatype Insert = Insert(table: string, columns: seq<string>, breaks: set<nat>, valuesIndent: string)

  const UsersInsert: Insert := Insert("users", ["name", "email", "password"], {}, "        ")

  const PropertiesInsert: Insert := Insert(
    "properties",
    ["owner_id", "title", "description", "thumbnail_photo_url", "cover_photo_url",
     "cost_per_night", "street", "city", "province", "post_code", "country", "parking_spaces",
     "number_of_bathrooms", "number_of_bedrooms"],
    {4, 11},
    "      ")

  /** The items separated by `, `, with a line break after the items whose
      index is in `breaks`. */
  function Joined(items: seq<string>, breaks: set<nat>): string
    decreases |items|
  {
    if items == [] then ""
    else if |items| == 1 then items[0]
    else
      Joined(items[..|items| - 1], breaks)
      + (if |items| - 2 in breaks then ", \n        " else ", ")
      + items[|items| - 1]
  }

  /** The placeholders `$1, ..., $n` of a VALUES tuple: the `k`-th reads back as `k`. */
  function ValuePlaceholders(n: nat): (ps: seq<string>)
    ensures |ps| == n
    ensures forall i :: 0 <= i < n ==>
      && 2 <= |ps[i]| && ps[i][0] == '$' && ps[i][1] != '0'
      && AllDigits(ps[i][1..]) && ParseDigits(ps[i][1..]) == i + 1
  {
    if n == 0 then []
    else
      var ps := ValuePlaceholders(n - 1) + ["$" + NatToText(n)];
      ParseNatToText(n);
      assert ps[n - 1][1..] == NatToText(n);
      ps
  }

  /** The text of an INSERT: one placeholder per column, in column order. */
  function InsertText(ins: Insert): string {
    "\n      INSERT INTO\n        " + ins.table + " (" + Joined(ins.columns, ins.breaks) + ")"
    + "\n      VALUES\n" + ins.valuesIndent + "(" + Joined(ValuePlaceholders(|ins.columns|), {}) + ")"
    + "\n      RETURNING *\n    "
  }

  const AddUserText: string := InsertText(UsersInsert)

  const AddPropertyText: string := InsertText(PropertiesInsert)

  /** The `k`-th bind parameter is the object's property named by the `k`-th
      column, which is the column the text's `$k` stands under. */
  predicate BindsColumns(ins: Insert, args: seq<JsValue>, obj: JsObject) {
    && |args| == |ins.columns|
    && forall i :: 0 <= i < |ins.columns| ==> args[i] == Get(obj, ins.columns[i])
  }

  // ---------------------------------------------------------------------------
  // The queries each operation issues

  /** `getUserWithEmail`: the one parameter is the email lower-cased, so it
      differs from the argument only in the case of its letters. */
  function UserByEmailQuery(email: string): (q: Query)
    ensures q.text == UserByEmailText && |q.args| == 1 && q.args[0].Str?
    ensures IsLowerCase(q.args[0].s) && EqualIgnoringCase(q.args[0].s, email)
  {
    ToLowerIsLowerCase(email);
    ToLowerKeepsLetters(email);
    Query(UserByEmailText, [Str(ToLower(email))])
  }

  /** `getUserWithId`: the id is passed as it is. */
  function UserByIdQuery(id: JsValue): (q: Query)
    ensures q.text == UserByIdText && |q.args| == 1 && q.args[0] == id
  {
    Query(UserByIdText, [id])
  }

  /** `addUser`: name, email and password, as given, under their columns. */
  function AddUserQuery(user: JsObject): (q: Query)
    ensures q.text == AddUserText && BindsColumns(UsersInsert, q.args, user)
  {
    Query(AddUserText, [Get(user, "name"), Get(user, "email"), Get(user, "password")])
  }

  /** `getAllReservations`: the guest id, then the limit, which is 10 when the
      argument is `undefined`. */
  function ReservationsQuery(guestId: JsValue, limit: JsValue): (q: Query)
    ensures q.text == ReservationsText && |q.args| == 2 && q.args[0] == guestId
    ensures limit.Undefined? ==> q.args[1] == Num(10)
    ensures !limit.Undefined? ==> q.args[1] == limit
  {
    Query(ReservationsText, [guestId, WithDefault(limit, Num(10))])
  }

  /** `addProperty`: the fourteen properties, each under its own column. */
  function AddPropertyQuery(property: JsObject): (q: Query)
    ensures q.text == AddPropertyText && BindsColumns(PropertiesInsert, q.args, property)
  {
    var args := [
      Get(property, "owner_id"),
      Get(property, "title"),
      Get(property, "description"),
      Get(property, "thumbnail_photo_url"),
      Get(property, "cover_photo_url"),
      Get(property, "cost_per_night"),
      Get(property, "street"),
      Get(property, "city"),
      Get(property, "province"),
      Get(property, "post_code"),
      Get(property, "country"),
      Get(property, "parking_spaces"),
      Get(property, "number_of_bathrooms"),
      Get(property, "number_of_bedrooms")
    ];
    var cols := PropertiesInsert.columns;
    assert forall i | 0 <= i < 7 :: args[i] == Get(property, cols[i]);
    assert forall i | 7 <= i < 14 :: args[i] == Get(property, cols[i]);
    Query(AddPropertyText, args)
  }

  // ---------------------------------------------------------------------------
  // Shaping what the pool answers

  /** A single-row lookup: the first row, `null` when there is none; a failed
      query is logged and the promise resolves to `undefined`. */
  function LookupReply(out: QueryOutcome): (r: Settled)
    ensures r.Resolved?
    ensures r.value.NullUser? <==> out == Rows([])
    ensures r.value.OneRow? <==> out.Rows? && out.rows != []
    ensures r.value.OneRow? ==> r.value.row == out.rows[0]
    ensures r.value.Undef? <==> out.Failed?
  {
    match out
    case Rows(rows) => Resolved(if |rows| > 0 then OneRow(rows[0]) else NullUser)
    case Failed(_) => Resolved(Undef)
  }

  /** An INSERT ... RETURNING: `rows[0]`, which is `undefined` when no row came
      back; a failed query is logged and the promise resolves to `undefined`. */
  function InsertReply(out: QueryOutcome): (r: Settled)
    ensures r.Resolved? && !r.value.NullUser? && !r.value.AllRows?
    ensures r.value.OneRow? <==> out.Rows? && out.rows != []
    ensures r.value.OneRow? ==> r.value.row == out.rows[0]
  {
    match out
    case Rows(rows) => Resolved(if |rows| > 0 then OneRow(rows[0]) else Undef)
    case Failed(_) => Resolved(Undef)
  }

  /** The reservations list: every row; a failed query is logged and the
      promise resolves to `undefined`. */
  function ListReply(out: QueryOutcome): (r: Settled)
    ensures r.Resolved?
    ensures r.value.AllRows? <==> out.Rows?
    ensures r.value.AllRows? ==> r.value.rows == out.rows
    ensures r.value.Undef? <==> out.Failed?
  {
    match out
    case Rows(rows) => Resolved(AllRows(rows))
    case Failed(_) => Resolved(Undef)
  }

  /** The property list: every row; there is no `catch`, so a failed query
      rejects the promise with the pool's error. */
  function PropertiesReply(out: QueryOutcome): (r: Settled)
    ensures r.Rejected? <==> out.Failed?
    ensures r.Rejected? ==> r.message == out.message
    ensures r.Resolved? <==> out.Rows?
    ensures r.Resolved? ==> r.value == AllRows(out.rows)
  {
    match out
    case Rows(rows) => Resolved(AllRows(rows))
    case Failed(message) => Rejected(message)
  }

  // ---------------------------------------------------------------------------
  // The operations

  /** `getUserWithEmail(email)`: the user whose stored email equals the
      lower-cased argument, `null` when there is none. Calling `toLowerCase`
      on anything but a string throws a TypeError before a query is made. */
  function GetUserWithEmail(email: JsValue, pool: Query -> QueryOutcome): (r: Settled)
    ensures r.Thrown? <==> !email.Str?
    ensures email.Str? ==> var out := pool(UserByEmailQuery(email.s));
      && r.Resolved?
      && (r.value.NullUser? <==> out == Rows([]))
      && (out.Rows? && out.rows != [] ==> r.value == OneRow(out.rows[0]))
      && (r.value.Undef? <==> out.Failed?)
  {
    match email
    case Str(e) => LookupReply(pool(UserByEmailQuery(e)))
    case Undefined => Thrown("TypeError: Cannot read properties of undefined (reading 'toLowerCase')")
    case Null => Thrown("TypeError: Cannot read properties of null (reading 'toLowerCase')")
    case _ => Thrown("TypeError: email.toLowerCase is not a function")
  }

  /** `getUserWithId(id)`: the first row for the id, `null` when there is none. */
  function GetUserWithId(id: JsValue, pool: Query -> QueryOutcome): (r: Settled)
    ensures var out := pool(UserByIdQuery(id));
      && r.Resolved?
      && (r.value.NullUser? <==> out == Rows([]))
      && (out.Rows? && out.rows != [] ==> r.value == OneRow(out.rows[0]))
      && (r.value.Undef? <==> out.Failed?)
  {
    LookupReply(pool(UserByIdQuery(id)))
  }

  /** `addUser(user)`: the inserted row as the database returns it. */
  function AddUser(user: JsObject, pool: Query -> QueryOutcome): (r: Settled)
    ensures var out := pool(AddUserQuery(user));
      && r.Resolved? && (r.value.Undef? || r.value.OneRow?)
      && (r.value.OneRow? <==> out.Rows? && out.rows != [])
      && (r.value.OneRow? ==> r.value.row == out.rows[0])
  {
    InsertReply(pool(AddUserQuery(user)))
  }

  /** `getAllReservations(guest_id, limit)`: every row the query returns. */
  function GetAllReservations(guestId: JsValue, limit: JsValue, pool: Query -> QueryOutcome): (r: Settled)
    ensures var out := pool(ReservationsQuery(guestId, limit));
      && r.Resolved?
      && (out.Rows? ==> r.value == AllRows(out.rows))
      && (out.Failed? ==> r.value == Undef)
  {
    ListReply(pool(ReservationsQuery(guestId, limit)))
  }

  /** `addProperty(property)`: the inserted row as the database returns it. */
  function AddProperty(property: JsObject, pool: Query -> QueryOutcome): (r: Settled)
    ensures var out := pool(AddPropertyQuery(property));
      && r.Resolved? && (r.value.Undef? || r.value.OneRow?)
      && (r.value.OneRow? <==> out.Rows? && out.rows != [])
      && (r.value.OneRow? ==> r.value.row == out.rows[0])
  {
    InsertReply(pool(AddPropertyQuery(property)))
  }

  /** `getAllProperties(options, limit)`: the built query goes to the pool, and
      the promise resolves to its rows or rejects with its error. */
  method GetAllProperties(options: PropertyListing.Options, limit: JsValue, pool: Query -> QueryOutcome)
    returns (q: Query, r: Settled)
    ensures var st := PropertyListing.Run(options, WithDefault(limit, Num(10)), PropertyListing.Program);
      q == Query(PropertyListing.QueryText(st.clauses), st.params)
    ensures |q.args| == |PropertyListing.TruthyFilters(options)| + 1
    ensures q.args[|q.args| - 1] == WithDefault(limit, Num(10))
    ensures r.Rejected? <==> pool(q).Failed?
    ensures r.Rejected? ==> r.message == pool(q).message
    ensures r.Resolved? <==> pool(q).Rows?
    ensures r.Resolved? ==> r.value == AllRows(pool(q).rows)
  {
    var text, params, clauses := PropertyListing.BuildQuery(options, limit);
    q := Query(text, params);
    r := PropertiesReply(pool(q));
  }

  // ---------------------------------------------------------------------------
  // Properties of the operations

  /** The email lookup ignores case: two emails that differ only in the case of
      their letters issue the same query, and so get the same answer. */
  lemma EmailLookupIgnoresCase(a: string, b: string, pool: Query -> QueryOutcome)
    ensures UserByEmailQuery(a) == UserByEmailQuery(b) <==> EqualIgnoringCase(a, b)
    ensures EqualIgnoringCase(a, b) ==> GetUserWithEmail(Str(a), pool) == GetUserWithEmail(Str(b), pool)
  {
    ToLowerIdentifiesCase(a, b);
    if UserByEmailQuery(a) == UserByEmailQuery(b) {
      assert [Str(ToLower(a))] == [Str(ToLower(b))];
      assert ToLower(a) == ToLower(b);
    }
  }

  /** Only `getAllProperties` lets a failed query reach its caller as a
      rejection; every other operation turns it into `undefined`, which a
      lookup caller cannot tell from a missing user only by truthiness. */
  lemma OnlyPropertyListingRejects(message: string)
    ensures LookupReply(Failed(message)) == Resolved(Undef)
    ensures InsertReply(Failed(message)) == Resolved(Undef)
    ensures ListReply(Failed(message)) == Resolved(Undef)
    ensures PropertiesReply(Failed(message)) == Rejected(message)
  {
  }

  // ---------------------------------------------------------------------------
  // Sign-up and log-in disagree on the case of the email

  /** As written, a user signed up with a string email is found by that same
      email only when it has no upper-case letter: `addUser` stores the email as
      given and the lookup's `email = $1` compares it exactly with the
      lower-cased argument. */
  lemma SignUpFoundOnlyWhenLowerCase(user: JsObject, email: string)
    requires Get(user, "email") == Str(email)
    ensures AddUserQuery(user).args[1] == UserByEmailQuery(email).args[0] <==> IsLowerCase(email)
  {
    ToLowerIsLowerCase(email);
  }

  /** A concrete sign-up whose email the lookup never matches. */
  lemma MixedCaseSignUpNotFound()
    ensures var user := map["name" := Str("Ann"), "email" := Str("Ann@lbnb.io"), "password" := Str("pw")];
      AddUserQuery(user).args[1] != UserByEmailQuery("Ann@lbnb.io").args[0]
  {
    var user := map["name" := Str("Ann"), "email" := Str("Ann@lbnb.io"), "password" := Str("pw")];
    assert Get(user, "email") == Str("Ann@lbnb.io");
    assert !IsLowerCase("Ann@lbnb.io") by {
      assert LowerChar("Ann@lbnb.io"[0]) != "Ann@lbnb.io"[0];
    }
    SignUpFoundOnlyWhenLowerCase(user, "Ann@lbnb.io");
  }

  /** `addUser` with the email lower-cased before it is stored, as the lookup
      expects. */
  function NormalizedAddUserQuery(user: JsObject): (q: Query)
    ensures q.text == AddUserText && |q.args| == 3
    ensures q.args[0] == Get(user, "name") && q.args[2] == Get(user, "password")
    ensures Get(user, "email").Str? ==>
      q.args[1].Str? && IsLowerCase(q.args[1].s) && EqualIgnoringCase(q.args[1].s, Get(user, "email").s)
    ensures !Get(user, "email").Str? ==> q.args[1] == Get(user, "email")
  {
    var email := Get(user, "email");
    ToLowerIsLowerCase(if email.Str? then email.s else "");
    ToLowerKeepsLetters(if email.Str? then email.s else "");
    Query(AddUserText, [Get(user, "name"), if email.Str? then Str(ToLower(email.s)) else email, Get(user, "password")])
  }

  /** With the email lower-cased on sign-up, the lookup finds the user by any
      spelling of the email that differs only in case. */
  lemma NormalizedSignUpFound(user: JsObject, stored: string, typed: string)
    requires Get(user, "email") == Str(stored)
    ensures NormalizedAddUserQuery(user).args[1] == UserByEmailQuery(typed).args[0]
            <==> EqualIgnoringCase(stored, typed)
  {
    ToLowerIdentifiesCase(stored, typed);
  }
}
