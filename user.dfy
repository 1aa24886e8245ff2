/**
 * The `User` entity: its fields, how it is built, and its conversions to and
 * from a storage row and a JSON object. No operation changes an existing User,
 * so it is a value.
 */
module Users {
  import opened Wrappers
  import opened Records

  /** A user; `id` is assigned by the storage and `password` holds a hash. */
  datatype User = User(
    id: Option<int>,
    name: string,
    email: string,
    password: Option<string>,
    imageUrl: Option<string>)

  /** The keys `makeRow` writes. */
  const RowKeys: set<string> := {"name", "email", "password", "imageUrl"}

  /** The keys `makeJSON` writes. */
  const JsonKeys: set<string> := {"id", "name", "email"}

  /** Creates a new User: no identifier yet, no password and an empty image URL unless given. */
  function NewUser(name: string, email: string, password: Option<string> := None,
                   imageUrl: Option<string> := Some("")): (u: User)
    ensures u.id.None?
    ensures u.name == name && u.email == email
    ensures u.password == password && u.imageUrl == imageUrl
  {
    User(None, name, email, password, imageUrl)
  }

  /**
   * `init(row:)`: reads `name` and `email` as required strings, then `password`
   * and `imageUrl` as optional strings, failing at the first key that does not fit.
   */
  function FromRow(row: Record): (r: Result<User, Error>)
    ensures r.Ok? <==>
      Lookup(row, "name").VStr? && Lookup(row, "email").VStr? &&
      !Lookup(row, "password").VInt? && !Lookup(row, "imageUrl").VInt?
    ensures r.Ok? ==>
      && r.value.id.None?
      && Lookup(row, "name") == VStr(r.value.name)
      && Lookup(row, "email") == VStr(r.value.email)
      && Lookup(row, "password") == FromOptString(r.value.password)
      && Lookup(row, "imageUrl") == FromOptString(r.value.imageUrl)
    ensures Lookup(row, "name").VNull? ==> r == Err(MissingKey("name"))
    ensures Lookup(row, "name").VInt? ==> r == Err(TypeMismatch("name"))
    ensures Lookup(row, "name").VStr? && Lookup(row, "email").VNull? ==> r == Err(MissingKey("email"))
    ensures Lookup(row, "name").VStr? && Lookup(row, "email").VInt? ==> r == Err(TypeMismatch("email"))
    ensures Lookup(row, "name").VStr? && Lookup(row, "email").VStr? && Lookup(row, "password").VInt? ==>
              r == Err(TypeMismatch("password"))
    ensures (Lookup(row, "name").VStr? && Lookup(row, "email").VStr? && !Lookup(row, "password").VInt? &&
             Lookup(row, "imageUrl").VInt?) ==> r == Err(TypeMismatch("imageUrl"))
  {
    var name :- GetString(row, "name");
    var email :- GetString(row, "email");
    var password :- GetOptString(row, "password");
    var imageUrl :- GetOptString(row, "imageUrl");
    Ok(User(None, name, email, password, imageUrl))
  }

  /** The `set` calls of `makeRow`, in order. */
  function RowEntries(u: User): seq<Entry>
  {
    [Entry("name", VStr(u.name)),
     Entry("email", VStr(u.email)),
     Entry("password", FromOptString(u.password)),
     Entry("imageUrl", FromOptString(u.imageUrl))]
  }

  /** `makeRow`: writes exactly the four stored fields, never the identifier. */
  function ToRow(u: User): (row: Record)
    ensures row.Keys == RowKeys
    ensures "id" !in row
  {
    var entries := RowEntries(u);
    assert DistinctKeys(entries);
    assert KeysOf(entries) == RowKeys by {
      assert entries[0].key == "name" && entries[1].key == "email";
      assert entries[2].key == "password" && entries[3].key == "imageUrl";
    }
    Build(entries)
  }

  /** The columns `prepare` declares for the users table. */
  function Columns(): (cols: seq<Column>)
    ensures |cols| == 5 && cols[0] == IdColumn
    ensures forall i :: 1 <= i < |cols| ==> cols[i].Typed? && cols[i].kind == StringType
  {
    [IdColumn, Typed("name", StringType), Typed("email", StringType),
     Typed("password", StringType), Typed("imageUrl", StringType)]
  }

  /**
   * `init(json:)`: reads `name` and `email` as required strings, then `id` as an
   * optional identifier. The password is never taken from the JSON and the image
   * URL is always the creation default.
   */
  function FromJson(json: Record): (r: Result<User, Error>)
    ensures r.Ok? <==>
      Lookup(json, "name").VStr? && Lookup(json, "email").VStr? && !Lookup(json, "id").VStr?
    ensures r.Ok? ==>
      && Lookup(json, "name") == VStr(r.value.name)
      && Lookup(json, "email") == VStr(r.value.email)
      && Lookup(json, "id") == FromOptInt(r.value.id)
      && r.value.password.None?
      && r.value.imageUrl == Some("")
    ensures Lookup(json, "name").VNull? ==> r == Err(MissingKey("name"))
    ensures Lookup(json, "name").VInt? ==> r == Err(TypeMismatch("name"))
    ensures Lookup(json, "name").VStr? && Lookup(json, "email").VNull? ==> r == Err(MissingKey("email"))
    ensures Lookup(json, "name").VStr? && Lookup(json, "email").VInt? ==> r == Err(TypeMismatch("email"))
    ensures Lookup(json, "name").VStr? && Lookup(json, "email").VStr? && Lookup(json, "id").VStr? ==>
              r == Err(TypeMismatch("id"))
  {
    var name :- GetString(json, "name");
    var email :- GetString(json, "email");
    var id :- GetOptInt(json, "id");
    Ok(NewUser(name, email).(id := id))
  }

  /** The `set` calls of `makeJSON`, in order. */
  function JsonEntries(u: User): seq<Entry>
  {
    [Entry("id", FromOptInt(u.id)),
     Entry("name", VStr(u.name)),
     Entry("email", VStr(u.email))]
  }

  /** `makeJSON`: exposes the identifier, name and email, and never the password or image URL. */
  function ToJson(u: User): (json: Record)
    ensures json.Keys == JsonKeys
    ensures "password" !in json && "imageUrl" !in json
  {
    var entries := JsonEntries(u);
    assert DistinctKeys(entries);
    assert KeysOf(entries) == JsonKeys by {
      assert entries[0].key == "id" && entries[1].key == "name" && entries[2].key == "email";
    }
    Build(entries)
  }

  /** Without a password or image URL, a new User has no password and an empty image URL. */
  lemma NewUserDefaults(name: string, email: string)
    ensures NewUser(name, email) == User(None, name, email, None, Some(""))
  {
  }

  /** The values `makeRow` stores under each of its keys. */
  lemma RowValues(u: User)
    ensures ToRow(u)["name"] == VStr(u.name) && ToRow(u)["email"] == VStr(u.email)
    ensures ToRow(u)["password"] == FromOptString(u.password)
    ensures ToRow(u)["imageUrl"] == FromOptString(u.imageUrl)
  {
    var entries := RowEntries(u);
    assert entries[0].key == "name" && entries[1].key == "email";
    assert entries[2].key == "password" && entries[3].key == "imageUrl";
  }

  /** Reading back a written row restores every stored field; the identifier is not stored. */
  lemma RowRoundTrip(u: User)
    ensures FromRow(ToRow(u)) == Ok(u.(id := None))
  {
    RowValues(u);
    var r := FromRow(ToRow(u));
    assert r.value.password == u.password by { FromOptStringInjective(r.value.password, u.password); }
    assert r.value.imageUrl == u.imageUrl by { FromOptStringInjective(r.value.imageUrl, u.imageUrl); }
  }

  /** The values `makeJSON` stores under each of its keys. */
  lemma JsonValues(u: User)
    ensures ToJson(u)["id"] == FromOptInt(u.id)
    ensures ToJson(u)["name"] == VStr(u.name) && ToJson(u)["email"] == VStr(u.email)
  {
    var entries := JsonEntries(u);
    assert entries[0].key == "id" && entries[1].key == "name" && entries[2].key == "email";
  }

  /** Reading back a written JSON object restores the identifier, name and email only. */
  lemma JsonRoundTrip(u: User)
    ensures FromJson(ToJson(u)) == Ok(User(u.id, u.name, u.email, None, Some("")))
  {
    JsonValues(u);
    var r := FromJson(ToJson(u));
    assert r.value.id == u.id by { FromOptIntInjective(r.value.id, u.id); }
  }

  /** Whatever a JSON object holds under `password` and `imageUrl` has no effect on `init(json:)`. */
  lemma FromJsonIgnoresPasswordAndImage(json: Record, password: Value, imageUrl: Value)
    ensures FromJson(json["password" := password]["imageUrl" := imageUrl]) == FromJson(json)
  {
  }

  /** The table declared by `prepare` has a column for the identifier and for each row key, and no other. */
  lemma ColumnsMatchRow()
    ensures ColumnNames(Columns()) == RowKeys + {"id"}
  {
    var cols := Columns();
    assert ColumnName(cols[0]) == "id" && ColumnName(cols[1]) == "name" && ColumnName(cols[2]) == "email";
    assert ColumnName(cols[3]) == "password" && ColumnName(cols[4]) == "imageUrl";
    assert ColumnNames(cols) == {"id", "name", "email", "password", "imageUrl"} by {
      forall k | k in ColumnNames(cols) ensures k in {"id", "name", "email", "password", "imageUrl"} {
        var i :| 0 <= i < |cols| && ColumnName(cols[i]) == k;
      }
    }
  }
}
